/**
 The file-based memory: one file per entry, recall by substring search.
 */
module MarkdownStore {
  import opened Wrappers
  import opened Text
  import opened MemoryTypes
  import opened FrontMatter
  import opened Sorting

  // ---- file names ----

  predicate Unsafe(c: char) {
    c == '/' || c == '\\' || c == '\0'
  }

  function ReplaceUnsafe(s: string): (r: string)
    ensures |r| == |s| && forall c | c in r :: !Unsafe(c)
  {
    seq(|s|, i requires 0 <= i < |s| => if Unsafe(s[i]) then '_' else s[i])
  }

  /** Every `..`, from the left, becomes `__`. */
  function ReplaceDots(s: string): string {
    if |s| >= 2 && s[0] == '.' && s[1] == '.' then "__" + ReplaceDots(s[2..])
    else if s == "" then ""
    else [s[0]] + ReplaceDots(s[1..])
  }

  predicate Edge(c: char) {
    c == '_' || c == '.'
  }

  function TrimEdgesStart(s: string): (r: string)
    ensures |r| <= |s| && r == s[|s| - |r|..] && (r == "" || !Edge(r[0]))
  {
    if s == "" || !Edge(s[0]) then s else TrimEdgesStart(s[1..])
  }

  function TrimEdgesEnd(s: string): (r: string)
    ensures r <= s && (r == "" || !Edge(r[|r| - 1]))
  {
    if s == "" || !Edge(s[|s| - 1]) then s else TrimEdgesEnd(s[..|s| - 1])
  }

  function SafeName(key: string): string {
    var name := TrimEdgesEnd(TrimEdgesStart(ReplaceDots(ReplaceUnsafe(key))));
    if name == "" then "_" else name
  }

  function KeyToPath(key: string): string {
    SafeName(key) + ".md"
  }

  predicate NoDoubleDot(s: string) {
    forall i | 0 <= i && i + 1 < |s| :: s[i] == '.' ==> s[i + 1] != '.'
  }

  lemma {:induction false} DotsReplaced(s: string)
    requires forall c | c in s :: !Unsafe(c)
    ensures NoDoubleDot(ReplaceDots(s)) && forall c | c in ReplaceDots(s) :: !Unsafe(c)
    ensures ReplaceDots(s) != "" && ReplaceDots(s)[0] == '.' ==> s != "" && s[0] == '.'
    decreases |s|
  {
    if |s| >= 2 && s[0] == '.' && s[1] == '.' {
      DotsReplaced(s[2..]);
      assert ReplaceDots(s) == "__" + ReplaceDots(s[2..]);
    } else if s != "" {
      DotsReplaced(s[1..]);
      assert s[0] in s;
      assert ReplaceDots(s) == [s[0]] + ReplaceDots(s[1..]);
    }
  }

  predicate CleanText(s: string) {
    NoDoubleDot(s) && forall c | c in s :: !Unsafe(c)
  }

  lemma CleanSubstring(s: string, i: nat, j: nat)
    requires CleanText(s) && i <= j <= |s|
    ensures CleanText(s[i..j])
  {
    var t := s[i..j];
    forall k | 0 <= k && k + 1 < |t| ensures t[k] == '.' ==> t[k + 1] != '.' {
      assert t[k] == s[i + k] && t[k + 1] == s[(i + k) + 1];
    }
    forall c | c in t ensures !Unsafe(c) {
      assert c in s;
    }
  }

  lemma TrimmedClean(dots: string)
    requires CleanText(dots)
    ensures CleanText(TrimEdgesEnd(TrimEdgesStart(dots)))
  {
    var start := TrimEdgesStart(dots);
    var name := TrimEdgesEnd(start);
    CleanSubstring(dots, |dots| - |start|, |dots|);
    CleanSubstring(start, 0, |name|);
    hide CleanText, TrimEdgesStart, TrimEdgesEnd;
    assert name == start[0..|name|] && start == dots[|dots| - |start|..|dots|];
  }

  lemma TrimmedEdges(dots: string)
    ensures var name := TrimEdgesEnd(TrimEdgesStart(dots));
            name != "" ==> !Edge(name[0]) && !Edge(name[|name| - 1])
  {
  }

  lemma ReplacedClean(key: string)
    ensures CleanText(ReplaceDots(ReplaceUnsafe(key)))
  {
    DotsReplaced(ReplaceUnsafe(key));
  }

  lemma UnderscoreClean()
    ensures CleanText("_")
  {
  }

  lemma CleanName(key: string)
    ensures CleanText(SafeName(key)) && SafeName(key) != ""
    ensures SafeName(key)[0] != '.' && SafeName(key)[|SafeName(key)| - 1] != '.'
  {
    hide ReplaceDots, ReplaceUnsafe, TrimEdgesStart, TrimEdgesEnd, CleanText;
    var dots := ReplaceDots(ReplaceUnsafe(key));
    ReplacedClean(key);
    TrimmedClean(dots);
    TrimmedEdges(dots);
    UnderscoreClean();
  }

  /** Whatever the key, its file lies in the directory itself: no separator, no NUL, no `..`. */
  lemma PathStaysInside(key: string)
    ensures forall c | c in KeyToPath(key) :: c != '/' && c != '\\' && c != '\0'
    ensures NoDoubleDot(KeyToPath(key)) && |KeyToPath(key)| > 3 && KeyToPath(key)[0] != '.'
    ensures KeyToPath(key)[|KeyToPath(key)| - 3..] == ".md"
  {
    CleanName(key);
    hide SafeName;
    var name, path := SafeName(key), KeyToPath(key);
    forall i | 0 <= i && i + 1 < |path| ensures path[i] == '.' ==> path[i + 1] != '.' {
      if i + 1 < |name| { assert path[i] == name[i] && path[i + 1] == name[i + 1]; }
    }
  }

  /** Separators and NUL become underscores, dots that stand together too, and nothing else changes. */
  predicate IsReplaced(key: string, text: string) {
    && |text| == |key|
    && forall i | 0 <= i < |key| ::
         if key[i] == '/' || key[i] == '\\' || key[i] == '\0' then text[i] == '_'
         else if key[i] == '.' then IsReplacedDot(key, text, i)
         else text[i] == key[i]
  }

  predicate IsReplacedDot(key: string, text: string, i: nat)
    requires i < |key| == |text|
  {
    var before, behind := i > 0 && key[i - 1] == '.', i + 1 < |key| && key[i + 1] == '.';
    && (text[i] == '.' || text[i] == '_')
    && (!before && !behind ==> text[i] == '.')
    && (behind ==> text[i] == '_')
  }

  /** `name` is the text without the underscores and dots at its ends, or one underscore if nothing is left. */
  predicate IsTrimmedTo(text: string, lo: nat, hi: nat, name: string) {
    && lo <= hi <= |text|
    && (forall i | 0 <= i < |text| && (i < lo || hi <= i) :: text[i] == '_' || text[i] == '.')
    && name == if lo == hi then "_" else text[lo..hi]
  }

  lemma {:induction false} DotsReplacedAt(s: string, i: nat)
    requires i < |s|
    ensures |ReplaceDots(s)| == |s|
    ensures if s[i] == '.' then IsReplacedDot(s, ReplaceDots(s), i) else ReplaceDots(s)[i] == s[i]
    decreases |s|
  {
    var width := if |s| >= 2 && s[0] == '.' && s[1] == '.' then 2 else 1;
    var rest := s[width..];
    assert ReplaceDots(s) == (if width == 2 then "__" else [s[0]]) + ReplaceDots(rest);
    if rest != "" {
      DotsReplacedAt(rest, if i < width then 0 else i - width);
    } else {
      assert ReplaceDots("") == "";
    }
  }

  lemma TextIsReplaced(key: string)
    ensures IsReplaced(key, ReplaceDots(ReplaceUnsafe(key)))
  {
    var text := ReplaceUnsafe(key);
    if key == "" { assert ReplaceDots(text) == ""; }
    forall i | 0 <= i < |key|
      ensures |ReplaceDots(text)| == |key|
      ensures if Unsafe(key[i]) then ReplaceDots(text)[i] == '_'
              else if key[i] == '.' then IsReplacedDot(key, ReplaceDots(text), i)
              else ReplaceDots(text)[i] == key[i]
    {
      DotsReplacedAt(text, i);
    }
  }

  lemma {:induction false} StartTrimmed(s: string, i: nat)
    requires i < |s| - |TrimEdgesStart(s)|
    ensures s[i] == '_' || s[i] == '.'
  {
    if i > 0 { StartTrimmed(s[1..], i - 1); }
  }

  lemma {:induction false} EndTrimmed(s: string, i: nat)
    requires |TrimEdgesEnd(s)| <= i < |s|
    ensures s[i] == '_' || s[i] == '.'
    decreases |s|
  {
    if i < |s| - 1 { EndTrimmed(s[..|s| - 1], i); }
  }

  lemma EdgesTrimmed(text: string)
    ensures var start := TrimEdgesStart(text);
            var lo, name := |text| - |start|, TrimEdgesEnd(start);
            IsTrimmedTo(text, lo, lo + |name|, if name == "" then "_" else name)
  {
    hide TrimEdgesStart, TrimEdgesEnd;
    var start := TrimEdgesStart(text);
    var name, lo := TrimEdgesEnd(start), |text| - |start|;
    forall i | 0 <= i < lo ensures text[i] == '_' || text[i] == '.' { StartTrimmed(text, i); }
    forall i | |name| <= i < |start| ensures start[i] == '_' || start[i] == '.' { EndTrimmed(start, i); }
    TrimmedTo(text, start, name);
  }

  lemma TrimmedTo(text: string, start: string, name: string)
    requires |start| <= |text| && start == text[|text| - |start|..] && name <= start
    requires forall i | 0 <= i < |text| - |start| :: text[i] == '_' || text[i] == '.'
    requires forall i | |name| <= i < |start| :: start[i] == '_' || start[i] == '.'
    ensures var lo := |text| - |start|; IsTrimmedTo(text, lo, lo + |name|, if name == "" then "_" else name)
  {
    var lo := |text| - |start|;
    assert forall i | lo <= i < |text| :: text[i] == start[i - lo];
    assert name == start[..|name|];
    assert text[lo..lo + |name|] == start[..|name|];
  }

  /** What a key's file is called. */
  lemma NameIsSanitised(key: string)
    ensures exists text, lo, hi :: IsReplaced(key, text) && IsTrimmedTo(text, lo, hi, SafeName(key))
  {
    hide IsReplaced, IsTrimmedTo, ReplaceDots, ReplaceUnsafe, TrimEdgesStart, TrimEdgesEnd;
    var text := ReplaceDots(ReplaceUnsafe(key));
    TextIsReplaced(key);
    EdgesTrimmed(text);
    var start := TrimEdgesStart(text);
    var lo, name := |text| - |start|, TrimEdgesEnd(start);
    assert IsTrimmedTo(text, lo, lo + |name|, SafeName(key));
  }

  /** Every key shares its file with another key: a leading underscore is stripped. */
  lemma PathsCollide(key: string)
    ensures "_" + key != key && KeyToPath("_" + key) == KeyToPath(key)
  {
    UnderscoreInFront(key);
    hide ReplaceDots, TrimEdgesStart, TrimEdgesEnd, ReplaceUnsafe;
    assert |"_" + key| != |key|;
  }

  /** A leading underscore passes through the replacements and is trimmed. */
  lemma UnderscoreInFront(key: string)
    ensures ReplaceUnsafe("_" + key) == "_" + ReplaceUnsafe(key)
    ensures ReplaceDots("_" + ReplaceUnsafe(key)) == "_" + ReplaceDots(ReplaceUnsafe(key))
    ensures TrimEdgesStart("_" + ReplaceDots(ReplaceUnsafe(key))) == TrimEdgesStart(ReplaceDots(ReplaceUnsafe(key)))
  {
    var unsafe := ReplaceUnsafe(key);
    var dots := ReplaceDots(unsafe);
    assert ("_" + unsafe)[1..] == unsafe && ("_" + dots)[1..] == dots;
  }

  /** Keys that sanitising leaves alone: clean text without underscore or dot at either end, or a lone underscore. */
  predicate SafeKey(key: string) {
    key == "_" || (key != "" && CleanText(key) && !Edge(key[0]) && !Edge(key[|key| - 1]))
  }

  lemma {:induction false} DotsUntouched(s: string)
    requires NoDoubleDot(s)
    ensures ReplaceDots(s) == s
  {
    if s != "" {
      assert NoDoubleDot(s[1..]) by {
        forall i | 0 <= i && i + 1 < |s[1..]| ensures s[1..][i] == '.' ==> s[1..][i + 1] != '.' {
          assert s[1..][i] == s[i + 1] && s[1..][i + 1] == s[(i + 1) + 1];
        }
      }
      assert |s| >= 2 ==> !(s[0] == '.' && s[0 + 1] == '.');
      DotsUntouched(s[1..]);
      assert s == [s[0]] + s[1..];
    }
  }

  /** These are exactly the keys that are their own safe name. */
  lemma SafeKeysExactly(key: string)
    ensures SafeName(key) == key <==> SafeKey(key)
  {
    if key == "_" {
      var one := ReplaceUnsafe("_");
      assert one == "_" && ReplaceDots("_"[1..]) == "" && ReplaceDots("_") == "_";
      assert "_"[1..] == "" && TrimEdgesStart("_") == "";
    } else if SafeKey(key) {
      SafeKeyUntouched(key);
    } else if SafeName(key) == key {
      CleanName(key);
      TrimmedEdges(ReplaceDots(ReplaceUnsafe(key)));
    }
  }

  lemma SafeKeyUntouched(key: string)
    requires key != "" && CleanText(key) && !Edge(key[0]) && !Edge(key[|key| - 1])
    ensures SafeName(key) == key
  {
    NothingUnsafe(key);
    DotsUntouched(key);
    hide CleanText, ReplaceUnsafe, ReplaceDots;
  }

  lemma NothingUnsafe(s: string)
    requires forall c | c in s :: !Unsafe(c)
    ensures ReplaceUnsafe(s) == s
  {
    assert forall i | 0 <= i < |s| :: s[i] in s;
  }

  /** On such keys file names are injective; elsewhere they are the file names of such keys. */
  lemma SafeKeysHaveTheirOwnFile(a: string, b: string)
    ensures SafeKey(a) && SafeKey(b) && KeyToPath(a) == KeyToPath(b) ==> a == b
    ensures SafeKey(SafeName(a)) && KeyToPath(SafeName(a)) == KeyToPath(a)
  {
    SafeKeysExactly(a);
    SafeKeysExactly(b);
    SafeNameIsSafe(a);
    SafeKeysExactly(SafeName(a));
    hide SafeName, SafeKey;
    assert SafeName(a) == KeyToPath(a)[..|SafeName(a)|];
    assert SafeName(b) == KeyToPath(b)[..|SafeName(b)|];
  }

  lemma SafeNameIsSafe(key: string)
    ensures SafeKey(SafeName(key))
  {
    hide CleanText, ReplaceDots, ReplaceUnsafe, TrimEdgesStart, TrimEdgesEnd;
    CleanName(key);
    TrimmedEdges(ReplaceDots(ReplaceUnsafe(key)));
  }

  // ---- relevance ----

  /** Occurrences counted one behind the other. */
  function Count(hay: string, q: string, from: nat): nat
    requires q != "" && from <= |hay|
    decreases |hay| - from
  {
    match Find(hay, q, from)
    case None => 0
    case Some(i) => 1 + Count(hay, q, i + |q|)
  }

  /** Pairwise disjoint occurrences from `from` on, in order. */
  ghost predicate Disjoint(hay: string, q: string, from: nat, at: seq<nat>) {
    && (forall i | 0 <= i < |at| :: from <= at[i] && OccursAt(hay, q, at[i]))
    && (forall i, j | 0 <= i < j < |at| :: at[i] + |q| <= at[j])
  }

  lemma LaterStarts(hay: string, q: string, from: nat, at: seq<nat>, next: nat)
    requires Disjoint(hay, q, from, at) && at != [] && next <= at[0] + |q|
    ensures Disjoint(hay, q, next, at[1..])
  {
    hide OccursAt;
  }

  /** No choice of disjoint occurrences beats counting from the left. */
  lemma {:induction false} CountIsLargest(hay: string, q: string, from: nat, at: seq<nat>)
    requires q != "" && from <= |hay| && Disjoint(hay, q, from, at)
    ensures |at| <= Count(hay, q, from)
    decreases |at|
  {
    FindMeaning(hay, q, from);
    if at != [] {
      assert OccursAt(hay, q, at[0]);
      match Find(hay, q, from)
      case None =>
      case Some(i) =>
        LaterStarts(hay, q, from, at, i + |q|);
        CountIsLargest(hay, q, i + |q|, at[1..]);
    }
  }

  lemma {:induction false} CountIsReached(hay: string, q: string, from: nat) returns (at: seq<nat>)
    requires q != "" && from <= |hay|
    ensures Disjoint(hay, q, from, at) && |at| == Count(hay, q, from)
    decreases |hay| - from
  {
    FindMeaning(hay, q, from);
    match Find(hay, q, from)
    case None => at := [];
    case Some(i) =>
      var rest := CountIsReached(hay, q, i + |q|);
      at := [i] + rest;
  }

  /** The count is the largest number of pairwise disjoint occurrences. */
  lemma CountIsMaximum(hay: string, q: string)
    requires q != ""
    ensures exists at :: Disjoint(hay, q, 0, at) && |at| == Count(hay, q, 0)
    ensures forall at :: Disjoint(hay, q, 0, at) ==> |at| <= Count(hay, q, 0)
  {
    var reached := CountIsReached(hay, q, 0);
    forall at | Disjoint(hay, q, 0, at) ensures |at| <= Count(hay, q, 0) { CountIsLargest(hay, q, 0, at); }
  }

  method CountOccurrences(hay: string, q: string) returns (count: nat)
    requires q != ""
    ensures count == Count(hay, q, 0)
  {
    hide Find;
    count := 0;
    var pos: nat := 0;
    while true
      invariant pos <= |hay| && count + Count(hay, q, pos) == Count(hay, q, 0)
      decreases |hay| - pos
    {
      var found := Find(hay, q, pos);
      if found.None? {
        return;
      }
      count := count + 1;
      pos := found.value + |q|;
    }
  }

  // ---- the store ----

  /** Entries of a scope: everything but conversation is topic-free; a clean scope has nothing. */
  predicate MatchesScope(e: MemoryEntry, scope: RecallScope) {
    match scope
    case Clean => false
    case Full => true
    case FactsOnly => !e.category.Conversation?
    case CurrentTopic(t) => e.category.Conversation? ==> e.topic == Some(t)
  }

  /** Only conversation entries are bound to a session. */
  predicate MatchesSession(e: MemoryEntry, session: Option<string>) {
    e.category.Conversation? && session.Some? ==> e.session == session
  }

  class MarkdownMemory {
    /** The library's lower-casing. */
    const lower: string -> string
    var files: map<string, string>

    constructor (lower: string -> string)
      ensures this.lower == lower && files == map[]
    {
      this.lower := lower;
      files := map[];
    }

    /** Some file reads as this entry. */
    ghost predicate Stored(e: MemoryEntry)
      reads this
    {
      exists p | p in files :: Parsed(files[p]) == Some(e)
    }

    /** No two files read as the same entry. */
    ghost predicate DistinctFiles()
      reads this
    {
      forall p, q | p in files && q in files && p != q && Parsed(files[p]).Some? :: Parsed(files[p]) != Parsed(files[q])
    }

    method WriteEntry(e: MemoryEntry, stamp: string)
      modifies this`files
      ensures files == old(files)[KeyToPath(e.key) := Written(e, stamp)]
    {
      files := files[KeyToPath(e.key) := Written(e, stamp)];
    }

    method Get(key: string) returns (r: Option<MemoryEntry>)
      ensures r == if KeyToPath(key) in files then Parsed(files[KeyToPath(key)]) else None
    {
      if KeyToPath(key) in files {
        r := ParseMarkdownEntry(files[KeyToPath(key)]);
      } else {
        r := None;
      }
    }

    /** Writing an entry and reading its key gives it back exactly if it is well formed. */
    method StoreThenGet(e: MemoryEntry, stamp: string) returns (r: Option<MemoryEntry>)
      requires '\n' !in stamp
      modifies this`files
      ensures r == Some(e) <==> WellFormed(e)
      ensures OneLineHeader(e) ==> r == Normal(e)
      ensures forall p | p != KeyToPath(e.key) :: (p in files <==> p in old(files)) && (p in files ==> files[p] == old(files)[p])
    {
      hide KeyToPath, Parsed, Written, WellFormed, Normal, OneLineHeader;
      WriteEntry(e, stamp);
      r := Get(e.key);
      RoundTripExactly(e, stamp);
      if OneLineHeader(e) {
        WrittenReadsAsNormal(e, stamp);
      }
    }

    method Forget(key: string) returns (removed: bool)
      modifies this`files
      ensures removed == (KeyToPath(key) in old(files))
      ensures files == old(files) - {KeyToPath(key)}
    {
      removed := KeyToPath(key) in files;
      files := files - {KeyToPath(key)};
    }

    /** The entries of these files, each file once. */
    ghost predicate AreRead(entries: seq<MemoryEntry>, paths: seq<string>)
      reads this
    {
      && |paths| == |entries| && NoDuplicates(paths)
      && forall i | 0 <= i < |paths| :: paths[i] in files && Parsed(files[paths[i]]) == Some(entries[i])
    }

    /** All readable entries, in the order of the directory. */
    method AllEntries() returns (entries: seq<MemoryEntry>, ghost paths: seq<string>)
      ensures AreRead(entries, paths)
      ensures forall p | p in files && Parsed(files[p]).Some? :: p in paths
    {
      hide Parsed;
      entries, paths := [], [];
      var rest := files.Keys;
      while rest != {}
        invariant rest <= files.Keys && AreRead(entries, paths)
        invariant forall p | p in paths :: p !in rest
        invariant forall p | p in files && p !in rest && Parsed(files[p]).Some? :: p in paths
        decreases rest
      {
        var path :| path in rest;
        var parsed := ParseMarkdownEntry(files[path]);
        rest := rest - {path};
        if parsed.Some? {
          entries, paths := entries + [parsed.value], paths + [path];
        }
      }
    }

    /** Entries read from different files differ if no two files read alike. */
    lemma ReadApart(entries: seq<MemoryEntry>, paths: seq<string>)
      requires AreRead(entries, paths) && DistinctFiles()
      ensures NoDuplicates(entries)
    {
      hide Parsed;
    }

    /** What is read from all readable files are the stored entries. */
    lemma ReadAll(entries: seq<MemoryEntry>, paths: seq<string>)
      requires AreRead(entries, paths) && forall p | p in files && Parsed(files[p]).Some? :: p in paths
      ensures forall e :: e in entries <==> Stored(e)
    {
      hide Parsed;
      forall e | Stored(e) ensures e in entries {
        var p :| p in files && Parsed(files[p]) == Some(e);
        var i :| 0 <= i < |paths| && paths[i] == p;
        assert entries[i] == e;
      }
    }

    /** The filters of a recall. */
    predicate Passes(e: MemoryEntry, query: string, session: Option<string>, scope: RecallScope) {
      && MatchesSession(e, session) && MatchesScope(e, scope)
      && (Contains(lower(e.content), lower(query)) || Contains(lower(e.key), lower(query)))
    }

    function Relevance(e: MemoryEntry, query: string): nat {
      if lower(query) == "" then 0 else Count(lower(e.content), lower(query), 0)
    }

    /** The relevance of an entry is the largest number of disjoint occurrences of the query in its content. */
    lemma RelevanceCounts(e: MemoryEntry, query: string)
      requires lower(query) != ""
      ensures exists at :: Disjoint(lower(e.content), lower(query), 0, at) && |at| == Relevance(e, query)
      ensures forall at :: Disjoint(lower(e.content), lower(query), 0, at) ==> |at| <= Relevance(e, query)
    {
      CountIsMaximum(lower(e.content), lower(query));
    }

    ghost predicate PassingFile(p: string, query: string, session: Option<string>, scope: RecallScope)
      reads this
    {
      p in files && Parsed(files[p]).Some? && Passes(Parsed(files[p]).value, query, session, scope)
    }

    /**
     Entries are compared, and occurrences counted, only if two files pass; counting does not end
     for an empty query.
     */
    ghost predicate CountingEnds(query: string, session: Option<string>, scope: RecallScope)
      reads this
    {
      lower(query) == "" ==>
        forall p, q | PassingFile(p, query, session, scope) && PassingFile(q, query, session, scope) :: p == q
    }

    /** The best `limit` entries that pass the filters. */
    method Recall(query: string, limit: nat, session: Option<string>, scope: RecallScope)
        returns (results: seq<MemoryEntry>)
      requires CountingEnds(query, session, scope)
      ensures scope.Clean? ==> results == []
      ensures |results| <= limit
      ensures forall e | e in results :: Stored(e) && Passes(e, query, session, scope)
      ensures forall i, j | 0 <= i < j < |results| :: Relevance(results[i], query) >= Relevance(results[j], query)
      ensures DistinctFiles() ==> NoDuplicates(results)
      ensures forall e | Stored(e) && Passes(e, query, session, scope) && e !in results ::
                |results| == limit && forall r | r in results :: Relevance(r, query) >= Relevance(e, query)
    {
      hide MatchesScope, MatchesSession, Contains, Count, Parsed;
      if scope.Clean? {
        NothingInCleanScope();
        return [];
      }
      var passing, paths := Filtered(query, session, scope);
      if |passing| >= 2 {
        assert PassingFile(paths[0], query, session, scope) && PassingFile(paths[1], query, session, scope);
        assert lower(query) != "";
        results := Best(passing, limit, (e: MemoryEntry) => Relevance(e, query));
      } else {
        results := passing[..if limit < |passing| then limit else |passing|];
      }
    }

    /** The entries that pass, in order; `at` are their positions. */
    method Select(all: seq<MemoryEntry>, query: string, session: Option<string>, scope: RecallScope)
      returns (passing: seq<MemoryEntry>, ghost at: seq<nat>)
      ensures |at| == |passing| && forall k | 0 <= k < |at| :: at[k] < |all| && passing[k] == all[at[k]]
      ensures forall k, l | 0 <= k < l < |at| :: at[k] < at[l]
      ensures forall e :: e in passing <==> e in all && Passes(e, query, session, scope)
    {
      hide Contains;
      passing, at := [], [];
      for i := 0 to |all|
        invariant |at| == |passing|
        invariant forall k | 0 <= k < |at| :: at[k] < i && passing[k] == all[at[k]]
        invariant forall k, l | 0 <= k < l < |at| :: at[k] < at[l]
        invariant forall e | e in passing :: e in all && Passes(e, query, session, scope)
        invariant forall j | 0 <= j < i && Passes(all[j], query, session, scope) :: all[j] in passing
      {
        var e := all[i];
        var fits := true;
        if e.category.Conversation? && session.Some? && e.session != session {
          fits := false;
        }
        match scope {
          case Clean => fits := false;
          case Full =>
          case FactsOnly => if e.category.Conversation? { fits := false; }
          case CurrentTopic(t) => if e.category.Conversation? && e.topic != Some(t) { fits := false; }
        }
        if fits && (Contains(lower(e.content), lower(query)) || Contains(lower(e.key), lower(query))) {
          passing, at := passing + [all[i]], at + [i];
        }
      }
    }

    method Filtered(query: string, session: Option<string>, scope: RecallScope)
      returns (passing: seq<MemoryEntry>, ghost paths: seq<string>)
      ensures AreRead(passing, paths)
      ensures forall e :: e in passing <==> Stored(e) && Passes(e, query, session, scope)
      ensures DistinctFiles() ==> NoDuplicates(passing)
    {
      ghost var allPaths, at;
      var all;
      all, allPaths := AllEntries();
      ReadAll(all, allPaths);
      hide *;
      passing, at := Select(all, query, session, scope);
      paths := ReadSome(all, allPaths, passing, at);
      if DistinctFiles() { ReadApart(passing, paths); }
    }

    /** A selection of the entries was read from as many different files. */
    lemma ReadSome(all: seq<MemoryEntry>, allPaths: seq<string>, some: seq<MemoryEntry>, at: seq<nat>)
      returns (paths: seq<string>)
      requires AreRead(all, allPaths) && |at| == |some|
      requires forall k | 0 <= k < |at| :: at[k] < |all| && some[k] == all[at[k]]
      requires forall k, l | 0 <= k < l < |at| :: at[k] < at[l]
      ensures AreRead(some, paths)
    {
      hide Parsed;
      paths := seq(|at|, k requires 0 <= k < |at| => allPaths[at[k]]);
    }
  }

  /** The `limit` items of highest count, best first. */
  method Best(items: seq<MemoryEntry>, limit: nat, count: MemoryEntry -> nat) returns (results: seq<MemoryEntry>)
    ensures |results| <= limit && forall e | e in results :: e in items
    ensures forall i, j | 0 <= i < j < |results| :: count(results[i]) >= count(results[j])
    ensures NoDuplicates(items) ==> NoDuplicates(results)
    ensures forall e | e in items && e !in results ::
              |results| == limit && forall r | r in results :: count(r) >= count(e)
  {
    var weight := (e: MemoryEntry) => count(e) as real;
    var sorted := SortDescending(items, weight);
    SameElements(sorted, items);
    if NoDuplicates(items) { PermutationHasNoDuplicates(sorted, items); }
    results := sorted[..if limit < |sorted| then limit else |sorted|];
    forall i, j | 0 <= i < j < |sorted| ensures count(sorted[i]) >= count(sorted[j]) {
      assert weight(sorted[i]) >= weight(sorted[j]);
    }
    forall e | e in items && e !in results
      ensures |results| == limit && forall r | r in results :: count(r) >= count(e)
    {
      var j :| 0 <= j < |sorted| && sorted[j] == e;
      assert j >= |results|;
    }
  }

  lemma NothingInCleanScope()
    ensures forall e :: !MatchesScope(e, Clean)
  {
  }

  predicate NoDuplicates<T(==)>(s: seq<T>) {
    forall i, j | 0 <= i < j < |s| :: s[i] != s[j]
  }

  lemma PermutationHasNoDuplicates<T>(a: seq<T>, b: seq<T>)
    requires multiset(a) == multiset(b) && NoDuplicates(b)
    ensures NoDuplicates(a)
  {
    forall i, j | 0 <= i < j < |a| ensures a[i] != a[j] {
      if a[i] == a[j] {
        assert a == a[..j] + [a[j]] + a[j + 1..];
        assert a[i] == a[..j][i] && a[i] in multiset(a[..j]);
        assert multiset(a)[a[i]] >= 2;
      }
      OnceEach(b, a[i]);
    }
  }

  lemma {:induction false} OnceEach<T>(s: seq<T>, x: T)
    requires NoDuplicates(s)
    ensures multiset(s)[x] <= 1
  {
    if s != [] {
      var n := |s| - 1;
      assert s == s[..n] + [s[n]];
      OnceEach(s[..n], x);
      if x == s[n] {
        assert x !in s[..n];
      }
    }
  }
}
