/**
 Recall across private and global entries: global ones first, each key once.
 */
module GlobalRecall {
  import opened Wrappers
  import opened MemoryTypes
  import opened FrontMatter
  import opened MarkdownStore
  import opened Text

  /** The documented table of scopes, with the session of conversation entries. */
  predicate InTable(e: MemoryEntry, session: Option<string>, scope: RecallScope) {
    match e.category
    case Conversation =>
      && (session.Some? ==> e.session == session)
      && (match scope case Full => true case CurrentTopic(t) => e.topic == Some(t) case _ => false)
    case _ => !scope.Clean?
  }

  /** The filters of the store are this table. */
  lemma FiltersAreTable(e: MemoryEntry, session: Option<string>, scope: RecallScope)
    ensures MatchesSession(e, session) && MatchesScope(e, scope) <==> InTable(e, session, scope)
  {
  }

  class GlobalMemory {
    const inner: MarkdownMemory

    constructor (inner: MarkdownMemory)
      ensures this.inner == inner
    {
      this.inner := inner;
    }

    method Recall(query: string, limit: nat, session: Option<string>, scope: RecallScope)
        returns (merged: seq<MemoryEntry>)
      requires scope.Clean? || inner.CountingEnds(query, None, Full)
      ensures scope.Clean? ==> merged == []
      ensures |merged| <= limit
      ensures forall i, j | 0 <= i < j < |merged| :: merged[i].key != merged[j].key
      ensures forall e | e in merged :: inner.Stored(e) && InTable(e, session, scope)
      // globals lead, and both parts come in descending relevance
      ensures forall i, j | 0 <= i < j < |merged| && merged[j].category.Global? :: merged[i].category.Global?
      ensures forall i, j | 0 <= i < j < |merged| && merged[i].category.Global? == merged[j].category.Global? ::
                inner.Relevance(merged[i], query) >= inner.Relevance(merged[j], query)
      // a passing entry is there unless `limit` others are at least as relevant
      ensures !scope.Clean? ==> forall e | inner.Stored(e) && e.category.Global? && inner.Passes(e, query, None, Full) ::
                HasKey(merged, e.key) || Crowded(query, limit, None, Full, e)
      ensures forall e | inner.Stored(e) && !e.category.Global? && inner.Passes(e, query, session, scope) ::
                HasKey(merged, e.key) || Crowded(query, limit, session, scope, e)
      // and is not there if `limit` others are more relevant: global entries compete with private ones
      ensures forall e | e in merged && e.category.Global? :: !Outranked(query, limit, None, Full, e)
      ensures forall e | e in merged && !e.category.Global? :: !Outranked(query, limit, session, scope, e)
    {
      merged := [];
      if scope.Clean? {
        hide MarkdownMemory.Stored, MarkdownMemory.Relevance, HasKey, Outranked, Crowded, Contains;
        assert forall e :: !MatchesScope(e, scope);
        return;
      }
      hide *;
      NarrowerCounts(query, session, scope);
      var globalResults := inner.Recall(query, limit, None, Full);
      RecallIsRecalled(globalResults, query, limit, None, Full);
      var privateResults := inner.Recall(query, limit, session, scope);
      RecallIsRecalled(privateResults, query, limit, session, scope);
      merged := FirstOfEachKey(OnlyGlobal(globalResults, true) + OnlyGlobal(privateResults, false), limit);
      MergeInScope(query, limit, session, scope, globalResults, privateResults, merged);
      OrderKept(query, limit, session, scope, globalResults, privateResults, merged);
      GlobalsComplete(query, limit, globalResults, OnlyGlobal(privateResults, false), merged);
      OthersComplete(query, limit, session, scope, globalResults, privateResults, merged);
    }

    lemma RecallIsRecalled(results: seq<MemoryEntry>, query: string, limit: nat, session: Option<string>, scope: RecallScope)
      requires |results| <= limit && (inner.DistinctFiles() ==> NoDuplicates(results))
      requires forall e | e in results :: inner.Stored(e) && inner.Passes(e, query, session, scope)
      requires forall i, j | 0 <= i < j < |results| :: inner.Relevance(results[i], query) >= inner.Relevance(results[j], query)
      requires forall e | inner.Stored(e) && inner.Passes(e, query, session, scope) && e !in results ::
                 |results| == limit && forall r | r in results :: inner.Relevance(r, query) >= inner.Relevance(e, query)
      ensures IsRecalled(results, query, limit, session, scope)
    {
      hide MarkdownMemory.Stored, MarkdownMemory.Passes, MarkdownMemory.Relevance, MarkdownMemory.DistinctFiles, NoDuplicates;
    }

    /** Membership, the lead of the globals, and that nothing is outranked. */
    lemma MergeInScope(query: string, limit: nat, session: Option<string>, scope: RecallScope,
        globalResults: seq<MemoryEntry>, privateResults: seq<MemoryEntry>, merged: seq<MemoryEntry>)
      requires !scope.Clean? && IsRecalled(globalResults, query, limit, None, Full)
      requires IsRecalled(privateResults, query, limit, session, scope)
      requires IsFirstOfEachKey(OnlyGlobal(globalResults, true) + OnlyGlobal(privateResults, false), limit, merged)
      ensures |merged| <= limit && forall i, j | 0 <= i < j < |merged| :: merged[i].key != merged[j].key
      ensures forall e | e in merged :: inner.Stored(e) && InTable(e, session, scope)
      ensures forall i, j | 0 <= i < j < |merged| && merged[j].category.Global? :: merged[i].category.Global?
      ensures forall e | e in merged && e.category.Global? :: !Outranked(query, limit, None, Full, e)
      ensures forall e | e in merged && !e.category.Global? :: !Outranked(query, limit, session, scope, e)
    {
      hide MarkdownMemory.Stored, MarkdownMemory.Relevance, MarkdownMemory.DistinctFiles, Outranked, Contains, OnlyGlobal, HasKey, NoDuplicates;
      NoneOutranked(query, limit, None, Full, globalResults);
      NoneOutranked(query, limit, session, scope, privateResults);
      var globals, others := OnlyGlobal(globalResults, true), OnlyGlobal(privateResults, false);
      forall i, j | 0 <= i < j < |merged| && merged[j].category.Global? ensures merged[i].category.Global? {
        GlobalsLead(globals, others, merged[i], merged[j]);
      }
    }

    /** Whatever passes narrower filters passes the widest. */
    lemma NarrowerCounts(query: string, session: Option<string>, scope: RecallScope)
      requires inner.CountingEnds(query, None, Full)
      ensures inner.CountingEnds(query, session, scope)
    {
      hide Contains, Parsed;
      forall p | inner.PassingFile(p, query, session, scope) ensures inner.PassingFile(p, query, None, Full) {
      }
    }

    ghost predicate ByRelevance(entries: seq<MemoryEntry>, query: string)
    {
      forall i, j | 0 <= i < j < |entries| :: inner.Relevance(entries[i], query) >= inner.Relevance(entries[j], query)
    }

    lemma {:induction false} SelectionByRelevance(entries: seq<MemoryEntry>, global: bool, query: string)
      requires ByRelevance(entries, query)
      ensures ByRelevance(OnlyGlobal(entries, global), query)
    {
      if entries != [] {
        RestByRelevance(entries, query);
        SelectionByRelevance(entries[1..], global, query);
        hide ByRelevance;
        if entries[0].category.Global? == global {
          MoreRelevantInFront(entries[0], OnlyGlobal(entries[1..], global), query);
        }
      }
    }

    lemma RestByRelevance(entries: seq<MemoryEntry>, query: string)
      requires entries != [] && ByRelevance(entries, query)
      ensures ByRelevance(entries[1..], query)
      ensures forall e | e in entries[1..] :: inner.Relevance(entries[0], query) >= inner.Relevance(e, query)
    {
      hide MarkdownMemory.Relevance;
      forall e | e in entries[1..] ensures inner.Relevance(entries[0], query) >= inner.Relevance(e, query) {
        var k :| 0 <= k < |entries[1..]| && entries[1..][k] == e;
        assert entries[k + 1] == e;
      }
    }

    lemma MoreRelevantInFront(first: MemoryEntry, rest: seq<MemoryEntry>, query: string)
      requires ByRelevance(rest, query) && forall e | e in rest :: inner.Relevance(first, query) >= inner.Relevance(e, query)
      ensures ByRelevance([first] + rest, query)
    {
      hide MarkdownMemory.Relevance;
      var r := [first] + rest;
      forall i, j | 0 <= i < j < |r| ensures inner.Relevance(r[i], query) >= inner.Relevance(r[j], query) {
        assert r[j] == rest[j - 1] && (i > 0 ==> r[i] == rest[i - 1]);
      }
    }

    /** Both parts of the chain are ordered, and the merge keeps their order. */
    lemma OrderKept(query: string, limit: nat, session: Option<string>, scope: RecallScope,
        globalResults: seq<MemoryEntry>, privateResults: seq<MemoryEntry>, merged: seq<MemoryEntry>)
      requires !scope.Clean? && IsRecalled(globalResults, query, limit, None, Full)
      requires IsRecalled(privateResults, query, limit, session, scope)
      requires IsFirstOfEachKey(OnlyGlobal(globalResults, true) + OnlyGlobal(privateResults, false), limit, merged)
      ensures forall i, j | 0 <= i < j < |merged| && merged[i].category.Global? == merged[j].category.Global? ::
                inner.Relevance(merged[i], query) >= inner.Relevance(merged[j], query)
    {
      SelectionByRelevance(globalResults, true, query);
      SelectionByRelevance(privateResults, false, query);
      hide HasKey;
      var globals, others := OnlyGlobal(globalResults, true), OnlyGlobal(privateResults, false);
      hide MarkdownMemory.Relevance, ByRelevance, OnlyGlobal;
      forall i, j | 0 <= i < j < |merged| && merged[i].category.Global? == merged[j].category.Global?
        ensures inner.Relevance(merged[i], query) >= inner.Relevance(merged[j], query)
      {
        assert InOrder(globals + others, merged[i], merged[j]);
        OrderedPair(globals, others, merged[i], merged[j], query);
      }
    }

    lemma OrderedPair(globals: seq<MemoryEntry>, others: seq<MemoryEntry>, x: MemoryEntry, y: MemoryEntry, query: string)
      requires ByRelevance(globals, query) && ByRelevance(others, query)
      requires (forall e | e in globals :: e.category.Global?) && (forall e | e in others :: !e.category.Global?)
      requires InOrder(globals + others, x, y) && x.category.Global? == y.category.Global?
      ensures inner.Relevance(x, query) >= inner.Relevance(y, query)
    {
      hide MarkdownMemory.Relevance;
      var chain, n := globals + others, |globals|;
      assert forall k | 0 <= k < n :: chain[k] == globals[k] && globals[k] in globals;
      var a, b :| 0 <= a < b < |chain| && chain[a] == x && chain[b] == y;
      if b < n {
        assert globals[a] == x && globals[b] == y;
      } else {
        assert others[b - n] == y;
        assert others[a - n] == x;
      }
    }

    /** The answer to one recall of the store. */
    ghost predicate IsRecalled(results: seq<MemoryEntry>, query: string, limit: nat, session: Option<string>, scope: RecallScope)
      reads inner
    {
      && |results| <= limit && ByRelevance(results, query) && (inner.DistinctFiles() ==> NoDuplicates(results))
      && (forall e | e in results :: inner.Stored(e) && inner.Passes(e, query, session, scope))
      && (forall e | inner.Stored(e) && inner.Passes(e, query, session, scope) && e !in results ::
            |results| == limit && forall r | r in results :: inner.Relevance(r, query) >= inner.Relevance(e, query))
    }

    /** What a recall leaves out is crowded out. */
    lemma LeftOutIsCrowded(query: string, limit: nat, session: Option<string>, scope: RecallScope, results: seq<MemoryEntry>, e: MemoryEntry)
      requires IsRecalled(results, query, limit, session, scope)
      requires inner.Stored(e) && inner.Passes(e, query, session, scope) && e !in results
      ensures Crowded(query, limit, session, scope, e)
    {
      hide MarkdownMemory.Stored, MarkdownMemory.Passes, MarkdownMemory.Relevance, MarkdownMemory.DistinctFiles, NoDuplicates;
    }

    lemma GlobalsComplete(query: string, limit: nat, globalResults: seq<MemoryEntry>, others: seq<MemoryEntry>,
        merged: seq<MemoryEntry>)
      requires IsRecalled(globalResults, query, limit, None, Full)
      requires IsFirstOfEachKey(OnlyGlobal(globalResults, true) + others, limit, merged)
      ensures forall e | inner.Stored(e) && e.category.Global? && inner.Passes(e, query, None, Full) ::
                HasKey(merged, e.key) || Crowded(query, limit, None, Full, e)
    {
      hide MarkdownMemory.Stored, MarkdownMemory.Passes, MarkdownMemory.Relevance, MarkdownMemory.DistinctFiles;
      hide NoDuplicates, HasKey, Crowded;
      var globals := OnlyGlobal(globalResults, true);
      var chain := globals + others;
      forall e | inner.Stored(e) && e.category.Global? && inner.Passes(e, query, None, Full)
        ensures HasKey(merged, e.key) || Crowded(query, limit, None, Full, e)
      {
        if e in globalResults {
          var i :| 0 <= i < |globals| && globals[i] == e;
          assert chain[i] == e && i < limit;
        } else {
          LeftOutIsCrowded(query, limit, None, Full, globalResults, e);
        }
      }
    }

    /** A global entry in a full answer is at least as relevant as an entry that the answer misses. */
    lemma GlobalIsRelevant(query: string, limit: nat, globalResults: seq<MemoryEntry>, merged: seq<MemoryEntry>,
        g: MemoryEntry, e: MemoryEntry)
      requires IsRecalled(globalResults, query, limit, None, Full)
      requires g in globalResults && |merged| == limit && NoDuplicates(merged) && e !in merged
      requires inner.Stored(e) && inner.Passes(e, query, None, Full)
      requires forall r | r in merged ::
                 r in globalResults || (inner.Stored(r) && inner.Passes(r, query, None, Full)
                                        && inner.Relevance(r, query) >= inner.Relevance(e, query))
      ensures inner.Relevance(g, query) >= inner.Relevance(e, query)
    {
      hide MarkdownMemory.Stored, MarkdownMemory.Passes, MarkdownMemory.Relevance, MarkdownMemory.DistinctFiles, NoDuplicates;
      if inner.Relevance(g, query) < inner.Relevance(e, query) {
        assert e in globalResults;
        assert forall r | r in merged :: r in globalResults;
        FewerThan(merged, globalResults, e);
      }
    }

    /** Whatever passes in a scope passes the widest filters, and global entries pass in every scope but the clean one. */
    lemma FiltersCompare(e: MemoryEntry, query: string, session: Option<string>, scope: RecallScope)
      requires !scope.Clean?
      ensures inner.Passes(e, query, session, scope) ==> inner.Passes(e, query, None, Full)
      ensures e.category.Global? && inner.Passes(e, query, None, Full) ==> inner.Passes(e, query, session, scope)
    {
      hide Contains;
    }

    /** An entry of the private results that a full answer misses is crowded out by that answer. */
    lemma MissedIsCrowded(query: string, limit: nat, session: Option<string>, scope: RecallScope,
        globalResults: seq<MemoryEntry>, privateResults: seq<MemoryEntry>, merged: seq<MemoryEntry>, d: nat)
      requires !scope.Clean? && IsRecalled(globalResults, query, limit, None, Full) && IsRecalled(privateResults, query, limit, session, scope)
      requires d < |OnlyGlobal(privateResults, false)| && |merged| == limit && NoDuplicates(merged)
      requires OnlyGlobal(privateResults, false)[d] !in merged
      requires forall r | r in merged :: r in OnlyGlobal(globalResults, true) || r in OnlyGlobal(privateResults, false)[..d]
      ensures Crowded(query, limit, session, scope, OnlyGlobal(privateResults, false)[d])
    {
      hide MarkdownMemory.Stored, MarkdownMemory.Passes, MarkdownMemory.Relevance, MarkdownMemory.DistinctFiles, NoDuplicates, OnlyGlobal;
      var globals, others := OnlyGlobal(globalResults, true), OnlyGlobal(privateResults, false);
      var e := others[d];
      assert e in others && e in privateResults;
      FiltersCompare(e, query, session, scope);
      SelectionByRelevance(privateResults, false, query);
      forall r | r in merged && r in others[..d]
        ensures r in privateResults && inner.Passes(r, query, None, Full) && inner.Relevance(r, query) >= inner.Relevance(e, query)
      {
        var k :| 0 <= k < d && others[..d][k] == r;
        assert r == others[k] && others[k] in others;
        FiltersCompare(r, query, session, scope);
      }
      forall r | r in merged
        ensures inner.Stored(r) && inner.Passes(r, query, session, scope) && inner.Relevance(r, query) >= inner.Relevance(e, query)
      {
        if r in globals {
          assert r in globalResults && r.category.Global?;
          GlobalIsRelevant(query, limit, globalResults, merged, r, e);
          FiltersCompare(r, query, session, scope);
        }
      }
    }

    lemma OthersComplete(query: string, limit: nat, session: Option<string>, scope: RecallScope,
        globalResults: seq<MemoryEntry>, privateResults: seq<MemoryEntry>, merged: seq<MemoryEntry>)
      requires !scope.Clean? && IsRecalled(globalResults, query, limit, None, Full)
      requires IsRecalled(privateResults, query, limit, session, scope)
      requires IsFirstOfEachKey(OnlyGlobal(globalResults, true) + OnlyGlobal(privateResults, false), limit, merged)
      ensures forall e | inner.Stored(e) && !e.category.Global? && inner.Passes(e, query, session, scope) ::
                HasKey(merged, e.key) || Crowded(query, limit, session, scope, e)
    {
      hide MarkdownMemory.Stored, MarkdownMemory.Passes, MarkdownMemory.Relevance, MarkdownMemory.DistinctFiles;
      hide OnlyGlobal, Crowded, IsRecalled;
      var globals, others := OnlyGlobal(globalResults, true), OnlyGlobal(privateResults, false);
      forall e | inner.Stored(e) && !e.category.Global? && inner.Passes(e, query, session, scope)
        ensures HasKey(merged, e.key) || Crowded(query, limit, session, scope, e)
      {
        if e !in privateResults {
          LeftOutIsCrowded(query, limit, session, scope, privateResults, e);
        } else if !HasKey(merged, e.key) {
          var d :| 0 <= d < |others| && others[d] == e;
          var chain, c := globals + others, |globals| + d;
          assert chain[c] == e && chain[..c] == globals + others[..d];
          assert |merged| == limit && forall r | r in merged :: r in globals || r in others[..d];
          assert NoDuplicates(merged) && e !in merged;
          MissedIsCrowded(query, limit, session, scope, globalResults, privateResults, merged, d);
        }
      }
    }

    /** `limit` different entries that pass the same filters are more relevant. */
    ghost predicate Outranked(query: string, limit: nat, session: Option<string>, scope: RecallScope, e: MemoryEntry)
      reads inner
    {
      exists others: seq<MemoryEntry> ::
        |others| == limit && NoDuplicates(others)
        && forall r | r in others ::
             inner.Stored(r) && inner.Passes(r, query, session, scope) && inner.Relevance(r, query) > inner.Relevance(e, query)
    }

    lemma NoneOutranked(query: string, limit: nat, session: Option<string>, scope: RecallScope, results: seq<MemoryEntry>)
      requires IsRecalled(results, query, limit, session, scope)
      ensures forall e | e in results :: !Outranked(query, limit, session, scope, e)
    {
      hide MarkdownMemory.Stored, MarkdownMemory.Passes, MarkdownMemory.Relevance, NoDuplicates;
      forall e | e in results ensures !Outranked(query, limit, session, scope, e) {
        if Outranked(query, limit, session, scope, e) {
          var others: seq<MemoryEntry> :| |others| == limit && NoDuplicates(others)
            && forall r | r in others ::
                 inner.Stored(r) && inner.Passes(r, query, session, scope) && inner.Relevance(r, query) > inner.Relevance(e, query);
          FewerThan(others, results, e);
        }
      }
    }

    /** `limit` other entries that pass the same filters are at least as relevant. */
    ghost predicate Crowded(query: string, limit: nat, session: Option<string>, scope: RecallScope, e: MemoryEntry)
      reads inner
    {
      exists others: seq<MemoryEntry> ::
        |others| == limit && e !in others && (inner.DistinctFiles() ==> NoDuplicates(others))
        && forall r | r in others ::
             inner.Stored(r) && inner.Passes(r, query, session, scope) && inner.Relevance(r, query) >= inner.Relevance(e, query)
    }

    /**
     A store of one private and one global entry, and room for one: the global entry passes every
     filter and is outranked, so `Recall` drops it.
     */
    lemma DroppedGlobal(stamp: string)
      requires (forall s :: inner.lower(s) == s) && '\n' !in stamp
      requires inner.files == map[KeyToPath("p") := Written(PRIVATE_NOTE, stamp), KeyToPath("g") := Written(GLOBAL_NOTE, stamp)]
      ensures inner.CountingEnds("a", None, Full) && inner.Stored(GLOBAL_NOTE) && inner.Passes(GLOBAL_NOTE, "a", None, Full)
      ensures Outranked("a", 1, None, Full, GLOBAL_NOTE)
    {
      NotesAreStored(inner, stamp);
      NotesPass(inner);
      OutrankedByOne("a", GLOBAL_NOTE, PRIVATE_NOTE);
    }

    lemma OutrankedByOne(query: string, e: MemoryEntry, r: MemoryEntry)
      requires inner.Stored(r) && inner.Passes(r, query, None, Full) && inner.Relevance(r, query) > inner.Relevance(e, query)
      ensures Outranked(query, 1, None, Full, e)
    {
      hide MarkdownMemory.Stored, MarkdownMemory.Passes, MarkdownMemory.Relevance;
      var others := [r];
      assert |others| == 1 && NoDuplicates(others) && forall o | o in others :: o == r;
    }
  }

  const PRIVATE_NOTE := MemoryEntry("p", "aa", Core, None, None)
  const GLOBAL_NOTE := MemoryEntry("g", "a", Global, None, None)

  lemma NotesAreWellFormed()
    ensures WellFormed(PRIVATE_NOTE) && WellFormed(GLOBAL_NOTE)
  {
  }

  lemma NotesHaveTheirOwnFiles()
    ensures KeyToPath("p") != KeyToPath("g")
  {
    assert SafeKey("p") && SafeKey("g");
    SafeKeysHaveTheirOwnFile("p", "g");
  }

  lemma NotesAreRelevant()
    ensures Contains("aa", "a") && Contains("a", "a")
    ensures Count("aa", "a", 0) == 2 && Count("a", "a", 0) == 1
  {
    assert OccursAt("aa", "a", 0) && OccursAt("aa", "a", 1) && OccursAt("a", "a", 0);
    assert Find("aa", "a", 2) == None && Find("a", "a", 1) == None;
    assert Find("aa", "a", 1) == Some(1) && Find("aa", "a", 0) == Some(0) && Find("a", "a", 0) == Some(0);
    assert Count("aa", "a", 2) == 0 && Count("aa", "a", 1) == 1;
  }

  lemma NotesAreStored(memory: MarkdownMemory, stamp: string)
    requires '\n' !in stamp
    requires memory.files == map[KeyToPath("p") := Written(PRIVATE_NOTE, stamp), KeyToPath("g") := Written(GLOBAL_NOTE, stamp)]
    ensures memory.Stored(PRIVATE_NOTE) && memory.Stored(GLOBAL_NOTE)
  {
    hide KeyToPath, Written, Parsed, WellFormed;
    NotesAreWellFormed();
    RoundTripExactly(PRIVATE_NOTE, stamp);
    RoundTripExactly(GLOBAL_NOTE, stamp);
    NotesHaveTheirOwnFiles();
    var p, g := KeyToPath("p"), KeyToPath("g");
    assert p in memory.files && memory.files[p] == Written(PRIVATE_NOTE, stamp);
    assert g in memory.files && memory.files[g] == Written(GLOBAL_NOTE, stamp);
  }

  lemma NotesPass(memory: MarkdownMemory)
    requires forall s :: memory.lower(s) == s
    ensures memory.CountingEnds("a", None, Full)
    ensures memory.Passes(PRIVATE_NOTE, "a", None, Full) && memory.Passes(GLOBAL_NOTE, "a", None, Full)
    ensures memory.Relevance(PRIVATE_NOTE, "a") > memory.Relevance(GLOBAL_NOTE, "a")
  {
    NotesAreRelevant();
    hide Contains, Count;
    assert memory.lower("a") == "a" && memory.lower("aa") == "aa";
  }

  /** Different items of a list that leave one of its items out are fewer than the list. */
  lemma FewerThan<T>(others: seq<T>, list: seq<T>, e: T)
    requires NoDuplicates(others) && e in list && forall o | o in others :: o in list && o != e
    ensures |others| < |list|
  {
    var some, all := set o | o in others, set o | o in list;
    DistinctCount(others);
    AtMostCount(list);
    var left := all - {e};
    assert left == some + (left - some);
  }

  lemma {:induction false} DistinctCount<T>(s: seq<T>)
    requires NoDuplicates(s)
    ensures |set x | x in s| == |s|
  {
    if s != [] {
      var init, last := s[..|s| - 1], s[|s| - 1];
      DistinctCount(init);
      assert s == init + [last] && last !in init;
      assert (set x | x in s) == (set x | x in init) + {last};
    }
  }

  lemma {:induction false} AtMostCount<T>(s: seq<T>)
    ensures |set x | x in s| <= |s|
  {
    if s != [] {
      var init, last := s[..|s| - 1], s[|s| - 1];
      AtMostCount(init);
      assert s == init + [last];
      assert (set x | x in s) == (set x | x in init) + {last};
    }
  }

  /** `merged` has the first entry of each key, in chain order, until `limit` are kept. */
  predicate IsFirstOfEachKey(chain: seq<MemoryEntry>, limit: nat, merged: seq<MemoryEntry>) {
    && |merged| <= limit && (forall e | e in merged :: e in chain)
    && (forall i, j | 0 <= i < j < |merged| :: merged[i].key != merged[j].key && InOrder(chain, merged[i], merged[j]))
    && (forall c | 0 <= c < |chain| && !HasKey(merged, chain[c].key) ::
          c >= |merged| == limit && forall e | e in merged :: e in chain[..c])
  }

  /** Walks the chain and keeps the first entry of each key, until `limit` are kept. */
  method FirstOfEachKey(chain: seq<MemoryEntry>, limit: nat) returns (merged: seq<MemoryEntry>)
    ensures IsFirstOfEachKey(chain, limit, merged)
  {
    var seen: set<string> := {};
    merged := [];
    ghost var at: seq<nat> := [];
    hide HasKey;
    for i := 0 to |chain|
      invariant |at| == |merged| <= limit
      invariant forall j | 0 <= j < |at| :: at[j] < i && chain[at[j]] == merged[j]
      invariant forall j, k | 0 <= j < k < |at| :: at[j] < at[k]
      invariant forall j | 0 <= j < |merged| :: merged[j].key in seen
      invariant forall j, k | 0 <= j < k < |merged| :: merged[j].key != merged[k].key
      invariant forall k | k in seen :: HasKey(merged, k)
      invariant |merged| <= i && forall j | 0 <= j < i :: chain[j].key in seen
    {
      var entry := chain[i];
      if |merged| >= limit {
        InChainOrder(chain, merged, at);
        FilledBefore(chain, merged, at, i);
        return;
      }
      if entry.key !in seen {
        forall k | k in seen + {entry.key} ensures HasKey(merged + [entry], k) { HasKeySnoc(merged, entry, k); }
        seen := seen + {entry.key};
        merged := merged + [entry];
        at := at + [i];
      }
    }
    InChainOrder(chain, merged, at);
  }

  lemma FilledBefore(chain: seq<MemoryEntry>, merged: seq<MemoryEntry>, at: seq<nat>, i: nat)
    requires |at| == |merged| && i <= |chain| && forall j | 0 <= j < |at| :: at[j] < i && chain[at[j]] == merged[j]
    ensures forall c | i <= c < |chain| :: forall e | e in merged :: e in chain[..c]
  {
    forall c, e | i <= c < |chain| && e in merged ensures e in chain[..c] {
      var j :| 0 <= j < |merged| && merged[j] == e;
      assert chain[..c][at[j]] == e;
    }
  }

  lemma InChainOrder(chain: seq<MemoryEntry>, merged: seq<MemoryEntry>, at: seq<nat>)
    requires |at| == |merged| && forall j | 0 <= j < |at| :: at[j] < |chain| && chain[at[j]] == merged[j]
    requires forall j, k | 0 <= j < k < |at| :: at[j] < at[k]
    ensures forall e | e in merged :: e in chain
    ensures forall i, j | 0 <= i < j < |merged| :: InOrder(chain, merged[i], merged[j])
  {
    forall i, j | 0 <= i < j < |merged| ensures InOrder(chain, merged[i], merged[j]) {
      assert chain[at[i]] == merged[i] && chain[at[j]] == merged[j];
    }
  }

  lemma HasKeySnoc(entries: seq<MemoryEntry>, e: MemoryEntry, k: string)
    ensures HasKey(entries + [e], k) <==> HasKey(entries, k) || e.key == k
  {
    if HasKey(entries, k) {
      var r :| r in entries && r.key == k;
      assert r in entries + [e];
    }
    assert e in entries + [e];
  }

  lemma GlobalsLead(globals: seq<MemoryEntry>, others: seq<MemoryEntry>, a: MemoryEntry, b: MemoryEntry)
    requires (forall e | e in globals :: e.category.Global?) && (forall e | e in others :: !e.category.Global?)
    requires InOrder(globals + others, a, b) && b.category.Global?
    ensures a.category.Global?
  {
    var chain := globals + others;
    var i, j :| 0 <= i < j < |chain| && chain[i] == a && chain[j] == b;
    assert forall k | |globals| <= k < |chain| :: chain[k] == others[k - |globals|] && chain[k] in others;
    assert chain[i] == globals[i];
  }

  predicate HasKey(entries: seq<MemoryEntry>, k: string) {
    exists e | e in entries :: e.key == k
  }

  /** `a` occurs before `b`. */
  predicate InOrder(chain: seq<MemoryEntry>, a: MemoryEntry, b: MemoryEntry) {
    exists i, j | 0 <= i < j < |chain| :: chain[i] == a && chain[j] == b
  }

  /** The global entries of a result, or the others, in order. */
  function OnlyGlobal(entries: seq<MemoryEntry>, global: bool): (r: seq<MemoryEntry>)
    ensures forall e | e in r :: e in entries && e.category.Global? == global
    ensures forall e | e in entries && e.category.Global? == global :: e in r
    ensures |r| <= |entries|
  {
    if entries == [] then []
    else (if entries[0].category.Global? == global then [entries[0]] else []) + OnlyGlobal(entries[1..], global)
  }
}
