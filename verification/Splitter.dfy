/**
 Splitting long text into chunks of at most `maxChars` characters, preferably behind a line
 feed, else behind a space.  Both channel implementations are proved against one specification.
 */
module Splitter {
  import opened Wrappers
  import opened Text

  predicate Blank(c: char) {
    c == '\n' || c == ' '
  }

  predicate AllBlank(s: string) {
    forall c | c in s :: Blank(c)
  }

  /** Last position of a character. */
  function LastIndexOf(s: string, c: char): (r: Option<nat>)
    ensures r.Some? ==> r.value < |s| && s[r.value] == c
  {
    if s == "" then None
    else if s[|s| - 1] == c then Some(|s| - 1)
    else LastIndexOf(s[..|s| - 1], c)
  }

  lemma {:induction false} LastIndexOfMeaning(s: string, c: char)
    ensures match LastIndexOf(s, c)
            case Some(i) => forall j | i < j < |s| :: s[j] != c
            case None => forall j | 0 <= j < |s| :: s[j] != c
  {
    if s != "" && s[|s| - 1] != c {
      LastIndexOfMeaning(s[..|s| - 1], c);
    }
  }

  function TrimBlanks(s: string): (r: string)
    ensures |r| <= |s| && (r == "" || !Blank(r[0]))
  {
    if s == "" || !Blank(s[0]) then s else TrimBlanks(s[1..])
  }

  lemma {:induction false} TrimBlanksMeaning(s: string)
    ensures var n := |s| - |TrimBlanks(s)|;
            TrimBlanks(s) == s[n..] && AllBlank(s[..n])
  {
    if s != "" && Blank(s[0]) {
      TrimBlanksMeaning(s[1..]);
      var n := |s[1..]| - |TrimBlanks(s[1..])|;
      assert s[..n + 1] == [s[0]] + s[1..][..n];
    } else {
      assert s[0..] == s && s[..0] == "";
    }
  }

  /** Where a text longer than the limit is cut. */
  function CutPosition(s: string, maxChars: nat): (cut: nat)
    requires 1 <= maxChars < |s|
    ensures 1 <= cut <= maxChars
    ensures maxChars >= 2 && !Blank(s[0]) ==> cut >= 2
  {
    var candidate := s[..maxChars];
    var newline := LastIndexOf(candidate, '\n');
    var space := match LastIndexOf(candidate, ' ') case Some(p) => p + 1 case None => maxChars;
    match newline
    case Some(nl) => if nl >= maxChars / 2 then nl + 1 else space
    case None => space
  }

  /** The chunks of a text, each followed by the blanks dropped behind it. */
  function Pieces(s: string, maxChars: nat): (p: seq<(string, string)>)
    requires maxChars >= 1
    decreases |s|
  {
    if s == "" then []
    else if |s| <= maxChars then [(s, "")]
    else
      var cut := CutPosition(s, maxChars);
      var rest := TrimBlanks(s[cut..]);
      [(s[..cut], s[cut..|s| - |rest|])] + Pieces(rest, maxChars)
  }

  function Chunks(pieces: seq<(string, string)>): (c: seq<string>)
    ensures |c| == |pieces|
    ensures forall i | 0 <= i < |c| :: c[i] == pieces[i].0
  {
    seq(|pieces|, i requires 0 <= i < |pieces| => pieces[i].0)
  }

  /** The result for a whole message; an empty one is sent as one empty chunk. */
  function Splitted(content: string, maxChars: nat): seq<string>
    requires maxChars >= 1
  {
    if |content| <= maxChars then [content] else Chunks(Pieces(content, maxChars))
  }

  /** The last line feed, unless it lies in the first half; else the last space; else a hard cut. */
  method ChooseCut(remaining: string, maxChars: nat) returns (cut: nat)
    requires 1 <= maxChars < |remaining|
    ensures cut == CutPosition(remaining, maxChars)
  {
    hide LastIndexOf;
    var candidate := remaining[..maxChars];
    match LastIndexOf(candidate, '\n') {
      case Some(nl) =>
        if nl >= maxChars / 2 {
          cut := nl + 1;
        } else {
          cut := match LastIndexOf(candidate, ' ') case Some(p) => p + 1 case None => maxChars;
        }
      case None =>
        cut := match LastIndexOf(candidate, ' ') case Some(sp) => sp + 1 case None => maxChars;
    }
  }

  /** A character of the first `end` stands at or behind `from`. */
  predicate StandsWithin(s: string, c: char, from: nat, end: nat) {
    exists i | from <= i < end :: i < |s| && s[i] == c
  }

  /** A cut directly behind `c`, with no later `c` before the limit. */
  predicate BehindLast(s: string, c: char, cut: nat, maxChars: nat) {
    1 <= cut <= |s| && s[cut - 1] == c && !StandsWithin(s, c, cut, maxChars)
  }

  /** Where a chunk ends: behind a line feed of the second half, else behind a space, else at the limit. */
  lemma CutPreference(s: string, maxChars: nat)
    requires 1 <= maxChars < |s|
    ensures var cut := CutPosition(s, maxChars);
            if StandsWithin(s, '\n', maxChars / 2, maxChars) then BehindLast(s, '\n', cut, maxChars)
            else if StandsWithin(s, ' ', 0, maxChars) then BehindLast(s, ' ', cut, maxChars)
            else cut == maxChars
  {
    LastIndexOfMeaning(s[..maxChars], '\n');
    LastIndexOfMeaning(s[..maxChars], ' ');
    hide LastIndexOf;
  }

  method SplitMessage(content: string, maxChars: nat) returns (chunks: seq<string>)
    requires maxChars >= 1
    ensures chunks == Splitted(content, maxChars)
  {
    if |content| <= maxChars {
      return [content];
    }
    hide Pieces, Chunks, CutPosition, TrimBlanks, CutTo;
    chunks := [];
    var remaining := content;
    CutStart(content, maxChars);
    while remaining != ""
      invariant CutTo(content, maxChars, chunks, remaining)
      decreases |remaining|
    {
      var charCount := |remaining|;
      if charCount <= maxChars {
        CutEnd(content, maxChars, chunks, remaining);
        return chunks + [remaining];
      }
      var cut := ChooseCut(remaining, maxChars);
      CutStep(content, maxChars, chunks, remaining);
      chunks := chunks + [remaining[..cut]];
      remaining := TrimBlanks(remaining[cut..]);
    }
    CutEnd(content, maxChars, chunks, remaining);
  }

  /** The chunks cut so far, with those of the remaining text, are all chunks of the content. */
  ghost predicate CutTo(content: string, maxChars: nat, chunks: seq<string>, remaining: string)
    requires maxChars >= 1
  {
    chunks + Chunks(Pieces(remaining, maxChars)) == Chunks(Pieces(content, maxChars))
  }

  lemma CutStart(content: string, maxChars: nat)
    requires maxChars >= 1
    ensures CutTo(content, maxChars, [], content)
  {
    hide Pieces, Chunks;
  }

  lemma CutEnd(content: string, maxChars: nat, chunks: seq<string>, remaining: string)
    requires maxChars >= 1 && |remaining| <= maxChars && CutTo(content, maxChars, chunks, remaining)
    ensures Chunks(Pieces(content, maxChars)) == if remaining == "" then chunks else chunks + [remaining]
  {
  }

  lemma CutStep(content: string, maxChars: nat, chunks: seq<string>, remaining: string)
    requires 1 <= maxChars < |remaining| && CutTo(content, maxChars, chunks, remaining)
    ensures var cut := CutPosition(remaining, maxChars);
            CutTo(content, maxChars, chunks + [remaining[..cut]], TrimBlanks(remaining[cut..]))
  {
    var cut := CutPosition(remaining, maxChars);
    ChunksStep(remaining, maxChars);
    hide Pieces, Chunks, CutPosition, TrimBlanks;
    Associative(chunks, [remaining[..cut]], Chunks(Pieces(TrimBlanks(remaining[cut..]), maxChars)));
  }

  lemma ChunksStep(s: string, maxChars: nat)
    requires 1 <= maxChars < |s|
    ensures var cut := CutPosition(s, maxChars);
            Chunks(Pieces(s, maxChars)) == [s[..cut]] + Chunks(Pieces(TrimBlanks(s[cut..]), maxChars))
  {
    hide CutPosition, TrimBlanks;
  }

  method SplitDiscordMessage(content: string, maxChars: nat) returns (chunks: seq<string>)
    requires maxChars >= 1
    ensures chunks == Splitted(content, maxChars)
  {
    if |content| <= maxChars {
      return [content];
    }
    hide Pieces, Chunks, CutPosition, TrimBlanks, CutTo;
    chunks := [];
    var remaining := content;
    CutStart(content, maxChars);
    while remaining != ""
      invariant CutTo(content, maxChars, chunks, remaining)
      decreases |remaining|
    {
      if |remaining| <= maxChars {
        CutEnd(content, maxChars, chunks, remaining);
        return chunks + [remaining];
      }
      var cut := ChooseCut(remaining, maxChars);
      CutStep(content, maxChars, chunks, remaining);
      chunks := chunks + [remaining[..cut]];
      remaining := TrimBlanks(remaining[cut..]);
    }
    CutEnd(content, maxChars, chunks, remaining);
  }

  // ---- what is promised about the chunks ----

  function Weave(pieces: seq<(string, string)>): string {
    if pieces == [] then "" else pieces[0].0 + pieces[0].1 + Weave(pieces[1..])
  }

  lemma WeaveStep(chunk: string, gap: string, pieces: seq<(string, string)>)
    ensures Weave([(chunk, gap)] + pieces) == chunk + gap + Weave(pieces)
  {
    assert ([(chunk, gap)] + pieces)[1..] == pieces;
  }

  lemma ThreeParts(s: string, i: nat, j: nat)
    requires i <= j <= |s|
    ensures s == s[..i] + s[i..j] + s[j..]
  {
  }

  /** Nothing is lost: chunks and gaps make up the text again. */
  lemma {:induction false} PiecesRebuild(s: string, maxChars: nat)
    requires maxChars >= 1
    ensures Weave(Pieces(s, maxChars)) == s
    decreases |s|
  {
    if |s| > maxChars {
      var cut := CutPosition(s, maxChars);
      var rest := TrimBlanks(s[cut..]);
      PiecesRebuild(rest, maxChars);
      TrimBlanksMeaning(s[cut..]);
      hide TrimBlanks, CutPosition;
      WeaveStep(s[..cut], s[cut..|s| - |rest|], Pieces(rest, maxChars));
      ThreeParts(s, cut, |s| - |rest|);
      assert s[cut..][|s[cut..]| - |rest|..] == s[|s| - |rest|..];
    }
  }

  /** Chunks fit, none is empty, and the gaps are blank. */
  lemma {:induction false} PiecesFit(s: string, maxChars: nat)
    requires maxChars >= 1
    ensures forall p | p in Pieces(s, maxChars) :: 1 <= |p.0| <= maxChars && AllBlank(p.1)
    decreases |s|
  {
    if |s| > maxChars {
      var cut := CutPosition(s, maxChars);
      var rest := TrimBlanks(s[cut..]);
      PiecesFit(rest, maxChars);
      TrimBlanksMeaning(s[cut..]);
      hide TrimBlanks, CutPosition;
      assert s[cut..|s| - |rest|] == s[cut..][..|s[cut..]| - |rest|];
    }
  }

  /** At most one chunk more than half the characters. */
  lemma {:induction false} PiecesCount(s: string, maxChars: nat)
    requires maxChars >= 2
    ensures 2 * |Pieces(s, maxChars)| <= |s| + 2
    ensures s == "" || !Blank(s[0]) ==> 2 * |Pieces(s, maxChars)| <= |s| + 1
    decreases |s|
  {
    if |s| > maxChars {
      PiecesCount(TrimBlanks(s[CutPosition(s, maxChars)..]), maxChars);
    }
  }

  /** The visible characters of a text, in order. */
  function Visible(s: string): string {
    if s == "" then "" else (if Blank(s[0]) then "" else [s[0]]) + Visible(s[1..])
  }

  lemma {:induction false} VisibleConcat(a: string, b: string)
    ensures Visible(a + b) == Visible(a) + Visible(b)
  {
    if a == "" {
      assert a + b == b;
    } else {
      assert (a + b)[1..] == a[1..] + b;
      VisibleConcat(a[1..], b);
    }
  }

  lemma {:induction false} BlanksAreInvisible(s: string)
    requires AllBlank(s)
    ensures Visible(s) == ""
  {
    if s != "" {
      assert s[0] in s && forall c | c in s[1..] :: c in s;
      BlanksAreInvisible(s[1..]);
    }
  }

  function Concat(chunks: seq<string>): string {
    if chunks == [] then "" else chunks[0] + Concat(chunks[1..])
  }

  lemma {:induction false} VisibleOfPieces(pieces: seq<(string, string)>)
    requires forall p | p in pieces :: AllBlank(p.1)
    ensures Visible(Concat(Chunks(pieces))) == Visible(Weave(pieces))
  {
    if pieces != [] {
      var (chunk, gap) := pieces[0];
      assert pieces[0] in pieces;
      VisibleOfPieces(pieces[1..]);
      BlanksAreInvisible(gap);
      VisibleConcat(chunk, Concat(Chunks(pieces[1..])));
      VisibleConcat(chunk + gap, Weave(pieces[1..]));
      VisibleConcat(chunk, gap);
      assert Chunks(pieces)[1..] == Chunks(pieces[1..]);
    }
  }

  /** Every chunk fits, visible text is kept in order, and there are at most |content|/2 + 1 chunks. */
  lemma SplitPromise(content: string, maxChars: nat)
    requires maxChars >= 1
    ensures forall c | c in Splitted(content, maxChars) :: |c| <= maxChars
    ensures Visible(Concat(Splitted(content, maxChars))) == Visible(content)
    ensures maxChars >= 2 ==> |Splitted(content, maxChars)| <= |content| / 2 + 1
  {
    hide Pieces, Weave;
    if |content| <= maxChars {
      assert [content][1..] == [] && content + "" == content;
    } else {
      PiecesRebuild(content, maxChars);
      PiecesFit(content, maxChars);
      VisibleOfPieces(Pieces(content, maxChars));
      if maxChars >= 2 {
        PiecesCount(content, maxChars);
      }
    }
  }
}
