/**
 Strings as sequences of Unicode scalar values, with the few library operations the
 program relies on.  Positions are character positions; UTF-8 is self-synchronising, so a
 substring search on bytes and one on characters find the same occurrences.
 */
module Text {
  import opened Wrappers

  predicate OccursAt(hay: string, pat: string, i: int) {
    0 <= i && i + |pat| <= |hay| && forall k | 0 <= k < |pat| :: hay[i + k] == pat[k]
  }

  predicate Contains(hay: string, pat: string) {
    exists i | 0 <= i <= |hay| :: OccursAt(hay, pat, i)
  }

  lemma OccursBehind(a: string, b: string, pat: string, j: nat)
    ensures OccursAt(a + b, pat, |a| + j) <==> OccursAt(b, pat, j)
  {
    var s := a + b;
    if OccursAt(s, pat, |a| + j) {
      forall k | 0 <= k < |pat| ensures b[j + k] == pat[k] {
        assert s[(|a| + j) + k] == pat[k];
      }
    }
    if OccursAt(b, pat, j) {
      forall k | 0 <= k < |pat| ensures s[(|a| + j) + k] == pat[k] {
        assert s[|a| + (j + k)] == b[j + k];
      }
    }
  }

  lemma OccursHeadTail(hay: string, c: char, pat: string, j: nat)
    ensures OccursAt(hay, [c] + pat, j) <==> j < |hay| && hay[j] == c && OccursAt(hay, pat, j + 1)
  {
    var p := [c] + pat;
    if OccursAt(hay, p, j) {
      assert hay[j + 0] == p[0];
      forall k | 0 <= k < |pat| ensures hay[(j + 1) + k] == pat[k] {
        assert hay[j + (k + 1)] == p[k + 1];
      }
    }
    if j < |hay| && hay[j] == c && OccursAt(hay, pat, j + 1) {
      forall k | 0 <= k < |p| ensures hay[j + k] == p[k] {
        if k > 0 { assert hay[(j + 1) + (k - 1)] == pat[k - 1]; }
      }
    }
  }

  /** Leftmost occurrence of `pat` at or after `from`. */
  function Find(hay: string, pat: string, from: nat): (r: Option<nat>)
    requires from <= |hay|
    ensures r.Some? ==> from <= r.value <= |hay| - |pat|
    decreases |hay| - from
  {
    if OccursAt(hay, pat, from) then Some(from)
    else if from == |hay| then None
    else Find(hay, pat, from + 1)
  }

  lemma {:induction false} FindMeaning(hay: string, pat: string, from: nat)
    requires from <= |hay|
    ensures match Find(hay, pat, from)
            case Some(at) => OccursAt(hay, pat, at) && forall j | from <= j < at :: !OccursAt(hay, pat, j)
            case None => forall j | from <= j :: !OccursAt(hay, pat, j)
    decreases |hay| - from
  {
    if !OccursAt(hay, pat, from) && from < |hay| {
      FindMeaning(hay, pat, from + 1);
    }
  }

  lemma FindFirst(hay: string, pat: string, at: nat)
    requires OccursAt(hay, pat, at) && forall j | 0 <= j < at :: !OccursAt(hay, pat, j)
    ensures Find(hay, pat, 0) == Some(at)
  {
    FindMeaning(hay, pat, 0);
  }

  /** The pieces of `s` between occurrences of the single character `sep`. */
  function Split(s: string, sep: char): (parts: seq<string>)
    ensures |parts| >= 1
    ensures forall i | 0 <= i < |parts| :: sep !in parts[i]
    ensures Join(parts, sep) == s
    ensures |parts| == 1 ==> parts == [s]
    ensures sep in s ==> |parts| > 1
  {
    if s == "" then [""]
    else
      var rest := Split(s[1..], sep);
      assert s == [s[0]] + s[1..];
      if s[0] == sep then
        assert ([""] + rest)[1..] == rest;
        [""] + rest
      else
        var parts := [[s[0]] + rest[0]] + rest[1..];
        assert parts[1..] == rest[1..];
        parts
  }

  function Join(parts: seq<string>, sep: char): string
    requires |parts| >= 1
  {
    if |parts| == 1 then parts[0] else parts[0] + [sep] + Join(parts[1..], sep)
  }

  /** A join can also be unrolled from its last part. */
  lemma {:induction false} JoinSnoc(parts: seq<string>, last: string, sep: char)
    requires |parts| >= 1
    ensures Join(parts + [last], sep) == Join(parts, sep) + [sep] + last
  {
    if |parts| == 1 {
      assert (parts + [last])[1..] == [last];
    } else {
      assert (parts + [last])[1..] == parts[1..] + [last];
      JoinSnoc(parts[1..], last, sep);
    }
  }

  /** The first part ends at the first separator. */
  lemma {:induction false} SplitFirst(a: string, sep: char, b: string)
    requires sep !in a
    ensures Split(a + [sep] + b, sep) == [a] + Split(b, sep)
  {
    var s := a + [sep] + b;
    if a == "" {
      assert s[1..] == b;
    } else {
      assert s[1..] == a[1..] + [sep] + b;
      assert a[0] in a && forall c | c in a[1..] :: c in a;
      SplitFirst(a[1..], sep, b);
      assert [a[0]] + a[1..] == a;
      assert ([a[1..]] + Split(b, sep))[1..] == Split(b, sep);
    }
  }

  lemma {:induction false} SplitNothing(a: string, sep: char)
    requires sep !in a
    ensures Split(a, sep) == [a]
  {
    if a != "" {
      assert a[0] in a && forall c | c in a[1..] :: c in a;
      SplitNothing(a[1..], sep);
      assert [a[0]] + a[1..] == a;
    }
  }

  lemma Associative<T>(a: seq<T>, b: seq<T>, c: seq<T>)
    ensures a + (b + c) == (a + b) + c
  {
  }

  /** Taking and dropping commute. */
  lemma TakeDrop<T>(s: seq<T>, j: nat, i: nat)
    requires j + i <= |s|
    ensures s[..j + i][j..] == s[j..][..i] && s[j + i..] == s[j..][i..] && s[..j + i][..j] == s[..j]
  {
  }

  // ---- markers ----

  /** A marker whose first character does not recur in it cannot overlap a partial copy of itself. */
  predicate IsMarker(mark: string) {
    mark != "" && mark[0] !in mark[1..]
  }

  lemma FindMarker(hay: string, mark: string, from: nat, mid: string)
    requires IsMarker(mark) && !Contains(mid, mark)
    requires OccursAt(hay, mid, from) && OccursAt(hay, mark, from + |mid|)
    ensures Find(hay, mark, from) == Some(from + |mid|)
  {
    var at := from + |mid|;
    assert hay[at + 0] == mark[0];
    forall j | from <= j < at && j + |mark| <= |hay| ensures !OccursAt(hay, mark, j) {
      var i := j - from;
      if j + |mark| <= at {
        assert !OccursAt(mid, mark, i);
        var k :| 0 <= k < |mark| && mid[i + k] != mark[k];
        assert hay[from + (i + k)] == mid[i + k];
      } else {
        assert mark[1..][at - j - 1] == mark[at - j];
        assert hay[j + (at - j)] == hay[at];
      }
    }
    FindMeaning(hay, mark, from);
  }

  lemma FindNothing(hay: string, mark: string, from: nat)
    requires from <= |hay| && !Contains(hay[from..], mark)
    ensures Find(hay, mark, from).None?
  {
    forall j | from <= j && j + |mark| <= |hay| ensures !OccursAt(hay, mark, j) {
      assert !OccursAt(hay[from..], mark, j - from);
    }
    FindMeaning(hay, mark, from);
  }

  // ---- white space ----

  /** The characters of the Unicode property White_Space. */
  predicate IsWhitespace(c: char) {
    var n := c as int;
    9 <= n <= 13 || n == 32 || n == 0x85 || n == 0xA0 || n == 0x1680 || 0x2000 <= n <= 0x200A
    || n == 0x2028 || n == 0x2029 || n == 0x202F || n == 0x205F || n == 0x3000
  }

  /** Tab to carriage return, the spaces, and the line, paragraph and next-line separators. */
  lemma WhitespaceExactly(c: char)
    ensures IsWhitespace(c) <==>
              c in "\t\n\U{000B}\U{000C}\r \U{0085}\U{00A0}\U{1680}\U{2028}\U{2029}\U{202F}\U{205F}\U{3000}"
              || c in "\U{2000}\U{2001}\U{2002}\U{2003}\U{2004}\U{2005}\U{2006}\U{2007}\U{2008}\U{2009}\U{200A}"
  {
  }

  predicate IsTrimmed(s: string) {
    s == "" || (!IsWhitespace(s[0]) && !IsWhitespace(s[|s| - 1]))
  }

  function TrimStart(s: string): (r: string)
    ensures r == "" || !IsWhitespace(r[0])
    ensures |r| <= |s| && r == s[|s| - |r|..]
  {
    if s == "" || !IsWhitespace(s[0]) then s else TrimStart(s[1..])
  }

  function TrimEnd(s: string): (r: string)
    ensures r == "" || !IsWhitespace(r[|r| - 1])
    ensures |r| <= |s| && r == s[..|r|]
  {
    if s == "" || !IsWhitespace(s[|s| - 1]) then s else TrimEnd(s[..|s| - 1])
  }

  function Trim(s: string): (r: string)
    ensures IsTrimmed(r)
  {
    TrimEnd(TrimStart(s))
  }

  lemma {:induction false} TrimStartDrops(s: string)
    ensures forall c | c in s[..|s| - |TrimStart(s)|] :: IsWhitespace(c)
  {
    if s != "" && IsWhitespace(s[0]) {
      TrimStartDrops(s[1..]);
      var n := |s| - |TrimStart(s)|;
      assert s[..n] == [s[0]] + s[1..][..n - 1];
    }
  }

  lemma {:induction false} TrimEndDrops(s: string)
    ensures forall c | c in s[|TrimEnd(s)|..] :: IsWhitespace(c)
  {
    if s != "" && IsWhitespace(s[|s| - 1]) {
      var n := |s| - 1;
      TrimEndDrops(s[..n]);
      assert s[|TrimEnd(s)|..] == s[..n][|TrimEnd(s[..n])|..] + [s[n]];
    }
  }

  /** Trimming drops white space on both ends, and nothing else. */
  lemma TrimMeaning(s: string) returns (front: string, back: string)
    ensures s == front + Trim(s) + back && IsTrimmed(Trim(s))
    ensures forall c | c in front || c in back :: IsWhitespace(c)
  {
    hide *;
    var start := TrimStart(s);
    TrimStartDrops(s);
    TrimEndDrops(start);
    TrimIs(s);
    front, back := s[..|s| - |start|], start[|Trim(s)|..];
    assert s == front + start && start == Trim(s) + back;
  }

  lemma TrimIs(s: string)
    ensures Trim(s) == TrimEnd(TrimStart(s))
  {
  }

  lemma TrimOfTrimmed(s: string)
    requires IsTrimmed(s)
    ensures Trim(s) == s
  {
  }

  lemma TrimWithin(s: string, c: char)
    requires c !in s
    ensures c !in Trim(s)
  {
  }

  // ---- lines ----

  function StripCarriageReturn(line: string): string {
    if EndsInCarriageReturn(line) then line[..|line| - 1] else line
  }

  predicate EndsInCarriageReturn(line: string) {
    line != "" && line[|line| - 1] == '\r'
  }

  /** First position of a character. */
  function IndexOf(s: string, c: char): (r: Option<nat>)
    ensures r.Some? ==> r.value < |s|
  {
    if s == "" then None
    else if s[0] == c then Some(0)
    else match IndexOf(s[1..], c) case Some(i) => Some(i + 1) case None => None
  }

  lemma {:induction false} IndexOfMeaning(s: string, c: char)
    ensures match IndexOf(s, c)
            case Some(i) => s[i] == c && c !in s[..i]
            case None => c !in s
  {
    if s != "" && s[0] != c {
      IndexOfMeaning(s[1..], c);
      assert s == [s[0]] + s[1..];
      if IndexOf(s[1..], c).Some? {
        var i := IndexOf(s[1..], c).value;
        assert s[..i + 1] == [s[0]] + s[1..][..i];
      }
    }
  }

  lemma {:induction false} IndexOfFirst(a: string, c: char, b: string)
    requires c !in a
    ensures IndexOf(a + [c] + b, c) == Some(|a|)
  {
    if a == "" {
      assert (a + [c] + b)[0] == c;
    } else {
      assert (a + [c] + b)[1..] == a[1..] + [c] + b;
      IndexOfFirst(a[1..], c, b);
    }
  }

  /** The lines of a text; a last line without a line feed keeps a final carriage return. */
  function Lines(s: string): seq<string>
    decreases |s|
  {
    if s == "" then []
    else match IndexOf(s, '\n')
      case Some(i) => [StripCarriageReturn(s[..i])] + Lines(s[i + 1..])
      case None => [s]
  }

  lemma {:induction false} LinesHaveNoLineFeed(s: string)
    ensures forall l | l in Lines(s) :: '\n' !in l
    decreases |s|
  {
    if s != "" {
      IndexOfMeaning(s, '\n');
      if IndexOf(s, '\n').Some? {
        LinesHaveNoLineFeed(s[IndexOf(s, '\n').value + 1..]);
      }
    }
  }

  predicate PlainLine(line: string) {
    '\n' !in line && !EndsInCarriageReturn(line)
  }

  /** Every line followed by a line feed. */
  function Unlines(lines: seq<string>): string {
    if lines == [] then "" else lines[0] + ['\n'] + Unlines(lines[1..])
  }

  lemma FirstLine(line: string, rest: string)
    requires '\n' !in line
    ensures Lines(line + ['\n'] + rest) == [StripCarriageReturn(line)] + Lines(rest)
  {
    var s := line + ['\n'] + rest;
    IndexOfFirst(line, '\n', rest);
    assert s[..|line|] == line && s[|line| + 1..] == rest;
  }

  /** Lines with either kind of line end, and a last one without. */
  function WithLineEnds(lines: seq<string>, carriageReturns: seq<bool>, last: string): string
    requires |carriageReturns| == |lines|
  {
    if lines == [] then last
    else
      (if carriageReturns[0] then lines[0] + ['\r'] else lines[0]) + ['\n']
      + WithLineEnds(lines[1..], carriageReturns[1..], last)
  }

  /** The kind of line ends does not matter, nor whether the last line has one. */
  lemma {:induction false} LinesOfAnyEnds(lines: seq<string>, carriageReturns: seq<bool>, last: string)
    requires |carriageReturns| == |lines| && (forall i | 0 <= i < |lines| :: PlainLine(lines[i])) && '\n' !in last
    ensures Lines(WithLineEnds(lines, carriageReturns, last)) == lines + (if last == "" then [] else [last])
  {
    if lines == [] {
      IndexOfMeaning(last, '\n');
    } else {
      hide *;
      LinesOfAnyEnds(lines[1..], carriageReturns[1..], last);
      AnyEndOf(lines[0], carriageReturns[0], WithLineEnds(lines[1..], carriageReturns[1..], last));
      WithFirstEnd(lines, carriageReturns, last);
    }
  }

  lemma AnyEndOf(line: string, carriageReturn: bool, rest: string)
    requires PlainLine(line)
    ensures Lines((if carriageReturn then line + ['\r'] else line) + ['\n'] + rest) == [line] + Lines(rest)
  {
    hide Lines;
    FirstLine(if carriageReturn then line + ['\r'] else line, rest);
  }

  lemma WithFirstEnd(lines: seq<string>, carriageReturns: seq<bool>, last: string)
    requires lines != [] && |carriageReturns| == |lines|
    ensures WithLineEnds(lines, carriageReturns, last)
         == (if carriageReturns[0] then lines[0] + ['\r'] else lines[0]) + ['\n']
            + WithLineEnds(lines[1..], carriageReturns[1..], last)
  {
  }

  lemma {:induction false} UnlinesConcat(a: seq<string>, b: seq<string>)
    ensures Unlines(a + b) == Unlines(a) + Unlines(b)
  {
    if a == [] {
      assert a + b == b;
    } else {
      assert (a + b)[1..] == a[1..] + b;
      UnlinesConcat(a[1..], b);
    }
  }
}
