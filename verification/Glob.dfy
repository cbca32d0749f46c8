/**
 Glob patterns.  `Denotes` is the declarative meaning of a pattern; the greedy segment
 search of the channel allowlist is proved against it.
 */
module Glob {
  import opened Wrappers
  import opened Text

  datatype Token = Lit(c: char) | AnyChar | AnySeq

  /** `text` splits into one piece per token: the character, one character, or any run. */
  ghost predicate Denotes(toks: seq<Token>, text: string)
    decreases |toks|
  {
    if toks == [] then text == ""
    else match toks[0]
      case Lit(c) => text != "" && text[0] == c && Denotes(toks[1..], text[1..])
      case AnyChar => text != "" && Denotes(toks[1..], text[1..])
      case AnySeq => exists k | 0 <= k <= |text| :: Denotes(toks[1..], text[k..])
  }

  function Literals(s: string): (toks: seq<Token>)
    ensures |toks| == |s|
    ensures forall i | 0 <= i < |s| :: toks[i] == Lit(s[i])
  {
    seq(|s|, i requires 0 <= i < |s| => Lit(s[i]))
  }

  /** The allowlist dialect: only `*` is special. */
  function StarToken(c: char): Token {
    if c == '*' then AnySeq else Lit(c)
  }

  function StarTokens(pattern: string): (toks: seq<Token>)
    ensures |toks| == |pattern|
    ensures forall i | 0 <= i < |pattern| :: toks[i] == StarToken(pattern[i])
  {
    seq(|pattern|, i requires 0 <= i < |pattern| => StarToken(pattern[i]))
  }

  predicate EndsWithStar(pattern: string) {
    pattern != "" && pattern[|pattern| - 1] == '*'
  }

  /** No proper prefix of `text` is matched. */
  ghost predicate Shortest(toks: seq<Token>, text: string) {
    forall k | 0 <= k < |text| :: !Denotes(toks, text[..k])
  }

  // ---- denotation of concatenated patterns ----

  lemma {:induction false} DenotesConcat(p: seq<Token>, q: seq<Token>, text: string, k: nat)
    requires k <= |text| && Denotes(p, text[..k]) && Denotes(q, text[k..])
    ensures Denotes(p + q, text)
    decreases |p|
  {
    if p == [] {
      assert p + q == q && text[k..] == text;
    } else {
      assert (p + q)[1..] == p[1..] + q;
      if p[0].AnySeq? {
        var j :| 0 <= j <= k && Denotes(p[1..], text[..k][j..]);
        TakeDrop(text, j, k - j);
        DenotesConcat(p[1..], q, text[j..], k - j);
      } else {
        TakeDrop(text, 1, k - 1);
        DenotesConcat(p[1..], q, text[1..], k - 1);
      }
    }
  }

  /** A leading `*` takes up `j` characters. */
  lemma RunInFront(p: seq<Token>, text: string, j: nat, i: nat)
    requires p != [] && p[0].AnySeq? && j + i <= |text| && Denotes(p[1..], text[j..][..i])
    ensures Denotes(p, text[..j + i])
  {
    TakeDrop(text, j, i);
  }

  /** Any other leading token takes up one character. */
  lemma OneInFront(p: seq<Token>, text: string, i: nat)
    requires p != [] && !p[0].AnySeq? && 1 + i <= |text| && (p[0].Lit? ==> text[0] == p[0].c)
    requires Denotes(p[1..], text[1..][..i])
    ensures Denotes(p, text[..1 + i])
  {
    TakeDrop(text, 1, i);
  }

  lemma {:induction false} DenotesSplit(p: seq<Token>, q: seq<Token>, text: string) returns (k: nat)
    requires Denotes(p + q, text)
    ensures k <= |text| && Denotes(p, text[..k]) && Denotes(q, text[k..])
    decreases |p|
  {
    if p == [] {
      assert p + q == q && text[0..] == text;
      k := 0;
    } else {
      assert (p + q)[1..] == p[1..] + q;
      var j: nat := 1;
      if p[0].AnySeq? {
        j :| 0 <= j <= |text| && Denotes(p[1..] + q, text[j..]);
      }
      var i := DenotesSplit(p[1..], q, text[j..]);
      if p[0].AnySeq? { RunInFront(p, text, j, i); } else { OneInFront(p, text, i); }
      hide Denotes;
      k := j + i;
      assert text[k..] == text[j..][i..];
    }
  }

  lemma {:induction false} DenotesLiterals(s: string, text: string)
    ensures Denotes(Literals(s), text) <==> text == s
  {
    if s != "" {
      assert Literals(s)[1..] == Literals(s[1..]);
      if text != "" {
        DenotesLiterals(s[1..], text[1..]);
        assert text == [text[0]] + text[1..] && s == [s[0]] + s[1..];
      }
    }
  }

  lemma DenotesAnything(text: string)
    ensures Denotes([AnySeq], text)
  {
    assert [AnySeq][1..] == [] && text[|text|..] == "";
  }

  // ---- the exchange argument: leftmost placement gives the first end ----

  /** `k` is the length of the shortest prefix of `text` that `toks` matches. */
  ghost predicate FirstEnd(toks: seq<Token>, text: string, k: nat) {
    k <= |text| && Denotes(toks, text[..k]) && forall j | 0 <= j < k :: !Denotes(toks, text[..j])
  }

  function Gap(part: string): seq<Token> {
    [AnySeq] + Literals(part)
  }

  /** A match of `q*part` on a prefix places `part` at the prefix's end, after a match of `q`. */
  lemma GapEnd(q: seq<Token>, part: string, text: string, k: nat) returns (j: nat)
    requires k <= |text| && Denotes(q + Gap(part), text[..k])
    ensures j + |part| <= k && Denotes(q, text[..j]) && OccursAt(text, part, k - |part|)
  {
    j := DenotesSplit(q, Gap(part), text[..k]);
    TakeDrop(text, j, k - j);
    var i := DenotesSplit([AnySeq], Literals(part), text[j..][..k - j]);
    DenotesLiterals(part, text[j..][..k - j][i..]);
    hide Denotes;
    PlacedAt(text, part, j, k, i);
  }

  lemma PlacedAt(text: string, part: string, j: nat, k: nat, i: nat)
    requires j <= k <= |text| && i <= k - j && text[j..][..k - j][i..] == part
    ensures j + |part| <= k && OccursAt(text, part, k - |part|)
  {
    assert |part| == k - j - i;
    forall n | 0 <= n < |part| ensures text[(k - |part|) + n] == part[n] {
      assert part[n] == text[j..][i + n];
    }
  }

  lemma GapPlace(q: seq<Token>, part: string, text: string, j: nat, at: nat)
    requires j <= at && OccursAt(text, part, at) && Denotes(q, text[..j])
    ensures Denotes(q + Gap(part), text[..at + |part|])
  {
    var whole := text[..at + |part|];
    DenotesAnything(whole[j..at]);
    assert whole[at..] == part;
    DenotesLiterals(part, part);
    assert whole[j..][..at - j] == whole[j..at] && whole[j..][at - j..] == part;
    DenotesConcat([AnySeq], Literals(part), whole[j..], at - j);
    assert whole[..j] == text[..j];
    DenotesConcat(q, Gap(part), whole, j);
  }

  /** Taking the leftmost occurrence after the first end of `q` yields the first end of `q*part`. */
  lemma LeftmostIsFirst(q: seq<Token>, part: string, text: string, pos: nat)
    requires FirstEnd(q, text, pos)
    ensures match Find(text, part, pos)
            case Some(at) => FirstEnd(q + Gap(part), text, at + |part|)
            case None => forall k | 0 <= k <= |text| :: !Denotes(q + Gap(part), text[..k])
  {
    var found := Find(text, part, pos);
    FindMeaning(text, part, pos);
    forall k | 0 <= k <= |text| && Denotes(q + Gap(part), text[..k])
      ensures found.Some? && found.value + |part| <= k
    {
      var j := GapEnd(q, part, text, k);
      assert pos <= j;
    }
    if found.Some? {
      GapPlace(q, part, text, pos, found.value);
    }
  }

  /** If no prefix matches the first part of a pattern, the whole pattern has no match. */
  lemma NoPrefixNoMatch(q: seq<Token>, rest: seq<Token>, text: string)
    requires forall k | 0 <= k <= |text| :: !Denotes(q, text[..k])
    ensures !Denotes(q + rest, text)
  {
    if Denotes(q + rest, text) {
      var k := DenotesSplit(q, rest, text);
    }
  }

  // ---- the matcher ----

  /** What the greedy matcher decides: a match with no shorter match in front of it,
      unless the pattern ends in `*`. */
  ghost predicate Accepts(pattern: string, text: string) {
    Denotes(StarTokens(pattern), text) && (EndsWithStar(pattern) || Shortest(StarTokens(pattern), text))
  }

  lemma StarTokensConcat(p: string, q: string)
    ensures StarTokens(p + q) == StarTokens(p) + StarTokens(q)
  {
  }

  lemma StarTokensLiteral(p: string)
    requires '*' !in p
    ensures StarTokens(p) == Literals(p)
  {
  }

  /** Extending the processed parts by one more. */
  lemma NextPart(parts: seq<string>, i: nat)
    requires 1 <= i < |parts| && '*' !in parts[i]
    ensures StarTokens(Join(parts[..i + 1], '*')) == StarTokens(Join(parts[..i], '*')) + Gap(parts[i])
  {
    assert parts[..i + 1] == parts[..i] + [parts[i]];
    JoinSnoc(parts[..i], parts[i], '*');
    var head := Join(parts[..i], '*');
    StarTokensConcat(head + "*", parts[i]);
    StarTokensConcat(head, "*");
    StarTokensLiteral(parts[i]);
    assert StarTokens("*") == [AnySeq];
  }

  /** The unprocessed parts only append tokens. */
  lemma {:induction false} RestOfParts(parts: seq<string>, i: nat) returns (rest: seq<Token>)
    requires 1 <= i <= |parts|
    ensures StarTokens(Join(parts, '*')) == StarTokens(Join(parts[..i], '*')) + rest
    decreases |parts| - i
  {
    if i == |parts| {
      assert parts[..i] == parts;
      rest := [];
    } else {
      var r := RestOfParts(parts, i + 1);
      assert parts[..i + 1] == parts[..i] + [parts[i]];
      JoinSnoc(parts[..i], parts[i], '*');
      var head := Join(parts[..i], '*');
      StarTokensConcat(head, "*" + parts[i]);
      assert head + "*" + parts[i] == head + ("*" + parts[i]);
      rest := StarTokens("*" + parts[i]) + r;
    }
  }

  /** The tokens of the first `i` parts. */
  function Front(parts: seq<string>, i: nat): seq<Token>
    requires 1 <= i <= |parts|
  {
    StarTokens(Join(parts[..i], '*'))
  }

  lemma FirstPart(parts: seq<string>, text: string)
    requires parts != [] && '*' !in parts[0]
    ensures if Find(text, parts[0], 0) == Some(0) then FirstEnd(Front(parts, 1), text, |parts[0]|)
            else forall k | 0 <= k <= |text| :: !Denotes(Front(parts, 1), text[..k])
  {
    var part := parts[0];
    StarTokensLiteral(part);
    assert parts[..1] == [part];
    FindMeaning(text, part, 0);
    forall k | 0 <= k <= |text| ensures Denotes(Front(parts, 1), text[..k]) <==> text[..k] == part {
      DenotesLiterals(part, text[..k]);
    }
    if OccursAt(text, part, 0) {
      assert text[..|part|] == part;
    }
  }

  /**
   One part placed: the first end moves behind its leftmost occurrence; if it has none, or the
   first part is not at the start, the text has no match at all.
   */
  lemma PlacePart(parts: seq<string>, i: nat, text: string, pos: nat)
    requires i < |parts| && (forall p | p in parts :: '*' !in p) && pos <= |text|
    requires if i == 0 then pos == 0 else FirstEnd(Front(parts, i), text, pos)
    ensures var found := Find(text, parts[i], pos);
            if found.Some? && (i == 0 ==> found == Some(0)) then FirstEnd(Front(parts, i + 1), text, found.value + |parts[i]|)
            else !Denotes(StarTokens(Join(parts, '*')), text)
  {
    assert parts[i] in parts;
    hide Denotes, Find, Join, StarTokens;
    var rest := RestOfParts(parts, i + 1);
    if i == 0 {
      FirstPart(parts, text);
    } else {
      LeftmostIsFirst(Front(parts, i), parts[i], text, pos);
      NextPart(parts, i);
    }
    if !(Find(text, parts[i], pos).Some? && (i == 0 ==> Find(text, parts[i], pos) == Some(0))) {
      NoPrefixNoMatch(Front(parts, i + 1), rest, text);
    }
  }

  /** The empty part is found where the search stands. */
  lemma EmptyPart(text: string, pos: nat)
    requires pos <= |text|
    ensures Find(text, "", pos) == Some(pos)
  {
  }

  /** What the last position decides. */
  lemma Verdict(parts: seq<string>, text: string, pos: nat)
    requires |parts| > 1 && (forall p | p in parts :: '*' !in p) && FirstEnd(Front(parts, |parts|), text, pos)
    ensures Accepts(Join(parts, '*'), text) <==> parts[|parts| - 1] == "" || pos == |text|
  {
    assert parts[|parts| - 1] in parts;
    assert parts[..|parts|] == parts;
    LastPart(parts);
    hide Denotes, Join, StarTokens;
    if parts[|parts| - 1] == "" {
      MatchExtends(Join(parts, '*'), text, pos);
    }
    assert text[..|text|] == text;
  }

  /**
   Greedy segment search.  Each part is placed at its leftmost occurrence; the first part must
   start the text and a nonempty last part must end it.
   */
  method GlobMatchPattern(pattern: string, text: string) returns (accepted: bool)
    ensures accepted <==> Accepts(pattern, text)
  {
    var parts := Split(pattern, '*');
    if |parts| == 1 {
      LiteralVerdict(pattern, text);
      return pattern == text;
    }
    hide Accepts, FirstEnd, Find, Join, Denotes, StarTokens;
    var pos: nat := 0;
    for i := 0 to |parts|
      invariant pos <= |text|
      invariant if i == 0 then pos == 0 else FirstEnd(Front(parts, i), text, pos)
    {
      var part := parts[i];
      PlacePart(parts, i, text, pos);
      if part == "" {
        EmptyPart(text, pos);
        continue;
      }
      match Find(text, part, pos) {
        case Some(at) =>
          if i == 0 && at != 0 {
            NoMatchNotAccepted(pattern, text);
            return false;
          }
          pos := at + |part|;
        case None =>
          NoMatchNotAccepted(pattern, text);
          return false;
      }
    }
    Verdict(parts, text, pos);
    var last := parts[|parts| - 1];
    return last == "" || pos == |text|;
  }

  lemma NoMatchNotAccepted(pattern: string, text: string)
    requires !Denotes(StarTokens(pattern), text)
    ensures !Accepts(pattern, text)
  {
  }

  lemma LiteralVerdict(pattern: string, text: string)
    requires '*' !in pattern
    ensures Accepts(pattern, text) <==> pattern == text
  {
    StarTokensLiteral(pattern);
    DenotesLiterals(pattern, text);
    forall k | 0 <= k < |text| { DenotesLiterals(pattern, text[..k]); }
  }

  /** A pattern ends in `*` exactly when splitting leaves an empty last part. */
  lemma LastPart(parts: seq<string>)
    requires |parts| > 1 && '*' !in parts[|parts| - 1]
    ensures EndsWithStar(Join(parts, '*')) <==> parts[|parts| - 1] == ""
  {
    var n := |parts| - 1;
    assert parts == parts[..n] + [parts[n]];
    JoinSnoc(parts[..n], parts[n], '*');
  }

  lemma MatchExtends(pattern: string, text: string, pos: nat)
    requires EndsWithStar(pattern) && pos <= |text| && Denotes(StarTokens(pattern), text[..pos])
    ensures Denotes(StarTokens(pattern), text)
  {
    var n := |pattern| - 1;
    var q := StarTokens(pattern[..n]);
    assert StarTokens(pattern) == q + [AnySeq];
    var k := DenotesSplit(q, [AnySeq], text[..pos]);
    assert text[..pos][..k] == text[..k];
    DenotesAnything(text[k..]);
    DenotesConcat(q, [AnySeq], text, k);
  }

  // ---- when the matcher agrees with the pattern's meaning ----

  /**
   For one text: a nonempty last literal that occurs only at the very end cannot be placed
   too early, so the matcher is complete there.
   */
  lemma CompleteWhenLastLiteralIsUnique(prefix: string, last: string, text: string)
    requires '*' !in last && last != ""
    requires forall i | 0 <= i < |text| - |last| :: !OccursAt(text, last, i)
    ensures Accepts(prefix + "*" + last, text) <==> Denotes(StarTokens(prefix + "*" + last), text)
  {
    var pattern := prefix + "*" + last;
    var q := StarTokens(prefix);
    StarTokensConcat(prefix + "*", last);
    StarTokensConcat(prefix, "*");
    StarTokensLiteral(last);
    assert StarTokens("*") == [AnySeq];
    assert StarTokens(pattern) == q + Gap(last);
    forall k | 0 <= k < |text| ensures !Denotes(StarTokens(pattern), text[..k]) {
      if Denotes(StarTokens(pattern), text[..k]) {
        var j := GapEnd(q, last, text, k);
      }
    }
  }

  /** The text obtained from a pattern by letting every `*` match nothing. */
  function WithoutStars(pattern: string): string {
    if pattern == "" then ""
    else (if pattern[0] == '*' then "" else [pattern[0]]) + WithoutStars(pattern[1..])
  }

  lemma {:induction false} WithoutStarsMatches(pattern: string)
    ensures Denotes(StarTokens(pattern), WithoutStars(pattern))
  {
    if pattern != "" {
      WithoutStarsMatches(pattern[1..]);
      assert StarTokens(pattern)[1..] == StarTokens(pattern[1..]);
      var t := WithoutStars(pattern);
      if pattern[0] == '*' {
        assert t[0..] == t == WithoutStars(pattern[1..]);
      } else {
        assert t[1..] == WithoutStars(pattern[1..]);
      }
    }
  }

  lemma SplitAtLastStar(pattern: string) returns (prefix: string, last: string)
    requires '*' in pattern
    ensures pattern == prefix + "*" + last && '*' !in last
  {
    var n := |pattern|;
    while n > 0 && pattern[n - 1] != '*'
      invariant 0 <= n <= |pattern| && forall i | n <= i < |pattern| :: pattern[i] != '*'
    {
      n := n - 1;
    }
    prefix, last := pattern[..n - 1], pattern[n..];
  }

  /** After a text `u` for `q`, both one and two copies of `last` complete the pattern `q*last`. */
  lemma OneOrTwoCopies(q: seq<Token>, u: string, last: string)
    requires Denotes(q, u)
    ensures Denotes(q + Gap(last), u + last) && Denotes(q + Gap(last), u + last + last)
  {
    var text := u + last + last;
    assert text[..|u|] == u;
    assert OccursAt(text, last, |u|) && OccursAt(text, last, |u| + |last|);
    GapPlace(q, last, text, |u|, |u|);
    GapPlace(q, last, text, |u|, |u| + |last|);
    assert text[..|u| + |last|] == u + last && text[..|text|] == text;
  }

  /** The witness `prefix last last`: the matcher takes its first `last` and stops short. */
  lemma EarlyPlacement(pattern: string) returns (text: string)
    requires '*' in pattern && !EndsWithStar(pattern)
    ensures Denotes(StarTokens(pattern), text) && !Accepts(pattern, text)
  {
    var prefix, last := SplitAtLastStar(pattern);
    WithoutStarsMatches(prefix);
    var q := StarTokens(prefix);
    assert StarTokens(pattern) == q + Gap(last) by {
      StarTokensConcat(prefix + "*", last);
      StarTokensConcat(prefix, "*");
      StarTokensLiteral(last);
      assert StarTokens("*") == [AnySeq];
    }
    var u := WithoutStars(prefix);
    OneOrTwoCopies(q, u, last);
    text := u + last + last;
    assert text[..|u| + |last|] == u + last;
  }

  /**
   A pattern on which the greedy matcher is complete for every text is exactly one without
   `*` or one that ends in `*`.
   */
  lemma CompletePatterns(pattern: string)
    ensures (forall text :: Accepts(pattern, text) <==> Denotes(StarTokens(pattern), text))
        <==> ('*' !in pattern || EndsWithStar(pattern))
  {
    if '*' !in pattern {
      StarTokensLiteral(pattern);
      forall text ensures Accepts(pattern, text) <==> Denotes(StarTokens(pattern), text) {
        DenotesLiterals(pattern, text);
        forall k | 0 <= k < |text| { DenotesLiterals(pattern, text[..k]); }
      }
    } else if !EndsWithStar(pattern) {
      var text := EarlyPlacement(pattern);
    } else {
      forall text ensures Accepts(pattern, text) <==> Denotes(StarTokens(pattern), text) {
      }
    }
  }
}
