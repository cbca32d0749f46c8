/**
 UTF-8 text as bytes, encoded as in section 3 of RFC 3629, and its truncation at a byte limit.
 */
module Utf8 {
  type Byte = b: int | 0 <= b < 256

  predicate IsScalar(c: int) {
    0 <= c <= 0x10FFFF && !(0xD800 <= c <= 0xDFFF)
  }

  /** The encoding of one scalar value. */
  function EncodeOne(c: int): (e: seq<Byte>)
    requires IsScalar(c)
    ensures 1 <= |e| <= 4 && !IsContinuation(e[0])
    ensures forall i | 1 <= i < |e| :: IsContinuation(e[i])
  {
    if c < 0x80 then [c]
    else if c < 0x800 then [0xC0 + c / 64, 0x80 + c % 64]
    else if c < 0x10000 then [0xE0 + c / 4096, 0x80 + c / 64 % 64, 0x80 + c % 64]
    else [0xF0 + c / 262144, 0x80 + c / 4096 % 64, 0x80 + c / 64 % 64, 0x80 + c % 64]
  }

  /** The value that leading and continuation bits spell. */
  function ValueOf(e: seq<Byte>): int
    requires 1 <= |e| <= 4
  {
    var lead: int := e[0];
    if |e| == 1 then lead
    else if |e| == 2 then (lead - 0xC0) * 64 + Low(e[1])
    else if |e| == 3 then (lead - 0xE0) * 4096 + Low(e[1]) * 64 + Low(e[2])
    else (lead - 0xF0) * 262144 + Low(e[1]) * 4096 + Low(e[2]) * 64 + Low(e[3])
  }

  /** The bits of a continuation byte. */
  function Low(b: Byte): int {
    var n: int := b;
    n - 0x80
  }

  /** The encoding spells its value, the leading byte tells the length, and no shorter one would do. */
  lemma EncodingSpells(c: int)
    requires IsScalar(c)
    ensures var e := EncodeOne(c);
            && ValueOf(e) == c
            && (|e| == 1 <==> e[0] < 0x80) && (|e| == 2 <==> 0xC0 <= e[0] < 0xE0)
            && (|e| == 3 <==> 0xE0 <= e[0] < 0xF0) && (|e| == 4 <==> 0xF0 <= e[0])
            && (|e| == 1 <==> c <= 0x7F) && (|e| <= 2 <==> c <= 0x7FF) && (|e| <= 3 <==> c <= 0xFFFF)
  {
    Digits(c);
    var e := EncodeOne(c);
    if |e| == 3 {
      assert Low(e[1]) == c / 64 % 64 && Low(e[2]) == c % 64;
    } else if |e| == 4 {
      assert Low(e[1]) == c / 4096 % 64 && Low(e[2]) == c / 64 % 64 && Low(e[3]) == c % 64;
    }
  }

  lemma Digits(c: int)
    requires c >= 0
    ensures c / 64 * 64 + c % 64 == c && c / 4096 * 64 + c / 64 % 64 == c / 64 && c / 262144 * 64 + c / 4096 % 64 == c / 4096
  {
    assert c / 4096 == c / 64 / 64 && c / 262144 == c / 4096 / 64;
  }

  predicate AllScalars(text: seq<int>) {
    forall c | c in text :: IsScalar(c)
  }

  function Encode(text: seq<int>): (e: seq<Byte>)
    requires AllScalars(text)
  {
    if text == [] then [] else EncodeOne(text[0]) + Encode(text[1..])
  }

  predicate IsContinuation(b: Byte) {
    0x80 <= b < 0xC0
  }

  /** Both ends of a string are boundaries, and so is every byte that is no continuation byte. */
  predicate IsCharBoundary(s: seq<Byte>, i: nat) {
    i == 0 || i == |s| || (i < |s| && !IsContinuation(s[i]))
  }

  lemma {:induction false} EncodeConcat(a: seq<int>, b: seq<int>)
    requires AllScalars(a) && AllScalars(b)
    ensures AllScalars(a + b) && Encode(a + b) == Encode(a) + Encode(b)
  {
    if a == [] {
      assert a + b == b;
    } else {
      assert (a + b)[1..] == a[1..] + b;
      EncodeConcat(a[1..], b);
    }
  }

  /** Bytes determine their text. */
  lemma {:induction false} EncodingIsInjective(a: seq<int>, b: seq<int>)
    requires AllScalars(a) && AllScalars(b) && Encode(a) == Encode(b)
    ensures a == b
  {
    if a != [] && b != [] {
      EncodingSpells(a[0]);
      EncodingSpells(b[0]);
      var x, y := EncodeOne(a[0]), EncodeOne(b[0]);
      var e := Encode(a);
      hide EncodeOne;
      assert e[0] == x[0] && e[0] == y[0];
      assert x == e[..|x|] && y == e[..|y|] && |x| == |y|;
      assert Encode(a[1..]) == e[|x|..] && Encode(b[1..]) == e[|y|..];
      EncodingIsInjective(a[1..], b[1..]);
      assert a == [a[0]] + a[1..] && b == [b[0]] + b[1..];
    }
  }

  /** Behind a leading part, boundaries are those of the rest. */
  lemma BoundaryShift(first: seq<Byte>, rest: seq<Byte>, j: nat)
    requires j <= |rest| && first != [] && (rest != [] ==> !IsContinuation(rest[0]))
    ensures IsCharBoundary(first + rest, |first| + j) <==> IsCharBoundary(rest, j)
  {
    assert j < |rest| ==> (first + rest)[|first| + j] == rest[j];
  }

  lemma StartsWithLeader(text: seq<int>)
    requires AllScalars(text) && text != []
    ensures Encode(text) != [] && !IsContinuation(Encode(text)[0])
  {
  }

  /** One more character in front. */
  lemma EncodePrefix(text: seq<int>, m: nat)
    requires AllScalars(text) && text != [] && m <= |text| - 1
    ensures Encode(text[..m + 1]) == EncodeOne(text[0]) + Encode(text[1..][..m])
  {
    assert text[..m + 1][1..] == text[1..][..m];
  }

  /** `n` whole characters end at the last boundary that does not lie behind position `i`. */
  ghost predicate LastBoundary(text: seq<int>, i: nat, n: nat)
    requires AllScalars(text)
  {
    && n <= |text|
    && var e, end := Encode(text), |Encode(text[..n])|;
       && end <= i <= |e| && e[..end] == Encode(text[..n]) && IsCharBoundary(e, end)
       && (n < |text| ==> i < |Encode(text[..n + 1])| <= end + 4)
       && forall j | end < j <= i :: !IsCharBoundary(e, j)
  }

  lemma BoundaryStep(text: seq<int>, i: nat, m: nat)
    requires AllScalars(text) && text != [] && i >= |EncodeOne(text[0])|
    requires LastBoundary(text[1..], i - |EncodeOne(text[0])|, m)
    ensures LastBoundary(text, i, m + 1)
  {
    var first, rest := EncodeOne(text[0]), Encode(text[1..]);
    var e, b := Encode(text), |Encode(text[1..][..m])|;
    EncodePrefix(text, m);
    if m < |text[1..]| {
      EncodePrefix(text, m + 1);
      StartsWithLeader(text[1..]);
    }
    hide EncodeOne, Encode, IsCharBoundary;
    assert e == first + rest;
    BoundaryShift(first, rest, b);
    assert e[..|first| + b] == first + rest[..b];
    forall j | |first| + b < j <= i ensures !IsCharBoundary(e, j) {
      BoundaryShift(first, rest, j - |first|);
    }
  }

  lemma LeadingBytes(first: seq<Byte>, rest: seq<Byte>, i: nat)
    requires i < |first| && forall k | 1 <= k < |first| :: IsContinuation(first[k])
    ensures forall j | 0 < j <= i :: !IsCharBoundary(first + rest, j)
  {
    forall j | 0 < j <= i ensures !IsCharBoundary(first + rest, j) {
      assert (first + rest)[j] == first[j];
    }
  }

  lemma BoundaryHere(text: seq<int>, i: nat)
    requires AllScalars(text) && i <= |Encode(text)| && (text != [] ==> i < |EncodeOne(text[0])|)
    ensures LastBoundary(text, i, 0)
  {
    assert text[..0] == [] && Encode([]) == [];
    if text != [] {
      EncodePrefix(text, 0);
      assert text[1..][..0] == [];
      var first, rest := EncodeOne(text[0]), Encode(text[1..]);
      LeadingBytes(first, rest, i);
      hide EncodeOne, IsContinuation, Encode;
      assert first + [] == first;
    }
  }

  /** Boundaries are exactly the ends of encoded prefixes, at most three bytes behind any position. */
  lemma {:induction false} BoundaryIsPrefix(text: seq<int>, i: nat) returns (n: nat)
    requires AllScalars(text) && i <= |Encode(text)|
    ensures LastBoundary(text, i, n)
    decreases |text|
  {
    if text == [] || i < |EncodeOne(text[0])| {
      BoundaryHere(text, i);
      n := 0;
    } else {
      var m := BoundaryIsPrefix(text[1..], i - |EncodeOne(text[0])|);
      BoundaryStep(text, i, m);
      n := m + 1;
    }
  }

  lemma LongerPrefix(text: seq<int>, a: nat, b: nat)
    requires AllScalars(text) && a < b <= |text|
    ensures |Encode(text[..a])| < |Encode(text[..b])|
  {
    EncodeConcat(text[..a], text[a..b]);
    assert text[..b] == text[..a] + text[a..b];
  }

  /** `n` characters fit the limit, and no more do. */
  ghost predicate Longest(text: seq<int>, n: nat, maxBytes: nat)
    requires AllScalars(text)
  {
    && n <= |text| && |Encode(text[..n])| <= maxBytes
    && forall k | n < k <= |text| :: |Encode(text[..k])| > maxBytes
  }

  /**
   Steps back from the byte limit to a boundary: at most three steps, and the result is the
   encoding of the longest prefix of the text that fits.
   */
  method Truncate(s: seq<Byte>, maxBytes: nat, ghost text: seq<int>) returns (r: seq<Byte>)
    requires AllScalars(text) && s == Encode(text)
    ensures exists n: nat :: Longest(text, n, maxBytes) && r == Encode(text[..n])
    ensures r <= s && (|s| <= maxBytes ==> r == s) && (|s| > maxBytes ==> maxBytes - 3 <= |r| <= maxBytes)
  {
    if |s| <= maxBytes {
      assert text[..|text|] == text;
      assert Longest(text, |text|, maxBytes);
      return s;
    }
    ghost var n := BoundaryIsPrefix(text, maxBytes);
    LongestFits(text, n, maxBytes);
    ghost var end := |Encode(text[..n])|;
    var idx := maxBytes;
    while !IsCharBoundary(s, idx)
      invariant end <= idx <= maxBytes
      decreases idx
    {
      idx := idx - 1;
    }
    return s[..idx];
  }

  lemma LongestFits(text: seq<int>, n: nat, maxBytes: nat)
    requires AllScalars(text) && maxBytes < |Encode(text)| && LastBoundary(text, maxBytes, n)
    ensures n < |text| && Longest(text, n, maxBytes)
  {
    assert text[..|text|] == text;
    forall k | n < k <= |text| ensures |Encode(text[..k])| > maxBytes {
      if n + 1 < k { LongerPrefix(text, n + 1, k); }
    }
  }
}
