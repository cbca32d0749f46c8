/**
 Reciprocal rank fusion over exact reals: the score of a key is the sum of 1/(k + rank + 1)
 over its occurrences.
 */
module Fusion {
  import opened Wrappers
  import opened Sorting

  type Key = string

  function Contribution(k: real, rank: nat): (c: real)
    requires k > -1.0
    ensures c > 0.0
  {
    var d := k + rank as real + 1.0;
    var c := 1.0 / d;
    assert c * d == 1.0;
    c
  }

  function ListScore(list: seq<Key>, key: Key, k: real): (s: real)
    requires k > -1.0
    ensures s >= 0.0
  {
    if list == [] then 0.0
    else
      var n := |list| - 1;
      ListScore(list[..n], key, k) + (if list[n] == key then Contribution(k, n) else 0.0)
  }

  function Score(lists: seq<seq<Key>>, key: Key, k: real): (s: real)
    requires k > -1.0
    ensures s >= 0.0
  {
    if lists == [] then 0.0
    else
      var n := |lists| - 1;
      Score(lists[..n], key, k) + ListScore(lists[n], key, k)
  }

  function KeysOf(lists: seq<seq<Key>>): set<Key> {
    set i, j | 0 <= i < |lists| && 0 <= j < |lists[i]| :: lists[i][j]
  }

  // ---- the merges ----

  datatype RrfResult = RrfResult(key: Key, score: real)

  ghost predicate Scores(scores: map<Key, real>, lists: seq<seq<Key>>, k: real)
    requires k > -1.0
  {
    scores.Keys == KeysOf(lists) && forall x | x in scores :: scores[x] == Score(lists, x, k)
  }

  /** Adds one ranked list to the accumulated scores. */
  method Accumulate(scores: map<Key, real>, list: seq<Key>, k: real) returns (r: map<Key, real>)
    requires k > -1.0
    ensures forall x :: x in r <==> x in scores || x in list
    ensures forall x | x in r :: r[x] == (if x in scores then scores[x] else 0.0) + ListScore(list, x, k)
  {
    r := scores;
    for rank := 0 to |list|
      invariant forall x :: x in r <==> x in scores || x in list[..rank]
      invariant forall x | x in r :: r[x] == (if x in scores then scores[x] else 0.0) + ListScore(list[..rank], x, k)
      invariant forall x | x !in r :: ListScore(list[..rank], x, k) == 0.0
    {
      var key := list[rank];
      assert list[..rank + 1][..rank] == list[..rank];
      r := r[key := (if key in r then r[key] else 0.0) + Contribution(k, rank)];
    }
    assert list[..|list|] == list;
  }

  /** The scored keys in some order, sorted best first. */
  method Ranked(scores: map<Key, real>) returns (results: seq<RrfResult>)
    ensures forall x :: x in scores <==> exists i | 0 <= i < |results| :: results[i].key == x
    ensures forall i | 0 <= i < |results| :: results[i].key in scores && results[i].score == scores[results[i].key]
    ensures forall i, j | 0 <= i < j < |results| :: results[i].key != results[j].key
    ensures forall i, j | 0 <= i < j < |results| :: results[i].score >= results[j].score
  {
    var collected: seq<RrfResult> := [];
    var rest := scores.Keys;
    while rest != {}
      invariant rest <= scores.Keys
      invariant forall x :: x in scores.Keys - rest <==> RrfResult(x, if x in scores then scores[x] else 0.0) in collected && x in scores
      invariant forall e | e in collected :: e.key in scores && e.score == scores[e.key] && e.key !in rest
      invariant forall e | e in collected :: multiset(collected)[e] == 1
      decreases rest
    {
      var key :| key in rest;
      rest := rest - {key};
      collected := collected + [RrfResult(key, scores[key])];
    }
    results := SortDescending(collected, (e: RrfResult) => e.score);
    SameElements(results, collected);
    forall x ensures x in scores <==> exists i | 0 <= i < |results| :: results[i].key == x {
      if x in scores {
        var e := RrfResult(x, scores[x]);
        assert e in results;
      }
    }
    forall i, j | 0 <= i < j < |results| ensures results[i].key != results[j].key {
      assert results[i] in collected && results[j] in collected;
      if results[i] == results[j] {
        CountTwice(results, i, j);
      }
    }
  }

  lemma CountTwice<T>(s: seq<T>, i: nat, j: nat)
    requires i < j < |s| && s[i] == s[j]
    ensures multiset(s)[s[i]] >= 2
  {
    assert s == s[..j] + [s[j]] + s[j + 1..];
    assert s[i] == s[..j][i];
    assert s[i] in multiset(s[..j]);
  }

  lemma KeysOfSnoc(lists: seq<seq<Key>>, list: seq<Key>)
    ensures forall x :: x in KeysOf(lists + [list]) <==> x in KeysOf(lists) || x in list
  {
    var all := lists + [list];
    forall x ensures x in KeysOf(all) <==> x in KeysOf(lists) || x in list {
      if x in KeysOf(lists) {
        var i, j :| 0 <= i < |lists| && 0 <= j < |lists[i]| && lists[i][j] == x;
        assert all[i][j] == x;
      }
      if x in list {
        var j :| 0 <= j < |list| && list[j] == x;
        assert all[|lists|][j] == x;
      }
    }
  }

  lemma ScoreSnoc(lists: seq<seq<Key>>, list: seq<Key>, x: Key, k: real)
    requires k > -1.0
    ensures Score(lists + [list], x, k) == Score(lists, x, k) + ListScore(list, x, k)
  {
    assert (lists + [list])[..|lists|] == lists;
  }

  lemma {:induction false} AbsentKeyScoresNothing(lists: seq<seq<Key>>, x: Key, k: real)
    requires k > -1.0 && x !in KeysOf(lists)
    ensures Score(lists, x, k) == 0.0
  {
    if lists != [] {
      var n := |lists| - 1;
      assert lists == lists[..n] + [lists[n]];
      KeysOfSnoc(lists[..n], lists[n]);
      AbsentKeyScoresNothing(lists[..n], x, k);
      AbsentFromList(lists[n], x, k);
    }
  }

  lemma {:induction false} AbsentFromList(list: seq<Key>, x: Key, k: real)
    requires k > -1.0 && x !in list
    ensures ListScore(list, x, k) == 0.0
  {
    if list != [] {
      AbsentFromList(list[..|list| - 1], x, k);
    }
  }

  /** Accumulating one more list keeps the table of scores. */
  lemma ScoresSnoc(scores: map<Key, real>, lists: seq<seq<Key>>, list: seq<Key>, k: real, r: map<Key, real>)
    requires k > -1.0 && Scores(scores, lists, k)
    requires forall x :: x in r <==> x in scores || x in list
    requires forall x | x in r :: r[x] == (if x in scores then scores[x] else 0.0) + ListScore(list, x, k)
    ensures Scores(r, lists + [list], k)
  {
    KeysOfSnoc(lists, list);
    forall x | x in r ensures r[x] == Score(lists + [list], x, k) {
      ScoreSnoc(lists, list, x, k);
      if x !in scores {
        AbsentKeyScoresNothing(lists, x, k);
      }
    }
  }

  /** `results` lists every key of `lists` once, with its score, best first. */
  ghost predicate IsFusion(results: seq<RrfResult>, lists: seq<seq<Key>>, k: real)
    requires k > -1.0
  {
    && (forall x :: x in KeysOf(lists) <==> exists i | 0 <= i < |results| :: results[i].key == x)
    && (forall i | 0 <= i < |results| :: results[i].score == Score(lists, results[i].key, k))
    && (forall i, j | 0 <= i < j < |results| :: results[i].key != results[j].key)
    && (forall i, j | 0 <= i < j < |results| :: results[i].score >= results[j].score)
  }

  method ReciprocalRankFusion(vecRanked: seq<Key>, ftsRanked: seq<Key>, k: real) returns (results: seq<RrfResult>)
    requires k > -1.0
    ensures IsFusion(results, [vecRanked, ftsRanked], k)
  {
    var scores := Accumulate(map[], vecRanked, k);
    ScoresSnoc(map[], [], vecRanked, k, scores);
    assert [] + [vecRanked] == [vecRanked];
    var all := Accumulate(scores, ftsRanked, k);
    ScoresSnoc(scores, [vecRanked], ftsRanked, k, all);
    assert [vecRanked] + [ftsRanked] == [vecRanked, ftsRanked];
    results := Ranked(all);
  }

  const DEFAULT_K: real := 60.0

  /** Sub-query merge; a single list is passed through as it is. */
  method MergeMultipleRankedLists(lists: seq<seq<Key>>) returns (merged: seq<Key>)
    requires lists != []
    ensures |lists| == 1 ==> merged == lists[0]
    ensures |lists| > 1 ==> exists results: seq<RrfResult> ::
              IsFusion(results, lists, 60.0) && |merged| == |results|
              && forall i | 0 <= i < |merged| :: merged[i] == results[i].key
  {
    if |lists| == 1 {
      return lists[0];
    }
    var scores: map<Key, real> := map[];
    for i := 0 to |lists|
      invariant Scores(scores, lists[..i], DEFAULT_K)
    {
      var r := Accumulate(scores, lists[i], DEFAULT_K);
      ScoresSnoc(scores, lists[..i], lists[i], DEFAULT_K, r);
      assert lists[..i + 1] == lists[..i] + [lists[i]];
      scores := r;
    }
    assert lists[..|lists|] == lists;
    var results := Ranked(scores);
    assert IsFusion(results, lists, DEFAULT_K);
    merged := seq(|results|, i requires 0 <= i < |results| => results[i].key);
  }

  // ---- what the order means ----

  predicate NoDuplicates(list: seq<Key>) {
    forall i, j | 0 <= i < j < |list| :: list[i] != list[j]
  }

  predicate AllDistinct(lists: seq<seq<Key>>) {
    forall l | l in lists :: NoDuplicates(l)
  }

  /** Without duplicates a key contributes once, by its rank. */
  lemma {:induction false} ListScoreAtRank(list: seq<Key>, r: nat, k: real)
    requires k > -1.0 && NoDuplicates(list) && r < |list|
    ensures ListScore(list, list[r], k) == Contribution(k, r)
  {
    var n := |list| - 1;
    if r == n {
      AbsentFromList(list[..n], list[n], k);
    } else {
      assert list[..n][r] == list[r];
      ListScoreAtRank(list[..n], r, k);
    }
  }

  lemma SmallerDenominator(c1: real, d1: real, c2: real, d2: real)
    requires 0.0 < d1 < d2 && c1 * d1 == 1.0 && c2 * d2 == 1.0
    ensures c1 > c2
  {
    Scaled(c1, c2, d1 * d2);
    assert c1 * (d1 * d2) == (c1 * d1) * d2 == d2;
    assert c2 * (d1 * d2) == (c2 * d2) * d1 == d1;
  }

  lemma ContributionDecreases(k: real, r1: nat, r2: nat)
    requires k > -1.0 && r1 < r2
    ensures Contribution(k, r1) > Contribution(k, r2)
  {
    var d1, d2 := k + r1 as real + 1.0, k + r2 as real + 1.0;
    assert Contribution(k, r1) * d1 == 1.0 && Contribution(k, r2) * d2 == 1.0;
    SmallerDenominator(Contribution(k, r1), d1, Contribution(k, r2), d2);
  }

  /** In this list `x` stands above `y`, or `y` is missing. */
  predicate Above(list: seq<Key>, x: Key, y: Key) {
    y in list ==> exists i, j | 0 <= i < j < |list| :: list[i] == x && list[j] == y
  }

  lemma AboveScores(list: seq<Key>, x: Key, y: Key, k: real)
    requires k > -1.0 && NoDuplicates(list) && Above(list, x, y)
    ensures ListScore(list, x, k) >= ListScore(list, y, k)
    ensures x in list ==> ListScore(list, x, k) > ListScore(list, y, k)
  {
    if y in list {
      var i, j :| 0 <= i < j < |list| && list[i] == x && list[j] == y;
      ListScoreAtRank(list, i, k);
      ListScoreAtRank(list, j, k);
      ContributionDecreases(k, i, j);
    } else {
      AbsentFromList(list, y, k);
      if x in list {
        var i :| 0 <= i < |list| && list[i] == x;
        ListScoreAtRank(list, i, k);
      }
    }
  }

  /** A key above another in every list that has the other scores higher. */
  lemma {:induction false} DominanceScores(lists: seq<seq<Key>>, x: Key, y: Key, k: real)
    requires k > -1.0 && AllDistinct(lists) && forall l | l in lists :: Above(l, x, y)
    ensures Score(lists, x, k) >= Score(lists, y, k)
    ensures x in KeysOf(lists) ==> Score(lists, x, k) > Score(lists, y, k)
  {
    if lists != [] {
      var n := |lists| - 1;
      assert lists == lists[..n] + [lists[n]];
      assert lists[n] in lists && forall l | l in lists[..n] :: l in lists;
      DominanceScores(lists[..n], x, y, k);
      AboveScores(lists[n], x, y, k);
      KeysOfSnoc(lists[..n], lists[n]);
    }
  }

  lemma HigherScoreComesFirst(results: seq<RrfResult>, lists: seq<seq<Key>>, k: real, a: nat, b: nat)
    requires k > -1.0 && IsFusion(results, lists, k) && a < |results| && b < |results|
    requires Score(lists, results[a].key, k) > Score(lists, results[b].key, k)
    ensures a < b
  {
  }

  /** In the merged list such a key comes first. */
  lemma DominantKeyComesFirst(results: seq<RrfResult>, lists: seq<seq<Key>>, k: real, a: nat, b: nat)
    requires k > -1.0 && IsFusion(results, lists, k) && a < |results| && b < |results| && AllDistinct(lists)
    requires forall l | l in lists :: Above(l, results[a].key, results[b].key)
    ensures a < b
  {
    DominanceScores(lists, results[a].key, results[b].key, k);
    HigherScoreComesFirst(results, lists, k, a, b);
  }

  /** `x` has rank at most `worst` in this list. */
  predicate RankWithin(list: seq<Key>, x: Key, worst: nat) {
    exists i | 0 <= i < |list| :: i <= worst && list[i] == x
  }

  lemma ContributionAtLeast(list: seq<Key>, x: Key, worst: nat, k: real)
    requires k > -1.0 && NoDuplicates(list) && RankWithin(list, x, worst)
    ensures ListScore(list, x, k) >= Contribution(k, worst)
  {
    var i :| 0 <= i < |list| && i <= worst && list[i] == x;
    ListScoreAtRank(list, i, k);
    if i < worst {
      ContributionDecreases(k, i, worst);
    }
  }

  lemma ContributionAtMost(list: seq<Key>, y: Key, k: real)
    requires k > -1.0 && NoDuplicates(list)
    ensures ListScore(list, y, k) <= if y in list then Contribution(k, 0) else 0.0
  {
    if y in list {
      var i :| 0 <= i < |list| && list[i] == y;
      ListScoreAtRank(list, i, k);
      if i > 0 {
        ContributionDecreases(k, 0, i);
      }
    } else {
      AbsentFromList(list, y, k);
    }
  }

  /** Number of lists that contain a key. */
  function Presence(lists: seq<seq<Key>>, y: Key): (p: nat)
    ensures p <= |lists|
    ensures (exists l | l in lists :: y !in l) ==> p < |lists|
  {
    if lists == [] then 0
    else
      var n := |lists| - 1;
      assert lists == lists[..n] + [lists[n]];
      Presence(lists[..n], y) + if y in lists[n] then 1 else 0
  }

  /** `n` times `c`, as a sum. */
  function Times(n: nat, c: real): real {
    if n == 0 then 0.0 else Times(n - 1, c) + c
  }

  lemma {:induction false} TimesIsProduct(n: nat, c: real)
    ensures Times(n, c) == n as real * c
  {
    if n > 0 {
      TimesIsProduct(n - 1, c);
      var p := (n - 1) as real;
      assert n as real == p + 1.0;
      assert (p + 1.0) * c == p * c + c;
    }
  }

  lemma {:induction false} TimesMonotone(p: nat, q: nat, c: real)
    requires p <= q && c >= 0.0
    ensures Times(p, c) <= Times(q, c)
  {
    if p < q {
      TimesMonotone(p, q - 1, c);
    }
  }

  lemma {:induction false} ScoreAtLeast(lists: seq<seq<Key>>, x: Key, worst: nat, k: real)
    requires k > -1.0 && AllDistinct(lists) && forall l | l in lists :: RankWithin(l, x, worst)
    ensures Score(lists, x, k) >= Times(|lists|, Contribution(k, worst))
  {
    if lists != [] {
      var n := |lists| - 1;
      assert lists == lists[..n] + [lists[n]];
      assert lists[n] in lists && forall l | l in lists[..n] :: l in lists;
      ScoreAtLeast(lists[..n], x, worst, k);
      ContributionAtLeast(lists[n], x, worst, k);
    }
  }

  lemma {:induction false} ScoreAtMost(lists: seq<seq<Key>>, y: Key, k: real)
    requires k > -1.0 && AllDistinct(lists)
    ensures Score(lists, y, k) <= Times(Presence(lists, y), Contribution(k, 0))
  {
    if lists != [] {
      var n := |lists| - 1;
      assert lists == lists[..n] + [lists[n]];
      assert lists[n] in lists && forall l | l in lists[..n] :: l in lists;
      hide Contribution, ListScore, NoDuplicates;
      ScoreAtMost(lists[..n], y, k);
      ContributionAtMost(lists[n], y, k);
    }
  }

  /** m/(k+R+1) exceeds (m-1)/(k+1) exactly when (m-1)R stays below k+1. */
  lemma BoundArithmetic(m: nat, worst: nat, k: real)
    requires k > -1.0 && m >= 1
    ensures Times(m, Contribution(k, worst)) > Times(m - 1, Contribution(k, 0))
       <==> (m - 1) as real * worst as real < k + 1.0
  {
    hide Times;
    var d0, r := k + 1.0, worst as real;
    var c, c0 := Contribution(k, worst), Contribution(k, 0);
    assert c * (d0 + r) == 1.0 && c0 * d0 == 1.0;
    TimesIsProduct(m, c);
    TimesIsProduct(m - 1, c0);
    var p := (m - 1) as real;
    assert m as real == p + 1.0;
    RealBound(p, r, d0, c, c0);
  }

  lemma RealBound(p: real, r: real, d0: real, c: real, c0: real)
    requires d0 > 0.0 && r >= 0.0 && c * (d0 + r) == 1.0 && c0 * d0 == 1.0
    ensures (p + 1.0) * c > p * c0 <==> p * r < d0
  {
    var d := d0 + r;
    Positive(d, d0);
    Scaled((p + 1.0) * c, p * c0, d * d0);
    Product(p + 1.0, c, d, d0);
    Product(p, c0, d0, d);
    assert d * d0 == d0 * d;
    assert (p + 1.0) * d0 - p * d == d0 - p * r by { Expand(p, d0, r); }
  }

  lemma Positive(a: real, b: real)
    requires a > 0.0 && b > 0.0
    ensures a * b > 0.0
  {
  }

  lemma Expand(p: real, d: real, r: real)
    ensures (p + 1.0) * d - p * (d + r) == d - p * r
  {
  }

  lemma Product(p: real, c: real, d: real, e: real)
    requires c * d == 1.0
    ensures (p * c) * (d * e) == p * e
  {
    assert (p * c) * (d * e) == p * ((c * d) * e);
  }

  lemma Scaled(a: real, b: real, f: real)
    requires f > 0.0
    ensures a > b <==> a * f > b * f
  {
    assert (a - b) * f == a * f - b * f;
    if a > b {
      assert (a - b) * f > 0.0;
    } else {
      assert (b - a) * f >= 0.0;
    }
  }

  /** `x` is among the first `worst + 1` of every list and `y` is missing from one. */
  predicate Contest(lists: seq<seq<Key>>, x: Key, y: Key, m: nat, worst: nat) {
    && |lists| == m && AllDistinct(lists)
    && (forall l | l in lists :: RankWithin(l, x, worst))
    && (exists l | l in lists :: y !in l)
  }

  lemma ContestWon(lists: seq<seq<Key>>, x: Key, y: Key, m: nat, worst: nat, k: real)
    requires k > -1.0 && Contest(lists, x, y, m, worst) && (m - 1) as real * worst as real < k + 1.0
    ensures Score(lists, x, k) > Score(lists, y, k)
  {
    ScoreAtLeast(lists, x, worst, k);
    ScoreAtMost(lists, y, k);
    var p := Presence(lists, y);
    hide Contribution, Score, ListScore;
    BoundArithmetic(m, worst, k);
    TimesMonotone(p, m - 1, Contribution(k, 0));
  }

  // ---- the bound is tight ----

  /** Distinct filler keys, all different from the one-letter contestants. */
  function Filler(i: nat): Key {
    seq(i + 2, _ => 'f')
  }

  function Fillers(n: nat): (list: seq<Key>)
    ensures |list| == n
  {
    seq(n, i requires 0 <= i < n => Filler(i))
  }

  const X: Key := "x"
  const Y: Key := "y"

  /** `y` first, then fillers, and `x` at rank `worst`. */
  function WithBoth(worst: nat): (list: seq<Key>)
    requires worst >= 1
    ensures |list| == worst + 1 && list[worst] == X && list[0] == Y
  {
    [Y] + Fillers(worst - 1) + [X]
  }

  function WithoutY(worst: nat): (list: seq<Key>)
    ensures |list| == worst + 1 && list[worst] == X && Y !in list
  {
    Fillers(worst) + [X]
  }

  lemma WitnessLists(worst: nat)
    requires worst >= 1
    ensures NoDuplicates(WithBoth(worst)) && NoDuplicates(WithoutY(worst))
  {
    var a, b := WithBoth(worst), WithoutY(worst);
    forall i, j | 0 <= i < j < |a| ensures a[i] != a[j] {
      if i > 0 && j < worst { assert |a[i]| == i - 1 + 2 && |a[j]| == j - 1 + 2; }
    }
    forall i, j | 0 <= i < j < |b| ensures b[i] != b[j] {
      if j < worst { assert |b[i]| == i + 2 && |b[j]| == j + 2; }
    }
  }

  /** `m - 1` lists with both contestants and one without `y`. */
  function Tie(m: nat, worst: nat): seq<seq<Key>>
    requires m >= 1 && worst >= 1
  {
    seq(m - 1, _ => WithBoth(worst)) + [WithoutY(worst)]
  }

  lemma {:induction false} RepeatedScore(n: nat, list: seq<Key>, x: Key, k: real)
    requires k > -1.0
    ensures Score(seq(n, _ => list), x, k) == Times(n, ListScore(list, x, k))
  {
    if n > 0 {
      var lists := seq(n, _ => list);
      assert lists[..n - 1] == seq(n - 1, _ => list);
      RepeatedScore(n - 1, list, x, k);
    }
  }

  lemma TieIsContest(m: nat, worst: nat)
    requires m >= 1 && worst >= 1
    ensures Contest(Tie(m, worst), X, Y, m, worst)
  {
    var both, without := WithBoth(worst), WithoutY(worst);
    var lists := Tie(m, worst);
    WitnessLists(worst);
    assert both[worst] == X && without[worst] == X && RankWithin(both, X, worst) && RankWithin(without, X, worst);
    assert forall l | l in lists :: l == both || l == without;
    assert lists[m - 1] == without && without in lists;
  }

  lemma TieScores(m: nat, worst: nat, k: real)
    requires k > -1.0 && m >= 1 && worst >= 1
    ensures Score(Tie(m, worst), X, k) == Times(m, Contribution(k, worst))
    ensures Score(Tie(m, worst), Y, k) == Times(m - 1, Contribution(k, 0))
  {
    var both, without := WithBoth(worst), WithoutY(worst);
    WitnessLists(worst);
    ListScoreAtRank(both, worst, k);
    ListScoreAtRank(both, 0, k);
    ListScoreAtRank(without, worst, k);
    AbsentFromList(without, Y, k);
    hide WithBoth, WithoutY, Score, ListScore, Contribution;
    RepeatedScore(m - 1, both, X, k);
    RepeatedScore(m - 1, both, Y, k);
    ScoreSnoc(seq(m - 1, _ => both), without, X, k);
    ScoreSnoc(seq(m - 1, _ => both), without, Y, k);
  }

  lemma ContestLost(m: nat, worst: nat, k: real)
    requires k > -1.0 && m >= 1 && worst >= 1 && (m - 1) as real * worst as real >= k + 1.0
    ensures Contest(Tie(m, worst), X, Y, m, worst) && Score(Tie(m, worst), X, k) <= Score(Tie(m, worst), Y, k)
  {
    hide *;
    TieIsContest(m, worst);
    TieScores(m, worst, k);
    BoundArithmetic(m, worst, k);
  }

  /** A key ranked within `worst` in all `m` lists beats every key missing from one of them. */
  ghost predicate AlwaysBeats(m: nat, worst: nat, k: real)
    requires k > -1.0
  {
    forall lists, x, y | Contest(lists, x, y, m, worst) :: Score(lists, x, k) > Score(lists, y, k)
  }

  /** The consensus bound, exactly: it holds if and only if (m-1)R < k+1. */
  lemma ConsensusBound(m: nat, worst: nat, k: real)
    requires k > -1.0 && m >= 1
    ensures AlwaysBeats(m, worst, k) <==> (m - 1) as real * worst as real < k + 1.0
  {
    if (m - 1) as real * worst as real < k + 1.0 {
      forall lists, x, y | Contest(lists, x, y, m, worst) ensures Score(lists, x, k) > Score(lists, y, k) {
        ContestWon(lists, x, y, m, worst, k);
      }
    } else {
      assert worst != 0;
      ContestLost(m, worst, k);
    }
  }

  /** Two lists: a key within rank k in both comes before every key found in only one. */
  lemma FoundInBothComesFirst(results: seq<RrfResult>, vecRanked: seq<Key>, ftsRanked: seq<Key>, k: real, worst: nat,
      a: nat, b: nat)
    requires k > -1.0 && worst as real <= k && IsFusion(results, [vecRanked, ftsRanked], k)
    requires a < |results| && b < |results| && NoDuplicates(vecRanked) && NoDuplicates(ftsRanked)
    requires RankWithin(vecRanked, results[a].key, worst) && RankWithin(ftsRanked, results[a].key, worst)
    requires results[b].key !in vecRanked || results[b].key !in ftsRanked
    ensures a < b
  {
    var lists := [vecRanked, ftsRanked];
    assert lists[0] == vecRanked && lists[1] == ftsRanked && vecRanked in lists && ftsRanked in lists;
    assert Contest(lists, results[a].key, results[b].key, 2, worst);
    ContestWon(lists, results[a].key, results[b].key, 2, worst, k);
    HigherScoreComesFirst(results, lists, k, a, b);
  }
}
