/**
 Query decomposition: which sub-queries are asked, and how their results are merged.
 */
module Qmd {
  import opened Wrappers
  import opened MemoryTypes
  import opened Fusion

  const MAX_SUB_QUERIES: nat := 5

  // ---- sub-queries ----

  /** First occurrences, in order. */
  function Distinct(queries: seq<string>): seq<string> {
    if queries == [] then []
    else
      var n := |queries| - 1;
      var r := Distinct(queries[..n]);
      if queries[n] in queries[..n] then r else r + [queries[n]]
  }

  function Cap(queries: seq<string>): seq<string> {
    if |queries| <= MAX_SUB_QUERIES then queries else queries[..MAX_SUB_QUERIES]
  }

  /** The queries asked for a decoded answer of the model. */
  function SubQueries(answer: seq<string>, original: string): seq<string> {
    Cap(Distinct(if original in answer then answer else [original] + answer))
  }

  method ParseSubQueries(answer: seq<string>, original: string) returns (queries: seq<string>)
    ensures queries == SubQueries(answer, original)
  {
    var all := answer;
    if original !in all {
      all := [original] + all;
    }
    var seen: set<string> := {};
    queries := [];
    for i := 0 to |all|
      invariant forall q :: q in seen <==> q in all[..i]
      invariant queries == Distinct(all[..i])
    {
      assert all[..i + 1][..i] == all[..i];
      if all[i] !in seen {
        seen := seen + {all[i]};
        queries := queries + [all[i]];
      }
    }
    assert all[..|all|] == all;
    if |queries| > MAX_SUB_QUERIES {
      queries := queries[..MAX_SUB_QUERIES];
    }
  }

  lemma {:induction false} DistinctMembers(queries: seq<string>)
    ensures forall q :: q in Distinct(queries) <==> q in queries
  {
    if queries != [] {
      var n := |queries| - 1;
      assert queries == queries[..n] + [queries[n]];
      DistinctMembers(queries[..n]);
    }
  }

  /** The distinct queries of a prefix come first. */
  lemma {:induction false} DistinctPrefix(queries: seq<string>, k: nat)
    requires k <= |queries|
    ensures Distinct(queries[..k]) <= Distinct(queries)
    decreases |queries|
  {
    if k == |queries| {
      assert queries[..k] == queries;
    } else {
      var n := |queries| - 1;
      assert queries[..n][..k] == queries[..k];
      DistinctPrefix(queries[..n], k);
    }
  }

  lemma {:induction false} DistinctHasNoRepeats(queries: seq<string>)
    ensures NoDuplicates(Distinct(queries))
  {
    if queries != [] {
      DistinctHasNoRepeats(queries[..|queries| - 1]);
      DistinctMembers(queries[..|queries| - 1]);
    }
  }

  /** A query first met at `k` stands behind the distinct queries before it. */
  lemma FirstMet(queries: seq<string>, k: nat)
    requires k < |queries| && queries[k] !in queries[..k]
    ensures var d := |Distinct(queries[..k])|;
            d < |Distinct(queries)| && Distinct(queries)[d] == queries[k]
  {
    assert queries[..k + 1][..k] == queries[..k];
    DistinctPrefix(queries, k + 1);
    assert Distinct(queries[..k + 1]) == Distinct(queries[..k]) + [queries[k]];
  }

  /**
   The original query is asked exactly if the model's answer omits it, or lists fewer than five
   different queries in front of it; `k` is its first position in the answer.
   */
  lemma OriginalKeptExactly(answer: seq<string>, original: string, k: nat)
    requires original in answer ==> k < |answer| && answer[k] == original && original !in answer[..k]
    ensures original in SubQueries(answer, original) <==>
              original !in answer || |Distinct(answer[..k])| < 5
  {
    if original in answer {
      FirstMet(answer, k);
      DistinctHasNoRepeats(answer);
      var all, d := Distinct(answer), |Distinct(answer[..k])|;
      if d < MAX_SUB_QUERIES {
        assert Cap(all)[d] == original;
      }
    } else {
      var all := [original] + answer;
      assert all[..0] == [];
      FirstMet(all, 0);
      assert Cap(Distinct(all))[0] == original;
    }
  }

  /** It is asked first exactly if the model's answer omits it or starts with it. */
  lemma OriginalFirstExactly(answer: seq<string>, original: string)
    ensures SubQueries(answer, original) != []
    ensures SubQueries(answer, original)[0] == original <==> original !in answer || answer[0] == original
  {
    var all := if original in answer then answer else [original] + answer;
    assert all[..0] == [];
    FirstMet(all, 0);
    assert Cap(Distinct(all))[0] == all[0];
  }

  // ---- merging the results ----

  function KeysIn(entries: seq<MemoryEntry>): (keys: seq<Key>)
    ensures |keys| == |entries| && forall i | 0 <= i < |keys| :: keys[i] == entries[i].key
  {
    seq(|entries|, i requires 0 <= i < |entries| => entries[i].key)
  }

  function KeyLists(results: seq<seq<MemoryEntry>>): (lists: seq<seq<Key>>)
    ensures |lists| == |results| && forall i | 0 <= i < |lists| :: lists[i] == KeysIn(results[i])
  {
    seq(|results|, i requires 0 <= i < |results| => KeysIn(results[i]))
  }

  /** All entries found, list by list. */
  function Flat(results: seq<seq<MemoryEntry>>): seq<MemoryEntry> {
    if results == [] then [] else Flat(results[..|results| - 1]) + results[|results| - 1]
  }

  /** Entries by key; a later one replaces an earlier one. */
  function ByKey(entries: seq<MemoryEntry>): (byKey: map<Key, MemoryEntry>)
    ensures forall k :: k in byKey <==> exists e | e in entries :: e.key == k
    ensures forall k | k in byKey :: byKey[k].key == k && byKey[k] in entries
  {
    if entries == [] then map[]
    else
      var n := |entries| - 1;
      assert entries == entries[..n] + [entries[n]];
      ByKey(entries[..n])[entries[n].key := entries[n]]
  }

  lemma ByKeySnoc(entries: seq<MemoryEntry>, e: MemoryEntry)
    ensures ByKey(entries + [e]) == ByKey(entries)[e.key := e]
  {
    assert (entries + [e])[..|entries|] == entries;
  }

  lemma FlatSnoc(results: seq<seq<MemoryEntry>>, i: nat)
    requires i < |results|
    ensures Flat(results[..i + 1]) == Flat(results[..i]) + results[i]
  {
    assert results[..i + 1][..i] == results[..i];
  }

  lemma OneFurther<T>(before: seq<T>, more: seq<T>, j: nat)
    requires j < |more|
    ensures before + more[..j + 1] == (before + more[..j]) + [more[j]]
  {
  }

  method Collect(results: seq<seq<MemoryEntry>>) returns (entryMap: map<Key, MemoryEntry>)
    ensures entryMap == ByKey(Flat(results))
  {
    entryMap := map[];
    assert results[..0] == [] && Flat([]) == [] && ByKey([]) == map[];
    hide Flat, ByKey;
    for i := 0 to |results|
      invariant entryMap == ByKey(Flat(results[..i]))
    {
      ghost var before := Flat(results[..i]);
      assert before + results[i][..0] == before;
      for j := 0 to |results[i]|
        invariant entryMap == ByKey(before + results[i][..j])
      {
        OneFurther(before, results[i], j);
        ByKeySnoc(before + results[i][..j], results[i][j]);
        entryMap := entryMap[results[i][j].key := results[i][j]];
      }
      FlatSnoc(results, i);
      assert results[i][..|results[i]|] == results[i];
    }
    assert results[..|results|] == results;
  }

  /** Looks the keys up in order, taking each entry out of the map: each key counts once. */
  method TakeEntries(keys: seq<Key>, collected: map<Key, MemoryEntry>) returns (ordered: seq<MemoryEntry>)
    requires forall k | k in collected :: collected[k].key == k
    requires forall k | k in keys :: k in collected
    ensures KeysIn(ordered) == Distinct(keys) && forall e | e in ordered :: e.key in collected && collected[e.key] == e
  {
    var entryMap := collected;
    ordered := [];
    for i := 0 to |keys|
      invariant KeysIn(ordered) == Distinct(keys[..i])
      invariant forall e | e in ordered :: e.key in collected && collected[e.key] == e
      invariant forall k | k in collected :: (k in entryMap <==> k !in keys[..i])
      invariant forall k | k in entryMap :: k in collected && entryMap[k] == collected[k]
    {
      var k := keys[i];
      assert keys[..i + 1][..i] == keys[..i] && keys[..i + 1] == keys[..i] + [k];
      if k in entryMap {
        ordered := ordered + [entryMap[k]];
        entryMap := entryMap - {k};
      }
    }
    assert keys[..|keys|] == keys;
  }

  /** `merged` are the keys of a fusion of the result lists. */
  ghost predicate FusedKeys(results: seq<seq<MemoryEntry>>, merged: seq<Key>, fused: seq<RrfResult>) {
    && IsFusion(fused, KeyLists(results), 60.0) && |merged| == |fused|
    && forall i | 0 <= i < |merged| :: merged[i] == fused[i].key
  }

  /** The first `limit` keys, or all. */
  function Top(keys: seq<Key>, limit: nat): (top: seq<Key>)
    ensures top <= keys && |top| <= limit && (|keys| <= limit ==> top == keys) && (|keys| > limit ==> |top| == limit)
  {
    if limit < |keys| then keys[..limit] else keys
  }

  /** The best `limit` keys, each once, with the entry that was found last for it. */
  method MergeResults(results: seq<seq<MemoryEntry>>, limit: nat) returns (ordered: seq<MemoryEntry>)
    requires results != []
    ensures |results| == 1 ==> KeysIn(ordered) == Distinct(Top(KeysIn(results[0]), limit))
    ensures |results| > 1 ==> exists merged, fused :: FusedKeys(results, merged, fused) && KeysIn(ordered) == Top(merged, limit)
    ensures forall e | e in ordered :: e.key in ByKey(Flat(results)) && ByKey(Flat(results))[e.key] == e
    ensures |ordered| <= limit && NoDuplicates(KeysIn(ordered)) && forall e | e in ordered :: e in Flat(results)
  {
    var merged := MergeMultipleRankedLists(KeyLists(results));
    var topKeys := Top(merged, limit);
    var entryMap := Collect(results);
    DistinctIsShorter(topKeys);
    DistinctHasNoRepeats(topKeys);
    if |results| > 1 {
      ghost var fused: seq<RrfResult> :| IsFusion(fused, KeyLists(results), DEFAULT_K) && |merged| == |fused|
          && forall i | 0 <= i < |merged| :: merged[i] == fused[i].key;
      assert FusedKeys(results, merged, fused);
      forall k | k in topKeys ensures k in entryMap { FusedKeyCollected(results, merged, fused, k); }
      FusedKeysDiffer(results, merged, fused);
      DistinctOfDistinct(topKeys);
    } else {
      forall k | k in topKeys ensures k in entryMap { SingleKeyCollected(results, k); }
    }
    hide IsFusion, ByKey, Flat, Distinct, NoDuplicates;
    ordered := TakeEntries(topKeys, entryMap);
    assert |ordered| == |KeysIn(ordered)|;
  }

  lemma {:induction false} DistinctIsShorter(keys: seq<Key>)
    ensures |Distinct(keys)| <= |keys|
  {
    if keys != [] {
      DistinctIsShorter(keys[..|keys| - 1]);
    }
  }

  lemma {:induction false} DistinctOfDistinct(keys: seq<Key>)
    requires NoDuplicates(keys)
    ensures Distinct(keys) == keys
  {
    if keys != [] {
      var n := |keys| - 1;
      DistinctOfDistinct(keys[..n]);
      assert keys == keys[..n] + [keys[n]];
    }
  }

  lemma {:induction false} FoundIsCollected(results: seq<seq<MemoryEntry>>, i: nat, j: nat)
    requires i < |results| && j < |results[i]|
    ensures results[i][j] in Flat(results)
    decreases |results|
  {
    var n := |results| - 1;
    if i < n {
      FoundIsCollected(results[..n], i, j);
    }
  }

  lemma SingleKeyCollected(results: seq<seq<MemoryEntry>>, k: Key)
    requires |results| == 1 && k in KeysIn(results[0])
    ensures k in ByKey(Flat(results))
  {
    var j :| 0 <= j < |results[0]| && results[0][j].key == k;
    FoundIsCollected(results, 0, j);
  }

  lemma FusedKeysDiffer(results: seq<seq<MemoryEntry>>, merged: seq<Key>, fused: seq<RrfResult>)
    requires FusedKeys(results, merged, fused)
    ensures NoDuplicates(merged)
  {
  }

  /** Every merged key has a collected entry. */
  lemma FusedKeyCollected(results: seq<seq<MemoryEntry>>, merged: seq<Key>, fused: seq<RrfResult>, k: Key)
    requires FusedKeys(results, merged, fused) && k in merged
    ensures k in ByKey(Flat(results))
  {
    var n :| 0 <= n < |merged| && merged[n] == k;
    assert fused[n].key == k && k in KeysOf(KeyLists(results));
    var i, j :| 0 <= i < |KeyLists(results)| && 0 <= j < |KeyLists(results)[i]| && KeyLists(results)[i][j] == k;
    assert results[i][j].key == k;
    FoundIsCollected(results, i, j);
  }
}
