/**
 Merging of redundant memory entries.  Clusters and merged texts come from a model and are
 arbitrary; stores and deletions may fail.
 */
module Consolidation {
  import opened Wrappers
  import opened MemoryTypes

  const MIN_ENTRIES_FOR_CONSOLIDATION: nat := 5
  const DEFAULT_BATCH_SIZE: nat := 50

  type Store = map<string, MemoryEntry>

  /** Every answer from outside, as an arbitrary function of the number of the operation. */
  datatype Outside = Outside(
    listFails: nat -> bool,
    clusters: nat -> Option<seq<seq<string>>>,
    merged: nat -> Option<string>,
    storeFails: nat -> bool,
    forgetFails: nat -> bool)

  /** Entries are filed under their own key. */
  predicate WellKeyed(m: Store) {
    forall k | k in m :: m[k].key == k
  }

  // ---- the effect of one cluster ----

  /** Deletes `keys` one after the other; the i-th deletion is operation `clock + i`. */
  function ForgetAll(m: Store, keys: seq<string>, fails: nat -> bool, clock: nat): Store {
    if keys == [] then m
    else
      var n := |keys| - 1;
      var before := ForgetAll(m, keys[..n], fails, clock);
      if fails(clock + n) then before else before - {keys[n]}
  }

  /** How many of these deletions report success. */
  function Deleted(m: Store, keys: seq<string>, fails: nat -> bool, clock: nat): nat {
    if keys == [] then 0
    else
      var n := |keys| - 1;
      Deleted(m, keys[..n], fails, clock)
      + (if !fails(clock + n) && keys[n] in ForgetAll(m, keys[..n], fails, clock) then 1 else 0)
  }

  function MergedEntry(first: MemoryEntry, content: string): MemoryEntry {
    MemoryEntry(first.key, content, first.category, None, None)
  }

  lemma {:induction false} ForgetAllKeeps(m: Store, keys: seq<string>, fails: nat -> bool, clock: nat)
    ensures var r := ForgetAll(m, keys, fails, clock);
            && (forall k | k in r :: k in m && r[k] == m[k])
            && (forall k | k in m && k !in keys :: k in r)
  {
    if keys != [] {
      var n := |keys| - 1;
      ForgetAllKeeps(m, keys[..n], fails, clock);
      OneMoreForgotten(m, keys, fails, clock);
      hide ForgetAll, Deleted;
      assert keys == keys[..n] + [keys[n]];
    }
  }

  lemma {:induction false} ForgetAllCounts(m: Store, keys: seq<string>, fails: nat -> bool, clock: nat)
    ensures |ForgetAll(m, keys, fails, clock)| + Deleted(m, keys, fails, clock) == |m|
  {
    if keys != [] {
      var n := |keys| - 1;
      ForgetAllCounts(m, keys[..n], fails, clock);
      RemoveOne(ForgetAll(m, keys[..n], fails, clock), keys[n]);
      OneMoreForgotten(m, keys, fails, clock);
      hide ForgetAll, Deleted;
    }
  }

  /** Entries the deletions keep are unchanged, and the count drops by the successful ones. */
  lemma ForgetAllEffect(m: Store, keys: seq<string>, fails: nat -> bool, clock: nat)
    ensures var r := ForgetAll(m, keys, fails, clock);
            && (forall k | k in r :: k in m && r[k] == m[k])
            && (forall k | k in m && k !in keys :: k in r)
            && |r| + Deleted(m, keys, fails, clock) == |m|
  {
    hide ForgetAll, Deleted;
    ForgetAllKeeps(m, keys, fails, clock);
    ForgetAllCounts(m, keys, fails, clock);
  }

  lemma OneMoreForgotten(m: Store, keys: seq<string>, fails: nat -> bool, clock: nat)
    requires keys != []
    ensures var n := |keys| - 1;
            var before := ForgetAll(m, keys[..n], fails, clock);
            && ForgetAll(m, keys, fails, clock) == (if fails(clock + n) then before else before - {keys[n]})
            && Deleted(m, keys, fails, clock) == Deleted(m, keys[..n], fails, clock)
                 + (if !fails(clock + n) && keys[n] in before then 1 else 0)
  {
  }

  lemma RemoveOne(m: Store, k: string)
    ensures |m - {k}| == |m| - (if k in m then 1 else 0)
  {
    if k in m {
      assert (m - {k}).Keys == m.Keys - {k};
      assert |(m - {k}).Keys| == |m.Keys| - 1;
    } else {
      assert m - {k} == m;
    }
  }

  lemma {:induction false} ForgottenIsGone(m: Store, keys: seq<string>, fails: nat -> bool, clock: nat, k: string)
    requires k in keys && forall c | clock <= c < clock + |keys| :: !fails(c)
    ensures k !in ForgetAll(m, keys, fails, clock)
  {
    var n := |keys| - 1;
    if k in keys[..n] {
      ForgottenIsGone(m, keys[..n], fails, clock, k);
    } else {
      assert keys == keys[..n] + [keys[n]];
    }
  }

  /**
   When no deletion fails, the merged entry survives its own cluster exactly if its key is not
   named a second time: a repeated first key loses the entry and the merged text with it.
   */
  lemma MergedEntrySurvivesExactly(m: Store, first: string, entry: MemoryEntry, rest: seq<string>,
      fails: nat -> bool, clock: nat)
    requires forall c | clock <= c < clock + |rest| :: !fails(c)
    ensures var r := ForgetAll(m[first := entry], rest, fails, clock);
            && (first in r <==> first !in rest)
            && (first in r ==> r[first] == entry)
  {
    var m1 := m[first := entry];
    ForgetAllEffect(m1, rest, fails, clock);
    if first in rest {
      ForgottenIsGone(m1, rest, fails, clock, first);
    }
  }

  // ---- what consolidation leaves alone ----

  /** No key is new, categories stay, and entries of other categories are untouched. */
  predicate Frame(before: Store, after: Store, category: Category) {
    && after.Keys <= before.Keys
    && (forall k | k in after :: after[k].category == before[k].category && after[k].key == k)
    && (forall k | k in before && before[k].category != category :: k in after && after[k] == before[k])
  }

  predicate Names(items: seq<MemoryEntry>, k: string) {
    exists e | e in items :: e.key == k
  }

  /** Keys outside `items` are untouched. */
  ghost predicate Outsiders(before: Store, after: Store, items: seq<MemoryEntry>) {
    forall k | !Names(items, k) :: (k in before <==> k in after) && (k in before ==> after[k] == before[k])
  }

  /** `items` is a snapshot of entries of one category. */
  predicate Snapshot(base: Store, items: seq<MemoryEntry>, category: Category) {
    && (forall e | e in items :: e.key in base && base[e.key] == e && e.category == category)
    && (forall i, j | 0 <= i < j < |items| :: items[i].key != items[j].key)
  }

  // ---- clusters ----

  function FindItem(items: seq<MemoryEntry>, k: string): (r: Option<MemoryEntry>)
    ensures r.Some? ==> r.value in items && r.value.key == k
    ensures r.None? ==> !Names(items, k)
  {
    if items == [] then None
    else if items[0].key == k then Some(items[0])
    else FindItem(items[1..], k)
  }

  /** The entries of the batch that a cluster names, in the cluster's order. */
  function Resolve(items: seq<MemoryEntry>, keys: seq<string>): (r: seq<MemoryEntry>)
    ensures forall e | e in r :: e in items && e.key in keys
  {
    if keys == [] then []
    else
      (match FindItem(items, keys[0]) case Some(e) => [e] case None => []) + Resolve(items, keys[1..])
  }

  /** A cluster's keys are looked up one by one; unknown ones are skipped. */
  lemma ResolveOne(items: seq<MemoryEntry>, k: string)
    ensures Names(items, k) ==> |Resolve(items, [k])| == 1 && Resolve(items, [k])[0] in items && Resolve(items, [k])[0].key == k
    ensures !Names(items, k) ==> Resolve(items, [k]) == []
  {
    assert [k][1..] == [] && Resolve(items, []) == [];
  }

  lemma {:induction false} ResolveConcat(items: seq<MemoryEntry>, a: seq<string>, b: seq<string>)
    ensures Resolve(items, a + b) == Resolve(items, a) + Resolve(items, b)
  {
    if a == [] {
      assert a + b == b;
    } else {
      assert (a + b)[0] == a[0] && (a + b)[1..] == a[1..] + b;
      ResolveConcat(items, a[1..], b);
    }
  }

  function KeysOf(entries: seq<MemoryEntry>): (keys: seq<string>)
    ensures |keys| == |entries|
    ensures forall i | 0 <= i < |keys| :: keys[i] == entries[i].key
  {
    seq(|entries|, i requires 0 <= i < |entries| => entries[i].key)
  }

  predicate NoRepeats(keys: seq<string>) {
    forall i, j | 0 <= i < j < |keys| :: keys[i] != keys[j]
  }

  lemma {:induction false} ResolveKeepsDistinct(items: seq<MemoryEntry>, keys: seq<string>)
    requires NoRepeats(keys)
    ensures NoRepeats(KeysOf(Resolve(items, keys)))
  {
    if keys != [] {
      assert NoRepeats(keys[1..]) by { assert forall i | 0 <= i < |keys[1..]| :: keys[1..][i] == keys[i + 1]; }
      ResolveKeepsDistinct(items, keys[1..]);
      var rest := Resolve(items, keys[1..]);
      match FindItem(items, keys[0])
      case Some(e) =>
        forall d | d in rest ensures d.key != e.key {
          NotAgain(keys, d.key);
        }
        assert Resolve(items, keys) == [e] + rest;
        hide Resolve;
        OneMoreKey(e, rest);
      case None =>
    }
  }

  lemma NotAgain(keys: seq<string>, k: string)
    requires NoRepeats(keys) && keys != [] && k in keys[1..]
    ensures k != keys[0]
  {
    var i :| 0 <= i < |keys[1..]| && keys[1..][i] == k;
    assert keys[i + 1] == k;
  }

  lemma OneMoreKey(e: MemoryEntry, rest: seq<MemoryEntry>)
    requires NoRepeats(KeysOf(rest)) && forall d | d in rest :: d.key != e.key
    ensures NoRepeats(KeysOf([e] + rest))
  {
    var keys, all := KeysOf(rest), KeysOf([e] + rest);
    forall i, j | 0 <= i < j < |all| ensures all[i] != all[j] {
      assert all[j] == keys[j - 1] && rest[j - 1] in rest;
      if i > 0 { assert all[i] == keys[i - 1]; }
    }
  }

  /** Clusters are disjoint and none names a key twice. */
  predicate WellFormedClusters(clusters: seq<seq<string>>) {
    && (forall c | c in clusters :: NoRepeats(c))
    && (forall i, j | 0 <= i < j < |clusters| :: forall k | k in clusters[i] :: k !in clusters[j])
  }

  /** A memory and what has happened to it so far. */
  datatype Past = Past(entries: Store, clock: nat, stored: seq<MemoryEntry>, failures: nat, answers: seq<seq<seq<string>>>,
                       removals: nat, recreations: nat)

  /** `later` goes on from `earlier`. */
  predicate GoesOn(earlier: Past, later: Past) {
    && earlier.clock <= later.clock && earlier.stored <= later.stored
    && earlier.failures <= later.failures && earlier.answers <= later.answers
  }

  lemma GoesOnTransitive(a: Past, b: Past, c: Past)
    requires GoesOn(a, b) && GoesOn(b, c)
    ensures GoesOn(a, c)
  {
  }

  lemma PastItself(a: Past)
    ensures GoesOn(a, a)
  {
  }

  lemma GoesOnMeans(a: Past, b: Past)
    requires GoesOn(a, b)
    ensures a.clock <= b.clock && a.stored <= b.stored && a.failures <= b.failures && a.answers <= b.answers
  {
  }

  /** The memory, and the model that is asked about its entries. */
  class MemoryBackend {
    const outside: Outside
    var entries: Store
    var clock: nat
    /** Keys deleted, and writes that met an absent key. */
    ghost var removals: nat
    ghost var recreations: nat
    /** Entries written, failed writes, and cluster answers received, in order. */
    ghost var stored: seq<MemoryEntry>
    ghost var failures: nat
    ghost var answers: seq<seq<seq<string>>>

    constructor (outside: Outside, entries: Store)
      ensures this.outside == outside && this.entries == entries && clock == 0
      ensures stored == [] && failures == 0 && answers == [] && removals == 0 && recreations == 0
    {
      this.outside := outside;
      this.entries := entries;
      clock := 0;
      stored, failures, answers := [], 0, [];
      removals, recreations := 0, 0;
    }

    ghost function PastOf(): Past
      reads this
    {
      Past(entries, clock, stored, failures, answers, removals, recreations)
    }

    /** The entries of one category, in some order. */
    method List(category: Category) returns (r: Result<seq<MemoryEntry>, ()>)
      requires WellKeyed(entries)
      modifies this`clock
      ensures clock == old(clock) + 1 && (r.Err? <==> outside.listFails(old(clock)))
      ensures r.Ok? ==> Snapshot(entries, r.value, category)
      ensures r.Ok? ==> forall k | k in entries && entries[k].category == category :: entries[k] in r.value
    {
      clock := clock + 1;
      if outside.listFails(clock - 1) {
        return Err(());
      }
      var rest := entries.Keys;
      var items: seq<MemoryEntry> := [];
      while rest != {}
        invariant rest <= entries.Keys && clock == old(clock) + 1
        invariant Snapshot(entries, items, category)
        invariant forall e | e in items :: e.key !in rest
        invariant forall k | k in entries && k !in rest && entries[k].category == category :: entries[k] in items
        decreases rest
      {
        var k :| k in rest;
        rest := rest - {k};
        if entries[k].category == category {
          items := items + [entries[k]];
        }
      }
      return Ok(items);
    }

    /** Asks the model for clusters of similar entries. */
    method FindSimilarClusters() returns (answer: Option<seq<seq<string>>>)
      modifies this`clock, this`answers
      ensures clock == old(clock) + 1 && answer == outside.clusters(old(clock))
      ensures answers == if answer.Some? then old(answers) + [answer.value] else old(answers)
    {
      answer := outside.clusters(clock);
      clock := clock + 1;
      if answer.Some? {
        answers := answers + [answer.value];
      }
    }

    /** Asks the model for one text in the place of several. */
    method MergedText() returns (text: Option<string>)
      modifies this`clock
      ensures clock == old(clock) + 1 && text == outside.merged(old(clock))
    {
      text := outside.merged(clock);
      clock := clock + 1;
    }

    /** Writes an entry without session and topic. */
    method StoreEntry(key: string, content: string, category: Category) returns (ok: bool)
      modifies this`entries, this`clock, this`stored, this`failures, this`recreations
      ensures clock == old(clock) + 1 && ok == !outside.storeFails(old(clock))
      ensures var e := MemoryEntry(key, content, category, None, None);
              && entries == (if ok then old(entries)[key := e] else old(entries))
              && stored == (if ok then old(stored) + [e] else old(stored))
      ensures failures == old(failures) + (if ok then 0 else 1)
      ensures recreations == old(recreations) + (if ok && key !in old(entries) then 1 else 0)
    {
      ok := !outside.storeFails(clock);
      clock := clock + 1;
      if ok {
        recreations := recreations + (if key in entries then 0 else 1);
        entries := entries[key := MemoryEntry(key, content, category, None, None)];
        stored := stored + [MemoryEntry(key, content, category, None, None)];
      } else {
        failures := failures + 1;
      }
    }

    /** Deletes a key; true only if it was there and the deletion succeeded. */
    method Forget(key: string) returns (removed: bool)
      modifies this`entries, this`clock, this`removals
      ensures clock == old(clock) + 1 && removals == old(removals) + (if removed then 1 else 0)
      ensures removed == (!outside.forgetFails(old(clock)) && key in old(entries))
      ensures entries == if outside.forgetFails(old(clock)) then old(entries) else old(entries) - {key}
    {
      removed := !outside.forgetFails(clock) && key in entries;
      if !outside.forgetFails(clock) {
        removals := removals + (if removed then 1 else 0);
        entries := entries - {key};
      }
      clock := clock + 1;
    }
  }

  /** Deletes all but the canonical key of a cluster. */
  method ForgetRest(memory: MemoryBackend, keys: seq<string>) returns (deleted: nat)
    modifies memory`entries, memory`clock, memory`removals
    ensures memory.clock == old(memory.clock) + |keys| && memory.removals == old(memory.removals) + deleted
    ensures memory.entries == ForgetAll(old(memory.entries), keys, memory.outside.forgetFails, old(memory.clock))
    ensures deleted == Deleted(old(memory.entries), keys, memory.outside.forgetFails, old(memory.clock))
  {
    deleted := 0;
    for i := 0 to |keys|
      invariant memory.clock == old(memory.clock) + i && memory.removals == old(memory.removals) + deleted
      invariant memory.entries == ForgetAll(old(memory.entries), keys[..i], memory.outside.forgetFails, old(memory.clock))
      invariant deleted == Deleted(old(memory.entries), keys[..i], memory.outside.forgetFails, old(memory.clock))
    {
      assert keys[..i + 1][..i] == keys[..i];
      var removed := memory.Forget(keys[i]);
      if removed {
        deleted := deleted + 1;
      }
    }
    assert keys[..|keys|] == keys;
  }

  /** What one merged cluster does to the store. */
  ghost predicate ClusterEffect(before: Store, after: Store, members: seq<MemoryEntry>, deleted: nat)
    requires members != []
  {
    var first := members[0].key;
    && (forall k | k in after && k != first :: k in before && after[k] == before[k])
    && (forall k | k in before && (forall e | e in members :: e.key != k) :: k in after)
    && (first in after ==> after[first].category == members[0].category && after[first].key == first)
    && (first !in KeysOf(members[1..]) ==> first in after)
    && |after| + deleted == |before| + (if first in before then 0 else 1)
  }

  /** Storing the merged entry and deleting the rest has that effect. */
  lemma MergeEffect(before: Store, members: seq<MemoryEntry>, content: string, fails: nat -> bool, clock: nat)
    requires members != []
    ensures var merged := before[members[0].key := MergedEntry(members[0], content)];
            var rest := KeysOf(members[1..]);
            var after := ForgetAll(merged, rest, fails, clock);
            && ClusterEffect(before, after, members, Deleted(merged, rest, fails, clock))
            && (members[0].key in after ==> after[members[0].key] == MergedEntry(members[0], content))
  {
    var merged := before[members[0].key := MergedEntry(members[0], content)];
    var rest := KeysOf(members[1..]);
    ForgetAllEffect(merged, rest, fails, clock);
    AddOne(before, members[0].key, MergedEntry(members[0], content));
    hide ForgetAll, Deleted;
    assert members[0] in members;
    forall k | k in rest ensures exists e | e in members :: e.key == k {
      var i :| 0 <= i < |rest| && rest[i] == k;
      assert members[i + 1] in members && members[i + 1].key == k;
    }
  }

  /** Stores the merged text under the first key, then deletes the other keys. */
  method MergeCluster(memory: MemoryBackend, members: seq<MemoryEntry>, content: string)
    returns (stored: bool, deleted: nat)
    requires |members| >= 2
    modifies memory`entries, memory`clock, memory`stored, memory`failures, memory`removals, memory`recreations
    ensures stored == !memory.outside.storeFails(old(memory.clock))
    ensures memory.failures == old(memory.failures) + (if stored then 0 else 1)
    ensures !stored ==> memory.entries == old(memory.entries) && deleted == 0 && memory.stored == old(memory.stored)
    ensures !stored ==> memory.clock == old(memory.clock) + 1
    ensures memory.removals == old(memory.removals) + deleted
    ensures memory.recreations == old(memory.recreations) + (if stored && members[0].key !in old(memory.entries) then 1 else 0)
    ensures stored ==>
              var e := MergedEntry(members[0], content);
              var merged, rest := old(memory.entries)[e.key := e], KeysOf(members[1..]);
              && memory.entries == ForgetAll(merged, rest, memory.outside.forgetFails, old(memory.clock) + 1)
              && deleted == Deleted(merged, rest, memory.outside.forgetFails, old(memory.clock) + 1)
              && memory.clock == old(memory.clock) + 1 + |rest| && memory.stored == old(memory.stored) + [e]
              && ClusterEffect(old(memory.entries), memory.entries, members, deleted)
              && (e.key in memory.entries ==> memory.entries[e.key] == e)
  {
    var canonical := members[0];
    stored := memory.StoreEntry(canonical.key, content, canonical.category);
    if !stored {
      return false, 0;
    }
    MergeEffect(old(memory.entries), members, content, memory.outside.forgetFails, memory.clock);
    hide ClusterEffect, ForgetAll, Deleted, KeysOf;
    deleted := ForgetRest(memory, KeysOf(members[1..]));
  }

  lemma AddOne(m: Store, k: string, e: MemoryEntry)
    ensures |m[k := e]| == |m| + (if k in m then 0 else 1)
  {
    assert m[k := e].Keys == m.Keys + {k};
    assert |m[k := e].Keys| == |m.Keys + {k}|;
  }

  // ---- one batch ----

  /** How far a batch has come: the store, the operations so far, and what was stored and deleted. */
  datatype Progress = Progress(store: Store, clock: nat, stored: seq<MemoryEntry>, deleted: nat, failed: bool)

  /** A cluster is merged if it names two entries of the batch and the model answers; a failed store ends the batch. */
  function AfterCluster(o: Outside, p: Progress, items: seq<MemoryEntry>, cluster: seq<string>): Progress {
    var members := Resolve(items, cluster);
    if p.failed || |cluster| < 2 || |members| < 2 then p
    else match o.merged(p.clock)
      case None => p.(clock := p.clock + 1)
      case Some(text) =>
        if o.storeFails(p.clock + 1) then p.(clock := p.clock + 2, failed := true)
        else
          var e := MergedEntry(members[0], text);
          var merged, rest := p.store[e.key := e], KeysOf(members[1..]);
          Progress(ForgetAll(merged, rest, o.forgetFails, p.clock + 2), p.clock + 2 + |rest|, p.stored + [e],
                   p.deleted + Deleted(merged, rest, o.forgetFails, p.clock + 2), false)
  }

  function AfterClusters(o: Outside, p: Progress, items: seq<MemoryEntry>, clusters: seq<seq<string>>): Progress {
    if clusters == [] then p
    else
      var n := |clusters| - 1;
      AfterCluster(o, AfterClusters(o, p, items, clusters[..n]), items, clusters[n])
  }

  lemma OneMoreCluster(o: Outside, p: Progress, items: seq<MemoryEntry>, clusters: seq<seq<string>>, i: nat)
    requires i < |clusters|
    ensures AfterClusters(o, p, items, clusters[..i + 1])
         == AfterCluster(o, AfterClusters(o, p, items, clusters[..i]), items, clusters[i])
  {
    assert clusters[..i + 1][..i] == clusters[..i];
  }

  lemma NoClusters(o: Outside, p: Progress, items: seq<MemoryEntry>, clusters: seq<seq<string>>)
    ensures AfterClusters(o, p, items, clusters[..0]) == p
    ensures AfterClusters(o, p, items, clusters[..|clusters|]) == AfterClusters(o, p, items, clusters)
  {
    hide AfterCluster;
    assert clusters[..|clusters|] == clusters;
  }

  lemma {:induction false} ClockGoesOn(o: Outside, p: Progress, items: seq<MemoryEntry>, clusters: seq<seq<string>>)
    ensures AfterClusters(o, p, items, clusters).clock >= p.clock
  {
    if clusters != [] {
      ClockGoesOn(o, p, items, clusters[..|clusters| - 1]);
    }
  }

  lemma {:induction false} FailureEnds(o: Outside, p: Progress, items: seq<MemoryEntry>, clusters: seq<seq<string>>, i: nat)
    requires i <= |clusters| && AfterClusters(o, p, items, clusters[..i]).failed
    ensures AfterClusters(o, p, items, clusters) == AfterClusters(o, p, items, clusters[..i])
    decreases |clusters| - i
  {
    if i == |clusters| {
      assert clusters[..i] == clusters;
    } else {
      OneMoreCluster(o, p, items, clusters, i);
      FailureEnds(o, p, items, clusters, i + 1);
    }
  }

  // ---- what a batch keeps ----

  /** Merged entries stored from `from` on are still there as they were stored. */
  ghost predicate MergesKept(m: Store, stored: seq<MemoryEntry>, from: nat) {
    forall i | from <= i < |stored| :: stored[i].key in m && m[stored[i].key] == stored[i]
  }

  predicate Covers(clusters: seq<seq<string>>, k: string) {
    exists c | c in clusters :: k in c
  }

  /** They were stored under keys of these clusters. */
  ghost predicate FromClusters(stored: seq<MemoryEntry>, from: nat, clusters: seq<seq<string>>) {
    forall i | from <= i < |stored| :: Covers(clusters, stored[i].key)
  }

  /** They replace entries of the batch, in their category. */
  ghost predicate FromItems(stored: seq<MemoryEntry>, from: nat, items: seq<MemoryEntry>, category: Category) {
    forall i | from <= i < |stored| :: Names(items, stored[i].key) && stored[i].category == category
  }

  /** Merging a cluster keeps what was merged for an earlier one. */
  lemma EarlierMergeKept(before: Store, after: Store, items: seq<MemoryEntry>, clusters: seq<seq<string>>, i: nat,
      deleted: nat, c: seq<string>, x: MemoryEntry)
    requires WellFormedClusters(clusters) && i < |clusters| && c in clusters[..i] && x.key in c
    requires Resolve(items, clusters[i]) != [] && ClusterEffect(before, after, Resolve(items, clusters[i]), deleted)
    requires x.key in before && before[x.key] == x
    ensures x.key in after && after[x.key] == x
  {
    var members := Resolve(items, clusters[i]);
    assert members[0] in members && forall d | d in members :: d.key in clusters[i];
    hide Resolve, WellFormedClusters;
    ClustersDisjoint(clusters, i, c, x.key);
    OtherKeyKept(before, after, members, deleted, x.key, clusters[i]);
  }

  /** Merging one more well-formed cluster keeps the entries merged before, and adds one. */
  lemma ClusterKeepsMerges(before: Store, after: Store, items: seq<MemoryEntry>, clusters: seq<seq<string>>, i: nat,
      deleted: nat, stored: seq<MemoryEntry>, from: nat, e: MemoryEntry)
    requires WellFormedClusters(clusters) && i < |clusters| && from <= |stored|
    requires MergesKept(before, stored, from) && FromClusters(stored, from, clusters[..i])
    requires Resolve(items, clusters[i]) != [] && ClusterEffect(before, after, Resolve(items, clusters[i]), deleted)
    requires e.key == Resolve(items, clusters[i])[0].key && (e.key in after ==> after[e.key] == e)
    ensures MergesKept(after, stored + [e], from) && FromClusters(stored + [e], from, clusters[..i + 1])
  {
    var cluster := clusters[i];
    assert cluster in clusters && clusters[..i + 1] == clusters[..i] + [cluster];
    OwnFirstKept(before, after, items, cluster, deleted);
    assert Resolve(items, cluster)[0] in Resolve(items, cluster);
    assert Covers(clusters[..i + 1], e.key) by { assert cluster in clusters[..i + 1] && e.key in cluster; }
    hide Resolve, NoRepeats, WellFormedClusters, ClusterEffect, Covers;
    forall j | from <= j < |stored|
      ensures stored[j].key in after && after[stored[j].key] == stored[j] && Covers(clusters[..i + 1], stored[j].key)
    {
      MergeStays(before, after, items, clusters, i, deleted, stored[j]);
    }
    LastOfAll(stored, e);
  }

  lemma MergeStays(before: Store, after: Store, items: seq<MemoryEntry>, clusters: seq<seq<string>>, i: nat,
      deleted: nat, x: MemoryEntry)
    requires WellFormedClusters(clusters) && i < |clusters| && Covers(clusters[..i], x.key)
    requires Resolve(items, clusters[i]) != [] && ClusterEffect(before, after, Resolve(items, clusters[i]), deleted)
    requires x.key in before && before[x.key] == x
    ensures x.key in after && after[x.key] == x && Covers(clusters[..i + 1], x.key)
  {
    hide Resolve, WellFormedClusters, ClusterEffect;
    var c :| c in clusters[..i] && x.key in c;
    EarlierMergeKept(before, after, items, clusters, i, deleted, c, x);
    assert clusters[..i + 1] == clusters[..i] + [clusters[i]] && c in clusters[..i + 1];
  }

  lemma LastOfAll<T>(s: seq<T>, x: T)
    ensures forall j | 0 <= j < |s + [x]| :: (s + [x])[j] == if j < |s| then s[j] else x
  {
  }

  ghost predicate AllPresent(m: Store, items: seq<MemoryEntry>) {
    forall e | e in items :: e.key in m
  }

  /** Every cluster's first entry, as far as the batch knows it, is in the store. */
  ghost predicate FirstsSurvive(m: Store, items: seq<MemoryEntry>, clusters: seq<seq<string>>) {
    forall c | c in clusters && Resolve(items, c) != [] :: Resolve(items, c)[0].key in m
  }

  /** Entries that none of these clusters names are in the store. */
  ghost predicate UnnamedPresent(m: Store, items: seq<MemoryEntry>, clusters: seq<seq<string>>) {
    forall e | e in items && (forall c | c in clusters :: e.key !in c) :: e.key in m
  }

  lemma ClusterKeepsFrame(base: Store, before: Store, after: Store, items: seq<MemoryEntry>,
      members: seq<MemoryEntry>, deleted: nat, category: Category)
    requires Frame(base, before, category) && Snapshot(base, items, category)
    requires members != [] && (forall e | e in members :: e in items) && ClusterEffect(before, after, members, deleted)
    ensures Frame(base, after, category) && Outsiders(before, after, items)
  {
    assert members[0] in items;
    forall k | !Names(items, k) ensures (k in before <==> k in after) && (k in before ==> after[k] == before[k]) {
      assert forall e | e in members :: e.key != k;
    }
    forall k | k in base && base[k].category != category ensures k in after && after[k] == base[k] {
      assert !Names(items, k);
    }
  }

  lemma OutsidersTransitive(a: Store, b: Store, c: Store, items: seq<MemoryEntry>)
    requires Outsiders(a, b, items) && Outsiders(b, c, items)
    ensures Outsiders(a, c, items)
  {
  }

  lemma ClustersDisjoint(clusters: seq<seq<string>>, i: nat, c: seq<string>, k: string)
    requires WellFormedClusters(clusters) && i < |clusters| && c in clusters[..i] && k in c
    ensures k !in clusters[i]
  {
    var j :| 0 <= j < i && clusters[j] == c;
    assert k in clusters[j];
  }

  /** The first entry of a well-formed next cluster is still there. */
  lemma FirstIsPresent(before: Store, items: seq<MemoryEntry>, clusters: seq<seq<string>>, i: nat)
    requires WellFormedClusters(clusters) && i < |clusters| && UnnamedPresent(before, items, clusters[..i])
    requires Resolve(items, clusters[i]) != []
    ensures Resolve(items, clusters[i])[0].key in before
  {
    var first := Resolve(items, clusters[i])[0];
    assert first in Resolve(items, clusters[i]);
    hide Resolve, WellFormedClusters;
    forall c | c in clusters[..i] ensures first.key !in c {
      if first.key in c { ClustersDisjoint(clusters, i, c, first.key); }
    }
  }

  /** A key that no member of a cluster has is not lost by merging it. */
  lemma OtherKeyKept(before: Store, after: Store, members: seq<MemoryEntry>, deleted: nat, k: string,
      cluster: seq<string>)
    requires members != [] && ClusterEffect(before, after, members, deleted) && k in before && k !in cluster
    requires forall e | e in members :: e.key in cluster
    ensures k in after
  {
    assert forall e | e in members :: e.key != k;
  }

  /** A merged well-formed cluster keeps its own first entry. */
  lemma OwnFirstKept(before: Store, after: Store, items: seq<MemoryEntry>, cluster: seq<string>, deleted: nat)
    requires NoRepeats(cluster) && Resolve(items, cluster) != []
    requires ClusterEffect(before, after, Resolve(items, cluster), deleted)
    ensures Resolve(items, cluster)[0].key in after
  {
    var members := Resolve(items, cluster);
    ResolveKeepsDistinct(items, cluster);
    var keys := KeysOf(members);
    assert keys[0] == members[0].key && KeysOf(members[1..]) == keys[1..];
  }

  /** A merged cluster keeps the entries that neither it nor an earlier one names. */
  lemma UnnamedKept(before: Store, after: Store, items: seq<MemoryEntry>, clusters: seq<seq<string>>, i: nat,
      deleted: nat)
    requires i < |clusters| && UnnamedPresent(before, items, clusters[..i])
    requires Resolve(items, clusters[i]) != [] && ClusterEffect(before, after, Resolve(items, clusters[i]), deleted)
    ensures UnnamedPresent(after, items, clusters[..i + 1])
  {
    hide Resolve, ClusterEffect;
    var cluster, members := clusters[i], Resolve(items, clusters[i]);
    assert clusters[..i + 1] == clusters[..i] + [cluster];
    assert forall e | e in members :: e.key in cluster;
    forall e | e in items && (forall c | c in clusters[..i + 1] :: e.key !in c) ensures e.key in after {
      assert cluster in clusters[..i + 1] && forall c | c in clusters[..i] :: c in clusters[..i + 1];
      OtherKeyKept(before, after, members, deleted, e.key, cluster);
    }
  }

  /** A merged well-formed cluster keeps the first entry of an earlier one. */
  lemma EarlierFirstKept(before: Store, after: Store, items: seq<MemoryEntry>, clusters: seq<seq<string>>, i: nat,
      deleted: nat, c: seq<string>)
    requires WellFormedClusters(clusters) && i < |clusters| && c in clusters[..i] && Resolve(items, c) != []
    requires Resolve(items, c)[0].key in before
    requires Resolve(items, clusters[i]) != [] && ClusterEffect(before, after, Resolve(items, clusters[i]), deleted)
    ensures Resolve(items, c)[0].key in after
  {
    var first, members := Resolve(items, c)[0], Resolve(items, clusters[i]);
    assert first in Resolve(items, c);
    assert forall e | e in members :: e.key in clusters[i];
    hide Resolve, ClusterEffect, WellFormedClusters;
    ClustersDisjoint(clusters, i, c, first.key);
    OtherKeyKept(before, after, members, deleted, first.key, clusters[i]);
  }

  lemma FirstKept(before: Store, after: Store, items: seq<MemoryEntry>, clusters: seq<seq<string>>, i: nat,
      deleted: nat, c: seq<string>)
    requires WellFormedClusters(clusters) && i < |clusters| && c in clusters[..i + 1] && Resolve(items, c) != []
    requires FirstsSurvive(before, items, clusters[..i])
    requires Resolve(items, clusters[i]) != [] && ClusterEffect(before, after, Resolve(items, clusters[i]), deleted)
    ensures Resolve(items, c)[0].key in after
  {
    hide Resolve, ClusterEffect, NoRepeats;
    assert clusters[i] in clusters;
    assert clusters[..i + 1] == clusters[..i] + [clusters[i]];
    if c in clusters[..i] {
      EarlierFirstKept(before, after, items, clusters, i, deleted, c);
    } else {
      OwnFirstKept(before, after, items, clusters[i], deleted);
    }
  }

  /** A merged well-formed cluster keeps every first entry, its own and those of earlier clusters. */
  lemma ClusterKeepsFirsts(before: Store, after: Store, items: seq<MemoryEntry>, clusters: seq<seq<string>>, i: nat,
      deleted: nat)
    requires WellFormedClusters(clusters) && i < |clusters|
    requires FirstsSurvive(before, items, clusters[..i]) && UnnamedPresent(before, items, clusters[..i])
    requires Resolve(items, clusters[i]) != [] && ClusterEffect(before, after, Resolve(items, clusters[i]), deleted)
    ensures Resolve(items, clusters[i])[0].key in before
    ensures FirstsSurvive(after, items, clusters[..i + 1]) && UnnamedPresent(after, items, clusters[..i + 1])
  {
    FirstIsPresent(before, items, clusters, i);
    UnnamedKept(before, after, items, clusters, i, deleted);
    hide ClusterEffect, WellFormedClusters, UnnamedPresent, Resolve;
    forall c | c in clusters[..i + 1] && Resolve(items, c) != [] ensures Resolve(items, c)[0].key in after {
      FirstKept(before, after, items, clusters, i, deleted, c);
    }
  }

  /** A cluster that is skipped changes nothing. */
  lemma SkippedCluster(m: Store, items: seq<MemoryEntry>, clusters: seq<seq<string>>, i: nat)
    requires WellFormedClusters(clusters) && i < |clusters|
    requires FirstsSurvive(m, items, clusters[..i]) && UnnamedPresent(m, items, clusters[..i])
    ensures FirstsSurvive(m, items, clusters[..i + 1]) && UnnamedPresent(m, items, clusters[..i + 1])
  {
    assert clusters[..i + 1] == clusters[..i] + [clusters[i]];
    forall c | c in clusters[..i + 1] && Resolve(items, c) != [] ensures Resolve(items, c)[0].key in m {
      var first := Resolve(items, c)[0];
      assert first in Resolve(items, c);
      if c !in clusters[..i] {
        forall d | d in clusters[..i] ensures first.key !in d {
          var j :| 0 <= j < i && clusters[j] == d;
          assert c == clusters[i];
        }
      }
    }
    assert forall e | e in items && (forall c | c in clusters[..i + 1] :: e.key !in c) ::
        forall c | c in clusters[..i] :: e.key !in c;
  }

  /** A cluster was skipped, or its members were merged into `e`. */
  ghost predicate ClusterDone(before: Store, after: Store, storedBefore: seq<MemoryEntry>, stored: seq<MemoryEntry>,
      members: seq<MemoryEntry>, deleted: nat, e: Option<MemoryEntry>)
  {
    match e
    case None => after == before && stored == storedBefore && deleted == 0
    case Some(x) =>
      && members != [] && x.key == members[0].key && x.category == members[0].category
      && stored == storedBefore + [x] && ClusterEffect(before, after, members, deleted)
      && (x.key in after ==> after[x.key] == x)
  }

  /** In between, that many keys were deleted, and that many absent ones stored. */
  predicate Tallied(before: Past, after: Past, deleted: nat, recreated: nat) {
    after.removals == before.removals + deleted && after.recreations == before.recreations + recreated
  }

  /** Merges one cluster, if it names two entries and the model answers; `e` is the entry stored. */
  method ConsolidateCluster(memory: MemoryBackend, items: seq<MemoryEntry>, cluster: seq<string>, ghost soFar: nat)
    returns (ok: bool, deleted: nat, ghost e: Option<MemoryEntry>)
    modifies memory`entries, memory`clock, memory`stored, memory`failures, memory`removals, memory`recreations
    ensures Progress(memory.entries, memory.clock, memory.stored, soFar + deleted, !ok)
         == AfterCluster(memory.outside, Progress(old(memory.entries), old(memory.clock), old(memory.stored), soFar, false),
                         items, cluster)
    ensures memory.failures == old(memory.failures) + (if ok then 0 else 1)
    ensures ClusterDone(old(memory.entries), memory.entries, old(memory.stored), memory.stored,
                        Resolve(items, cluster), deleted, e)
    ensures Tallied(old(memory.PastOf()), memory.PastOf(), deleted, Recreates(old(memory.entries), e))
  {
    hide ClusterEffect, ForgetAll, Deleted, KeysOf, Resolve;
    ok, deleted, e := true, 0, None;
    if |cluster| < 2 {
      return;
    }
    var members := Resolve(items, cluster);
    if |members| < 2 {
      return;
    }
    var text := memory.MergedText();
    if text.Some? {
      ok, deleted := MergeCluster(memory, members, text.value);
      if ok {
        e := Some(MergedEntry(members[0], text.value));
      }
    }
  }

  /** What the batch knows about its clusters so far, provided they are well formed and its items were there. */
  ghost predicate TidySoFar(m: Store, items: seq<MemoryEntry>, clusters: seq<seq<string>>, i: nat)
    requires i <= |clusters|
  {
    FirstsSurvive(m, items, clusters[..i]) && UnnamedPresent(m, items, clusters[..i])
  }

  /** What holds of a batch after `i` clusters; `start` is where it began. */
  ghost predicate BatchSound(base: Store, start: Progress, m: Store, stored: seq<MemoryEntry>, deleted: nat, recreated: nat,
      items: seq<MemoryEntry>, clusters: seq<seq<string>>, i: nat, category: Category)
    requires i <= |clusters|
  {
    var from := |start.stored|;
    && Frame(base, m, category) && Outsiders(start.store, m, items)
    && |m| + deleted == |start.store| + recreated
    && start.stored <= stored && FromItems(stored, from, items, category)
    && (WellFormedClusters(clusters) ==> MergesKept(m, stored, from) && FromClusters(stored, from, clusters[..i]))
    && (WellFormedClusters(clusters) && AllPresent(start.store, items) ==>
          recreated == 0 && TidySoFar(m, items, clusters, i))
  }

  lemma BatchBegins(base: Store, start: Progress, items: seq<MemoryEntry>, clusters: seq<seq<string>>, category: Category)
    requires Frame(base, start.store, category) && Snapshot(base, items, category)
    ensures BatchSound(base, start, start.store, start.stored, 0, 0, items, clusters, 0, category)
  {
    hide Frame, WellFormedClusters;
    assert clusters[..0] == [];
  }

  lemma BatchMerges(base: Store, start: Progress, before: Store, after: Store, items: seq<MemoryEntry>,
      clusters: seq<seq<string>>, i: nat, stored: seq<MemoryEntry>, deleted: nat, recreated: nat, n: nat,
      category: Category, e: MemoryEntry)
    requires Snapshot(base, items, category) && i < |clusters|
    requires BatchSound(base, start, before, stored, deleted, recreated, items, clusters, i, category)
    requires var members := Resolve(items, clusters[i]);
             && members != [] && ClusterEffect(before, after, members, n)
             && e.key == members[0].key && e.category == members[0].category && (e.key in after ==> after[e.key] == e)
    ensures BatchSound(base, start, after, stored + [e], deleted + n, recreated + (if e.key in before then 0 else 1),
                       items, clusters, i + 1, category)
  {
    var members, from := Resolve(items, clusters[i]), |start.stored|;
    assert members[0] in members && members[0] in items;
    assert |after| + n == |before| + (if e.key in before then 0 else 1);
    hide ClusterEffect, Frame, WellFormedClusters, MergesKept, FromClusters, Resolve, Outsiders, FromItems, AllPresent, TidySoFar;
    ClusterKeepsFrame(base, before, after, items, members, n, category);
    OutsidersTransitive(start.store, before, after, items);
    OneMoreStored(base, items, stored, from, category, e, members[0]);
    if WellFormedClusters(clusters) {
      ClusterKeepsMerges(before, after, items, clusters, i, n, stored, from, e);
      if AllPresent(start.store, items) {
        TidyMerges(before, after, items, clusters, i, n);
      }
    }
  }

  lemma TidyMerges(before: Store, after: Store, items: seq<MemoryEntry>, clusters: seq<seq<string>>, i: nat, n: nat)
    requires WellFormedClusters(clusters) && i < |clusters| && TidySoFar(before, items, clusters, i)
    requires Resolve(items, clusters[i]) != [] && ClusterEffect(before, after, Resolve(items, clusters[i]), n)
    ensures Resolve(items, clusters[i])[0].key in before && TidySoFar(after, items, clusters, i + 1)
  {
    hide WellFormedClusters, ClusterEffect, Resolve, FirstsSurvive, UnnamedPresent;
    ClusterKeepsFirsts(before, after, items, clusters, i, n);
  }

  lemma OneMoreStored(base: Store, items: seq<MemoryEntry>, stored: seq<MemoryEntry>, from: nat, category: Category,
      e: MemoryEntry, first: MemoryEntry)
    requires Snapshot(base, items, category) && FromItems(stored, from, items, category)
    requires first in items && e.key == first.key && e.category == first.category
    ensures FromItems(stored + [e], from, items, category)
  {
    LastOfAll(stored, e);
    assert Names(items, e.key);
  }

  lemma BatchSkips(base: Store, start: Progress, m: Store, stored: seq<MemoryEntry>, deleted: nat, recreated: nat,
      items: seq<MemoryEntry>, clusters: seq<seq<string>>, i: nat, category: Category)
    requires i < |clusters| && BatchSound(base, start, m, stored, deleted, recreated, items, clusters, i, category)
    ensures BatchSound(base, start, m, stored, deleted, recreated, items, clusters, i + 1, category)
  {
    hide Frame, WellFormedClusters, MergesKept, FromClusters, TidySoFar, Outsiders, FromItems, AllPresent;
    if WellFormedClusters(clusters) {
      ClusterSkipped(m, items, clusters, i, stored, |start.stored|);
    }
  }

  /** A store that met an absent key. */
  function Recreates(before: Store, e: Option<MemoryEntry>): nat {
    if e.Some? && e.value.key !in before then 1 else 0
  }

  lemma BatchGoesOn(base: Store, start: Progress, before: Store, after: Store, storedBefore: seq<MemoryEntry>,
      stored: seq<MemoryEntry>, deleted: nat, recreated: nat, n: nat, e: Option<MemoryEntry>,
      items: seq<MemoryEntry>, clusters: seq<seq<string>>, i: nat, category: Category)
    requires Snapshot(base, items, category) && i < |clusters|
    requires BatchSound(base, start, before, storedBefore, deleted, recreated, items, clusters, i, category)
    requires ClusterDone(before, after, storedBefore, stored, Resolve(items, clusters[i]), n, e)
    ensures BatchSound(base, start, after, stored, deleted + n, recreated + Recreates(before, e), items, clusters, i + 1, category)
  {
    hide BatchSound, Snapshot, Resolve, ClusterEffect;
    match e
    case Some(x) =>
      BatchMerges(base, start, before, after, items, clusters, i, storedBefore, deleted, recreated, n, category, x);
    case None =>
      BatchSkips(base, start, after, stored, deleted, recreated, items, clusters, i, category);
  }

  lemma BatchEnds(base: Store, start: Progress, m: Store, stored: seq<MemoryEntry>, deleted: nat, recreated: nat,
      items: seq<MemoryEntry>, clusters: seq<seq<string>>, i: nat, category: Category)
    requires i <= |clusters| && BatchSound(base, start, m, stored, deleted, recreated, items, clusters, i, category)
    ensures Frame(base, m, category) && Outsiders(start.store, m, items) && |m| + deleted == |start.store| + recreated
    ensures start.stored <= stored && FromItems(stored, |start.stored|, items, category)
    ensures WellFormedClusters(clusters) ==> MergesKept(m, stored, |start.stored|)
    ensures WellFormedClusters(clusters) && AllPresent(start.store, items) ==>
              recreated == 0 && (i == |clusters| ==> FirstsSurvive(m, items, clusters))
  {
    hide Frame, Outsiders, FromItems, MergesKept, FromClusters, WellFormedClusters, FirstsSurvive, UnnamedPresent, AllPresent;
    assert i == |clusters| ==> clusters[..i] == clusters;
  }

  lemma PastIs(memory: MemoryBackend)
    ensures memory.PastOf() == Past(memory.entries, memory.clock, memory.stored, memory.failures, memory.answers,
                                    memory.removals, memory.recreations)
  {
  }

  /** The loop over the clusters, behind the first `i`. */
  ghost predicate BatchInv(o: Outside, base: Store, start: Past, now: Past, deleted: nat, recreated: nat,
      items: seq<MemoryEntry>, clusters: seq<seq<string>>, i: nat, category: Category, ok: bool)
    requires i <= |clusters|
  {
    var p := Progress(start.entries, start.clock, start.stored, 0, false);
    && Progress(now.entries, now.clock, now.stored, deleted, !ok) == AfterClusters(o, p, items, clusters[..i])
    && BatchSound(base, p, now.entries, now.stored, deleted, recreated, items, clusters, i, category)
    && now.failures == start.failures + (if ok then 0 else 1) && now.answers == start.answers
    && Tallied(start, now, deleted, recreated)
  }

  lemma BatchInvBegins(o: Outside, base: Store, start: Past, items: seq<MemoryEntry>, clusters: seq<seq<string>>,
      category: Category)
    requires Frame(base, start.entries, category) && Snapshot(base, items, category)
    ensures BatchInv(o, base, start, start, 0, 0, items, clusters, 0, category, true)
  {
    var p := Progress(start.entries, start.clock, start.stored, 0, false);
    BatchBegins(base, p, items, clusters, category);
    NoClusters(o, p, items, clusters);
    hide AfterClusters, BatchSound;
  }

  lemma BatchInvStep(o: Outside, base: Store, start: Past, before: Past, after: Past, deleted: nat, recreated: nat,
      items: seq<MemoryEntry>, clusters: seq<seq<string>>, i: nat, category: Category, ok: bool, n: nat,
      e: Option<MemoryEntry>)
    requires i < |clusters| && BatchInv(o, base, start, before, deleted, recreated, items, clusters, i, category, true)
    requires Frame(base, start.entries, category) && Snapshot(base, items, category)
    requires Progress(after.entries, after.clock, after.stored, deleted + n, !ok)
          == AfterCluster(o, Progress(before.entries, before.clock, before.stored, deleted, false), items, clusters[i])
    requires after.failures == before.failures + (if ok then 0 else 1) && after.answers == before.answers
    requires ClusterDone(before.entries, after.entries, before.stored, after.stored, Resolve(items, clusters[i]), n, e)
    requires Tallied(before, after, n, Recreates(before.entries, e))
    ensures BatchInv(o, base, start, after, deleted + n, recreated + Recreates(before.entries, e), items, clusters, i + 1,
                     category, ok)
  {
    hide *;
    var p := Progress(start.entries, start.clock, start.stored, 0, false);
    BatchInvIs(o, base, start, before, deleted, recreated, items, clusters, i, category, true);
    OneMoreCluster(o, p, items, clusters, i);
    BatchGoesOn(base, p, before.entries, after.entries, before.stored, after.stored, deleted, recreated, n, e,
                items, clusters, i, category);
    TalliesAddUp(start, before, after, deleted, recreated, n, Recreates(before.entries, e));
    BatchInvIs(o, base, start, after, deleted + n, recreated + Recreates(before.entries, e), items, clusters, i + 1,
               category, ok);
  }

  lemma BatchInvIs(o: Outside, base: Store, start: Past, now: Past, deleted: nat, recreated: nat,
      items: seq<MemoryEntry>, clusters: seq<seq<string>>, i: nat, category: Category, ok: bool)
    requires i <= |clusters|
    ensures var p := Progress(start.entries, start.clock, start.stored, 0, false);
            BatchInv(o, base, start, now, deleted, recreated, items, clusters, i, category, ok) <==>
              && Progress(now.entries, now.clock, now.stored, deleted, !ok) == AfterClusters(o, p, items, clusters[..i])
              && BatchSound(base, p, now.entries, now.stored, deleted, recreated, items, clusters, i, category)
              && now.failures == start.failures + (if ok then 0 else 1) && now.answers == start.answers
              && Tallied(start, now, deleted, recreated)
  {
    hide AfterClusters, BatchSound, Tallied;
  }

  lemma TalliesAddUp(a: Past, b: Past, c: Past, deleted: nat, recreated: nat, d: nat, r: nat)
    requires Tallied(a, b, deleted, recreated) && Tallied(b, c, d, r)
    ensures Tallied(a, c, deleted + d, recreated + r)
  {
  }

  /** The clusters were merged as specified, up to the first failed store; the first `upTo` were looked at. */
  ghost predicate ClustersMerged(o: Outside, base: Store, start: Past, now: Past, ok: bool, deleted: nat, recreated: nat,
      items: seq<MemoryEntry>, clusters: seq<seq<string>>, upTo: nat, category: Category) {
    var p := Progress(start.entries, start.clock, start.stored, 0, false);
    && Progress(now.entries, now.clock, now.stored, deleted, !ok) == AfterClusters(o, p, items, clusters)
    && upTo <= |clusters| && (ok ==> upTo == |clusters|)
    && BatchSound(base, p, now.entries, now.stored, deleted, recreated, items, clusters, upTo, category)
    && now.failures == start.failures + (if ok then 0 else 1) && now.answers == start.answers
    && Tallied(start, now, deleted, recreated)
  }

  /** The loop ends behind its last cluster, or behind a failed store. */
  lemma BatchInvEnds(o: Outside, base: Store, start: Past, now: Past, deleted: nat, recreated: nat,
      items: seq<MemoryEntry>, clusters: seq<seq<string>>, i: nat, category: Category, ok: bool)
    requires i <= |clusters| && BatchInv(o, base, start, now, deleted, recreated, items, clusters, i, category, ok)
    requires ok ==> i == |clusters|
    ensures ClustersMerged(o, base, start, now, ok, deleted, recreated, items, clusters, i, category)
  {
    var p := Progress(start.entries, start.clock, start.stored, 0, false);
    NoClusters(o, p, items, clusters);
    if !ok { FailureEnds(o, p, items, clusters, i); }
    hide AfterClusters, BatchSound;
  }

  /** Merges one cluster after the other, until a store fails. */
  method ConsolidateClusters(memory: MemoryBackend, items: seq<MemoryEntry>, clusters: seq<seq<string>>,
      ghost base: Store, ghost category: Category)
    returns (ok: bool, deleted: nat, ghost recreated: nat, ghost upTo: nat)
    requires Frame(base, memory.entries, category) && Snapshot(base, items, category)
    modifies memory`entries, memory`clock, memory`stored, memory`failures, memory`removals, memory`recreations
    ensures ClustersMerged(memory.outside, base, old(memory.PastOf()), memory.PastOf(), ok, deleted, recreated, items,
                           clusters, upTo, category)
  {
    hide *;
    ghost var start, o := memory.PastOf(), memory.outside;
    PastIs(memory);
    BatchInvBegins(o, base, start, items, clusters, category);
    deleted, recreated := 0, 0;
    for i := 0 to |clusters|
      invariant BatchInv(o, base, start, memory.PastOf(), deleted, recreated, items, clusters, i, category, true)
    {
      ghost var before := memory.PastOf();
      PastIs(memory);
      ghost var e;
      var done, n;
      done, n, e := ConsolidateCluster(memory, items, clusters[i], deleted);
      PastIs(memory);
      BatchInvStep(o, base, start, before, memory.PastOf(), deleted, recreated, items, clusters, i, category, done, n, e);
      deleted, recreated := deleted + n, recreated + Recreates(before.entries, e);
      if !done {
        BatchInvEnds(o, base, start, memory.PastOf(), deleted, recreated, items, clusters, i + 1, category, false);
        return false, deleted, recreated, i + 1;
      }
    }
    PastIs(memory);
    BatchInvEnds(o, base, start, memory.PastOf(), deleted, recreated, items, clusters, |clusters|, category, true);
    return true, deleted, recreated, |clusters|;
  }

  /** What a batch computes: nothing without an answer, else the merges of its clusters. */
  function BatchResult(o: Outside, start: Progress, items: seq<MemoryEntry>): Progress {
    match o.clusters(start.clock)
    case None => start.(clock := start.clock + 1)
    case Some(clusters) => AfterClusters(o, start.(clock := start.clock + 1), items, clusters)
  }

  /**
   One batch.  `deleted` counts all successful deletions and `recreated` the stores that met an
   absent key; the count of entries obeys the balance whatever the answers are.
   */
  method ConsolidateBatch(memory: MemoryBackend, items: seq<MemoryEntry>, ghost base: Store, ghost category: Category)
    returns (r: Result<nat, ()>, ghost deleted: nat, ghost recreated: nat)
    requires Frame(base, memory.entries, category) && Snapshot(base, items, category)
    modifies memory
    // without an answer nothing happens; with one, exactly the merges of its clusters
    ensures var answer := memory.outside.clusters(old(memory.clock));
            && memory.answers == (if answer.Some? then old(memory.answers) + [answer.value] else old(memory.answers))
            && r == (if answer.Some? && memory.failures == old(memory.failures) then Ok(deleted) else Err(()))
    ensures Progress(memory.entries, memory.clock, memory.stored, deleted, memory.failures > old(memory.failures))
         == BatchResult(memory.outside, Progress(old(memory.entries), old(memory.clock), old(memory.stored), 0, false), items)
    // whatever the answer, the frame and the balance; after a tidy one, the merged entries
    ensures BatchDone(base, old(memory.PastOf()), memory.PastOf(), items, category, r, deleted, recreated)
    ensures TidyAnswers(memory.answers, |old(memory.answers)|) && AllPresent(old(memory.entries), items) && r.Ok? ==>
              FirstsSurvive(memory.entries, items, memory.outside.clusters(old(memory.clock)).value)
  {
    hide *;
    ghost var before := memory.PastOf();
    PastIs(memory);
    var answer := memory.FindSimilarClusters();
    ghost var asked := memory.PastOf();
    PastIs(memory);
    if answer.None? {
      UnansweredBatch(memory.outside, base, before, asked, items, category);
      return Err(()), 0, 0;
    }
    var ok, n;
    ghost var upTo;
    ok, n, recreated, upTo := ConsolidateClusters(memory, items, answer.value, base, category);
    deleted := n;
    r := if ok then Ok(n) else Err(());
    PastIs(memory);
    AnsweredBatch(memory.outside, base, before, asked, memory.PastOf(), items, category, answer.value, ok, n, recreated, upTo);
  }

  /** A batch without an answer. */
  lemma UnansweredBatch(o: Outside, base: Store, before: Past, asked: Past, items: seq<MemoryEntry>, category: Category)
    requires asked == before.(clock := before.clock + 1) && o.clusters(before.clock).None?
    requires Frame(base, before.entries, category)
    ensures BatchDone(base, before, asked, items, category, Err(()), 0, 0)
    ensures BatchResult(o, Progress(before.entries, before.clock, before.stored, 0, false), items)
         == Progress(asked.entries, asked.clock, asked.stored, 0, false)
  {
  }

  /** A batch whose clusters were merged, up to a failed store. */
  lemma AnsweredBatch(o: Outside, base: Store, before: Past, asked: Past, after: Past, items: seq<MemoryEntry>,
      category: Category, clusters: seq<seq<string>>, ok: bool, n: nat, recreated: nat, upTo: nat)
    requires asked == before.(clock := before.clock + 1, answers := before.answers + [clusters])
    requires o.clusters(before.clock) == Some(clusters)
    requires ClustersMerged(o, base, asked, after, ok, n, recreated, items, clusters, upTo, category)
    ensures BatchDone(base, before, after, items, category, if ok then Ok(n) else Err(()), n, recreated)
    ensures BatchResult(o, Progress(before.entries, before.clock, before.stored, 0, false), items)
         == Progress(after.entries, after.clock, after.stored, n, after.failures > before.failures)
    ensures after.answers == before.answers + [clusters] && (ok <==> after.failures == before.failures)
    ensures TidyAnswers(after.answers, |before.answers|) && AllPresent(before.entries, items) && ok ==>
              FirstsSurvive(after.entries, items, clusters)
  {
    var start := Progress(asked.entries, asked.clock, asked.stored, 0, false);
    LastAnswer(before.answers, clusters);
    ClockGoesOn(o, start, items, clusters);
    hide AfterClusters, Frame, Outsiders, FromItems, MergesKept, AllPresent, TidyAnswers, WellFormedClusters, FirstsSurvive,
         BatchSound;
    BatchEnds(base, start, after.entries, after.stored, n, recreated, items, clusters, upTo, category);
  }

  lemma NothingKept(m: Store, stored: seq<MemoryEntry>)
    ensures MergesKept(m, stored, |stored|)
  {
  }

  lemma LastAnswer(answers: seq<seq<seq<string>>>, clusters: seq<seq<string>>)
    ensures TidyAnswers(answers + [clusters], |answers|) <==> WellFormedClusters(clusters)
    ensures TidyAnswers(answers, |answers|)
  {
    hide WellFormedClusters;
    assert (answers + [clusters])[|answers|] == clusters;
  }

  lemma ClusterSkipped(m: Store, items: seq<MemoryEntry>, clusters: seq<seq<string>>, i: nat, stored: seq<MemoryEntry>, from: nat)
    requires WellFormedClusters(clusters) && i < |clusters| && FromClusters(stored, from, clusters[..i])
    ensures FromClusters(stored, from, clusters[..i + 1])
    ensures TidySoFar(m, items, clusters, i) ==> TidySoFar(m, items, clusters, i + 1)
  {
    if TidySoFar(m, items, clusters, i) { SkippedCluster(m, items, clusters, i); }
    hide WellFormedClusters, TidySoFar;
    assert clusters[..i + 1] == clusters[..i] + [clusters[i]];
    assert forall c | c in clusters[..i] :: c in clusters[..i + 1];
  }

  /** The cluster answers received from `from` on are disjoint and free of repetitions. */
  ghost predicate TidyAnswers(answers: seq<seq<seq<string>>>, from: nat) {
    forall i | from <= i < |answers| :: WellFormedClusters(answers[i])
  }

  // ---- the count of one batch, from its clusters ----

  /** The model has a text for every cluster, and the memory does what it is told. */
  ghost predicate Reliable(o: Outside) {
    forall n :: o.merged(n).Some? && !o.storeFails(n) && !o.forgetFails(n)
  }

  predicate IsMerged(items: seq<MemoryEntry>, cluster: seq<string>) {
    |cluster| >= 2 && |Resolve(items, cluster)| >= 2
  }

  /** What the clusters last do to a key: keep it with the merged text, delete it, or nothing. */
  function Fate(items: seq<MemoryEntry>, clusters: seq<seq<string>>, k: string): Option<bool> {
    if clusters == [] then None
    else
      var n := |clusters| - 1;
      var members := Resolve(items, clusters[n]);
      if IsMerged(items, clusters[n]) && k in KeysOf(members[1..]) then Some(false)
      else if IsMerged(items, clusters[n]) && k == members[0].key then Some(true)
      else Fate(items, clusters[..n], k)
  }

  /** How often a cluster's first key has already been deleted by the clusters before it. */
  function Recreations(items: seq<MemoryEntry>, clusters: seq<seq<string>>): nat {
    if clusters == [] then 0
    else
      var n := |clusters| - 1;
      Recreations(items, clusters[..n])
      + (if IsMerged(items, clusters[n]) && Fate(items, clusters[..n], Resolve(items, clusters[n])[0].key) == Some(false)
         then 1 else 0)
  }

  lemma ForgottenExactly(m: Store, keys: seq<string>, fails: nat -> bool, clock: nat)
    requires forall c | clock <= c :: !fails(c)
    ensures forall k :: k in ForgetAll(m, keys, fails, clock) <==> k in m && k !in keys
  {
    ForgetAllKeeps(m, keys, fails, clock);
    hide ForgetAll;
    forall k | k in keys { ForgottenIsGone(m, keys, fails, clock, k); }
  }

  lemma ReliableCluster(o: Outside, p: Progress, items: seq<MemoryEntry>, cluster: seq<string>) returns (e: MemoryEntry)
    requires Reliable(o) && !p.failed && IsMerged(items, cluster)
    ensures var members := Resolve(items, cluster);
            var merged, rest := p.store[e.key := e], KeysOf(members[1..]);
            && e.key == members[0].key
            && AfterCluster(o, p, items, cluster)
               == Progress(ForgetAll(merged, rest, o.forgetFails, p.clock + 2), p.clock + 2 + |rest|, p.stored + [e],
                           p.deleted + Deleted(merged, rest, o.forgetFails, p.clock + 2), false)
  {
    hide Resolve, KeysOf, ForgetAll, Deleted;
    e := MergedEntry(Resolve(items, cluster)[0], o.merged(p.clock).value);
  }

  /** Storing an entry and deleting keys without a failure. */
  lemma MergedStore(o: Outside, before: Store, e: MemoryEntry, rest: seq<string>, clock: nat)
    requires Reliable(o)
    ensures var merged := before[e.key := e];
            var after := ForgetAll(merged, rest, o.forgetFails, clock);
            && |after| + Deleted(merged, rest, o.forgetFails, clock) == |before| + (if e.key in before then 0 else 1)
            && forall k :: k in after <==> k !in rest && (k == e.key || k in before)
  {
    hide ForgetAll, Deleted;
    var merged := before[e.key := e];
    ForgetAllCounts(merged, rest, o.forgetFails, clock);
    ForgottenExactly(merged, rest, o.forgetFails, clock);
    AddOne(before, e.key, e);
  }

  /** One merge by a reliable memory. */
  lemma ReliableMerge(o: Outside, p: Progress, items: seq<MemoryEntry>, cluster: seq<string>)
    requires Reliable(o) && !p.failed && IsMerged(items, cluster)
    ensures var r, members := AfterCluster(o, p, items, cluster), Resolve(items, cluster);
            && !r.failed && r.deleted >= p.deleted
            && |r.store| + (r.deleted - p.deleted) == |p.store| + (if members[0].key in p.store then 0 else 1)
            && forall k :: k in r.store <==>
                 k !in KeysOf(members[1..]) && (k == members[0].key || k in p.store)
  {
    assert |Resolve(items, cluster)| >= 2;
    hide *;
    var e := ReliableCluster(o, p, items, cluster);
    MergedStore(o, p.store, e, KeysOf(Resolve(items, cluster)[1..]), p.clock + 2);
  }

  /** The clusters alone decide which keys are there after the batch. */
  lemma {:induction false} FateDecides(o: Outside, p: Progress, items: seq<MemoryEntry>, clusters: seq<seq<string>>, k: string)
    requires Reliable(o) && !p.failed
    ensures var r := AfterClusters(o, p, items, clusters);
            !r.failed && (k in r.store <==> match Fate(items, clusters, k) case Some(kept) => kept case None => k in p.store)
  {
    if clusters != [] {
      var n := |clusters| - 1;
      FateDecides(o, p, items, clusters[..n], k);
      hide Reliable, KeysOf, Resolve;
      if IsMerged(items, clusters[n]) {
        ReliableMerge(o, AfterClusters(o, p, items, clusters[..n]), items, clusters[n]);
        hide AfterCluster;
      }
    }
  }

  /** The count of keys drops by the deletions, less the keys that were deleted and stored again. */
  lemma {:induction false} CountAfterClusters(o: Outside, p: Progress, items: seq<MemoryEntry>, clusters: seq<seq<string>>)
    requires Reliable(o) && !p.failed && AllPresent(p.store, items)
    ensures var r := AfterClusters(o, p, items, clusters);
            |r.store| + r.deleted == |p.store| + p.deleted + Recreations(items, clusters)
  {
    if clusters != [] {
      var n := |clusters| - 1;
      CountAfterClusters(o, p, items, clusters[..n]);
      if IsMerged(items, clusters[n]) {
        var first := Resolve(items, clusters[n])[0];
        assert first in Resolve(items, clusters[n]) && first.key in p.store;
        FateDecides(o, p, items, clusters[..n], first.key);
        hide Reliable, KeysOf, Resolve, Fate;
        ReliableMerge(o, AfterClusters(o, p, items, clusters[..n]), items, clusters[n]);
        hide AfterCluster;
      } else {
        hide Reliable, KeysOf, Resolve, Fate;
      }
    }
  }

  /** The count drops by exactly the deletions if and only if no first key was deleted before its own cluster. */
  lemma DropsByTotalExactly(o: Outside, m: Store, clock: nat, items: seq<MemoryEntry>, clusters: seq<seq<string>>)
    requires Reliable(o) && AllPresent(m, items)
    ensures var r := AfterClusters(o, Progress(m, clock, [], 0, false), items, clusters);
            |m| - |r.store| == r.deleted <==> Recreations(items, clusters) == 0
  {
    CountAfterClusters(o, Progress(m, clock, [], 0, false), items, clusters);
  }

  lemma {:induction false} FindsItem(base: Store, items: seq<MemoryEntry>, category: Category, k: string)
    requires Snapshot(base, items, category) && Names(items, k)
    ensures k in base && FindItem(items, k) == Some(base[k])
  {
    var e := FindItem(items, k).value;
    assert e in items;
  }

  lemma ResolvesPair(base: Store, items: seq<MemoryEntry>, category: Category, a: string, b: string)
    requires Snapshot(base, items, category) && Names(items, a) && Names(items, b)
    ensures a in base && b in base && Resolve(items, [a, b]) == [base[a], base[b]]
    ensures base[a].key == a && base[b].key == b && IsMerged(items, [a, b])
  {
    FindsItem(base, items, category, a);
    FindsItem(base, items, category, b);
    assert [a, b][1..] == [b] && [b][1..] == [];
    assert Resolve(items, [b]) == [base[b]];
  }

  lemma FateOfPair(base: Store, items: seq<MemoryEntry>, category: Category, clusters: seq<seq<string>>, a: string, b: string, k: string)
    requires Snapshot(base, items, category) && Names(items, a) && Names(items, b)
    ensures Fate(items, clusters + [[a, b]], k) == (if k == b then Some(false) else if k == a then Some(true) else Fate(items, clusters, k))
  {
    ResolvesPair(base, items, category, a, b);
    var members := [base[a], base[b]];
    assert members[1..] == [base[b]] && KeysOf([base[b]]) == [b];
    assert (clusters + [[a, b]])[..|clusters|] == clusters;
  }

  /** Overlapping clusters delete `b` with the first and store it again with the second. */
  lemma OverlapRecreates(base: Store, items: seq<MemoryEntry>, category: Category, a: string, b: string, c: string)
    requires Snapshot(base, items, category) && Names(items, a) && Names(items, b) && Names(items, c) && a != b && b != c
    ensures Recreations(items, [[a, b], [b, c]]) == 1
  {
    var clusters := [[a, b], [b, c]];
    assert clusters[..1] == [] + [[a, b]] && clusters[..1][..0] == [];
    FateOfPair(base, items, category, [], a, b, b);
    ResolvesPair(base, items, category, a, b);
    ResolvesPair(base, items, category, b, c);
    hide Resolve, Fate, IsMerged;
    assert Recreations(items, []) == 0;
    assert Fate(items, [], a).None? by { NoFate(items, a); }
    assert Recreations(items, clusters[..1]) == 0;
  }

  lemma NoFate(items: seq<MemoryEntry>, k: string)
    ensures Fate(items, [], k).None?
  {
  }

  /**
   A category that is listed twice can lose a merged entry: the first time `a` takes in `b`, the
   second time `c` takes in `a`.  Each answer on its own is well formed.
   */
  lemma RepeatedCategoryLosesMerge(o: Outside, m: Store, items: seq<MemoryEntry>, later: seq<MemoryEntry>,
      category: Category, clock: nat, laterClock: nat, a: string, b: string, c: string)
    requires Reliable(o) && a != b && b != c && a != c
    requires Snapshot(m, items, category) && Names(items, a) && Names(items, b) && Names(items, c)
    requires var first := AfterClusters(o, Progress(m, clock, [], 0, false), items, [[a, b]]).store;
             Snapshot(first, later, category) && Names(later, a) && Names(later, c)
    ensures var first := AfterClusters(o, Progress(m, clock, [], 0, false), items, [[a, b]]);
            var second := AfterClusters(o, Progress(first.store, laterClock, first.stored, 0, false), later, [[c, a]]);
            && WellFormedClusters([[a, b]]) && WellFormedClusters([[c, a]])
            && MergesKept(first.store, first.stored, 0) && |first.stored| == 1 && first.stored[0].key == a
            && a !in second.store && !MergesKept(second.store, second.stored, 0)
  {
    FirstMerge(o, m, items, category, clock, a, b);
    var first := AfterClusters(o, Progress(m, clock, [], 0, false), items, [[a, b]]);
    SecondMerge(o, first, later, category, laterClock, c, a);
  }

  lemma FirstMerge(o: Outside, m: Store, items: seq<MemoryEntry>, category: Category, clock: nat, a: string, b: string)
    requires Reliable(o) && a != b && Snapshot(m, items, category) && Names(items, a) && Names(items, b)
    ensures var r := AfterClusters(o, Progress(m, clock, [], 0, false), items, [[a, b]]);
            && WellFormedClusters([[a, b]]) && MergesKept(r.store, r.stored, 0) && |r.stored| == 1 && r.stored[0].key == a
  {
    ResolvesPair(m, items, category, a, b);
    var p, members := Progress(m, clock, [], 0, false), [m[a], m[b]];
    assert [[a, b]][..0] == [] && AfterClusters(o, p, items, []) == p;
    assert AfterClusters(o, p, items, [[a, b]]) == AfterCluster(o, p, items, [a, b]);
    assert members[1..] == [m[b]] && KeysOf(members[1..]) == [b];
    var e := MergedEntry(members[0], o.merged(clock).value);
    MergedEntrySurvivesExactly(m, a, e, [b], o.forgetFails, clock + 2);
    assert [] + [e] == [e];
    assert [a, b][0] != [a, b][1];
  }

  lemma SecondMerge(o: Outside, first: Progress, later: seq<MemoryEntry>, category: Category, clock: nat, c: string, a: string)
    requires Reliable(o) && a != c && Snapshot(first.store, later, category) && Names(later, a) && Names(later, c)
    requires |first.stored| == 1 && first.stored[0].key == a
    ensures var p := Progress(first.store, clock, first.stored, 0, false);
            var r := AfterClusters(o, p, later, [[c, a]]);
            WellFormedClusters([[c, a]]) && a !in r.store && !MergesKept(r.store, r.stored, 0)
  {
    hide Fate, AfterClusters, Snapshot, Names, Reliable;
    var p := Progress(first.store, clock, first.stored, 0, false);
    FateOfPair(first.store, later, category, [], c, a, a);
    assert [] + [[c, a]] == [[c, a]];
    FateDecides(o, p, later, [[c, a]], a);
    StoredStays(o, p, later, [[c, a]]);
    assert [c, a][0] != [c, a][1];
  }

  lemma {:induction false} StoredStays(o: Outside, p: Progress, items: seq<MemoryEntry>, clusters: seq<seq<string>>)
    ensures p.stored <= AfterClusters(o, p, items, clusters).stored
  {
    if clusters != [] {
      StoredStays(o, p, items, clusters[..|clusters| - 1]);
    }
  }

  // ---- the whole pass ----

  /** Only entries of the listed categories change, never a global one; keys and categories are old. */
  ghost predicate Untouched(before: Store, after: Store, categories: seq<Category>) {
    && after.Keys <= before.Keys && WellKeyed(after)
    && (forall k | k in after :: after[k].category == before[k].category)
    && (forall k | k in before && (before[k].category.Global? || before[k].category !in categories) ::
          k in after && after[k] == before[k])
  }

  lemma UntouchedStep(before: Store, base: Store, after: Store, categories: seq<Category>, category: Category)
    requires Untouched(before, base, categories) && Frame(base, after, category)
    requires category in categories && !category.Global?
    ensures Untouched(before, after, categories)
  {
  }

  /** The entries of later chunks are not touched by an earlier one. */
  lemma LaterChunksPresent(before: Store, after: Store, items: seq<MemoryEntry>, lo: nat, hi: nat, base: Store,
      category: Category)
    requires lo <= hi <= |items| && Snapshot(base, items, category)
    requires AllPresent(before, items[lo..]) && Outsiders(before, after, items[lo..hi])
    ensures AllPresent(after, items[hi..])
  {
    forall e | e in items[hi..] ensures e.key in after {
      var j :| 0 <= j < |items| - hi && items[hi..][j] == e;
      assert items[lo..][hi - lo + j] == e;
      forall d | d in items[lo..hi] ensures d.key != e.key {
        var i :| 0 <= i < hi - lo && items[lo..hi][i] == d;
        assert items[lo + i].key != items[hi + j].key;
      }
    }
  }

  lemma ChunkIsSnapshot(base: Store, items: seq<MemoryEntry>, lo: nat, hi: nat, category: Category)
    requires lo <= hi <= |items| && Snapshot(base, items, category)
    ensures Snapshot(base, items[lo..hi], category)
  {
  }

  lemma TidyPrefix(answers: seq<seq<seq<string>>>, more: seq<seq<seq<string>>>, from: nat)
    requires answers <= more && from <= |answers| && TidyAnswers(more, from)
    ensures TidyAnswers(answers, from) && TidyAnswers(more, |answers|)
  {
    hide WellFormedClusters;
    assert forall i | 0 <= i < |answers| :: more[i] == answers[i];
  }

  /** What holds of a category after its first `lo` entries have been through batches. */
  ghost predicate CategorySound(base: Store, from: nat, m: Store, stored: seq<MemoryEntry>, deleted: nat, recreated: nat,
      tidy: bool, items: seq<MemoryEntry>, lo: nat, category: Category)
    requires lo <= |items|
  {
    && Frame(base, m, category) && |m| + deleted == |base| + recreated
    && from <= |stored| && FromItems(stored, from, items[..lo], category)
    && (tidy ==> recreated == 0 && AllPresent(m, items[lo..]) && MergesKept(m, stored, from))
  }

  lemma CategoryBegins(base: Store, stored: seq<MemoryEntry>, items: seq<MemoryEntry>, category: Category)
    requires WellKeyed(base) && Snapshot(base, items, category)
    ensures CategorySound(base, |stored|, base, stored, 0, 0, true, items, 0, category)
  {
    assert items[0..] == items;
  }

  /** A batch leaves what earlier batches of its category stored. */
  lemma ChunkKeepsMerges(before: Store, after: Store, storedBefore: seq<MemoryEntry>, stored: seq<MemoryEntry>, from: nat,
      items: seq<MemoryEntry>, lo: nat, hi: nat, base: Store, category: Category)
    requires lo <= hi <= |items| && Snapshot(base, items, category) && from <= |storedBefore| && storedBefore <= stored
    requires FromItems(storedBefore, from, items[..lo], category) && Outsiders(before, after, items[lo..hi])
    requires FromItems(stored, |storedBefore|, items[lo..hi], category)
    ensures FromItems(stored, from, items[..hi], category)
    ensures MergesKept(before, storedBefore, from) && MergesKept(after, stored, |storedBefore|) ==> MergesKept(after, stored, from)
  {
    assert forall i | 0 <= i < |storedBefore| :: stored[i] == storedBefore[i];
    forall i | from <= i < |stored| ensures Names(items[..hi], stored[i].key) && stored[i].category == category {
      if i < |storedBefore| {
        NamesWithin(items, 0, lo, 0, hi, stored[i].key);
      } else {
        NamesWithin(items, lo, hi, 0, hi, stored[i].key);
      }
    }
    forall i | from <= i < |storedBefore| ensures !Names(items[lo..hi], stored[i].key) {
      NamedOnce(base, items, lo, hi, category, stored[i].key);
    }
  }

  lemma NamesWithin(items: seq<MemoryEntry>, a: nat, b: nat, c: nat, d: nat, k: string)
    requires c <= a <= b <= d <= |items| && Names(items[a..b], k)
    ensures Names(items[c..d], k) && (a == 0 ==> items[a..b] == items[..b]) && (c == 0 ==> items[c..d] == items[..d])
  {
    var i :| 0 <= i < b - a && items[a..b][i].key == k;
    assert items[c..d][a - c + i] == items[a..b][i];
  }

  lemma NamedOnce(base: Store, items: seq<MemoryEntry>, lo: nat, hi: nat, category: Category, k: string)
    requires lo <= hi <= |items| && Snapshot(base, items, category) && Names(items[..lo], k)
    ensures !Names(items[lo..hi], k)
  {
    var i :| 0 <= i < lo && items[..lo][i].key == k;
    forall e | e in items[lo..hi] ensures e.key != k {
      var j :| 0 <= j < hi - lo && items[lo..hi][j] == e;
      assert items[i].key != items[lo + j].key;
    }
  }

  lemma ChunkDone(base: Store, from: nat, before: Store, after: Store, storedBefore: seq<MemoryEntry>, stored: seq<MemoryEntry>,
      deleted: nat, recreated: nat, d: nat, c: nat, tidyBefore: bool, tidy: bool,
      items: seq<MemoryEntry>, lo: nat, hi: nat, category: Category)
    requires lo <= hi <= |items| && Snapshot(base, items, category) && (tidy ==> tidyBefore)
    requires CategorySound(base, from, before, storedBefore, deleted, recreated, tidyBefore, items, lo, category)
    requires Frame(base, after, category) && Outsiders(before, after, items[lo..hi]) && |after| + d == |before| + c
    requires storedBefore <= stored && FromItems(stored, |storedBefore|, items[lo..hi], category)
    requires tidy ==> MergesKept(after, stored, |storedBefore|) && (AllPresent(before, items[lo..hi]) ==> c == 0)
    ensures CategorySound(base, from, after, stored, deleted + d, recreated + c, tidy, items, hi, category)
  {
    hide Frame, MergesKept, FromItems, Outsiders, Snapshot, AllPresent;
    ChunkKeepsMerges(before, after, storedBefore, stored, from, items, lo, hi, base, category);
    if tidy {
      LaterChunksPresent(before, after, items, lo, hi, base, category);
      PresentWithin(before, items, lo, hi);
    }
  }

  lemma PresentWithin(m: Store, items: seq<MemoryEntry>, lo: nat, hi: nat)
    requires lo <= hi <= |items| && AllPresent(m, items[lo..])
    ensures AllPresent(m, items[lo..hi])
  {
    assert items[lo..hi] == items[lo..][..hi - lo];
  }

  /** The loop over the batches, in front of item `lo`. */
  ghost predicate CategoryInv(start: Past, now: Past, total: nat, deleted: nat, recreated: nat, items: seq<MemoryEntry>,
      lo: nat, category: Category)
    requires lo <= |items|
  {
    && CategorySound(start.entries, |start.stored|, now.entries, now.stored, deleted, recreated,
                     TidyAnswers(now.answers, |start.answers|), items, lo, category)
    && total <= deleted && (now.failures == start.failures ==> total == deleted)
    && GoesOn(start, now) && Tallied(start, now, deleted, recreated)
  }

  lemma CategoryInvBegins(start: Past, items: seq<MemoryEntry>, category: Category)
    requires WellKeyed(start.entries) && Snapshot(start.entries, items, category)
    ensures CategoryInv(start, start, 0, 0, 0, items, 0, category)
  {
    CategoryBegins(start.entries, start.stored, items, category);
    hide CategorySound;
    assert TidyAnswers(start.answers, |start.answers|);
  }

  /** What a batch promises to the loop. */
  ghost predicate BatchDone(base: Store, before: Past, after: Past, items: seq<MemoryEntry>, category: Category,
      r: Result<nat, ()>, d: nat, c: nat) {
    && Frame(base, after.entries, category) && Outsiders(before.entries, after.entries, items)
    && |after.entries| + d == |before.entries| + c && GoesOn(before, after) && Tallied(before, after, d, c)
    && FromItems(after.stored, |before.stored|, items, category)
    && (r.Err? && after.failures == before.failures ==> d == 0)
    && (r.Ok? ==> r.value == d)
    && (TidyAnswers(after.answers, |before.answers|) ==>
          MergesKept(after.entries, after.stored, |before.stored|) && (AllPresent(before.entries, items) ==> c == 0))
  }

  lemma CategoryInvStep(start: Past, before: Past, after: Past, total: nat, deleted: nat, recreated: nat,
      items: seq<MemoryEntry>, lo: nat, hi: nat, category: Category, r: Result<nat, ()>, d: nat, c: nat)
    requires lo <= hi <= |items| && Snapshot(start.entries, items, category)
    requires CategoryInv(start, before, total, deleted, recreated, items, lo, category)
    requires BatchDone(start.entries, before, after, items[lo..hi], category, r, d, c)
    ensures CategoryInv(start, after, total + (if r.Ok? then r.value else 0), deleted + d, recreated + c, items, hi, category)
  {
    GoesOnMeans(start, before);
    GoesOnMeans(before, after);
    GoesOnTransitive(start, before, after);
    if TidyAnswers(after.answers, |start.answers|) { TidyPrefix(before.answers, after.answers, |start.answers|); }
    hide CategorySound, Snapshot, Frame, Outsiders, FromItems, MergesKept, AllPresent, TidyAnswers, GoesOn;
    ChunkDone(start.entries, |start.stored|, before.entries, after.entries, before.stored, after.stored, deleted, recreated,
              d, c, TidyAnswers(before.answers, |start.answers|), TidyAnswers(after.answers, |start.answers|),
              items, lo, hi, category);
  }

  lemma CategoryInvMeans(start: Past, now: Past, total: nat, deleted: nat, recreated: nat, items: seq<MemoryEntry>,
      lo: nat, category: Category)
    requires lo <= |items| && CategoryInv(start, now, total, deleted, recreated, items, lo, category)
    ensures Frame(start.entries, now.entries, category)
    ensures lo == |items| ==> CategoryDoneBy(start, now, category, total, deleted, recreated)
  {
    CategoryFrame(start.entries, |start.stored|, now.entries, now.stored, deleted, recreated,
                  TidyAnswers(now.answers, |start.answers|), items, lo, category);
    hide CategorySound, Frame, MergesKept, TidyAnswers, GoesOn;
    if lo == |items| {
      CategoryEnds(start.entries, |start.stored|, now.entries, now.stored, deleted, recreated,
                   TidyAnswers(now.answers, |start.answers|), items, category);
    }
  }

  /** What the batches of a category promise: the frame, the balance, and the merged entries after tidy answers. */
  ghost predicate CategoryDoneBy(before: Past, after: Past, category: Category, total: nat, deleted: nat, recreated: nat) {
    && Frame(before.entries, after.entries, category)
    && |after.entries| + deleted == |before.entries| + recreated && Tallied(before, after, deleted, recreated)
    && GoesOn(before, after)
    && total <= deleted && (after.failures == before.failures ==> total == deleted)
    && (forall i | |before.stored| <= i < |after.stored| :: after.stored[i].category == category)
    && (TidyAnswers(after.answers, |before.answers|) ==>
          recreated == 0 && MergesKept(after.entries, after.stored, |before.stored|))
  }

  // ---- what the batches of a category, and of all categories, come to ----

  /** How far a pass has come: the store, the operations so far, what was stored, and the total to be returned. */
  datatype Passed = Passed(store: Store, clock: nat, stored: seq<MemoryEntry>, total: nat)

  function PassedSo(now: Past, total: nat): Passed {
    Passed(now.entries, now.clock, now.stored, total)
  }

  /** One batch: its deletions are added to the total, unless its clusters could not be had or a store failed. */
  function AfterBatch(o: Outside, p: Passed, items: seq<MemoryEntry>): Passed {
    var r := BatchResult(o, Progress(p.store, p.clock, p.stored, 0, false), items);
    Passed(r.store, r.clock, r.stored, p.total + (if o.clusters(p.clock).None? || r.failed then 0 else r.deleted))
  }

  /** The chunks of `batch` entries from `lo` on, one batch each; a failed one does not stop the next. */
  function AfterBatches(o: Outside, p: Passed, items: seq<MemoryEntry>, batch: nat, lo: nat): Passed
    requires batch > 0
    decreases |items| - lo
  {
    if lo >= |items| then p
    else
      var hi := if lo + batch < |items| then lo + batch else |items|;
      AfterBatches(o, AfterBatch(o, p, items[lo..hi]), items, batch, hi)
  }

  /** A listed category is left alone below five entries. */
  function AfterListing(o: Outside, p: Passed, items: seq<MemoryEntry>, batch: nat): Passed
    requires batch > 0
  {
    if |items| < 5 then p else AfterBatches(o, p, items, batch, 0)
  }

  /** The categories one after the other, each from its own listing; the global one is passed over. */
  function AfterCategories(o: Outside, p: Passed, batch: nat, categories: seq<Category>, listings: seq<seq<MemoryEntry>>): Passed
    requires batch > 0 && |listings| == |categories|
  {
    if categories == [] then p
    else
      var n := |categories| - 1;
      var q := AfterCategories(o, p, batch, categories[..n], listings[..n]);
      if categories[n].Global? then q else AfterListing(o, q.(clock := q.clock + 1), listings[n], batch)
  }

  /** All entries of the category, each once, in some order. */
  ghost predicate IsListing(m: Store, items: seq<MemoryEntry>, category: Category) {
    Snapshot(m, items, category) && forall k | k in m && m[k].category == category :: m[k] in items
  }

  /** Each listing is one of the store that the categories before it have left. */
  ghost predicate AreListings(o: Outside, p: Passed, batch: nat, categories: seq<Category>, listings: seq<seq<MemoryEntry>>)
    requires batch > 0 && |listings| == |categories|
  {
    forall i | 0 <= i < |categories| && !categories[i].Global? ::
      var q := AfterCategories(o, p, batch, categories[..i], listings[..i]);
      !o.listFails(q.clock) && IsListing(q.store, listings[i], categories[i])
  }

  /** Doing one more chunk. */
  lemma OneMoreBatch(o: Outside, p: Passed, items: seq<MemoryEntry>, batch: nat, lo: nat, hi: nat)
    requires batch > 0 && lo < |items| && hi == if lo + batch < |items| then lo + batch else |items|
    ensures AfterBatches(o, p, items, batch, lo) == AfterBatches(o, AfterBatch(o, p, items[lo..hi]), items, batch, hi)
  {
    hide AfterBatch;
  }

  lemma NoMoreBatch(o: Outside, p: Passed, items: seq<MemoryEntry>, batch: nat, lo: nat)
    requires batch > 0 && lo >= |items|
    ensures AfterBatches(o, p, items, batch, lo) == p
  {
  }

  /** What `ConsolidateBatch` does is one batch of the pass. */
  lemma BatchIsPassed(o: Outside, before: Past, after: Past, items: seq<MemoryEntry>, total: nat, r: Result<nat, ()>,
      deleted: nat)
    requires Progress(after.entries, after.clock, after.stored, deleted, after.failures > before.failures)
          == BatchResult(o, Progress(before.entries, before.clock, before.stored, 0, false), items)
    requires before.failures <= after.failures
    requires r == if o.clusters(before.clock).Some? && after.failures == before.failures then Ok(deleted) else Err(())
    ensures AfterBatch(o, PassedSo(before, total), items) == PassedSo(after, total + (if r.Ok? then r.value else 0))
  {
    hide BatchResult;
  }

  lemma OneMoreCategory(o: Outside, p: Passed, batch: nat, categories: seq<Category>, listings: seq<seq<MemoryEntry>>,
      i: nat, items: seq<MemoryEntry>)
    requires batch > 0 && i < |categories| && |listings| == i && AreListings(o, p, batch, categories[..i], listings)
    requires var q := AfterCategories(o, p, batch, categories[..i], listings);
             !categories[i].Global? ==> !o.listFails(q.clock) && IsListing(q.store, items, categories[i])
    ensures var q := AfterCategories(o, p, batch, categories[..i], listings);
            && AfterCategories(o, p, batch, categories[..i + 1], listings + [items])
               == (if categories[i].Global? then q else AfterListing(o, q.(clock := q.clock + 1), items, batch))
            && AreListings(o, p, batch, categories[..i + 1], listings + [items])
  {
    hide *;
    var c, l := categories[..i + 1], listings + [items];
    assert c[..i] == categories[..i] && l[..i] == listings;
    LastCategory(o, p, batch, c, l);
    ListingsSoFar(o, p, batch, c, l, i);
  }

  lemma ListingsSoFar(o: Outside, p: Passed, batch: nat, c: seq<Category>, l: seq<seq<MemoryEntry>>, i: nat)
    requires batch > 0 && |c| == i + 1 && |l| == i + 1 && AreListings(o, p, batch, c[..i], l[..i])
    requires var q := AfterCategories(o, p, batch, c[..i], l[..i]);
             !c[i].Global? ==> !o.listFails(q.clock) && IsListing(q.store, l[i], c[i])
    ensures AreListings(o, p, batch, c, l)
  {
    hide AfterListing, IsListing, AfterCategories;
    forall j | 0 <= j < |c| && !c[j].Global?
      ensures var q := AfterCategories(o, p, batch, c[..j], l[..j]); !o.listFails(q.clock) && IsListing(q.store, l[j], c[j])
    {
      if j < i {
        assert c[..j] == c[..i][..j] && l[..j] == l[..i][..j];
        assert c[j] == c[..i][j] && l[j] == l[..i][j];
      }
    }
  }

  lemma LastCategory(o: Outside, p: Passed, batch: nat, categories: seq<Category>, listings: seq<seq<MemoryEntry>>)
    requires batch > 0 && categories != [] && |listings| == |categories|
    ensures var n := |categories| - 1;
            var q := AfterCategories(o, p, batch, categories[..n], listings[..n]);
            AfterCategories(o, p, batch, categories, listings) ==
              if categories[n].Global? then q else AfterListing(o, q.(clock := q.clock + 1), listings[n], batch)
  {
    hide AfterListing;
  }

  lemma NoCategories(o: Outside, p: Passed, batch: nat, categories: seq<Category>)
    requires batch > 0
    ensures AfterCategories(o, p, batch, categories[..0], []) == p && AreListings(o, p, batch, categories[..0], [])
  {
  }

  /** The batches of one category. */
  method ConsolidateCategory(memory: MemoryBackend, items: seq<MemoryEntry>, batch: nat, ghost category: Category)
    returns (total: nat, ghost deleted: nat, ghost recreated: nat)
    requires batch > 0 && WellKeyed(memory.entries) && Snapshot(memory.entries, items, category)
    modifies memory
    ensures CategoryDoneBy(old(memory.PastOf()), memory.PastOf(), category, total, deleted, recreated)
    ensures PassedSo(memory.PastOf(), total) == AfterBatches(memory.outside, PassedSo(old(memory.PastOf()), 0), items, batch, 0)
  {
    hide *;
    ghost var start, o := memory.PastOf(), memory.outside;
    PastIs(memory);
    total, deleted, recreated := 0, 0, 0;
    CategoryInvBegins(start, items, category);
    var lo := 0;
    while lo < |items|
      invariant 0 <= lo <= |items|
      invariant CategoryInv(start, memory.PastOf(), total, deleted, recreated, items, lo, category)
      invariant AfterBatches(o, PassedSo(memory.PastOf(), total), items, batch, lo)
             == AfterBatches(o, PassedSo(start, 0), items, batch, 0)
      decreases |items| - lo
    {
      ghost var before := memory.PastOf();
      var hi := if lo + batch < |items| then lo + batch else |items|;
      PastIs(memory);
      CategoryInvMeans(start, before, total, deleted, recreated, items, lo, category);
      ChunkIsSnapshot(start.entries, items, lo, hi, category);
      var r;
      ghost var d, c;
      r, d, c := ConsolidateBatch(memory, items[lo..hi], start.entries, category);
      PastIs(memory);
      BatchGoesOnWith(start.entries, before, memory.PastOf(), items[lo..hi], category, r, d, c);
      BatchIsPassed(o, before, memory.PastOf(), items[lo..hi], total, r, d);
      OneMoreBatch(o, PassedSo(before, total), items, batch, lo, hi);
      CategoryInvStep(start, before, memory.PastOf(), total, deleted, recreated, items, lo, hi, category, r, d, c);
      if r.Ok? {
        total := total + r.value;
      }
      deleted, recreated := deleted + d, recreated + c;
      lo := hi;
    }
    CategoryInvMeans(start, memory.PastOf(), total, deleted, recreated, items, lo, category);
    NoMoreBatch(o, PassedSo(memory.PastOf(), total), items, batch, lo);
  }

  lemma BatchGoesOnWith(base: Store, before: Past, after: Past, items: seq<MemoryEntry>, category: Category,
      r: Result<nat, ()>, d: nat, c: nat)
    requires BatchDone(base, before, after, items, category, r, d, c)
    ensures before.failures <= after.failures
  {
  }

  /** Lists a category and, if it has enough entries, runs its batches. */
  method ListAndConsolidate(memory: MemoryBackend, batch: nat, category: Category)
    returns (r: Result<nat, ()>, ghost deleted: nat, ghost recreated: nat, ghost listing: seq<MemoryEntry>)
    requires batch > 0 && WellKeyed(memory.entries)
    modifies memory
    ensures old(memory.clock) < memory.clock && (r.Err? <==> memory.outside.listFails(old(memory.clock)))
    // exactly the batches of the listing, or nothing
    ensures r.Ok? ==> IsListing(old(memory.entries), listing, category)
    ensures var listed := PassedSo(old(memory.PastOf()), 0).(clock := old(memory.clock) + 1);
            match r
            case Ok(total) => PassedSo(memory.PastOf(), total) == AfterListing(memory.outside, listed, listing, batch)
            case Err(_) => PassedSo(memory.PastOf(), 0) == listed
    ensures CategoryDoneBy(old(memory.PastOf()), memory.PastOf(), category, if r.Ok? then r.value else deleted, deleted, recreated)
  {
    hide *;
    ghost var before := memory.PastOf();
    PastIs(memory);
    deleted, recreated, listing := 0, 0, [];
    var listed := memory.List(category);
    ghost var after := memory.PastOf();
    PastIs(memory);
    OnlyListed(before, after, category);
    if listed.Err? {
      ListingPassed(memory.outside, before, after, [], batch);
      return Err(()), 0, 0, [];
    }
    listing := listed.value;
    ListingIs(before.entries, listing, category);
    ListingPassed(memory.outside, before, after, listing, batch);
    if |listed.value| < MIN_ENTRIES_FOR_CONSOLIDATION {
      return Ok(0), 0, 0, listing;
    }
    var total;
    total, deleted, recreated := ConsolidateCategory(memory, listed.value, batch, category);
    PastIs(memory);
    ListedBefore(before, after, memory.PastOf(), category, total, deleted, recreated);
    return Ok(total), deleted, recreated, listing;
  }

  lemma ListingIs(m: Store, items: seq<MemoryEntry>, category: Category)
    requires Snapshot(m, items, category) && forall k | k in m && m[k].category == category :: m[k] in items
    ensures IsListing(m, items, category)
  {
  }

  lemma ListingPassed(o: Outside, before: Past, listed: Past, items: seq<MemoryEntry>, batch: nat)
    requires listed == before.(clock := before.clock + 1) && batch > 0
    ensures PassedSo(listed, 0) == PassedSo(before, 0).(clock := before.clock + 1) && MIN_ENTRIES_FOR_CONSOLIDATION == 5
    ensures AfterListing(o, PassedSo(listed, 0), items, batch)
         == if |items| < MIN_ENTRIES_FOR_CONSOLIDATION then PassedSo(listed, 0) else AfterBatches(o, PassedSo(listed, 0), items, batch, 0)
  {
    hide AfterBatches;
  }

  lemma OnlyListed(before: Past, after: Past, category: Category)
    requires after == before.(clock := before.clock + 1) && WellKeyed(before.entries)
    ensures CategoryDoneBy(before, after, category, 0, 0, 0)
  {
  }

  lemma ListedBefore(before: Past, listed: Past, after: Past, category: Category, total: nat, deleted: nat, recreated: nat)
    requires listed == before.(clock := before.clock + 1) && CategoryDoneBy(listed, after, category, total, deleted, recreated)
    ensures CategoryDoneBy(before, after, category, total, deleted, recreated) && before.clock < after.clock
  {
    hide Frame, MergesKept, TidyAnswers;
  }

  lemma CategoryFrame(base: Store, from: nat, m: Store, stored: seq<MemoryEntry>, deleted: nat, recreated: nat,
      tidy: bool, items: seq<MemoryEntry>, lo: nat, category: Category)
    requires lo <= |items| && CategorySound(base, from, m, stored, deleted, recreated, tidy, items, lo, category)
    ensures Frame(base, m, category)
  {
  }

  lemma CategoryEnds(base: Store, from: nat, m: Store, stored: seq<MemoryEntry>, deleted: nat, recreated: nat,
      tidy: bool, items: seq<MemoryEntry>, category: Category)
    requires CategorySound(base, from, m, stored, deleted, recreated, tidy, items, |items|, category)
    ensures Frame(base, m, category) && |m| + deleted == |base| + recreated
    ensures forall i | from <= i < |stored| :: stored[i].category == category
    ensures tidy ==> recreated == 0 && MergesKept(m, stored, from)
  {
    hide Frame, MergesKept, AllPresent;
  }

  /** No category is listed twice, except the global one, which is skipped. */
  predicate DistinctCategories(categories: seq<Category>) {
    forall i, j | 0 <= i < j < |categories| :: categories[i] != categories[j] || categories[i].Global?
  }

  /** What holds of the whole pass after `i` categories. */
  ghost predicate PassSound(start: Store, from: nat, m: Store, stored: seq<MemoryEntry>, deleted: nat, recreated: nat,
      tidy: bool, categories: seq<Category>, i: nat)
    requires i <= |categories|
  {
    && Untouched(start, m, categories) && |m| + deleted == |start| + recreated && from <= |stored|
    && (forall j | from <= j < |stored| :: stored[j].category in categories[..i])
    && (tidy ==> recreated == 0 && (DistinctCategories(categories) ==> MergesKept(m, stored, from)))
  }

  /** A category leaves the merged entries of earlier, different categories. */
  lemma CategoryKeepsMerges(before: Store, after: Store, storedBefore: seq<MemoryEntry>, stored: seq<MemoryEntry>, from: nat,
      categories: seq<Category>, i: nat)
    requires i < |categories| && DistinctCategories(categories) && Frame(before, after, categories[i])
    requires !categories[i].Global?
    requires storedBefore <= stored && forall j | from <= j < |storedBefore| :: storedBefore[j].category in categories[..i]
    requires MergesKept(before, storedBefore, from) && MergesKept(after, stored, |storedBefore|)
    ensures MergesKept(after, stored, from)
  {
    forall j | from <= j < |storedBefore| ensures stored[j].key in after && after[stored[j].key] == stored[j] {
      var x := storedBefore[j];
      assert stored[j] == x && before[x.key] == x;
      var n :| 0 <= n < i && categories[..i][n] == x.category;
      assert categories[n] != categories[i];
    }
  }

  lemma CategoryDone(start: Store, from: nat, before: Store, after: Store, storedBefore: seq<MemoryEntry>, stored: seq<MemoryEntry>,
      deleted: nat, recreated: nat, d: nat, c: nat, tidyBefore: bool, tidy: bool, categories: seq<Category>, i: nat)
    requires i < |categories| && !categories[i].Global? && (tidy ==> tidyBefore)
    requires PassSound(start, from, before, storedBefore, deleted, recreated, tidyBefore, categories, i)
    requires Frame(before, after, categories[i]) && |after| + d == |before| + c && storedBefore <= stored
    requires forall j | |storedBefore| <= j < |stored| :: stored[j].category == categories[i]
    requires tidy ==> c == 0 && MergesKept(after, stored, |storedBefore|)
    ensures PassSound(start, from, after, stored, deleted + d, recreated + c, tidy, categories, i + 1)
  {
    hide Frame, MergesKept, Untouched, DistinctCategories;
    UntouchedStep(start, before, after, categories, categories[i]);
    assert categories[..i + 1] == categories[..i] + [categories[i]];
    assert forall j | 0 <= j < |storedBefore| :: stored[j] == storedBefore[j];
    if tidy && DistinctCategories(categories) {
      CategoryKeepsMerges(before, after, storedBefore, stored, from, categories, i);
    }
  }

  lemma CategoryPassedOver(start: Store, from: nat, m: Store, stored: seq<MemoryEntry>, deleted: nat, recreated: nat,
      tidy: bool, categories: seq<Category>, i: nat)
    requires i < |categories| && PassSound(start, from, m, stored, deleted, recreated, tidy, categories, i)
    ensures PassSound(start, from, m, stored, deleted, recreated, tidy, categories, i + 1)
  {
    hide Untouched, MergesKept, DistinctCategories;
    assert categories[..i + 1] == categories[..i] + [categories[i]];
  }

  lemma PassBegins(start: Store, stored: seq<MemoryEntry>, categories: seq<Category>)
    requires WellKeyed(start)
    ensures PassSound(start, |stored|, start, stored, 0, 0, true, categories, 0)
  {
  }

  lemma PassEnds(start: Store, from: nat, m: Store, stored: seq<MemoryEntry>, deleted: nat, recreated: nat,
      tidy: bool, categories: seq<Category>, i: nat)
    requires i <= |categories| && PassSound(start, from, m, stored, deleted, recreated, tidy, categories, i)
    ensures Untouched(start, m, categories) && WellKeyed(m) && |m| + deleted == |start| + recreated
    ensures tidy ==> recreated == 0 && (DistinctCategories(categories) ==> MergesKept(m, stored, from))
  {
    hide MergesKept, DistinctCategories;
  }

  /** The loop over the categories, behind the first `i`. */
  ghost predicate PassInv(start: Past, now: Past, total: nat, deleted: nat, recreated: nat, categories: seq<Category>, i: nat)
    requires i <= |categories|
  {
    && PassSound(start.entries, |start.stored|, now.entries, now.stored, deleted, recreated,
                 TidyAnswers(now.answers, |start.answers|), categories, i)
    && total <= deleted && (now.failures == start.failures ==> total == deleted)
    && GoesOn(start, now) && Tallied(start, now, deleted, recreated)
  }

  lemma PassInvBegins(start: Past, categories: seq<Category>)
    requires WellKeyed(start.entries)
    ensures PassInv(start, start, 0, 0, 0, categories, 0)
  {
    PassBegins(start.entries, start.stored, categories);
    hide PassSound;
    assert TidyAnswers(start.answers, |start.answers|);
  }

  lemma PassInvStep(start: Past, before: Past, after: Past, total: nat, deleted: nat, recreated: nat,
      categories: seq<Category>, i: nat, t: nat, d: nat, c: nat)
    requires i < |categories| && !categories[i].Global?
    requires PassInv(start, before, total, deleted, recreated, categories, i)
    requires CategoryDoneBy(before, after, categories[i], t, d, c)
    ensures PassInv(start, after, total + t, deleted + d, recreated + c, categories, i + 1)
  {
    GoesOnMeans(start, before);
    GoesOnMeans(before, after);
    GoesOnTransitive(start, before, after);
    if TidyAnswers(after.answers, |start.answers|) { TidyPrefix(before.answers, after.answers, |start.answers|); }
    hide PassSound, Frame, MergesKept, TidyAnswers, GoesOn;
    CategoryDone(start.entries, |start.stored|, before.entries, after.entries, before.stored, after.stored, deleted,
                 recreated, d, c, TidyAnswers(before.answers, |start.answers|), TidyAnswers(after.answers, |start.answers|),
                 categories, i);
  }

  lemma PassInvPasses(start: Past, now: Past, total: nat, deleted: nat, recreated: nat, categories: seq<Category>, i: nat)
    requires i < |categories| && PassInv(start, now, total, deleted, recreated, categories, i)
    ensures PassInv(start, now, total, deleted, recreated, categories, i + 1)
  {
    hide PassSound, TidyAnswers, GoesOn;
    CategoryPassedOver(start.entries, |start.stored|, now.entries, now.stored, deleted, recreated,
                       TidyAnswers(now.answers, |start.answers|), categories, i);
  }

  /** What the whole pass promises, whatever happens. */
  ghost predicate PassDoneBy(before: Past, after: Past, categories: seq<Category>, deleted: nat, recreated: nat) {
    && Untouched(before.entries, after.entries, categories) && GoesOn(before, after)
    // the balance of keys deleted and absent keys stored
    && |after.entries| + deleted == |before.entries| + recreated && Tallied(before, after, deleted, recreated)
    // after tidy answers nothing is stored again, and no merge is lost
    && (TidyAnswers(after.answers, |before.answers|) ==>
          && recreated == 0 && |before.entries| - |after.entries| == deleted
          && (DistinctCategories(categories) ==> MergesKept(after.entries, after.stored, |before.stored|)))
  }

  lemma PassInvMeans(start: Past, now: Past, total: nat, deleted: nat, recreated: nat, categories: seq<Category>, i: nat)
    requires i <= |categories| && PassInv(start, now, total, deleted, recreated, categories, i)
    ensures PassDoneBy(start, now, categories, deleted, recreated) && WellKeyed(now.entries) && start.clock <= now.clock
    ensures total <= deleted && (now.failures == start.failures ==> total == deleted)
  {
    PassEnds(start.entries, |start.stored|, now.entries, now.stored, deleted, recreated,
             TidyAnswers(now.answers, |start.answers|), categories, i);
    hide PassSound, Untouched, TidyAnswers, MergesKept, DistinctCategories;
  }

  lemma PassedIs(now: Past, total: nat)
    ensures PassedSo(now, total) == Passed(now.entries, now.clock, now.stored, total)
  {
  }

  /** The totals of the categories add up. */
  lemma ListingAddsUp(o: Outside, before: Past, after: Past, items: seq<MemoryEntry>, batch: nat, total: nat, more: nat)
    requires batch > 0
    requires PassedSo(after, more) == AfterListing(o, PassedSo(before, 0).(clock := before.clock + 1), items, batch)
    ensures PassedSo(after, total + more) == AfterListing(o, PassedSo(before, total).(clock := before.clock + 1), items, batch)
  {
    if |items| >= 5 {
      BatchesAddUp(o, PassedSo(before, 0).(clock := before.clock + 1), items, batch, 0, total);
    }
  }

  lemma {:induction false} BatchesAddUp(o: Outside, p: Passed, items: seq<MemoryEntry>, batch: nat, lo: nat, extra: nat)
    requires batch > 0
    ensures var q := AfterBatches(o, p, items, batch, lo);
            AfterBatches(o, p.(total := p.total + extra), items, batch, lo) == q.(total := q.total + extra)
    decreases |items| - lo
  {
    if lo < |items| {
      hide BatchResult;
      var hi := if lo + batch < |items| then lo + batch else |items|;
      BatchesAddUp(o, AfterBatch(o, p, items[lo..hi]), items, batch, hi, extra);
    }
  }

  lemma DefaultIsPositive()
    ensures DEFAULT_BATCH_SIZE == 50
  {
  }

  /**
   The whole pass.  Whatever the model answers, global and unlisted entries stay as they are, no
   key is new and no category changes; with disjoint repetition-free clusters the number of keys
   drops by the deletions, and if no category is listed twice every merged entry is there at the end.
   */
  method Consolidate(memory: MemoryBackend, categories: seq<Category>, batchSize: Option<nat>)
    returns (r: Result<nat, ()>, ghost deleted: nat, ghost recreated: nat,
             ghost listings: seq<seq<MemoryEntry>>)
    requires WellKeyed(memory.entries) && batchSize != Some(0)
    modifies memory
    ensures PassDoneBy(old(memory.PastOf()), memory.PastOf(), categories, deleted, recreated)
    // what is returned are the deletions, less those of batches in which a store failed
    ensures r.Ok? ==> r.value <= deleted && (memory.failures == old(memory.failures) ==> r.value == deleted)
    // exactly the batches of each listing, category by category, up to a listing that fails
    ensures |listings| <= |categories| && (r.Ok? ==> |listings| == |categories|)
    ensures var o, batch := memory.outside, if batchSize.Some? then batchSize.value else 50;
            var p, done := PassedSo(old(memory.PastOf()), 0), categories[..|listings|];
            && AreListings(o, p, batch, done, listings)
            && var q := AfterCategories(o, p, batch, done, listings);
               match r
               case Ok(total) => PassedSo(memory.PastOf(), total) == q
               case Err(_) =>
                 && |listings| < |categories| && !categories[|listings|].Global? && o.listFails(q.clock)
                 && PassedSo(memory.PastOf(), q.total) == q.(clock := q.clock + 1)
  {
    hide *;
    var batch := if batchSize.Some? then batchSize.value else DEFAULT_BATCH_SIZE;
    ghost var start := memory.PastOf();
    PastIs(memory);
    DefaultIsPositive();
    ghost var o, p := memory.outside, PassedSo(start, 0);
    listings := [];
    NoCategories(o, p, batch, categories);
    var total: nat := 0;
    deleted, recreated := 0, 0;
    PassInvBegins(start, categories);
    for i := 0 to |categories|
      invariant PassInv(start, memory.PastOf(), total, deleted, recreated, categories, i)
      invariant |listings| == i && AreListings(o, p, batch, categories[..i], listings)
      invariant PassedSo(memory.PastOf(), total) == AfterCategories(o, p, batch, categories[..i], listings)
    {
      if categories[i].Global? {
        PassInvPasses(start, memory.PastOf(), total, deleted, recreated, categories, i);
        OneMoreCategory(o, p, batch, categories, listings, i, []);
        listings := listings + [[]];
      } else {
        ghost var before := memory.PastOf();
        PastIs(memory);
        PassInvMeans(start, before, total, deleted, recreated, categories, i);
        var n;
        ghost var d, c, listing;
        n, d, c, listing := ListAndConsolidate(memory, batch, categories[i]);
        PastIs(memory);
        PassedIs(before, total);
        PassInvStep(start, before, memory.PastOf(), total, deleted, recreated, categories, i,
                    if n.Ok? then n.value else d, d, c);
        deleted, recreated := deleted + d, recreated + c;
        if n.Err? {
          PassInvMeans(start, memory.PastOf(), total + d, deleted, recreated, categories, i + 1);
          PassedIs(memory.PastOf(), 0);
          PassedIs(memory.PastOf(), total);
          PassedIs(before, 0);
          assert categories[..|listings|] == categories[..i];
          return Err(()), deleted, recreated, listings;
        }
        OneMoreCategory(o, p, batch, categories, listings, i, listing);
        ListingAddsUp(o, before, memory.PastOf(), listing, batch, total, n.value);
        listings := listings + [listing];
        total := total + n.value;
      }
    }
    PastIs(memory);
    PassInvMeans(start, memory.PastOf(), total, deleted, recreated, categories, |categories|);
    return Ok(total), deleted, recreated, listings;
  }
}
