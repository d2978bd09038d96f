/** The discovery aggregator (NdMetaProvider): merges the raw sinks reported
    by every registered provider into meta sinks, one per physical device,
    and forwards the `discover` flag to every provider.

    A meta sink is its identity plus the ordered list of its constituent raw
    sinks. Which raw sinks denote the same device is decided by
    `nd_meta_sink_matches_sink`, whose source is not part of this model; it is
    a parameter here. Adding a constituent appends it (even when it is
    already present) and removing one removes its first occurrence. */
module MetaProvider {
  import opened Common

  datatype MetaSink = MetaSink(id: MetaId, sinks: seq<SinkId>)

  datatype Aggregator = Aggregator(
    discover: bool,
    metas: seq<MetaSink>,
    providers: seq<ProviderId>,
    nextId: MetaId)

  /** The signals the aggregator emits, in emission order. */
  datatype AggEvent =
    | MetaAdded(meta: MetaSink)
    | MetaRemoved(id: MetaId)
    | DiscoverForwarded(provider: ProviderId, on: bool)
    | HasProvidersNotified(has: bool)

  /** The outcome of an operation that cannot fail. */
  datatype Emitted = Emitted(agg: Aggregator, events: seq<AggEvent>)

  /** The outcome of an operation guarded by `g_assert`. */
  datatype AggResult = Done(agg: Aggregator, events: seq<AggEvent>) | AssertionFailed

  /** `nd_meta_sink_matches_sink (meta_sink, sink)`, given the constituents. */
  type Matcher = (seq<SinkId>, SinkId) -> bool

  /** A fresh aggregator: discovery on, nothing known. */
  function Init(): (a: Aggregator)
    ensures a.discover && a.metas == [] && a.providers == []
  {
    Aggregator(true, [], [], 0)
  }

  /* ---------------------------------------------------------------- */
  /* Invariants                                                        */

  ghost predicate DistinctIds(metas: seq<MetaSink>)
  {
    forall i, j :: 0 <= i < j < |metas| ==> metas[i].id != metas[j].id
  }

  function Ids(metas: seq<MetaSink>): set<MetaId>
  {
    set m | m in metas :: m.id
  }

  /** No meta sink in the list is empty. */
  ghost predicate NoEmptyMeta(metas: seq<MetaSink>)
  {
    forall m :: m in metas ==> m.sinks != []
  }

  /** What every reachable aggregator satisfies. */
  ghost predicate Valid(a: Aggregator)
  {
    && NoEmptyMeta(a.metas)
    && DistinctIds(a.metas)
    && (forall m :: m in a.metas ==> m.id < a.nextId)
    && (forall i, j :: 0 <= i < j < |a.providers| ==> a.providers[i] != a.providers[j])
  }

  /** The constituents of the meta sink with that identity ([] if none). */
  function SinksOf(metas: seq<MetaSink>, id: MetaId): seq<SinkId>
  {
    if |metas| == 0 then [] else if metas[0].id == id then metas[0].sinks else SinksOf(metas[1..], id)
  }

  /** Every raw sink held by some meta sink, with multiplicity. */
  function AllSinks(metas: seq<MetaSink>): multiset<SinkId>
  {
    if |metas| == 0 then multiset{} else multiset(metas[0].sinks) + AllSinks(metas[1..])
  }

  function HasProviders(a: Aggregator): bool
  {
    |a.providers| > 0
  }

  lemma InitValid()
    ensures Valid(Init())
  {
  }

  /* ---------------------------------------------------------------- */
  /* List helpers                                                      */

  /** The meta sinks that match `s`, in list order. */
  function Matching(metas: seq<MetaSink>, s: SinkId, matches: Matcher): (r: seq<MetaSink>)
    ensures |r| <= |metas|
    ensures forall m :: m in r ==> m in metas && matches(m.sinks, s)
    ensures forall i :: 0 <= i < |metas| && matches(metas[i].sinks, s) ==> metas[i] in r
  {
    if |metas| == 0 then []
    else if matches(metas[0].sinks, s) then [metas[0]] + Matching(metas[1..], s, matches)
    else Matching(metas[1..], s, matches)
  }

  /** The first of the matches is the first matching meta sink in list order. */
  lemma {:induction false} MatchingFirst(metas: seq<MetaSink>, s: SinkId, matches: Matcher, k: nat)
    requires k < |metas| && matches(metas[k].sinks, s)
    requires forall j :: 0 <= j < k ==> !matches(metas[j].sinks, s)
    ensures Matching(metas, s, matches) != [] && Matching(metas, s, matches)[0] == metas[k]
    decreases k
  {
    if k > 0 {
      MatchingFirst(metas[1..], s, matches, k - 1);
    }
  }

  lemma {:induction false} MatchingDistinct(metas: seq<MetaSink>, s: SinkId, matches: Matcher)
    requires DistinctIds(metas)
    ensures DistinctIds(Matching(metas, s, matches))
    decreases |metas|
  {
    if |metas| > 0 {
      DistinctCons(metas);
      MatchingDistinct(metas[1..], s, matches);
      var rest := Matching(metas[1..], s, matches);
      if matches(metas[0].sinks, s) {
        var r := [metas[0]] + rest;
        assert r[1..] == rest;
        forall m | m in rest ensures m.id != metas[0].id {
          assert m in metas[1..];
        }
        DistinctCons(r);
      }
    }
  }

  /** The order in which `g_ptr_array_remove_index_fast (arr, 0)` drains an
      array: the first element, then the last moved to the front, and so on. */
  function FastDrainOrder<T>(xs: seq<T>): (r: seq<T>)
    ensures |r| == |xs|
    decreases |xs|
  {
    if |xs| <= 1 then xs
    else [xs[0]] + FastDrainOrder([xs[|xs| - 1]] + xs[1..|xs| - 1])
  }

  /** Draining visits every element exactly once. */
  lemma {:induction false} FastDrainIsPermutation<T>(xs: seq<T>)
    ensures multiset(FastDrainOrder(xs)) == multiset(xs)
    decreases |xs|
  {
    if |xs| > 1 {
      var ys := [xs[|xs| - 1]] + xs[1..|xs| - 1];
      FastDrainIsPermutation(ys);
      assert xs == [xs[0]] + xs[1..|xs| - 1] + [xs[|xs| - 1]];
    }
  }

  lemma {:induction false} FastDrainKeepsDistinctIds(xs: seq<MetaSink>)
    requires DistinctIds(xs)
    ensures DistinctIds(FastDrainOrder(xs))
    decreases |xs|
  {
    if |xs| > 1 {
      var ys := [xs[|xs| - 1]] + xs[1..|xs| - 1];
      RotateKeepsDistinct(xs);
      FastDrainKeepsDistinctIds(ys);
      FastDrainIsPermutation(ys);
      var rest := FastDrainOrder(ys);
      SameMultisetSameIds(rest, ys);
      DistinctCons([xs[0]] + rest);
      assert ([xs[0]] + rest)[1..] == rest;
    }
  }

  /** One step of the drain order: the last element moves to the front of
      the remainder, which keeps identities distinct and leaves out the head's. */
  lemma RotateKeepsDistinct(xs: seq<MetaSink>)
    requires DistinctIds(xs) && |xs| > 1
    ensures DistinctIds([xs[|xs| - 1]] + xs[1..|xs| - 1])
    ensures xs[0].id !in Ids([xs[|xs| - 1]] + xs[1..|xs| - 1])
  {
    var ys := [xs[|xs| - 1]] + xs[1..|xs| - 1];
    forall i, j | 0 <= i < j < |ys| ensures ys[i].id != ys[j].id {
      assert ys[j] == xs[j];
      if i == 0 { assert ys[i] == xs[|xs| - 1]; } else { assert ys[i] == xs[i]; }
    }
    forall m | m in ys ensures m.id != xs[0].id {
      var k :| 0 <= k < |ys| && ys[k] == m;
      if k == 0 { assert m == xs[|xs| - 1]; } else { assert m == xs[k]; }
    }
  }

  /** Lists holding the same meta sinks have the same identities. */
  lemma SameMultisetSameIds(a: seq<MetaSink>, b: seq<MetaSink>)
    requires multiset(a) == multiset(b)
    ensures Ids(a) == Ids(b)
  {
    forall m ensures m in a <==> m in b {
      assert m in a <==> m in multiset(a);
      assert m in b <==> m in multiset(b);
    }
  }

  /** `g_ptr_array_remove`: drops the first meta sink with that identity. */
  function RemoveById(metas: seq<MetaSink>, id: MetaId): (r: seq<MetaSink>)
    ensures |r| <= |metas|
    ensures forall m :: m in r ==> m in metas
    ensures forall m :: m in metas && m.id != id ==> m in r
  {
    if |metas| == 0 then []
    else if metas[0].id == id then metas[1..]
    else [metas[0]] + RemoveById(metas[1..], id)
  }

  /** Appends `xs` to the constituents of the first meta sink with that identity. */
  function AppendTo(metas: seq<MetaSink>, id: MetaId, xs: seq<SinkId>): (r: seq<MetaSink>)
    ensures |r| == |metas|
    ensures forall i :: 0 <= i < |metas| ==> r[i].id == metas[i].id
    ensures forall m :: m in metas && m.id != id ==> m in r
  {
    if |metas| == 0 then []
    else
      assert metas == [metas[0]] + metas[1..];
      if metas[0].id == id then [metas[0].(sinks := metas[0].sinks + xs)] + metas[1..]
      else [metas[0]] + AppendTo(metas[1..], id, xs)
  }

  function RemovedEvents(drain: seq<MetaSink>): (r: seq<AggEvent>)
    ensures |r| == |drain|
    ensures forall i :: 0 <= i < |drain| ==> r[i] == MetaRemoved(drain[i].id)
  {
    if |drain| == 0 then [] else [MetaRemoved(drain[0].id)] + RemovedEvents(drain[1..])
  }

  /** The merge loop: every meta sink of `drain`, in turn, leaves the list
      and hands its constituents to the survivor. */
  function MergeLoop(metas: seq<MetaSink>, survivor: MetaId, drain: seq<MetaSink>): seq<MetaSink>
    decreases |drain|
  {
    if |drain| == 0 then metas
    else MergeLoop(AppendTo(RemoveById(metas, drain[0].id), survivor, drain[0].sinks), survivor, drain[1..])
  }

  /** Removes the first occurrence of `s`. */
  function RemoveFirst(xs: seq<SinkId>, s: SinkId): (r: seq<SinkId>)
    ensures s in xs ==> multiset(r) + multiset{s} == multiset(xs)
    ensures s !in xs ==> r == xs
  {
    if |xs| == 0 then []
    else
      assert xs == [xs[0]] + xs[1..];
      if xs[0] == s then xs[1..]
      else [xs[0]] + RemoveFirst(xs[1..], s)
  }

  /** The index of the first meta sink holding `s`, if any. */
  function IndexHolding(metas: seq<MetaSink>, s: SinkId): (r: Option<nat>)
    ensures r.Some? ==> r.value < |metas| && s in metas[r.value].sinks
    ensures r.Some? ==> forall j :: 0 <= j < r.value ==> s !in metas[j].sinks
    ensures r.None? ==> forall i :: 0 <= i < |metas| ==> s !in metas[i].sinks
  {
    if |metas| == 0 then None
    else if s in metas[0].sinks then Some(0)
    else
      match IndexHolding(metas[1..], s)
      case None => None
      case Some(k) => Some(k + 1)
  }

  /* ---------------------------------------------------------------- */
  /* Operations                                                        */

  /** provider_sink_added_cb. */
  function AddSink(a: Aggregator, s: SinkId, matches: Matcher): (r: Emitted)
    // no match: a new one-constituent meta sink at the end, announced once
    ensures Matching(a.metas, s, matches) == [] ==>
              && r.agg.metas == a.metas + [MetaSink(a.nextId, [s])]
              && r.events == [MetaAdded(MetaSink(a.nextId, [s]))]
    // some match: nothing is announced as added
    ensures Matching(a.metas, s, matches) != [] ==>
              forall e :: e in r.events ==> e.MetaRemoved?
    ensures r.agg.discover == a.discover && r.agg.providers == a.providers
    ensures r.agg.nextId >= a.nextId
  {
    var found := Matching(a.metas, s, matches);
    if |found| == 0 then
      var m := MetaSink(a.nextId, [s]);
      Emitted(a.(metas := a.metas + [m], nextId := a.nextId + 1), [MetaAdded(m)])
    else
      var drain := FastDrainOrder(found[1..]);
      var merged := MergeLoop(a.metas, found[0].id, drain);
      Emitted(a.(metas := AppendTo(merged, found[0].id, [s])), RemovedEvents(drain))
  }

  /** provider_sink_removed_cb: a sink no meta sink holds is an assertion failure. */
  function RemoveSink(a: Aggregator, s: SinkId): (r: AggResult)
    ensures r.AssertionFailed? <==> forall i :: 0 <= i < |a.metas| ==> s !in a.metas[i].sinks
    ensures r.Done? ==> r.agg.discover == a.discover && r.agg.providers == a.providers
                        && r.agg.nextId == a.nextId
  {
    match IndexHolding(a.metas, s)
    case None => AssertionFailed
    case Some(k) =>
      var m := a.metas[k];
      var rest := RemoveFirst(m.sinks, s);
      if |rest| == 0 then Done(a.(metas := a.metas[..k] + a.metas[k + 1..]), [MetaRemoved(m.id)])
      else Done(a.(metas := a.metas[k := m.(sinks := rest)]), [])
  }

  /** The `discover` setter: stores the flag and forwards it to every provider. */
  function SetDiscover(a: Aggregator, on: bool): (r: Emitted)
    ensures r.agg.discover == on
    ensures r.agg.metas == a.metas && r.agg.providers == a.providers && r.agg.nextId == a.nextId
    ensures |r.events| == |a.providers|
    ensures forall i :: 0 <= i < |a.providers| ==> r.events[i] == DiscoverForwarded(a.providers[i], on)
  {
    Emitted(a.(discover := on), Forwards(a.providers, on))
  }

  function Forwards(ps: seq<ProviderId>, on: bool): (r: seq<AggEvent>)
    ensures |r| == |ps|
    ensures forall i :: 0 <= i < |ps| ==> r[i] == DiscoverForwarded(ps[i], on)
  {
    if |ps| == 0 then [] else [DiscoverForwarded(ps[0], on)] + Forwards(ps[1..], on)
  }

  /** Replays sinks through the add path, in order. */
  function AddAll(a: Aggregator, sinks: seq<SinkId>, matches: Matcher): (r: Emitted)
    ensures r.agg.discover == a.discover && r.agg.providers == a.providers
    decreases |sinks|
  {
    if |sinks| == 0 then Emitted(a, [])
    else
      var first := AddSink(a, sinks[0], matches);
      var rest := AddAll(first.agg, sinks[1..], matches);
      Emitted(rest.agg, first.events + rest.events)
  }

  /** Replays sinks through the removal path, in order; stops at the first failure. */
  function RemoveAll(a: Aggregator, sinks: seq<SinkId>): (r: AggResult)
    ensures r.Done? ==> r.agg.discover == a.discover && r.agg.providers == a.providers
    decreases |sinks|
  {
    if |sinks| == 0 then Done(a, [])
    else
      match RemoveSink(a, sinks[0])
      case AssertionFailed => AssertionFailed
      case Done(a1, e1) =>
        match RemoveAll(a1, sinks[1..])
        case AssertionFailed => AssertionFailed
        case Done(a2, e2) => Done(a2, e1 + e2)
  }

  /** nd_meta_provider_add_provider; `sinks` is what the provider's
      get_sinks returns at that moment. */
  function AddProvider(a: Aggregator, p: ProviderId, sinks: seq<SinkId>, matches: Matcher): (r: AggResult)
    ensures r.AssertionFailed? <==> p in a.providers
    ensures r.Done? ==> r.agg.providers == a.providers + [p]
    ensures r.Done? ==> |r.events| >= 2 && r.events[0] == DiscoverForwarded(p, a.discover)
                        && r.events[|r.events| - 1] == HasProvidersNotified(true)
  {
    if p in a.providers then AssertionFailed
    else
      var added := AddAll(a.(providers := a.providers + [p]), sinks, matches);
      Done(added.agg, [DiscoverForwarded(p, a.discover)] + added.events + [HasProvidersNotified(HasProviders(added.agg))])
  }

  /** Drops the first occurrence of a provider. */
  function Unregister(ps: seq<ProviderId>, p: ProviderId): (r: seq<ProviderId>)
    ensures p in ps ==> |r| == |ps| - 1
    ensures forall q :: q in r ==> q in ps
    ensures forall q :: q in ps && q != p ==> q in r
  {
    if |ps| == 0 then []
    else if ps[0] == p then ps[1..]
    else [ps[0]] + Unregister(ps[1..], p)
  }

  /** nd_meta_provider_remove_provider: first replays the provider's sinks
      through the removal path, then asserts it was registered. */
  function RemoveProvider(a: Aggregator, p: ProviderId, sinks: seq<SinkId>): (r: AggResult)
    ensures r.Done? ==> p in a.providers && r.agg.providers == Unregister(a.providers, p)
    ensures r.Done? ==> |r.events| >= 1
                        && r.events[|r.events| - 1] == HasProvidersNotified(|r.agg.providers| > 0)
    ensures p !in a.providers ==> r.AssertionFailed?
  {
    match RemoveAll(a, sinks)
    case AssertionFailed => AssertionFailed
    case Done(a1, events) =>
      if p !in a1.providers then AssertionFailed
      else
        var a2 := a1.(providers := Unregister(a1.providers, p));
        Done(a2, events + [HasProvidersNotified(HasProviders(a2))])
  }

  /** nd_meta_provider_provider_get_sinks: built by prepending, so the meta
      sinks come out in reverse list order. */
  function GetSinks(a: Aggregator): (r: seq<MetaSink>)
    ensures |r| == |a.metas|
    ensures forall i :: 0 <= i < |r| ==> r[i] == a.metas[|a.metas| - 1 - i]
  {
    Reverse(a.metas)
  }

  function Reverse<T>(xs: seq<T>): (r: seq<T>)
    ensures |r| == |xs|
    ensures forall i :: 0 <= i < |r| ==> r[i] == xs[|xs| - 1 - i]
  {
    if |xs| == 0 then [] else Reverse(xs[1..]) + [xs[0]]
  }

  /* ---------------------------------------------------------------- */
  /* Lemmas: list structure                                            */

  lemma IdsCons(metas: seq<MetaSink>)
    requires |metas| > 0
    ensures Ids(metas) == {metas[0].id} + Ids(metas[1..])
  {
    assert metas == [metas[0]] + metas[1..];
  }

  lemma DistinctCons(metas: seq<MetaSink>)
    requires |metas| > 0
    ensures DistinctIds(metas) <==> metas[0].id !in Ids(metas[1..]) && DistinctIds(metas[1..])
  {
    var tail := metas[1..];
    if DistinctIds(metas) {
      forall m | m in tail ensures m.id != metas[0].id {
        var j :| 0 <= j < |tail| && tail[j] == m;
        assert metas[j + 1] == m;
      }
      forall i, j | 0 <= i < j < |tail| ensures tail[i].id != tail[j].id {
        assert tail[i] == metas[i + 1] && tail[j] == metas[j + 1];
      }
    }
    if metas[0].id !in Ids(tail) && DistinctIds(tail) {
      forall i, j | 0 <= i < j < |metas| ensures metas[i].id != metas[j].id {
        if i == 0 {
          assert metas[j] in tail;
        } else {
          assert metas[i] == tail[i - 1] && metas[j] == tail[j - 1];
        }
      }
    }
  }

  /** Under distinct identities, the head is the only meta sink with its id. */
  lemma HeadIsOnlyOne(metas: seq<MetaSink>, o: MetaSink)
    requires DistinctIds(metas) && o in metas && |metas| > 0
    ensures o.id == metas[0].id <==> o == metas[0]
  {
    DistinctCons(metas);
    assert metas == [metas[0]] + metas[1..];
    assert o != metas[0] ==> o in metas[1..] && o.id in Ids(metas[1..]);
  }

  lemma {:induction false} AllSinksAppend(xs: seq<MetaSink>, ys: seq<MetaSink>)
    ensures AllSinks(xs + ys) == AllSinks(xs) + AllSinks(ys)
    decreases |xs|
  {
    if |xs| == 0 {
      assert xs + ys == ys;
    } else {
      assert (xs + ys)[0] == xs[0];
      assert (xs + ys)[1..] == xs[1..] + ys;
      AllSinksAppend(xs[1..], ys);
    }
  }

  /** Taking one meta sink out of a list takes out exactly its sinks. */
  lemma {:induction false} AllSinksRemoveAt(ys: seq<MetaSink>, k: nat)
    requires k < |ys|
    ensures AllSinks(ys) == AllSinks(ys[..k] + ys[k + 1..]) + multiset(ys[k].sinks)
    decreases k
  {
    var rest := ys[..k] + ys[k + 1..];
    if k == 0 {
      assert rest == ys[1..];
    } else {
      AllSinksRemoveAt(ys[1..], k - 1);
      assert ys[1..][..k - 1] + ys[1..][k..] == rest[1..];
      assert rest[0] == ys[0];
    }
  }

  lemma MultisetRemoveAt(ys: seq<MetaSink>, k: nat)
    requires k < |ys|
    ensures multiset(ys[..k] + ys[k + 1..]) == multiset(ys) - multiset{ys[k]}
  {
    assert ys == ys[..k] + [ys[k]] + ys[k + 1..];
  }

  /** Reordering meta sinks does not change which raw sinks they hold. */
  lemma {:induction false} AllSinksPermutation(xs: seq<MetaSink>, ys: seq<MetaSink>)
    requires multiset(xs) == multiset(ys)
    ensures AllSinks(xs) == AllSinks(ys)
    decreases |xs|
  {
    if |xs| == 0 {
      assert |ys| == |multiset(ys)| == 0;
    } else {
      var x := xs[0];
      assert x in multiset(ys);
      var k :| 0 <= k < |ys| && ys[k] == x;
      MultisetRemoveAt(ys, k);
      assert xs == [x] + xs[1..];
      assert multiset(xs[1..]) == multiset(xs) - multiset{x};
      AllSinksPermutation(xs[1..], ys[..k] + ys[k + 1..]);
      AllSinksRemoveAt(ys, k);
    }
  }

  /* ---------------------------------------------------------------- */
  /* Lemmas: removing and extending one meta sink                      */

  lemma {:induction false} RemoveByIdSinks(metas: seq<MetaSink>, o: MetaSink)
    requires DistinctIds(metas) && o in metas
    ensures AllSinks(RemoveById(metas, o.id)) + multiset(o.sinks) == AllSinks(metas)
    decreases |metas|
  {
    HeadIsOnlyOne(metas, o);
    if metas[0].id != o.id {
      DistinctCons(metas);
      assert metas == [metas[0]] + metas[1..];
      RemoveByIdSinks(metas[1..], o);
      var rest := RemoveById(metas[1..], o.id);
      assert ([metas[0]] + rest)[1..] == rest;
    }
  }

  lemma {:induction false} RemoveByIdIds(metas: seq<MetaSink>, id: MetaId)
    requires DistinctIds(metas)
    ensures Ids(RemoveById(metas, id)) == Ids(metas) - {id}
    ensures DistinctIds(RemoveById(metas, id))
    decreases |metas|
  {
    if |metas| > 0 {
      IdsCons(metas);
      DistinctCons(metas);
      if metas[0].id != id {
        RemoveByIdIds(metas[1..], id);
        var r := RemoveById(metas, id);
        assert r[0] == metas[0] && r[1..] == RemoveById(metas[1..], id);
        IdsCons(r);
        DistinctCons(r);
      }
    }
  }

  lemma {:induction false} RemoveByIdSinksOf(metas: seq<MetaSink>, id: MetaId, other: MetaId)
    requires other != id
    ensures SinksOf(RemoveById(metas, id), other) == SinksOf(metas, other)
    decreases |metas|
  {
    if |metas| > 0 && metas[0].id != id {
      RemoveByIdSinksOf(metas[1..], id, other);
      var r := RemoveById(metas, id);
      assert r[0] == metas[0] && r[1..] == RemoveById(metas[1..], id);
    }
  }

  lemma {:induction false} AppendToSinks(metas: seq<MetaSink>, id: MetaId, xs: seq<SinkId>)
    requires id in Ids(metas)
    ensures AllSinks(AppendTo(metas, id, xs)) == AllSinks(metas) + multiset(xs)
    decreases |metas|
  {
    IdsCons(metas);
    var r := AppendTo(metas, id, xs);
    if metas[0].id == id {
      assert r[1..] == metas[1..];
    } else {
      AppendToSinks(metas[1..], id, xs);
      assert r[1..] == AppendTo(metas[1..], id, xs);
    }
  }

  lemma AppendToIds(metas: seq<MetaSink>, id: MetaId, xs: seq<SinkId>)
    ensures Ids(AppendTo(metas, id, xs)) == Ids(metas)
    ensures DistinctIds(metas) ==> DistinctIds(AppendTo(metas, id, xs))
  {
    var r := AppendTo(metas, id, xs);
    forall x ensures x in Ids(r) <==> x in Ids(metas) {
      if x in Ids(r) {
        var m :| m in r && m.id == x;
        var j :| 0 <= j < |r| && r[j] == m;
        assert metas[j] in metas;
      }
      if x in Ids(metas) {
        var m :| m in metas && m.id == x;
        var j :| 0 <= j < |metas| && metas[j] == m;
        assert r[j] in r;
      }
    }
  }

  lemma {:induction false} AppendToNoEmpty(metas: seq<MetaSink>, id: MetaId, xs: seq<SinkId>)
    requires NoEmptyMeta(metas)
    ensures NoEmptyMeta(AppendTo(metas, id, xs))
    decreases |metas|
  {
    if |metas| > 0 {
      var r := AppendTo(metas, id, xs);
      assert metas[0] in metas;
      if metas[0].id == id {
        assert r == [r[0]] + metas[1..];
      } else {
        assert NoEmptyMeta(metas[1..]);
        AppendToNoEmpty(metas[1..], id, xs);
        assert r == [metas[0]] + AppendTo(metas[1..], id, xs);
      }
    }
  }

  lemma {:induction false} AppendToSinksOf(metas: seq<MetaSink>, id: MetaId, xs: seq<SinkId>, other: MetaId)
    requires id in Ids(metas)
    ensures SinksOf(AppendTo(metas, id, xs), other)
            == if other == id then SinksOf(metas, id) + xs else SinksOf(metas, other)
    decreases |metas|
  {
    IdsCons(metas);
    var r := AppendTo(metas, id, xs);
    if metas[0].id == id {
      assert r[1..] == metas[1..];
    } else {
      AppendToSinksOf(metas[1..], id, xs, other);
      assert r[0] == metas[0] && r[1..] == AppendTo(metas[1..], id, xs);
    }
  }

  /** SinksOf finds the one meta sink carrying that identity. */
  lemma {:induction false} SinksOfMember(metas: seq<MetaSink>, m: MetaSink)
    requires DistinctIds(metas) && m in metas
    ensures SinksOf(metas, m.id) == m.sinks
    decreases |metas|
  {
    HeadIsOnlyOne(metas, m);
    if metas[0] != m {
      DistinctCons(metas);
      assert metas == [metas[0]] + metas[1..];
      SinksOfMember(metas[1..], m);
    }
  }

  /* ---------------------------------------------------------------- */
  /* Lemmas: the merge loop                                            */

  /** What the merge loop relies on: the survivor is in the list and every
      meta sink still to be drained is a distinct other member of it. */
  ghost predicate Drainable(metas: seq<MetaSink>, survivor: MetaId, drain: seq<MetaSink>)
  {
    && DistinctIds(metas)
    && survivor in Ids(metas)
    && DistinctIds(drain)
    && (forall o :: o in drain ==> o in metas && o.id != survivor)
  }

  /** A meta sink still waiting to be drained survives one iteration. */
  lemma DrainMember(metas: seq<MetaSink>, survivor: MetaId, drain: seq<MetaSink>, x: MetaSink)
    requires Drainable(metas, survivor, drain) && |drain| > 0 && x in drain[1..]
    ensures x in AppendTo(RemoveById(metas, drain[0].id), survivor, drain[0].sinks)
    ensures x.id != survivor
  {
    DistinctCons(drain);
    assert x in drain;
    assert x.id in Ids(drain[1..]);
    assert x in RemoveById(metas, drain[0].id);
  }

  /** One iteration of the merge loop keeps the loop's precondition. */
  lemma DrainStep(metas: seq<MetaSink>, survivor: MetaId, drain: seq<MetaSink>)
    requires Drainable(metas, survivor, drain) && |drain| > 0
    ensures Drainable(AppendTo(RemoveById(metas, drain[0].id), survivor, drain[0].sinks), survivor, drain[1..])
    ensures Ids(AppendTo(RemoveById(metas, drain[0].id), survivor, drain[0].sinks)) == Ids(metas) - {drain[0].id}
  {
    var o := drain[0];
    var m1 := RemoveById(metas, o.id);
    RemoveByIdIds(metas, o.id);
    AppendToIds(m1, survivor, o.sinks);
    DistinctCons(drain);
    assert o in drain;
    forall x | x in drain[1..] ensures x in AppendTo(m1, survivor, o.sinks) && x.id != survivor {
      DrainMember(metas, survivor, drain, x);
    }
  }

  lemma {:induction false} MergeLoopSinks(metas: seq<MetaSink>, survivor: MetaId, drain: seq<MetaSink>)
    requires Drainable(metas, survivor, drain)
    ensures AllSinks(MergeLoop(metas, survivor, drain)) == AllSinks(metas)
    decreases |drain|
  {
    if |drain| > 0 {
      var o := drain[0];
      var m1 := RemoveById(metas, o.id);
      RemoveByIdSinks(metas, o);
      RemoveByIdIds(metas, o.id);
      AppendToSinks(m1, survivor, o.sinks);
      DrainStep(metas, survivor, drain);
      MergeLoopSinks(AppendTo(m1, survivor, o.sinks), survivor, drain[1..]);
    }
  }

  lemma {:induction false} MergeLoopIds(metas: seq<MetaSink>, survivor: MetaId, drain: seq<MetaSink>)
    requires Drainable(metas, survivor, drain)
    ensures Ids(MergeLoop(metas, survivor, drain)) == Ids(metas) - Ids(drain)
    ensures DistinctIds(MergeLoop(metas, survivor, drain))
    decreases |drain|
  {
    if |drain| > 0 {
      DrainStep(metas, survivor, drain);
      IdsCons(drain);
      MergeLoopIds(AppendTo(RemoveById(metas, drain[0].id), survivor, drain[0].sinks), survivor, drain[1..]);
    }
  }

  lemma {:induction false} MergeLoopNoEmpty(metas: seq<MetaSink>, survivor: MetaId, drain: seq<MetaSink>)
    requires Drainable(metas, survivor, drain) && NoEmptyMeta(metas)
    ensures NoEmptyMeta(MergeLoop(metas, survivor, drain))
    decreases |drain|
  {
    if |drain| > 0 {
      var m1 := RemoveById(metas, drain[0].id);
      AppendToNoEmpty(m1, survivor, drain[0].sinks);
      DrainStep(metas, survivor, drain);
      MergeLoopNoEmpty(AppendTo(m1, survivor, drain[0].sinks), survivor, drain[1..]);
    }
  }

  /** The survivor ends up holding its own constituents followed by those
      of every drained meta sink. */
  lemma {:induction false} MergeLoopSurvivor(metas: seq<MetaSink>, survivor: MetaId, drain: seq<MetaSink>)
    requires Drainable(metas, survivor, drain)
    ensures multiset(SinksOf(MergeLoop(metas, survivor, drain), survivor))
            == multiset(SinksOf(metas, survivor)) + AllSinks(drain)
    decreases |drain|
  {
    if |drain| > 0 {
      var o := drain[0];
      var m1 := RemoveById(metas, o.id);
      RemoveByIdIds(metas, o.id);
      RemoveByIdSinksOf(metas, o.id, survivor);
      AppendToSinksOf(m1, survivor, o.sinks, survivor);
      DrainStep(metas, survivor, drain);
      MergeLoopSurvivor(AppendTo(m1, survivor, o.sinks), survivor, drain[1..]);
    }
  }

  /* ---------------------------------------------------------------- */
  /* Lemmas: the operations                                            */

  /** The meta sinks a merge drains: the non-first matches, in drain order. */
  function Others(a: Aggregator, s: SinkId, matches: Matcher): seq<MetaSink>
    requires Matching(a.metas, s, matches) != []
  {
    FastDrainOrder(Matching(a.metas, s, matches)[1..])
  }

  /** The drain order visits exactly the non-first matches. */
  lemma OthersAreNonFirstMatches(a: Aggregator, s: SinkId, matches: Matcher)
    requires Matching(a.metas, s, matches) != []
    ensures multiset(Others(a, s, matches)) == multiset(Matching(a.metas, s, matches)[1..])
    ensures Ids(Others(a, s, matches)) == Ids(Matching(a.metas, s, matches)[1..])
  {
    var others := Matching(a.metas, s, matches)[1..];
    var drain := Others(a, s, matches);
    FastDrainIsPermutation(others);
    forall m ensures m in drain <==> m in others {
      assert m in drain <==> m in multiset(drain);
    }
  }

  /** The facts the merge branch of AddSink starts from. */
  lemma MergeSetup(a: Aggregator, s: SinkId, matches: Matcher)
    requires Valid(a)
    requires Matching(a.metas, s, matches) != []
    ensures Drainable(a.metas, Matching(a.metas, s, matches)[0].id, Others(a, s, matches))
  {
    var found := Matching(a.metas, s, matches);
    var others := found[1..];
    var drain := Others(a, s, matches);
    MatchingDistinct(a.metas, s, matches);
    DistinctCons(found);
    FastDrainKeepsDistinctIds(others);
    OthersAreNonFirstMatches(a, s, matches);
    assert found[0] in a.metas;
    forall o | o in drain ensures o in a.metas && o.id != found[0].id {
      assert o in multiset(others);
      assert o.id in Ids(others);
    }
  }

  /** Adding a sink keeps the aggregator valid and adds exactly that sink
      to the raw sinks held overall. */
  lemma AddSinkValid(a: Aggregator, s: SinkId, matches: Matcher)
    requires Valid(a)
    ensures Valid(AddSink(a, s, matches).agg)
    ensures AllSinks(AddSink(a, s, matches).agg.metas) == AllSinks(a.metas) + multiset{s}
  {
    var found := Matching(a.metas, s, matches);
    var r := AddSink(a, s, matches);
    if |found| == 0 {
      var m := MetaSink(a.nextId, [s]);
      AllSinksAppend(a.metas, [m]);
      assert r.agg.metas == a.metas + [m];
      forall i, j | 0 <= i < j < |r.agg.metas| ensures r.agg.metas[i].id != r.agg.metas[j].id {
        if j == |a.metas| { assert r.agg.metas[i] in a.metas; }
      }
    } else {
      MergeSetup(a, s, matches);
      var drain := Others(a, s, matches);
      var merged := MergeLoop(a.metas, found[0].id, drain);
      MergeLoopSinks(a.metas, found[0].id, drain);
      MergeLoopIds(a.metas, found[0].id, drain);
      MergeLoopNoEmpty(a.metas, found[0].id, drain);
      assert found[0].id in Ids(merged) by {
        MatchingDistinct(a.metas, s, matches);
        DistinctCons(found);
      }
      AppendToSinks(merged, found[0].id, [s]);
      AppendToIds(merged, found[0].id, [s]);
      AppendToNoEmpty(merged, found[0].id, [s]);
      forall m | m in r.agg.metas ensures m.id < r.agg.nextId {
        assert m.id in Ids(r.agg.metas);
        var o :| o in a.metas && o.id == m.id;
      }
    }
  }

  /** A sink that matches at least one meta sink: the first match in list
      order survives and now holds its old constituents, those of every
      other match and the new sink; every other match leaves the list. */
  lemma AddSinkMerges(a: Aggregator, s: SinkId, matches: Matcher)
    requires Valid(a)
    requires Matching(a.metas, s, matches) != []
    ensures var found := Matching(a.metas, s, matches);
            var r := AddSink(a, s, matches);
            && Ids(r.agg.metas) == Ids(a.metas) - Ids(found[1..])
            && found[0].id in Ids(r.agg.metas)
            && multiset(SinksOf(r.agg.metas, found[0].id))
               == multiset(found[0].sinks) + AllSinks(found[1..]) + multiset{s}
  {
    var found := Matching(a.metas, s, matches);
    MergeSetup(a, s, matches);
    OthersAreNonFirstMatches(a, s, matches);
    var drain := Others(a, s, matches);
    var merged := MergeLoop(a.metas, found[0].id, drain);
    MergeLoopIds(a.metas, found[0].id, drain);
    MergeLoopSurvivor(a.metas, found[0].id, drain);
    AllSinksPermutation(drain, found[1..]);
    assert found[0].id in Ids(merged) by {
      MatchingDistinct(a.metas, s, matches);
      DistinctCons(found);
    }
    AppendToIds(merged, found[0].id, [s]);
    AppendToSinksOf(merged, found[0].id, [s], found[0].id);
    SinksOfMember(a.metas, found[0]);
  }

  lemma RemovedEventsIds(drain: seq<MetaSink>)
    ensures forall id :: MetaRemoved(id) in RemovedEvents(drain) <==> id in Ids(drain)
  {
    var r := RemovedEvents(drain);
    forall id ensures MetaRemoved(id) in r <==> id in Ids(drain) {
      if MetaRemoved(id) in r {
        var i :| 0 <= i < |r| && r[i] == MetaRemoved(id);
        assert drain[i] in drain;
      }
      if id in Ids(drain) {
        var m :| m in drain && m.id == id;
        var i :| 0 <= i < |drain| && drain[i] == m;
        assert r[i] == MetaRemoved(id);
      }
    }
  }

  /** The merge announces the removal of every other match, one event per
      match, and nothing else. */
  lemma AddSinkMergeEvents(a: Aggregator, s: SinkId, matches: Matcher)
    requires Matching(a.metas, s, matches) != []
    ensures var found := Matching(a.metas, s, matches);
            var r := AddSink(a, s, matches);
            && |r.events| == |found| - 1
            && (forall id :: MetaRemoved(id) in r.events <==> id in Ids(found[1..]))
  {
    OthersAreNonFirstMatches(a, s, matches);
    RemovedEventsIds(Others(a, s, matches));
    assert AddSink(a, s, matches).events == RemovedEvents(Others(a, s, matches));
  }

  lemma AllSinksAt(metas: seq<MetaSink>, k: nat)
    requires k < |metas|
    ensures AllSinks(metas) == AllSinks(metas[..k]) + multiset(metas[k].sinks) + AllSinks(metas[k + 1..])
  {
    assert metas == metas[..k] + metas[k..];
    AllSinksAppend(metas[..k], metas[k..]);
    assert metas[k..][1..] == metas[k + 1..];
  }

  /** Dropping the meta sink at position k keeps the others, in order. */
  lemma DeleteAt(metas: seq<MetaSink>, k: nat)
    requires k < |metas|
    ensures forall m :: m in metas[..k] + metas[k + 1..] ==> m in metas
    ensures forall m :: m in metas && m != metas[k] ==> m in metas[..k] + metas[k + 1..]
    ensures DistinctIds(metas) ==> DistinctIds(metas[..k] + metas[k + 1..])
  {
    var r := metas[..k] + metas[k + 1..];
    assert metas == metas[..k] + [metas[k]] + metas[k + 1..];
    if DistinctIds(metas) {
      forall i, j | 0 <= i < j < |r| ensures r[i].id != r[j].id {
        if j < k {
          assert r[i] == metas[i] && r[j] == metas[j];
        } else if i < k {
          assert r[i] == metas[i] && r[j] == metas[j + 1];
        } else {
          assert r[i] == metas[i + 1] && r[j] == metas[j + 1];
        }
      }
    }
  }

  /** Replacing the meta sink at position k by one with the same identity. */
  lemma ReplaceAt(metas: seq<MetaSink>, k: nat, x: MetaSink)
    requires k < |metas| && x.id == metas[k].id
    ensures AllSinks(metas[k := x]) == AllSinks(metas[..k]) + multiset(x.sinks) + AllSinks(metas[k + 1..])
    ensures forall m :: m in metas[k := x] ==> m in metas || m == x
    ensures Ids(metas[k := x]) == Ids(metas)
    ensures DistinctIds(metas) ==> DistinctIds(metas[k := x])
  {
    var r := metas[k := x];
    assert r[..k] == metas[..k] && r[k + 1..] == metas[k + 1..];
    AllSinksAt(r, k);
    forall m | m in r ensures m in metas || m == x {
      var i :| 0 <= i < |r| && r[i] == m;
      assert i != k ==> m == metas[i];
    }
    forall id ensures id in Ids(r) <==> id in Ids(metas) {
      if id in Ids(r) {
        var m :| m in r && m.id == id;
        var i :| 0 <= i < |r| && r[i] == m;
        assert metas[i] in metas && metas[i].id == id;
      }
      if id in Ids(metas) {
        var m :| m in metas && m.id == id;
        var i :| 0 <= i < |metas| && metas[i] == m;
        assert r[i] in r && r[i].id == id;
      }
    }
  }

  /** How a successful removal reshapes the list. */
  lemma RemoveSinkShape(a: Aggregator, s: SinkId)
    requires RemoveSink(a, s).Done?
    ensures var k := IndexHolding(a.metas, s).value;
            var m := a.metas[k];
            var r := RemoveSink(a, s);
            && multiset(RemoveFirst(m.sinks, s)) + multiset{s} == multiset(m.sinks)
            && (m.sinks == [s] ==> r.agg.metas == a.metas[..k] + a.metas[k + 1..]
                                   && r.events == [MetaRemoved(m.id)])
            && (m.sinks != [s] ==> r.agg.metas == a.metas[k := m.(sinks := RemoveFirst(m.sinks, s))]
                                   && r.events == []
                                   && RemoveFirst(m.sinks, s) != [])
  {
    var k := IndexHolding(a.metas, s).value;
    var m := a.metas[k];
    var rest := RemoveFirst(m.sinks, s);
    assert |multiset(rest)| + 1 == |multiset(m.sinks)|;
    if |rest| == 0 {
      assert multiset(m.sinks) == multiset{s};
      assert |m.sinks| == 1 && m.sinks[0] in multiset(m.sinks);
      assert m.sinks == [m.sinks[0]];
    } else {
      assert |m.sinks| != 1;
    }
  }

  /** A successful removal takes exactly one occurrence of the sink out of
      the raw sinks held overall. */
  lemma RemoveSinkConserves(a: Aggregator, s: SinkId)
    requires RemoveSink(a, s).Done?
    ensures AllSinks(RemoveSink(a, s).agg.metas) + multiset{s} == AllSinks(a.metas)
  {
    var k := IndexHolding(a.metas, s).value;
    var m := a.metas[k];
    var before := AllSinks(a.metas[..k]);
    var after := AllSinks(a.metas[k + 1..]);
    var rest := RemoveFirst(m.sinks, s);
    RemoveSinkShape(a, s);
    AllSinksAt(a.metas, k);
    assert AllSinks(a.metas) == before + (multiset(rest) + multiset{s}) + after;
    if m.sinks == [s] {
      AllSinksAppend(a.metas[..k], a.metas[k + 1..]);
      assert AllSinks(RemoveSink(a, s).agg.metas) == before + after;
      assert rest == [];
    } else {
      ReplaceAt(a.metas, k, m.(sinks := rest));
      assert AllSinks(RemoveSink(a, s).agg.metas) == before + multiset(rest) + after;
    }
  }

  /** Removing a sink keeps the aggregator valid: in particular no meta
      sink is left empty. */
  lemma RemoveSinkValid(a: Aggregator, s: SinkId)
    requires Valid(a)
    requires RemoveSink(a, s).Done?
    ensures Valid(RemoveSink(a, s).agg)
  {
    var k := IndexHolding(a.metas, s).value;
    var m := a.metas[k];
    RemoveSinkShape(a, s);
    if m.sinks == [s] {
      DeleteAt(a.metas, k);
    } else {
      ReplaceAt(a.metas, k, m.(sinks := RemoveFirst(m.sinks, s)));
    }
  }

  /** The meta sink a removal acts on is the first one, in list order, that
      holds the sink: if the sink was its only constituent it leaves the
      list and is announced removed; otherwise it stays, loses one
      occurrence of the sink, and nothing is announced. */
  lemma RemoveSinkOutcome(a: Aggregator, s: SinkId, k: nat)
    requires Valid(a)
    requires k < |a.metas| && s in a.metas[k].sinks
    requires forall j :: 0 <= j < k ==> s !in a.metas[j].sinks
    ensures var m := a.metas[k];
            var r := RemoveSink(a, s);
            && r.Done?
            && (m.sinks == [s] ==>
                  r.events == [MetaRemoved(m.id)] && Ids(r.agg.metas) == Ids(a.metas) - {m.id})
            && (m.sinks != [s] ==>
                  && r.events == [] && Ids(r.agg.metas) == Ids(a.metas)
                  && multiset(SinksOf(r.agg.metas, m.id)) + multiset{s} == multiset(m.sinks))
  {
    var m := a.metas[k];
    assert IndexHolding(a.metas, s) == Some(k);
    RemoveSinkShape(a, s);
    var r := RemoveSink(a, s);
    if m.sinks == [s] {
      DeleteAt(a.metas, k);
      var rest := a.metas[..k] + a.metas[k + 1..];
      forall x ensures x in Ids(rest) <==> x in Ids(a.metas) - {m.id} {
        if x in Ids(a.metas) - {m.id} {
          var o :| o in a.metas && o.id == x;
        }
      }
    } else {
      var x := m.(sinks := RemoveFirst(m.sinks, s));
      ReplaceAt(a.metas, k, x);
      assert a.metas[k := x][k] == x;
      SinksOfMember(a.metas[k := x], x);
    }
  }

  lemma SplitHead(xs: seq<SinkId>)
    requires |xs| > 0
    ensures multiset(xs) == multiset{xs[0]} + multiset(xs[1..])
  {
    assert xs == [xs[0]] + xs[1..];
  }

  lemma AddUp(x: multiset<SinkId>, y: multiset<SinkId>, z: multiset<SinkId>,
              d1: multiset<SinkId>, d2: multiset<SinkId>)
    requires y == x + d1 && z == y + d2
    ensures z == x + (d1 + d2) && z == x + (d2 + d1)
  {
  }

  /** Replaying sightings keeps the aggregator valid and adds them all. */
  lemma {:induction false} AddAllValid(a: Aggregator, sinks: seq<SinkId>, matches: Matcher)
    requires Valid(a)
    ensures Valid(AddAll(a, sinks, matches).agg)
    ensures AllSinks(AddAll(a, sinks, matches).agg.metas) == AllSinks(a.metas) + multiset(sinks)
    decreases |sinks|
  {
    if |sinks| > 0 {
      var a1 := AddSink(a, sinks[0], matches).agg;
      AddSinkValid(a, sinks[0], matches);
      AddAllValid(a1, sinks[1..], matches);
      assert AddAll(a, sinks, matches).agg == AddAll(a1, sinks[1..], matches).agg;
      SplitHead(sinks);
      AddUp(AllSinks(a.metas), AllSinks(a1.metas), AllSinks(AddAll(a1, sinks[1..], matches).agg.metas),
            multiset{sinks[0]}, multiset(sinks[1..]));
    }
  }

  /** Replaying removals that all succeed keeps the aggregator valid and
      removes them all. */
  lemma {:induction false} RemoveAllValid(a: Aggregator, sinks: seq<SinkId>)
    requires Valid(a)
    requires RemoveAll(a, sinks).Done?
    ensures Valid(RemoveAll(a, sinks).agg)
    ensures AllSinks(RemoveAll(a, sinks).agg.metas) + multiset(sinks) == AllSinks(a.metas)
    decreases |sinks|
  {
    if |sinks| > 0 {
      var r1 := RemoveSink(a, sinks[0]);
      assert r1.Done?;
      RemoveSinkValid(a, sinks[0]);
      RemoveSinkConserves(a, sinks[0]);
      var r2 := RemoveAll(r1.agg, sinks[1..]);
      assert r2.Done?;
      RemoveAllValid(r1.agg, sinks[1..]);
      assert RemoveAll(a, sinks).agg == r2.agg;
      SplitHead(sinks);
      AddUp(AllSinks(r2.agg.metas), AllSinks(r1.agg.metas), AllSinks(a.metas),
            multiset(sinks[1..]), multiset{sinks[0]});
    }
  }

  lemma {:induction false} UnregisterDistinct(ps: seq<ProviderId>, p: ProviderId)
    requires forall i, j :: 0 <= i < j < |ps| ==> ps[i] != ps[j]
    ensures var r := Unregister(ps, p);
            (forall i, j :: 0 <= i < j < |r| ==> r[i] != r[j]) && p !in r
    decreases |ps|
  {
    if |ps| > 0 {
      assert ps == [ps[0]] + ps[1..];
      assert ps[0] !in ps[1..];
      if ps[0] != p {
        UnregisterDistinct(ps[1..], p);
        var r := Unregister(ps, p);
        assert r == [ps[0]] + Unregister(ps[1..], p);
      }
    }
  }

  /** Registering and unregistering providers keep the aggregator valid;
      afterwards the provider is registered exactly once, respectively not
      at all. */
  lemma ProvidersValid(a: Aggregator, p: ProviderId, sinks: seq<SinkId>, matches: Matcher)
    requires Valid(a)
    ensures AddProvider(a, p, sinks, matches).Done? ==>
              Valid(AddProvider(a, p, sinks, matches).agg)
              && HasProviders(AddProvider(a, p, sinks, matches).agg)
    ensures RemoveProvider(a, p, sinks).Done? ==>
              Valid(RemoveProvider(a, p, sinks).agg) && p !in RemoveProvider(a, p, sinks).agg.providers
  {
    if p !in a.providers {
      AddAllValid(a.(providers := a.providers + [p]), sinks, matches);
    }
    if RemoveAll(a, sinks).Done? {
      RemoveAllValid(a, sinks);
      UnregisterDistinct(RemoveAll(a, sinks).agg.providers, p);
    }
  }

  /** Adding a sink appends it even when its meta sink already holds it.
      So a sink that providers report more often than they withdraw it is
      still held afterwards: a device reported twice and withdrawn once
      stays listed. */
  lemma DuplicateSightingOutlivesRemoval(a: Aggregator, s: SinkId, reported: seq<SinkId>,
                                         withdrawn: seq<SinkId>, matches: Matcher)
    requires Valid(a)
    requires multiset(withdrawn)[s] < multiset(reported)[s]
    ensures var r := RemoveAll(AddAll(a, reported, matches).agg, withdrawn);
            r.Done? ==> s in AllSinks(r.agg.metas)
  {
    var added := AddAll(a, reported, matches).agg;
    AddAllValid(a, reported, matches);
    if RemoveAll(added, withdrawn).Done? {
      RemoveAllValid(added, withdrawn);
      var left := RemoveAll(added, withdrawn).agg;
      StillCounted(AllSinks(left.metas), multiset(withdrawn), AllSinks(added.metas),
                   AllSinks(a.metas), multiset(reported), s);
    }
  }

  lemma StillCounted(left: multiset<SinkId>, withdrawn: multiset<SinkId>, mid: multiset<SinkId>,
                     before: multiset<SinkId>, reported: multiset<SinkId>, s: SinkId)
    requires left + withdrawn == mid && mid == before + reported
    requires withdrawn[s] < reported[s]
    ensures s in left
  {
    assert left[s] + withdrawn[s] == mid[s] == before[s] + reported[s];
  }

  /* ---------------------------------------------------------------- */
  /* Announcements                                                     */

  /** How one signal changes what a listener believes the identities are. */
  function HeardOne(known: set<MetaId>, e: AggEvent): set<MetaId>
  {
    match e
    case MetaAdded(m) => known + {m.id}
    case MetaRemoved(id) => known - {id}
    case _ => known
  }

  /** What a listener that starts from `known` and follows the signals in
      order believes the identities are. */
  function Heard(known: set<MetaId>, events: seq<AggEvent>): set<MetaId>
    decreases |events|
  {
    if |events| == 0 then known else Heard(HeardOne(known, events[0]), events[1..])
  }

  lemma {:induction false} HeardAppend(known: set<MetaId>, e1: seq<AggEvent>, e2: seq<AggEvent>)
    ensures Heard(known, e1 + e2) == Heard(Heard(known, e1), e2)
    decreases |e1|
  {
    if |e1| > 0 {
      assert (e1 + e2)[0] == e1[0];
      assert (e1 + e2)[1..] == e1[1..] + e2;
      HeardAppend(HeardOne(known, e1[0]), e1[1..], e2);
    } else {
      assert e1 + e2 == e2;
    }
  }

  /** A listener that believes fewer identities keeps believing fewer. */
  lemma {:induction false} HeardMonotone(small: set<MetaId>, big: set<MetaId>, events: seq<AggEvent>)
    requires small <= big
    ensures Heard(small, events) <= Heard(big, events)
    decreases |events|
  {
    if |events| > 0 {
      HeardMonotone(HeardOne(small, events[0]), HeardOne(big, events[0]), events[1..]);
    }
  }

  lemma {:induction false} HeardRemoved(known: set<MetaId>, drain: seq<MetaSink>)
    ensures Heard(known, RemovedEvents(drain)) == known - Ids(drain)
    decreases |drain|
  {
    if |drain| > 0 {
      var r := RemovedEvents(drain);
      assert r[1..] == RemovedEvents(drain[1..]);
      HeardRemoved(known - {drain[0].id}, drain[1..]);
      IdsCons(drain);
    }
  }

  /** Signals that name no meta sink change nobody's belief. */
  lemma {:induction false} HeardForwards(known: set<MetaId>, ps: seq<ProviderId>, on: bool)
    ensures Heard(known, Forwards(ps, on)) == known
    decreases |ps|
  {
    if |ps| > 0 {
      assert Forwards(ps, on)[1..] == Forwards(ps[1..], on);
      HeardForwards(known, ps[1..], on);
    }
  }

  /** The signals of one sighting describe the change exactly: a listener
      that knew the list before knows it afterwards. */
  lemma AddSinkHeard(a: Aggregator, s: SinkId, matches: Matcher)
    requires Valid(a)
    ensures Heard(Ids(a.metas), AddSink(a, s, matches).events) == Ids(AddSink(a, s, matches).agg.metas)
  {
    var found := Matching(a.metas, s, matches);
    var r := AddSink(a, s, matches);
    if |found| == 0 {
      var m := MetaSink(a.nextId, [s]);
      assert r.events[1..] == [];
      assert Ids(a.metas + [m]) == Ids(a.metas) + {m.id} by {
        assert forall x :: x in a.metas + [m] <==> x in a.metas || x == m;
      }
    } else {
      AddSinkMerges(a, s, matches);
      OthersAreNonFirstMatches(a, s, matches);
      assert r.events == RemovedEvents(Others(a, s, matches));
      HeardRemoved(Ids(a.metas), Others(a, s, matches));
    }
  }

  /** The signals of one withdrawal describe the change exactly. */
  lemma RemoveSinkHeard(a: Aggregator, s: SinkId)
    requires Valid(a) && RemoveSink(a, s).Done?
    ensures Heard(Ids(a.metas), RemoveSink(a, s).events) == Ids(RemoveSink(a, s).agg.metas)
  {
    var k := IndexHolding(a.metas, s).value;
    RemoveSinkOutcome(a, s, k);
    var r := RemoveSink(a, s);
    if r.events != [] {
      assert r.events[1..] == [];
    }
  }

  lemma {:induction false} AddAllHeard(a: Aggregator, sinks: seq<SinkId>, matches: Matcher)
    requires Valid(a)
    ensures Heard(Ids(a.metas), AddAll(a, sinks, matches).events) == Ids(AddAll(a, sinks, matches).agg.metas)
    decreases |sinks|
  {
    if |sinks| > 0 {
      var first := AddSink(a, sinks[0], matches);
      AddSinkHeard(a, sinks[0], matches);
      AddSinkValid(a, sinks[0], matches);
      AddAllHeard(first.agg, sinks[1..], matches);
      HeardAppend(Ids(a.metas), first.events, AddAll(first.agg, sinks[1..], matches).events);
    }
  }

  lemma {:induction false} RemoveAllHeard(a: Aggregator, sinks: seq<SinkId>)
    requires Valid(a) && RemoveAll(a, sinks).Done?
    ensures Heard(Ids(a.metas), RemoveAll(a, sinks).events) == Ids(RemoveAll(a, sinks).agg.metas)
    decreases |sinks|
  {
    if |sinks| > 0 {
      var r1 := RemoveSink(a, sinks[0]);
      assert r1.Done?;
      RemoveSinkHeard(a, sinks[0]);
      RemoveSinkValid(a, sinks[0]);
      var r2 := RemoveAll(r1.agg, sinks[1..]);
      assert r2.Done?;
      RemoveAllHeard(r1.agg, sinks[1..]);
      HeardAppend(Ids(a.metas), r1.events, r2.events);
    }
  }

  /** Every operation's signals describe its change of the meta-sink list
      exactly: a listener that knew the list before and follows the added
      and removed signals in order knows it afterwards. */
  lemma OperationsAnnounceChanges(a: Aggregator, p: ProviderId, sinks: seq<SinkId>, on: bool, matches: Matcher)
    requires Valid(a)
    ensures Heard(Ids(a.metas), SetDiscover(a, on).events) == Ids(SetDiscover(a, on).agg.metas)
    ensures AddProvider(a, p, sinks, matches).Done? ==>
              Heard(Ids(a.metas), AddProvider(a, p, sinks, matches).events)
              == Ids(AddProvider(a, p, sinks, matches).agg.metas)
    ensures RemoveProvider(a, p, sinks).Done? ==>
              Heard(Ids(a.metas), RemoveProvider(a, p, sinks).events)
              == Ids(RemoveProvider(a, p, sinks).agg.metas)
  {
    HeardForwards(Ids(a.metas), a.providers, on);
    if p !in a.providers {
      var a1 := a.(providers := a.providers + [p]);
      var added := AddAll(a1, sinks, matches);
      AddAllHeard(a1, sinks, matches);
      var e := [DiscoverForwarded(p, a.discover)];
      var last := [HasProvidersNotified(HasProviders(added.agg))];
      assert AddProvider(a, p, sinks, matches).events == e + added.events + last;
      HeardAppend(Ids(a.metas), e + added.events, last);
      HeardAppend(Ids(a.metas), e, added.events);
    }
    if RemoveProvider(a, p, sinks).Done? {
      var r := RemoveAll(a, sinks);
      RemoveAllHeard(a, sinks);
      HeardAppend(Ids(a.metas), r.events, [HasProvidersNotified(|RemoveProvider(a, p, sinks).agg.providers| > 0)]);
    }
  }

  /** Sightings and withdrawals only ever announce meta sinks. */
  predicate ListEvent(e: AggEvent)
  {
    e.MetaAdded? || e.MetaRemoved?
  }

  lemma {:induction false} AddAllListEvents(a: Aggregator, sinks: seq<SinkId>, matches: Matcher)
    ensures forall e :: e in AddAll(a, sinks, matches).events ==> ListEvent(e)
    decreases |sinks|
  {
    if |sinks| > 0 {
      AddAllListEvents(AddSink(a, sinks[0], matches).agg, sinks[1..], matches);
    }
  }

  lemma {:induction false} RemoveAllListEvents(a: Aggregator, sinks: seq<SinkId>)
    requires RemoveAll(a, sinks).Done?
    ensures forall e :: e in RemoveAll(a, sinks).events ==> ListEvent(e)
    decreases |sinks|
  {
    if |sinks| > 0 {
      var r1 := RemoveSink(a, sinks[0]);
      RemoveAllListEvents(r1.agg, sinks[1..]);
    }
  }
}
