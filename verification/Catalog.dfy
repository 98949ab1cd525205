/** A provider's model list: a static baseline overlaid by models fetched at run time. */
module Catalog {
  import opened Options

  datatype Model = Model(id: string, provider: string, details: string)

  /** First model with an id, or -1, and last one. */
  function First(models: seq<Model>, id: string): (k: int)
    ensures -1 <= k < |models|
    ensures k >= 0 ==> models[k].id == id
    ensures forall i :: 0 <= i < (if k < 0 then |models| else k) ==> models[i].id != id
  {
    if models == [] then -1
    else
      var k := First(models[..|models| - 1], id);
      if k >= 0 then k
      else if models[|models| - 1].id == id then |models| - 1
      else -1
  }

  function Last(models: seq<Model>, id: string): (k: int)
    ensures -1 <= k < |models|
    ensures k >= 0 ==> models[k].id == id
    ensures forall i :: k < i < |models| ==> models[i].id != id
  {
    if models == [] then -1
    else if models[|models| - 1].id == id then |models| - 1
    else Last(models[..|models| - 1], id)
  }

  function Upsert(models: seq<Model>, m: Model): seq<Model> {
    var k := First(models, m.id);
    if k >= 0 then models[k := m] else models + [m]
  }

  function Overlay(baseline: seq<Model>, fetched: seq<Model>): seq<Model> {
    if fetched == [] then baseline
    else Upsert(Overlay(baseline, fetched[..|fetched| - 1]), fetched[|fetched| - 1])
  }

  function OfProvider(models: seq<Model>, provider: string): seq<Model> {
    if models == [] then []
    else
      OfProvider(models[..|models| - 1], provider)
      + if models[|models| - 1].provider == provider then [models[|models| - 1]] else []
  }

  /** The models of one provider, all of them and in order: model `k` is the one at `places[k]`. */
  lemma {:induction false} OfProviderInOrder(models: seq<Model>, provider: string) returns (places: seq<nat>)
    ensures |places| == |OfProvider(models, provider)|
    ensures forall k :: 0 <= k < |places| ==>
              places[k] < |models| && models[places[k]] == OfProvider(models, provider)[k] && models[places[k]].provider == provider
    ensures forall j, k :: 0 <= j < k < |places| ==> places[j] < places[k]
    ensures forall i :: 0 <= i < |models| && models[i].provider == provider ==> i in places
  {
    if models == [] {
      places := [];
    } else {
      var n := |models| - 1;
      var before := OfProviderInOrder(models[..n], provider);
      places := before + if models[n].provider == provider then [n] else [];
      forall i | 0 <= i < |models| && models[i].provider == provider ensures i in places {
        if i < n {
          assert models[..n][i].provider == provider;
        }
      }
    }
  }

  /** How the network part of a refresh ends. */
  datatype Fetch = Thrown | Fetched(models: seq<Model>)

  class Provider {
    const id: string
    const baselineModels: seq<Model>
    var dynamicModels: seq<Model>

    constructor (id: string, models: seq<Model>)
      ensures this.id == id && baselineModels == models && dynamicModels == []
    {
      this.id, baselineModels, dynamicModels := id, models, [];
    }

    method CurrentModels() returns (merged: seq<Model>)
      ensures merged == Overlay(baselineModels, dynamicModels)
    {
      merged := baselineModels;
      for i := 0 to |dynamicModels|
        invariant merged == Overlay(baselineModels, dynamicModels[..i])
      {
        var model := dynamicModels[i];
        var index := FindIndex(merged, model.id);
        assert dynamicModels[..i + 1][..i] == dynamicModels[..i];
        if index >= 0 {
          merged := merged[index := model];
        } else {
          merged := merged + [model];
        }
      }
      assert dynamicModels[..|dynamicModels|] == dynamicModels;
    }

    /** Restores what was stored, then fetches. `written` is what goes to the store. */
    method RefreshModels(stored: Option<seq<Model>>, allowNetwork: bool, abortedBefore: bool, fetch: Fetch, abortedAfter: bool)
      returns (written: Option<seq<Model>>, thrown: bool)
      modifies this
      ensures var online := allowNetwork && !abortedBefore;
              && thrown == (online && fetch.Thrown?)
              && written == (if online && fetch.Fetched? && !abortedAfter then Some(fetch.models) else None)
              && dynamicModels == (if written.Some? then written.value
                                   else if stored.Some? then OfProvider(stored.value, id)
                                   else old(dynamicModels))
    {
      written, thrown := None, false;
      if stored.Some? {
        dynamicModels := [];
        for i := 0 to |stored.value|
          invariant dynamicModels == OfProvider(stored.value[..i], id)
        {
          assert stored.value[..i + 1][..i] == stored.value[..i];
          if stored.value[i].provider == id {
            dynamicModels := dynamicModels + [stored.value[i]];
          }
        }
        assert stored.value[..|stored.value|] == stored.value;
      }
      if !allowNetwork || abortedBefore {
        return;
      }
      if fetch.Thrown? {
        thrown := true;
        return;
      }
      if abortedAfter {
        return;
      }
      dynamicModels := fetch.models;
      written := Some(fetch.models);
    }
  }

  method FindIndex(models: seq<Model>, id: string) returns (k: int)
    ensures k == First(models, id)
  {
    for i := 0 to |models|
      invariant forall j :: 0 <= j < i ==> models[j].id != id
    {
      if models[i].id == id {
        return i;
      }
    }
    return -1;
  }

  // What the overlay holds

  function Ids(models: seq<Model>): (ids: seq<string>)
    ensures |ids| == |models|
    ensures forall k :: 0 <= k < |ids| ==> ids[k] == models[k].id
  {
    seq(|models|, k requires 0 <= k < |models| => models[k].id)
  }

  /** Ids of fetched models the baseline lacks, in the order they are first seen. */
  function NewIds(baseline: seq<Model>, fetched: seq<Model>): (ids: seq<string>) {
    if fetched == [] then []
    else
      var ids, id := NewIds(baseline, fetched[..|fetched| - 1]), fetched[|fetched| - 1].id;
      if First(baseline, id) >= 0 || id in ids then ids else ids + [id]
  }

  lemma FirstIs(models: seq<Model>, id: string, k: int)
    requires -1 <= k < |models| && (k >= 0 ==> models[k].id == id)
    requires forall i :: 0 <= i < (if k < 0 then |models| else k) ==> models[i].id != id
    ensures First(models, id) == k
  {
  }

  lemma FirstAfterUpsert(models: seq<Model>, m: Model, id: string)
    ensures First(Upsert(models, m), id)
            == if First(models, id) >= 0 then First(models, id) else if id == m.id then |models| else -1
  {
    FirstIs(Upsert(models, m), id,
            if First(models, id) >= 0 then First(models, id) else if id == m.id then |models| else -1);
  }

  /** Positions are kept and new ids follow in the order first seen. */
  lemma {:induction false} OverlayIds(baseline: seq<Model>, fetched: seq<Model>)
    ensures Ids(Overlay(baseline, fetched)) == Ids(baseline) + NewIds(baseline, fetched)
  {
    if fetched != [] {
      var init, last := fetched[..|fetched| - 1], fetched[|fetched| - 1];
      OverlayIds(baseline, init);
      var merged := Overlay(baseline, init);
      var k := First(merged, last.id);
      IdPlaces(merged, baseline, NewIds(baseline, init), last.id);
      if k >= 0 {
        assert Ids(merged[k := last]) == Ids(merged);
      } else {
        assert Ids(merged + [last]) == Ids(merged) + [last.id];
      }
    }
  }

  lemma IdPlaces(merged: seq<Model>, baseline: seq<Model>, ids: seq<string>, id: string)
    requires Ids(merged) == Ids(baseline) + ids
    ensures First(merged, id) >= 0 <==> First(baseline, id) >= 0 || id in ids
  {
    assert |merged| == |baseline| + |ids|;
    forall k | 0 <= k < |baseline| ensures merged[k].id == baseline[k].id {
      assert Ids(merged)[k] == Ids(baseline)[k];
    }
    forall k | 0 <= k < |ids| ensures merged[|baseline| + k].id == ids[k] {
      assert Ids(merged)[|baseline| + k] == ids[k];
    }
    var k := First(merged, id);
    if k >= |baseline| { assert merged[|baseline| + (k - |baseline|)].id == ids[k - |baseline|]; }
  }

  /** Each place holds the last fetched model of its id if it is the first place of that id, and
      what the baseline has there otherwise. */
  lemma {:induction false} OverlayPlaces(baseline: seq<Model>, fetched: seq<Model>, i: nat)
    requires i < |Overlay(baseline, fetched)|
    ensures var merged := Overlay(baseline, fetched);
            var id := merged[i].id;
            if First(merged, id) == i && Last(fetched, id) >= 0 then merged[i] == fetched[Last(fetched, id)]
            else i < |baseline| && merged[i] == baseline[i]
  {
    if fetched != [] {
      var init, last := fetched[..|fetched| - 1], fetched[|fetched| - 1];
      var before := Overlay(baseline, init);
      var id := Overlay(baseline, fetched)[i].id;
      FirstAfterUpsert(before, last, id);
      if i < |before| {
        OverlayPlaces(baseline, init, i);
      }
    }
  }

  /** Looking up an id gives the last fetched model of that id, or else the baseline's. */
  lemma OverlayLookup(baseline: seq<Model>, fetched: seq<Model>, id: string)
    ensures var merged := Overlay(baseline, fetched);
            var k := First(merged, id);
            if Last(fetched, id) >= 0 then k >= 0 && merged[k] == fetched[Last(fetched, id)]
            else if First(baseline, id) >= 0 then k >= 0 && merged[k] == baseline[First(baseline, id)]
            else k < 0
  {
    OverlayFirst(baseline, fetched, id);
    var k := First(Overlay(baseline, fetched), id);
    if k >= 0 { OverlayPlaces(baseline, fetched, k); }
  }

  lemma {:induction false} OverlayFirst(baseline: seq<Model>, fetched: seq<Model>, id: string)
    ensures var k := First(Overlay(baseline, fetched), id);
            && (First(baseline, id) >= 0 ==> k == First(baseline, id))
            && (k >= 0 <==> First(baseline, id) >= 0 || Last(fetched, id) >= 0)
  {
    if fetched != [] {
      OverlayFirst(baseline, fetched[..|fetched| - 1], id);
      FirstAfterUpsert(Overlay(baseline, fetched[..|fetched| - 1]), fetched[|fetched| - 1], id);
    }
  }

  ghost predicate UniqueIds(models: seq<Model>) {
    forall i, j :: 0 <= i < j < |models| ==> models[i].id != models[j].id
  }

  /** Ids are unique exactly when the baseline's are. */
  lemma {:induction false} OverlayUnique(baseline: seq<Model>, fetched: seq<Model>)
    ensures UniqueIds(Overlay(baseline, fetched)) <==> UniqueIds(baseline)
  {
    if fetched != [] {
      OverlayUnique(baseline, fetched[..|fetched| - 1]);
      UpsertUnique(Overlay(baseline, fetched[..|fetched| - 1]), fetched[|fetched| - 1]);
    }
  }

  lemma UpsertUnique(models: seq<Model>, m: Model)
    ensures UniqueIds(Upsert(models, m)) <==> UniqueIds(models)
  {
    var next := Upsert(models, m);
    assert forall i :: 0 <= i < |models| ==> next[i].id == models[i].id;
  }

  /** Overlaying the same models again changes nothing. */
  lemma OverlayTwice(baseline: seq<Model>, fetched: seq<Model>)
    ensures Overlay(Overlay(baseline, fetched), fetched) == Overlay(baseline, fetched)
  {
    var merged := Overlay(baseline, fetched);
    var again := Overlay(merged, fetched);
    OverlayIds(merged, fetched);
    NothingNew(baseline, fetched, fetched);
    forall i | 0 <= i < |merged| ensures again[i] == merged[i] {
      assert Ids(again)[i] == Ids(merged)[i];
      OverlayPlaces(merged, fetched, i);
      OverlayFirst(merged, fetched, merged[i].id);
      OverlayPlaces(baseline, fetched, i);
    }
  }

  lemma {:induction false} NothingNew(baseline: seq<Model>, fetched: seq<Model>, some: seq<Model>)
    requires some <= fetched
    ensures NewIds(Overlay(baseline, fetched), some) == []
    decreases |some|
  {
    if some != [] {
      var init, last := some[..|some| - 1], some[|some| - 1];
      NothingNew(baseline, fetched, init);
      assert fetched[|some| - 1] == last;
      OverlayFirst(baseline, fetched, last.id);
    }
  }
}
