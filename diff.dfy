/**
 * Reconciler.processReactor's diff (src/background/reconcile/Reconciler.ts),
 * as pure functions of a reactor's view, the ids it has actors for, the
 * previous snapshot and the incoming items, with the set rules it obeys.
 */
module Diffs {
  import opened Wrappers
  import opened Scene
  import opened ReactorFilters
  import opened Reactors

  /** The three lists processReactor hands to reactor.process. */
  datatype Diff = Diff(added: seq<Item>, deleted: seq<Item>, updated: seq<Item>)

  // ---------------------------------------------------------------------------
  // The previous snapshot

  /** prevItems after `clear()` and `set(item.id, item)` for every item: the last version of each id. */
  function SnapshotMap(items: seq<Item>): (r: map<ItemId, Item>)
    ensures r.Keys == Ids(items)
    ensures forall k :: k in r ==> r[k].id == k
  {
    if items == [] then map[]
    else
      var last := items[|items| - 1];
      assert Ids(items) == Ids(items[..|items| - 1]) + {last.id} by {
        IdsSnoc(items, |items| - 1);
        assert items[..|items| - 1 + 1] == items;
      }
      SnapshotMap(items[..|items| - 1])[last.id := last]
  }

  /** The iteration order of prevItems' keys: each id where it was first set. */
  function KeyOrder(items: seq<Item>): (r: seq<ItemId>)
    ensures DistinctKeys(r) && forall k :: k in r <==> k in Ids(items)
  {
    Appended([], items)
  }

  /** A snapshot map together with its key order, each value stored under its own id. */
  ghost predicate Keyed(prev: map<ItemId, Item>, keys: seq<ItemId>) {
    && DistinctKeys(keys)
    && (forall k :: k in keys <==> k in prev)
    && (forall k :: k in prev ==> prev[k].id == k)
  }

  lemma SnapshotKeyed(items: seq<Item>)
    ensures Keyed(SnapshotMap(items), KeyOrder(items))
  {
  }

  /** prevItems.values(), in key order. */
  function Values(prev: map<ItemId, Item>, keys: seq<ItemId>): (r: seq<Item>)
    requires forall k :: k in keys ==> k in prev
    ensures |r| == |keys| && forall i :: 0 <= i < |keys| ==> r[i] == prev[keys[i]]
  {
    if keys == [] then [] else Values(prev, keys[..|keys| - 1]) + [prev[keys[|keys| - 1]]]
  }

  /** The values of a keyed map carry their keys as ids. */
  lemma ValuesIds(prev: map<ItemId, Item>, keys: seq<ItemId>, i: nat)
    requires Keyed(prev, keys) && i < |keys|
    ensures Values(prev, keys)[i].id == keys[i]
  {
    assert keys[i] in keys;
  }

  lemma ValuesUnique(prev: map<ItemId, Item>, keys: seq<ItemId>)
    requires Keyed(prev, keys)
    ensures UniqueIds(Values(prev, keys))
  {
    var all := Values(prev, keys);
    forall i, j | 0 <= i < j < |all|
      ensures all[i].id != all[j].id
    {
      ValuesIds(prev, keys, i);
      ValuesIds(prev, keys, j);
    }
  }

  /** Every entry of the map is in the snapshot of its values... */
  lemma ValuesCover(prev: map<ItemId, Item>, keys: seq<ItemId>, k: ItemId)
    requires Keyed(prev, keys) && k in prev
    ensures k in SnapshotMap(Values(prev, keys)) && SnapshotMap(Values(prev, keys))[k] == prev[k]
  {
    var all := Values(prev, keys);
    assert k in keys;
    var i :| 0 <= i < |keys| && keys[i] == k;
    ValuesIds(prev, keys, i);
    ValuesUnique(prev, keys);
    SnapshotHolds(all, i);
  }

  /** ... and the snapshot has no other key. */
  lemma ValuesWithin(prev: map<ItemId, Item>, keys: seq<ItemId>, k: ItemId)
    requires Keyed(prev, keys) && k in SnapshotMap(Values(prev, keys))
    ensures k in prev
  {
    var all := Values(prev, keys);
    assert k in Ids(all);
    var i :| 0 <= i < |all| && all[i].id == k;
    ValuesIds(prev, keys, i);
    assert keys[i] in keys;
  }

  /** Taking a snapshot of `prevItems.values()` gives back the same map. */
  lemma ValuesMap(prev: map<ItemId, Item>, keys: seq<ItemId>)
    requires Keyed(prev, keys)
    ensures SnapshotMap(Values(prev, keys)) == prev
  {
    var got := SnapshotMap(Values(prev, keys));
    forall k | k in prev
      ensures k in got && got[k] == prev[k]
    {
      ValuesCover(prev, keys, k);
    }
    forall k | k in got
      ensures k in prev
    {
      ValuesWithin(prev, keys, k);
    }
  }

  /** ... with the same key order. */
  lemma {:induction false} ValuesOrder(prev: map<ItemId, Item>, keys: seq<ItemId>)
    requires DistinctKeys(keys) && forall k :: k in keys ==> k in prev && prev[k].id == k
    ensures KeyOrder(Values(prev, keys)) == keys
  {
    if keys != [] {
      var init, k := keys[..|keys| - 1], keys[|keys| - 1];
      assert keys == init + [k];
      assert forall x :: x in init ==> x in keys;
      assert DistinctKeys(init);
      ValuesOrder(prev, init);
      var vs := Values(prev, init);
      var all := vs + [prev[k]];
      assert Values(prev, keys) == all;
      assert all[..|all| - 1] == vs && all[|all| - 1].id == k;
      assert k !in Appended([], vs);
    }
  }

  /** For a snapshot map with its key order, the snapshot of its values is itself. */
  lemma RefreshKeeps(prev: map<ItemId, Item>, keys: seq<ItemId>)
    requires Keyed(prev, keys)
    ensures SnapshotMap(Values(prev, keys)) == prev && KeyOrder(Values(prev, keys)) == keys
    ensures UniqueIds(Values(prev, keys))
  {
    ValuesMap(prev, keys);
    ValuesOrder(prev, keys);
    ValuesUnique(prev, keys);
  }

  /** With unique ids, the snapshot holds every item under its id. */
  lemma {:induction false} SnapshotHolds(items: seq<Item>, i: nat)
    requires UniqueIds(items) && i < |items|
    ensures SnapshotMap(items)[items[i].id] == items[i]
    decreases |items|
  {
    var init := items[..|items| - 1];
    if i < |items| - 1 {
      assert UniqueIds(init) by {
        assert forall a, b :: 0 <= a < b < |init| ==> init[a] == items[a] && init[b] == items[b];
      }
      assert init[i] == items[i];
      assert items[|items| - 1].id != items[i].id;
      SnapshotHolds(init, i);
    }
  }

  /** With unique ids, every value of the snapshot is one of the items. */
  lemma SnapshotValues(items: seq<Item>, k: ItemId)
    requires UniqueIds(items) && k in SnapshotMap(items)
    ensures exists i :: 0 <= i < |items| && items[i].id == k && SnapshotMap(items)[k] == items[i]
  {
    var i :| 0 <= i < |items| && items[i].id == k;
    SnapshotHolds(items, i);
  }

  // ---------------------------------------------------------------------------
  // The three classifications

  /** The ids of the items the filter accepts: those `deletedIds.delete` takes out. */
  function MatchedIds(v: View, items: seq<Item>): (r: set<ItemId>)
    ensures r <= Ids(items)
  {
    if items == [] then {}
    else
      var last := items[|items| - 1];
      assert Ids(items) == Ids(items[..|items| - 1]) + {last.id} by {
        IdsSnoc(items, |items| - 1);
        assert items[..|items| - 1 + 1] == items;
      }
      MatchedIds(v, items[..|items| - 1]) + (if Matches(v, last) then {last.id} else {})
  }

  /** The accepted items that have no previous version or no actor yet, in order. */
  function AddedOf(v: View, held: set<ItemId>, prev: map<ItemId, Item>, items: seq<Item>): seq<Item> {
    if items == [] then []
    else
      var last := items[|items| - 1];
      AddedOf(v, held, prev, items[..|items| - 1])
      + (if Matches(v, last) && !(last.id in prev && last.id in held) then [last] else [])
  }

  /** The accepted items with a previous version and an actor that the reactor's diff calls changed. */
  function UpdatedOf(v: View, held: set<ItemId>, prev: map<ItemId, Item>, items: seq<Item>): seq<Item> {
    if items == [] then []
    else
      var last := items[|items| - 1];
      UpdatedOf(v, held, prev, items[..|items| - 1])
      + (if Matches(v, last) && last.id in prev && last.id in held && DiffOf(v, prev[last.id], last)
         then [last] else [])
  }

  /** The previous versions, in key order, whose ids were not matched and that the filter accepts. */
  function DeletedOf(v: View, prev: map<ItemId, Item>, keys: seq<ItemId>, matched: set<ItemId>): seq<Item> {
    if keys == [] then []
    else
      var k := keys[|keys| - 1];
      DeletedOf(v, prev, keys[..|keys| - 1], matched)
      + (if k !in matched && k in prev && Matches(v, prev[k]) then [prev[k]] else [])
  }

  /** processReactor's three lists. */
  function Classify(v: View, held: set<ItemId>, prev: map<ItemId, Item>, keys: seq<ItemId>, items: seq<Item>): Diff {
    Diff(AddedOf(v, held, prev, items), DeletedOf(v, prev, keys, MatchedIds(v, items)), UpdatedOf(v, held, prev, items))
  }

  /** The ids a reactor has actors for after Reactor.process: the added ones joined, the deleted ones dropped. */
  function KeysAfter(v: View, held: set<ItemId>, prev: map<ItemId, Item>, keys: seq<ItemId>, items: seq<Item>): set<ItemId> {
    var d := Classify(v, held, prev, keys, items);
    (held + Ids(d.added)) - Ids(d.deleted)
  }

  /** register's hydration list: the previous values the filter accepts, in key order. */
  function Hydration(v: View, prev: map<ItemId, Item>, keys: seq<ItemId>): seq<Item> {
    if keys == [] then []
    else
      var k := keys[|keys| - 1];
      Hydration(v, prev, keys[..|keys| - 1]) + (if k in prev && Matches(v, prev[k]) then [prev[k]] else [])
  }

  /** The ids of the snapshot the filter accepts. */
  ghost function Tracked(v: View, prev: map<ItemId, Item>): set<ItemId> {
    set k | k in prev && Matches(v, prev[k])
  }

  // ---------------------------------------------------------------------------
  // The set rules

  lemma {:induction false} MatchedIff(v: View, items: seq<Item>, k: ItemId)
    ensures k in MatchedIds(v, items) <==> exists i :: 0 <= i < |items| && items[i].id == k && Matches(v, items[i])
  {
    if items != [] {
      var init := items[..|items| - 1];
      MatchedIff(v, init, k);
      if k in MatchedIds(v, init) {
        var i :| 0 <= i < |init| && init[i].id == k && Matches(v, init[i]);
        assert items[i] == init[i];
      }
      if exists i :: 0 <= i < |items| && items[i].id == k && Matches(v, items[i]) {
        var i :| 0 <= i < |items| && items[i].id == k && Matches(v, items[i]);
        if i < |init| {
          assert init[i] == items[i];
        }
      }
    }
  }

  /** An item is added exactly when the filter accepts it and it lacks a previous version or an actor. */
  lemma {:induction false} AddedIff(v: View, held: set<ItemId>, prev: map<ItemId, Item>, items: seq<Item>, x: Item)
    ensures x in AddedOf(v, held, prev, items) <==> x in items && Matches(v, x) && !(x.id in prev && x.id in held)
  {
    if items != [] {
      var init := items[..|items| - 1];
      AddedIff(v, held, prev, init, x);
      assert items == init + [items[|items| - 1]];
    }
  }

  /** An item is updated exactly when it is accepted, has a previous version and an actor, and the diff fires. */
  lemma {:induction false} UpdatedIff(v: View, held: set<ItemId>, prev: map<ItemId, Item>, items: seq<Item>, x: Item)
    ensures x in UpdatedOf(v, held, prev, items)
        <==> x in items && Matches(v, x) && x.id in prev && x.id in held && DiffOf(v, prev[x.id], x)
  {
    if items != [] {
      var init := items[..|items| - 1];
      UpdatedIff(v, held, prev, init, x);
      assert items == init + [items[|items| - 1]];
    }
  }

  lemma {:induction false} DeletedMem(v: View, prev: map<ItemId, Item>, keys: seq<ItemId>, matched: set<ItemId>, x: Item)
    ensures x in DeletedOf(v, prev, keys, matched)
        <==> exists j :: 0 <= j < |keys| && keys[j] !in matched && keys[j] in prev && prev[keys[j]] == x && Matches(v, x)
  {
    if keys != [] {
      var init := keys[..|keys| - 1];
      DeletedMem(v, prev, init, matched, x);
      if exists j :: 0 <= j < |init| && init[j] !in matched && init[j] in prev && prev[init[j]] == x && Matches(v, x) {
        var j :| 0 <= j < |init| && init[j] !in matched && init[j] in prev && prev[init[j]] == x && Matches(v, x);
        assert keys[j] == init[j];
      }
      if exists j :: 0 <= j < |keys| && keys[j] !in matched && keys[j] in prev && prev[keys[j]] == x && Matches(v, x) {
        var j :| 0 <= j < |keys| && keys[j] !in matched && keys[j] in prev && prev[keys[j]] == x && Matches(v, x);
        if j < |init| {
          assert init[j] == keys[j];
        }
      }
    }
  }

  /**
   * An item is deleted exactly when it is the previous version under its id, the
   * filter accepts it, and no accepted incoming item has its id.
   */
  lemma DeletedIff(v: View, prev: map<ItemId, Item>, keys: seq<ItemId>, items: seq<Item>, x: Item)
    requires Keyed(prev, keys)
    ensures x in Classify(v, {}, prev, keys, items).deleted
        <==> x.id in prev && prev[x.id] == x && Matches(v, x) && x.id !in MatchedIds(v, items)
  {
    DeletedMem(v, prev, keys, MatchedIds(v, items), x);
    if x.id in prev && prev[x.id] == x && Matches(v, x) && x.id !in MatchedIds(v, items) {
      var j :| 0 <= j < |keys| && keys[j] == x.id;
    }
  }

  /** The deleted list does not depend on the actors. */
  lemma DeletedIgnoresActors(v: View, held: set<ItemId>, prev: map<ItemId, Item>, keys: seq<ItemId>, items: seq<Item>)
    ensures Classify(v, held, prev, keys, items).deleted == Classify(v, {}, prev, keys, items).deleted
  {
  }

  /** Added, updated and deleted are pairwise disjoint by id. */
  lemma Disjoint(v: View, held: set<ItemId>, prev: map<ItemId, Item>, keys: seq<ItemId>, items: seq<Item>)
    requires Keyed(prev, keys)
    ensures var d := Classify(v, held, prev, keys, items);
      Ids(d.added) !! Ids(d.updated) && Ids(d.added) !! Ids(d.deleted) && Ids(d.updated) !! Ids(d.deleted)
  {
    var d := Classify(v, held, prev, keys, items);
    forall x, y | x in d.added && y in d.updated
      ensures x.id != y.id
    {
      AddedIff(v, held, prev, items, x);
      UpdatedIff(v, held, prev, items, y);
    }
    forall x, y | x in d.added && y in d.deleted
      ensures x.id != y.id
    {
      AddedIff(v, held, prev, items, x);
      DeletedIff(v, prev, keys, items, y);
      MatchedIff(v, items, x.id);
    }
    forall x, y | x in d.updated && y in d.deleted
      ensures x.id != y.id
    {
      UpdatedIff(v, held, prev, items, x);
      DeletedIff(v, prev, keys, items, y);
      MatchedIff(v, items, x.id);
    }
    IdsApart(d.added, d.updated);
    IdsApart(d.added, d.deleted);
    IdsApart(d.updated, d.deleted);
  }

  lemma IdsApart(a: seq<Item>, b: seq<Item>)
    requires forall x, y :: x in a && y in b ==> x.id != y.id
    ensures Ids(a) !! Ids(b)
  {
    forall id | id in Ids(a)
      ensures id !in Ids(b)
    {
      var i :| 0 <= i < |a| && a[i].id == id;
      assert a[i] in a;
      forall j | 0 <= j < |b|
        ensures b[j].id != id
      {
        assert b[j] in b;
      }
    }
  }

  /** While actors only exist for previous ids, an added id never already has an actor. */
  lemma AddedIsNew(v: View, held: set<ItemId>, prev: map<ItemId, Item>, items: seq<Item>)
    requires held <= prev.Keys
    ensures Ids(AddedOf(v, held, prev, items)) !! held
  {
    forall id | id in Ids(AddedOf(v, held, prev, items))
      ensures id !in held
    {
      var added := AddedOf(v, held, prev, items);
      var i :| 0 <= i < |added| && added[i].id == id;
      AddedIff(v, held, prev, items, added[i]);
    }
  }

  /**
   * With the filter unchanged since the previous pass (every actor's previous
   * version still accepted), a pass leaves actors for exactly the accepted ids.
   */
  lemma PassTracks(v: View, held: set<ItemId>, prev: map<ItemId, Item>, keys: seq<ItemId>, items: seq<Item>)
    requires Keyed(prev, keys) && held <= Tracked(v, prev)
    ensures KeysAfter(v, held, prev, keys, items) == MatchedIds(v, items)
  {
    var d := Classify(v, held, prev, keys, items);
    forall k | k in MatchedIds(v, items)
      ensures k in KeysAfter(v, held, prev, keys, items)
    {
      MatchedIff(v, items, k);
      var i :| 0 <= i < |items| && items[i].id == k && Matches(v, items[i]);
      if k !in held {
        AddedIff(v, held, prev, items, items[i]);
        assert items[i] in d.added;
      }
      if k in Ids(d.deleted) {
        var j :| 0 <= j < |d.deleted| && d.deleted[j].id == k;
        DeletedIff(v, prev, keys, items, d.deleted[j]);
      }
    }
    forall k | k in KeysAfter(v, held, prev, keys, items)
      ensures k in MatchedIds(v, items)
    {
      if k in Ids(d.added) {
        var j :| 0 <= j < |d.added| && d.added[j].id == k;
        AddedIff(v, held, prev, items, d.added[j]);
        var i :| 0 <= i < |items| && items[i] == d.added[j];
        MatchedIff(v, items, k);
      } else {
        assert k in held && k in prev;
        DeletedIff(v, prev, keys, items, prev[k]);
      }
    }
  }

  /** With unique ids, the accepted ids of the items are the accepted ids of their snapshot. */
  lemma SnapshotTracked(v: View, items: seq<Item>)
    requires UniqueIds(items)
    ensures Tracked(v, SnapshotMap(items)) == MatchedIds(v, items)
  {
    forall k | k in MatchedIds(v, items)
      ensures k in Tracked(v, SnapshotMap(items))
    {
      MatchedIff(v, items, k);
      var i :| 0 <= i < |items| && items[i].id == k && Matches(v, items[i]);
      SnapshotHolds(items, i);
    }
    forall k | k in Tracked(v, SnapshotMap(items))
      ensures k in MatchedIds(v, items)
    {
      SnapshotValues(items, k);
      MatchedIff(v, items, k);
    }
  }

  lemma {:induction false} HydrationIds(v: View, prev: map<ItemId, Item>, keys: seq<ItemId>)
    requires forall k :: k in prev ==> prev[k].id == k
    ensures Ids(Hydration(v, prev, keys)) == set k | k in keys && k in prev && Matches(v, prev[k])
  {
    if keys != [] {
      var init, k := keys[..|keys| - 1], keys[|keys| - 1];
      HydrationIds(v, prev, init);
      var h0 := Hydration(v, prev, init);
      var h := Hydration(v, prev, keys);
      if k in prev && Matches(v, prev[k]) {
        IdsSnoc(h, |h0|);
        assert h[..|h0| + 1] == h && h[..|h0|] == h0;
      } else {
        assert h == h0;
      }
      assert keys == init + [k];
    }
  }

  /** register hydrates a reactor with an actor key for every accepted previous item. */
  lemma HydrationTracks(v: View, prev: map<ItemId, Item>, keys: seq<ItemId>)
    requires Keyed(prev, keys)
    ensures Ids(Hydration(v, prev, keys)) == Tracked(v, prev)
  {
    HydrationIds(v, prev, keys);
  }

  // ---------------------------------------------------------------------------
  // Repeating a snapshot

  predicate NoNaN(items: seq<Item>) {
    forall i :: 0 <= i < |items| ==> items[i].lastModified.At?
  }

  /**
   * Reconciling the snapshot a reactor already tracks, with the default diff (no
   * forced wall or light rebuild) and parseable dates, changes nothing.
   */
  lemma Idempotent(v: View, items: seq<Item>)
    requires UniqueIds(items) && NoNaN(items)
    requires v.kind == WallKind ==> !v.doorDidUpdate
    requires v.kind == LightKind ==> !v.wallsDirty
    ensures Classify(v, MatchedIds(v, items), SnapshotMap(items), KeyOrder(items), items) == Diff([], [], [])
  {
    var held, prev, keys := MatchedIds(v, items), SnapshotMap(items), KeyOrder(items);
    forall i | 0 <= i < |items|
      ensures !(Matches(v, items[i]) && !(items[i].id in prev && items[i].id in held))
      ensures !(Matches(v, items[i]) && items[i].id in prev && items[i].id in held
                && DiffOf(v, prev[items[i].id], items[i]))
    {
      MatchedIff(v, items, items[i].id);
      SnapshotHolds(items, i);
    }
    AddedNone(v, held, prev, items);
    UpdatedNone(v, held, prev, items);
    forall j | 0 <= j < |keys|
      ensures !(keys[j] !in held && keys[j] in prev && Matches(v, prev[keys[j]]))
    {
      if keys[j] in prev {
        SnapshotValues(items, keys[j]);
        MatchedIff(v, items, keys[j]);
      }
    }
    DeletedNone(v, prev, keys, held);
  }

  lemma {:induction false} AddedNone(v: View, held: set<ItemId>, prev: map<ItemId, Item>, items: seq<Item>)
    requires forall i :: 0 <= i < |items| ==> !(Matches(v, items[i]) && !(items[i].id in prev && items[i].id in held))
    ensures AddedOf(v, held, prev, items) == []
  {
    if items != [] {
      AddedNone(v, held, prev, items[..|items| - 1]);
    }
  }

  lemma {:induction false} UpdatedNone(v: View, held: set<ItemId>, prev: map<ItemId, Item>, items: seq<Item>)
    requires forall i :: 0 <= i < |items| ==>
               !(Matches(v, items[i]) && items[i].id in prev && items[i].id in held
                 && DiffOf(v, prev[items[i].id], items[i]))
    ensures UpdatedOf(v, held, prev, items) == []
  {
    if items != [] {
      UpdatedNone(v, held, prev, items[..|items| - 1]);
    }
  }

  lemma {:induction false} DeletedNone(v: View, prev: map<ItemId, Item>, keys: seq<ItemId>, matched: set<ItemId>)
    requires forall j :: 0 <= j < |keys| ==> !(keys[j] !in matched && keys[j] in prev && Matches(v, prev[keys[j]]))
    ensures DeletedOf(v, prev, keys, matched) == []
  {
    if keys != [] {
      DeletedNone(v, prev, keys[..|keys| - 1], matched);
    }
  }

  const NO_LIGHT := LightConfig(None, None, None, None, None, None, None, None, None)

  /** A drawing on the fog layer last modified at an unparseable date. */
  const NAN_WALL := Item("w", NaN, FOG, LineItem, NoDoors, None, "u", Transform(Vec2(0.0, 0.0), 0.0, Vec2(1.0, 1.0)),
                         true, 1.0)

  /** An unparseable date counts as a change on every pass, so the same snapshot updates again. */
  lemma NaNUpdatesAgain()
    ensures var v := View(DoorKind, GM, "p", false, false);
      Classify(v, {"w"}, SnapshotMap([NAN_WALL]), KeyOrder([NAN_WALL]), [NAN_WALL]).updated == [NAN_WALL]
  {
    var items, v := [NAN_WALL], View(DoorKind, GM, "p", false, false);
    assert items[..|items| - 1] == [];
    var prev := SnapshotMap(items);
    assert prev == map["w" := NAN_WALL];
    assert UpdatedOf(v, {"w"}, prev, items) == UpdatedOf(v, {"w"}, prev, []) + [NAN_WALL];
  }

  /** A light only its owner ("o") may see. */
  const OWNED_LIGHT := Item("l", At(1), "CHARACTER", OtherItem, NoDoors,
                            Some(NO_LIGHT.(onlyVisibleToOwner := Some(true))), "o",
                            Transform(Vec2(0.0, 0.0), 0.0, Vec2(1.0, 1.0)), true, 1.0)

  /**
   * The filter changing under a tracked item: a GM's light reactor tracks an
   * owner-only light; once the role turns to player, the light is neither
   * matched nor deleted, so its actor outlives the filter, and it outlives the
   * item leaving the scene as well.
   */
  lemma FilterChangeLeaks()
    ensures var gm, player := View(LightKind, GM, "p", false, false), View(LightKind, PlayerRole, "p", false, false);
      var prev, keys := SnapshotMap([OWNED_LIGHT]), KeyOrder([OWNED_LIGHT]);
      && Tracked(gm, prev) == {"l"}
      && KeysAfter(player, {"l"}, prev, keys, [OWNED_LIGHT]) == {"l"}
      && MatchedIds(player, [OWNED_LIGHT]) == {}
      && KeysAfter(player, {"l"}, prev, keys, []) == {"l"}
  {
    var items := [OWNED_LIGHT];
    assert items[..|items| - 1] == [];
    var prev := SnapshotMap(items);
    assert prev == map["l" := OWNED_LIGHT];
    assert Appended([], items) == Appended([], []) + ["l"];
    var keys := KeyOrder(items);
    assert keys == ["l"] && keys[..|keys| - 1] == [];
    var gm, player := View(LightKind, GM, "p", false, false), View(LightKind, PlayerRole, "p", false, false);
    assert Matches(gm, OWNED_LIGHT) && !Matches(player, OWNED_LIGHT);
    assert Tracked(gm, prev) == {"l"};
    assert MatchedIds(player, items) == MatchedIds(player, []);
    assert AddedOf(player, {"l"}, prev, items) == [];
    assert DeletedOf(player, prev, keys, {}) == DeletedOf(player, prev, [], {});
    assert DeletedOf(player, prev, keys, {}) == [];
    assert Classify(player, {"l"}, prev, keys, []).deleted == [];
  }

  /** Once its door reactor changed, a wall reactor updates every accepted wall it already has. */
  lemma WallsFollowDoors(v: View, held: set<ItemId>, prev: map<ItemId, Item>, items: seq<Item>, x: Item)
    requires v.kind == WallKind && v.doorDidUpdate
    ensures x in UpdatedOf(v, held, prev, items) <==> x in items && Matches(v, x) && x.id in prev && x.id in held
  {
    UpdatedIff(v, held, prev, items, x);
  }

  /** While the walls are dirty, a light reactor's pass updates every accepted item it already has. */
  lemma DirtyLightsRebuild(v: View, held: set<ItemId>, prev: map<ItemId, Item>, items: seq<Item>, x: Item)
    requires v.kind == LightKind && v.wallsDirty
    ensures x in UpdatedOf(v, held, prev, items) <==> x in items && Matches(v, x) && x.id in prev && x.id in held
  {
    UpdatedIff(v, held, prev, items, x);
  }

  /** A GM sees every light, so a light view turning GM tracks at least what it tracked. */
  lemma GmTracksMore(v: View, prev: map<ItemId, Item>)
    requires v.kind == LightKind
    ensures Tracked(v, prev) <= Tracked(v.(role := GM), prev)
  {
  }

  /** A GM's light view does not depend on the player id. */
  lemma GmIgnoresId(v: View, id: string, prev: map<ItemId, Item>)
    requires v.kind == LightKind && v.role == GM
    ensures Tracked(v, prev) == Tracked(v.(playerId := id), prev)
  {
  }

  /** Only the kind, role and player id of a view decide the filter, so added and deleted ignore the rest. */
  lemma FilterOnly(v: View, w: View, held: set<ItemId>, prev: map<ItemId, Item>, keys: seq<ItemId>, items: seq<Item>)
    requires v.kind == w.kind && v.role == w.role && v.playerId == w.playerId
    ensures KeysAfter(v, held, prev, keys, items) == KeysAfter(w, held, prev, keys, items)
  {
    assert forall x :: Matches(v, x) == Matches(w, x);
    assert MatchedIds(v, items) == MatchedIds(w, items) by {
      forall k
        ensures k in MatchedIds(v, items) <==> k in MatchedIds(w, items)
      {
        MatchedIff(v, items, k);
        MatchedIff(w, items, k);
      }
    }
    AddedSame(v, w, held, prev, items);
    DeletedSame(v, w, prev, keys, MatchedIds(v, items));
  }

  lemma {:induction false} AddedSame(v: View, w: View, held: set<ItemId>, prev: map<ItemId, Item>, items: seq<Item>)
    requires forall x :: Matches(v, x) == Matches(w, x)
    ensures AddedOf(v, held, prev, items) == AddedOf(w, held, prev, items)
  {
    if items != [] {
      AddedSame(v, w, held, prev, items[..|items| - 1]);
    }
  }

  lemma {:induction false} DeletedSame(v: View, w: View, prev: map<ItemId, Item>, keys: seq<ItemId>, matched: set<ItemId>)
    requires forall x :: Matches(v, x) == Matches(w, x)
    ensures DeletedOf(v, prev, keys, matched) == DeletedOf(w, prev, keys, matched)
  {
    if keys != [] {
      DeletedSame(v, w, prev, keys[..|keys| - 1], matched);
    }
  }
}
