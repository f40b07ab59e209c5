/**
 * The Patcher (src/background/reconcile/Patcher.ts): staging buffers of local
 * scene changes gathered during one reconcile step and submitted as a batch.
 * Host calls are recorded in `sent` in the order they are made.
 */
module Patching {
  import opened Wrappers
  import opened Scene
  import opened CanvasKit
  import opened LocalItems
  import opened Updates

  /** One `[id, updater]` pair passed to updateItems. */
  datatype Staged = Staged(id: LocalId, updater: Updater)

  /** A call to the host's local scene. `UpdateCall` carries the keys and the staged updaters. */
  datatype HostCall =
    | DeleteCall(ids: seq<LocalId>)
    | AddCall(items: seq<LocalItem>)
    | UpdateCall(keys: seq<LocalId>, updates: map<LocalId, seq<Updater>>)

  /** `updates.get(id) ?? []`. */
  function Get(m: map<LocalId, seq<Updater>>, id: LocalId): seq<Updater> {
    if id in m then m[id] else []
  }

  /** The updaters of `staged` for one id, in staging order. */
  function For(staged: seq<Staged>, id: LocalId): (r: seq<Updater>)
    ensures |r| <= |staged|
  {
    if staged == [] then []
    else
      var last := staged[|staged| - 1];
      For(staged[..|staged| - 1], id) + (if last.id == id then [last.updater] else [])
  }

  /** An id nothing was staged for has no updaters. */
  lemma {:induction false} ForAbsent(staged: seq<Staged>, id: LocalId)
    requires forall j :: 0 <= j < |staged| ==> staged[j].id != id
    ensures For(staged, id) == []
  {
    if staged != [] {
      ForAbsent(staged[..|staged| - 1], id);
    }
  }

  /** The map after staging: push onto an existing list, or set a singleton list. */
  function StageAll(m: map<LocalId, seq<Updater>>, staged: seq<Staged>): map<LocalId, seq<Updater>> {
    if staged == [] then m
    else
      var before := StageAll(m, staged[..|staged| - 1]);
      var last := staged[|staged| - 1];
      before[last.id := Get(before, last.id) + [last.updater]]
  }

  /** The map's key order after staging: a new key goes to the end, an existing key keeps its place. */
  function Order(order: seq<LocalId>, staged: seq<Staged>): seq<LocalId> {
    if staged == [] then order
    else
      var before := Order(order, staged[..|staged| - 1]);
      var last := staged[|staged| - 1];
      if last.id in before then before else before + [last.id]
  }

  predicate Distinct(s: seq<LocalId>) {
    forall i, j :: 0 <= i < j < |s| ==> s[i] != s[j]
  }

  /** Every updater staged for an id is appended to that id's list; earlier ones keep their order. */
  lemma {:induction false} StageAllFor(m: map<LocalId, seq<Updater>>, staged: seq<Staged>, id: LocalId)
    ensures Get(StageAll(m, staged), id) == Get(m, id) + For(staged, id)
  {
    if staged != [] {
      StageAllFor(m, staged[..|staged| - 1], id);
    }
  }

  /** The keys after staging are the old keys and the staged ids. */
  lemma {:induction false} StageAllKeys(m: map<LocalId, seq<Updater>>, staged: seq<Staged>, id: LocalId)
    ensures id in StageAll(m, staged) <==> id in m || exists i :: 0 <= i < |staged| && staged[i].id == id
  {
    if staged != [] {
      var init := staged[..|staged| - 1];
      StageAllKeys(m, init, id);
      if exists i :: 0 <= i < |init| && init[i].id == id {
        var i :| 0 <= i < |init| && init[i].id == id;
        assert staged[i].id == id;
      }
      if exists i :: 0 <= i < |staged| && staged[i].id == id {
        var i :| 0 <= i < |staged| && staged[i].id == id;
        if i < |init| {
          assert init[i].id == id;
        }
      }
    }
  }

  /** The key order stays duplicate-free and lists exactly the old keys and the staged ids. */
  lemma {:induction false} OrderKeys(order: seq<LocalId>, staged: seq<Staged>, id: LocalId)
    requires Distinct(order)
    ensures Distinct(Order(order, staged))
    ensures id in Order(order, staged) <==> id in order || exists i :: 0 <= i < |staged| && staged[i].id == id
  {
    if staged != [] {
      var init := staged[..|staged| - 1];
      OrderKeys(order, init, id);
      OrderKeys(order, init, staged[|staged| - 1].id);
      if exists i :: 0 <= i < |init| && init[i].id == id {
        var i :| 0 <= i < |init| && init[i].id == id;
        assert staged[i].id == id;
      }
      if exists i :: 0 <= i < |staged| && staged[i].id == id {
        var i :| 0 <= i < |staged| && staged[i].id == id;
        if i < |init| {
          assert init[i].id == id;
        }
      }
    }
  }

  /** Staging in two calls is staging the concatenation once. */
  lemma {:induction false} StageAllAppend(m: map<LocalId, seq<Updater>>, a: seq<Staged>, b: seq<Staged>)
    ensures StageAll(m, a + b) == StageAll(StageAll(m, a), b)
  {
    if b == [] {
      assert a + b == a;
    } else {
      assert (a + b)[..|a + b| - 1] == a + b[..|b| - 1];
      StageAllAppend(m, a, b[..|b| - 1]);
    }
  }

  lemma {:induction false} OrderAppend(order: seq<LocalId>, a: seq<Staged>, b: seq<Staged>)
    ensures Order(order, a + b) == Order(Order(order, a), b)
  {
    if b == [] {
      assert a + b == a;
    } else {
      assert (a + b)[..|a + b| - 1] == a + b[..|b| - 1];
      OrderAppend(order, a, b[..|b| - 1]);
    }
  }

  /** The four buffers: additions, deletions, the updates map and its key order. */
  datatype Staging = Staging(
    additions: seq<LocalItem>,
    deletions: seq<LocalId>,
    updates: map<LocalId, seq<Updater>>,
    order: seq<LocalId>)
  {
    function Add(items: seq<LocalItem>): Staging {
      this.(additions := additions + items)
    }

    function Delete(ids: seq<LocalId>): Staging {
      this.(deletions := deletions + ids)
    }

    function Update(staged: seq<Staged>): Staging {
      this.(updates := StageAll(updates, staged), order := Order(order, staged))
    }

    lemma AddNone()
      ensures Add([]) == this
    {
      assert additions + [] == additions;
    }

    lemma AddTwice(a: seq<LocalItem>, b: seq<LocalItem>)
      ensures Add(a).Add(b) == Add(a + b)
    {
      assert additions + a + b == additions + (a + b);
    }

    lemma DeleteNone()
      ensures Delete([]) == this
    {
      assert deletions + [] == deletions;
    }

    lemma DeleteTwice(a: seq<LocalId>, b: seq<LocalId>)
      ensures Delete(a).Delete(b) == Delete(a + b)
    {
      assert deletions + a + b == deletions + (a + b);
    }

    lemma UpdateTwice(a: seq<Staged>, b: seq<Staged>)
      ensures Update(a).Update(b) == Update(a + b)
    {
      StageAllAppend(updates, a, b);
      OrderAppend(order, a, b);
    }

    /** The key order is the map's keys, each once. */
    ghost predicate Valid() {
      Distinct(order) && forall id :: id in updates <==> id in order
    }
  }

  lemma OrderNonEmpty(s: Staging)
    requires s.Valid()
    ensures s.order != [] ==> |s.updates| > 0
  {
    if s.order != [] {
      assert s.order[0] in s.updates;
    }
  }

  const EMPTY := Staging([], [], map[], [])

  /** The host calls submitChanges makes. */
  function Flush(ready: bool, s: Staging): seq<HostCall> {
    if !ready then []
    else
      (if |s.deletions| > 0 then [DeleteCall(s.deletions)] else [])
      + (if |s.additions| > 0 then [AddCall(s.additions)] else [])
      + (if |s.updates| > 0 then [UpdateCall(s.order, s.updates)] else [])
  }

  function Rank(c: HostCall): nat {
    match c
    case DeleteCall(_) => 0
    case AddCall(_) => 1
    case UpdateCall(_, _) => 2
  }

  /** Not ready: no host call at all. */
  lemma FlushNotReady(s: Staging)
    ensures Flush(false, s) == []
  {
  }

  /**
   * Ready: deletions go before additions and additions before updates, each
   * non-empty buffer is sent exactly once with its contents, and an empty buffer
   * makes no call.
   */
  lemma FlushReady(s: Staging)
    ensures var calls := Flush(true, s);
      && (forall i, j :: 0 <= i < j < |calls| ==> Rank(calls[i]) < Rank(calls[j]))
      && ((exists i :: 0 <= i < |calls| && calls[i].DeleteCall?) <==> |s.deletions| > 0)
      && ((exists i :: 0 <= i < |calls| && calls[i].AddCall?) <==> |s.additions| > 0)
      && ((exists i :: 0 <= i < |calls| && calls[i].UpdateCall?) <==> |s.updates| > 0)
      && (forall i :: 0 <= i < |calls| && calls[i].DeleteCall? ==> calls[i].ids == s.deletions)
      && (forall i :: 0 <= i < |calls| && calls[i].AddCall? ==> calls[i].items == s.additions)
      && (forall i :: 0 <= i < |calls| && calls[i].UpdateCall? ==>
            calls[i].keys == s.order && calls[i].updates == s.updates)
  {
    var calls := Flush(true, s);
    var d := if |s.deletions| > 0 then [DeleteCall(s.deletions)] else [];
    var a := if |s.additions| > 0 then [AddCall(s.additions)] else [];
    var u := if |s.updates| > 0 then [UpdateCall(s.order, s.updates)] else [];
    assert calls == d + a + u;
    if |s.deletions| > 0 {
      assert calls[0].DeleteCall?;
    }
    if |s.additions| > 0 {
      assert calls[|d|].AddCall?;
    }
    if |s.updates| > 0 {
      assert calls[|d| + |a|].UpdateCall?;
    }
  }

  /** What the update callback does to the items the host hands it. */
  function Updated(kit: Kit, walls: seq<seq<Vec2>>, updates: map<LocalId, seq<Updater>>, items: seq<LocalItem>)
    : (r: seq<LocalItem>)
    ensures |r| == |items|
  {
    seq(|items|, i requires 0 <= i < |items| => ApplyAll(kit, walls, Get(updates, items[i].id), items[i]))
  }

  /**
   * The callback passed with the update call: for every item, every updater
   * staged for its id runs on it in staging order.
   */
  method RunCallback(kit: Kit, walls: seq<seq<Vec2>>, updates: map<LocalId, seq<Updater>>, items: seq<LocalItem>)
    returns (out: seq<LocalItem>)
    ensures out == Updated(kit, walls, updates, items)
  {
    out := [];
    for i := 0 to |items|
      invariant out == Updated(kit, walls, updates, items[..i])
    {
      var item := items[i];
      var us := Get(updates, item.id);
      for j := 0 to |us|
        invariant item == ApplyAll(kit, walls, us[..j], items[i])
      {
        assert us[..j + 1][..j] == us[..j];
        item := Apply(kit, walls, us[j], item);
      }
      assert us[..|us|] == us;
      out := out + [item];
    }
    assert items[..|items|] == items;
  }

  /**
   * Staged into an empty buffer and run by the callback, each item goes through
   * exactly the updaters staged for its id, once each, in staging order.
   */
  lemma UpdatedRunsStaged(kit: Kit, walls: seq<seq<Vec2>>, staged: seq<Staged>, items: seq<LocalItem>)
    ensures var r := Updated(kit, walls, StageAll(map[], staged), items);
      forall i :: 0 <= i < |items| ==> r[i] == ApplyAll(kit, walls, For(staged, items[i].id), items[i])
  {
    forall i | 0 <= i < |items|
      ensures Get(StageAll(map[], staged), items[i].id) == For(staged, items[i].id)
    {
      StageAllFor(map[], staged, items[i].id);
    }
  }

  class Patcher {
    var additions: seq<LocalItem>
    var deletions: seq<LocalId>
    var updates: map<LocalId, seq<Updater>>
    /** The insertion order of `updates`' keys. */
    var updateOrder: seq<LocalId>
    var ready: bool
    /** The host calls made so far. */
    var sent: seq<HostCall>

    function State(): Staging
      reads this
    {
      Staging(additions, deletions, updates, updateOrder)
    }

    ghost predicate Valid()
      reads this
    {
      State().Valid()
    }

    constructor ()
      ensures Valid() && State() == EMPTY && !ready && sent == []
    {
      additions := [];
      deletions := [];
      updates := map[];
      updateOrder := [];
      ready := false;
      sent := [];
    }

    method SetReady(r: bool)
      modifies this
      ensures ready == r && State() == old(State()) && sent == old(sent)
    {
      ready := r;
    }

    /** addItems: the items are appended to the additions, in call order. */
    method AddItems(items: seq<LocalItem>)
      requires Valid()
      modifies this
      ensures Valid() && State() == old(State()).Add(items)
      ensures ready == old(ready) && sent == old(sent)
    {
      additions := additions + items;
    }

    /** deleteItems: the ids are appended to the deletions, in call order. */
    method DeleteItems(ids: seq<LocalId>)
      requires Valid()
      modifies this
      ensures Valid() && State() == old(State()).Delete(ids)
      ensures ready == old(ready) && sent == old(sent)
    {
      deletions := deletions + ids;
    }

    /** updateItems: each updater is pushed onto its id's list, or starts a new one. */
    method UpdateItems(staged: seq<Staged>)
      requires Valid()
      modifies this
      ensures Valid() && State() == old(State()).Update(staged)
      ensures ready == old(ready) && sent == old(sent)
    {
      ghost var m0, o0 := updates, updateOrder;
      for i := 0 to |staged|
        invariant updates == StageAll(m0, staged[..i]) && updateOrder == Order(o0, staged[..i])
        invariant additions == old(additions) && deletions == old(deletions)
        invariant ready == old(ready) && sent == old(sent)
        invariant Valid()
      {
        assert staged[..i + 1][..i] == staged[..i];
        var s := staged[i];
        assert staged[..i + 1][i] == s;
        ghost var before := updates;
        assert s.id in updates <==> s.id in Order(o0, staged[..i]);
        assert Get(updates, s.id) == if s.id in updates then updates[s.id] else [];
        if s.id in updates {
          updates := updates[s.id := updates[s.id] + [s.updater]];
        } else {
          assert Get(before, s.id) + [s.updater] == [s.updater];
          updates := updates[s.id := [s.updater]];
          updateOrder := updateOrder + [s.id];
        }
        assert updates == before[s.id := Get(before, s.id) + [s.updater]];
        assert updates == StageAll(m0, staged[..i + 1]);
        assert updateOrder == Order(o0, staged[..i + 1]);
        forall id
          ensures id in updates <==> id in updateOrder
        {
        }
      }
      assert staged[..|staged|] == staged;
    }

    /**
     * submitChanges: each non-empty buffer is sent when ready and cleared either
     * way, deletions first, then additions, then updates.
     */
    method SubmitChanges()
      requires Valid()
      modifies this
      ensures Valid() && State() == EMPTY && ready == old(ready)
      ensures sent == old(sent) + Flush(old(ready), old(State()))
    {
      OrderNonEmpty(State());
      if |deletions| > 0 {
        if ready {
          sent := sent + [DeleteCall(deletions)];
        }
        deletions := [];
      }
      if |additions| > 0 {
        if ready {
          sent := sent + [AddCall(additions)];
        }
        additions := [];
      }
      if |updates| > 0 {
        if ready {
          sent := sent + [UpdateCall(updateOrder, updates)];
        }
        updates := map[];
        updateOrder := [];
      }
    }
  }
}
