/**
 * Reactor (src/background/reconcile/Reactor.ts) and the state its variants add
 * (reactors/DoorReactor.ts, WallReactor.ts, LightReactor.ts): one class tagged by
 * kind, holding the id-to-actor map of the items its filter matches.
 */
module Reactors {
  import opened Wrappers
  import opened Scene
  import opened CanvasKit
  import opened LocalItems
  import opened Patching
  import opened ReactorFilters
  import opened Actors
  import DoorActors

  predicate DistinctKeys(s: seq<ItemId>) {
    forall i, j :: 0 <= i < j < |s| ==> s[i] != s[j]
  }

  /** `s` without `id`, the others kept in order. */
  function Without(s: seq<ItemId>, id: ItemId): (r: seq<ItemId>)
    ensures forall k :: k in r <==> k in s && k != id
    ensures DistinctKeys(s) ==> DistinctKeys(r)
    ensures id !in s ==> r == s
  {
    if s == [] then []
    else if s[|s| - 1] == id then Without(s[..|s| - 1], id)
    else
      var r0 := Without(s[..|s| - 1], id);
      assert DistinctKeys(s) ==> s[|s| - 1] !in r0 by {
        if DistinctKeys(s) {
          assert forall i :: 0 <= i < |s| - 1 ==> s[..|s| - 1][i] == s[i];
        }
      }
      r0 + [s[|s| - 1]]
  }

  lemma IdsSnoc(items: seq<Item>, i: nat)
    requires i < |items|
    ensures Ids(items[..i + 1]) == Ids(items[..i]) + {items[i].id}
  {
    var a, b := items[..i + 1], items[..i];
    forall id | id in Ids(a)
      ensures id in Ids(b) + {items[i].id}
    {
      var j :| 0 <= j < |a| && a[j].id == id;
      if j < i {
        assert b[j] == a[j];
      }
    }
    forall id | id in Ids(b)
      ensures id in Ids(a)
    {
      var j :| 0 <= j < |b| && b[j].id == id;
      assert a[j] == b[j];
    }
    assert a[i] == items[i];
  }

  // ---------------------------------------------------------------------------
  // Which actor holds which native paths

  /** All the paths the actors of a reactor hold. */
  ghost function Union(m: map<ItemId, set<nat>>): set<nat> {
    set k, h | k in m && h in m[k] :: h
  }

  /** One actor's holdings change: the heap keeps every other actor's paths. */
  lemma KeptPut(m: map<ItemId, set<nat>>, id: ItemId, s0: set<nat>, s1: set<nat>,
                live0: set<nat>, live1: set<nat>, next0: nat)
    requires s0 <= Union(m) && Kept(live0, s0, live1, s1, next0)
    requires id in m ==> m[id] <= s0
    ensures Kept(live0, Union(m), live1, Union(m[id := s1]), next0)
  {
    var m1 := m[id := s1];
    forall h | h in Union(m1) - Union(m)
      ensures next0 <= h
    {
      var k :| k in m1 && h in m1[k];
      assert k == id;
      assert h in s1 - s0;
    }
  }

  /** Two steps that each keep the rest of the heap keep it together. */
  lemma KeptTrans(l0: set<nat>, h0: set<nat>, l1: set<nat>, h1: set<nat>, l2: set<nat>, h2: set<nat>, n0: nat, n1: nat)
    requires Kept(l0, h0, l1, h1, n0) && Kept(l1, h1, l2, h2, n1) && n0 <= n1
    requires forall h :: h in l0 ==> h < n0
    ensures Kept(l0, h0, l2, h2, n0)
  {
    forall x | x in l0 - h0
      ensures x in l2
    {
      assert x in l1;
      if x in h1 {
        assert x in h1 - h0;
      }
    }
    forall x | x in l2 - l0
      ensures n0 <= x
    {
      if x in l1 {
        assert x in l1 - l0;
      } else {
        assert x in l2 - l1;
      }
    }
    forall x | x in h2 - h0
      ensures n0 <= x
    {
      if x in h1 {
        assert x in h1 - h0;
      } else {
        assert x in h2 - h1;
      }
    }
  }

  /** Actors were dropped: exactly the paths they held were released. */
  ghost predicate Released(live0: set<nat>, held0: set<nat>, live1: set<nat>, held1: set<nat>) {
    held1 <= held0 && live1 == live0 - (held0 - held1)
  }

  lemma ReleasedKept(l0: set<nat>, h0: set<nat>, l1: set<nat>, h1: set<nat>, next: nat)
    requires Released(l0, h0, l1, h1)
    ensures Kept(l0, h0, l1, h1, next)
  {
  }

  // ---------------------------------------------------------------------------
  // Reading the actors

  /** The objects behind a map of actors. */
  ghost function ObjsOf(m: map<ItemId, ActorRef>): set<object> {
    set k | k in m :: Obj(m[k])
  }

  /**
   * DoorReactor's cache: the doors of every door actor, concatenated in the
   * map's iteration order `ks`.
   */
  ghost function CacheOf(m: map<ItemId, ActorRef>, ks: seq<ItemId>): seq<DoorActors.DoorComponent>
    requires forall i :: 0 <= i < |ks| ==> ks[i] in m
    reads ObjsOf(m)
  {
    if ks == [] then []
    else
      var k := ks[|ks| - 1];
      CacheOf(m, ks[..|ks| - 1]) + (if m[k].DoorA? then m[k].door.doors else [])
  }

  /** The paths the actors under `ks` hold. */
  ghost function HeldIn(m: map<ItemId, ActorRef>, ks: seq<ItemId>): set<nat>
    requires forall i :: 0 <= i < |ks| ==> ks[i] in m
    reads ObjsOf(m)
  {
    if ks == [] then {} else HeldIn(m, ks[..|ks| - 1]) + ActorHeld(m[ks[|ks| - 1]])
  }

  lemma InUnion(m: map<ItemId, set<nat>>, k: ItemId)
    requires k in m
    ensures m[k] <= Union(m)
  {
  }

  /** The paths each actor holds. */
  ghost function HeldMap(m: map<ItemId, ActorRef>): map<ItemId, set<nat>>
    reads ObjsOf(m)
  {
    map k | k in m :: ActorHeld(m[k])
  }

  /**
   * A reactor's map is consistent: it agrees with its iteration order, every actor
   * is of the reactor's kind and consistent, and no two keys share an actor or a
   * native path.
   */
  ghost predicate MapValid(kind: Kind, m: map<ItemId, ActorRef>, order: seq<ItemId>, live: set<nat>, bound: LocalId)
    reads ObjsOf(m)
  {
    && DistinctKeys(order) && (forall k :: k in m <==> k in order)
    && (forall k :: k in m ==> KindOf(m[k]) == kind && ActorValid(m[k], live, bound))
    && (forall k, j :: k in m && j in m && k != j ==>
          Obj(m[k]) != Obj(m[j]) && ActorHeld(m[k]) !! ActorHeld(m[j]))
  }

  lemma MapHandlesLive(kind: Kind, m: map<ItemId, ActorRef>, order: seq<ItemId>, live: set<nat>, bound: LocalId)
    requires MapValid(kind, m, order, live, bound)
    ensures Union(HeldMap(m)) <= live
  {
    forall h | h in Union(HeldMap(m))
      ensures h in live
    {
      var k :| k in HeldMap(m) && h in HeldMap(m)[k];
      HeldLive(m[k], live, bound);
    }
  }

  /** Validity survives paths no actor holds changing, and more ids being generated. */
  lemma MapValidMono(kind: Kind, m: map<ItemId, ActorRef>, order: seq<ItemId>,
                     live0: set<nat>, live1: set<nat>, b0: LocalId, b1: LocalId)
    requires MapValid(kind, m, order, live0, b0) && Union(HeldMap(m)) <= live1 && b0 <= b1
    ensures MapValid(kind, m, order, live1, b1)
  {
    forall k | k in m
      ensures ActorValid(m[k], live1, b1)
    {
      InUnion(HeldMap(m), k);
      ValidMono(m[k], live0, live1, b0, b1);
    }
  }

  /** Paths allocated after `next0` are not held by any actor of a consistent map. */
  lemma FreshApart(kind: Kind, m: map<ItemId, ActorRef>, order: seq<ItemId>, live0: set<nat>, b0: LocalId,
                   next0: nat, s: set<nat>, k: ItemId)
    requires MapValid(kind, m, order, live0, b0) && k in m
    requires forall h :: h in live0 ==> h < next0
    requires forall h :: h in s ==> next0 <= h
    ensures s !! ActorHeld(m[k])
  {
    HeldLive(m[k], live0, b0);
  }

  /** Storing a new actor, built on fresh paths, under `id` keeps the map consistent. */
  lemma PutValid(kind: Kind, m: map<ItemId, ActorRef>, order: seq<ItemId>, id: ItemId, a: ActorRef,
                 live0: set<nat>, live1: set<nat>, b0: LocalId, b1: LocalId, next0: nat)
    requires MapValid(kind, m, order, live0, b0) && b0 <= b1
    requires forall h :: h in live0 ==> h < next0
    requires KindOf(a) == kind && ActorValid(a, live1, b1) && Obj(a) !in ObjsOf(m)
    requires Kept(live0, {}, live1, ActorHeld(a), next0)
    ensures MapValid(kind, m[id := a], if id in m then order else order + [id], live1, b1)
  {
    var m1 := m[id := a];
    var order1 := if id in m then order else order + [id];
    forall k | k in m1 && k != id
      ensures ActorValid(m1[k], live1, b1)
    {
      HeldLive(m[k], live0, b0);
      ValidMono(m1[k], live0, live1, b0, b1);
    }
    assert forall h :: h in ActorHeld(a) ==> next0 <= h by {
      forall h | h in ActorHeld(a)
        ensures next0 <= h
      {
        assert h in ActorHeld(a) - {};
      }
    }
    forall k, j | k in m1 && j in m1 && k != j
      ensures Obj(m1[k]) != Obj(m1[j]) && ActorHeld(m1[k]) !! ActorHeld(m1[j])
    {
      if k == id {
        FreshApart(kind, m, order, live0, b0, next0, ActorHeld(a), j);
      } else if j == id {
        FreshApart(kind, m, order, live0, b0, next0, ActorHeld(a), k);
      }
    }
    if id !in m {
      assert forall i :: 0 <= i < |order| ==> order1[i] == order[i];
    }
  }

  /** ... and the heap outside the map's paths is kept. */
  lemma PutKept(kind: Kind, m: map<ItemId, ActorRef>, order: seq<ItemId>, id: ItemId, a: ActorRef,
                live0: set<nat>, live1: set<nat>, b0: LocalId, next0: nat)
    requires MapValid(kind, m, order, live0, b0) && Obj(a) !in ObjsOf(m)
    requires Kept(live0, {}, live1, ActorHeld(a), next0)
    ensures Kept(live0, Union(HeldMap(m)), live1, Union(HeldMap(m[id := a])), next0)
  {
    var h0 := HeldMap(m);
    assert HeldMap(m[id := a]) == h0[id := ActorHeld(a)];
    var s0 := if id in m then h0[id] else {};
    if id in m {
      InUnion(h0, id);
    }
    assert forall h :: h in ActorHeld(a) - s0 ==> h in ActorHeld(a) - {};
    KeptPut(h0, id, s0, ActorHeld(a), live0, live1, next0);
  }

  /** The held-paths map, recognised from its entries. */
  lemma HeldMapIs(m: map<ItemId, ActorRef>, h: map<ItemId, set<nat>>)
    requires h.Keys == m.Keys && forall k :: k in m ==> ActorHeld(m[k]) == h[k]
    ensures HeldMap(m) == h
  {
  }

  /** Reactors, the native heap, the id source and the patcher are never actors. */
  lemma NotAnActor(m: map<ItemId, ActorRef>, o: object)
    requires o is Reactor || o is Natives || o is IdSource || o is Patcher
    ensures o !in ObjsOf(m) && forall k :: k in m ==> Obj(m[k]) != o
  {
  }

  /** The parts of validity, restated after a call that left the actors alone. */
  lemma StillValid(kind: Kind, m: map<ItemId, ActorRef>, ord: seq<ItemId>, live: set<nat>, bound: LocalId)
    requires DistinctKeys(ord) && (forall k :: k in m <==> k in ord)
    requires forall k :: k in m ==> KindOf(m[k]) == kind && ActorValid(m[k], live, bound)
    requires forall k, j :: k in m && j in m && k != j ==>
               Obj(m[k]) != Obj(m[j]) && ActorHeld(m[k]) !! ActorHeld(m[j])
    ensures MapValid(kind, m, ord, live, bound)
  {
  }


  /**
   * The actor under `parent.id` updated in place; the map itself, and every other
   * actor, is left as it was.
   */
  method UpdateAt(kind: Kind, m: map<ItemId, ActorRef>, order: seq<ItemId>, kit: Kit, natives: Natives,
                  ids: IdSource, patcher: Patcher, cache: seq<DoorActors.DoorComponent>, parent: Item)
    requires parent.id in m
    requires MapValid(kind, m, order, natives.live, ids.next) && natives.Valid() && patcher.Valid()
    requires natives !in ObjsOf(m) && ids !in ObjsOf(m) && patcher !in ObjsOf(m)
    modifies Obj(m[parent.id]), natives, ids, patcher
    ensures MapValid(kind, m, order, natives.live, ids.next) && natives.Valid() && patcher.Valid()
    ensures Kept(old(natives.live), old(Union(HeldMap(m))), natives.live, Union(HeldMap(m)), old(natives.next))
    ensures old(natives.next) <= natives.next && old(ids.next) <= ids.next
    ensures patcher.ready == old(patcher.ready) && patcher.sent == old(patcher.sent)
    ensures patcher.State() == old(UpdateStaging(m[parent.id], kit, cache, parent, ids.next, patcher.State()))
    ensures kind == SelfLightKind || kind == LightOverlayKind ==> patcher.State() == old(patcher.State())
  {
    var a := m[parent.id];
    ghost var live0, b0, h0 := natives.live, ids.next, HeldMap(m);
    InUnion(h0, parent.id);
    assert forall k :: k in m ==> allocated(Obj(m[k]));
    UpdateActor(a, kit, natives, ids, patcher, cache, parent);
    assert forall k :: k in m && k != parent.id ==> ActorValid(m[k], live0, b0) && ActorHeld(m[k]) == h0[k];
    OneChanged(kind, m, order, parent.id, live0, natives.live, b0, ids.next, old(natives.next), h0);
    KeptPut(h0, parent.id, h0[parent.id], ActorHeld(a), live0, natives.live, old(natives.next));
  }

  /**
   * A new actor for `parent`, consistent with the map `m` it is about to join under
   * `parent.id`; the native heap outside the map's paths is kept.
   */
  method Spawn(kind: Kind, m: map<ItemId, ActorRef>, order: seq<ItemId>, kit: Kit, natives: Natives,
               ids: IdSource, patcher: Patcher, cache: seq<DoorActors.DoorComponent>,
               lightWalls: seq<seq<Vec2>>, parent: Item)
    returns (a: ActorRef)
    requires MapValid(kind, m, order, natives.live, ids.next) && natives.Valid() && patcher.Valid()
    requires natives !in ObjsOf(m) && ids !in ObjsOf(m) && patcher !in ObjsOf(m)
    modifies natives, ids, patcher
    ensures fresh(Obj(a)) && KindOf(a) == kind
    ensures MapValid(kind, m[parent.id := a], if parent.id in m then order else order + [parent.id],
                     natives.live, ids.next)
    ensures Kept(old(natives.live), old(Union(HeldMap(m))), natives.live, Union(HeldMap(m[parent.id := a])),
                 old(natives.next))
    ensures natives.Valid() && old(natives.live) <= natives.live
    ensures old(natives.next) <= natives.next && old(ids.next) <= ids.next
    ensures patcher.Valid() && patcher.ready == old(patcher.ready) && patcher.sent == old(patcher.sent)
    ensures patcher.State() == old(patcher.State()).Add(Created(kind, kit, cache, lightWalls, parent, old(ids.next)))
    ensures ids.next == old(ids.next) + |Created(kind, kit, cache, lightWalls, parent, old(ids.next))|
  {
    ghost var live0, b0, objs0 := natives.live, ids.next, ObjsOf(m);
    assert forall k :: k in m ==> allocated(Obj(m[k]));
    label Before:
    a := NewActor(kind, kit, natives, ids, patcher, cache, lightWalls, parent, objs0);
    assert forall k :: k in m ==> ActorValid(m[k], live0, b0) && ActorHeld(m[k]) == old@Before(ActorHeld(m[k]));
    StillValid(kind, m, order, live0, b0);
    HeldMapIs(m, old@Before(HeldMap(m)));
    assert Obj(a) !in objs0;
    PutValid(kind, m, order, parent.id, a, live0, natives.live, b0, ids.next, old(natives.next));
    PutKept(kind, m, order, parent.id, a, live0, natives.live, b0, old(natives.next));
  }

  /** Dropping one actor releases exactly its paths from the union. */
  lemma UnionRemove(m: map<ItemId, set<nat>>, id: ItemId)
    requires id in m && forall k :: k in m && k != id ==> m[k] !! m[id]
    ensures Union(m - {id}) == Union(m) - m[id]
  {
    forall h | h in Union(m) - m[id]
      ensures h in Union(m - {id})
    {
      var k :| k in m && h in m[k];
      assert k != id;
      assert (m - {id})[k] == m[k];
    }
  }

  lemma HeldMapRemove(m: map<ItemId, ActorRef>, id: ItemId)
    ensures HeldMap(m - {id}) == HeldMap(m) - {id}
  {
  }

  /** Removing an actor whose paths were released keeps the rest of the map consistent. */
  lemma RemoveValid(kind: Kind, m: map<ItemId, ActorRef>, order: seq<ItemId>, id: ItemId,
                    live0: set<nat>, live1: set<nat>, b: LocalId)
    requires MapValid(kind, m, order, live0, b) && id in m && live1 == live0 - ActorHeld(m[id])
    ensures MapValid(kind, m - {id}, Without(order, id), live1, b)
  {
    var m1 := m - {id};
    forall k | k in m1
      ensures ActorValid(m1[k], live1, b)
    {
      HeldLive(m[k], live0, b);
      ValidMono(m[k], live0, live1, b, b);
    }
  }

  /**
   * One actor of a consistent map was updated and the others left alone: the map
   * stays consistent as long as the actor only gained new paths. `held0` is what
   * each actor held before the update.
   */
  lemma OneChanged(kind: Kind, m: map<ItemId, ActorRef>, order: seq<ItemId>, id: ItemId,
                   live0: set<nat>, live1: set<nat>, b0: LocalId, b1: LocalId, next0: nat,
                   held0: map<ItemId, set<nat>>)
    requires DistinctKeys(order) && (forall k :: k in m <==> k in order) && id in m && b0 <= b1
    requires held0.Keys == m.Keys && forall k :: k in m ==> KindOf(m[k]) == kind
    requires forall k, j :: k in m && j in m && k != j ==> Obj(m[k]) != Obj(m[j]) && held0[k] !! held0[j]
    requires forall k :: k in m && k != id ==> ActorValid(m[k], live0, b0) && ActorHeld(m[k]) == held0[k]
    requires ActorValid(m[id], live1, b1) && forall h :: h in live0 ==> h < next0
    requires Kept(live0, held0[id], live1, ActorHeld(m[id]), next0)
    ensures MapValid(kind, m, order, live1, b1)
    ensures HeldMap(m) == held0[id := ActorHeld(m[id])]
  {
    forall k | k in m && k != id
      ensures ActorValid(m[k], live1, b1)
    {
      HeldLive(m[k], live0, b0);
      assert held0[k] !! held0[id];
      ValidMono(m[k], live0, live1, b0, b1);
    }
    forall k, j | k in m && j in m && k != j
      ensures ActorHeld(m[k]) !! ActorHeld(m[j])
    {
      if k == id || j == id {
        var o := if k == id then j else k;
        assert held0[o] !! held0[id];
        HeldLive(m[o], live0, b0);
        forall h | h in ActorHeld(m[id]) && h !in held0[id]
          ensures h !in ActorHeld(m[o])
        {
          assert h in ActorHeld(m[id]) - held0[id];
        }
      }
    }
    StillValid(kind, m, order, live1, b1);
    HeldMapIs(m, held0[id := ActorHeld(m[id])]);
  }

  /** The keys an added phase leaves in the map's iteration order: a new key goes last. */
  function Appended(order: seq<ItemId>, added: seq<Item>): (r: seq<ItemId>)
    ensures forall k :: k in r <==> k in order || k in Ids(added)
    ensures DistinctKeys(order) ==> DistinctKeys(r)
  {
    if added == [] then order
    else
      var p := Appended(order, added[..|added| - 1]);
      var id := added[|added| - 1].id;
      assert Ids(added) == Ids(added[..|added| - 1]) + {id} by {
        IdsSnoc(added, |added| - 1);
        assert added[..|added| - 1 + 1] == added;
      }
      if id in p then p else p + [id]
  }

  /** One more added item: its key is appended unless the order already has it. */
  lemma AppendedStep(order: seq<ItemId>, added: seq<Item>, i: nat)
    requires i < |added|
    ensures Appended(order, added[..i + 1])
         == var p := Appended(order, added[..i]); if added[i].id in p then p else p + [added[i].id]
  {
    assert added[..i + 1][..i] == added[..i];
  }

  /** The map and order an added phase reaches from `m0` and `o0` after its first `i` items. */
  ghost predicate Extends(m0: map<ItemId, ActorRef>, o0: seq<ItemId>, m: map<ItemId, ActorRef>, o: seq<ItemId>,
                          added: seq<Item>, i: nat)
  {
    && i <= |added| && m.Keys == m0.Keys + Ids(added[..i]) && o == Appended(o0, added[..i])
    && (forall k :: k in m && k !in Ids(added[..i]) ==> m[k] == m0[k])
  }

  lemma ExtendsStep(m0: map<ItemId, ActorRef>, o0: seq<ItemId>, m: map<ItemId, ActorRef>, o: seq<ItemId>,
                    added: seq<Item>, i: nat, a: ActorRef)
    requires i < |added| && Extends(m0, o0, m, o, added, i) && forall k :: k in m <==> k in o
    ensures Extends(m0, o0, m[added[i].id := a], if added[i].id in m then o else o + [added[i].id], added, i + 1)
  {
    ExtendsKeys(m0, o0, m, o, added, i, a);
    ExtendsOrder(m0, o0, m, o, added, i);
    ExtendsKept(m0, o0, m, o, added, i, a);
  }

  lemma ExtendsKeys(m0: map<ItemId, ActorRef>, o0: seq<ItemId>, m: map<ItemId, ActorRef>, o: seq<ItemId>,
                    added: seq<Item>, i: nat, a: ActorRef)
    requires i < |added| && m.Keys == m0.Keys + Ids(added[..i])
    ensures m[added[i].id := a].Keys == m0.Keys + Ids(added[..i + 1])
  {
    IdsSnoc(added, i);
  }

  lemma ExtendsOrder(m0: map<ItemId, ActorRef>, o0: seq<ItemId>, m: map<ItemId, ActorRef>, o: seq<ItemId>,
                     added: seq<Item>, i: nat)
    requires i < |added| && o == Appended(o0, added[..i]) && forall k :: k in m <==> k in o
    ensures (if added[i].id in m then o else o + [added[i].id]) == Appended(o0, added[..i + 1])
  {
    AppendedStep(o0, added, i);
    assert added[i].id in m <==> added[i].id in o;
  }

  lemma ExtendsKept(m0: map<ItemId, ActorRef>, o0: seq<ItemId>, m: map<ItemId, ActorRef>, o: seq<ItemId>,
                    added: seq<Item>, i: nat, a: ActorRef)
    requires i < |added| && Extends(m0, o0, m, o, added, i)
    ensures forall k :: k in m[added[i].id := a] && k !in Ids(added[..i + 1]) ==> m[added[i].id := a][k] == m0[k]
  {
    IdsSnoc(added, i);
  }

  /** What the added phase is known to have done after its first `i` items. */
  ghost predicate Grown(kind: Kind, m0: map<ItemId, ActorRef>, o0: seq<ItemId>, m: map<ItemId, ActorRef>,
                        o: seq<ItemId>, added: seq<Item>, i: nat, live0: set<nat>, held0: set<nat>, next0: nat,
                        natives: Natives, ids: IdSource)
    reads ObjsOf(m), natives, ids
  {
    && Extends(m0, o0, m, o, added, i) && MapValid(kind, m, o, natives.live, ids.next) && natives.Valid()
    && live0 <= natives.live && next0 <= natives.next
    && Kept(live0, held0, natives.live, Union(HeldMap(m)), next0)
  }

  /**
   * One step of the added phase over a map; `made` is what the new actor's
   * constructor staged.
   */
  method SpawnNext(kind: Kind, ghost m0: map<ItemId, ActorRef>, ghost o0: seq<ItemId>,
                   m: map<ItemId, ActorRef>, o: seq<ItemId>, kit: Kit, natives: Natives,
                   ids: IdSource, patcher: Patcher, cache: seq<DoorActors.DoorComponent>,
                   lightWalls: seq<seq<Vec2>>, added: seq<Item>, i: nat,
                   ghost live0: set<nat>, ghost held0: set<nat>, ghost next0: nat)
    returns (m': map<ItemId, ActorRef>, o': seq<ItemId>, ghost made: seq<LocalItem>)
    requires i < |added| && forall h :: h in live0 ==> h < next0
    requires Grown(kind, m0, o0, m, o, added, i, live0, held0, next0, natives, ids)
    requires patcher.Valid()
    modifies natives, ids, patcher
    ensures Grown(kind, m0, o0, m', o', added, i + 1, live0, held0, next0, natives, ids)
    ensures m' == m[added[i].id := m'[added[i].id]] && fresh(Obj(m'[added[i].id]))
    ensures patcher.Valid() && patcher.ready == old(patcher.ready) && patcher.sent == old(patcher.sent)
    ensures patcher.State() == old(patcher.State()).Add(made) && ids.next == old(ids.next) + |made|
  {
    ghost var l, h, n := natives.live, Union(HeldMap(m)), natives.next;
    NotAnActor(m, natives);
    NotAnActor(m, ids);
    NotAnActor(m, patcher);
    var a := Spawn(kind, m, o, kit, natives, ids, patcher, cache, lightWalls, added[i]);
    made := Created(kind, kit, cache, lightWalls, added[i], old(ids.next));
    KeptTrans(live0, held0, l, h, natives.live, Union(HeldMap(m[added[i].id := a])), next0, n);
    ExtendsStep(m0, o0, m, o, added, i, a);
    o' := if added[i].id in m then o else o + [added[i].id];
    m' := m[added[i].id := a];
  }

  /** The added phase's loop: one new actor per added item, in order. */
  method SpawnEach(kind: Kind, m0: map<ItemId, ActorRef>, o0: seq<ItemId>, kit: Kit, natives: Natives,
                   ids: IdSource, patcher: Patcher, cache: seq<DoorActors.DoorComponent>,
                   lightWalls: seq<seq<Vec2>>, added: seq<Item>)
    returns (m: map<ItemId, ActorRef>, o: seq<ItemId>, ghost made: seq<LocalItem>)
    requires MapValid(kind, m0, o0, natives.live, ids.next) && natives.Valid() && patcher.Valid()
    modifies natives, ids, patcher
    ensures Grown(kind, m0, o0, m, o, added, |added|, old(natives.live), old(Union(HeldMap(m0))),
                  old(natives.next), natives, ids)
    ensures forall k :: k in Ids(added[..|added|]) ==> fresh(Obj(m[k]))
    ensures patcher.Valid() && patcher.ready == old(patcher.ready) && patcher.sent == old(patcher.sent)
    ensures patcher.State() == old(patcher.State()).Add(made) && ids.next == old(ids.next) + |made|
  {
    m, o, made := m0, o0, [];
    ghost var live0, held0, next0 := natives.live, Union(HeldMap(m0)), natives.next;
    ghost var state0 := patcher.State();
    assert added[..0] == [];
    state0.AddNone();
    var i := 0;
    while i != |added|
      invariant i <= |added|
      invariant Grown(kind, m0, o0, m, o, added, i, live0, held0, next0, natives, ids)
      invariant forall k :: k in Ids(added[..i]) ==> fresh(Obj(m[k]))
      invariant patcher.Valid() && patcher.ready == old(patcher.ready) && patcher.sent == old(patcher.sent)
      invariant patcher.State() == state0.Add(made) && ids.next == old(ids.next) + |made|
    {
      ghost var piece;
      m, o, piece := SpawnNext(kind, m0, o0, m, o, kit, natives, ids, patcher, cache, lightWalls, added, i,
                               live0, held0, next0);
      state0.AddTwice(made, piece);
      made := made + piece;
      IdsSnoc(added, i);
      i := i + 1;
    }
  }

  /**
   * The added phase over a map: a new actor for every added item, stored under its
   * id; `made` is what their constructors staged, in order.
   */
  method SpawnAll(kind: Kind, m0: map<ItemId, ActorRef>, o0: seq<ItemId>, kit: Kit, natives: Natives,
                  ids: IdSource, patcher: Patcher, cache: seq<DoorActors.DoorComponent>,
                  lightWalls: seq<seq<Vec2>>, added: seq<Item>)
    returns (m: map<ItemId, ActorRef>, o: seq<ItemId>, ghost made: seq<LocalItem>)
    requires MapValid(kind, m0, o0, natives.live, ids.next) && natives.Valid() && patcher.Valid()
    modifies natives, ids, patcher
    ensures MapValid(kind, m, o, natives.live, ids.next) && natives.Valid() && patcher.Valid()
    ensures patcher.ready == old(patcher.ready) && patcher.sent == old(patcher.sent)
    ensures m.Keys == m0.Keys + Ids(added) && o == Appended(o0, added)
    ensures forall k :: k in m && k !in Ids(added) ==> m[k] == m0[k]
    ensures forall k :: k in Ids(added) ==> fresh(Obj(m[k]))
    ensures old(natives.live) <= natives.live
    ensures Kept(old(natives.live), old(Union(HeldMap(m0))), natives.live, Union(HeldMap(m)), old(natives.next))
    ensures old(natives.next) <= natives.next
    ensures patcher.State() == old(patcher.State()).Add(made) && ids.next == old(ids.next) + |made|
  {
    m, o, made := SpawnEach(kind, m0, o0, kit, natives, ids, patcher, cache, lightWalls, added);
    assert added[..|added|] == added;
  }

  /** The keys a deleted phase leaves, in the same order. */
  function Removed(order: seq<ItemId>, deleted: seq<Item>): (r: seq<ItemId>)
    ensures forall k :: k in r <==> k in order && k !in Ids(deleted)
    ensures DistinctKeys(order) ==> DistinctKeys(r)
  {
    if deleted == [] then order
    else
      var id := deleted[|deleted| - 1].id;
      assert Ids(deleted) == Ids(deleted[..|deleted| - 1]) + {id} by {
        IdsSnoc(deleted, |deleted| - 1);
        assert deleted[..|deleted| - 1 + 1] == deleted;
      }
      Without(Removed(order, deleted[..|deleted| - 1]), id)
  }

  /** The paths held under keys `ks` are those of the actors under them. */
  lemma {:induction false} HeldInHas(m: map<ItemId, ActorRef>, ks: seq<ItemId>, h: nat)
    requires forall i :: 0 <= i < |ks| ==> ks[i] in m
    ensures h in HeldIn(m, ks) <==> exists i :: 0 <= i < |ks| && h in ActorHeld(m[ks[i]])
  {
    if ks != [] {
      var ks0 := ks[..|ks| - 1];
      HeldInHas(m, ks0, h);
      if h in HeldIn(m, ks0) {
        var i :| 0 <= i < |ks0| && h in ActorHeld(m[ks0[i]]);
        assert ks[i] == ks0[i];
      }
      if exists i :: 0 <= i < |ks| && h in ActorHeld(m[ks[i]]) {
        var i :| 0 <= i < |ks| && h in ActorHeld(m[ks[i]]);
        if i < |ks| - 1 {
          assert ks0[i] == ks[i];
        }
      }
    }
  }

  /** Over the whole iteration order, they are every path the map holds. */
  lemma HeldInAll(kind: Kind, m: map<ItemId, ActorRef>, order: seq<ItemId>, live: set<nat>, b: LocalId)
    requires MapValid(kind, m, order, live, b)
    ensures forall i :: 0 <= i < |order| ==> order[i] in m
    ensures HeldIn(m, order) == Union(HeldMap(m))
  {
    forall h
      ensures h in HeldIn(m, order) <==> h in Union(HeldMap(m))
    {
      HeldInHas(m, order, h);
      if h in Union(HeldMap(m)) {
        var k :| k in HeldMap(m) && h in HeldMap(m)[k];
        var i :| 0 <= i < |order| && order[i] == k;
      }
      if h in HeldIn(m, order) {
        var i :| 0 <= i < |order| && h in ActorHeld(m[order[i]]);
        assert HeldMap(m)[order[i]] == ActorHeld(m[order[i]]);
        InUnion(HeldMap(m), order[i]);
      }
    }
  }

  /**
   * The actor under `id` releases what it holds and stages its deletions; the rest
   * of the map is consistent without it.
   */
  method Release(kind: Kind, m: map<ItemId, ActorRef>, order: seq<ItemId>, id: ItemId,
                 natives: Natives, patcher: Patcher, bound: LocalId)
    requires MapValid(kind, m, order, natives.live, bound) && natives.Valid() && patcher.Valid() && id in m
    requires natives !in ObjsOf(m) && patcher !in ObjsOf(m)
    modifies natives, patcher
    ensures MapValid(kind, m - {id}, Without(order, id), natives.live, bound)
    ensures HeldMap(m - {id}) == old(HeldMap(m)) - {id}
    ensures old(ActorHeld(m[id])) <= old(Union(HeldMap(m)))
    ensures Union(old(HeldMap(m)) - {id}) == old(Union(HeldMap(m))) - old(ActorHeld(m[id]))
    ensures natives.Valid() && natives.next == old(natives.next)
    ensures natives.live == old(natives.live) - old(ActorHeld(m[id]))
    ensures patcher.Valid() && patcher.ready == old(patcher.ready) && patcher.sent == old(patcher.sent)
    ensures patcher.State() == old(patcher.State()).Delete(old(LocalIdsOf(m[id])))
  {
    ghost var live0, h0 := natives.live, HeldMap(m);
    assert h0[id] == ActorHeld(m[id]) && ActorHeld(m[id]) <= live0 && h0[id] <= Union(h0) by {
      HeldLive(m[id], live0, bound);
      InUnion(h0, id);
    }
    assert Union(h0 - {id}) == Union(h0) - h0[id] by {
      assert forall k :: k in h0 && k != id ==> h0[k] !! h0[id];
      UnionRemove(h0, id);
    }
    assert forall k :: k in m ==> allocated(Obj(m[k]));
    DeleteActor(m[id], natives, patcher, bound);
    assert forall k :: k in m ==> ActorValid(m[k], live0, bound) && ActorHeld(m[k]) == old(ActorHeld(m[k]));
    StillValid(kind, m, order, live0, bound);
    HeldMapIs(m, h0);
    RemoveValid(kind, m, order, id, live0, natives.live, bound);
    HeldMapRemove(m, id);
  }

  /** Each actor's staged-deletion ids, read once before a deleted phase. */
  ghost function LocalIdsMap(m: map<ItemId, ActorRef>): (r: map<ItemId, seq<LocalId>>)
    reads ObjsOf(m)
    ensures r.Keys == m.Keys && forall k :: k in m ==> r[k] == LocalIdsOf(m[k])
  {
    map k | k in m :: LocalIdsOf(m[k])
  }

  /** The ids a deleted phase stages: those of each deleted item still mapped when it comes up. */
  function DeletedIds(lids: map<ItemId, seq<LocalId>>, deleted: seq<Item>): seq<LocalId> {
    if deleted == [] then []
    else
      var init, id := deleted[..|deleted| - 1], deleted[|deleted| - 1].id;
      DeletedIds(lids, init) + (if id in lids && id !in Ids(init) then lids[id] else [])
  }

  /** What the deleted phase is known to have done after its first `i` items. */
  ghost predicate Shrunk(kind: Kind, m0: map<ItemId, ActorRef>, o0: seq<ItemId>, m: map<ItemId, ActorRef>,
                         o: seq<ItemId>, deleted: seq<Item>, i: nat, live0: set<nat>, held0: set<nat>,
                         lids0: map<ItemId, seq<LocalId>>, natives: Natives, bound: LocalId)
    reads ObjsOf(m), natives
  {
    && i <= |deleted| && m == m0 - Ids(deleted[..i]) && o == Removed(o0, deleted[..i])
    && MapValid(kind, m, o, natives.live, bound) && natives.Valid()
    && Released(live0, held0, natives.live, Union(HeldMap(m)))
    && lids0.Keys == m0.Keys && (forall k :: k in m ==> LocalIdsOf(m[k]) == lids0[k])
  }

  lemma ShrunkStep(m0: map<ItemId, ActorRef>, o0: seq<ItemId>, m: map<ItemId, ActorRef>, o: seq<ItemId>,
                   lids0: map<ItemId, seq<LocalId>>, deleted: seq<Item>, i: nat)
    requires i < |deleted| && m == m0 - Ids(deleted[..i]) && o == Removed(o0, deleted[..i])
    requires lids0.Keys == m0.Keys && forall k :: k in m <==> k in o
    ensures var id := deleted[i].id;
      && m - {id} == m0 - Ids(deleted[..i + 1]) && Without(o, id) == Removed(o0, deleted[..i + 1])
      && DeletedIds(lids0, deleted[..i + 1])
         == DeletedIds(lids0, deleted[..i]) + (if id in m then lids0[id] else [])
      && (id !in m ==> m - {id} == m && Without(o, id) == o)
  {
    assert deleted[..i + 1][..i] == deleted[..i];
    IdsSnoc(deleted, i);
    var id := deleted[i].id;
    assert m - {id} == m0 - Ids(deleted[..i + 1]) by {
      MinusStep(m0, Ids(deleted[..i]), id);
    }
  }

  lemma MinusStep(m0: map<ItemId, ActorRef>, s: set<ItemId>, id: ItemId)
    ensures (m0 - s) - {id} == m0 - (s + {id})
  {
  }

  lemma ReleasedDrop(live0: set<nat>, held0: set<nat>, live: set<nat>, u: set<nat>, h: set<nat>)
    requires Released(live0, held0, live, u) && h <= u
    ensures Released(live0, held0, live - h, u - h)
  {
  }


  /** One pass of the deleted phase over a map: the actor under item `i`'s id, if any, is released. */
  method ReleaseNext(kind: Kind, ghost m0: map<ItemId, ActorRef>, ghost o0: seq<ItemId>,
                     m: map<ItemId, ActorRef>, o: seq<ItemId>, natives: Natives, patcher: Patcher,
                     deleted: seq<Item>, i: nat, bound: LocalId, ghost live0: set<nat>, ghost held0: set<nat>,
                     ghost lids0: map<ItemId, seq<LocalId>>, ghost state0: Staging)
    returns (m': map<ItemId, ActorRef>, o': seq<ItemId>)
    requires i < |deleted| && Shrunk(kind, m0, o0, m, o, deleted, i, live0, held0, lids0, natives, bound)
    requires patcher.Valid() && patcher.State() == state0.Delete(DeletedIds(lids0, deleted[..i]))
    modifies natives, patcher
    ensures Shrunk(kind, m0, o0, m', o', deleted, i + 1, live0, held0, lids0, natives, bound)
    ensures patcher.Valid() && patcher.ready == old(patcher.ready) && patcher.sent == old(patcher.sent)
    ensures patcher.State() == state0.Delete(DeletedIds(lids0, deleted[..i + 1]))
    ensures natives.next == old(natives.next)
  {
    var id := deleted[i].id;
    ShrunkStep(m0, o0, m, o, lids0, deleted, i);
    if id in m {
      NotAnActor(m, natives);
      NotAnActor(m, patcher);
      ghost var l, u, h := natives.live, Union(HeldMap(m)), ActorHeld(m[id]);
      assert forall k :: k in m ==> allocated(Obj(m[k]));
      label Pre:
      Release(kind, m, o, id, natives, patcher, bound);
      m', o' := m - {id}, Without(o, id);
      ReleasedDrop(live0, held0, l, u, h);
      assert forall k :: k in m' ==> LocalIdsOf(m'[k]) == old@Pre(LocalIdsOf(m'[k]));
      state0.DeleteTwice(DeletedIds(lids0, deleted[..i]), lids0[id]);
    } else {
      assert DeletedIds(lids0, deleted[..i]) + [] == DeletedIds(lids0, deleted[..i]);
      m', o' := m, o;
    }
  }

  /** The deleted phase over a map: every deleted item's actor, if any, releases its paths and is dropped. */
  method ReleaseAll(kind: Kind, m0: map<ItemId, ActorRef>, o0: seq<ItemId>, natives: Natives, patcher: Patcher,
                    deleted: seq<Item>, bound: LocalId)
    returns (m: map<ItemId, ActorRef>, o: seq<ItemId>)
    requires MapValid(kind, m0, o0, natives.live, bound) && natives.Valid() && patcher.Valid()
    modifies natives, patcher
    ensures m == m0 - Ids(deleted) && o == Removed(o0, deleted)
    ensures MapValid(kind, m, o, natives.live, bound) && natives.Valid() && natives.next == old(natives.next)
    ensures Released(old(natives.live), old(Union(HeldMap(m0))), natives.live, Union(HeldMap(m)))
    ensures patcher.Valid() && patcher.ready == old(patcher.ready) && patcher.sent == old(patcher.sent)
    ensures patcher.State() == old(patcher.State()).Delete(DeletedIds(old(LocalIdsMap(m0)), deleted))
  {
    m, o := m0, o0;
    ghost var live0, held0, lids0, state0 := natives.live, Union(HeldMap(m0)), LocalIdsMap(m0), patcher.State();
    assert deleted[..0] == [];
    assert state0.Delete([]) == state0;
    var i := 0;
    while i < |deleted|
      invariant Shrunk(kind, m0, o0, m, o, deleted, i, live0, held0, lids0, natives, bound)
      invariant patcher.Valid() && patcher.ready == old(patcher.ready) && patcher.sent == old(patcher.sent)
      invariant patcher.State() == state0.Delete(DeletedIds(lids0, deleted[..i]))
      invariant natives.next == old(natives.next)
    {
      m, o := ReleaseNext(kind, m0, o0, m, o, natives, patcher, deleted, i, bound, live0, held0, lids0, state0);
      i := i + 1;
    }
    assert deleted[..i] == deleted;
  }

  // ---------------------------------------------------------------------------
  // delete: every actor, in the map's order

  /** The staged-deletion ids of the keys `ks`, read from a snapshot `lids`. */
  function LidsAlong(lids: map<ItemId, seq<LocalId>>, ks: seq<ItemId>): seq<LocalId> {
    if ks == [] then []
    else
      var k := ks[|ks| - 1];
      LidsAlong(lids, ks[..|ks| - 1]) + (if k in lids then lids[k] else [])
  }

  ghost function KeysIn(s: seq<ItemId>): set<ItemId> {
    set k | k in s
  }

  /** Dropping the first of distinct keys leaves the rest. */
  lemma {:induction false} WithoutFirst(s: seq<ItemId>)
    requires s != [] && DistinctKeys(s)
    ensures Without(s, s[0]) == s[1..]
  {
    if |s| > 1 {
      var init := s[..|s| - 1];
      assert init[0] == s[0] && s[|s| - 1] != s[0];
      assert DistinctKeys(init) by {
        assert forall i :: 0 <= i < |init| ==> init[i] == s[i];
      }
      WithoutFirst(init);
      assert s[1..] == init[1..] + [s[|s| - 1]];
    }
  }

  /**
   * The deletes of `delete` so far: the actors under `o0[..i]` have released what they
   * hold and left the map; the rest are as they were.
   */
  ghost predicate Emptied(kind: Kind, m0: map<ItemId, ActorRef>, o0: seq<ItemId>, m: map<ItemId, ActorRef>,
                          i: nat, live0: set<nat>, held0: set<nat>, lids0: map<ItemId, seq<LocalId>>,
                          natives: Natives, bound: LocalId)
    reads ObjsOf(m), natives
  {
    && i <= |o0| && m == m0 - KeysIn(o0[..i])
    && MapValid(kind, m, o0[i..], natives.live, bound) && natives.Valid()
    && Released(live0, held0, natives.live, Union(HeldMap(m)))
    && (forall k :: k in m ==> k in lids0 && LocalIdsOf(m[k]) == lids0[k])
  }

  lemma EmptiedStep(m0: map<ItemId, ActorRef>, o0: seq<ItemId>, m: map<ItemId, ActorRef>,
                    lids0: map<ItemId, seq<LocalId>>, i: nat)
    requires i < |o0| && m == m0 - KeysIn(o0[..i])
    requires DistinctKeys(o0[i..]) && forall k :: k in m <==> k in o0[i..]
    ensures o0[i] in m && m - {o0[i]} == m0 - KeysIn(o0[..i + 1])
    ensures Without(o0[i..], o0[i]) == o0[i + 1..]
    ensures LidsAlong(lids0, o0[..i + 1])
         == LidsAlong(lids0, o0[..i]) + (if o0[i] in lids0 then lids0[o0[i]] else [])
  {
    assert o0[i..][0] == o0[i];
    assert o0[..i + 1][..i] == o0[..i];
    assert KeysIn(o0[..i + 1]) == KeysIn(o0[..i]) + {o0[i]} by {
      assert o0[..i + 1] == o0[..i] + [o0[i]];
    }
    MinusStep(m0, KeysIn(o0[..i]), o0[i]);
    WithoutFirst(o0[i..]);
    assert o0[i..][1..] == o0[i + 1..];
  }

  /** One delete of `delete`: the actor under `o0[i]` releases what it holds and leaves the map. */
  method DropNext(kind: Kind, ghost m0: map<ItemId, ActorRef>, o0: seq<ItemId>, m: map<ItemId, ActorRef>,
                  natives: Natives, patcher: Patcher, i: nat, bound: LocalId, ghost live0: set<nat>,
                  ghost held0: set<nat>, ghost lids0: map<ItemId, seq<LocalId>>, ghost state0: Staging)
    returns (m': map<ItemId, ActorRef>)
    requires i < |o0| && Emptied(kind, m0, o0, m, i, live0, held0, lids0, natives, bound)
    requires patcher.Valid() && patcher.State() == state0.Delete(LidsAlong(lids0, o0[..i]))
    modifies natives, patcher
    ensures Emptied(kind, m0, o0, m', i + 1, live0, held0, lids0, natives, bound)
    ensures patcher.Valid() && patcher.ready == old(patcher.ready) && patcher.sent == old(patcher.sent)
    ensures patcher.State() == state0.Delete(LidsAlong(lids0, o0[..i + 1]))
    ensures natives.next == old(natives.next)
  {
    var id := o0[i];
    EmptiedStep(m0, o0, m, lids0, i);
    NotAnActor(m, natives);
    NotAnActor(m, patcher);
    ghost var l, u, h := natives.live, Union(HeldMap(m)), ActorHeld(m[id]);
    assert forall k :: k in m ==> allocated(Obj(m[k]));
    label Pre:
    Release(kind, m, o0[i..], id, natives, patcher, bound);
    m' := m - {id};
    ReleasedDrop(live0, held0, l, u, h);
    assert forall k :: k in m' ==> LocalIdsOf(m'[k]) == old@Pre(LocalIdsOf(m'[k]));
    state0.DeleteTwice(LidsAlong(lids0, o0[..i]), lids0[id]);
  }

  /** `delete` over a map: every actor, in the map's order, releases its paths. */
  method DropEvery(kind: Kind, m0: map<ItemId, ActorRef>, o0: seq<ItemId>, natives: Natives, patcher: Patcher,
                   bound: LocalId)
    requires MapValid(kind, m0, o0, natives.live, bound) && natives.Valid() && patcher.Valid()
    modifies natives, patcher
    ensures natives.Valid() && natives.next == old(natives.next)
    ensures natives.live == old(natives.live) - old(Union(HeldMap(m0)))
    ensures patcher.Valid() && patcher.ready == old(patcher.ready) && patcher.sent == old(patcher.sent)
    ensures patcher.State() == old(patcher.State()).Delete(LidsAlong(old(LocalIdsMap(m0)), o0))
  {
    ghost var live0, held0, lids0, state0 := natives.live, Union(HeldMap(m0)), LocalIdsMap(m0), patcher.State();
    DropStart(kind, m0, o0, natives, bound);
    state0.DeleteNone();
    var m := m0;
    var i := 0;
    while i < |o0|
      invariant Emptied(kind, m0, o0, m, i, live0, held0, lids0, natives, bound)
      invariant patcher.Valid() && patcher.ready == old(patcher.ready) && patcher.sent == old(patcher.sent)
      invariant patcher.State() == state0.Delete(LidsAlong(lids0, o0[..i]))
      invariant natives.next == old(natives.next)
    {
      m := DropNext(kind, m0, o0, m, natives, patcher, i, bound, live0, held0, lids0, state0);
      i := i + 1;
    }
    DropEnd(kind, m0, o0, m, live0, held0, lids0, natives, bound);
  }

  /** Before the first delete: nothing is dropped, and the snapshot reads what the actors stage. */
  lemma DropStart(kind: Kind, m0: map<ItemId, ActorRef>, o0: seq<ItemId>, natives: Natives, bound: LocalId)
    requires MapValid(kind, m0, o0, natives.live, bound) && natives.Valid()
    ensures Emptied(kind, m0, o0, m0, 0, natives.live, Union(HeldMap(m0)), LocalIdsMap(m0), natives, bound)
    ensures forall i :: 0 <= i < |o0| ==> o0[i] in m0
  {
    HeldInAll(kind, m0, o0, natives.live, bound);
    assert o0[..0] == [] && o0[0..] == o0;
    assert KeysIn([]) == {} && m0 - {} == m0;
  }

  /** After the last delete: the map is empty and every path it held is released. */
  lemma DropEnd(kind: Kind, m0: map<ItemId, ActorRef>, o0: seq<ItemId>, m: map<ItemId, ActorRef>,
                live0: set<nat>, held0: set<nat>, lids0: map<ItemId, seq<LocalId>>, natives: Natives, bound: LocalId)
    requires Emptied(kind, m0, o0, m, |o0|, live0, held0, lids0, natives, bound)
    requires forall k :: k in m0 ==> k in o0
    ensures m == map[] && natives.live == live0 - held0 && o0[..|o0|] == o0
  {
    assert o0[..|o0|] == o0;
    assert m == map[] by {
      assert forall k :: k in m0 ==> k in KeysIn(o0);
    }
    assert Union(HeldMap(m)) == {};
  }

  /** The door cache holds exactly the paths its actors hold. */
  lemma {:induction false} CacheHeld(m: map<ItemId, ActorRef>, ks: seq<ItemId>)
    requires forall i :: 0 <= i < |ks| ==> ks[i] in m
    ensures DoorActors.Held(CacheOf(m, ks)) == HeldIn(m, ks)
  {
    if ks != [] {
      var init, k := ks[..|ks| - 1], ks[|ks| - 1];
      CacheHeld(m, init);
      var a, b := CacheOf(m, init), if m[k].DoorA? then m[k].door.doors else [];
      DoorActors.HeldSplit(a + b, |a|);
      assert (a + b)[..|a|] == a && (a + b)[|a|..] == b;
    }
  }

  /** The state only LightReactor uses. */
  datatype LightState = LightState(
    playerId: string, playerRole: Role, walls: seq<seq<Vec2>>, wallsLastModified: int, wallsDirty: bool)

  class Reactor {
    const kind: Kind
    /** WallReactor: the DoorReactor found when it was created. */
    const door: Reactor?
    var actors: map<ItemId, ActorRef>
    /** The map's iteration order: its keys, in insertion order. */
    var order: seq<ItemId>
    // DoorReactor
    var doors: seq<DoorActors.DoorComponent>
    var didUpdate: bool
    // LightReactor
    var light: LightState

    ghost function Objs(): set<object>
      reads this`actors
    {
      ObjsOf(actors)
    }

    /** Every native path this reactor's actors hold. */
    ghost function Handles(): set<nat>
      reads this`actors, Objs()
    {
      Union(HeldMap(actors))
    }

    ghost predicate Valid(natives: Natives, ids: IdSource)
      reads this`actors, this`order, Objs(), natives, ids
    {
      && (kind == WallKind ==> door != null && door.kind == DoorKind)
      && MapValid(kind, actors, order, natives.live, ids.next)
    }

    /** What filter and diff read: for a wall reactor, its door reactor's didUpdate. */
    function CurrentView(): View
      reads this, door
    {
      View(kind, light.playerRole, light.playerId, light.wallsDirty, kind == WallKind && door != null && door.didUpdate)
    }

    /** has: an actor is stored under `id`. */
    predicate Has(id: ItemId)
      reads this
    {
      id in actors
    }

    /** getDoors and getDidUpdate: the DoorReactor's cached fields. */
    function GetDoors(): seq<DoorActors.DoorComponent>
      reads this
    {
      doors
    }

    function GetDidUpdate(): bool
      reads this
    {
      didUpdate
    }

    /** A new reactor of `kind`; a wall reactor is handed the door reactor it follows. */
    constructor (kind: Kind, door: Reactor?)
      requires kind == WallKind ==> door != null && door.kind == DoorKind
      ensures this.kind == kind && this.door == door
      ensures actors == map[] && order == [] && doors == [] && !didUpdate
      ensures light == LightState("unset", PlayerRole, [], 0, false)
    {
      this.kind := kind;
      this.door := door;
      actors := map[];
      order := [];
      doors := [];
      didUpdate := false;
      light := LightState("unset", PlayerRole, [], 0, false);
    }

    /** delete: every actor, in the map's order, releases what it holds; the map is cleared. */
    method Delete(natives: Natives, ids: IdSource, patcher: Patcher)
      requires Valid(natives, ids) && natives.Valid() && patcher.Valid()
      modifies this, natives, patcher
      ensures Valid(natives, ids) && natives.Valid() && patcher.Valid()
      ensures actors == map[] && order == []
      ensures natives.live == old(natives.live) - old(Handles()) && natives.next == old(natives.next)
      ensures patcher.ready == old(patcher.ready) && patcher.sent == old(patcher.sent)
      ensures patcher.State() == old(patcher.State()).Delete(LidsAlong(old(LocalIdsMap(actors)), old(order)))
      ensures doors == old(doors) && didUpdate == old(didUpdate) && light == old(light)
    {
      DropEvery(kind, actors, order, natives, patcher, ids.next);
      actors, order := map[], [];
    }

    /** LightReactor's handlers assign its player and walls fields; the actors are left alone. */
    method SetLight(ghost natives: Natives, ghost ids: IdSource, s: LightState)
      modifies this`light
      ensures light == s
      ensures Valid(natives, ids) == old(Valid(natives, ids))
      ensures Handles() == old(Handles())
    {
      NotAnActor(actors, this);
      light := s;
    }

    /** Installs a new map and its order; the actors themselves are left alone. */
    method Store(ghost natives: Natives, ghost ids: IdSource, m: map<ItemId, ActorRef>, o: seq<ItemId>)
      modifies this`actors, this`order
      ensures actors == m && order == o
      ensures MapValid(kind, m, o, natives.live, ids.next) == old(MapValid(kind, m, o, natives.live, ids.next))
      ensures Handles() == old(Union(HeldMap(m)))
    {
      NotAnActor(m, this);
      actors, order := m, o;
    }

    /** The deleted phase: each deleted item's actor, if any, releases what it holds and is dropped. */
    method DeletePhase(natives: Natives, ids: IdSource, patcher: Patcher, deleted: seq<Item>)
      requires Valid(natives, ids) && natives.Valid() && patcher.Valid()
      modifies this, natives, patcher
      ensures Valid(natives, ids) && natives.Valid() && patcher.Valid()
      ensures actors == old(actors) - Ids(deleted) && order == Removed(old(order), deleted)
      ensures Released(old(natives.live), old(Handles()), natives.live, Handles())
      ensures natives.next == old(natives.next)
      ensures patcher.ready == old(patcher.ready) && patcher.sent == old(patcher.sent)
      ensures patcher.State() == old(patcher.State()).Delete(DeletedIds(old(LocalIdsMap(actors)), deleted))
      ensures doors == old(doors) && didUpdate == old(didUpdate) && light == old(light)
    {
      NotAnActor(actors, natives);
      NotAnActor(actors, patcher);
      var m, o := ReleaseAll(kind, actors, order, natives, patcher, deleted, ids.next);
      Store(natives, ids, m, o);
    }

    /**
     * One step of the updated phase: the actor under `parent.id`, if any, is updated;
     * the map itself does not change.
     */
    method UpdateOne(kit: Kit, natives: Natives, ids: IdSource, patcher: Patcher,
                     cache: seq<DoorActors.DoorComponent>, parent: Item)
      requires Valid(natives, ids) && natives.Valid() && patcher.Valid()
      modifies Objs(), natives, ids, patcher
      ensures Valid(natives, ids) && natives.Valid() && patcher.Valid()
      ensures patcher.ready == old(patcher.ready) && patcher.sent == old(patcher.sent)
      ensures Kept(old(natives.live), old(Handles()), natives.live, Handles(), old(natives.next))
      ensures old(natives.next) <= natives.next && old(ids.next) <= ids.next
      ensures parent.id !in actors ==>
                natives.live == old(natives.live) && natives.next == old(natives.next) && ids.next == old(ids.next)
                && patcher.State() == old(patcher.State())
      ensures kind == SelfLightKind || kind == LightOverlayKind ==> patcher.State() == old(patcher.State())
      ensures parent.id in actors ==>
                patcher.State() == old(UpdateStaging(actors[parent.id], kit, cache, parent, ids.next, patcher.State()))
    {
      if parent.id in actors {
        NotAnActor(actors, natives);
        NotAnActor(actors, ids);
        NotAnActor(actors, patcher);
        UpdateAt(kind, actors, order, kit, natives, ids, patcher, cache, parent);
      }
    }

    /**
     * DoorReactor's cache: the components of its door actors, in the map's order,
     * and whether this pass changed anything.
     */
    method RebuildDoors(ghost natives: Natives, ghost ids: IdSource, changed: bool)
      requires forall i :: 0 <= i < |order| ==> order[i] in actors
      modifies this`doors, this`didUpdate
      ensures doors == CacheOf(actors, order) && didUpdate == changed
      ensures Valid(natives, ids) == old(Valid(natives, ids))
      ensures Handles() == old(Handles())
    {
      var cache := [];
      for j := 0 to |order|
        invariant cache == CacheOf(actors, order[..j])
      {
        assert order[..j + 1][..j] == order[..j];
        var a := actors[order[j]];
        if a.DoorA? {
          cache := cache + a.door.doors;
        }
      }
      assert order[..|order|] == order;
      SetDoors(natives, ids, cache, changed);
    }

    /** The assignment that ends DoorReactor's process: the actors are left alone. */
    method SetDoors(ghost natives: Natives, ghost ids: IdSource, cache: seq<DoorActors.DoorComponent>, changed: bool)
      requires forall i :: 0 <= i < |order| ==> order[i] in actors
      modifies this`doors, this`didUpdate
      ensures doors == cache && didUpdate == changed
      ensures Valid(natives, ids) == old(Valid(natives, ids))
      ensures Handles() == old(Handles()) && CacheOf(actors, order) == old(CacheOf(actors, order))
    {
      NotAnActor(actors, this);
      doors, didUpdate := cache, changed;
    }

    /** The updated phase: every updated item's actor, if any, is brought up to date. */
    method UpdatePhase(kit: Kit, natives: Natives, ids: IdSource, patcher: Patcher,
                       cache: seq<DoorActors.DoorComponent>, updated: seq<Item>)
      requires Valid(natives, ids) && natives.Valid() && patcher.Valid()
      modifies Objs(), natives, ids, patcher
      ensures Valid(natives, ids) && natives.Valid() && patcher.Valid()
      ensures patcher.ready == old(patcher.ready) && patcher.sent == old(patcher.sent)
      ensures Kept(old(natives.live), old(Handles()), natives.live, Handles(), old(natives.next))
      ensures old(natives.next) <= natives.next && old(ids.next) <= ids.next
      ensures kind == SelfLightKind || kind == LightOverlayKind ==> patcher.State() == old(patcher.State())
    {
      NotAnActor(actors, this);
      for j := 0 to |updated|
        invariant Valid(natives, ids) && natives.Valid() && patcher.Valid()
        invariant patcher.ready == old(patcher.ready) && patcher.sent == old(patcher.sent)
        invariant Kept(old(natives.live), old(Handles()), natives.live, Handles(), old(natives.next))
        invariant old(natives.next) <= natives.next && old(ids.next) <= ids.next
        invariant kind == SelfLightKind || kind == LightOverlayKind ==> patcher.State() == old(patcher.State())
      {
        ghost var l, h, n := natives.live, Handles(), natives.next;
        UpdateOne(kit, natives, ids, patcher, cache, updated[j]);
        KeptTrans(old(natives.live), old(Handles()), l, h, natives.live, Handles(), old(natives.next), n);
      }
    }

    /** Reactor.process: the added, then the deleted, then the updated phase. */
    method Phases(kit: Kit, natives: Natives, ids: IdSource, patcher: Patcher,
                  cache: seq<DoorActors.DoorComponent>, added: seq<Item>, deleted: seq<Item>, updated: seq<Item>)
      requires Valid(natives, ids) && natives.Valid() && patcher.Valid()
      modifies this, Objs(), natives, ids, patcher
      ensures Valid(natives, ids) && natives.Valid() && patcher.Valid()
      ensures patcher.ready == old(patcher.ready) && patcher.sent == old(patcher.sent)
      ensures actors.Keys == (old(actors).Keys + Ids(added)) - Ids(deleted)
      ensures order == Removed(Appended(old(order), added), deleted)
      ensures forall k :: k in actors && k !in Ids(added) ==> actors[k] == old(actors)[k]
      ensures forall k :: k in actors && k in Ids(added) ==> fresh(Obj(actors[k]))
      ensures Kept(old(natives.live), old(Handles()), natives.live, Handles(), old(natives.next))
      ensures old(natives.next) <= natives.next && old(ids.next) <= ids.next
      ensures doors == old(doors) && didUpdate == old(didUpdate) && light == old(light)
    {
      ghost var l0, h0, n0 := natives.live, Handles(), natives.next;
      ghost var made := AddPhase(kit, natives, ids, patcher, cache, light.walls, added);
      ghost var l1, h1, n1 := natives.live, Handles(), natives.next;
      DeletePhase(natives, ids, patcher, deleted);
      ghost var l2, h2 := natives.live, Handles();
      ReleasedKept(l1, h1, l2, h2, n1);
      KeptTrans(l0, h0, l1, h1, l2, h2, n0, n1);
      NotAnActor(actors, this);
      UpdatePhase(kit, natives, ids, patcher, cache, updated);
      KeptTrans(l0, h0, l2, h2, natives.live, Handles(), n0, n1);
    }

    /** process: a DoorReactor also rebuilds its cache and records whether anything changed. */
    method Process(kit: Kit, natives: Natives, ids: IdSource, patcher: Patcher,
                   added: seq<Item>, deleted: seq<Item>, updated: seq<Item>)
      requires Valid(natives, ids) && natives.Valid() && patcher.Valid()
      modifies this, Objs(), natives, ids, patcher
      ensures Valid(natives, ids) && natives.Valid() && patcher.Valid()
      ensures patcher.ready == old(patcher.ready) && patcher.sent == old(patcher.sent)
      ensures actors.Keys == (old(actors).Keys + Ids(added)) - Ids(deleted)
      ensures order == Removed(Appended(old(order), added), deleted)
      ensures forall k :: k in actors && k !in Ids(added) ==> actors[k] == old(actors)[k]
      ensures forall k :: k in actors && k in Ids(added) ==> fresh(Obj(actors[k]))
      ensures Kept(old(natives.live), old(Handles()), natives.live, Handles(), old(natives.next))
      ensures old(natives.next) <= natives.next && old(ids.next) <= ids.next
      ensures kind == DoorKind ==>
                doors == CacheOf(actors, order) && didUpdate == (|updated| > 0 || |added| > 0 || |deleted| > 0)
      ensures kind != DoorKind ==> doors == old(doors) && didUpdate == old(didUpdate)
      ensures light == old(light)
    {
      var cache := if kind == WallKind then door.doors else [];
      Phases(kit, natives, ids, patcher, cache, added, deleted, updated);
      if kind == DoorKind {
        HeldInAll(kind, actors, order, natives.live, ids.next);
        RebuildDoors(natives, ids, |updated| > 0 || |added| > 0 || |deleted| > 0);
      }
    }

    /**
     * The added phase: a new actor for every added item, stored under its id; `made`
     * is what their constructors staged, in order.
     */
    method AddPhase(kit: Kit, natives: Natives, ids: IdSource, patcher: Patcher,
                    cache: seq<DoorActors.DoorComponent>, lightWalls: seq<seq<Vec2>>, added: seq<Item>)
      returns (ghost made: seq<LocalItem>)
      requires Valid(natives, ids) && natives.Valid() && patcher.Valid()
      modifies this, natives, ids, patcher
      ensures Valid(natives, ids) && natives.Valid() && patcher.Valid()
      ensures patcher.ready == old(patcher.ready) && patcher.sent == old(patcher.sent)
      ensures actors.Keys == old(actors).Keys + Ids(added) && order == Appended(old(order), added)
      ensures forall k :: k in actors && k !in Ids(added) ==> actors[k] == old(actors)[k]
      ensures forall k :: k in Ids(added) ==> fresh(Obj(actors[k]))
      ensures old(natives.live) <= natives.live
      ensures Kept(old(natives.live), old(Handles()), natives.live, Handles(), old(natives.next))
      ensures old(natives.next) <= natives.next && old(ids.next) <= ids.next
      ensures doors == old(doors) && didUpdate == old(didUpdate) && light == old(light)
      ensures patcher.State() == old(patcher.State()).Add(made) && ids.next == old(ids.next) + |made|
    {
      var m, o;
      m, o, made := SpawnAll(kind, actors, order, kit, natives, ids, patcher, cache, lightWalls, added);
      Store(natives, ids, m, o);
    }
  }
}
