/**
 * The Reconciler (src/background/reconcile/Reconciler.ts): the registered
 * reactors, the previous snapshot of the shared scene, and the passes that
 * spread each new snapshot's diff through the reactors before one flush of the
 * shared patcher. LightReactor's handlers (src/background/reconcile/reactors/
 * LightReactor.ts) are here too, because each of them ends in a refresh.
 */
module Reconcilers {
  import opened Wrappers
  import opened Scene
  import opened CanvasKit
  import opened LocalItems
  import opened Patching
  import opened ReactorFilters
  import opened Actors
  import opened Reactors
  import opened Diffs

  /** What a reactor's filter reads: its kind, and a light reactor's player. */
  function FilterView(r: Reactor): (v: View)
    reads r
    ensures forall x :: Matches(v, x) == Matches(r.CurrentView(), x)
  {
    View(r.kind, r.light.playerRole, r.light.playerId, false, false)
  }

  /** The objects behind the actors of every reactor in `rs`. */
  ghost function AllObjs(rs: seq<Reactor>): set<object>
    reads rs`actors
  {
    set i, o | 0 <= i < |rs| && o in rs[i].Objs() :: o
  }

  /** Every native path the actors of `rs` hold. */
  ghost function AllHandles(rs: seq<Reactor>): set<nat>
    reads rs`actors, AllObjs(rs)
  {
    set j, h | 0 <= j < |rs| && h in rs[j].Handles() :: h
  }

  /** Reactors whose actors were left alone hold the same paths. */
  twostate lemma HandlesKept(rs: seq<Reactor>)
    requires forall j :: 0 <= j < |rs| ==> unchanged(rs[j])
    requires forall o :: o in old(AllObjs(rs)) ==> unchanged(o)
    ensures AllHandles(rs) == old(AllHandles(rs))
  {
    forall j | 0 <= j < |rs|
      ensures rs[j].Handles() == old(rs[j].Handles())
    {
      assert old(rs[j].Objs()) <= old(AllObjs(rs));
    }
  }

  /** The paths held by the first `n` of a list of holdings. */
  ghost function HeldBefore(hs: seq<set<nat>>, n: nat): set<nat> {
    set j, h | 0 <= j < n && j < |hs| && h in hs[j] :: h
  }

  lemma HeldBeforeNext(hs: seq<set<nat>>, n: nat)
    requires n < |hs|
    ensures HeldBefore(hs, n + 1) == HeldBefore(hs, n) + hs[n]
  {
  }

  /** Holdings listed reactor by reactor add up to every path the reactors hold. */
  lemma HeldBeforeAll(rs: seq<Reactor>, hs: seq<set<nat>>)
    requires |hs| == |rs| && forall j :: 0 <= j < |rs| ==> hs[j] == rs[j].Handles()
    ensures HeldBefore(hs, |rs|) == AllHandles(rs)
  {
  }

  /** Every native path the actors of the reactors of `rs` named in `gone` hold. */
  ghost function HandlesAmong(rs: seq<Reactor>, gone: seq<Reactor>): set<nat>
    reads rs`actors, AllObjs(rs)
  {
    set j, h | 0 <= j < |rs| && rs[j] in gone && h in rs[j].Handles() :: h
  }

  /** The paths listed in `hs` against the reactors of `rs` named in `gone`. */
  ghost function HeldAmong(rs: seq<Reactor>, hs: seq<set<nat>>, gone: seq<Reactor>): set<nat> {
    set j, h | 0 <= j < |rs| && j < |hs| && rs[j] in gone && h in hs[j] :: h
  }

  /** Naming one more reactor of the list adds its holdings. */
  lemma HeldAmongMore(rs: seq<Reactor>, hs: seq<set<nat>>, gone: seq<Reactor>, r: Reactor, held: set<nat>)
    requires |hs| == |rs| && forall j :: 0 <= j < |rs| && rs[j] == r ==> hs[j] == held
    requires r in rs
    ensures HeldAmong(rs, hs, gone + [r]) == HeldAmong(rs, hs, gone) + held
  {
    var j0 :| 0 <= j0 < |rs| && rs[j0] == r;
    assert forall h :: h in held ==> h in hs[j0];
  }

  /** Naming a reactor again, or one not in the list, adds nothing. */
  lemma HeldAmongSame(rs: seq<Reactor>, hs: seq<set<nat>>, gone: seq<Reactor>, r: Reactor)
    requires r in gone || r !in rs
    ensures HeldAmong(rs, hs, gone + [r]) == HeldAmong(rs, hs, gone)
  {
  }

  /** Holdings listed reactor by reactor add up to what the named reactors hold. */
  lemma HeldAmongAll(rs: seq<Reactor>, hs: seq<set<nat>>, gone: seq<Reactor>)
    requires |hs| == |rs| && forall j :: 0 <= j < |rs| ==> hs[j] == rs[j].Handles()
    ensures HeldAmong(rs, hs, gone) == HandlesAmong(rs, gone)
  {
  }

  predicate Unrepeated(rs: seq<Reactor>) {
    forall i, j :: 0 <= i < j < |rs| ==> rs[i] != rs[j]
  }

  /** The reconciler is never one of the actors. */
  lemma NotTheReconciler(m: map<ItemId, ActorRef>, o: Reconciler)
    ensures o !in ObjsOf(m)
  {
  }

  /** Distinct reactors whose actors share no object and no native path. */
  ghost predicate Apart(rs: seq<Reactor>)
    reads rs`actors, AllObjs(rs)
  {
    && Unrepeated(rs)
    && (forall i, j :: 0 <= i < |rs| && 0 <= j < |rs| && i != j ==>
          rs[i].Objs() !! rs[j].Objs() && rs[i].Handles() !! rs[j].Handles())
  }

  // ---------------------------------------------------------------------------
  // One reactor against the rest

  /** The reactors other than the `i`-th. */
  ghost function Others(rs: seq<Reactor>, i: nat): set<Reactor> {
    set j | 0 <= j < |rs| && j != i :: rs[j]
  }

  ghost function OthersObjs(rs: seq<Reactor>, i: nat): set<object>
    reads Others(rs, i)
  {
    set j, o | 0 <= j < |rs| && j != i && o in rs[j].Objs() :: o
  }

  ghost function OthersHeld(rs: seq<Reactor>, i: nat): set<nat>
    reads Others(rs, i), OthersObjs(rs, i)
  {
    set j, h | 0 <= j < |rs| && j != i && h in rs[j].Handles() :: h
  }

  lemma OthersObjsHold(rs: seq<Reactor>, i: nat, j: nat)
    requires j < |rs| && j != i
    ensures rs[j].Objs() <= OthersObjs(rs, i)
  {
  }

  /** The reactors other than the `i`-th are consistent and apart from each other. */
  ghost predicate OthersFine(rs: seq<Reactor>, i: nat, live: set<nat>, bound: LocalId)
    reads Others(rs, i), OthersObjs(rs, i)
  {
    && (forall j :: 0 <= j < |rs| && j != i ==>
          && (rs[j].kind == WallKind ==> rs[j].door != null && rs[j].door.kind == DoorKind)
          && (OthersObjsHold(rs, i, j); MapValid(rs[j].kind, rs[j].actors, rs[j].order, live, bound)))
    && (forall j, k :: 0 <= j < |rs| && 0 <= k < |rs| && j != i && k != i && j != k ==>
          rs[j].Objs() !! rs[k].Objs() && rs[j].Handles() !! rs[k].Handles())
  }

  /** The reconciler's consistency, seen from the `i`-th reactor. */
  lemma Focus(rs: seq<Reactor>, i: nat, natives: Natives, ids: IdSource)
    requires i < |rs| && Unrepeated(rs)
    ensures (Apart(rs) && forall j :: 0 <= j < |rs| ==> rs[j].Valid(natives, ids))
        <==> (&& OthersFine(rs, i, natives.live, ids.next) && rs[i].Valid(natives, ids)
              && rs[i].Objs() !! OthersObjs(rs, i) && rs[i].Handles() !! OthersHeld(rs, i))
  {
    if Apart(rs) && forall j :: 0 <= j < |rs| ==> rs[j].Valid(natives, ids) {
      forall j | 0 <= j < |rs| && j != i
        ensures rs[i].Objs() !! rs[j].Objs() && rs[i].Handles() !! rs[j].Handles()
      {
      }
      assert rs[i].Objs() !! OthersObjs(rs, i);
      assert rs[i].Handles() !! OthersHeld(rs, i);
    }
    if && OthersFine(rs, i, natives.live, ids.next) && rs[i].Valid(natives, ids)
       && rs[i].Objs() !! OthersObjs(rs, i) && rs[i].Handles() !! OthersHeld(rs, i) {
      forall j, k | 0 <= j < |rs| && 0 <= k < |rs| && j != k
        ensures rs[j].Objs() !! rs[k].Objs() && rs[j].Handles() !! rs[k].Handles()
      {
        if j == i {
          assert rs[k].Objs() <= OthersObjs(rs, i) && rs[k].Handles() <= OthersHeld(rs, i);
        } else if k == i {
          assert rs[j].Objs() <= OthersObjs(rs, i) && rs[j].Handles() <= OthersHeld(rs, i);
        }
      }
    }
  }

  /** The other reactors' paths are live. */
  lemma OthersLive(rs: seq<Reactor>, i: nat, live: set<nat>, bound: LocalId)
    requires OthersFine(rs, i, live, bound)
    ensures OthersHeld(rs, i) <= live
  {
    forall h | h in OthersHeld(rs, i)
      ensures h in live
    {
      var j :| 0 <= j < |rs| && j != i && h in rs[j].Handles();
      MapHandlesLive(rs[j].kind, rs[j].actors, rs[j].order, live, bound);
    }
  }

  /** ... and they stay consistent while their paths stay live and more ids are generated. */
  lemma OthersMono(rs: seq<Reactor>, i: nat, live0: set<nat>, live1: set<nat>, b0: LocalId, b1: LocalId)
    requires OthersFine(rs, i, live0, b0) && OthersHeld(rs, i) <= live1 && b0 <= b1
    ensures OthersFine(rs, i, live1, b1)
  {
    forall j | 0 <= j < |rs| && j != i
      ensures MapValid(rs[j].kind, rs[j].actors, rs[j].order, live1, b1)
    {
      assert rs[j].Handles() <= OthersHeld(rs, i);
      MapValidMono(rs[j].kind, rs[j].actors, rs[j].order, live0, live1, b0, b1);
    }
  }

  /** The engine's own objects are never among the other reactors' actors. */
  lemma EngineApart(rs: seq<Reactor>, i: nat, o: object)
    requires o is Reactor || o is Natives || o is IdSource || o is Patcher || o is Reconciler
    ensures o !in OthersObjs(rs, i)
  {
    if o in OthersObjs(rs, i) {
      var j :| 0 <= j < |rs| && j != i && o in rs[j].Objs();
      if o is Reconciler {
        NotTheReconciler(rs[j].actors, o as Reconciler);
      } else {
        NotAnActor(rs[j].actors, o);
      }
    }
  }

  /** Before processing the `i`-th reactor: what it may change is apart from the others. */
  lemma Outside(rs: seq<Reactor>, i: nat, natives: Natives, ids: IdSource, patcher: Patcher)
    requires i < |rs| && natives.Valid() && OthersFine(rs, i, natives.live, ids.next)
    requires rs[i].Objs() !! OthersObjs(rs, i) && forall j :: 0 <= j < |rs| && j != i ==> rs[j] != rs[i]
    ensures forall o :: o in Others(rs, i) ==> o != rs[i] && o !in rs[i].Objs()
    ensures forall o :: o in OthersObjs(rs, i) ==>
              o != rs[i] && o !in rs[i].Objs() && o != natives && o != ids && o != patcher
    ensures forall h :: h in OthersHeld(rs, i) ==> h in natives.live && h < natives.next
  {
    OthersLive(rs, i, natives.live, ids.next);
    EngineApart(rs, i, rs[i]);
    EngineApart(rs, i, natives);
    EngineApart(rs, i, ids);
    EngineApart(rs, i, patcher);
    forall o | o in Others(rs, i)
      ensures o !in rs[i].Objs()
    {
      NotAnActor(rs[i].actors, o);
    }
  }

  /** After processing the `i`-th reactor: the others are still consistent and apart from it. */
  lemma Rejoin(rs: seq<Reactor>, i: nat, natives: Natives, ids: IdSource,
               live0: set<nat>, b0: LocalId, n0: nat, h0: set<nat>)
    requires i < |rs| && OthersFine(rs, i, live0, b0) && b0 <= ids.next
    requires forall h :: h in OthersHeld(rs, i) ==> h in live0 && h < n0 && h !in h0
    requires Kept(live0, h0, natives.live, rs[i].Handles(), n0)
    ensures OthersFine(rs, i, natives.live, ids.next) && rs[i].Handles() !! OthersHeld(rs, i)
  {
    OthersMono(rs, i, live0, natives.live, b0, ids.next);
    forall h | h in rs[i].Handles()
      ensures h !in OthersHeld(rs, i)
    {
      if h !in h0 {
        assert h in rs[i].Handles() - h0;
      }
    }
  }

  /**
   * reactor.process, seen from outside: objects apart from the reactor and
   * its actors are left alone.
   */
  method ProcessLeaving(r: Reactor, kit: Kit, natives: Natives, ids: IdSource, patcher: Patcher,
                        added: seq<Item>, deleted: seq<Item>, updated: seq<Item>,
                        ghost others: set<Reactor>, ghost outside: set<object>)
    requires r.Valid(natives, ids) && natives.Valid() && patcher.Valid()
    requires forall o :: o in others ==> o != r && o !in r.Objs()
    requires forall o :: o in outside ==> o != r && o !in r.Objs() && o != natives && o != ids && o != patcher
    modifies r, r.Objs(), natives, ids, patcher
    ensures r.Valid(natives, ids) && natives.Valid() && patcher.Valid()
    ensures forall o :: o in others ==> unchanged(o)
    ensures forall o :: o in outside ==> unchanged(o)
    ensures forall o :: o in r.Objs() ==> o !in outside
    ensures Kept(old(natives.live), old(r.Handles()), natives.live, r.Handles(), old(natives.next))
    ensures old(ids.next) <= ids.next
    ensures r.actors.Keys == (old(r.actors).Keys + Ids(added)) - Ids(deleted)
    ensures r.light == old(r.light)
    ensures patcher.ready == old(patcher.ready) && patcher.sent == old(patcher.sent)
  {
    ghost var objs0 := r.Objs();
    r.Process(kit, natives, ids, patcher, added, deleted, updated);
    assert forall k :: k in r.actors ==> Obj(r.actors[k]) in objs0 || fresh(Obj(r.actors[k]));
  }

  /**
   * reactor.process on the `i`-th of a list of reactors, seen from outside: the
   * other reactors and their actors are left alone.
   */
  method ProcessKeeping(rs: seq<Reactor>, i: nat, kit: Kit, natives: Natives, ids: IdSource, patcher: Patcher,
                        added: seq<Item>, deleted: seq<Item>, updated: seq<Item>)
    requires i < |rs| && rs[i].Valid(natives, ids) && natives.Valid() && patcher.Valid()
    requires forall o :: o in Others(rs, i) ==> o != rs[i] && o !in rs[i].Objs()
    requires forall o :: o in OthersObjs(rs, i) ==>
               o != rs[i] && o !in rs[i].Objs() && o != natives && o != ids && o != patcher
    modifies rs[i], rs[i].Objs(), natives, ids, patcher
    ensures rs[i].Valid(natives, ids) && natives.Valid() && patcher.Valid()
    ensures forall o :: o in Others(rs, i) ==> unchanged(o)
    ensures forall o :: o in old(OthersObjs(rs, i)) ==> unchanged(o)
    ensures forall o :: o in rs[i].Objs() ==> o !in old(OthersObjs(rs, i))
    ensures Kept(old(natives.live), old(rs[i].Handles()), natives.live, rs[i].Handles(), old(natives.next))
    ensures old(ids.next) <= ids.next
    ensures rs[i].actors.Keys == (old(rs[i].actors).Keys + Ids(added)) - Ids(deleted)
    ensures rs[i].light == old(rs[i].light)
    ensures patcher.ready == old(patcher.ready) && patcher.sent == old(patcher.sent)
  {
    ProcessLeaving(rs[i], kit, natives, ids, patcher, added, deleted, updated, Others(rs, i), OthersObjs(rs, i));
  }

  /** ... so the other reactors' native paths and consistency are as they were. */
  method ProcessApart(rs: seq<Reactor>, i: nat, kit: Kit, natives: Natives, ids: IdSource, patcher: Patcher,
                      added: seq<Item>, deleted: seq<Item>, updated: seq<Item>)
    requires i < |rs| && rs[i].Valid(natives, ids) && natives.Valid() && patcher.Valid()
    requires forall o :: o in Others(rs, i) ==> o != rs[i] && o !in rs[i].Objs()
    requires forall o :: o in OthersObjs(rs, i) ==>
               o != rs[i] && o !in rs[i].Objs() && o != natives && o != ids && o != patcher
    modifies rs[i], rs[i].Objs(), natives, ids, patcher
    ensures rs[i].Valid(natives, ids) && natives.Valid() && patcher.Valid()
    ensures forall j :: 0 <= j < |rs| && j != i ==> unchanged(rs[j])
    ensures OthersObjs(rs, i) == old(OthersObjs(rs, i)) && OthersHeld(rs, i) == old(OthersHeld(rs, i))
    ensures OthersFine(rs, i, old(natives.live), old(ids.next)) == old(OthersFine(rs, i, natives.live, ids.next))
    ensures forall o :: o in rs[i].Objs() ==> o !in OthersObjs(rs, i)
    ensures Kept(old(natives.live), old(rs[i].Handles()), natives.live, rs[i].Handles(), old(natives.next))
    ensures old(ids.next) <= ids.next
    ensures rs[i].actors.Keys == (old(rs[i].actors).Keys + Ids(added)) - Ids(deleted)
    ensures rs[i].light == old(rs[i].light)
    ensures patcher.ready == old(patcher.ready) && patcher.sent == old(patcher.sent)
  {
    ghost var oo := OthersObjs(rs, i);
    ProcessKeeping(rs, i, kit, natives, ids, patcher, added, deleted, updated);
    forall j | 0 <= j < |rs| && j != i
      ensures unchanged(rs[j])
    {
      assert rs[j] in Others(rs, i);
    }
    assert OthersObjs(rs, i) == oo;
  }

  /**
   * reactor.process on the `i`-th of a list of reactors: the others, their
   * actors and their native paths are left alone and stay consistent.
   */
  method ProcessOne(rs: seq<Reactor>, i: nat, kit: Kit, natives: Natives, ids: IdSource, patcher: Patcher,
                    added: seq<Item>, deleted: seq<Item>, updated: seq<Item>)
    requires i < |rs| && natives.Valid() && patcher.Valid() && rs[i].Valid(natives, ids)
    requires OthersFine(rs, i, natives.live, ids.next)
    requires rs[i].Objs() !! OthersObjs(rs, i) && rs[i].Handles() !! OthersHeld(rs, i)
    requires forall j :: 0 <= j < |rs| && j != i ==> rs[j] != rs[i]
    modifies rs[i], rs[i].Objs(), natives, ids, patcher
    ensures natives.Valid() && patcher.Valid() && rs[i].Valid(natives, ids)
    ensures OthersFine(rs, i, natives.live, ids.next)
    ensures rs[i].Objs() !! OthersObjs(rs, i) && rs[i].Handles() !! OthersHeld(rs, i)
    ensures rs[i].actors.Keys == (old(rs[i].actors).Keys + Ids(added)) - Ids(deleted)
    ensures rs[i].light == old(rs[i].light)
    ensures forall j :: 0 <= j < |rs| && j != i ==> unchanged(rs[j])
    ensures patcher.ready == old(patcher.ready) && patcher.sent == old(patcher.sent)
  {
    ghost var live0, b0, n0, h0 := natives.live, ids.next, natives.next, rs[i].Handles();
    Outside(rs, i, natives, ids, patcher);
    ProcessApart(rs, i, kit, natives, ids, patcher, added, deleted, updated);
    Rejoin(rs, i, natives, ids, live0, b0, n0, h0);
  }

  /** reactor.delete, seen from outside: objects apart from the reactor itself are left alone. */
  method DeleteLeaving(r: Reactor, natives: Natives, ids: IdSource, patcher: Patcher,
                       ghost others: set<Reactor>, ghost outside: set<object>)
    requires r.Valid(natives, ids) && natives.Valid() && patcher.Valid()
    requires forall o :: o in others ==> o != r
    requires forall o :: o in outside ==> o != r && o != natives && o != patcher
    modifies r, natives, patcher
    ensures r.Valid(natives, ids) && natives.Valid() && patcher.Valid()
    ensures forall o :: o in others ==> unchanged(o)
    ensures forall o :: o in outside ==> unchanged(o)
    ensures r.actors == map[] && r.light == old(r.light)
    ensures natives.live == old(natives.live) - old(r.Handles())
    ensures patcher.ready == old(patcher.ready) && patcher.sent == old(patcher.sent)
  {
    r.Delete(natives, ids, patcher);
  }

  /** reactor.delete on the `i`-th of a list of reactors: the others and their actors are left alone. */
  method DeleteApart(rs: seq<Reactor>, i: nat, natives: Natives, ids: IdSource, patcher: Patcher)
    requires i < |rs| && rs[i].Valid(natives, ids) && natives.Valid() && patcher.Valid()
    requires forall o :: o in Others(rs, i) ==> o != rs[i]
    requires forall o :: o in OthersObjs(rs, i) ==> o != rs[i] && o != natives && o != patcher
    modifies rs[i], natives, patcher
    ensures rs[i].Valid(natives, ids) && natives.Valid() && patcher.Valid()
    ensures forall j :: 0 <= j < |rs| && j != i ==> unchanged(rs[j])
    ensures forall j :: 0 <= j < |rs| && j != i ==> rs[j].Handles() == old(rs[j].Handles())
    ensures OthersObjs(rs, i) == old(OthersObjs(rs, i)) && OthersHeld(rs, i) == old(OthersHeld(rs, i))
    ensures OthersFine(rs, i, old(natives.live), old(ids.next)) == old(OthersFine(rs, i, natives.live, ids.next))
    ensures rs[i].actors == map[] && rs[i].light == old(rs[i].light)
    ensures natives.live == old(natives.live) - old(rs[i].Handles())
    ensures patcher.ready == old(patcher.ready) && patcher.sent == old(patcher.sent)
  {
    ghost var oo := OthersObjs(rs, i);
    DeleteLeaving(rs[i], natives, ids, patcher, Others(rs, i), OthersObjs(rs, i));
    forall j | 0 <= j < |rs| && j != i
      ensures unchanged(rs[j])
    {
      assert rs[j] in Others(rs, i);
    }
    assert OthersObjs(rs, i) == oo;
    forall j | 0 <= j < |rs| && j != i
      ensures rs[j].Handles() == old(rs[j].Handles())
    {
      OthersObjsHold(rs, i, j);
    }
  }

  /**
   * reactor.delete on the `i`-th of a list of reactors: its actors are gone
   * and their paths released, the others stay consistent.
   */
  method DeleteOne(rs: seq<Reactor>, i: nat, natives: Natives, ids: IdSource, patcher: Patcher)
    requires i < |rs| && natives.Valid() && patcher.Valid() && rs[i].Valid(natives, ids)
    requires OthersFine(rs, i, natives.live, ids.next)
    requires rs[i].Objs() !! OthersObjs(rs, i) && rs[i].Handles() !! OthersHeld(rs, i)
    requires forall j :: 0 <= j < |rs| && j != i ==> rs[j] != rs[i]
    modifies rs[i], natives, patcher
    ensures natives.Valid() && patcher.Valid() && rs[i].Valid(natives, ids)
    ensures OthersFine(rs, i, natives.live, ids.next)
    ensures rs[i].actors == map[] && rs[i].light == old(rs[i].light)
    ensures natives.live == old(natives.live) - old(rs[i].Handles())
    ensures forall j :: 0 <= j < |rs| && j != i ==> unchanged(rs[j])
    ensures forall j :: 0 <= j < |rs| && j != i ==> rs[j].Handles() == old(rs[j].Handles())
    ensures patcher.ready == old(patcher.ready) && patcher.sent == old(patcher.sent)
  {
    ghost var live0, b0, h0 := natives.live, ids.next, rs[i].Handles();
    Outside(rs, i, natives, ids, patcher);
    DeleteApart(rs, i, natives, ids, patcher);
    OthersMono(rs, i, live0, natives.live, b0, ids.next);
  }

  /** A light reactor assigning its light state, seen from outside: every other object is left alone. */
  method LightLeaving(r: Reactor, natives: Natives, ids: IdSource, s: LightState,
                      ghost others: set<Reactor>, ghost outside: set<object>)
    requires r.Valid(natives, ids)
    requires forall o :: o in others ==> o != r
    requires forall o :: o in outside ==> o != r
    modifies r`light
    ensures r.Valid(natives, ids) && r.light == s
    ensures r.Objs() == old(r.Objs()) && r.Handles() == old(r.Handles())
    ensures forall o :: o in others ==> unchanged(o)
    ensures forall o :: o in outside ==> unchanged(o)
  {
    r.SetLight(natives, ids, s);
  }

  /** The light reactor at `i` of a list assigns its light state; its actors and the other reactors are left alone. */
  method LightOne(rs: seq<Reactor>, i: nat, natives: Natives, ids: IdSource, s: LightState)
    requires i < |rs| && rs[i].Valid(natives, ids)
    requires forall o :: o in Others(rs, i) ==> o != rs[i]
    requires forall o :: o in OthersObjs(rs, i) ==> o != rs[i]
    modifies (rs[i] as Reactor)`light
    ensures rs[i].Valid(natives, ids) && rs[i].light == s
    ensures rs[i].Objs() == old(rs[i].Objs()) && rs[i].Handles() == old(rs[i].Handles())
    ensures OthersFine(rs, i, natives.live, ids.next) == old(OthersFine(rs, i, natives.live, ids.next))
    ensures OthersObjs(rs, i) == old(OthersObjs(rs, i)) && OthersHeld(rs, i) == old(OthersHeld(rs, i))
    ensures forall j :: 0 <= j < |rs| && j != i ==> unchanged(rs[j])
  {
    ghost var oo := OthersObjs(rs, i);
    LightLeaving(rs[i], natives, ids, s, Others(rs, i), OthersObjs(rs, i));
    forall j | 0 <= j < |rs| && j != i
      ensures unchanged(rs[j])
    {
      assert rs[j] in Others(rs, i);
    }
    assert OthersObjs(rs, i) == oo;
  }

  /** The `i`-th reactor deletes its actors; the list without it stays consistent and apart. */
  method DropOne(rs: seq<Reactor>, i: nat, natives: Natives, ids: IdSource, patcher: Patcher)
    requires i < |rs| && natives.Valid() && patcher.Valid() && EngineOf(rs, natives, ids)
    modifies rs[i], natives, patcher
    ensures natives.Valid() && patcher.Valid() && EngineOf(rs[..i] + rs[i + 1..], natives, ids)
    ensures rs[i].actors == map[] && rs[i].light == old(rs[i].light)
    ensures natives.live == old(natives.live) - old(rs[i].Handles())
    ensures forall j :: 0 <= j < |rs| && j != i ==> rs[j].Handles() == old(rs[j].Handles())
    ensures patcher.ready == old(patcher.ready) && patcher.sent == old(patcher.sent)
  {
    Focus(rs, i, natives, ids);
    DeleteOne(rs, i, natives, ids, patcher);
    SpliceFine(rs, i, natives, ids);
  }

  /** New reactors with no actor yet, each wall reactor following a door reactor. */
  ghost predicate Blank(news: seq<Reactor>)
    reads news
  {
    forall k :: 0 <= k < |news| ==>
      && news[k].actors == map[] && news[k].order == []
      && (news[k].kind == WallKind ==> news[k].door != null && news[k].door.kind == DoorKind)
  }

  /** Appending blank reactors keeps the registered ones consistent and apart. */
  lemma JoinBlank(rs: seq<Reactor>, news: seq<Reactor>, natives: Natives, ids: IdSource)
    requires EngineOf(rs, natives, ids) && Blank(news) && Unrepeated(rs + news)
    ensures EngineOf(rs + news, natives, ids)
  {
    var all := rs + news;
    forall k | |rs| <= k < |all|
      ensures all[k].Objs() == {} && all[k].Handles() == {} && all[k].Valid(natives, ids)
    {
      assert all[k] == news[k - |rs|];
    }
    forall j | 0 <= j < |rs|
      ensures all[j] == rs[j]
    {
    }
  }

  /** Splicing the `i`-th reactor out leaves the others consistent and apart. */
  lemma SpliceFine(rs: seq<Reactor>, i: nat, natives: Natives, ids: IdSource)
    requires i < |rs| && Unrepeated(rs) && OthersFine(rs, i, natives.live, ids.next)
    ensures EngineOf(rs[..i] + rs[i + 1..], natives, ids)
  {
    var after := rs[..i] + rs[i + 1..];
    SpliceKeeps(rs, i);
    forall k | 0 <= k < |after|
      ensures after[k] == rs[if k < i then k else k + 1]
    {
    }
  }

  /** `reactors.find((r) => r instanceof R)`: the first registered reactor of a kind. */
  function FindKind(rs: seq<Reactor>, kind: Kind): (r: Reactor?)
    ensures r == null <==> forall i :: 0 <= i < |rs| ==> rs[i].kind != kind
    ensures r != null ==> exists i :: 0 <= i < |rs| && rs[i] == r && r.kind == kind
                                      && forall j :: 0 <= j < i ==> rs[j].kind != kind
  {
    if rs == [] then null
    else if rs[0].kind == kind then rs[0]
    else
      var r := FindKind(rs[1..], kind);
      assert r != null ==> exists i :: 0 <= i < |rs| && rs[i] == r && r.kind == kind
                                       && forall j :: 0 <= j < i ==> rs[j].kind != kind by {
        if r != null {
          var i :| 0 <= i < |rs[1..]| && rs[1..][i] == r && r.kind == kind
                   && forall j :: 0 <= j < i ==> rs[1..][j].kind != kind;
          assert rs[i + 1] == r && forall j :: 0 <= j < i + 1 ==> rs[j].kind != kind;
        }
      }
      r
  }

  /** `indexOf`: the first position of `r`, or -1. */
  function IndexOf(rs: seq<Reactor>, r: Reactor): (i: int)
    ensures -1 <= i < |rs|
    ensures i == -1 <==> r !in rs
    ensures 0 <= i ==> rs[i] == r && r !in rs[..i]
  {
    if rs == [] then -1
    else if rs[0] == r then 0
    else
      var j := IndexOf(rs[1..], r);
      assert r in rs[1..] ==> r in rs;
      assert r in rs ==> r in rs[1..] by {
        if r in rs {
          var k :| 0 <= k < |rs| && rs[k] == r;
          assert rs[1..][k - 1] == r;
        }
      }
      if j == -1 then -1
      else
        assert rs[..j + 1] == [rs[0]] + rs[1..][..j];
        j + 1
  }

  /** unregister's effect on the list: each reactor in `gone`, if registered, is spliced out. */
  function Unregistered(rs: seq<Reactor>, gone: seq<Reactor>): seq<Reactor> {
    if gone == [] then rs
    else
      var before := Unregistered(rs, gone[..|gone| - 1]);
      var i := IndexOf(before, gone[|gone| - 1]);
      if i >= 0 then before[..i] + before[i + 1..] else before
  }

  /** One more reactor to unregister. */
  lemma UnregisteredStep(rs: seq<Reactor>, gone: seq<Reactor>, r: Reactor)
    ensures var before := Unregistered(rs, gone);
            var i := IndexOf(before, r);
            Unregistered(rs, gone + [r]) == if i >= 0 then before[..i] + before[i + 1..] else before
  {
    assert (gone + [r])[..|gone|] == gone && (gone + [r])[|gone|] == r;
  }

  /** Unregistering leaves only reactors of the list... */
  lemma UnregisteredWithin(rs: seq<Reactor>, gone: seq<Reactor>)
    requires Unrepeated(rs)
    ensures forall k :: 0 <= k < |Unregistered(rs, gone)| ==> Unregistered(rs, gone)[k] in rs
  {
    var u := Unregistered(rs, gone);
    UnregisteredKeeps(rs, gone);
    forall k | 0 <= k < |u|
      ensures u[k] in rs
    {
      var x := u[k];
      assert x in Unregistered(rs, gone);
      assert x in rs && x !in gone;
    }
  }

  /** ... and a reactor of the list that is no longer there was named. */
  lemma UnregisteredNamed(rs: seq<Reactor>, gone: seq<Reactor>, r: Reactor)
    requires Unrepeated(rs) && r in rs && r !in Unregistered(rs, gone)
    ensures r in gone
  {
    UnregisteredKeeps(rs, gone);
  }

  /** Over distinct reactors, unregistering keeps exactly the reactors not named. */
  lemma {:induction false} UnregisteredKeeps(rs: seq<Reactor>, gone: seq<Reactor>)
    requires Unrepeated(rs)
    ensures forall r :: r in Unregistered(rs, gone) <==> r in rs && r !in gone
    ensures Unrepeated(Unregistered(rs, gone))
  {
    if gone != [] {
      var init, last := gone[..|gone| - 1], gone[|gone| - 1];
      UnregisteredKeeps(rs, init);
      var before := Unregistered(rs, init);
      var i := IndexOf(before, last);
      var after := Unregistered(rs, gone);
      assert gone == init + [last];
      assert forall r :: r in gone <==> r in init || r == last;
      if i >= 0 {
        assert after == before[..i] + before[i + 1..];
        SpliceKeeps(before, i);
      } else {
        assert after == before;
      }
    }
  }

  /** Splicing one position out of distinct reactors drops exactly the reactor there. */
  lemma SpliceKeeps(rs: seq<Reactor>, i: nat)
    requires Unrepeated(rs) && i < |rs|
    ensures forall r :: r in rs[..i] + rs[i + 1..] <==> r in rs && r != rs[i]
    ensures Unrepeated(rs[..i] + rs[i + 1..])
  {
    var after := rs[..i] + rs[i + 1..];
    assert forall k :: 0 <= k < i ==> after[k] == rs[k];
    assert forall k :: i <= k < |after| ==> after[k] == rs[k + 1];
    forall r | r in after
      ensures r in rs && r != rs[i]
    {
      var k :| 0 <= k < |after| && after[k] == r;
    }
    forall r | r in rs && r != rs[i]
      ensures r in after
    {
      var k :| 0 <= k < |rs| && rs[k] == r;
      if k < i {
        assert after[k] == r;
      } else {
        assert after[k - 1] == r;
      }
    }
    forall a, b | 0 <= a < b < |after|
      ensures after[a] != after[b]
    {
      var a', b' := if a < i then a else a + 1, if b < i then b else b + 1;
      assert a' < b' && after[a] == rs[a'] && after[b] == rs[b'];
    }
  }

  /** getMetadata-free view of a host local item: whether it is a wall, its date, its points and transform. */
  datatype HostLocal = HostLocal(isWall: bool, lastModified: Instant, points: seq<Vec2>, transform: Transform)

  /** The result of `Math.max(...dates)`: -Infinity for no argument, NaN if any date is NaN. */
  datatype Stamp = NegInfinity | Finite(ms: int) | NotANumber

  function MaxStamp(walls: seq<HostLocal>): (r: Stamp)
    ensures walls == [] <==> r == NegInfinity
    ensures r.NotANumber? <==> exists i :: 0 <= i < |walls| && walls[i].lastModified.NaN?
    ensures r.Finite? ==> forall i :: 0 <= i < |walls| ==> walls[i].lastModified.At? && walls[i].lastModified.ms <= r.ms
    ensures r.Finite? ==> exists i :: 0 <= i < |walls| && walls[i].lastModified == At(r.ms)
  {
    if walls == [] then NegInfinity
    else
      var init, last := walls[..|walls| - 1], walls[|walls| - 1];
      var m := MaxStamp(init);
      assert forall i :: 0 <= i < |init| ==> init[i] == walls[i];
      if last.lastModified.NaN? || m.NotANumber? then NotANumber
      else if m.NegInfinity? || m.ms < last.lastModified.ms then Finite(last.lastModified.ms)
      else m
  }

  /** `lastModified <= this.wallsLastModified`: false for NaN, true for -Infinity. */
  predicate NotNewer(s: Stamp, last: int) {
    match s
    case NegInfinity => true
    case Finite(ms) => ms <= last
    case NotANumber => false
  }

  /** handleLocalItems' early return: nothing newer and as many walls as before. */
  predicate SkipsWalls(walls: seq<HostLocal>, last: int, count: nat) {
    NotNewer(MaxStamp(walls), last) && |walls| == count
  }

  /** The wall filter of handleLocalItems. */
  function WallsOf(items: seq<HostLocal>): (r: seq<HostLocal>)
    ensures forall x :: x in r <==> x in items && x.isWall
  {
    if items == [] then []
    else
      var init := items[..|items| - 1];
      assert items == init + [items[|items| - 1]];
      WallsOf(init) + (if items[|items| - 1].isWall then [items[|items| - 1]] else [])
  }

  /** The line strings handleLocalItems stores: each wall's points moved into world space. */
  function WallLines(kit: Kit, walls: seq<HostLocal>): (r: seq<seq<Vec2>>)
    ensures |r| == |walls|
  {
    seq(|walls|, i requires 0 <= i < |walls| =>
      seq(|walls[i].points|, j requires 0 <= j < |walls[i].points| => kit.toWorld(walls[i].transform, walls[i].points[j])))
  }

  /**
   * The stored wallsLastModified is never assigned after the constructor's 0, so
   * any wall dated after the epoch always passes the guard, even a second time.
   */
  lemma GuardNeverSkipsDatedWalls(walls: seq<HostLocal>, count: nat)
    requires exists i :: 0 <= i < |walls| && walls[i].lastModified.At? && walls[i].lastModified.ms > 0
    ensures !SkipsWalls(walls, 0, count)
  {
    var i :| 0 <= i < |walls| && walls[i].lastModified.At? && walls[i].lastModified.ms > 0;
  }

  /** With no walls at all and none stored, the guard returns early. */
  lemma GuardSkipsNoWalls(last: int)
    requires last >= 0
    ensures SkipsWalls([], last, 0)
  {
  }

  /** One more `set` on the previous snapshot. */
  lemma SnapshotStep(items: seq<Item>, i: nat)
    requires i < |items|
    ensures SnapshotMap(items[..i + 1]) == SnapshotMap(items[..i])[items[i].id := items[i]]
    ensures KeyOrder(items[..i + 1])
         == if items[i].id in SnapshotMap(items[..i]) then KeyOrder(items[..i]) else KeyOrder(items[..i]) + [items[i].id]
  {
    AppendedStep([], items, i);
    assert items[..i + 1][..i] == items[..i];
  }

  /** The engine's own objects are never among the actors. */
  lemma EngineOutside(rs: seq<Reactor>, o: object)
    requires o is Reactor || o is Natives || o is IdSource || o is Patcher || o is Reconciler
    ensures o !in AllObjs(rs)
  {
    if o in AllObjs(rs) {
      var j :| 0 <= j < |rs| && o in rs[j].Objs();
      if o is Reconciler {
        NotTheReconciler(rs[j].actors, o as Reconciler);
      } else {
        NotAnActor(rs[j].actors, o);
      }
    }
  }

  lemma TakeOneMore<T>(s: seq<T>, k: nat)
    requires k < |s|
    ensures s[..k + 1] == s[..k] + [s[k]]
  {
  }

  lemma UpdateTwice<T>(s: seq<T>, i: nat, a: T, b: T)
    requires i < |s|
    ensures s[i := a][i := b] == s[i := b]
  {
  }

  /** Every reactor's light state, in registration order. */
  ghost function LightsOf(rs: seq<Reactor>): (ls: seq<LightState>)
    reads rs
    ensures |ls| == |rs| && forall j :: 0 <= j < |rs| ==> ls[j] == rs[j].light
  {
    seq(|rs|, j requires 0 <= j < |rs| reads rs => rs[j].light)
  }

  /** Every reactor's actors are exactly the items of `items` its filter accepts. */
  ghost predicate MatchAll(rs: seq<Reactor>, items: seq<Item>)
    reads rs
  {
    forall j :: 0 <= j < |rs| ==> rs[j].actors.Keys == MatchedIds(FilterView(rs[j]), items)
  }

  /** Matching the items of a list without repeated ids is tracking its snapshot. */
  lemma MatchAllTracks(rs: seq<Reactor>, items: seq<Item>)
    requires MatchAll(rs, items) && UniqueIds(items)
    ensures forall j :: 0 <= j < |rs| ==> rs[j].actors.Keys == Tracked(FilterView(rs[j]), SnapshotMap(items))
  {
    forall j | 0 <= j < |rs|
      ensures rs[j].actors.Keys == Tracked(FilterView(rs[j]), SnapshotMap(items))
    {
      SnapshotTracked(FilterView(rs[j]), items);
    }
  }

  ghost predicate EngineOf(rs: seq<Reactor>, natives: Natives, ids: IdSource)
    reads rs`actors, rs`order, AllObjs(rs), natives, ids
  {
    && Apart(rs)
    && (forall i :: 0 <= i < |rs| ==> rs[i].Valid(natives, ids))
  }

  class Reconciler {
    const kit: Kit
    const natives: Natives
    const ids: IdSource
    const patcher: Patcher
    var reactors: seq<Reactor>
    var prevItems: map<ItemId, Item>
    /** The iteration order of prevItems. */
    var prevKeys: seq<ItemId>

    ghost predicate Valid()
      reads this, reactors`actors, reactors`order, AllObjs(reactors), natives, ids, patcher
    {
      && natives.Valid() && patcher.Valid()
      && Keyed(prevItems, prevKeys)
      && Engine()
    }

    /** The registered reactors are apart and each is consistent. */
    ghost predicate Engine()
      reads this`reactors, reactors`actors, reactors`order, AllObjs(reactors), natives, ids
    {
      EngineOf(reactors, natives, ids)
    }

    /** The subscriptions and the initial isReady fetch are host I/O, left out. */
    constructor (kit: Kit)
      ensures Valid() && fresh(natives) && fresh(ids) && fresh(patcher)
      ensures reactors == [] && prevItems == map[] && prevKeys == []
      ensures patcher.State() == EMPTY && !patcher.ready && patcher.sent == []
    {
      this.kit := kit;
      natives := new Natives();
      ids := new IdSource();
      patcher := new Patcher();
      reactors := [];
      prevItems := map[];
      prevKeys := [];
    }

    /** find: the first registered reactor of `kind`, or null. */
    function Find(kind: Kind): (r: Reactor?)
      reads this
      ensures r == null <==> forall i :: 0 <= i < |reactors| ==> reactors[i].kind != kind
      ensures r != null ==> r in reactors && r.kind == kind
    {
      FindKind(reactors, kind)
    }

    /** A new reactor of `kind`; WallReactor's constructor throws unless a DoorReactor is registered. */
    method NewReactor(kind: Kind) returns (r: Result<Reactor>)
      ensures kind == WallKind && Find(DoorKind) == null ==> r.Failure?
      ensures r.Success? ==> fresh(r.value) && r.value.kind == kind && r.value.actors == map[] && r.value.order == []
      ensures r.Success? && kind == WallKind ==> r.value.door == Find(DoorKind)
      ensures kind != WallKind ==> r.Success?
    {
      var door := Find(DoorKind);
      if kind == WallKind && door == null {
        r := Failure("Unable to create WallReactor: DoorReactor must exist");
      } else {
        var x := new Reactor(kind, if kind == WallKind then door else null);
        r := Success(x);
      }
    }

    /**
     * reactor.process on the `i`-th reactor: the other reactors and their actors
     * are left alone, and the reconciler stays consistent.
     */
    method RunAt(i: nat, added: seq<Item>, deleted: seq<Item>, updated: seq<Item>)
      requires Valid() && i < |reactors|
      modifies reactors[i], reactors[i].Objs(), natives, ids, patcher
      ensures reactors == old(reactors) && Valid()
      ensures reactors[i].actors.Keys == (old(reactors[i].actors).Keys + Ids(added)) - Ids(deleted)
      ensures reactors[i].light == old(reactors[i].light)
      ensures forall j :: 0 <= j < |reactors| && j != i ==> unchanged(reactors[j])
      ensures patcher.ready == old(patcher.ready) && patcher.sent == old(patcher.sent)
    {
      Focus(reactors, i, natives, ids);
      NotTheReconciler(reactors[i].actors, this);
      ProcessOne(reactors, i, kit, natives, ids, patcher, added, deleted, updated);
      Focus(reactors, i, natives, ids);
    }

    /** reactor.delete on the `i`-th reactor: the other reactors are left alone and the reconciler stays consistent. */
    method DeleteAt(i: nat)
      requires Valid() && i < |reactors|
      modifies reactors[i], natives, patcher
      ensures reactors == old(reactors) && Valid()
      ensures reactors[i].actors == map[] && reactors[i].light == old(reactors[i].light)
      ensures natives.live == old(natives.live) - old(reactors[i].Handles())
      ensures forall j :: 0 <= j < |reactors| && j != i ==> unchanged(reactors[j])
      ensures forall j :: 0 <= j < |reactors| && j != i ==> reactors[j].Handles() == old(reactors[j].Handles())
      ensures patcher.ready == old(patcher.ready) && patcher.sent == old(patcher.sent)
    {
      Focus(reactors, i, natives, ids);
      DeleteOne(reactors, i, natives, ids, patcher);
      Focus(reactors, i, natives, ids);
    }

    /**
     * Where a clearing loop stands before the `i`-th reactor: the ones before it
     * hold no actor, the others still hold the paths `hs` lists.
     */
    ghost predicate Cleared(lights: seq<LightState>, hs: seq<set<nat>>, i: nat)
      reads this, reactors, AllObjs(reactors)
    {
      && |lights| == |reactors| == |hs| && i <= |reactors|
      && (forall j :: 0 <= j < |reactors| ==> reactors[j].light == lights[j])
      && (forall j :: 0 <= j < i ==> reactors[j].actors == map[])
      && (forall j :: i <= j < |reactors| ==> reactors[j].Handles() == hs[j])
    }

    /** One turn of the clearing loop: the `i`-th reactor deletes its actors. */
    method ClearStep(i: nat, ghost lights: seq<LightState>, ghost hs: seq<set<nat>>)
      requires Valid() && i < |reactors| && Cleared(lights, hs, i)
      modifies reactors[i], natives, patcher
      ensures Valid() && Cleared(lights, hs, i + 1)
      ensures patcher.ready == old(patcher.ready) && patcher.sent == old(patcher.sent)
      ensures natives.live == old(natives.live) - hs[i]
    {
      DeleteAt(i);
      forall j | 0 <= j < |reactors| && j != i
        ensures reactors[j].light == lights[j] && reactors[j].actors == old(reactors[j].actors)
      {
      }
    }

    /** `for (const reactor of this.reactors) reactor.delete()`: every reactor ends with no actor. */
    method ClearAll()
      requires Valid()
      modifies reactors, natives, patcher
      ensures Valid()
      ensures forall j :: 0 <= j < |reactors| ==> reactors[j].actors == map[]
      ensures LightsOf(reactors) == old(LightsOf(reactors))
      ensures patcher.ready == old(patcher.ready) && patcher.sent == old(patcher.sent)
      ensures natives.live == old(natives.live) - old(AllHandles(reactors))
    {
      ghost var lights := LightsOf(reactors);
      ghost var hs := seq(|reactors|, j requires 0 <= j < |reactors| reads this, reactors, AllObjs(reactors) => reactors[j].Handles());
      HeldBeforeAll(reactors, hs);
      for i := 0 to |reactors|
        invariant Valid() && Cleared(lights, hs, i)
        invariant patcher.ready == old(patcher.ready) && patcher.sent == old(patcher.sent)
        invariant natives.live == old(natives.live) - HeldBefore(hs, i)
      {
        ClearStep(i, lights, hs);
        HeldBeforeNext(hs, i);
      }
      assert LightsOf(reactors) == lights;
    }

    /**
     * processReactor: accepted items go to added or, with a previous version
     * and an actor, to updated when the reactor's diff fires; the previous ids
     * left over, in key order, give deleted. The reactor processes that diff,
     * so its actors end up under the ids it had, plus the added ones, minus the
     * deleted ones.
     */
    method ProcessReactor(i: nat, items: seq<Item>)
      requires Valid() && i < |reactors|
      modifies reactors[i], reactors[i].Objs(), natives, ids, patcher
      ensures reactors == old(reactors) && Valid()
      ensures reactors[i].actors.Keys
           == KeysAfter(FilterView(reactors[i]), old(reactors[i].actors).Keys, prevItems, prevKeys, items)
      ensures reactors[i].light == old(reactors[i].light)
      ensures forall j :: 0 <= j < |reactors| && j != i ==> unchanged(reactors[j])
      ensures patcher.ready == old(patcher.ready) && patcher.sent == old(patcher.sent)
    {
      var r := reactors[i];
      ghost var v, held := r.CurrentView(), r.actors.Keys;
      var added, deleted, updated := [], [], [];
      var deletedIds := prevItems.Keys;
      for k := 0 to |items|
        invariant added == AddedOf(v, held, prevItems, items[..k])
        invariant updated == UpdatedOf(v, held, prevItems, items[..k])
        invariant deletedIds == prevItems.Keys - MatchedIds(v, items[..k])
      {
        assert items[..k + 1][..k] == items[..k];
        var item := items[k];
        if Matches(r.CurrentView(), item) {
          if item.id in prevItems && r.Has(item.id) {
            if DiffOf(r.CurrentView(), prevItems[item.id], item) {
              updated := updated + [item];
            }
          } else {
            added := added + [item];
          }
          deletedIds := deletedIds - {item.id};
        }
      }
      assert items[..|items|] == items;
      for j := 0 to |prevKeys|
        invariant deleted == DeletedOf(v, prevItems, prevKeys[..j], MatchedIds(v, items))
      {
        assert prevKeys[..j + 1][..j] == prevKeys[..j];
        var id := prevKeys[j];
        if id in deletedIds && Matches(r.CurrentView(), prevItems[id]) {
          deleted := deleted + [prevItems[id]];
        }
      }
      assert prevKeys[..|prevKeys|] == prevKeys;
      assert Diff(added, deleted, updated) == Classify(v, held, prevItems, prevKeys, items);
      FilterOnly(v, FilterView(r), held, prevItems, prevKeys, items);
      NotTheReconciler(r.actors, this);
      RunAt(i, added, deleted, updated);
    }

    /** submitChanges, on the reconciler's patcher. */
    method Submit()
      requires patcher.Valid() && Engine()
      modifies patcher
      ensures patcher.Valid() && Engine() && patcher.State() == EMPTY && patcher.ready == old(patcher.ready)
      ensures patcher.sent == old(patcher.sent) + Flush(old(patcher.ready), old(patcher.State()))
      ensures unchanged(reactors) && LightsOf(reactors) == old(LightsOf(reactors))
    {
      EngineOutside(reactors, patcher);
      ghost var all, sent0, flushed := AllObjs(reactors), patcher.sent, Flush(patcher.ready, patcher.State());
      patcher.SubmitChanges();
      assert patcher.sent == sent0 + flushed;
      assert forall o :: o in all ==> unchanged(o);
    }

    /**
     * Where reconcile's loop stands before the `i`-th reactor: the reactors
     * before it have processed the diff of `items`, the rest still hold the
     * actors in `acts0`, and every view and light state is as it was.
     */
    ghost predicate Steady(acts0: seq<map<ItemId, ActorRef>>, views: seq<View>, lights: seq<LightState>, i: nat, items: seq<Item>)
      reads this, reactors
    {
      && |acts0| == |views| == |lights| == |reactors| && i <= |reactors|
      && (forall j :: 0 <= j < |reactors| ==> FilterView(reactors[j]) == views[j] && reactors[j].light == lights[j])
      && (forall j :: 0 <= j < i ==> reactors[j].actors.Keys == KeysAfter(views[j], acts0[j].Keys, prevItems, prevKeys, items))
      && (forall j :: i <= j < |reactors| ==> reactors[j].actors == acts0[j])
    }

    /** One turn of reconcile's loop: the `i`-th reactor processes its diff. */
    method ReconcileStep(i: nat, items: seq<Item>, ghost acts0: seq<map<ItemId, ActorRef>>, ghost views: seq<View>, ghost lights: seq<LightState>)
      requires Valid() && i < |reactors| && Steady(acts0, views, lights, i, items)
      modifies reactors[i], reactors[i].Objs(), natives, ids, patcher
      ensures Valid() && Steady(acts0, views, lights, i + 1, items)
      ensures patcher.ready == old(patcher.ready) && patcher.sent == old(patcher.sent)
    {
      NotTheReconciler(reactors[i].actors, this);
      ProcessReactor(i, items);
      forall j | 0 <= j < |reactors| && j != i
        ensures FilterView(reactors[j]) == views[j] && reactors[j].light == lights[j]
        ensures reactors[j].actors == old(reactors[j].actors)
      {
      }
    }

    /**
     * `prevItems.clear()` and `prevItems.set(item.id, item)` for every item, in
     * order: the map keeps the last item per id, the keys their first arrival.
     */
    method SetPrev(items: seq<Item>)
      requires Engine()
      modifies this`prevItems, this`prevKeys
      ensures Engine()
      ensures prevItems == SnapshotMap(items) && prevKeys == KeyOrder(items) && Keyed(prevItems, prevKeys)
      ensures unchanged(reactors) && LightsOf(reactors) == old(LightsOf(reactors))
    {
      var prev, keys := map[], [];
      for i := 0 to |items|
        invariant prev == SnapshotMap(items[..i]) && keys == KeyOrder(items[..i])
      {
        assert SnapshotMap(items[..i + 1]) == SnapshotMap(items[..i])[items[i].id := items[i]]
            && KeyOrder(items[..i + 1]) == if items[i].id in prev then keys else keys + [items[i].id] by {
          SnapshotStep(items, i);
        }
        var item := items[i];
        if item.id !in prev {
          keys := keys + [item.id];
        }
        prev := prev[item.id := item];
      }
      assert items[..|items|] == items;
      assert Keyed(prev, keys) && this !in AllObjs(reactors) by {
        SnapshotKeyed(items);
        EngineOutside(reactors, this);
      }
      prevItems, prevKeys := prev, keys;
    }

    /** The tail of reconcile: submit the staged changes, then take the new snapshot; the reactors are left alone. */
    method Finish(items: seq<Item>)
      requires Valid()
      modifies this`prevItems, this`prevKeys, patcher
      ensures Valid()
      ensures prevItems == SnapshotMap(items) && prevKeys == KeyOrder(items)
      ensures patcher.State() == EMPTY && patcher.ready == old(patcher.ready)
      ensures patcher.sent == old(patcher.sent) + Flush(old(patcher.ready), old(patcher.State()))
      ensures UniqueIds(items) && old(MatchAll(reactors, items)) ==> Tracking()
      ensures LightsOf(reactors) == old(LightsOf(reactors))
    {
      Submit();
      SetPrev(items);
      if UniqueIds(items) && old(MatchAll(reactors, items)) {
        MatchAllTracks(reactors, items);
      }
    }

    /** Every reactor's actors are exactly the previous items its filter accepts. */
    ghost predicate Tracking()
      reads this, reactors
    {
      forall j :: 0 <= j < |reactors| ==> reactors[j].actors.Keys == Tracked(FilterView(reactors[j]), prevItems)
    }

    /** Every reactor's actors are previous items its filter accepts: the invariant reconcile relies on. */
    ghost predicate Within()
      reads this, reactors
    {
      forall j :: 0 <= j < |reactors| ==> reactors[j].actors.Keys <= Tracked(FilterView(reactors[j]), prevItems)
    }

    /** reconcile's loop: every reactor, in registration order, processes the diff of `items`. */
    method RunReactors(items: seq<Item>)
      requires Valid()
      modifies reactors, AllObjs(reactors), natives, ids, patcher
      ensures reactors == old(reactors) && Valid()
      ensures LightsOf(reactors) == old(LightsOf(reactors))
      ensures forall j :: 0 <= j < |reactors| ==>
                reactors[j].actors.Keys == KeysAfter(FilterView(reactors[j]), old(reactors[j].actors).Keys, prevItems, prevKeys, items)
      ensures patcher.ready == old(patcher.ready) && patcher.sent == old(patcher.sent)
      ensures old(Within()) ==> MatchAll(reactors, items)
    {
      EngineOutside(reactors, this);
      ghost var acts0 := seq(|reactors|, j requires 0 <= j < |reactors| reads this, reactors => reactors[j].actors);
      ghost var views := seq(|reactors|, j requires 0 <= j < |reactors| reads this, reactors => FilterView(reactors[j]));
      ghost var lights := LightsOf(reactors);
      ghost var all0 := AllObjs(reactors);
      forall j | 0 <= j < |reactors|
        ensures ObjsOf(acts0[j]) <= all0
      {
        assert reactors[j].Objs() == ObjsOf(acts0[j]);
      }
      for i := 0 to |reactors|
        invariant Valid() && Steady(acts0, views, lights, i, items)
        invariant patcher.ready == old(patcher.ready) && patcher.sent == old(patcher.sent)
      {
        assert reactors[i].Objs() <= all0;
        NotTheReconciler(reactors[i].actors, this);
        ReconcileStep(i, items, acts0, views, lights);
      }
      assert LightsOf(reactors) == lights;
      if old(Within()) {
        forall j | 0 <= j < |reactors|
          ensures reactors[j].actors.Keys == MatchedIds(FilterView(reactors[j]), items)
        {
          PassTracks(views[j], acts0[j].Keys, prevItems, prevKeys, items);
        }
      }
    }

    /**
     * reconcile: every reactor, in registration order, processes the diff of
     * `items` against the previous snapshot; the staged changes are submitted
     * once; the snapshot becomes `items` keyed by id.
     */
    method Reconcile(items: seq<Item>)
      requires Valid()
      modifies this`prevItems, this`prevKeys, reactors, AllObjs(reactors), natives, ids, patcher
      ensures reactors == old(reactors) && Valid()
      ensures LightsOf(reactors) == old(LightsOf(reactors))
      ensures prevItems == SnapshotMap(items) && prevKeys == KeyOrder(items)
      ensures patcher.State() == EMPTY && patcher.ready == old(patcher.ready)
      ensures exists s :: patcher.sent == old(patcher.sent) + Flush(patcher.ready, s)
      ensures old(Within()) && UniqueIds(items) ==> Tracking()
    {
      EngineOutside(reactors, this);
      RunReactors(items);
      ghost var matching := MatchAll(reactors, items);
      assert old(Within()) ==> matching;
      Finish(items);
      assert UniqueIds(items) && matching ==> Tracking();
    }

    /** delete: every reactor deletes its actors, then the staged deletions are submitted once. */
    method Delete()
      requires Valid()
      modifies reactors, natives, patcher
      ensures Valid() && Within()
      ensures forall j :: 0 <= j < |reactors| ==> reactors[j].actors == map[]
      ensures natives.live == old(natives.live) - old(AllHandles(reactors))
      ensures patcher.State() == EMPTY && patcher.ready == old(patcher.ready)
      ensures exists s :: patcher.sent == old(patcher.sent) + Flush(patcher.ready, s)
    {
      ClearAll();
      Submit();
    }

    /** patcher.setReady, seen from the reconciler: nothing else changes. */
    method SetReady(ready: bool)
      requires Valid()
      modifies patcher
      ensures Valid() && patcher.ready == ready
      ensures patcher.State() == old(patcher.State()) && patcher.sent == old(patcher.sent)
      ensures unchanged(reactors) && LightsOf(reactors) == old(LightsOf(reactors))
    {
      EngineOutside(reactors, patcher);
      ghost var all := AllObjs(reactors);
      patcher.SetReady(ready);
      assert forall o :: o in all ==> unchanged(o);
    }

    /** handleSceneReady on a scene that is not ready: the reactors are cleared and nothing is sent. */
    method ClearScene()
      requires Valid() && !patcher.ready
      modifies reactors, natives, patcher
      ensures Valid() && Within()
      ensures forall j :: 0 <= j < |reactors| ==> reactors[j].actors == map[]
      ensures LightsOf(reactors) == old(LightsOf(reactors))
      ensures patcher.State() == EMPTY && !patcher.ready && patcher.sent == old(patcher.sent)
      ensures natives.live == old(natives.live) - old(AllHandles(reactors))
    {
      ClearAll();
      Submit();
    }

    /**
     * handleSceneReady: the patcher's ready flag follows the scene; a ready
     * scene is reconciled against `items`, the host's current items; otherwise
     * every reactor drops its actors and the patcher, now not ready, sends
     * nothing. The previous snapshot is kept in that case.
     */
    method HandleSceneReady(ready: bool, items: seq<Item>)
      requires Valid()
      modifies this`prevItems, this`prevKeys, reactors, AllObjs(reactors), natives, ids, patcher
      ensures reactors == old(reactors) && Valid()
      ensures patcher.ready == ready && patcher.State() == EMPTY
      ensures ready ==> prevItems == SnapshotMap(items) && prevKeys == KeyOrder(items)
      ensures ready && old(Within()) && UniqueIds(items) ==> Tracking()
      ensures ready ==> exists s :: patcher.sent == old(patcher.sent) + Flush(true, s)
      ensures LightsOf(reactors) == old(LightsOf(reactors))
      ensures !ready ==> prevItems == old(prevItems) && prevKeys == old(prevKeys) && patcher.sent == old(patcher.sent)
      ensures !ready ==> Within() && forall j :: 0 <= j < |reactors| ==> reactors[j].actors == map[]
      ensures !ready ==> natives.live == old(natives.live) - old(AllHandles(reactors))
    {
      if ready {
        SceneReady(items);
      } else {
        SceneNotReady();
      }
    }

    /** handleSceneReady(true): the patcher becomes ready and the scene is reconciled against `items`. */
    method SceneReady(items: seq<Item>)
      requires Valid()
      modifies this`prevItems, this`prevKeys, reactors, AllObjs(reactors), natives, ids, patcher
      ensures reactors == old(reactors) && Valid()
      ensures patcher.ready && patcher.State() == EMPTY
      ensures prevItems == SnapshotMap(items) && prevKeys == KeyOrder(items)
      ensures old(Within()) && UniqueIds(items) ==> Tracking()
      ensures LightsOf(reactors) == old(LightsOf(reactors))
      ensures exists s :: patcher.sent == old(patcher.sent) + Flush(true, s)
    {
      ghost var within, all := Within(), AllObjs(reactors);
      SetReady(true);
      assert within == Within() && all == AllObjs(reactors);
      Reconcile(items);
    }

    /** handleSceneReady(false): the patcher stops being ready and every reactor drops its actors. */
    method SceneNotReady()
      requires Valid()
      modifies reactors, natives, patcher
      ensures reactors == old(reactors) && Valid()
      ensures LightsOf(reactors) == old(LightsOf(reactors))
      ensures !patcher.ready && patcher.State() == EMPTY
      ensures prevItems == old(prevItems) && prevKeys == old(prevKeys) && patcher.sent == old(patcher.sent)
      ensures Within() && forall j :: 0 <= j < |reactors| ==> reactors[j].actors == map[]
      ensures natives.live == old(natives.live) - old(AllHandles(reactors))
    {
      EngineOutside(reactors, patcher);
      SetReady(false);
      HandlesKept(reactors);
      EngineOutside(reactors, this);
      ClearScene();
    }

    /**
     * Where register's hydration loop stands before the `i`-th reactor: the
     * reactors registered before `n0` keep their actors, the new ones before
     * `i` hold exactly the previous items they accept, the rest none yet.
     */
    ghost predicate Hydrated(acts0: seq<map<ItemId, ActorRef>>, lights: seq<LightState>, n0: nat, i: nat)
      reads this, reactors
    {
      && |acts0| == |lights| == |reactors| && n0 <= i <= |reactors|
      && (forall j :: 0 <= j < |reactors| ==> reactors[j].light == lights[j])
      && (forall j :: 0 <= j < n0 ==> reactors[j].actors == acts0[j])
      && (forall j :: n0 <= j < i ==> reactors[j].actors.Keys == Tracked(FilterView(reactors[j]), prevItems))
      && (forall j :: i <= j < |reactors| ==> reactors[j].actors == map[])
    }

    /**
     * register's hydration of the `i`-th reactor: the previous values it
     * accepts, in key order, are processed as added, so its actors end up
     * under exactly the previous ids its filter accepts.
     */
    method Hydrate(i: nat)
      requires Valid() && i < |reactors| && reactors[i].actors == map[]
      modifies reactors[i], natives, ids, patcher
      ensures Valid()
      ensures reactors[i].actors.Keys == Tracked(FilterView(reactors[i]), prevItems)
      ensures reactors[i].light == old(reactors[i].light)
      ensures forall j :: 0 <= j < |reactors| && j != i ==> unchanged(reactors[j])
      ensures patcher.ready == old(patcher.ready) && patcher.sent == old(patcher.sent)
    {
      var r := reactors[i];
      var added := [];
      for j := 0 to |prevKeys|
        invariant added == Hydration(FilterView(r), prevItems, prevKeys[..j])
      {
        assert prevKeys[..j + 1][..j] == prevKeys[..j];
        var item := prevItems[prevKeys[j]];
        if Matches(r.CurrentView(), item) {
          added := added + [item];
        }
      }
      assert prevKeys[..|prevKeys|] == prevKeys;
      HydrationTracks(FilterView(reactors[i]), prevItems, prevKeys);
      assert reactors[i].Objs() == {};
      NotTheReconciler(reactors[i].actors, this);
      RunAt(i, added, [], []);
    }

    /** One turn of register's hydration loop. */
    method HydrateStep(i: nat, ghost acts0: seq<map<ItemId, ActorRef>>, ghost lights: seq<LightState>, ghost n0: nat)
      requires Valid() && i < |reactors| && Hydrated(acts0, lights, n0, i)
      modifies reactors[i], natives, ids, patcher
      ensures Valid() && Hydrated(acts0, lights, n0, i + 1)
      ensures patcher.ready == old(patcher.ready) && patcher.sent == old(patcher.sent)
    {
      Hydrate(i);
      forall j | 0 <= j < |reactors| && j != i
        ensures reactors[j].light == lights[j] && reactors[j].actors == old(reactors[j].actors)
        ensures FilterView(reactors[j]) == old(FilterView(reactors[j]))
      {
      }
    }

    /** register's hydration loop over the new reactors `rs`, registered from `n0` on. */
    method HydrateFrom(rs: seq<Reactor>, n0: nat, ghost acts0: seq<map<ItemId, ActorRef>>, ghost lights: seq<LightState>)
      requires Valid() && Hydrated(acts0, lights, n0, n0) && reactors[n0..] == rs
      modifies rs, natives, ids, patcher
      ensures Valid() && Hydrated(acts0, lights, n0, |reactors|)
      ensures forall k :: 0 <= k < |rs| ==>
                rs[k].actors.Keys == Tracked(FilterView(rs[k]), prevItems) && rs[k].light == lights[n0 + k]
      ensures patcher.ready == old(patcher.ready) && patcher.sent == old(patcher.sent)
    {
      for i := n0 to |reactors|
        invariant Valid() && Hydrated(acts0, lights, n0, i)
        invariant patcher.ready == old(patcher.ready) && patcher.sent == old(patcher.sent)
      {
        assert reactors[i] == rs[i - n0];
        HydrateStep(i, acts0, lights, n0);
      }
      forall k | 0 <= k < |rs|
        ensures rs[k] == reactors[n0 + k]
      {
      }
    }

    /** register's `this.reactors.push(...reactors)`: the blank reactors join, none of them hydrated yet. */
    method Join(rs: seq<Reactor>) returns (ghost acts0: seq<map<ItemId, ActorRef>>, ghost lights: seq<LightState>)
      requires Valid() && Blank(rs) && Unrepeated(reactors + rs)
      modifies this`reactors
      ensures Valid() && reactors == old(reactors) + rs && Hydrated(acts0, lights, |old(reactors)|, |old(reactors)|)
      ensures forall j :: 0 <= j < |old(reactors)| ==> acts0[j] == reactors[j].actors && lights[j] == reactors[j].light
      ensures forall k :: 0 <= k < |rs| ==> lights[|old(reactors)| + k] == rs[k].light
    {
      ghost var before := reactors;
      EngineOutside(reactors, this);
      reactors := reactors + rs;
      JoinBlank(before, rs, natives, ids);
      acts0 := seq(|reactors|, j requires 0 <= j < |reactors| reads this, reactors => reactors[j].actors);
      lights := seq(|reactors|, j requires 0 <= j < |reactors| reads this, reactors => reactors[j].light);
      forall k | 0 <= k < |rs|
        ensures reactors[|before| + k] == rs[k]
      {
      }
    }

    /**
     * register: the new reactors join the list and each, in order, is hydrated
     * with the previous items it accepts; the staged changes are submitted once.
     * The reactors registered before keep their actors.
     */
    method Register(rs: seq<Reactor>)
      requires Valid() && Blank(rs) && Unrepeated(reactors + rs)
      modifies this`reactors, rs, natives, ids, patcher
      ensures Valid() && reactors == old(reactors) + rs
      ensures forall k :: 0 <= k < |rs| ==>
                rs[k].actors.Keys == Tracked(FilterView(rs[k]), prevItems) && rs[k].light == old(rs[k].light)
      ensures forall j :: 0 <= j < |old(reactors)| ==>
                reactors[j].actors == old(reactors[j].actors) && reactors[j].light == old(reactors[j].light)
      ensures patcher.State() == EMPTY && patcher.ready == old(patcher.ready)
      ensures exists s :: patcher.sent == old(patcher.sent) + Flush(patcher.ready, s)
      ensures old(Within()) ==> Within()
      ensures old(Tracking()) ==> Tracking()
    {
      var n0 := |reactors|;
      ghost var acts0, lights := Join(rs);
      HydrateFrom(rs, n0, acts0, lights);
      Submit();
    }

    /** unregister's step on the reactor at `i`: it is spliced out of the list, then deletes its actors. */
    method DropAt(i: nat)
      requires Valid() && i < |reactors|
      modifies this`reactors, reactors[i], natives, patcher
      ensures Valid() && reactors == old(reactors[..i] + reactors[i + 1..])
      ensures old(reactors[i]).actors == map[] && old(reactors[i]).light == old(reactors[i].light)
      ensures natives.live == old(natives.live) - old(reactors[i].Handles())
      ensures forall j :: 0 <= j < |old(reactors)| && j != i ==> old(reactors)[j].Handles() == old(reactors[j].Handles())
      ensures patcher.ready == old(patcher.ready) && patcher.sent == old(patcher.sent)
    {
      var rs := reactors;
      assert Keyed(prevItems, prevKeys);
      EngineOutside(rs, this);
      DropOne(rs, i, natives, ids, patcher);
      EngineOutside(rs[..i] + rs[i + 1..], this);
      reactors := rs[..i] + rs[i + 1..];
    }

    /**
     * Where unregister's loop stands after the reactors in `done`: the list is
     * `all0` with them spliced out, each of them that was registered holds no
     * actor, and every other reactor keeps its actors and light state.
     */
    ghost predicate Dropping(all0: seq<Reactor>, acts0: seq<map<ItemId, ActorRef>>, lights: seq<LightState>, done: seq<Reactor>)
      reads this, all0, reactors
    {
      && |acts0| == |lights| == |all0| && Unrepeated(all0)
      && reactors == Unregistered(all0, done)
      && (forall k :: 0 <= k < |reactors| ==> reactors[k] in all0)
      && (forall j :: 0 <= j < |all0| ==> all0[j].light == lights[j])
      && (forall j :: 0 <= j < |all0| && all0[j] in done ==> all0[j].actors == map[])
      && (forall j :: 0 <= j < |all0| && all0[j] !in done ==> all0[j].actors == acts0[j])
    }

    /**
     * What unregister's loop has released after the reactors in `done`: the paths
     * `hs0` lists for the named reactors of `all0`; the others still hold theirs.
     */
    ghost predicate Releasing(all0: seq<Reactor>, hs0: seq<set<nat>>, live0: set<nat>, done: seq<Reactor>)
      reads all0, AllObjs(all0), natives
    {
      && |hs0| == |all0|
      && (forall j :: 0 <= j < |all0| && all0[j] !in done ==> all0[j].Handles() == hs0[j])
      && natives.live == live0 - HeldAmong(all0, hs0, done)
    }

    /** One turn of unregister's loop, with the paths it releases. */
    method DropReleasing(r: Reactor, ghost all0: seq<Reactor>, ghost acts0: seq<map<ItemId, ActorRef>>,
                         ghost lights: seq<LightState>, ghost done: seq<Reactor>,
                         ghost hs0: seq<set<nat>>, ghost live0: set<nat>)
      requires Valid() && Dropping(all0, acts0, lights, done) && Releasing(all0, hs0, live0, done)
      modifies this`reactors, reactors, natives, patcher
      ensures Valid() && Dropping(all0, acts0, lights, done + [r]) && Releasing(all0, hs0, live0, done + [r])
      ensures patcher.ready == old(patcher.ready) && patcher.sent == old(patcher.sent)
    {
      if r in all0 && r !in done {
        HeldAmongMore(all0, hs0, done, r, r.Handles());
      } else {
        HeldAmongSame(all0, hs0, done, r);
      }
      DropStep(r, all0, acts0, lights, done);
    }

    /** One turn of unregister's loop: `r`, if still registered, is dropped. */
    method DropStep(r: Reactor, ghost all0: seq<Reactor>, ghost acts0: seq<map<ItemId, ActorRef>>,
                    ghost lights: seq<LightState>, ghost done: seq<Reactor>)
      requires Valid() && Dropping(all0, acts0, lights, done)
      modifies this`reactors, reactors, natives, patcher
      ensures Valid() && Dropping(all0, acts0, lights, done + [r])
      ensures forall j :: 0 <= j < |all0| && all0[j] !in done + [r] ==> all0[j].Handles() == old(all0[j].Handles())
      ensures r in all0 && r !in done ==> natives.live == old(natives.live) - old(r.Handles())
      ensures !(r in all0 && r !in done) ==> natives.live == old(natives.live)
      ensures patcher.ready == old(patcher.ready) && patcher.sent == old(patcher.sent)
    {
      UnregisteredStep(all0, done, r);
      UnregisteredWithin(all0, done + [r]);
      var idx := IndexOf(reactors, r);
      if idx < 0 && r in all0 {
        UnregisteredNamed(all0, done, r);
      }
      if idx >= 0 {
        ghost var before := reactors;
        DropAt(idx);
        forall j | 0 <= j < |all0| && all0[j] !in done + [r]
          ensures all0[j].Handles() == old(all0[j].Handles())
        {
          assert all0[j] in before by {
            UnregisteredKeeps(all0, done);
          }
        }
      }
      assert reactors == Unregistered(all0, done + [r]);
      forall j | 0 <= j < |all0|
        ensures all0[j].light == lights[j]
        ensures all0[j] in done + [r] ==> all0[j].actors == map[]
        ensures all0[j] !in done + [r] ==> all0[j].actors == acts0[j]
      {
        if all0[j] != r {
          assert all0[j].light == old(all0[j].light) && all0[j].actors == old(all0[j].actors);
        }
      }
    }

    /**
     * unregister: each reactor named in `gone` that is still registered is
     * spliced out of the list and deletes its actors; the staged deletions
     * are submitted once. Every other reactor keeps its actors.
     */
    method Unregister(gone: seq<Reactor>)
      requires Valid()
      modifies this`reactors, reactors, natives, patcher
      ensures Valid() && reactors == Unregistered(old(reactors), gone)
      ensures forall j :: 0 <= j < |old(reactors)| ==>
                && old(reactors)[j].light == old(reactors[j].light)
                && old(reactors)[j].actors == if old(reactors)[j] in gone then map[] else old(reactors[j].actors)
      ensures natives.live == old(natives.live) - old(HandlesAmong(reactors, gone))
      ensures patcher.State() == EMPTY && patcher.ready == old(patcher.ready)
      ensures exists s :: patcher.sent == old(patcher.sent) + Flush(patcher.ready, s)
    {
      DropEach(gone);
      Submit();
    }

    /** unregister's loop: every reactor of `gone` still registered is dropped, nothing is submitted yet. */
    method DropEach(gone: seq<Reactor>)
      requires Valid()
      modifies this`reactors, reactors, natives, patcher
      ensures Valid() && reactors == Unregistered(old(reactors), gone)
      ensures forall j :: 0 <= j < |old(reactors)| ==>
                && old(reactors)[j].light == old(reactors[j].light)
                && old(reactors)[j].actors == if old(reactors)[j] in gone then map[] else old(reactors[j].actors)
      ensures natives.live == old(natives.live) - old(HandlesAmong(reactors, gone))
      ensures patcher.ready == old(patcher.ready) && patcher.sent == old(patcher.sent)
    {
      ghost var all0 := reactors;
      ghost var hs0 := seq(|reactors|, j requires 0 <= j < |reactors| reads this, reactors, AllObjs(reactors) => reactors[j].Handles());
      HeldAmongAll(reactors, hs0, gone);
      ghost var acts0 := seq(|reactors|, j requires 0 <= j < |reactors| reads this, reactors => reactors[j].actors);
      ghost var lights := seq(|reactors|, j requires 0 <= j < |reactors| reads this, reactors => reactors[j].light);
      assert gone[..0] == [];
      for k := 0 to |gone|
        invariant Valid() && Dropping(all0, acts0, lights, gone[..k])
        invariant Releasing(all0, hs0, old(natives.live), gone[..k])
        invariant patcher.ready == old(patcher.ready) && patcher.sent == old(patcher.sent)
      {
        TakeOneMore(gone, k);
        DropReleasing(gone[k], all0, acts0, lights, gone[..k], hs0, old(natives.live));
      }
      assert gone[..|gone|] == gone;
    }

    // -------------------------------------------------------------------------
    // LightReactor's handlers, on the light reactor registered at `i`

    /**
     * The light reactor assigns its own fields: every other reactor, every
     * actor and the snapshot stay as they were. The reconciler keeps within
     * its snapshot when the new filter accepts at least what the old one did.
     */
    method SetLightAt(i: nat, s: LightState)
      requires Valid() && i < |reactors|
      modifies (reactors[i] as Reactor)`light
      ensures reactors == old(reactors) && Valid() && AllObjs(reactors) == old(AllObjs(reactors))
      ensures LightsOf(reactors) == old(LightsOf(reactors))[i := s]
      ensures old(Within()) && Tracked(old(FilterView(reactors[i])), prevItems) <= Tracked(FilterView(reactors[i]), prevItems)
              ==> Within()
      ensures old(Tracking()) && FilterView(reactors[i]) == old(FilterView(reactors[i])) ==> Tracking()
    {
      Focus(reactors, i, natives, ids);
      Outside(reactors, i, natives, ids, patcher);
      LightOne(reactors, i, natives, ids, s);
      Focus(reactors, i, natives, ids);
    }

    /**
     * refresh, which the light reactor asks of the reconciler: reconcile again
     * against the previous snapshot, in its key order. The snapshot stays, and
     * a reconciler within its snapshot ends up tracking it.
     */
    method Refresh()
      requires Valid()
      modifies this`prevItems, this`prevKeys, reactors, AllObjs(reactors), natives, ids, patcher
      ensures reactors == old(reactors) && Valid()
      ensures prevItems == old(prevItems) && prevKeys == old(prevKeys)
      ensures LightsOf(reactors) == old(LightsOf(reactors))
      ensures patcher.State() == EMPTY && patcher.ready == old(patcher.ready)
      ensures exists s :: patcher.sent == old(patcher.sent) + Flush(patcher.ready, s)
      ensures old(Within()) ==> Tracking()
    {
      var items := Values(prevItems, prevKeys);
      RefreshKeeps(prevItems, prevKeys);
      Reconcile(items);
    }

    /**
     * handlePlayerRole: a role equal to the stored one changes nothing;
     * another is stored and the reconciler refreshes. Turning GM only widens
     * the light filter, so a reconciler within its snapshot then tracks it.
     */
    method HandlePlayerRole(i: nat, role: Role)
      requires Valid() && i < |reactors| && reactors[i].kind == LightKind
      modifies this`prevItems, this`prevKeys, reactors, AllObjs(reactors), natives, ids, patcher
      ensures reactors == old(reactors) && Valid()
      ensures prevItems == old(prevItems) && prevKeys == old(prevKeys)
      ensures LightsOf(reactors) == old(LightsOf(reactors))[i := old(reactors[i].light).(playerRole := role)]
      ensures role == old(reactors[i].light.playerRole) ==> unchanged(reactors) && unchanged(patcher)
      ensures role != old(reactors[i].light.playerRole) ==>
                && patcher.State() == EMPTY && patcher.ready == old(patcher.ready)
                && exists s :: patcher.sent == old(patcher.sent) + Flush(patcher.ready, s)
      ensures role != old(reactors[i].light.playerRole) && role == GM && old(Within()) ==> Tracking()
    {
      var l := reactors[i].light;
      if role != l.playerRole {
        ghost var v := FilterView(reactors[i]);
        if role == GM {
          GmTracksMore(v, prevItems);
        }
        SetLightAt(i, l.(playerRole := role));
        Refresh();
      }
    }

    /**
     * handlePlayerId: an id equal to the stored one changes nothing; another
     * is stored and the reconciler refreshes. A GM's filter ignores the id, so
     * a GM's reconciler within its snapshot then tracks it.
     */
    method HandlePlayerId(i: nat, id: string)
      requires Valid() && i < |reactors| && reactors[i].kind == LightKind
      modifies this`prevItems, this`prevKeys, reactors, AllObjs(reactors), natives, ids, patcher
      ensures reactors == old(reactors) && Valid()
      ensures prevItems == old(prevItems) && prevKeys == old(prevKeys)
      ensures LightsOf(reactors) == old(LightsOf(reactors))[i := old(reactors[i].light).(playerId := id)]
      ensures id == old(reactors[i].light.playerId) ==> unchanged(reactors) && unchanged(patcher)
      ensures id != old(reactors[i].light.playerId) ==>
                && patcher.State() == EMPTY && patcher.ready == old(patcher.ready)
                && exists s :: patcher.sent == old(patcher.sent) + Flush(patcher.ready, s)
      ensures id != old(reactors[i].light.playerId) && old(reactors[i].light.playerRole) == GM && old(Within()) ==> Tracking()
    {
      var l := reactors[i].light;
      if id != l.playerId {
        ghost var v := FilterView(reactors[i]);
        if l.playerRole == GM {
          GmIgnoresId(v, id, prevItems);
        }
        SetLightAt(i, l.(playerId := id));
        Refresh();
      }
    }

    /**
     * handleLocalItems: the walls among the host's local `items`; when none is
     * newer than the stored date and their count is the stored one, nothing
     * happens. Otherwise their points, in world space, become the stored
     * walls, and the reconciler refreshes with the walls marked dirty, so that
     * every light already built is updated; the mark is cleared afterwards.
     * The stored date itself is never assigned.
     */
    method HandleLocalItems(i: nat, items: seq<HostLocal>)
      requires Valid() && i < |reactors| && reactors[i].kind == LightKind
      modifies this`prevItems, this`prevKeys, reactors, AllObjs(reactors), natives, ids, patcher
      ensures reactors == old(reactors) && Valid()
      ensures prevItems == old(prevItems) && prevKeys == old(prevKeys)
      ensures var l := old(reactors[i].light);
              SkipsWalls(WallsOf(items), l.wallsLastModified, |l.walls|) ==> unchanged(reactors) && unchanged(patcher)
      ensures var l := old(reactors[i].light);
              !SkipsWalls(WallsOf(items), l.wallsLastModified, |l.walls|) ==>
                && LightsOf(reactors) == old(LightsOf(reactors))[i := l.(walls := WallLines(kit, WallsOf(items)), wallsDirty := false)]
                && patcher.State() == EMPTY && patcher.ready == old(patcher.ready)
                && (exists s :: patcher.sent == old(patcher.sent) + Flush(patcher.ready, s))
                && (old(Within()) ==> Tracking())
    {
      var walls := WallsOf(items);
      var l := reactors[i].light;
      if SkipsWalls(walls, l.wallsLastModified, |l.walls|) {
        return;
      }
      RebuildWalls(i, WallLines(kit, walls));
    }

    /**
     * The light reactor stores `s`, which keeps its player and role, and the
     * reconciler refreshes.
     */
    method StoreAndRefresh(i: nat, s: LightState)
      requires Valid() && i < |reactors|
      requires s.playerRole == reactors[i].light.playerRole && s.playerId == reactors[i].light.playerId
      modifies this`prevItems, this`prevKeys, reactors, AllObjs(reactors), natives, ids, patcher
      ensures reactors == old(reactors) && Valid()
      ensures prevItems == old(prevItems) && prevKeys == old(prevKeys)
      ensures LightsOf(reactors) == old(LightsOf(reactors))[i := s]
      ensures patcher.State() == EMPTY && patcher.ready == old(patcher.ready)
      ensures exists p :: patcher.sent == old(patcher.sent) + Flush(patcher.ready, p)
      ensures old(Within()) ==> Tracking()
    {
      SetLightAt(i, s);
      Refresh();
    }

    /**
     * handleLocalItems past its guard: the new walls are stored and marked
     * dirty, the reconciler refreshes, and the mark is cleared.
     */
    method RebuildWalls(i: nat, lines: seq<seq<Vec2>>)
      requires Valid() && i < |reactors|
      modifies this`prevItems, this`prevKeys, reactors, AllObjs(reactors), natives, ids, patcher
      ensures reactors == old(reactors) && Valid()
      ensures prevItems == old(prevItems) && prevKeys == old(prevKeys)
      ensures LightsOf(reactors) == old(LightsOf(reactors))[i := old(reactors[i].light).(walls := lines, wallsDirty := false)]
      ensures patcher.State() == EMPTY && patcher.ready == old(patcher.ready)
      ensures exists s :: patcher.sent == old(patcher.sent) + Flush(patcher.ready, s)
      ensures old(Within()) ==> Tracking()
    {
      var l := reactors[i].light;
      ghost var ls := LightsOf(reactors);
      var dirty, clean := l.(walls := lines, wallsDirty := true), l.(walls := lines, wallsDirty := false);
      StoreAndRefresh(i, dirty);
      SetLightAt(i, clean);
      UpdateTwice(ls, i, dirty, clean);
    }
  }
}
