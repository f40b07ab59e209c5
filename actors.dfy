/**
 * The actors a reactor creates, one per matched item (src/background/reconcile/Actor.ts
 * and actors/), behind one tagged reference, with the dispatch of their three
 * lifecycle calls.
 */
module Actors {
  import opened Scene
  import opened CanvasKit
  import opened LocalItems
  import opened Patching
  import opened ReactorFilters
  import DoorActors
  import WallActors
  import LightActors
  import SelfLightActors
  import LightOverlayActors
  import DoorOverlayActors
  import WallHelpers

  datatype ActorRef =
    | DoorA(door: DoorActors.DoorActor)
    | WallA(wall: WallActors.WallActor)
    | LightA(light: LightActors.LightActor)
    | SelfLightA(selfLight: SelfLightActors.SelfLightActor)
    | LightOverlayA(lightOverlay: LightOverlayActors.LightOverlayActor)
    | DoorOverlayA(doorOverlay: DoorOverlayActors.DoorOverlayActor)

  /** The reactor kind whose ActorClass builds this actor. */
  function KindOf(a: ActorRef): Kind {
    match a
    case DoorA(_) => DoorKind
    case WallA(_) => WallKind
    case LightA(_) => LightKind
    case SelfLightA(_) => SelfLightKind
    case LightOverlayA(_) => LightOverlayKind
    case DoorOverlayA(_) => DoorOverlayKind
  }

  ghost function Obj(a: ActorRef): object {
    match a
    case DoorA(d) => d
    case WallA(w) => w
    case LightA(l) => l
    case SelfLightA(s) => s
    case LightOverlayA(o) => o
    case DoorOverlayA(o) => o
  }

  /**
   * What an actor owns is consistent: a door actor's paths are live and distinct,
   * the wall and door-overlay ids are distinct and were generated below `bound`.
   */
  ghost predicate ActorValid(a: ActorRef, live: set<nat>, bound: LocalId)
    reads Obj(a)
  {
    match a
    case DoorA(d) => DoorActors.AllLive(d.doors, live) && DoorActors.DistinctHandles(d.doors)
    case WallA(w) => WallActors.Owned(w.walls, bound)
    case DoorOverlayA(o) => DoorOverlayActors.OverlaysOwned(o.doors, bound)
    case _ => true
  }

  /** The native paths an actor holds: only door actors hold any. */
  ghost function ActorHeld(a: ActorRef): set<nat>
    reads Obj(a)
  {
    if a.DoorA? then DoorActors.Held(a.door.doors) else {}
  }

  /** The local ids an actor's delete stages for deletion, in its order. */
  function LocalIdsOf(a: ActorRef): seq<LocalId>
    reads Obj(a)
  {
    match a
    case DoorA(_) => []
    case WallA(w) => w.walls
    case LightA(l) => [l.light, l.polygon, l.effect]
    case SelfLightA(s) => [s.light]
    case LightOverlayA(o) => [o.billboard]
    case DoorOverlayA(o) => DoorOverlayActors.OverlayIds(o.doors)
  }

  /**
   * The native heap after an actor was built, updated or deleted: what the actor
   * did not hold before is still live, and every path it newly holds or left live
   * is new.
   */
  ghost predicate Kept(live0: set<nat>, held0: set<nat>, live1: set<nat>, held1: set<nat>, next0: nat) {
    && live0 - held0 <= live1
    && (forall h :: h in live1 - live0 ==> next0 <= h)
    && (forall h :: h in held1 - held0 ==> next0 <= h)
  }

  /** Holding paths needs them live. */
  lemma HeldLive(a: ActorRef, live: set<nat>, bound: LocalId)
    requires ActorValid(a, live, bound)
    ensures ActorHeld(a) <= live
  {
    if a.DoorA? {
      forall h | h in ActorHeld(a)
        ensures h in live
      {
        var i :| 0 <= i < |a.door.doors| && a.door.doors[i].skPath.handle == h;
      }
    }
  }

  /** Validity survives other paths being allocated or released, and more ids being generated. */
  lemma ValidMono(a: ActorRef, live0: set<nat>, live1: set<nat>, b0: LocalId, b1: LocalId)
    requires ActorValid(a, live0, b0) && ActorHeld(a) <= live1 && b0 <= b1
    ensures ActorValid(a, live1, b1)
  {
    match a
    case DoorA(d) =>
      forall i | 0 <= i < |d.doors|
        ensures d.doors[i].skPath.handle in live1
      {
        assert d.doors[i].skPath.handle in DoorActors.Held(d.doors);
      }
    case WallA(w) =>
    case DoorOverlayA(o) =>
    case _ =>
  }

  /** Swapping some held paths for new ones keeps the rest of the heap. */
  lemma KeptExchange(live0: set<nat>, held0: set<nat>, live1: set<nat>, held1: set<nat>, next0: nat)
    requires held0 <= live0 && live1 == (live0 - held0) + held1
    requires forall h :: h in held1 - held0 ==> next0 <= h
    ensures Kept(live0, held0, live1, held1, next0)
  {
    forall h | h in live1 - live0
      ensures next0 <= h
    {
      assert h in held1 - held0;
    }
  }

  lemma HeldFrom(ds: seq<DoorActors.DoorComponent>, bound: nat)
    requires DoorActors.AllFrom(ds, bound)
    ensures forall h :: h in DoorActors.Held(ds) ==> bound <= h
  {
  }

  /**
   * The local items the constructor of a `kind` actor stages for `parent`, built
   * from consecutive ids starting at `first`: a wall per contour of a drawing, a
   * light with its polygon and effect, one self light, one light billboard, or a
   * billboard and a path per door that builds; a door actor stages nothing.
   */
  function Created(kind: Kind, kit: Kit, doors: seq<DoorActors.DoorComponent>, lightWalls: seq<seq<Vec2>>,
                   parent: Item, first: LocalId): seq<LocalItem>
  {
    match kind
    case DoorKind => []
    case WallKind => WallActors.WallItems(parent, WallActors.DrawingContours(kit, parent, doors), first)
    case LightKind => LightActors.LightItems(kit, lightWalls, parent, first)
    case SelfLightKind => [SelfLightActors.SelfLight(first, parent)]
    case LightOverlayKind => [LightOverlayActors.LightBillboard(first, parent)]
    case DoorOverlayKind =>
      if IsDrawing(parent) then DoorOverlayActors.Built(kit, parent, DoorList(parent), 0, first).1 else []
  }

  /**
   * What `actor.update(parent)` does to the staged changes `s`, read from the actor's
   * state before the update, with new ids starting at `first`. A wall actor adds walls
   * for new contours or deletes the surplus, then stages one points updater per wall;
   * a light actor stages one updater per item; a door-overlay actor adds or deletes
   * overlays, then stages the updaters of each remaining door. Door, self-light and
   * light-overlay actors stage nothing.
   */
  ghost function UpdateStaging(a: ActorRef, kit: Kit, doors: seq<DoorActors.DoorComponent>, parent: Item,
                               first: LocalId, s: Staging): Staging
    reads Obj(a)
  {
    match a
    case WallA(w) => WallStaging(w.walls, kit, doors, parent, first, s)
    case LightA(l) => s.Update(LightActors.LightEditsFor(l.light, l.polygon, l.effect, parent))
    case DoorOverlayA(o) => OverlayStaging(o.doors, kit, parent, first, s)
    case _ => s
  }

  /** A wall actor holding `walls`: new walls for new contours or the surplus deleted, then one updater per wall. */
  function WallStaging(walls: seq<LocalId>, kit: Kit, doors: seq<DoorActors.DoorComponent>, parent: Item,
                       first: LocalId, s: Staging): Staging
  {
    if !IsDrawing(parent) then s
    else
      var next := WallHelpers.Contours(kit, parent, doors, WallHelpers.SAMPLE_DISTANCE);
      var n0 := |walls|;
      var walls' := if n0 <= |next| then walls + WallActors.Range(first, |next| - n0) else walls[..|next|];
      s.Add(if n0 < |next| then WallActors.WallItems(parent, next[n0..], first) else [])
       .Delete(if n0 > |next| then walls[|next|..] else [])
       .Update(WallActors.WallEdits(walls', next))
  }

  /** A door-overlay actor holding `cs`: overlays added or deleted, then each remaining door's updaters. */
  function OverlayStaging(cs: seq<DoorOverlayActors.OverlayComponent>, kit: Kit, parent: Item,
                          first: LocalId, s: Staging): Staging
  {
    if !IsDrawing(parent) then s
    else
      var next, n0 := DoorList(parent), |cs|;
      var built := if n0 < |next| then DoorOverlayActors.Built(kit, parent, next[n0..], n0, first) else ([], []);
      var resized := if n0 < |next| then cs + built.0 else cs[..|next|];
      s.Add(built.1)
       .Delete(if n0 > |next| then DoorOverlayActors.OverlayIds(cs[|next|..]) else [])
       .Update(DoorOverlayActors.OverlayEdits(kit, parent, resized, next))
  }

  /** `new this.ActorClass(reconciler, parent)`: the actor of the reactor's kind for `parent`. */
  method NewActor(kind: Kind, kit: Kit, natives: Natives, ids: IdSource, patcher: Patcher,
                  doors: seq<DoorActors.DoorComponent>, lightWalls: seq<seq<Vec2>>, parent: Item,
                  ghost others: set<object>)
    returns (a: ActorRef)
    requires natives.Valid() && patcher.Valid()
    modifies natives, ids, patcher
    ensures KindOf(a) == kind && fresh(Obj(a)) && Obj(a) !in others
    ensures ActorValid(a, natives.live, ids.next)
    ensures natives.Valid() && old(natives.next) <= natives.next && old(ids.next) <= ids.next
    ensures Kept(old(natives.live), {}, natives.live, ActorHeld(a), old(natives.next))
    ensures patcher.Valid() && patcher.ready == old(patcher.ready) && patcher.sent == old(patcher.sent)
    ensures patcher.State() == old(patcher.State()).Add(Created(kind, kit, doors, lightWalls, parent, old(ids.next)))
    ensures ids.next == old(ids.next) + |Created(kind, kit, doors, lightWalls, parent, old(ids.next))|
  {
    match kind
    case DoorKind =>
      var d := new DoorActors.DoorActor(kit, natives, parent);
      HeldFrom(d.doors, old(natives.next));
      patcher.State().AddNone();
      a := DoorA(d);
    case WallKind =>
      var w := new WallActors.WallActor(kit, natives, ids, patcher, doors, parent);
      a := WallA(w);
    case LightKind =>
      var l := new LightActors.LightActor(kit, ids, patcher, lightWalls, parent);
      a := LightA(l);
    case SelfLightKind =>
      var s := new SelfLightActors.SelfLightActor(ids, patcher, parent);
      a := SelfLightA(s);
    case LightOverlayKind =>
      var o := new LightOverlayActors.LightOverlayActor(ids, patcher, parent);
      a := LightOverlayA(o);
    case DoorOverlayKind =>
      var o := new DoorOverlayActors.DoorOverlayActor(kit, natives, ids, patcher, parent);
      a := DoorOverlayA(o);
  }

  /** `actor.delete()`: releases what the actor holds and stages deletion of its local items. */
  method DeleteActor(a: ActorRef, natives: Natives, patcher: Patcher, ghost bound: LocalId)
    requires natives.Valid() && patcher.Valid() && ActorValid(a, natives.live, bound)
    modifies natives, patcher
    ensures natives.Valid() && natives.next == old(natives.next)
    ensures natives.live == old(natives.live) - ActorHeld(a)
    ensures patcher.Valid() && patcher.ready == old(patcher.ready) && patcher.sent == old(patcher.sent)
    ensures patcher.State() == old(patcher.State()).Delete(LocalIdsOf(a))
  {
    match a
    case DoorA(d) =>
      d.Delete(natives);
      assert patcher.State().Delete([]) == patcher.State();
    case WallA(w) =>
      w.Delete(patcher);
    case LightA(l) =>
      l.Delete(patcher);
    case SelfLightA(s) =>
      s.Delete(patcher);
    case LightOverlayA(o) =>
      o.Delete(patcher);
    case DoorOverlayA(o) =>
      o.Delete(patcher);
  }

  /** A wall actor's update, as its staging. */
  method UpdateWall(w: WallActors.WallActor, kit: Kit, natives: Natives, ids: IdSource, patcher: Patcher,
                    doors: seq<DoorActors.DoorComponent>, parent: Item)
    requires natives.Valid() && patcher.Valid() && w.Valid(ids)
    modifies w, natives, ids, patcher
    ensures w.Valid(ids)
    ensures natives.Valid() && natives.live == old(natives.live) && old(natives.next) <= natives.next
    ensures old(ids.next) <= ids.next
    ensures patcher.Valid() && patcher.ready == old(patcher.ready) && patcher.sent == old(patcher.sent)
    ensures patcher.State() == old(WallStaging(w.walls, kit, doors, parent, ids.next, patcher.State()))
  {
    ghost var walls0, first, s0 := w.walls, ids.next, patcher.State();
    w.Update(kit, natives, ids, patcher, doors, parent);
    assert patcher.State() == WallStaging(walls0, kit, doors, parent, first, s0);
  }

  /** A door-overlay actor's update, as its staging. */
  method UpdateOverlay(o: DoorOverlayActors.DoorOverlayActor, kit: Kit, natives: Natives, ids: IdSource,
                       patcher: Patcher, parent: Item)
    requires natives.Valid() && patcher.Valid() && o.Valid(ids)
    modifies o, natives, ids, patcher
    ensures o.Valid(ids)
    ensures natives.Valid() && old(natives.next) <= natives.next && old(ids.next) <= ids.next
    ensures DoorOverlayActors.Grew(old(natives.live), natives.live, old(natives.next))
    ensures patcher.Valid() && patcher.ready == old(patcher.ready) && patcher.sent == old(patcher.sent)
    ensures patcher.State() == old(OverlayStaging(o.doors, kit, parent, ids.next, patcher.State()))
  {
    ghost var cs0, first, s0 := o.doors, ids.next, patcher.State();
    o.Update(kit, natives, ids, patcher, parent);
    assert patcher.State() == OverlayStaging(cs0, kit, parent, first, s0);
  }

  /**
   * `actor.update(parent)`. Self lights and light overlays stage nothing; the other
   * actors keep what they own consistent and only gain new paths.
   */
  method UpdateActor(a: ActorRef, kit: Kit, natives: Natives, ids: IdSource, patcher: Patcher,
                     doors: seq<DoorActors.DoorComponent>, parent: Item)
    requires natives.Valid() && patcher.Valid() && ActorValid(a, natives.live, ids.next)
    modifies Obj(a), natives, ids, patcher
    ensures ActorValid(a, natives.live, ids.next)
    ensures natives.Valid() && old(natives.next) <= natives.next && old(ids.next) <= ids.next
    ensures Kept(old(natives.live), old(ActorHeld(a)), natives.live, ActorHeld(a), old(natives.next))
    ensures patcher.Valid() && patcher.ready == old(patcher.ready) && patcher.sent == old(patcher.sent)
    ensures patcher.State() == old(UpdateStaging(a, kit, doors, parent, ids.next, patcher.State()))
  {
    match a
    case DoorA(d) =>
      HeldLive(a, natives.live, ids.next);
      ghost var live0, held0 := natives.live, ActorHeld(a);
      d.Update(kit, natives, parent);
      KeptExchange(live0, held0, natives.live, ActorHeld(a), old(natives.next));
    case WallA(w) =>
      UpdateWall(w, kit, natives, ids, patcher, doors, parent);
    case LightA(l) =>
      l.Update(patcher, parent);
    case SelfLightA(_) =>
    case LightOverlayA(_) =>
    case DoorOverlayA(o) =>
      UpdateOverlay(o, kit, natives, ids, patcher, parent);
  }
}
