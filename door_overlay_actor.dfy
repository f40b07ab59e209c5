/**
 * DoorOverlayActor (src/background/reconcile/actors/DoorOverlayActor.ts): for
 * every door of a drawing, a billboard at the door's centre and a path tracing
 * the door, coloured and pictured by whether the door is open.
 */
module DoorOverlayActors {
  import opened Wrappers
  import opened Scene
  import opened CanvasKit
  import opened PathHelpers
  import opened LocalItems
  import opened Updates
  import opened Patching

  /** One overlay: the door it shows and the ids of its billboard and path. */
  datatype OverlayComponent = OverlayComponent(base: Door, billboard: LocalId, path: LocalId)

  /** The door's sub-path (no stroke, no transform), when both markers are on one existing contour. */
  function OverlaySegment(kit: Kit, drawing: Item, door: Door): (r: Option<Geom>)
    ensures door.start.index != door.end.index ==> r.None?
  {
    match DrawingGeom(kit, drawing)
    case None => None
    case Some(outline) => Between(kit, outline, door.start, door.end)
  }

  /** getDoorCenterAndCommands: the sub-path's point in world space and its commands. */
  function CenterAndCommands(kit: Kit, drawing: Item, door: Door): (r: Option<(Vec2, seq<seq<real>>)>)
    ensures r.Some? ==> OverlaySegment(kit, drawing, door).Some?
  {
    match OverlaySegment(kit, drawing, door)
    case None => None
    case Some(segment) =>
      match kit.pathPoint(segment)
      case None => None
      case Some(relative) => Some((kit.toWorld(drawing.transform, relative), PathCommands(segment)))
  }

  /** The case where the sub-path is built but has no point: it is returned from without release. */
  predicate Leaks(kit: Kit, drawing: Item, door: Door) {
    OverlaySegment(kit, drawing, door).Some? && kit.pathPoint(OverlaySegment(kit, drawing, door).value).None?
  }

  /**
   * getDoorCenterAndCommands, as written: the outline is always released and the
   * sub-path is released before returning the commands, but the early return when
   * it has no point leaves the sub-path live.
   */
  method GetDoorCenterAndCommands(kit: Kit, natives: Natives, drawing: Item, door: Door)
    returns (r: Option<(Vec2, seq<seq<real>>)>)
    requires natives.Valid()
    modifies natives
    ensures natives.Valid() && old(natives.next) <= natives.next
    ensures r == CenterAndCommands(kit, drawing, door)
    ensures !Leaks(kit, drawing, door) ==> natives.live == old(natives.live)
    ensures Leaks(kit, drawing, door) ==>
              natives.live == old(natives.live) + {old(natives.next) + 1} && old(natives.next) + 1 !in old(natives.live)
  {
    var skPath := DrawingToSkPath(kit, natives, drawing);
    if skPath.None? {
      return None;
    }
    var segment := SkPathBetween(kit, natives, skPath.value, door.start, door.end);
    natives.Release(skPath.value);
    if segment.None? {
      return None;
    }
    var relative := kit.pathPoint(segment.value.geom);
    if relative.None? {
      return None;
    }
    var center := kit.toWorld(drawing.transform, relative.value);
    var commands := SkPathToPathCommands(segment.value.geom);
    natives.Release(segment.value);
    return Some((center, commands));
  }

  /** A sub-path that is built is left live by nothing but that early return. */
  lemma LeakShown(kit: Kit, drawing: Item, door: Door)
    requires OverlaySegment(kit, drawing, door).Some?
    ensures Leaks(kit, drawing, door) <==> CenterAndCommands(kit, drawing, door).None?
  {
  }

  /** getBillboard: the open or closed picture at the door's centre, tagged with the door index. */
  function DoorBillboard(id: LocalId, parent: Item, open: bool, index: int, center: Vec2): LocalItem {
    LocalItem(id, ToItem(parent.id), Identity(center), true, Some(index), BillboardContent(DoorImage(open)))
  }

  /** getPath: the door's commands in the drawing's space, coloured by whether it is open. */
  function DoorPath(id: LocalId, parent: Item, open: bool, index: int, commands: seq<seq<real>>): LocalItem {
    LocalItem(id, ToItem(parent.id), parent.transform, true, Some(index),
              PathContent(commands, DoorColor(open), parent.strokeWidth))
  }

  /** doorToDoorItems: the component and its two items, from two consecutive ids. */
  function DoorItems(kit: Kit, parent: Item, door: Door, index: int, id: LocalId)
    : (r: Option<(OverlayComponent, seq<LocalItem>)>)
    ensures r.Some? <==> CenterAndCommands(kit, parent, door).Some?
    ensures r.Some? ==>
              && r.value.0 == OverlayComponent(door, id, id + 1)
              && |r.value.1| == 2 && r.value.1[0].id == id && r.value.1[1].id == id + 1
              && r.value.1[0].content == BillboardContent(DoorImage(door.open))
              && r.value.1[1].content.PathContent? && r.value.1[1].content.strokeColor == DoorColor(door.open)
              && r.value.1[0].doorIndex == Some(index) && r.value.1[1].doorIndex == Some(index)
  {
    match CenterAndCommands(kit, parent, door)
    case None => None
    case Some((center, commands)) =>
      Some((OverlayComponent(door, id, id + 1),
            [DoorBillboard(id, parent, door.open, index, center), DoorPath(id + 1, parent, door.open, index, commands)]))
  }

  /**
   * The components and items built for a run of doors whose first has index
   * `offset`, skipping those that do not build; ids are taken two by two from `id`.
   */
  function Built(kit: Kit, parent: Item, ds: seq<Door>, offset: int, id: LocalId)
    : (r: (seq<OverlayComponent>, seq<LocalItem>))
    ensures |r.1| == 2 * |r.0| && |r.0| <= |ds|
  {
    if ds == [] then ([], [])
    else
      var before := Built(kit, parent, ds[..|ds| - 1], offset, id);
      match DoorItems(kit, parent, ds[|ds| - 1], offset + |ds| - 1, id + |before.1|)
      case None => before
      case Some(made) => (before.0 + [made.0], before.1 + made.1)
  }

  /** The two ids of every component, in order. */
  function OverlayIds(cs: seq<OverlayComponent>): (r: seq<LocalId>)
    ensures |r| == 2 * |cs|
  {
    if cs == [] then []
    else OverlayIds(cs[..|cs| - 1]) + [cs[|cs| - 1].billboard, cs[|cs| - 1].path]
  }

  lemma {:induction false} OverlayIdsAt(cs: seq<OverlayComponent>, i: nat)
    requires i < |cs|
    ensures OverlayIds(cs)[2 * i] == cs[i].billboard && OverlayIds(cs)[2 * i + 1] == cs[i].path
  {
    if i < |cs| - 1 {
      OverlayIdsAt(cs[..|cs| - 1], i);
    }
  }

  /** The updaters staged for component i, when its geometry is computable. */
  function EditsAt(kit: Kit, parent: Item, c: OverlayComponent, door: Door, i: int): (r: seq<Staged>)
    ensures |r| == 0 || |r| == 2
  {
    match CenterAndCommands(kit, parent, door)
    case None => []
    case Some((center, commands)) =>
      [Staged(c.billboard, BillboardEdit(center, i, door.open)),
       Staged(c.path, DoorPathEdit(i, commands, door.open, parent.strokeWidth))]
  }

  /** The updaters of the update loop over the first |cs| doors. */
  function OverlayEdits(kit: Kit, parent: Item, cs: seq<OverlayComponent>, next: seq<Door>): seq<Staged>
    requires |cs| <= |next|
  {
    if cs == [] then []
    else OverlayEdits(kit, parent, cs[..|cs| - 1], next) + EditsAt(kit, parent, cs[|cs| - 1], next[|cs| - 1], |cs| - 1)
  }

  predicate DistinctIds(cs: seq<OverlayComponent>) {
    Distinct(OverlayIds(cs))
  }

  /** Distinct ids: no two items of the overlays share an id. */
  lemma DistinctApart(cs: seq<OverlayComponent>, i: nat, k: nat)
    requires DistinctIds(cs) && i < |cs| && k < |cs|
    ensures cs[i].billboard != cs[i].path
    ensures i != k ==> cs[i].billboard != cs[k].billboard && cs[i].billboard != cs[k].path
    ensures i != k ==> cs[i].path != cs[k].billboard && cs[i].path != cs[k].path
  {
    OverlayIdsAt(cs, i);
    OverlayIdsAt(cs, k);
  }

  lemma DistinctPrefix(cs: seq<OverlayComponent>)
    requires DistinctIds(cs) && cs != []
    ensures DistinctIds(cs[..|cs| - 1])
  {
    assert OverlayIds(cs[..|cs| - 1]) == OverlayIds(cs)[..2 * (|cs| - 1)];
  }

  lemma {:induction false} ForAppend(a: seq<Staged>, b: seq<Staged>, id: LocalId)
    ensures For(a + b, id) == For(a, id) + For(b, id)
  {
    if b == [] {
      assert a + b == a;
    } else {
      assert (a + b)[..|a + b| - 1] == a + b[..|b| - 1];
      ForAppend(a, b[..|b| - 1], id);
    }
  }

  /** The updaters of the loop name only the ids of the components it went over. */
  lemma {:induction false} OverlayEditsIds(kit: Kit, parent: Item, cs: seq<OverlayComponent>, next: seq<Door>, id: LocalId)
    requires |cs| <= |next|
    requires forall k :: 0 <= k < |cs| ==> cs[k].billboard != id && cs[k].path != id
    ensures For(OverlayEdits(kit, parent, cs, next), id) == []
  {
    if cs != [] {
      var j := |cs| - 1;
      OverlayEditsIds(kit, parent, cs[..j], next, id);
      ForAppend(OverlayEdits(kit, parent, cs[..j], next), EditsAt(kit, parent, cs[j], next[j], j), id);
    }
  }

  /** What the loop stages for the billboard of component i. */
  function BillboardEditFor(kit: Kit, parent: Item, door: Door, i: int): seq<Updater> {
    match CenterAndCommands(kit, parent, door)
    case None => []
    case Some((center, _)) => [BillboardEdit(center, i, door.open)]
  }

  /** What the loop stages for the path of component i. */
  function PathEditFor(kit: Kit, parent: Item, door: Door, i: int): seq<Updater> {
    match CenterAndCommands(kit, parent, door)
    case None => []
    case Some((_, commands)) => [DoorPathEdit(i, commands, door.open, parent.strokeWidth)]
  }

  /**
   * With distinct ids, component i's billboard and path each get exactly one
   * updater, writing door index i and the open state of door i, when the door's
   * geometry is computable, and none otherwise.
   */
  lemma {:induction false} OverlayEditsFor(kit: Kit, parent: Item, cs: seq<OverlayComponent>, next: seq<Door>, i: nat)
    requires |cs| <= |next| && i < |cs| && DistinctIds(cs)
    ensures For(OverlayEdits(kit, parent, cs, next), cs[i].billboard) == BillboardEditFor(kit, parent, next[i], i)
    ensures For(OverlayEdits(kit, parent, cs, next), cs[i].path) == PathEditFor(kit, parent, next[i], i)
  {
    var j := |cs| - 1;
    if i == j {
      OverlayEditsLast(kit, parent, cs, next);
    } else {
      var init := cs[..j];
      var last := EditsAt(kit, parent, cs[j], next[j], j);
      ForAppend(OverlayEdits(kit, parent, init, next), last, cs[i].billboard);
      ForAppend(OverlayEdits(kit, parent, init, next), last, cs[i].path);
      DistinctApart(cs, i, j);
      DistinctPrefix(cs);
      OverlayEditsFor(kit, parent, init, next, i);
      EditsAtAbsent(kit, parent, cs[j], next[j], j, cs[i].billboard);
      EditsAtAbsent(kit, parent, cs[j], next[j], j, cs[i].path);
    }
  }

  /** The last component's updaters come from its own turn of the loop only. */
  lemma OverlayEditsLast(kit: Kit, parent: Item, cs: seq<OverlayComponent>, next: seq<Door>)
    requires |cs| <= |next| && cs != [] && DistinctIds(cs)
    ensures For(OverlayEdits(kit, parent, cs, next), cs[|cs| - 1].billboard) == BillboardEditFor(kit, parent, next[|cs| - 1], |cs| - 1)
    ensures For(OverlayEdits(kit, parent, cs, next), cs[|cs| - 1].path) == PathEditFor(kit, parent, next[|cs| - 1], |cs| - 1)
  {
    var j := |cs| - 1;
    var init := cs[..j];
    var c := cs[j];
    var last := EditsAt(kit, parent, c, next[j], j);
    forall k | 0 <= k < |init|
      ensures init[k].billboard != c.billboard && init[k].path != c.billboard
      ensures init[k].billboard != c.path && init[k].path != c.path
    {
      DistinctApart(cs, j, k);
    }
    DistinctApart(cs, j, j);
    OverlayEditsIds(kit, parent, init, next, c.billboard);
    OverlayEditsIds(kit, parent, init, next, c.path);
    EditsAtFor(kit, parent, c, next[j], j);
    ForAppend(OverlayEdits(kit, parent, init, next), last, c.billboard);
    ForAppend(OverlayEdits(kit, parent, init, next), last, c.path);
  }

  /** A component's turn of the loop stages nothing for another item. */
  lemma EditsAtAbsent(kit: Kit, parent: Item, c: OverlayComponent, door: Door, i: int, id: LocalId)
    requires id != c.billboard && id != c.path
    ensures For(EditsAt(kit, parent, c, door, i), id) == []
  {
    ForAbsent(EditsAt(kit, parent, c, door, i), id);
  }

  /** One component's updaters: one for its billboard, one for its path, when the geometry is computable. */
  lemma EditsAtFor(kit: Kit, parent: Item, c: OverlayComponent, door: Door, i: int)
    requires c.billboard != c.path
    ensures For(EditsAt(kit, parent, c, door, i), c.billboard) == BillboardEditFor(kit, parent, door, i)
    ensures For(EditsAt(kit, parent, c, door, i), c.path) == PathEditFor(kit, parent, door, i)
  {
    var last := EditsAt(kit, parent, c, door, i);
    assert last[..0] == [];
    if |last| == 2 {
      assert last[..1][..0] == [];
      assert last[..2][..1] == last[..1];
      assert last[..2] == last;
    }
  }

  /** Component i gets door i as its base. */
  function Rebased(cs: seq<OverlayComponent>, next: seq<Door>): (r: seq<OverlayComponent>)
    requires |cs| <= |next|
    ensures |r| == |cs|
    ensures forall i :: 0 <= i < |cs| ==> r[i] == cs[i].(base := next[i])
  {
    seq(|cs|, i requires 0 <= i < |cs| => cs[i].(base := next[i]))
  }

  /** The native heap only gained handles, all of them new. */
  ghost predicate Grew(live0: set<nat>, live1: set<nat>, next0: nat) {
    live0 <= live1 && forall h :: h in live1 - live0 ==> next0 <= h
  }

  lemma GrewTrans(live0: set<nat>, live1: set<nat>, live2: set<nat>, next0: nat, next1: nat)
    requires Grew(live0, live1, next0) && Grew(live1, live2, next1) && next0 <= next1
    ensures Grew(live0, live2, next0)
  {
    forall h | h in live2 - live0
      ensures next0 <= h
    {
      if h in live1 {
        assert h in live1 - live0;
      } else {
        assert h in live2 - live1;
      }
    }
  }

  /** No door of the list reaches the early return. */
  predicate NoLeaks(kit: Kit, parent: Item, ds: seq<Door>) {
    forall i :: 0 <= i < |ds| ==> !Leaks(kit, parent, ds[i])
  }

  /** doorToDoorItems with the builders' fresh ids. */
  method DoorToDoorItems(kit: Kit, natives: Natives, ids: IdSource, parent: Item, door: Door, index: int)
    returns (r: Option<(OverlayComponent, seq<LocalItem>)>)
    requires natives.Valid()
    modifies natives, ids
    ensures natives.Valid() && old(natives.next) <= natives.next && Grew(old(natives.live), natives.live, old(natives.next))
    ensures !Leaks(kit, parent, door) ==> natives.live == old(natives.live)
    ensures r == DoorItems(kit, parent, door, index, old(ids.next))
    ensures ids.next == old(ids.next) + (if r.Some? then 2 else 0)
  {
    var values := GetDoorCenterAndCommands(kit, natives, parent, door);
    if values.None? {
      return None;
    }
    var (center, commands) := values.value;
    var b := ids.Fresh();
    var p := ids.Fresh();
    return Some((OverlayComponent(door, b, p),
                 [DoorBillboard(b, parent, door.open, index, center), DoorPath(p, parent, door.open, index, commands)]));
  }

  /** The constructor's and the growing loop's walk: build door i with index `offset + i`, skipping failures. */
  method BuildOverlays(kit: Kit, natives: Natives, ids: IdSource, parent: Item, ds: seq<Door>, offset: int)
    returns (cs: seq<OverlayComponent>, items: seq<LocalItem>)
    requires natives.Valid()
    modifies natives, ids
    ensures natives.Valid() && old(natives.next) <= natives.next && Grew(old(natives.live), natives.live, old(natives.next))
    ensures NoLeaks(kit, parent, ds) ==> natives.live == old(natives.live)
    ensures (cs, items) == Built(kit, parent, ds, offset, old(ids.next))
    ensures ids.next == old(ids.next) + |items|
  {
    cs, items := [], [];
    for i := 0 to |ds|
      invariant natives.Valid() && old(natives.next) <= natives.next
      invariant Grew(old(natives.live), natives.live, old(natives.next))
      invariant NoLeaks(kit, parent, ds) ==> natives.live == old(natives.live)
      invariant (cs, items) == Built(kit, parent, ds[..i], offset, old(ids.next))
      invariant ids.next == old(ids.next) + |items|
    {
      cs, items := BuildOverlayStep(kit, natives, ids, parent, ds, offset, i, cs, items,
                                    old(natives.live), old(natives.next), old(ids.next));
    }
    assert ds[..|ds|] == ds;
  }

  /** One pass of BuildOverlays' loop: door `i` adds its component and two items when it builds. */
  method BuildOverlayStep(kit: Kit, natives: Natives, ids: IdSource, parent: Item, ds: seq<Door>, offset: int,
                          i: nat, cs: seq<OverlayComponent>, items: seq<LocalItem>,
                          ghost live0: set<nat>, ghost next0: nat, ghost id0: LocalId)
    returns (cs': seq<OverlayComponent>, items': seq<LocalItem>)
    requires natives.Valid() && next0 <= natives.next && i < |ds|
    requires Grew(live0, natives.live, next0)
    requires NoLeaks(kit, parent, ds) ==> natives.live == live0
    requires (cs, items) == Built(kit, parent, ds[..i], offset, id0)
    requires ids.next == id0 + |items|
    modifies natives, ids
    ensures natives.Valid() && next0 <= natives.next
    ensures Grew(live0, natives.live, next0)
    ensures NoLeaks(kit, parent, ds) ==> natives.live == live0
    ensures (cs', items') == Built(kit, parent, ds[..i + 1], offset, id0)
    ensures ids.next == id0 + |items'|
  {
    assert ds[..i + 1][..i] == ds[..i];
    ghost var live1, next1 := natives.live, natives.next;
    var made := DoorToDoorItems(kit, natives, ids, parent, ds[i], offset + i);
    GrewTrans(live0, live1, natives.live, next0, next1);
    cs', items' := cs, items;
    if made.Some? {
      cs', items' := cs + [made.value.0], items + made.value.1;
    }
  }

  /** One step of the update loop: compute the door's geometry and stage its two updaters if it is there. */
  method StageOne(kit: Kit, natives: Natives, patcher: Patcher, parent: Item, c: OverlayComponent, door: Door, i: int)
    requires natives.Valid() && patcher.Valid()
    modifies natives, patcher
    ensures natives.Valid() && old(natives.next) <= natives.next && Grew(old(natives.live), natives.live, old(natives.next))
    ensures !Leaks(kit, parent, door) ==> natives.live == old(natives.live)
    ensures patcher.Valid() && patcher.ready == old(patcher.ready) && patcher.sent == old(patcher.sent)
    ensures patcher.State() == old(patcher.State()).Update(EditsAt(kit, parent, c, door, i))
  {
    var values := GetDoorCenterAndCommands(kit, natives, parent, door);
    if values.Some? {
      var (center, commands) := values.value;
      patcher.UpdateItems(
        [Staged(c.billboard, BillboardEdit(center, i, door.open)),
         Staged(c.path, DoorPathEdit(i, commands, door.open, parent.strokeWidth))]);
    } else {
      assert patcher.State() == patcher.State().Update([]);
    }
  }

  /** The update loop: rebase every component and stage its two updaters when it can. */
  method StageOverlayEdits(kit: Kit, natives: Natives, patcher: Patcher, parent: Item, cs: seq<OverlayComponent>,
                           next: seq<Door>)
    returns (rebased: seq<OverlayComponent>)
    requires natives.Valid() && patcher.Valid() && |cs| <= |next|
    modifies natives, patcher
    ensures natives.Valid() && old(natives.next) <= natives.next && Grew(old(natives.live), natives.live, old(natives.next))
    ensures NoLeaks(kit, parent, next) ==> natives.live == old(natives.live)
    ensures rebased == Rebased(cs, next)
    ensures patcher.Valid() && patcher.ready == old(patcher.ready) && patcher.sent == old(patcher.sent)
    ensures patcher.State() == old(patcher.State()).Update(OverlayEdits(kit, parent, cs, next))
  {
    ghost var s0 := patcher.State();
    rebased := cs;
    for i := 0 to |cs|
      invariant natives.Valid() && old(natives.next) <= natives.next
      invariant Grew(old(natives.live), natives.live, old(natives.next))
      invariant NoLeaks(kit, parent, next) ==> natives.live == old(natives.live)
      invariant |rebased| == |cs| && rebased[..i] == Rebased(cs[..i], next) && rebased[i..] == cs[i..]
      invariant patcher.Valid() && patcher.ready == old(patcher.ready) && patcher.sent == old(patcher.sent)
      invariant patcher.State() == s0.Update(OverlayEdits(kit, parent, cs[..i], next))
    {
      rebased := StageOverlayStep(kit, natives, patcher, parent, cs, next, i, rebased,
                                  old(natives.live), old(natives.next), s0);
    }
    assert cs[..|cs|] == cs;
  }

  /** One pass of the update loop: component `i` is rebased on door `i` and its updaters staged. */
  method StageOverlayStep(kit: Kit, natives: Natives, patcher: Patcher, parent: Item, cs: seq<OverlayComponent>,
                          next: seq<Door>, i: nat, rebased: seq<OverlayComponent>,
                          ghost live0: set<nat>, ghost next0: nat, ghost s0: Staging)
    returns (rebased': seq<OverlayComponent>)
    requires natives.Valid() && patcher.Valid() && |cs| <= |next| && i < |cs|
    requires next0 <= natives.next && Grew(live0, natives.live, next0)
    requires NoLeaks(kit, parent, next) ==> natives.live == live0
    requires |rebased| == |cs| && rebased[..i] == Rebased(cs[..i], next) && rebased[i..] == cs[i..]
    requires patcher.State() == s0.Update(OverlayEdits(kit, parent, cs[..i], next))
    modifies natives, patcher
    ensures natives.Valid() && next0 <= natives.next && Grew(live0, natives.live, next0)
    ensures NoLeaks(kit, parent, next) ==> natives.live == live0
    ensures |rebased'| == |cs| && rebased'[..i + 1] == Rebased(cs[..i + 1], next) && rebased'[i + 1..] == cs[i + 1..]
    ensures patcher.Valid() && patcher.ready == old(patcher.ready) && patcher.sent == old(patcher.sent)
    ensures patcher.State() == s0.Update(OverlayEdits(kit, parent, cs[..i + 1], next))
  {
    assert cs[..i + 1][..i] == cs[..i];
    rebased' := rebased[i := rebased[i].(base := next[i])];
    assert rebased'[..i + 1] == rebased[..i] + [cs[i].(base := next[i])];
    ghost var live1, next1 := natives.live, natives.next;
    s0.UpdateTwice(OverlayEdits(kit, parent, cs[..i], next), EditsAt(kit, parent, cs[i], next[i], i));
    StageOne(kit, natives, patcher, parent, cs[i], next[i], i);
    GrewTrans(live0, live1, natives.live, next0, next1);
  }

  lemma {:induction false} OverlayIdsAppend(a: seq<OverlayComponent>, b: seq<OverlayComponent>)
    ensures OverlayIds(a + b) == OverlayIds(a) + OverlayIds(b)
  {
    if b != [] {
      assert (a + b)[..|a + b| - 1] == a + b[..|b| - 1];
      OverlayIdsAppend(a, b[..|b| - 1]);
    } else {
      assert a + b == a;
    }
  }

  lemma OverlayIdsRebased(cs: seq<OverlayComponent>, next: seq<Door>)
    requires |cs| <= |next|
    ensures OverlayIds(Rebased(cs, next)) == OverlayIds(cs)
  {
    OverlayIdsSameIds(Rebased(cs, next), cs);
  }

  /** Two component lists with the same handles, in order, list the same ids. */
  lemma {:induction false} OverlayIdsSameIds(a: seq<OverlayComponent>, b: seq<OverlayComponent>)
    requires |a| == |b|
    requires forall i :: 0 <= i < |a| ==> a[i].billboard == b[i].billboard && a[i].path == b[i].path
    ensures OverlayIds(a) == OverlayIds(b)
  {
    if a != [] {
      OverlayIdsSameIds(a[..|a| - 1], b[..|b| - 1]);
    }
  }

  function IdRange(first: LocalId, n: nat): (r: seq<LocalId>)
    ensures |r| == n && forall k :: 0 <= k < n ==> r[k] == first + k
  {
    seq(n, k requires 0 <= k < n => first + k)
  }

  /** The ids of the components built from `id` are id, id + 1, … in order. */
  lemma {:induction false} BuiltIds(kit: Kit, parent: Item, ds: seq<Door>, offset: int, id: LocalId)
    ensures OverlayIds(Built(kit, parent, ds, offset, id).0) == IdRange(id, |Built(kit, parent, ds, offset, id).1|)
  {
    if ds != [] {
      var before := Built(kit, parent, ds[..|ds| - 1], offset, id);
      BuiltIds(kit, parent, ds[..|ds| - 1], offset, id);
      var n := |before.1|;
      match DoorItems(kit, parent, ds[|ds| - 1], offset + |ds| - 1, id + n)
      case None =>
      case Some(made) =>
        IdsGrow(before.0, made.0, id, n);
    }
  }

  /** One more component, with the next two ids. */
  lemma IdsGrow(before: seq<OverlayComponent>, c: OverlayComponent, id: LocalId, n: nat)
    requires OverlayIds(before) == IdRange(id, n) && c.billboard == id + n && c.path == id + n + 1
    ensures OverlayIds(before + [c]) == IdRange(id, n + 2)
  {
    OverlayIdsAppend(before, [c]);
    assert OverlayIds([c]) == [id + n, id + n + 1];
    assert IdRange(id, n) + [id + n, id + n + 1] == IdRange(id, n + 2);
  }

  /** The overlay ids are distinct and all below the next fresh id. */
  ghost predicate OverlaysOwned(cs: seq<OverlayComponent>, bound: LocalId) {
    DistinctIds(cs) && forall k :: 0 <= k < |OverlayIds(cs)| ==> OverlayIds(cs)[k] < bound
  }

  lemma GrownOwned(kit: Kit, parent: Item, prev: seq<OverlayComponent>, ds: seq<Door>, offset: int, id: LocalId)
    requires OverlaysOwned(prev, id)
    ensures var built := Built(kit, parent, ds, offset, id);
      OverlaysOwned(prev + built.0, id + |built.1|)
  {
    var built := Built(kit, parent, ds, offset, id);
    BuiltIds(kit, parent, ds, offset, id);
    OverlayIdsAppend(prev, built.0);
  }

  lemma CutOwnedIds(prev: seq<OverlayComponent>, n: nat, bound: LocalId)
    requires OverlaysOwned(prev, bound) && n <= |prev|
    ensures OverlaysOwned(prev[..n], bound)
  {
    OverlayIdsAppend(prev[..n], prev[n..]);
    assert prev[..n] + prev[n..] == prev;
    var whole, part := OverlayIds(prev), OverlayIds(prev[..n]);
    assert forall k :: 0 <= k < |part| ==> part[k] == whole[k];
  }

  /** The resizing half of update: grow with the new doors that build, or cut the tail and delete its items. */
  method ResizeOverlays(kit: Kit, natives: Natives, ids: IdSource, patcher: Patcher, parent: Item,
                        prev: seq<OverlayComponent>, next: seq<Door>)
    returns (resized: seq<OverlayComponent>)
    requires natives.Valid() && patcher.Valid() && OverlaysOwned(prev, ids.next)
    modifies natives, ids, patcher
    ensures natives.Valid() && old(natives.next) <= natives.next && Grew(old(natives.live), natives.live, old(natives.next))
    ensures NoLeaks(kit, parent, next) ==> natives.live == old(natives.live)
    ensures patcher.Valid() && patcher.ready == old(patcher.ready) && patcher.sent == old(patcher.sent)
    ensures OverlaysOwned(resized, ids.next) && |resized| <= |next|
    ensures var n0 := |prev|;
      var built := if n0 < |next| then Built(kit, parent, next[n0..], n0, old(ids.next)) else ([], []);
      && resized == (if n0 < |next| then prev + built.0 else prev[..|next|])
      && ids.next == old(ids.next) + |built.1|
      && patcher.State() == old(patcher.State())
           .Add(built.1)
           .Delete(if n0 > |next| then OverlayIds(prev[|next|..]) else [])
  {
    if |prev| < |next| {
      var cs, items := BuildOverlays(kit, natives, ids, parent, next[|prev|..], |prev|);
      GrownOwned(kit, parent, prev, next[|prev|..], |prev|, old(ids.next));
      resized := prev + cs;
      patcher.AddItems(items);
      assert patcher.State().Delete([]) == patcher.State();
      if NoLeaks(kit, parent, next) {
        assert NoLeaks(kit, parent, next[|prev|..]) by {
          forall i | 0 <= i < |next[|prev|..]|
            ensures !Leaks(kit, parent, next[|prev|..][i])
          {
            assert next[|prev|..][i] == next[|prev| + i];
          }
        }
      }
    } else {
      CutOwnedIds(prev, |next|, ids.next);
      resized := prev[..|next|];
      assert patcher.State().Add([]) == patcher.State();
      if |prev| > |next| {
        patcher.DeleteItems(OverlayIds(prev[|next|..]));
      } else {
        assert patcher.State().Delete([]) == patcher.State();
      }
    }
  }

  class DoorOverlayActor {
    var doors: seq<OverlayComponent>

    /** The billboard and path ids are distinct and were all generated. */
    ghost predicate Valid(ids: IdSource)
      reads this, ids
    {
      OverlaysOwned(doors, ids.next)
    }

    /** Two items per door that builds, staged in one call, with the door's metadata index. */
    constructor (kit: Kit, natives: Natives, ids: IdSource, patcher: Patcher, parent: Item)
      requires natives.Valid() && patcher.Valid()
      modifies natives, ids, patcher
      ensures natives.Valid() && old(natives.next) <= natives.next && Grew(old(natives.live), natives.live, old(natives.next))
      ensures NoLeaks(kit, parent, DoorList(parent)) ==> natives.live == old(natives.live)
      ensures Valid(ids)
      ensures var built := if IsDrawing(parent) then Built(kit, parent, DoorList(parent), 0, old(ids.next)) else ([], []);
        && doors == built.0 && ids.next == old(ids.next) + |built.1|
        && patcher.State() == old(patcher.State()).Add(built.1)
      ensures patcher.Valid() && patcher.ready == old(patcher.ready) && patcher.sent == old(patcher.sent)
    {
      var cs: seq<OverlayComponent> := [];
      var items: seq<LocalItem> := [];
      if IsDrawing(parent) {
        cs, items := BuildOverlays(kit, natives, ids, parent, DoorList(parent), 0);
        GrownOwned(kit, parent, [], DoorList(parent), 0, old(ids.next));
        assert [] + cs == cs;
      }
      doors := cs;
      new;
      patcher.AddItems(items);
    }

    /** Stages deletion of the billboard and the path of every component. */
    method Delete(patcher: Patcher)
      requires patcher.Valid()
      modifies patcher
      ensures patcher.Valid() && patcher.State() == old(patcher.State()).Delete(OverlayIds(doors))
      ensures patcher.ready == old(patcher.ready) && patcher.sent == old(patcher.sent)
    {
      patcher.DeleteItems(OverlayIds(doors));
    }

    /**
     * update: grow with the new doors that build (tagged with their metadata
     * index), or shrink by deleting both items of every component in the tail;
     * then component i takes door i and, when its geometry is computable, stages
     * its billboard and path updaters.
     */
    method Update(kit: Kit, natives: Natives, ids: IdSource, patcher: Patcher, parent: Item)
      requires natives.Valid() && patcher.Valid() && Valid(ids)
      modifies this, natives, ids, patcher
      ensures Valid(ids)
      ensures natives.Valid() && old(natives.next) <= natives.next && Grew(old(natives.live), natives.live, old(natives.next))
      ensures patcher.Valid() && patcher.ready == old(patcher.ready) && patcher.sent == old(patcher.sent)
      ensures !IsDrawing(parent) ==>
                doors == old(doors) && ids.next == old(ids.next) && patcher.State() == old(patcher.State())
                && natives.live == old(natives.live)
      ensures IsDrawing(parent) ==>
                var next, n0 := DoorList(parent), |old(doors)|;
                var built := if n0 < |next| then Built(kit, parent, next[n0..], n0, old(ids.next)) else ([], []);
                var resized := if n0 < |next| then old(doors) + built.0 else old(doors)[..|next|];
                && |doors| <= |next|
                && doors == Rebased(resized, next)
                && ids.next == old(ids.next) + |built.1|
                && patcher.State() == old(patcher.State())
                     .Add(built.1)
                     .Delete(if n0 > |next| then OverlayIds(old(doors)[|next|..]) else [])
                     .Update(OverlayEdits(kit, parent, resized, next))
                && (NoLeaks(kit, parent, next) ==> natives.live == old(natives.live))
    {
      if !IsDrawing(parent) {
        return;
      }
      var prev := doors;
      var next := DoorList(parent);
      ghost var live0 := natives.live;
      var resized := ResizeOverlays(kit, natives, ids, patcher, parent, prev, next);
      ghost var live1, next1 := natives.live, natives.next;
      var rebased := StageOverlayEdits(kit, natives, patcher, parent, resized, next);
      GrewTrans(live0, live1, natives.live, old(natives.next), next1);
      OverlayIdsRebased(resized, next);
      doors := rebased;
    }
  }
}
