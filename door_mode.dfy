/**
 * The door tool (src/background/createDoorMode.ts): a mode of the fog tool that
 * places a door by dragging along a fog drawing's outline, and toggles or deletes
 * a door through its overlay. The tool's module-level variables are the fields of
 * `DoorTool`; so are the parts of the host it writes: the scene's items, the local
 * items it made itself (control circles and the sub-path preview) and the
 * player's selection.
 */
module DoorMode {
  import opened Wrappers
  import opened Scene
  import opened CanvasKit
  import opened PathHelpers
  import opened LocalItems

  /** How near the outline (in drawing units) the pointer must be for a start indicator. */
  const MIN_INTERSECTION_DISTANCE: real := 75.0

  // ---------------------------------------------------------------------------
  // The persisted door list: toggle, delete and append

  /** toggleDoorOpen on the list: the door at `index`, when there is one, flips `open`. */
  function Toggled(doors: seq<Door>, index: int): (r: seq<Door>)
    ensures |r| == |doors|
    ensures forall j :: 0 <= j < |doors| && j != index ==> r[j] == doors[j]
    ensures 0 <= index < |doors| ==>
              r[index].open == !doors[index].open
              && r[index].start == doors[index].start && r[index].end == doors[index].end
  {
    if 0 <= index < |doors| then doors[index := doors[index].(open := !doors[index].open)] else doors
  }

  /** deleteDoor on the list: door `index` is spliced out when it exists. */
  function Removed(doors: seq<Door>, index: int): (r: seq<Door>)
    ensures 0 <= index < |doors| ==>
              |r| == |doors| - 1
              && (forall j :: 0 <= j < index ==> r[j] == doors[j])
              && (forall j :: index <= j < |r| ==> r[j] == doors[j + 1])
    ensures !(0 <= index < |doors|) ==> r == doors
  {
    if 0 <= index < |doors| then doors[..index] + doors[index + 1..] else doors
  }

  /** Toggling the same door twice restores the list. */
  lemma ToggledTwice(doors: seq<Door>, index: int)
    ensures Toggled(Toggled(doors, index), index) == doors
  {
    var once := Toggled(doors, index);
    var twice := Toggled(once, index);
    forall j | 0 <= j < |doors|
      ensures twice[j] == doors[j]
    {
      if j == index {
        assert twice[j].open == doors[j].open;
      }
    }
  }

  /** Deleting removes exactly one occurrence of the deleted door and nothing else. */
  lemma {:induction false} RemovedCount(doors: seq<Door>, index: int)
    requires 0 <= index < |doors|
    ensures multiset(Removed(doors, index)) + multiset{doors[index]} == multiset(doors)
  {
    assert doors == doors[..index] + [doors[index]] + doors[index + 1..];
    calc {
      multiset(doors);
      multiset(doors[..index] + [doors[index]] + doors[index + 1..]);
      multiset(doors[..index]) + multiset{doors[index]} + multiset(doors[index + 1..]);
      multiset(doors[..index] + doors[index + 1..]) + multiset{doors[index]};
    }
  }

  /** Deleting the last door undoes the append of a finished drag. */
  lemma RemoveAppended(doors: seq<Door>, d: Door)
    ensures Removed(doors + [d], |doors|) == doors
  {
    assert (doors + [d])[..|doors|] == doors;
  }

  /** The parent after toggleDoorOpen: only a stored door array is written. */
  function ToggledItem(item: Item, index: int): (r: Item)
    ensures DoorList(r) == Toggled(DoorList(item), index)
    ensures r == item.(doors := r.doors)
    ensures !(item.doors.DoorArray? && 0 <= index < |item.doors.doors|) ==> r == item
  {
    if item.doors.DoorArray? then item.(doors := DoorArray(Toggled(item.doors.doors, index))) else item
  }

  /** The parent after deleteDoor: only a stored door array is written. */
  function RemovedItem(item: Item, index: int): (r: Item)
    ensures DoorList(r) == Removed(DoorList(item), index)
    ensures r == item.(doors := r.doors)
    ensures !(item.doors.DoorArray? && 0 <= index < |item.doors.doors|) ==> r == item
  {
    if item.doors.DoorArray? then item.(doors := DoorArray(Removed(item.doors.doors, index))) else item
  }

  /** The parent after a finished drag: pushed onto the stored array, or a new one-door array. */
  function WithDoor(item: Item, door: Door): (r: Item)
    ensures r.doors.DoorArray? && DoorList(r) == DoorList(item) + [door]
    ensures r == item.(doors := r.doors)
  {
    if item.doors.DoorArray? then item.(doors := DoorArray(item.doors.doors + [door]))
    else item.(doors := DoorArray([door]))
  }

  /** Toggling a door of an item twice gives the item back. */
  lemma ToggledItemTwice(item: Item, index: int)
    ensures ToggledItem(ToggledItem(item, index), index) == item
  {
    if item.doors.DoorArray? {
      ToggledTwice(item.doors.doors, index);
    }
  }

  /** Deleting the door a drag just appended gives the stored list back. */
  lemma RemoveWithDoor(item: Item, door: Door)
    ensures DoorList(RemovedItem(WithDoor(item, door), |DoorList(item)|)) == DoorList(item)
  {
    RemoveAppended(DoorList(item), door);
  }

  // ---------------------------------------------------------------------------
  // Tool events and targets

  /** What an item's metadata holds under the door-index key. */
  datatype IndexMeta = NoIndexKey | IndexValue(n: int) | IndexUndefined

  /** The item under the pointer, with the metadata the tool looks at. */
  datatype Pointed = Pointed(item: Item, doorIndex: IndexMeta, lightOverlay: bool, attachedTo: Option<ItemId>)

  datatype ToolEvent = ToolEvent(target: Option<Pointed>, pointer: Vec2, altKey: bool)

  /** A DoorIntersection: the nearest outline point in drawing space, and where it lies in the world. */
  datatype DoorHit = DoorHit(hit: PathIntersection, world: Vec2)

  /** The drawing the tool works on: its id, its native outline and the item as first seen. */
  datatype Target = Target(id: ItemId, skPath: SkPath, item: Item)

  /** The tool's own local items: the orange control circles and the sub-path preview. */
  datatype Control =
    | ControlPoint(position: Vec2)
    | Subpath(transform: Transform, strokeWidth: real, commands: seq<seq<real>>)

  predicate IsFogDrawing(p: Option<Pointed>) {
    p.Some? && p.value.item.layer == FOG && IsDrawing(p.value.item)
  }

  /** `hit.distance > MIN_INTERSECTION_DISTANCE`; an empty outline's Infinity is far. */
  predicate Far(d: Distance) {
    d.Infinity? || d.value > MIN_INTERSECTION_DISTANCE
  }

  /** A hit near enough for the start indicator. */
  predicate Near(h: Option<DoorHit>) {
    h.Some? && !Far(h.value.hit.distance)
  }

  /** getIntersection's result: the pointer moved into drawing space, its nearest outline point, moved back. */
  ghost predicate Nearest(kit: Kit, t: Target, pointer: Vec2, h: DoorHit) {
    var tr := t.item.transform;
    var cs := t.skPath.geom.contours;
    && h.world == kit.toWorld(tr, h.hit.point)
    && (|cs| == 0 ==> h.hit.distance.Infinity?)
    && (|cs| > 0 ==> Located(kit, cs, kit.toLocal(tr, pointer), h.hit.distance, h.hit.point, h.hit.contour.distance, h.hit.contour.index))
  }

  /**
   * The target after createOrUpdateStart: over a fog drawing it is that drawing (a new
   * native path, allocated as `handle`, unless it already was the target); elsewhere it is
   * dropped together with a shown start indicator.
   */
  function Retargeted(kit: Kit, p: Option<Pointed>, prev: Option<Target>, prevStart: Option<LocalId>, handle: nat): Option<Target> {
    if IsFogDrawing(p) then
      var item := p.value.item;
      if prev.Some? && prev.value.id == item.id then prev
      else match DrawingGeom(kit, item)
        case None => None
        case Some(g) => Some(Target(item.id, SkPath(handle, g), item))
    else if prevStart.Some? then None
    else prev
  }

  function Held(id: Option<LocalId>): set<LocalId> {
    if id.Some? then {id.value} else {}
  }

  function Handle(t: Option<Target>): set<nat> {
    if t.Some? then {t.value.skPath.handle} else {}
  }

  /**
   * The native paths createOrUpdateStart releases: the old target's, when a new
   * drawing replaces it or when a shown start circle is dropped away from fog drawings.
   */
  function Released(p: Option<Pointed>, prev: Option<Target>, prevStart: Option<LocalId>): set<nat> {
    if IsFogDrawing(p) then
      if prev.Some? && prev.value.id == p.value.item.id then {} else Handle(prev)
    else if prevStart.Some? then Handle(prev)
    else {}
  }

  /** The door-index metadata, or getMetadata's fallback -1. */
  function DoorIndexOf(m: IndexMeta): int {
    if m.IndexValue? then m.n else -1
  }

  /** getAttachedDoor: a door overlay's parent, when it is in the scene, and the overlay's door index. */
  function AttachedDoor(scene: map<ItemId, Item>, p: Option<Pointed>): Option<(ItemId, int)> {
    if p.Some? && !p.value.doorIndex.NoIndexKey? && p.value.attachedTo.Some? && p.value.attachedTo.value in scene
    then Some((p.value.attachedTo.value, DoorIndexOf(p.value.doorIndex)))
    else None
  }

  /** getAttachedLight: a light overlay's parent, when it is in the scene. */
  function AttachedLight(scene: map<ItemId, Item>, p: Option<Pointed>): Option<ItemId> {
    if p.Some? && p.value.lightOverlay && p.value.attachedTo.Some? && p.value.attachedTo.value in scene
    then Some(p.value.attachedTo.value)
    else None
  }

  // ---------------------------------------------------------------------------
  // The tool

  class DoorTool {
    /** The host's scene items, as updateItems reads and writes them. */
    var scene: map<ItemId, Item>
    /** The host's local items the tool made. */
    var local: map<LocalId, Control>
    /** The player's selection. */
    var selection: seq<ItemId>
    var startId: Option<LocalId>
    var endId: Option<LocalId>
    var subpathId: Option<LocalId>
    var target: Option<Target>
    var startHit: Option<DoorHit>
    var endHit: Option<DoorHit>
    const natives: Natives
    const ids: IdSource

    /**
     * The tool's controls exist in the local scene with their kinds, the start and
     * end circles are two items, the target's native path is live, and a recorded
     * start hit passed the distance guard.
     */
    ghost predicate Valid()
      reads this, natives, ids
    {
      && natives.Valid()
      && (target.Some? ==> target.value.skPath.handle in natives.live)
      && (forall id :: id in local ==> id < ids.next)
      && (startId.Some? ==> startId.value in local && local[startId.value].ControlPoint?)
      && (endId.Some? ==> endId.value in local && local[endId.value].ControlPoint?)
      && (subpathId.Some? ==> subpathId.value in local && local[subpathId.value].Subpath?)
      && (startId.Some? && endId.Some? ==> startId != endId)
      && (startHit.Some? ==> Near(startHit))
    }

    /** An end hit is only recorded while a drag's end circle exists. */
    ghost predicate Linked()
      reads this
    {
      endHit.Some? ==> endId.Some?
    }

    /** The three conditions onToolDragEnd checks before it writes a door. */
    predicate Placing()
      reads this
    {
      target.Some? && startHit.Some? && endHit.Some?
    }

    constructor (natives: Natives, ids: IdSource, scene: map<ItemId, Item>)
      requires natives.Valid()
      ensures Valid() && Linked()
      ensures this.natives == natives && this.ids == ids && this.scene == scene
      ensures local == map[] && selection == []
      ensures startId.None? && endId.None? && subpathId.None? && target.None? && startHit.None? && endHit.None?
    {
      this.natives := natives;
      this.ids := ids;
      this.scene := scene;
      local := map[];
      selection := [];
      startId := None;
      endId := None;
      subpathId := None;
      target := None;
      startHit := None;
      endHit := None;
    }

    /** getIntersection: no target, no hit. */
    method GetIntersection(kit: Kit, pointer: Vec2) returns (r: Option<DoorHit>)
      ensures r.Some? <==> target.Some?
      ensures r.Some? ==> Nearest(kit, target.value, pointer, r.value)
    {
      if target.None? {
        return None;
      }
      var tr := target.value.item.transform;
      var intersection := SkPathIntersection(kit, target.value.skPath.geom, kit.toLocal(tr, pointer));
      return Some(DoorHit(intersection, kit.toWorld(tr, intersection.point)));
    }

    /** createOrUpdateStart's first step over a drawing: a new target, its native path replacing the old one. */
    method Retarget(kit: Kit, item: Item)
      requires Valid()
      modifies this`target, natives
      ensures Valid()
      ensures target == (if old(target).Some? && old(target).value.id == item.id then old(target)
                         else match DrawingGeom(kit, item)
                           case None => None
                           case Some(g) => Some(Target(item.id, SkPath(old(natives.next), g), item)))
      ensures old(target).Some? && old(target).value.id == item.id ==> natives.live == old(natives.live)
      ensures !(old(target).Some? && old(target).value.id == item.id) ==>
                natives.live == old(natives.live) - Handle(old(target)) + Handle(target)
    {
      if target.None? || item.id != target.value.id {
        if target.Some? {
          natives.Release(target.value.skPath);
        }
        var skPath := DrawingToSkPath(kit, natives, item);
        target := if skPath.Some? then Some(Target(item.id, skPath.value, item)) else None;
      }
    }

    /** createOrUpdateStart given a hit: a far hit removes the start circle, a near one moves or creates it. */
    method PlaceStart(hit: DoorHit)
      requires Valid()
      modifies this`startId, this`startHit, this`local, ids
      ensures Valid()
      ensures Far(hit.hit.distance) ==>
                startHit == old(startHit) && startId.None? && local == old(local) - Held(old(startId))
      ensures !Far(hit.hit.distance) ==>
                && startHit == Some(hit) && startId.Some?
                && startId == (if old(startId).Some? then old(startId) else Some(old(ids.next)))
                && local == old(local)[startId.value := ControlPoint(hit.world)]
    {
      if Far(hit.hit.distance) {
        if startId.Some? {
          local := local - {startId.value};
          startId := None;
        }
        return;
      }
      if startId.Some? {
        local := local[startId.value := ControlPoint(hit.world)];
      } else {
        var id := ids.Fresh();
        startId := Some(id);
        local := local[id := ControlPoint(hit.world)];
      }
      startHit := Some(hit);
    }

    /** createOrUpdateStart away from a fog drawing: a shown start circle goes, and the target with it. */
    method DropStart()
      requires Valid()
      modifies this`startId, this`local, this`target, natives
      ensures Valid()
      ensures old(startId).Some? ==> startId.None? && target.None? && local == old(local) - Held(old(startId))
      ensures old(startId).None? ==> startId.None? && target == old(target) && local == old(local)
      ensures natives.live == old(natives.live) - (if old(startId).Some? then Handle(old(target)) else {})
    {
      if startId.Some? {
        local := local - {startId.value};
        startId := None;
        if target.Some? {
          natives.Release(target.value.skPath);
        }
        target := None;
      }
    }

    /**
     * createOrUpdateStart. Over a fog drawing: retarget, then a hit farther than 75
     * units removes the start circle, a nearer one moves or creates it and becomes
     * the start hit. Elsewhere a shown start circle is removed and the target dropped.
     * `hit` is the intersection the call looked at.
     */
    method CreateOrUpdateStart(kit: Kit, event: ToolEvent) returns (hit: Option<DoorHit>)
      requires Valid()
      modifies this`target, this`startId, this`startHit, this`local, natives, ids
      ensures Valid()
      ensures target == Retargeted(kit, event.target, old(target), old(startId), old(natives.next))
      ensures hit.Some? <==> IsFogDrawing(event.target) && target.Some?
      ensures hit.Some? ==> Nearest(kit, target.value, event.pointer, hit.value)
      ensures Near(hit) ==>
                && startHit == hit && startId.Some?
                && startId == (if old(startId).Some? then old(startId) else Some(old(ids.next)))
                && local == old(local)[startId.value := ControlPoint(hit.value.world)]
      ensures !Near(hit) ==> startHit == old(startHit)
      ensures !Near(hit) && (hit.Some? || !IsFogDrawing(event.target)) ==>
                startId.None? && local == old(local) - Held(old(startId))
      ensures IsFogDrawing(event.target) && hit.None? ==> startId == old(startId) && local == old(local)
      ensures natives.live == old(natives.live) - Released(event.target, old(target), old(startId)) + Handle(target)
    {
      if IsFogDrawing(event.target) {
        Retarget(kit, event.target.value.item);
        hit := GetIntersection(kit, event.pointer);
        if hit.Some? {
          PlaceStart(hit.value);
        }
      } else {
        hit := None;
        DropStart();
      }
    }

    /**
     * onToolMove: the start circle follows the pointer until a drag has begun; before
     * that it is createOrUpdateStart. `hit` is the intersection the call looked at.
     */
    method OnToolMove(kit: Kit, event: ToolEvent) returns (hit: Option<DoorHit>)
      requires Valid()
      modifies this`target, this`startId, this`startHit, this`local, natives, ids
      ensures Valid() && (old(Linked()) ==> Linked())
      ensures old(endId).Some? ==> hit.None? && unchanged(this) && unchanged(natives) && unchanged(ids)
      ensures old(endId).None? ==> target == Retargeted(kit, event.target, old(target), old(startId), old(natives.next))
      ensures old(endId).None? ==> (hit.Some? <==> IsFogDrawing(event.target) && target.Some?)
      ensures hit.Some? ==> Nearest(kit, target.value, event.pointer, hit.value)
      ensures Near(hit) ==>
                && startHit == hit && startId.Some?
                && startId == (if old(startId).Some? then old(startId) else Some(old(ids.next)))
                && local == old(local)[startId.value := ControlPoint(hit.value.world)]
      ensures !Near(hit) ==> startHit == old(startHit)
      ensures old(endId).None? && !Near(hit) && (hit.Some? || !IsFogDrawing(event.target)) ==>
                startId.None? && local == old(local) - Held(old(startId))
      ensures old(endId).None? && IsFogDrawing(event.target) && hit.None? ==>
                startId == old(startId) && local == old(local)
      ensures old(endId).None? ==>
                natives.live == old(natives.live) - Released(event.target, old(target), old(startId)) + Handle(target)
    {
      hit := None;
      if endId.None? {
        hit := CreateOrUpdateStart(kit, event);
      }
    }

    /**
     * onToolDragStart: after createOrUpdateStart, a shown start circle on a target
     * begins a drag: an end circle at the hit and an empty sub-path preview styled
     * after the drawing. `start` is the hit createOrUpdateStart looked at.
     */
    method DragStart(kit: Kit, event: ToolEvent) returns (start: Option<DoorHit>)
      requires Valid()
      modifies this`target, this`startId, this`startHit, this`local, this`endId, this`endHit, this`subpathId, natives, ids
      ensures Valid() && (old(Linked()) ==> Linked())
      ensures target == Retargeted(kit, event.target, old(target), old(startId), old(natives.next))
      ensures start.Some? <==> IsFogDrawing(event.target) && target.Some?
      ensures start.Some? ==> Nearest(kit, target.value, event.pointer, start.value)
      ensures Near(start) ==>
                && startHit == start && startId.Some? && target.Some?
                && endHit.Some? && Nearest(kit, target.value, event.pointer, endHit.value)
                && endId.Some? && endId.value in local && local[endId.value] == ControlPoint(endHit.value.world)
                && subpathId.Some? && subpathId.value in local
                && local[subpathId.value] == Subpath(target.value.item.transform, target.value.item.strokeWidth, [])
      ensures Near(start) ==>
                && startId == (if old(startId).Some? then old(startId) else Some(old(ids.next)))
                && local == old(local)[startId.value := ControlPoint(start.value.world)]
                                      [endId.value := ControlPoint(endHit.value.world)]
                                      [subpathId.value := Subpath(target.value.item.transform, target.value.item.strokeWidth, [])]
      ensures !Near(start) ==>
                startHit == old(startHit) && endHit == old(endHit) && endId == old(endId) && subpathId == old(subpathId)
      ensures !Near(start) && (start.Some? || !IsFogDrawing(event.target)) ==>
                startId.None? && local == old(local) - Held(old(startId))
      ensures IsFogDrawing(event.target) && start.None? ==> startId == old(startId) && local == old(local)
      ensures natives.live == old(natives.live) - Released(event.target, old(target), old(startId)) + Handle(target)
    {
      start := CreateOrUpdateStart(kit, event);
      if startId.None? || target.None? {
        return;
      }
      var hit := GetIntersection(kit, event.pointer);
      BeginDrag(hit.value);
    }

    /** The rest of onToolDragStart: the end circle at `hit` and an empty preview styled after the drawing. */
    method BeginDrag(hit: DoorHit)
      requires Valid() && startId.Some? && target.Some?
      modifies this`endHit, this`endId, this`subpathId, this`local, ids
      ensures Valid() && Linked()
      ensures endHit == Some(hit) && endId == Some(old(ids.next)) && subpathId == Some(old(ids.next) + 1)
      ensures local == old(local)[endId.value := ControlPoint(hit.world)]
                        [subpathId.value := Subpath(target.value.item.transform, target.value.item.strokeWidth, [])]
    {
      endHit := Some(hit);
      var end := ids.Fresh();
      endId := Some(end);
      var t := target.value;
      var sub := ids.Fresh();
      subpathId := Some(sub);
      local := local[end := ControlPoint(hit.world)][sub := Subpath(t.item.transform, t.item.strokeWidth, [])];
    }

    /**
     * onToolDragMove: while a drag is on, a hit on the start's contour becomes the end
     * hit, moves the end circle and re-cuts the preview between the two markers; a hit
     * on another contour is ignored. `hit` is the intersection the move looked at.
     */
    method DragMove(kit: Kit, event: ToolEvent) returns (hit: Option<DoorHit>)
      requires Valid()
      modifies this`endHit, this`local, natives
      ensures Valid() && (old(Linked()) ==> Linked())
      ensures natives.live == old(natives.live)
      ensures hit.Some? <==> endId.Some? && target.Some? && startHit.Some? && subpathId.Some?
      ensures hit.Some? ==> Nearest(kit, target.value, event.pointer, hit.value)
      ensures endHit != old(endHit) ==>
                endHit.Some? && startHit.Some? && endHit.value.hit.contour.index == startHit.value.hit.contour.index
      ensures hit.Some? && hit.value.hit.contour.index == startHit.value.hit.contour.index ==>
                && endHit == hit
                && local.Keys == old(local).Keys
                && local[endId.value] == ControlPoint(hit.value.world)
                && local[subpathId.value].commands ==
                     (match CommandsOfBetween(kit, target.value.skPath.geom, startHit.value.hit.contour, hit.value.hit.contour)
                      case Some(c) => c
                      case None => old(local)[subpathId.value].commands)
                && forall id :: id in local && id != endId.value && id != subpathId.value ==> local[id] == old(local)[id]
      ensures !(hit.Some? && hit.value.hit.contour.index == startHit.value.hit.contour.index) ==>
                endHit == old(endHit) && local == old(local)
    {
      if endId.None? || target.None? || startHit.None? || subpathId.None? {
        return None;
      }
      hit := GetIntersection(kit, event.pointer);
      if hit.value.hit.contour.index != startHit.value.hit.contour.index {
        return;
      }
      endHit := hit;
      local := local[endId.value := ControlPoint(hit.value.world)];
      var commands := CommandsBetween(kit, natives, target.value.skPath, startHit.value.hit.contour, hit.value.hit.contour);
      if commands.Some? {
        local := local[subpathId.value := local[subpathId.value].(commands := commands.value)];
      }
    }

    /** The door write of onToolDragEnd: a closed door between the two hits' markers. */
    method AppendDoor()
      modifies this`scene
      ensures Placing() && target.value.id in old(scene) ==>
                var id := target.value.id;
                scene == old(scene)[id := WithDoor(old(scene)[id], Door(false, startHit.value.hit.contour, endHit.value.hit.contour))]
      ensures !(Placing() && target.value.id in old(scene)) ==> scene == old(scene)
    {
      if Placing() && target.value.id in scene {
        var id := target.value.id;
        scene := scene[id := WithDoor(scene[id], Door(false, startHit.value.hit.contour, endHit.value.hit.contour))];
      }
    }

    /**
     * clearControls as written: the three controls are deleted, the ids and the target
     * dropped and its native path released, but the start and end hits are kept.
     */
    method ClearControlsAsWritten()
      requires Valid()
      modifies this`startId, this`endId, this`subpathId, this`target, this`local, natives
      ensures Valid()
      ensures startId.None? && endId.None? && subpathId.None? && target.None?
      ensures local == old(local) - Held(old(endId)) - Held(old(subpathId)) - Held(old(startId))
      ensures natives.live == old(natives.live) - Handle(old(target)) && natives.next == old(natives.next)
    {
      local := local - Held(endId) - Held(subpathId) - Held(startId);
      endId := None;
      subpathId := None;
      startId := None;
      if target.Some? {
        natives.Release(target.value.skPath);
      }
      target := None;
    }

    /** clearControls, also forgetting the two hits, so no later drag end can reuse them. */
    method ClearControls()
      requires Valid()
      modifies this`startId, this`endId, this`subpathId, this`target, this`local, this`startHit, this`endHit, natives
      ensures Valid() && Linked()
      ensures startId.None? && endId.None? && subpathId.None? && target.None? && startHit.None? && endHit.None?
      ensures local == old(local) - Held(old(endId)) - Held(old(subpathId)) - Held(old(startId))
      ensures natives.live == old(natives.live) - Handle(old(target)) && natives.next == old(natives.next)
    {
      ClearControlsAsWritten();
      startHit := None;
      endHit := None;
    }

    /** onToolDragEnd as written: the door is written whenever target and both hits are set. */
    method DragEndAsWritten()
      requires Valid()
      modifies this`scene, this`startId, this`endId, this`subpathId, this`target, this`local, natives
      ensures Valid()
      ensures old(Placing()) && old(target.value.id) in old(scene) ==>
                var id := old(target.value.id);
                scene == old(scene)[id := WithDoor(old(scene)[id], Door(false, old(startHit.value.hit.contour), old(endHit.value.hit.contour)))]
      ensures !(old(Placing()) && old(target.value.id) in old(scene)) ==> scene == old(scene)
      ensures startId.None? && endId.None? && subpathId.None? && target.None?
      ensures startHit == old(startHit) && endHit == old(endHit)
      ensures local == old(local) - Held(old(endId)) - Held(old(subpathId)) - Held(old(startId))
      ensures natives.live == old(natives.live) - Handle(old(target))
    {
      AppendDoor();
      ClearControlsAsWritten();
    }

    /**
     * onToolDragEnd with the hits cleared: a door is written only by a drag whose end
     * circle exists, that is one begun at a shown start circle.
     */
    method DragEnd()
      requires Valid()
      modifies this`scene, this`startId, this`endId, this`subpathId, this`target, this`local, this`startHit, this`endHit, natives
      ensures Valid() && Linked()
      ensures old(Placing()) && old(target.value.id) in old(scene) ==>
                var id := old(target.value.id);
                scene == old(scene)[id := WithDoor(old(scene)[id], Door(false, old(startHit.value.hit.contour), old(endHit.value.hit.contour)))]
      ensures !(old(Placing()) && old(target.value.id) in old(scene)) ==> scene == old(scene)
      ensures old(Linked()) && scene != old(scene) ==> old(endId).Some?
      ensures startId.None? && endId.None? && subpathId.None? && target.None? && startHit.None? && endHit.None?
      ensures local == old(local) - Held(old(endId)) - Held(old(subpathId)) - Held(old(startId))
      ensures natives.live == old(natives.live) - Handle(old(target))
    {
      AppendDoor();
      ClearControls();
    }

    /** onToolDragCancel and onDeactivate. */
    method Cancel()
      requires Valid()
      modifies this`startId, this`endId, this`subpathId, this`target, this`local, this`startHit, this`endHit, natives
      ensures Valid() && Linked()
      ensures startId.None? && endId.None? && subpathId.None? && target.None? && startHit.None? && endHit.None?
      ensures local == old(local) - Held(old(endId)) - Held(old(subpathId)) - Held(old(startId))
      ensures natives.live == old(natives.live) - Handle(old(target))
    {
      ClearControls();
    }

    /** toggleDoorOpen: a parent still in the scene gets door `index` flipped. */
    method ToggleDoorOpen(parent: ItemId, index: int)
      modifies this`scene
      ensures parent in old(scene) ==>
                scene == old(scene)[parent := ToggledItem(old(scene)[parent], index)]
                && DoorList(scene[parent]) == Toggled(DoorList(old(scene)[parent]), index)
      ensures parent !in old(scene) ==> scene == old(scene)
    {
      if parent in scene {
        scene := scene[parent := ToggledItem(scene[parent], index)];
      }
    }

    /** deleteDoor: a parent still in the scene loses door `index`. */
    method DeleteDoor(parent: ItemId, index: int)
      modifies this`scene
      ensures parent in old(scene) ==>
                scene == old(scene)[parent := RemovedItem(old(scene)[parent], index)]
                && DoorList(scene[parent]) == Removed(DoorList(old(scene)[parent]), index)
      ensures parent !in old(scene) ==> scene == old(scene)
    {
      if parent in scene {
        scene := scene[parent := RemovedItem(scene[parent], index)];
      }
    }

    /**
     * onToolClick: on a door overlay, Alt deletes the door and a plain click toggles it;
     * on a light overlay, the light becomes the selection. An overlay whose door-index is
     * missing reads as -1 and changes nothing.
     */
    method OnToolClick(event: ToolEvent)
      modifies this`scene, this`selection
      ensures var d := AttachedDoor(old(scene), event.target);
              && (d.Some? && event.altKey ==>
                    scene == old(scene)[d.value.0 := RemovedItem(old(scene)[d.value.0], d.value.1)])
              && (d.Some? && !event.altKey ==>
                    scene == old(scene)[d.value.0 := ToggledItem(old(scene)[d.value.0], d.value.1)])
              && (d.Some? ==> selection == old(selection))
              && (d.Some? && d.value.1 == -1 ==> scene == old(scene))
              && (d.None? ==> scene == old(scene))
              && (d.None? && AttachedLight(old(scene), event.target).Some? ==>
                    selection == [AttachedLight(old(scene), event.target).value])
              && (d.None? && AttachedLight(old(scene), event.target).None? ==> selection == old(selection))
    {
      var door := AttachedDoor(scene, event.target);
      if door.Some? {
        var (parent, index) := door.value;
        if event.altKey {
          DeleteDoor(parent, index);
        } else {
          ToggleDoorOpen(parent, index);
        }
      } else {
        var light := AttachedLight(scene, event.target);
        if light.Some? {
          selection := [light.value];
        }
      }
    }

    /** onToolDoubleClick: on a door overlay, the door is deleted. */
    method OnToolDoubleClick(event: ToolEvent)
      modifies this`scene
      ensures var d := AttachedDoor(old(scene), event.target);
              && (d.Some? ==> scene == old(scene)[d.value.0 := RemovedItem(old(scene)[d.value.0], d.value.1)])
              && (d.None? || d.value.1 == -1 ==> scene == old(scene))
    {
      var door := AttachedDoor(scene, event.target);
      if door.Some? {
        DeleteDoor(door.value.0, door.value.1);
      }
    }
  }

  // ---------------------------------------------------------------------------
  // Stale hits after clearControls

  /** A contour of length 10 whose every point is the origin. */
  const POINT_CONTOUR: Contour := RawContour(10.0, (s: real) => Vec2(0.0, 0.0))

  /**
   * Foreign geometry for two drawings: "a" has one contour, every other shape has an
   * empty outline; every distance is 0.
   */
  function TwoShapesKit(): Kit {
    Kit(
      shapePath := (it: Item) => if it.id == "a" then Geom([], [POINT_CONTOUR]) else Geom([], []),
      curvePath := (it: Item) => Geom([], []),
      linePath := (it: Item) => Geom([], []),
      fromCmds := (cmds: seq<real>) => None,
      segment := (c: Contour, s: real, e: real) => Geom([], []),
      strokeDoor := (g: Geom, it: Item) => g,
      strokeOutline := (g: Geom, it: Item) => g,
      difference := (g: Geom, h: Geom) => g,
      toItemSpace := (g: Geom, it: Item) => g,
      pathPoint := (g: Geom) => None,
      toWorld := (t: Transform, p: Vec2) => p,
      toLocal := (t: Transform, p: Vec2) => p,
      distance := (p: Vec2, q: Vec2) => 0.0,
      segments := (lines: seq<seq<Vec2>>) => [],
      viewport := (o: Vec2, segs: seq<Segment>, lo: Vec2, hi: Vec2) => [])
  }

  function FogShape(id: ItemId): Item {
    Item(id, At(0), FOG, ShapeItem(Rectangle), NoDoors, None, "gm", Transform(Vec2(0.0, 0.0), 0.0, Vec2(1.0, 1.0)), true, 1.0)
  }

  function PressOn(item: Item): ToolEvent {
    ToolEvent(Some(Pointed(item, NoIndexKey, false, None)), Vec2(0.0, 0.0), false)
  }

  /** A fresh tool over the two shapes, after one drag on "a"; `keepHits` selects clearControls as written. */
  method FirstDrag(keepHits: bool) returns (tool: DoorTool)
    ensures fresh(tool) && fresh(tool.natives) && fresh(tool.ids) && tool.Valid()
    ensures tool.target.None? && tool.scene.Keys == {"a", "b"} && tool.scene["b"] == FogShape("b")
    ensures keepHits ==> tool.startHit.Some? && tool.endHit.Some?
    ensures !keepHits ==> tool.startHit.None? && tool.endHit.None?
  {
    var kit := TwoShapesKit();
    var a := FogShape("a");
    var natives := new Natives();
    var ids := new IdSource();
    tool := new DoorTool(natives, ids, map["a" := a, "b" := FogShape("b")]);
    var first := tool.DragStart(kit, PressOn(a));
    assert Near(first);
    if keepHits {
      tool.DragEndAsWritten();
    } else {
      tool.DragEnd();
    }
  }

  /**
   * A drag on "a" places a door; a second drag on "b", whose outline is empty and so
   * never shows a start circle, still gets a door, made from the first drag's hits,
   * because clearControls keeps `startHit` and `endHit`.
   */
  method StaleHitsPlaceDoor() returns (outlineOfB: seq<Contour>, doorsOfB: seq<Door>)
    ensures |outlineOfB| == 0
    ensures |doorsOfB| == 1 && !doorsOfB[0].open
  {
    var kit := TwoShapesKit();
    var tool := FirstDrag(true);
    var b := FogShape("b");
    var second := tool.DragStart(kit, PressOn(b));
    assert !Near(second);
    tool.DragEndAsWritten();
    outlineOfB := kit.shapePath(b).contours;
    doorsOfB := DoorList(tool.scene["b"]);
  }

  /** The same two drags with the hits cleared: "b" gets no door. */
  method ClearedHitsPlaceNoDoor() returns (outlineOfB: seq<Contour>, doorsOfB: seq<Door>)
    ensures |outlineOfB| == 0
    ensures doorsOfB == []
  {
    var kit := TwoShapesKit();
    var tool := FirstDrag(false);
    var b := FogShape("b");
    var _ := tool.DragStart(kit, PressOn(b));
    tool.DragEnd();
    outlineOfB := kit.shapePath(b).contours;
    doorsOfB := DoorList(tool.scene["b"]);
  }
}
