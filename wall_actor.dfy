/**
 * WallActor (src/background/reconcile/actors/WallActor.ts): one local wall per
 * contour of its drawing, with the open doors cut out.
 */
module WallActors {
  import opened Wrappers
  import opened Scene
  import opened CanvasKit
  import opened LocalItems
  import opened Updates
  import opened Patching
  import opened DoorActors
  import opened WallHelpers

  /** contourToWall: the contour's points in the drawing's space, attached to it. */
  function WallItem(id: LocalId, drawing: Item, contour: seq<Vec2>): (r: LocalItem)
    ensures r.id == id && r.attachedTo == ToItem(drawing.id) && r.content == WallContent(contour)
  {
    LocalItem(id, ToItem(drawing.id), drawing.transform, true, None, WallContent(contour))
  }

  /** The walls for a list of contours, with consecutive ids from `first`. */
  function WallItems(drawing: Item, contours: seq<seq<Vec2>>, first: LocalId): (r: seq<LocalItem>)
    ensures |r| == |contours|
    ensures forall i :: 0 <= i < |r| ==> r[i] == WallItem(first + i, drawing, contours[i])
  {
    seq(|contours|, i requires 0 <= i < |contours| => WallItem(first + i, drawing, contours[i]))
  }

  function Range(first: LocalId, n: nat): (r: seq<LocalId>)
    ensures |r| == n && forall i :: 0 <= i < n ==> r[i] == first + i
  {
    seq(n, i requires 0 <= i < n => first + i)
  }

  /** The wall updaters: wall i gets contour i. */
  function WallEdits(walls: seq<LocalId>, contours: seq<seq<Vec2>>): (r: seq<Staged>)
    requires |walls| <= |contours|
    ensures |r| == |walls|
    ensures forall i :: 0 <= i < |r| ==> r[i] == Staged(walls[i], WallPointsEdit(contours[i]))
  {
    seq(|walls|, i requires 0 <= i < |walls| => Staged(walls[i], WallPointsEdit(contours[i])))
  }

  /** With distinct wall ids, every wall gets exactly one updater, which sets contour i. */
  lemma {:induction false} WallEditsOnce(walls: seq<LocalId>, contours: seq<seq<Vec2>>, i: nat)
    requires |walls| <= |contours| && Distinct(walls) && i < |walls|
    ensures For(WallEdits(walls, contours), walls[i]) == [WallPointsEdit(contours[i])]
  {
    var n := |walls|;
    if i == n - 1 {
      ForAbsent(WallEdits(walls[..n - 1], contours), walls[i]);
    } else {
      WallEditsOnce(walls[..n - 1], contours, i);
    }
    assert WallEdits(walls, contours)[..n - 1] == WallEdits(walls[..n - 1], contours);
  }

  /** The wall ids generated so far: distinct and below the next fresh id. */
  ghost predicate Owned(walls: seq<LocalId>, bound: LocalId) {
    Distinct(walls) && forall i :: 0 <= i < |walls| ==> walls[i] < bound
  }

  /** The contours of a drawing, or none for a non-drawing. */
  function DrawingContours(kit: Kit, parent: Item, doors: seq<DoorComponent>): seq<seq<Vec2>> {
    if IsDrawing(parent) then Contours(kit, parent, doors, SAMPLE_DISTANCE) else []
  }

  class WallActor {
    var walls: seq<LocalId>

    ghost predicate Valid(ids: IdSource)
      reads this, ids
    {
      Owned(walls, ids.next)
    }

    /**
     * One wall per contour, in contour order, with its id recorded. `doors` is the
     * door reactor's cache (getDoors).
     */
    constructor (kit: Kit, natives: Natives, ids: IdSource, patcher: Patcher, doors: seq<DoorComponent>, parent: Item)
      requires natives.Valid() && patcher.Valid()
      modifies natives, ids, patcher
      ensures natives.Valid() && natives.live == old(natives.live) && old(natives.next) <= natives.next
      ensures Valid(ids)
      ensures var contours := DrawingContours(kit, parent, doors);
        && walls == Range(old(ids.next), |contours|) && ids.next == old(ids.next) + |contours|
        && patcher.State() == old(patcher.State()).Add(WallItems(parent, contours, old(ids.next)))
      ensures patcher.Valid() && patcher.ready == old(patcher.ready) && patcher.sent == old(patcher.sent)
    {
      var contours: seq<seq<Vec2>> := [];
      if IsDrawing(parent) {
        contours := DrawingToContours(kit, natives, parent, doors, SAMPLE_DISTANCE);
      }
      var built := NewWalls(ids, parent, contours);
      walls := LocalIds(built);
      new;
      assert walls == Range(old(ids.next), |contours|);
      patcher.AddItems(built);
    }

    /** Stages deletion of every recorded wall. */
    method Delete(patcher: Patcher)
      requires patcher.Valid()
      modifies patcher
      ensures patcher.Valid() && patcher.State() == old(patcher.State()).Delete(walls)
      ensures patcher.ready == old(patcher.ready) && patcher.sent == old(patcher.sent)
    {
      patcher.DeleteItems(walls);
    }

    /**
     * update: grow by appending walls for the new contours, or shrink by deleting
     * the tail; then every wall i gets one updater setting contour i.
     */
    method Update(kit: Kit, natives: Natives, ids: IdSource, patcher: Patcher, doors: seq<DoorComponent>, parent: Item)
      requires natives.Valid() && patcher.Valid() && Valid(ids)
      modifies this, natives, ids, patcher
      ensures natives.Valid() && natives.live == old(natives.live) && old(natives.next) <= natives.next
      ensures Valid(ids) && patcher.Valid() && patcher.ready == old(patcher.ready) && patcher.sent == old(patcher.sent)
      ensures !IsDrawing(parent) ==>
                walls == old(walls) && ids.next == old(ids.next) && patcher.State() == old(patcher.State())
      ensures IsDrawing(parent) ==>
                var next := Contours(kit, parent, doors, SAMPLE_DISTANCE);
                var n0, first := |old(walls)|, old(ids.next);
                && |walls| == |next|
                && (n0 <= |next| ==> walls == old(walls) + Range(first, |next| - n0) && ids.next == first + |next| - n0)
                && (n0 > |next| ==> walls == old(walls)[..|next|] && ids.next == first)
                && patcher.State() == old(patcher.State())
                     .Add(if n0 < |next| then WallItems(parent, next[n0..], first) else [])
                     .Delete(if n0 > |next| then old(walls)[|next|..] else [])
                     .Update(WallEdits(walls, next))
    {
      if !IsDrawing(parent) {
        return;
      }
      var prev := walls;
      var next := DrawingToContours(kit, natives, parent, doors, SAMPLE_DISTANCE);
      if |prev| < |next| {
        prev := GrowWalls(ids, patcher, parent, prev, next);
      } else if |prev| > |next| {
        var toDelete := prev[|next|..];
        prev := prev[..|next|];
        patcher.DeleteItems(toDelete);
        assert Owned(prev, ids.next) by {
          assert forall i :: 0 <= i < |prev| ==> prev[i] == old(walls)[i];
        }
      }
      StageWallEdits(patcher, prev, next);
      walls := prev;
    }
  }

  /** The growing branch of update: one new wall per new contour, appended and staged. */
  method GrowWalls(ids: IdSource, patcher: Patcher, parent: Item, prev: seq<LocalId>, next: seq<seq<Vec2>>)
    returns (grown: seq<LocalId>)
    requires |prev| < |next| && Owned(prev, ids.next) && patcher.Valid()
    modifies ids, patcher
    ensures grown == prev + Range(old(ids.next), |next| - |prev|) && ids.next == old(ids.next) + |next| - |prev|
    ensures Owned(grown, ids.next)
    ensures patcher.Valid() && patcher.ready == old(patcher.ready) && patcher.sent == old(patcher.sent)
    ensures patcher.State() == old(patcher.State()).Add(WallItems(parent, next[|prev|..], old(ids.next)))
  {
    ghost var s0, first := patcher.State(), ids.next;
    grown := prev;
    for i := |prev| to |next|
      invariant Owned(grown, ids.next) && |grown| == i && ids.next == first + i - |prev|
      invariant grown == prev + Range(first, i - |prev|)
      invariant patcher.Valid() && patcher.ready == old(patcher.ready) && patcher.sent == old(patcher.sent)
      invariant patcher.State() == s0.Add(WallItems(parent, next[|prev|..i], first))
    {
      var id := ids.Fresh();
      assert WallItems(parent, next[|prev|..i + 1], first)
             == WallItems(parent, next[|prev|..i], first) + [WallItem(id, parent, next[i])];
      patcher.AddItems([WallItem(id, parent, next[i])]);
      grown := grown + [id];
    }
  }

  /** The update loop: one points updater per wall. */
  method StageWallEdits(patcher: Patcher, walls: seq<LocalId>, next: seq<seq<Vec2>>)
    requires |walls| <= |next| && patcher.Valid()
    modifies patcher
    ensures patcher.Valid() && patcher.ready == old(patcher.ready) && patcher.sent == old(patcher.sent)
    ensures patcher.State() == old(patcher.State()).Update(WallEdits(walls, next))
  {
    ghost var s1 := patcher.State();
    for i := 0 to |walls|
      invariant patcher.Valid() && patcher.ready == old(patcher.ready) && patcher.sent == old(patcher.sent)
      invariant patcher.State() == s1.Update(WallEdits(walls[..i], next))
    {
      assert WallEdits(walls[..i + 1], next) == WallEdits(walls[..i], next) + [Staged(walls[i], WallPointsEdit(next[i]))];
      s1.UpdateTwice(WallEdits(walls[..i], next), [Staged(walls[i], WallPointsEdit(next[i]))]);
      patcher.UpdateItems([Staged(walls[i], WallPointsEdit(next[i]))]);
    }
    assert walls[..|walls|] == walls;
  }

  /** Builds one wall per contour with fresh ids. */
  method NewWalls(ids: IdSource, drawing: Item, contours: seq<seq<Vec2>>) returns (built: seq<LocalItem>)
    modifies ids
    ensures built == WallItems(drawing, contours, old(ids.next)) && ids.next == old(ids.next) + |contours|
    ensures LocalIds(built) == Range(old(ids.next), |contours|)
  {
    built := [];
    for i := 0 to |contours|
      invariant ids.next == old(ids.next) + i
      invariant built == WallItems(drawing, contours[..i], old(ids.next))
    {
      var id := ids.Fresh();
      built := built + [WallItem(id, drawing, contours[i])];
    }
    assert contours[..|contours|] == contours;
  }
}
