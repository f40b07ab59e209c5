/**
 * DoorActor (src/background/reconcile/actors/DoorActor.ts): for one drawing it
 * holds one stroked, world-space native path per persisted door, and resizes and
 * rebuilds that list as the drawing's door metadata changes.
 */
module DoorActors {
  import opened Wrappers
  import opened Scene
  import opened CanvasKit
  import opened PathHelpers

  /** A door and the native path that currently traces it. */
  datatype DoorComponent = DoorComponent(base: Door, skPath: SkPath)

  /** The handles a list of components holds. */
  ghost function Held(ds: seq<DoorComponent>): set<nat> {
    set i | 0 <= i < |ds| :: ds[i].skPath.handle
  }

  /** No two components share a native path. */
  ghost predicate DistinctHandles(ds: seq<DoorComponent>) {
    forall i, j :: 0 <= i < j < |ds| ==> ds[i].skPath.handle != ds[j].skPath.handle
  }

  lemma HeldAppend(ds: seq<DoorComponent>, d: DoorComponent)
    ensures Held(ds + [d]) == Held(ds) + {d.skPath.handle}
  {
    var e := ds + [d];
    assert e[|ds|] == d;
    forall h | h in Held(ds)
      ensures h in Held(e)
    {
      var i :| 0 <= i < |ds| && ds[i].skPath.handle == h;
      assert e[i] == ds[i];
    }
  }

  lemma HeldSplit(ds: seq<DoorComponent>, n: nat)
    requires n <= |ds|
    ensures Held(ds) == Held(ds[..n]) + Held(ds[n..])
  {
    forall h | h in Held(ds)
      ensures h in Held(ds[..n]) + Held(ds[n..])
    {
      var i :| 0 <= i < |ds| && ds[i].skPath.handle == h;
      if i < n {
        assert ds[..n][i] == ds[i];
      } else {
        assert ds[n..][i - n] == ds[i];
      }
    }
    forall h | h in Held(ds[n..])
      ensures h in Held(ds)
    {
      var i :| 0 <= i < |ds[n..]| && ds[n..][i].skPath.handle == h;
      assert ds[n + i] == ds[n..][i];
    }
    forall h | h in Held(ds[..n])
      ensures h in Held(ds)
    {
      var i :| 0 <= i < n && ds[..n][i].skPath.handle == h;
      assert ds[i] == ds[..n][i];
    }
  }

  /** Replacing the path of one component of a distinct list swaps exactly one handle. */
  lemma HeldReplace(ds: seq<DoorComponent>, i: nat, d: DoorComponent)
    requires i < |ds| && DistinctHandles(ds)
    ensures Held(ds[i := d]) == (Held(ds) - {ds[i].skPath.handle}) + {d.skPath.handle}
  {
    var e := ds[i := d];
    assert e[i] == d;
    forall h | h in Held(e)
      ensures h in (Held(ds) - {ds[i].skPath.handle}) + {d.skPath.handle}
    {
      var j :| 0 <= j < |e| && e[j].skPath.handle == h;
      if j != i {
        assert e[j] == ds[j];
      }
    }
    forall h | h in Held(ds) - {ds[i].skPath.handle}
      ensures h in Held(e)
    {
      var j :| 0 <= j < |ds| && ds[j].skPath.handle == h;
      assert j != i;
      assert e[j] == ds[j];
    }
  }

  /** The world-space stroked door sub-path getDoorSkPath computes, when it can. */
  function DoorGeom(kit: Kit, drawing: Item, door: Door): (r: Option<Geom>)
    ensures door.start.index != door.end.index ==> r.None?
  {
    match DrawingGeom(kit, drawing)
    case None => None
    case Some(outline) =>
      match Between(kit, outline, door.start, door.end)
      case None => None
      case Some(segment) => Some(kit.strokeDoor(segment, drawing))
  }

  /** The doors of a list whose sub-path builds, in list order. */
  function Buildable(kit: Kit, drawing: Item, ds: seq<Door>): (r: seq<Door>)
    ensures |r| <= |ds|
    ensures forall d :: d in r ==> d in ds && DoorGeom(kit, drawing, d).Some?
  {
    if ds == [] then []
    else
      var init := Buildable(kit, drawing, ds[..|ds| - 1]);
      var last := ds[|ds| - 1];
      if DoorGeom(kit, drawing, last).Some? then init + [last] else init
  }

  lemma BuildableAll(kit: Kit, drawing: Item, ds: seq<Door>)
    requires forall d :: d in ds ==> DoorGeom(kit, drawing, d).Some?
    ensures Buildable(kit, drawing, ds) == ds
  {
    if ds != [] {
      assert forall d :: d in ds[..|ds| - 1] ==> d in ds;
      BuildableAll(kit, drawing, ds[..|ds| - 1]);
      assert ds[..|ds| - 1] + [ds[|ds| - 1]] == ds;
    }
  }

  function Bases(ds: seq<DoorComponent>): (r: seq<Door>)
    ensures |r| == |ds| && forall i :: 0 <= i < |ds| ==> r[i] == ds[i].base
  {
    seq(|ds|, i requires 0 <= i < |ds| => ds[i].base)
  }

  /** Every component's path is the one its door builds. */
  ghost predicate Traced(kit: Kit, drawing: Item, ds: seq<DoorComponent>) {
    forall i :: 0 <= i < |ds| ==> DoorGeom(kit, drawing, ds[i].base) == Some(ds[i].skPath.geom)
  }

  /**
   * getDoorSkPath: builds the drawing's outline, cuts the door's sub-path out of
   * it, releases the outline, and strokes and moves the sub-path into world space.
   */
  method GetDoorSkPath(kit: Kit, natives: Natives, drawing: Item, door: Door) returns (p: Option<SkPath>)
    requires natives.Valid()
    modifies natives
    ensures natives.Valid() && old(natives.next) <= natives.next
    ensures p.Some? <==> DoorGeom(kit, drawing, door).Some?
    ensures p.None? ==> natives.live == old(natives.live)
    ensures p.Some? ==>
              p.value.geom == DoorGeom(kit, drawing, door).value
              && old(natives.next) <= p.value.handle
              && natives.live == old(natives.live) + {p.value.handle}
  {
    var skPath := DrawingToSkPath(kit, natives, drawing);
    if skPath.None? {
      return None;
    }
    var segment := SkPathBetween(kit, natives, skPath.value, door.start, door.end);
    natives.Release(skPath.value);
    if segment.None? {
      return None;
    }
    // segment.stroke(...) and segment.transform(...) change the path in place
    p := Some(SkPath(segment.value.handle, kit.strokeDoor(segment.value.geom, drawing)));
  }

  /** doorToDoorComponent. */
  method DoorToDoorComponent(kit: Kit, natives: Natives, drawing: Item, door: Door)
    returns (c: Option<DoorComponent>)
    requires natives.Valid()
    modifies natives
    ensures natives.Valid() && old(natives.next) <= natives.next
    ensures c.Some? <==> DoorGeom(kit, drawing, door).Some?
    ensures c.None? ==> natives.live == old(natives.live)
    ensures c.Some? ==>
              c.value.base == door && c.value.skPath.geom == DoorGeom(kit, drawing, door).value
              && old(natives.next) <= c.value.skPath.handle
              && natives.live == old(natives.live) + {c.value.skPath.handle}
  {
    var skPath := GetDoorSkPath(kit, natives, drawing, door);
    if skPath.None? {
      return None;
    }
    return Some(DoorComponent(door, skPath.value));
  }

  /** Every component's path is live. */
  ghost predicate AllLive(ds: seq<DoorComponent>, live: set<nat>) {
    forall i :: 0 <= i < |ds| ==> ds[i].skPath.handle in live
  }

  /** Every component's path was allocated at or after `bound`. */
  ghost predicate AllFrom(ds: seq<DoorComponent>, bound: nat) {
    forall i :: 0 <= i < |ds| ==> bound <= ds[i].skPath.handle
  }

  lemma AppendOwned(ds: seq<DoorComponent>, d: DoorComponent, live: set<nat>)
    requires AllLive(ds, live) && DistinctHandles(ds) && d.skPath.handle !in live
    ensures AllLive(ds + [d], live + {d.skPath.handle}) && DistinctHandles(ds + [d])
    ensures Held(ds + [d]) == Held(ds) + {d.skPath.handle}
  {
    HeldAppend(ds, d);
  }

  /** The components of the doors of `ds` that build, each with a fresh live path. */
  method BuildAll(kit: Kit, natives: Natives, drawing: Item, ds: seq<Door>)
    returns (added: seq<DoorComponent>)
    requires natives.Valid()
    modifies natives
    ensures natives.Valid() && old(natives.next) <= natives.next
    ensures Bases(added) == Buildable(kit, drawing, ds) && Traced(kit, drawing, added)
    ensures AllLive(added, natives.live) && DistinctHandles(added) && AllFrom(added, old(natives.next))
    ensures natives.live == old(natives.live) + Held(added)
  {
    added := [];
    for k := 0 to |ds|
      invariant natives.Valid() && old(natives.next) <= natives.next
      invariant Bases(added) == Buildable(kit, drawing, ds[..k]) && Traced(kit, drawing, added)
      invariant AllLive(added, natives.live) && DistinctHandles(added) && AllFrom(added, old(natives.next))
      invariant natives.live == old(natives.live) + Held(added)
    {
      added := BuildStep(kit, natives, drawing, ds, k, added, old(natives.live), old(natives.next));
    }
    assert ds[..|ds|] == ds;
  }

  /** One pass of BuildAll's loop: door `k` is appended when it builds. */
  method BuildStep(kit: Kit, natives: Natives, drawing: Item, ds: seq<Door>, k: nat, added: seq<DoorComponent>,
                   ghost live0: set<nat>, ghost next0: nat)
    returns (added': seq<DoorComponent>)
    requires natives.Valid() && next0 <= natives.next && k < |ds|
    requires Bases(added) == Buildable(kit, drawing, ds[..k]) && Traced(kit, drawing, added)
    requires AllLive(added, natives.live) && DistinctHandles(added) && AllFrom(added, next0)
    requires natives.live == live0 + Held(added)
    modifies natives
    ensures natives.Valid() && next0 <= natives.next
    ensures Bases(added') == Buildable(kit, drawing, ds[..k + 1]) && Traced(kit, drawing, added')
    ensures AllLive(added', natives.live) && DistinctHandles(added') && AllFrom(added', next0)
    ensures natives.live == live0 + Held(added')
  {
    assert ds[..k + 1][..k] == ds[..k];
    ghost var live := natives.live;
    added' := added;
    var visual := DoorToDoorComponent(kit, natives, drawing, ds[k]);
    if visual.Some? {
      AppendOwned(added, visual.value, live);
      added' := added + [visual.value];
    }
  }

  /** Releases the paths of a list of components, each exactly once. */
  method ReleaseAll(natives: Natives, ds: seq<DoorComponent>)
    requires natives.Valid() && AllLive(ds, natives.live) && DistinctHandles(ds)
    modifies natives
    ensures natives.Valid() && natives.next == old(natives.next)
    ensures natives.live == old(natives.live) - Held(ds)
  {
    for k := 0 to |ds|
      invariant natives.Valid() && natives.next == old(natives.next)
      invariant natives.live == old(natives.live) - Held(ds[..k])
    {
      HeldAppend(ds[..k], ds[k]);
      assert ds[..k + 1] == ds[..k] + [ds[k]];
      assert ds[k].skPath.handle !in Held(ds[..k]);
      natives.Release(ds[k].skPath);
    }
    assert ds[..|ds|] == ds;
  }

  /** Growing keeps the old list as a prefix; the joined list is distinct and live. */
  lemma JoinOwned(prev: seq<DoorComponent>, added: seq<DoorComponent>, live: set<nat>, bound: nat)
    requires AllLive(prev, live) && DistinctHandles(prev) && forall h :: h in live ==> h < bound
    requires DistinctHandles(added) && AllFrom(added, bound)
    ensures DistinctHandles(prev + added)
    ensures Held(prev + added) == Held(prev) + Held(added)
  {
    var e := prev + added;
    HeldSplit(e, |prev|);
    assert e[..|prev|] == prev && e[|prev|..] == added;
    forall i, j | 0 <= i < j < |e|
      ensures e[i].skPath.handle != e[j].skPath.handle
    {
      if j < |prev| {
      } else if i < |prev| {
        assert e[i].skPath.handle in live;
        assert e[j] == added[j - |prev|];
      } else {
        assert e[i] == added[i - |prev|] && e[j] == added[j - |prev|];
      }
    }
  }

  /** Shrinking keeps a prefix: the kept and the cut handles are disjoint. */
  lemma CutOwned(prev: seq<DoorComponent>, n: nat)
    requires n <= |prev| && DistinctHandles(prev)
    ensures DistinctHandles(prev[..n]) && DistinctHandles(prev[n..])
    ensures Held(prev) == Held(prev[..n]) + Held(prev[n..])
    ensures Held(prev[..n]) * Held(prev[n..]) == {}
  {
    HeldSplit(prev, n);
    var a, b := prev[..n], prev[n..];
    assert forall i, j :: 0 <= i < j < |b| ==> b[i] == prev[n + i] && b[j] == prev[n + j];
    forall h | h in Held(a)
      ensures h !in Held(b)
    {
    }
  }

  /**
   * The resizing half of DoorActor.update: append the components of the new doors
   * that build, or release the components past the end of `next`.
   */
  method Resize(kit: Kit, natives: Natives, parent: Item, prev: seq<DoorComponent>, next: seq<Door>)
    returns (resized: seq<DoorComponent>)
    requires natives.Valid() && AllLive(prev, natives.live) && DistinctHandles(prev)
    modifies natives
    ensures natives.Valid() && AllLive(resized, natives.live) && DistinctHandles(resized)
    ensures old(natives.next) <= natives.next
    ensures |resized| <= |next| || resized == prev
    ensures |prev| >= |next| ==> resized == prev[..|next|]
    ensures |prev| < |next| ==>
              |resized| == |prev| + |Buildable(kit, parent, next[|prev|..])| && resized[..|prev|] == prev
              && Bases(resized[|prev|..]) == Buildable(kit, parent, next[|prev|..])
    ensures natives.live == (old(natives.live) - Held(prev)) + Held(resized)
    ensures forall h :: h in Held(resized) - Held(prev) ==> old(natives.next) <= h
  {
    resized := prev;
    if |prev| < |next| {
      var added := BuildAll(kit, natives, parent, next[|prev|..]);
      JoinOwned(prev, added, old(natives.live), old(natives.next));
      resized := prev + added;
      assert resized[..|prev|] == prev && resized[|prev|..] == added;
      forall i | 0 <= i < |resized|
        ensures resized[i].skPath.handle in natives.live
      {
        if i >= |prev| {
          assert resized[i] == added[i - |prev|];
        }
      }
      forall h | h in Held(resized) - Held(prev)
        ensures old(natives.next) <= h
      {
        var i :| 0 <= i < |added| && added[i].skPath.handle == h;
      }
    } else if |prev| > |next| {
      var numRemoved := |prev| - |next|;
      var toDelete := prev[|prev| - numRemoved..];
      resized := prev[..|prev| - numRemoved];
      CutOwned(prev, |next|);
      assert AllLive(toDelete, natives.live) by {
        assert forall i :: 0 <= i < |toDelete| ==> toDelete[i] == prev[|next| + i];
      }
      ReleaseAll(natives, toDelete);
    } else {
      assert prev[..|next|] == prev;
    }
  }

  /** Position by position, a path is either the one of `before` or allocated at or after `bound`. */
  ghost predicate KeptOrFrom(after: seq<DoorComponent>, before: seq<DoorComponent>, bound: nat) {
    |after| == |before|
    && forall j :: 0 <= j < |after| ==>
         after[j].skPath.handle == before[j].skPath.handle || bound <= after[j].skPath.handle
  }

  lemma KeptOrFromHeld(after: seq<DoorComponent>, before: seq<DoorComponent>, bound: nat)
    requires KeptOrFrom(after, before, bound)
    ensures forall h :: h in Held(after) - Held(before) ==> bound <= h
  {
    forall h | h in Held(after) - Held(before)
      ensures bound <= h
    {
      var j :| 0 <= j < |after| && after[j].skPath.handle == h;
      assert before[j].skPath.handle in Held(before);
    }
  }

  /** One step of the update loop: the held set trades the released handle for the new one. */
  lemma SwapStep(out: seq<DoorComponent>, i: nat, d: DoorComponent, live: set<nat>, rest: set<nat>)
    requires i < |out| && AllLive(out, live) && DistinctHandles(out)
    requires live == rest + Held(out) && rest * Held(out) == {}
    requires d.skPath.handle !in live
    ensures AllLive(out[i := d], (live - {out[i].skPath.handle}) + {d.skPath.handle})
    ensures DistinctHandles(out[i := d])
    ensures (live - {out[i].skPath.handle}) + {d.skPath.handle} == rest + Held(out[i := d])
    ensures rest * Held(out[i := d]) == {}
  {
    HeldReplace(out, i, d);
    assert out[i].skPath.handle in Held(out);
  }

  /**
   * The update loop of DoorActor.update: component i gets door next[i] and, when
   * that door builds, a new path in place of the released old one.
   */
  method Rebuild(kit: Kit, natives: Natives, parent: Item, resized: seq<DoorComponent>, next: seq<Door>)
    returns (out: seq<DoorComponent>)
    requires natives.Valid() && AllLive(resized, natives.live) && DistinctHandles(resized)
    requires |resized| <= |next|
    modifies natives
    ensures natives.Valid() && AllLive(out, natives.live) && DistinctHandles(out)
    ensures old(natives.next) <= natives.next
    ensures |out| == |resized|
    ensures forall j :: 0 <= j < |out| ==> out[j].base == next[j]
    ensures forall j :: 0 <= j < |out| && DoorGeom(kit, parent, next[j]).Some? ==>
              out[j].skPath.geom == DoorGeom(kit, parent, next[j]).value
    ensures forall j :: 0 <= j < |out| && DoorGeom(kit, parent, next[j]).None? ==> out[j].skPath == resized[j].skPath
    ensures natives.live == (old(natives.live) - Held(resized)) + Held(out)
    ensures KeptOrFrom(out, resized, old(natives.next))
  {
    ghost var rest := old(natives.live) - Held(resized);
    out := resized;
    for i := 0 to |resized|
      invariant natives.Valid() && AllLive(out, natives.live) && DistinctHandles(out)
      invariant old(natives.next) <= natives.next
      invariant Rebuilt(kit, parent, resized, next, out, i)
      invariant natives.live == rest + Held(out) && rest * Held(out) == {}
      invariant KeptOrFrom(out, resized, old(natives.next))
    {
      out := RebuildStep(kit, natives, parent, resized, next, out, i, rest, old(natives.next));
    }
  }

  /** Where Rebuild's loop stands before door `i`: the components before it are rebuilt, the rest untouched. */
  ghost predicate Rebuilt(kit: Kit, parent: Item, resized: seq<DoorComponent>, next: seq<Door>,
                          out: seq<DoorComponent>, i: nat)
  {
    && |out| == |resized| && i <= |out| && |resized| <= |next|
    && (forall j :: 0 <= j < i ==> out[j].base == next[j])
    && (forall j :: 0 <= j < i && DoorGeom(kit, parent, next[j]).Some? ==>
          out[j].skPath.geom == DoorGeom(kit, parent, next[j]).value)
    && (forall j :: 0 <= j < i && DoorGeom(kit, parent, next[j]).None? ==> out[j].skPath == resized[j].skPath)
    && (forall j :: i <= j < |out| ==> out[j] == resized[j])
  }

  /** One pass of Rebuild's loop: door `i` gets its new base and, when it builds, a new path in place of the old. */
  method RebuildStep(kit: Kit, natives: Natives, parent: Item, resized: seq<DoorComponent>, next: seq<Door>,
                     out: seq<DoorComponent>, i: nat, ghost rest: set<nat>, ghost next0: nat)
    returns (out': seq<DoorComponent>)
    requires natives.Valid() && AllLive(out, natives.live) && DistinctHandles(out)
    requires next0 <= natives.next && i < |resized|
    requires Rebuilt(kit, parent, resized, next, out, i)
    requires natives.live == rest + Held(out) && rest * Held(out) == {}
    requires KeptOrFrom(out, resized, next0)
    modifies natives
    ensures natives.Valid() && AllLive(out', natives.live) && DistinctHandles(out')
    ensures next0 <= natives.next
    ensures Rebuilt(kit, parent, resized, next, out', i + 1)
    ensures natives.live == rest + Held(out') && rest * Held(out') == {}
    ensures KeptOrFrom(out', resized, next0)
  {
    var nextDoor := next[i];
    var door := out[i];
    ghost var live := natives.live;
    var nextSkPath := GetDoorSkPath(kit, natives, parent, nextDoor);
    if nextSkPath.Some? {
      var replacement := DoorComponent(nextDoor, nextSkPath.value);
      SwapStep(out, i, replacement, live, rest);
      natives.Release(door.skPath);
      out' := out[i := replacement];
    } else {
      HeldReplace(out, i, door.(base := nextDoor));
      out' := out[i := door.(base := nextDoor)];
    }
  }

  /** What DoorActor.update promises about the new list, given the old one. */
  ghost predicate Realigned(kit: Kit, parent: Item, prev: seq<DoorComponent>, now: seq<DoorComponent>) {
    var next := DoorList(parent);
    && |now| <= |next|
    && (|prev| >= |next| ==> |now| == |next|)
    && (|prev| < |next| ==> |now| == |prev| + |Buildable(kit, parent, next[|prev|..])|)
    && (forall i :: 0 <= i < |now| ==> now[i].base == next[i])
    && (forall i :: 0 <= i < |now| && DoorGeom(kit, parent, next[i]).Some? ==>
          now[i].skPath.geom == DoorGeom(kit, parent, next[i]).value)
    && (forall i :: 0 <= i < |now| && i < |prev| && DoorGeom(kit, parent, next[i]).None? ==>
          now[i].skPath == prev[i].skPath)
  }

  lemma RealignedByPhases(kit: Kit, parent: Item, prev: seq<DoorComponent>, resized: seq<DoorComponent>,
                          now: seq<DoorComponent>)
    requires var next := DoorList(parent);
      && (|resized| <= |next| || resized == prev)
      && (|prev| >= |next| ==> resized == prev[..|next|])
      && (|prev| < |next| ==>
            |resized| == |prev| + |Buildable(kit, parent, next[|prev|..])| && resized[..|prev|] == prev)
      && |now| == |resized|
      && (forall j :: 0 <= j < |now| ==> now[j].base == next[j])
      && (forall j :: 0 <= j < |now| && DoorGeom(kit, parent, next[j]).Some? ==>
            now[j].skPath.geom == DoorGeom(kit, parent, next[j]).value)
      && (forall j :: 0 <= j < |now| && DoorGeom(kit, parent, next[j]).None? ==> now[j].skPath == resized[j].skPath)
    ensures Realigned(kit, parent, prev, now)
  {
    var next := DoorList(parent);
    assert |now| <= |next| by {
      if |prev| < |next| {
        assert |Buildable(kit, parent, next[|prev|..])| <= |next| - |prev|;
      }
    }
    forall i | 0 <= i < |now| && i < |prev|
      ensures resized[i] == prev[i]
    {
      if |prev| < |next| {
        assert resized[..|prev|][i] == resized[i];
      }
    }
  }

  /** Handle bookkeeping across the two phases of DoorActor.update. */
  lemma TwoPhases(live0: set<nat>, h0: set<nat>, h1: set<nat>, h2: set<nat>, next0: nat, next1: nat)
    requires forall h :: h in live0 ==> h < next0
    requires next0 <= next1
    requires forall h :: h in h1 - h0 ==> next0 <= h
    requires forall h :: h in h2 - h1 ==> next1 <= h
    ensures (((live0 - h0) + h1) - h1) + h2 == (live0 - h0) + h2
    ensures forall h :: h in h2 - h0 ==> next0 <= h
  {
    assert forall h :: h in h1 && h !in h0 ==> next0 <= h by {
      forall h | h in h1 && h !in h0
        ensures next0 <= h
      {
        assert h in h1 - h0;
      }
    }
    assert ((live0 - h0) + h1) - h1 == live0 - h0;
    forall h | h in h2 - h0
      ensures next0 <= h
    {
      if h !in h1 {
        assert h in h2 - h1;
      } else {
        assert h in h1 - h0;
      }
    }
  }

  class DoorActor {
    var doors: seq<DoorComponent>

    /** Every held path is live and held once. */
    ghost predicate Valid(natives: Natives)
      reads this, natives
    {
      AllLive(doors, natives.live) && DistinctHandles(doors)
    }

    /** One component per door whose sub-path builds, in metadata order; none for a non-drawing. */
    constructor (kit: Kit, natives: Natives, parent: Item)
      requires natives.Valid()
      modifies natives
      ensures natives.Valid() && Valid(natives) && old(natives.next) <= natives.next
      ensures Bases(doors) == (if IsDrawing(parent) then Buildable(kit, parent, DoorList(parent)) else [])
      ensures Traced(kit, parent, doors) && AllFrom(doors, old(natives.next))
      ensures natives.live == old(natives.live) + Held(doors)
    {
      var built: seq<DoorComponent> := [];
      if IsDrawing(parent) {
        built := BuildAll(kit, natives, parent, DoorList(parent));
      }
      doors := built;
    }

    /** delete: releases every held path once (the list itself is left as it is). */
    method Delete(natives: Natives)
      requires natives.Valid() && Valid(natives)
      modifies natives
      ensures natives.Valid() && natives.next == old(natives.next)
      ensures natives.live == old(natives.live) - Held(doors)
    {
      ReleaseAll(natives, doors);
    }

    /**
     * update: grow by appending the components of the new doors that build, or
     * shrink by releasing the tail; then give every remaining component i the door
     * next[i] and, when that door builds, a new path in place of the old one.
     */
    method Update(kit: Kit, natives: Natives, parent: Item)
      requires natives.Valid() && Valid(natives)
      modifies this, natives
      ensures natives.Valid() && Valid(natives) && old(natives.next) <= natives.next
      ensures !IsDrawing(parent) ==> doors == old(doors) && natives.live == old(natives.live)
      ensures IsDrawing(parent) ==> Realigned(kit, parent, old(doors), doors)
      ensures natives.live == (old(natives.live) - old(Held(doors))) + Held(doors)
      ensures forall h :: h in Held(doors) - old(Held(doors)) ==> old(natives.next) <= h
    {
      if !IsDrawing(parent) {
        return;
      }
      var prev := doors;
      var next := DoorList(parent);
      ghost var live0, next0 := natives.live, natives.next;
      var resized := Resize(kit, natives, parent, prev, next);
      ghost var live1, next1 := natives.live, natives.next;
      var rebuilt := Rebuild(kit, natives, parent, resized, next);
      KeptOrFromHeld(rebuilt, resized, next1);
      RealignedByPhases(kit, parent, prev, resized, rebuilt);
      TwoPhases(live0, Held(prev), Held(resized), Held(rebuilt), next0, next1);
      doors := rebuilt;
    }
  }
}
