/**
 * drawingToContours (src/background/util/WallHelpers.ts): a drawing's outline,
 * minus the open doors, split into one point list per contour.
 */
module WallHelpers {
  import opened Wrappers
  import opened Seqs
  import opened Scene
  import opened CanvasKit
  import opened PathHelpers
  import opened DoorActors

  /** The default sampling distance of curves. */
  const SAMPLE_DISTANCE: real := 10.0

  /** The outline with the path of every open door subtracted, in door order. */
  function SubtractOpen(kit: Kit, g: Geom, doors: seq<DoorComponent>): Geom {
    if doors == [] then g
    else
      var rest := SubtractOpen(kit, g, doors[..|doors| - 1]);
      var last := doors[|doors| - 1];
      if last.base.open then kit.difference(rest, last.skPath.geom) else rest
  }

  function OpenDoors(doors: seq<DoorComponent>): (r: seq<DoorComponent>)
    ensures forall d :: d in r ==> d in doors && d.base.open
  {
    if doors == [] then []
    else
      var rest := OpenDoors(doors[..|doors| - 1]);
      var last := doors[|doors| - 1];
      if last.base.open then rest + [last] else rest
  }

  /** Only open doors cut the outline: dropping the closed ones changes nothing. */
  lemma {:induction false} OnlyOpenDoorsCut(kit: Kit, g: Geom, doors: seq<DoorComponent>)
    ensures SubtractOpen(kit, g, doors) == SubtractOpen(kit, g, OpenDoors(doors))
  {
    if doors != [] {
      var init, last := doors[..|doors| - 1], doors[|doors| - 1];
      OnlyOpenDoorsCut(kit, g, init);
      if last.base.open {
        var o := OpenDoors(init) + [last];
        assert o[..|o| - 1] == OpenDoors(init);
      }
    }
  }

  // ---------------------------------------------------------------------------
  // Splitting commands into contours

  predicate AllCommands(cmds: seq<seq<real>>) {
    forall i :: 0 <= i < |cmds| ==> IsCommand(cmds[i])
  }

  /** The regrouped commands of any native path are well formed. */
  lemma PathCommandsWellFormed(g: Geom)
    ensures AllCommands(PathCommands(g))
  {
    GroupSizes(g.cmds);
    var cmds := PathCommands(g);
    assert forall i :: 0 <= i < |cmds| ==> cmds[i] in cmds;
  }

  predicate IsCurve(verb: real) {
    verb == QUAD || verb == CONIC || verb == CUBIC
  }

  /**
   * The points command `index` contributes when its contour starts at `start`:
   * its anchor for MOVE and LINE, the samples of the curve from the previous anchor
   * (never before the contour's start) for curves, the contour's first anchor for
   * CLOSE, nothing for an unknown verb.
   */
  function Emit(kit: Kit, cmds: seq<seq<real>>, index: nat, start: nat, distance: real): seq<Vec2>
    requires AllCommands(cmds) && start <= index < |cmds| && distance > 0.0
  {
    var command := cmds[index];
    var verb := command[0];
    if verb == MOVE || verb == LINE then [CommandPoint(command)]
    else if IsCurve(verb) then
      var prevAnchor := CommandPoint(cmds[MaxInt(index - 1, start)]);
      Samples(kit, [[MOVE, prevAnchor.x, prevAnchor.y], command], distance)
    else if verb == CLOSE then [CommandPoint(cmds[start])]
    else []
  }

  /** The index where the contour containing command n starts: just after the last CLOSE before it. */
  function ContourStart(cmds: seq<seq<real>>, n: nat): (s: nat)
    requires AllCommands(cmds) && n <= |cmds|
    ensures s <= n
  {
    if n == 0 then 0 else if cmds[n - 1][0] == CLOSE then n else ContourStart(cmds, n - 1)
  }

  /** Which commands are CLOSE. */
  function Closes(cmds: seq<seq<real>>): (r: seq<bool>)
    requires AllCommands(cmds)
    ensures |r| == |cmds| && forall i :: 0 <= i < |cmds| ==> r[i] == (cmds[i][0] == CLOSE)
  {
    seq(|cmds|, i requires 0 <= i < |cmds| => cmds[i][0] == CLOSE)
  }

  /** The points each command contributes, each read from its own contour's start. */
  function Emissions(kit: Kit, cmds: seq<seq<real>>, distance: real): (r: seq<seq<Vec2>>)
    requires AllCommands(cmds) && distance > 0.0
    ensures |r| == |cmds|
    ensures forall i :: 0 <= i < |cmds| ==> r[i] == Emit(kit, cmds, i, ContourStart(cmds, i), distance)
  {
    seq(|cmds|, i requires 0 <= i < |cmds| => Emit(kit, cmds, i, ContourStart(cmds, i), distance))
  }

  /** The splitting loop's state: the closed contours and the points of the open one. */
  datatype SplitState = SplitState(contours: seq<seq<Vec2>>, points: seq<Vec2>)

  /** The state after the first n commands, given which are CLOSE and what each contributes. */
  function Split(closes: seq<bool>, emitted: seq<seq<Vec2>>, n: nat): SplitState
    requires n <= |closes| == |emitted|
  {
    if n == 0 then SplitState([], [])
    else
      var st := Split(closes, emitted, n - 1);
      var points := st.points + emitted[n - 1];
      if closes[n - 1] then SplitState(st.contours + [points], []) else SplitState(st.contours, points)
  }

  /** Trailing points form a last, unclosed contour. */
  function Finish(st: SplitState): seq<seq<Vec2>> {
    if |st.points| > 0 then st.contours + [st.points] else st.contours
  }

  function SplitContours(kit: Kit, cmds: seq<seq<real>>, distance: real): seq<seq<Vec2>>
    requires AllCommands(cmds) && distance > 0.0
  {
    Finish(Split(Closes(cmds), Emissions(kit, cmds, distance), |cmds|))
  }

  /** The world-space outline, doors cut, back in item space. */
  function CutOutline(kit: Kit, drawing: Item, outline: Geom, doors: seq<DoorComponent>): Geom {
    kit.toItemSpace(SubtractOpen(kit, kit.strokeOutline(outline, drawing), doors), drawing)
  }

  /** What drawingToContours returns. */
  function Contours(kit: Kit, drawing: Item, doors: seq<DoorComponent>, distance: real): seq<seq<Vec2>>
    requires distance > 0.0
  {
    match DrawingGeom(kit, drawing)
    case None => []
    case Some(outline) =>
      var cmds := PathCommands(CutOutline(kit, drawing, outline, doors));
      PathCommandsWellFormed(CutOutline(kit, drawing, outline, doors));
      SplitContours(kit, cmds, distance)
  }

  /** drawingToContours. */
  method DrawingToContours(kit: Kit, natives: Natives, drawing: Item, doors: seq<DoorComponent>, sampleDistance: real)
    returns (contours: seq<seq<Vec2>>)
    requires natives.Valid() && sampleDistance > 0.0
    modifies natives
    ensures natives.Valid() && natives.live == old(natives.live) && old(natives.next) <= natives.next
    ensures DrawingGeom(kit, drawing).None? ==> contours == []
    ensures contours == Contours(kit, drawing, doors, sampleDistance)
  {
    var skPath := DrawingToSkPath(kit, natives, drawing);
    if skPath.None? {
      return [];
    }
    // stroke and move into world space, in place
    var g := kit.strokeOutline(skPath.value.geom, drawing);
    for j := 0 to |doors|
      invariant g == SubtractOpen(kit, kit.strokeOutline(skPath.value.geom, drawing), doors[..j])
    {
      assert doors[..j + 1][..j] == doors[..j];
      if doors[j].base.open {
        g := kit.difference(g, doors[j].skPath.geom);
      }
    }
    assert doors[..|doors|] == doors;
    g := kit.toItemSpace(g, drawing);
    var commands := SkPathToPathCommands(g);
    natives.Release(SkPath(skPath.value.handle, g));
    PathCommandsWellFormed(g);
    contours := SplitCommands(kit, natives, commands, sampleDistance);
  }

  /** A curve command is sampled from the previous anchor. */
  method SampleCurve(kit: Kit, natives: Natives, prevCommand: seq<real>, command: seq<real>, sampleDistance: real)
    returns (samples: seq<Vec2>)
    requires natives.Valid() && sampleDistance > 0.0 && IsCommand(prevCommand)
    modifies natives
    ensures natives.Valid() && natives.live == old(natives.live) && old(natives.next) <= natives.next
    ensures var prevAnchor := CommandPoint(prevCommand);
      samples == Samples(kit, [[MOVE, prevAnchor.x, prevAnchor.y], command], sampleDistance)
  {
    var prevAnchorPoint := CommandPoint(prevCommand);
    var subCommands := [[MOVE, prevAnchorPoint.x, prevAnchorPoint.y], command];
    samples := SamplePathCommands(kit, natives, subCommands, sampleDistance);
  }

  /** The splitting loop of drawingToContours: curves are sampled, CLOSE ends a contour. */
  method SplitCommands(kit: Kit, natives: Natives, commands: seq<seq<real>>, sampleDistance: real)
    returns (contours: seq<seq<Vec2>>)
    requires natives.Valid() && sampleDistance > 0.0 && AllCommands(commands)
    modifies natives
    ensures natives.Valid() && natives.live == old(natives.live) && old(natives.next) <= natives.next
    ensures contours == SplitContours(kit, commands, sampleDistance)
  {
    contours := [];
    var points: seq<Vec2> := [];
    var contourStartIndex := 0;
    for index := 0 to |commands|
      invariant natives.Valid() && natives.live == old(natives.live) && old(natives.next) <= natives.next
      invariant Split(Closes(commands), Emissions(kit, commands, sampleDistance), index) == SplitState(contours, points)
      invariant contourStartIndex == ContourStart(commands, index)
    {
      contours, points, contourStartIndex :=
        SplitStep(kit, natives, commands, index, contours, points, contourStartIndex, sampleDistance);
    }
    if |points| > 0 {
      contours := contours + [points];
    }
  }

  /** One pass of the splitting loop, on command `index`. */
  method SplitStep(kit: Kit, natives: Natives, commands: seq<seq<real>>, index: nat,
                   contours: seq<seq<Vec2>>, points: seq<Vec2>, contourStartIndex: nat, sampleDistance: real)
    returns (contours': seq<seq<Vec2>>, points': seq<Vec2>, contourStartIndex': nat)
    requires natives.Valid() && sampleDistance > 0.0 && AllCommands(commands) && index < |commands|
    requires Split(Closes(commands), Emissions(kit, commands, sampleDistance), index) == SplitState(contours, points)
    requires contourStartIndex == ContourStart(commands, index)
    modifies natives
    ensures natives.Valid() && natives.live == old(natives.live) && old(natives.next) <= natives.next
    ensures Split(Closes(commands), Emissions(kit, commands, sampleDistance), index + 1)
         == SplitState(contours', points')
    ensures contourStartIndex' == ContourStart(commands, index + 1)
  {
    contours', points', contourStartIndex' := contours, points, contourStartIndex;
    var command := commands[index];
    var verb := command[0];
    var prevIndex := MaxInt(index - 1, contourStartIndex);
    var prevCommand := commands[prevIndex];
    var startCommand := commands[contourStartIndex];
    assert Emissions(kit, commands, sampleDistance)[index]
        == Emit(kit, commands, index, contourStartIndex, sampleDistance);
    if verb == MOVE || verb == LINE {
      points' := points + [CommandPoint(command)];
    } else if verb == QUAD || verb == CONIC || verb == CUBIC {
      var samples := SampleCurve(kit, natives, prevCommand, command, sampleDistance);
      points' := points + samples;
    } else if verb == CLOSE {
      points' := points + [CommandPoint(startCommand)];
      contours' := contours + [points'];
      points' := [];
      contourStartIndex' := index + 1;
    }
  }

  // ---------------------------------------------------------------------------
  // Properties of the split

  /** The number of true entries among the first n. */
  function CountTrue(bs: seq<bool>, n: nat): nat
    requires n <= |bs|
  {
    if n == 0 then 0 else CountTrue(bs, n - 1) + (if bs[n - 1] then 1 else 0)
  }

  /** One contour is closed per CLOSE. */
  lemma {:induction false} SplitCount(closes: seq<bool>, emitted: seq<seq<Vec2>>, n: nat)
    requires n <= |closes| == |emitted|
    ensures |Split(closes, emitted, n).contours| == CountTrue(closes, n)
  {
    if n > 0 {
      SplitCount(closes, emitted, n - 1);
    }
  }

  /** Nothing is dropped: the contours so far and the open points are the emitted points, in order. */
  lemma {:induction false} SplitKeepsPoints(closes: seq<bool>, emitted: seq<seq<Vec2>>, n: nat)
    requires n <= |closes| == |emitted|
    ensures Flatten(Split(closes, emitted, n).contours) + Split(closes, emitted, n).points == Flatten(emitted[..n])
  {
    if n > 0 {
      SplitKeepsPoints(closes, emitted, n - 1);
      var st := Split(closes, emitted, n - 1);
      var e := emitted[n - 1];
      var prefix := emitted[..n];
      assert prefix[..n - 1] == emitted[..n - 1];
      assert Flatten(prefix) == Flatten(emitted[..n - 1]) + e;
      if closes[n - 1] {
        var p := st.points + e;
        FlattenAppend(st.contours, [p]);
        assert Flatten(st.contours + [p]) == Flatten(st.contours) + p;
      }
    }
  }

  /** The number of contours is the number of CLOSE commands, plus one when points trail the last CLOSE. */
  lemma ContourCount(kit: Kit, cmds: seq<seq<real>>, distance: real)
    requires AllCommands(cmds) && distance > 0.0
    ensures var st := Split(Closes(cmds), Emissions(kit, cmds, distance), |cmds|);
            |SplitContours(kit, cmds, distance)| == CountTrue(Closes(cmds), |cmds|) + (if |st.points| > 0 then 1 else 0)
  {
    SplitCount(Closes(cmds), Emissions(kit, cmds, distance), |cmds|);
  }

  /** The contours concatenate to exactly the emitted points, in command order. */
  lemma ContoursKeepPoints(kit: Kit, cmds: seq<seq<real>>, distance: real)
    requires AllCommands(cmds) && distance > 0.0
    ensures Flatten(SplitContours(kit, cmds, distance)) == Flatten(Emissions(kit, cmds, distance))
  {
    var em := Emissions(kit, cmds, distance);
    var st := Split(Closes(cmds), em, |cmds|);
    SplitKeepsPoints(Closes(cmds), em, |cmds|);
    assert em[..|cmds|] == em;
    if |st.points| > 0 {
      FlattenAppend(st.contours, [st.points]);
    } else {
      assert st.points == [];
    }
  }
}
