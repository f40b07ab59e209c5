/**
 * Path utilities (src/background/util/PathHelpers.ts): regrouping a flat command
 * stream into path commands, sampling curves, the nearest point of an outline, and
 * sub-paths between two contour markers.
 */
module PathHelpers {
  import opened Wrappers
  import opened Seqs
  import opened Scene
  import opened CanvasKit

  // The verbs of a path command (the SDK's Command enumeration)
  const MOVE: real := 0.0
  const LINE: real := 1.0
  const QUAD: real := 2.0
  const CONIC: real := 3.0
  const CUBIC: real := 4.0
  const CLOSE: real := 5.0

  /** getCommandLength: the number of entries of a command with this verb, 0 for an unknown verb. */
  function CommandLength(verb: real): nat {
    if verb == CLOSE then 1
    else if verb == MOVE then 3
    else if verb == LINE then 3
    else if verb == QUAD then 5
    else if verb == CUBIC then 7
    else if verb == CONIC then 6
    else 0
  }

  /** The length of the group the regrouping emits for a verb: an unknown verb stands alone. */
  function GroupSize(verb: real): nat {
    if CommandLength(verb) == 0 then 1 else CommandLength(verb)
  }

  /** A well-formed path command: a verb followed by exactly its operands. */
  predicate IsCommand(c: seq<real>) {
    c != [] && |c| == GroupSize(c[0])
  }

  /** getCommandPoint: the end anchor of a command. */
  function CommandPoint(c: seq<real>): (p: Vec2)
    requires IsCommand(c)
    ensures c[0] in {MOVE, LINE, QUAD, CUBIC} ==> p == Vec2(c[|c| - 2], c[|c| - 1])
    ensures c[0] == CONIC ==> p == Vec2(c[|c| - 3], c[|c| - 2])
    ensures c[0] !in {MOVE, LINE, QUAD, CONIC, CUBIC} ==> p == Vec2(0.0, 0.0)
  {
    var verb := c[0];
    if verb == MOVE || verb == LINE then Vec2(c[1], c[2])
    else if verb == QUAD || verb == CONIC then Vec2(c[3], c[4])
    else if verb == CUBIC then Vec2(c[5], c[6])
    else Vec2(0.0, 0.0)
  }

  // ---------------------------------------------------------------------------
  // skPathToPathCommands

  /** The regrouping's state: the groups emitted so far and the group being filled. */
  datatype Grouping = Grouping(out: seq<seq<real>>, current: seq<real>)

  /** One entry of the flat stream: extend the open group and emit it once it is full. */
  function Step(st: Grouping, c: real): Grouping {
    var current := st.current + [c];
    if |current| >= CommandLength(current[0]) then Grouping(st.out + [current], [])
    else Grouping(st.out, current)
  }

  /** The regrouping of a stream, continuing from state `st`. */
  function RunFrom(st: Grouping, s: seq<real>): Grouping {
    if s == [] then st else Step(RunFrom(st, s[..|s| - 1]), s[|s| - 1])
  }

  /** The regrouping of a whole flat stream, from nothing emitted and no open group. */
  function Group(s: seq<real>): Grouping {
    RunFrom(Grouping([], []), s)
  }

  /** The path commands of a native path: a trailing incomplete group is dropped. */
  function PathCommands(g: Geom): seq<seq<real>> {
    Group(g.cmds).out
  }

  /** skPathToPathCommands. */
  method SkPathToPathCommands(path: Geom) returns (out: seq<seq<real>>)
    ensures out == PathCommands(path)
  {
    var cmds := path.cmds;
    out := [];
    var current: seq<real> := [];
    for i := 0 to |cmds|
      invariant Grouping(out, current) == Group(cmds[..i])
    {
      assert cmds[..i + 1][..i] == cmds[..i];
      current := current + [cmds[i]];
      var maxLen := CommandLength(current[0]);
      if |current| >= maxLen {
        out := out + [current];
        current := [];
      }
    }
    assert cmds[..|cmds|] == cmds;
  }

  /** Nothing of the stream is lost: the groups and the open group concatenate back to it. */
  lemma {:induction false} GroupPreservesStream(s: seq<real>)
    ensures Flatten(Group(s).out) + Group(s).current == s
  {
    if s != [] {
      var init, c := s[..|s| - 1], s[|s| - 1];
      GroupPreservesStream(init);
      var st := Group(init);
      assert Group(s) == Step(st, c);
      var current := st.current + [c];
      if |current| >= CommandLength(current[0]) {
        FlattenAppend(st.out, [current]);
        assert Flatten(Group(s).out) == Flatten(st.out) + current;
      }
      assert init + [c] == s;
    }
  }

  /** Every emitted group is a well-formed command, and the open group is still short of its length. */
  lemma {:induction false} GroupSizes(s: seq<real>)
    ensures forall g :: g in Group(s).out ==> IsCommand(g)
    ensures Group(s).current != [] ==> |Group(s).current| < CommandLength(Group(s).current[0])
  {
    if s != [] {
      GroupSizes(s[..|s| - 1]);
      assert Group(s) == Step(Group(s[..|s| - 1]), s[|s| - 1]);
    }
  }

  lemma {:induction false} RunAppend(st: Grouping, a: seq<real>, b: seq<real>)
    ensures RunFrom(st, a + b) == RunFrom(RunFrom(st, a), b)
    decreases |b|
  {
    if b == [] {
      assert a + b == a;
    } else {
      assert (a + b)[..|a + b| - 1] == a + b[..|b| - 1];
      RunAppend(st, a, b[..|b| - 1]);
    }
  }

  /** The first n entries of a well-formed command open its group; all of them emit it. */
  lemma {:induction false} RunCommand(out: seq<seq<real>>, c: seq<real>, n: nat)
    requires IsCommand(c) && 0 < n <= |c|
    ensures n < |c| ==> RunFrom(Grouping(out, []), c[..n]) == Grouping(out, c[..n])
    ensures n == |c| ==> RunFrom(Grouping(out, []), c[..n]) == Grouping(out + [c], [])
  {
    var st := Grouping(out, []);
    var prefix := c[..n];
    assert prefix[..n - 1] == c[..n - 1];
    assert prefix[n - 1] == c[n - 1];
    var before := RunFrom(st, c[..n - 1]);
    assert RunFrom(st, prefix) == Step(before, c[n - 1]);
    if n > 1 {
      RunCommand(out, c, n - 1);
      assert before == Grouping(out, c[..n - 1]);
      assert before.current + [c[n - 1]] == prefix;
      assert CommandLength(prefix[0]) == |c|;
    } else {
      assert before == st;
      assert before.current + [c[0]] == prefix;
      if |c| == 1 {
        assert CommandLength(prefix[0]) <= 1;
      } else {
        assert CommandLength(prefix[0]) == |c|;
      }
    }
    if n == |c| {
      assert prefix == c;
    }
  }

  /** Regrouping the stream of well-formed commands gives back exactly those commands. */
  lemma {:induction false} GroupOfCommands(gs: seq<seq<real>>)
    requires forall g :: g in gs ==> IsCommand(g)
    ensures Group(Flatten(gs)) == Grouping(gs, [])
  {
    if gs != [] {
      var init, c := gs[..|gs| - 1], gs[|gs| - 1];
      assert Flatten(gs) == Flatten(init) + c;
      assert forall g :: g in init ==> g in gs;
      GroupOfCommands(init);
      RunAppend(Grouping([], []), Flatten(init), c);
      assert c in gs;
      RunCommand(init, c, |c|);
      assert c[..|c|] == c;
      assert init + [c] == gs;
    }
  }

  // ---------------------------------------------------------------------------
  // samplePathCommands

  /** Math.ceil(pathLength / distance): how many samples a contour gets. */
  function NumSamples(pathLength: real, distance: real): (n: nat)
    requires pathLength >= 0.0 && distance > 0.0
  {
    var n := Ceil(pathLength / distance);
    if n < 0 then 0 else n
  }

  /** The arc position of one sample, clamped to the contour's end. */
  function SampleDistance(pathLength: real, distance: real, k: int): real {
    Min(k as real * distance, pathLength)
  }

  function ContourSamples(c: Contour, distance: real): seq<Vec2>
    requires distance > 0.0
  {
    seq(NumSamples(c.length, distance), k => c.pos(SampleDistance(c.length, distance, k)))
  }

  function SampleContours(cs: seq<Contour>, distance: real): seq<Vec2>
    requires distance > 0.0
  {
    if cs == [] then []
    else SampleContours(cs[..|cs| - 1], distance) + ContourSamples(cs[|cs| - 1], distance)
  }

  /** The points samplePathCommands returns: none when the commands do not make a path. */
  function Samples(kit: Kit, commands: seq<seq<real>>, distance: real): seq<Vec2>
    requires distance > 0.0
  {
    match kit.fromCmds(Flatten(commands))
    case None => []
    case Some(g) => SampleContours(g.contours, distance)
  }

  /**
   * Samples are exactly `distance` apart, start at the contour's start and stop
   * short of its end, and there are just enough of them to cover the contour, so
   * the clamp to the contour's length never applies.
   */
  lemma SampleSpacing(pathLength: real, distance: real)
    requires pathLength >= 0.0 && distance > 0.0
    ensures pathLength == 0.0 ==> NumSamples(pathLength, distance) == 0
    ensures pathLength > 0.0 ==> pathLength <= NumSamples(pathLength, distance) as real * distance
    ensures forall k: nat :: k < NumSamples(pathLength, distance) ==>
      SampleDistance(pathLength, distance, k) == k as real * distance < pathLength
  {
    var q := pathLength / distance;
    var n := NumSamples(pathLength, distance);
    assert q * distance == pathLength;
    assert n as real - 1.0 < q <= n as real;
    forall k: nat | k < n
      ensures SampleDistance(pathLength, distance, k) == k as real * distance < pathLength
    {
      assert k as real <= n as real - 1.0;
      assert k as real < q;
      assert k as real * distance < q * distance;
    }
    if pathLength > 0.0 {
      assert q <= n as real;
      assert q * distance <= n as real * distance;
    }
  }

  /** samplePathCommands: the temporary path is released again. */
  method SamplePathCommands(kit: Kit, natives: Natives, commands: seq<seq<real>>, distance: real)
    returns (points: seq<Vec2>)
    requires natives.Valid() && distance > 0.0
    modifies natives
    ensures natives.Valid() && natives.live == old(natives.live) && old(natives.next) <= natives.next
    ensures points == Samples(kit, commands, distance)
  {
    var made := kit.fromCmds(Flatten(commands));
    if made.None? {
      return [];
    }
    var skPath := natives.Alloc(made.value);
    var cs := skPath.geom.contours;
    points := [];
    var i := 0;
    while i < |cs|
      invariant 0 <= i <= |cs|
      invariant natives.Valid() && natives.live == old(natives.live) + {skPath.handle}
      invariant points == SampleContours(cs[..i], distance)
    {
      var measure := cs[i];
      var pathLength := measure.length;
      var numSamples := NumSamples(pathLength, distance);
      ghost var before := points;
      for sample := 0 to numSamples
        invariant points == before + ContourSamples(measure, distance)[..sample]
      {
        var sampleDistance := Min(sample as real * distance, pathLength);
        assert SampleDistance(measure.length, distance, sample) == sampleDistance;
        assert ContourSamples(measure, distance)[sample] == measure.pos(sampleDistance);
        points := points + [measure.pos(sampleDistance)];
        assert ContourSamples(measure, distance)[..sample + 1]
          == ContourSamples(measure, distance)[..sample] + [measure.pos(sampleDistance)];
      }
      assert ContourSamples(measure, distance)[..numSamples] == ContourSamples(measure, distance);
      assert cs[..i + 1][..i] == cs[..i];
      i := i + 1;
    }
    assert cs[..|cs|] == cs;
    natives.Release(skPath);
  }

  // ---------------------------------------------------------------------------
  // getSkPathIntersection

  /** A distance that may still be the initial Infinity. */
  datatype Distance = Finite(value: real) | Infinity

  /** The result of getSkPathIntersection. */
  datatype PathIntersection = PathIntersection(point: Vec2, distance: Distance, contour: ContourMarker)

  /** The coarse scan's step along a contour. */
  const COARSE_STEP: int := 8

  function ScanDistance(kit: Kit, c: Contour, point: Vec2, s: real): real {
    kit.distance(c.pos(s), point)
  }

  /** The distance to the k-th coarse sample of a contour. */
  function CoarseDistance(kit: Kit, c: Contour, point: Vec2, k: int): real {
    ScanDistance(kit, c, point, (COARSE_STEP * k) as real)
  }

  /** The integers 0 .. n - 1. */
  ghost function Upto(n: int): (r: set<int>)
    ensures forall j :: j in r <==> 0 <= j < n
    decreases n
  {
    if n <= 0 then {} else Upto(n - 1) + {n - 1}
  }

  predicate AtMost(d: Distance, x: real) {
    d.Finite? && d.value <= x
  }

  predicate Beats(d: Distance, x: real) {
    d.Finite? && d.value < x
  }

  predicate Less(a: Distance, b: Distance) {
    a.Finite? && (b.Infinity? || a.value < b.value)
  }

  /** The best candidate is a point of contour `index` at arc position `len`, `d` away from `point`. */
  predicate Located(kit: Kit, cs: seq<Contour>, point: Vec2, d: Distance, best: Vec2, len: real, index: int) {
    d.Finite? && 0 <= index < |cs| && 0.0 <= len <= cs[index].length
    && best == cs[index].pos(len) && d.value == kit.distance(best, point)
  }

  /**
   * getSkPathIntersection: a coarse scan every 8 units of every contour, then a
   * binary refinement around the winner with steps 4, 2 and 1. Contours are visited
   * in order and a candidate replaces the best only when strictly closer.
   */
  method SkPathIntersection(kit: Kit, path: Geom, point: Vec2) returns (r: PathIntersection)
    ensures |path.contours| == 0 ==> r == PathIntersection(Vec2(0.0, 0.0), Infinity, ContourMarker(0.0, 0))
    ensures |path.contours| > 0 ==>
      Located(kit, path.contours, point, r.distance, r.point, r.contour.distance, r.contour.index)
    ensures forall c, k ::
              0 <= c < |path.contours| && 0 <= k && (COARSE_STEP * k) as real <= path.contours[c].length
              ==> AtMost(r.distance, CoarseDistance(kit, path.contours[c], point, k))
    ensures forall c, k ::
              0 <= c < r.contour.index && 0 <= k && (COARSE_STEP * k) as real <= path.contours[c].length
              ==> Beats(r.distance, CoarseDistance(kit, path.contours[c], point, k))
  {
    var cs := path.contours;
    var bestDistance := Infinity;
    var best := Vec2(0.0, 0.0);
    var bestLength := 0.0;
    var bestContour := 0;
    var i := 0;
    while i < |cs|
      invariant 0 <= i <= |cs|
      invariant i == 0 ==> bestDistance == Infinity && best == Vec2(0.0, 0.0) && bestLength == 0.0 && bestContour == 0
      invariant i > 0 ==> bestContour < i && Located(kit, cs, point, bestDistance, best, bestLength, bestContour)
      invariant forall c, k ::
                  0 <= c < i && 0 <= k && (COARSE_STEP * k) as real <= cs[c].length
                  ==> AtMost(bestDistance, CoarseDistance(kit, cs[c], point, k))
      invariant forall c, k ::
                  0 <= c < bestContour && 0 <= k && (COARSE_STEP * k) as real <= cs[c].length
                  ==> Beats(bestDistance, CoarseDistance(kit, cs[c], point, k))
    {
      ghost var d0 := bestDistance;
      var isClose, d, b, len;
      ghost var m;
      isClose, d, b, len, m := CoarseScan(kit, cs, i, point, bestDistance, best, bestLength, bestContour);
      if isClose {
        d, b, len := Refine(kit, cs, i, point, d, b, len, m);
        bestDistance, best, bestLength, bestContour := d, b, len, i;
      }
      assert 0 <= bestContour < i ==> bestDistance == d0;
      i := i + 1;
    }
    r := PathIntersection(best, bestDistance, ContourMarker(bestLength, bestContour));
  }

  /**
   * The coarse scan of contour `i`, every 8 units from 0 while within its length:
   * a sample replaces the best so far only when strictly closer.
   */
  method CoarseScan(kit: Kit, cs: seq<Contour>, i: nat, point: Vec2,
                    d0: Distance, best0: Vec2, length0: real, contour0: int)
    returns (isClose: bool, bestDistance: Distance, best: Vec2, bestLength: real, ghost m: int)
    requires i < |cs|
    ensures !isClose ==> d0.Finite? && bestDistance == d0 && best == best0 && bestLength == length0
    ensures isClose ==>
              Less(bestDistance, d0) && 0 <= m && bestLength == m as real
              && Located(kit, cs, point, bestDistance, best, bestLength, i)
    ensures forall j :: 0 <= j && (COARSE_STEP * j) as real <= cs[i].length ==>
              AtMost(bestDistance, CoarseDistance(kit, cs[i], point, j))
  {
    var measure := cs[i];
    var pathLength := measure.length;
    var precision := 8.0;
    isClose := false;
    bestDistance, best, bestLength, m := d0, best0, length0, 0;
    var scanLength := 0.0;
    ghost var k := 0;
    while scanLength <= pathLength
      invariant 0 <= k && scanLength == (COARSE_STEP * k) as real
      invariant 0 < k ==> (COARSE_STEP * (k - 1)) as real <= pathLength
      invariant !isClose ==> bestDistance == d0 && best == best0 && bestLength == length0
      invariant isClose ==>
                  Less(bestDistance, d0) && 0 <= m && bestLength == m as real
                  && Located(kit, cs, point, bestDistance, best, bestLength, i)
      invariant forall j :: 0 <= j < k ==> AtMost(bestDistance, CoarseDistance(kit, measure, point, j))
      decreases pathLength.Floor + COARSE_STEP - COARSE_STEP * k
    {
      var scan := measure.pos(scanLength);
      var scanDistance := kit.distance(scan, point);
      if bestDistance.Infinity? || scanDistance < bestDistance.value {
        best := scan;
        bestDistance := Finite(scanDistance);
        bestLength := scanLength;
        isClose := true;
        m := COARSE_STEP * k;
      }
      scanLength := scanLength + precision;
      k := k + 1;
    }
    assert 0 < k;
    assert AtMost(bestDistance, CoarseDistance(kit, measure, point, 0));
    forall j | 0 <= j && (COARSE_STEP * j) as real <= pathLength
      ensures AtMost(bestDistance, CoarseDistance(kit, measure, point, j))
    {
      assert j < k;
    }
  }

  /**
   * The refinement around the coarse winner at arc position `m` of contour `i`:
   * steps of 4, 2 and 1 units, moving to the neighbour before, else after, when
   * strictly closer, halving the step when neither is.
   */
  method Refine(kit: Kit, cs: seq<Contour>, i: nat, point: Vec2, d0: Distance, best0: Vec2, len0: real, ghost m0: int)
    returns (bestDistance: Distance, best: Vec2, bestLength: real)
    requires i < |cs| && 0 <= m0 && len0 == m0 as real && Located(kit, cs, point, d0, best0, len0, i)
    ensures Located(kit, cs, point, bestDistance, best, bestLength, i)
    ensures bestDistance.value <= d0.value
  {
    var measure := cs[i];
    var pathLength := measure.length;
    var precision := 4.0;
    bestDistance, best, bestLength := d0, best0, len0;
    var bestContourLength := bestLength;
    ghost var m := m0;
    ghost var step := 4;
    ghost var range := Upto(pathLength.Floor + 1);
    ghost var visited := {m};
    while precision > 0.5
      invariant (precision == 4.0 && step == 4) || (precision == 2.0 && step == 2)
        || (precision == 1.0 && step == 1) || (precision == 0.5 && step == 0)
      invariant 0 <= m && m as real <= pathLength && bestContourLength == m as real == bestLength
      invariant bestDistance.Finite? && bestDistance.value <= d0.value
      invariant Located(kit, cs, point, bestDistance, best, bestLength, i)
      invariant visited <= range && m in visited
      invariant forall j :: j in visited ==> AtMost(bestDistance, ScanDistance(kit, measure, point, j as real))
      decreases step, range - visited
    {
      var beforeLength := bestContourLength - precision;
      var afterLength := bestContourLength + precision;
      var before := measure.pos(beforeLength);
      var after := measure.pos(afterLength);
      var beforeDistance := kit.distance(before, point);
      var afterDistance := kit.distance(after, point);
      if beforeLength >= 0.0 && beforeDistance < bestDistance.value {
        best := before;
        bestContourLength := beforeLength;
        bestDistance := Finite(beforeDistance);
        bestLength := beforeLength;
        m := m - step;
        visited := visited + {m};
      } else if afterLength <= pathLength && afterDistance < bestDistance.value {
        best := after;
        bestContourLength := afterLength;
        bestDistance := Finite(afterDistance);
        bestLength := afterLength;
        m := m + step;
        visited := visited + {m};
      } else {
        precision := precision / 2.0;
        step := step / 2;
        visited := {m};
      }
    }
  }

  // ---------------------------------------------------------------------------
  // getSkPathBetween, getCommandsBetween, drawingToSkPath

  /** The part of an outline between two markers on the same existing contour. */
  function Between(kit: Kit, g: Geom, start: ContourMarker, end: ContourMarker): (r: Option<Geom>)
    ensures r.Some? <==> start.index == end.index && 0 <= start.index < |g.contours|
  {
    if start.index != end.index || !(0 <= start.index < |g.contours|) then None
    else Some(kit.segment(g.contours[start.index], Min(start.distance, end.distance), Max(start.distance, end.distance)))
  }

  /** The sub-path does not depend on which of the two markers comes first. */
  lemma BetweenSymmetric(kit: Kit, g: Geom, a: ContourMarker, b: ContourMarker)
    ensures Between(kit, g, a, b) == Between(kit, g, b, a)
  {
  }

  /** getSkPathBetween: walks the contours to the markers' index and cuts a new native path. */
  method SkPathBetween(kit: Kit, natives: Natives, path: SkPath, start: ContourMarker, end: ContourMarker)
    returns (segment: Option<SkPath>)
    requires natives.Valid()
    modifies natives
    ensures natives.Valid()
    ensures segment.Some? <==> Between(kit, path.geom, start, end).Some?
    ensures segment.None? ==> natives.live == old(natives.live) && natives.next == old(natives.next)
    ensures segment.Some? ==>
              segment.value.geom == Between(kit, path.geom, start, end).value
              && segment.value.handle == old(natives.next) && natives.next == old(natives.next) + 1
              && natives.live == old(natives.live) + {segment.value.handle}
  {
    if start.index != end.index {
      return None;
    }
    var cs := path.geom.contours;
    var i := 0;
    while i < |cs|
      invariant 0 <= i <= |cs|
      invariant start.index < 0 || i <= start.index
    {
      if i != start.index {
        i := i + 1;
      } else {
        var s := natives.Alloc(kit.segment(cs[i], Min(start.distance, end.distance), Max(start.distance, end.distance)));
        return Some(s);
      }
    }
    return None;
  }

  /** The commands of the sub-path between two markers. */
  function CommandsOfBetween(kit: Kit, g: Geom, start: ContourMarker, end: ContourMarker): Option<seq<seq<real>>> {
    match Between(kit, g, start, end)
    case None => None
    case Some(s) => Some(PathCommands(s))
  }

  /** getCommandsBetween: the temporary segment is released. */
  method CommandsBetween(kit: Kit, natives: Natives, path: SkPath, start: ContourMarker, end: ContourMarker)
    returns (commands: Option<seq<seq<real>>>)
    requires natives.Valid()
    modifies natives
    ensures natives.Valid() && natives.live == old(natives.live)
    ensures commands == CommandsOfBetween(kit, path.geom, start, end)
  {
    var segment := SkPathBetween(kit, natives, path, start, end);
    if segment.None? {
      return None;
    }
    var out := SkPathToPathCommands(segment.value.geom);
    natives.Release(segment.value);
    return Some(out);
  }

  /** The outline of a drawing; `None` for a non-drawing or commands that make no path. */
  function DrawingGeom(kit: Kit, item: Item): (r: Option<Geom>)
    ensures !IsDrawing(item) ==> r.None?
    ensures r.None? ==> !IsDrawing(item) || item.itemType.PathItem?
  {
    match item.itemType
    case ShapeItem(_) => Some(kit.shapePath(item))
    case CurveItem => Some(kit.curvePath(item))
    case PathItem(cmds) => kit.fromCmds(Flatten(cmds))
    case LineItem => Some(kit.linePath(item))
    case OtherItem => None
  }

  /** drawingToSkPath: a new native path, or none. */
  method DrawingToSkPath(kit: Kit, natives: Natives, item: Item) returns (p: Option<SkPath>)
    requires natives.Valid()
    modifies natives
    ensures natives.Valid()
    ensures p.Some? <==> DrawingGeom(kit, item).Some?
    ensures p.None? ==> natives.live == old(natives.live) && natives.next == old(natives.next)
    ensures p.Some? ==>
              p.value.geom == DrawingGeom(kit, item).value
              && p.value.handle == old(natives.next) && natives.next == old(natives.next) + 1
              && natives.live == old(natives.live) + {p.value.handle}
  {
    var g := DrawingGeom(kit, item);
    if g.None? {
      return None;
    }
    var made := natives.Alloc(g.value);
    return Some(made);
  }
}
