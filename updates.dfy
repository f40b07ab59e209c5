/**
 * The item updaters the actors stage. The source passes closures to the host;
 * here each closure is a value that records what it captured, and `Apply` is
 * what running it on a local item does. Every updater first checks the kind of
 * item it is given and leaves other kinds alone.
 */
module Updates {
  import opened Wrappers
  import opened Scene
  import opened CanvasKit
  import opened LocalItems
  import opened LightEdits

  const OPEN_COLOR := "#85ff66"
  const CLOSE_COLOR := "#ff4d4d"

  function DoorImage(open: bool): Image {
    if open then DoorOpenImage else DoorClosedImage
  }

  function DoorColor(open: bool): string {
    if open then OPEN_COLOR else CLOSE_COLOR
  }

  datatype Updater =
    // LightActor.update, the light item
    | LightConfigEdit(parent: Item, config: LightConfig)
    // LightActor.update, the visibility polygon
    | WallsEdit(parent: Item, config: LightConfig)
    // LightActor.update, the effect
    | EffectEdit(config: LightConfig)
    // WallActor.update: the wall's points become the contour
    | WallPointsEdit(points: seq<Vec2>)
    // DoorOverlayActor.update, the billboard
    | BillboardEdit(center: Vec2, index: int, open: bool)
    // DoorOverlayActor.update, the door path
    | DoorPathEdit(index: int, commands: seq<seq<real>>, open: bool, strokeWidth: real)

  predicate SameKind(a: Content, b: Content) {
    (a.LightContent? <==> b.LightContent?) && (a.CurveContent? <==> b.CurveContent?)
    && (a.EffectContent? <==> b.EffectContent?) && (a.WallContent? <==> b.WallContent?)
    && (a.BillboardContent? <==> b.BillboardContent?) && (a.PathContent? <==> b.PathContent?)
  }

  /**
   * Running one updater on a local item. `walls` is the light reactor's wall cache
   * at the moment the host runs the callback, which the polygon updater reads.
   */
  function Apply(kit: Kit, walls: seq<seq<Vec2>>, u: Updater, item: LocalItem): (r: LocalItem)
    ensures r.id == item.id && r.attachedTo == item.attachedTo && SameKind(r.content, item.content)
    ensures u.LightConfigEdit? && !item.content.LightContent? ==> r == item
    ensures u.WallsEdit? && !item.content.CurveContent? ==> r == item
    ensures u.EffectEdit? && !item.content.EffectContent? ==> r == item
    ensures u.WallPointsEdit? ==> r == if item.content.WallContent? then item.(content := WallContent(u.points)) else item
    ensures u.BillboardEdit? ==>
              && r.transform.position == u.center && r.doorIndex == Some(u.index)
              && (item.content.BillboardContent? ==> r.content == BillboardContent(DoorImage(u.open)))
              && (!item.content.BillboardContent? ==> r.content == item.content)
    ensures u.DoorPathEdit? ==>
              && r.doorIndex == Some(u.index) && r.transform == item.transform
              && (item.content.PathContent? ==>
                    r.content == PathContent(u.commands, DoorColor(u.open), u.strokeWidth))
              && (!item.content.PathContent? ==> r.content == item.content)
  {
    match u
    case LightConfigEdit(parent, config) =>
      if item.content.LightContent? then ApplyLightConfig(parent, item, config) else item
    case WallsEdit(parent, config) =>
      if item.content.CurveContent? then LightEdits.ApplyWalls(kit, walls, parent, item, config) else item
    case EffectEdit(config) =>
      if item.content.EffectContent? then ApplyEffect(item, config) else item
    case WallPointsEdit(points) =>
      if item.content.WallContent? then item.(content := WallContent(points)) else item
    case BillboardEdit(center, index, open) =>
      var moved := item.(transform := item.transform.(position := center), doorIndex := Some(index));
      if item.content.BillboardContent? then moved.(content := BillboardContent(DoorImage(open))) else moved
    case DoorPathEdit(index, commands, open, strokeWidth) =>
      var tagged := item.(doorIndex := Some(index));
      if item.content.PathContent? then tagged.(content := PathContent(commands, DoorColor(open), strokeWidth))
      else tagged
  }

  /** Running a list of updaters in order. */
  function ApplyAll(kit: Kit, walls: seq<seq<Vec2>>, us: seq<Updater>, item: LocalItem): (r: LocalItem)
    ensures r.id == item.id && SameKind(r.content, item.content)
  {
    if us == [] then item
    else Apply(kit, walls, us[|us| - 1], ApplyAll(kit, walls, us[..|us| - 1], item))
  }

  /** Running two lists one after the other is running their concatenation. */
  lemma {:induction false} ApplyAllAppend(kit: Kit, walls: seq<seq<Vec2>>, a: seq<Updater>, b: seq<Updater>,
                                          item: LocalItem)
    ensures ApplyAll(kit, walls, a + b, item) == ApplyAll(kit, walls, b, ApplyAll(kit, walls, a, item))
  {
    if b == [] {
      assert a + b == a;
    } else {
      assert (a + b)[..|a + b| - 1] == a + b[..|b| - 1];
      ApplyAllAppend(kit, walls, a, b[..|b| - 1], item);
    }
  }
}
