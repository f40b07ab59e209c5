/**
 * The authoritative scene as the reconciliation engine reads it: items owned by the
 * host, the persisted door and light metadata, and the drawing type tags
 * (src/types/Drawing.ts, src/types/Door.ts, src/types/LightConfig.ts).
 */
module Scene {
  import opened Wrappers

  type ItemId = string

  datatype Vec2 = Vec2(x: real, y: real)

  datatype Vec3 = Vec3(x: real, y: real, z: real)

  /** An item's transform; the foreign SDK turns it into a matrix. */
  datatype Transform = Transform(position: Vec2, rotation: real, scale: Vec2)

  /** The `index`-th contour of an outline, `distance` units along its arc length. */
  datatype ContourMarker = ContourMarker(distance: real, index: int)

  /** One persisted door: insertion order in the item's list is its door index. */
  datatype Door = Door(open: bool, start: ContourMarker, end: ContourMarker)

  datatype LightType = Primary | Secondary

  datatype Role = GM | PlayerRole

  /** The persisted light configuration; every field is optional. */
  datatype LightConfig = LightConfig(
    attenuationRadius: Option<real>,
    sourceRadius: Option<real>,
    falloff: Option<real>,
    innerAngle: Option<real>,
    outerAngle: Option<real>,
    lightType: Option<LightType>,
    rotation: Option<real>,
    color: Option<string>,
    onlyVisibleToOwner: Option<bool>)

  /** `new Date(item.lastModified).valueOf()`: milliseconds, or NaN for a string that does not parse. */
  datatype Instant = At(ms: int) | NaN

  datatype ShapeType = Rectangle | Circle | Triangle | Hexagon

  /** The type tag of an item; the first four are the drawings. */
  datatype ItemType =
    | ShapeItem(shapeType: ShapeType)
    | CurveItem
    | PathItem(commands: seq<seq<real>>)
    | LineItem
    | OtherItem

  /** What is stored under the doors key of an item's metadata. */
  datatype DoorsMeta = NoDoors | DoorArray(doors: seq<Door>) | NotAnArray

  /** An authoritative item of one host snapshot. */
  datatype Item = Item(
    id: ItemId,
    lastModified: Instant,
    layer: string,
    itemType: ItemType,
    doors: DoorsMeta,
    light: Option<LightConfig>,
    createdUserId: string,
    transform: Transform,
    visible: bool,
    strokeWidth: real)

  const FOG := "FOG"

  /** isDrawing: shapes, paths, curves and lines. */
  predicate IsDrawing(item: Item) {
    !item.itemType.OtherItem?
  }

  /** getMetadata(item.metadata, doors key, []): the stored list, or the empty fallback. */
  function DoorList(item: Item): seq<Door> {
    if item.doors.DoorArray? then item.doors.doors else []
  }

  /** The light configuration under the light key, or the empty config when the key is absent. */
  function ConfigOf(item: Item): LightConfig {
    if item.light.Some? then item.light.value
    else LightConfig(None, None, None, None, None, None, None, None, None)
  }

  /** JavaScript truthiness of an optional boolean. */
  predicate Truthy(b: Option<bool>) {
    b == Some(true)
  }

  /** The persisted ids of a snapshot are unique. */
  predicate UniqueIds(items: seq<Item>) {
    forall i, j :: 0 <= i < j < |items| ==> items[i].id != items[j].id
  }

  function Ids(items: seq<Item>): (r: set<ItemId>)
    ensures forall i :: 0 <= i < |items| ==> items[i].id in r
    ensures forall id :: id in r ==> exists i :: 0 <= i < |items| && items[i].id == id
  {
    set i | 0 <= i < |items| :: items[i].id
  }
}
