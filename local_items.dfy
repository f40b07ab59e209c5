/**
 * The items the engine creates in the host's local (per-client) scene: walls,
 * lights, visibility polygons, shader effects, door billboards and door paths.
 * The host assigns nothing: each builder call is a fresh id from `IdSource`.
 */
module LocalItems {
  import opened Wrappers
  import opened Scene

  type LocalId = nat

  /** A source of fresh local item ids (the item builders' generated ids). */
  class IdSource {
    var next: LocalId

    constructor ()
      ensures next == 0
    {
      next := 0;
    }

    method Fresh() returns (id: LocalId)
      modifies this
      ensures id == old(next) && next == old(next) + 1
    {
      id := next;
      next := next + 1;
    }
  }

  datatype Attachment = ToItem(item: ItemId) | ToLocal(local: LocalId)

  datatype UniformValue = Scalar(r: real) | Color(c: Vec3)

  datatype Uniform = Uniform(name: string, value: UniformValue)

  datatype Image = DoorOpenImage | DoorClosedImage | LightBillboardImage

  /** The fields of a local light; `None` keeps the builder's default. */
  datatype LightFields = LightFields(
    attenuationRadius: Option<real>,
    sourceRadius: Option<real>,
    falloff: Option<real>,
    innerAngle: Option<real>,
    outerAngle: Option<real>,
    lightType: Option<LightType>)

  datatype Content =
    | LightContent(light: LightFields)
    | CurveContent(points: seq<Vec2>)
    | EffectContent(uniforms: seq<Uniform>)
    | WallContent(wallPoints: seq<Vec2>)
    | BillboardContent(image: Image)
    | PathContent(commands: seq<seq<real>>, strokeColor: string, strokeWidth: real)

  /** A local item; `doorIndex` is the door-index metadata of the door overlays. */
  datatype LocalItem = LocalItem(
    id: LocalId,
    attachedTo: Attachment,
    transform: Transform,
    visible: bool,
    doorIndex: Option<int>,
    content: Content)

  function Identity(position: Vec2): Transform {
    Transform(position, 0.0, Vec2(1.0, 1.0))
  }

  function LocalIds(items: seq<LocalItem>): (r: seq<LocalId>)
    ensures |r| == |items| && forall i :: 0 <= i < |items| ==> r[i] == items[i].id
  {
    seq(|items|, i requires 0 <= i < |items| => items[i].id)
  }
}
