/**
 * The reactor variants' filters and diffs (src/background/reconcile/reactors/),
 * as pure functions of a reactor's view: its kind and the state its filter and
 * diff read.
 */
module ReactorFilters {
  import opened Wrappers
  import opened Scene

  datatype Kind = DoorKind | WallKind | LightKind | SelfLightKind | LightOverlayKind | DoorOverlayKind

  /**
   * What a reactor's filter and diff depend on: the light reactor's player and
   * walls flag, and for a wall reactor the didUpdate flag of its door reactor.
   */
  datatype View = View(kind: Kind, role: Role, playerId: string, wallsDirty: bool, doorDidUpdate: bool)

  /** DoorReactor, WallReactor and DoorOverlayReactor: drawings on the fog layer. */
  predicate FogDrawing(item: Item) {
    item.layer == FOG && IsDrawing(item)
  }

  /** LightReactor: a light the player may see. */
  predicate LightVisible(role: Role, playerId: string, item: Item) {
    item.light.Some?
    && (role == GM || !Truthy(ConfigOf(item).onlyVisibleToOwner) || item.createdUserId == playerId)
  }

  /** SelfLightReactor: an angled primary light. */
  predicate SelfLit(item: Item) {
    if item.light.None? then false
    else
      var config := ConfigOf(item);
      config.outerAngle.Some? && config.outerAngle.value != 360.0
      && (config.lightType == Some(Primary) || config.lightType.None?)
  }

  /** LightOverlayReactor: any item with a light config. */
  predicate HasLight(item: Item) {
    item.light.Some?
  }

  predicate Matches(v: View, item: Item) {
    match v.kind
    case DoorKind => FogDrawing(item)
    case WallKind => FogDrawing(item)
    case DoorOverlayKind => FogDrawing(item)
    case LightKind => LightVisible(v.role, v.playerId, item)
    case SelfLightKind => SelfLit(item)
    case LightOverlayKind => HasLight(item)
  }

  /**
   * Reactor.diff: the parsed lastModified values differ. NaN is unequal to
   * everything, itself included, so an unparseable date always counts as changed.
   */
  predicate DefaultDiff(a: Item, b: Item) {
    match (a.lastModified, b.lastModified)
    case (At(x), At(y)) => x != y
    case _ => true
  }

  /** The diff of each variant: walls also follow any door change, lights the walls flag. */
  predicate DiffOf(v: View, a: Item, b: Item) {
    match v.kind
    case WallKind => DefaultDiff(a, b) || v.doorDidUpdate
    case LightKind => v.wallsDirty || DefaultDiff(a, b)
    case _ => DefaultDiff(a, b)
  }

  /** Door, wall and door-overlay reactors watch the same items, whatever the rest of the view. */
  lemma DrawingReactorsAgree(v: View, w: View, item: Item)
    requires v.kind in {DoorKind, WallKind, DoorOverlayKind} && w.kind in {DoorKind, WallKind, DoorOverlayKind}
    ensures Matches(v, item) <==> Matches(w, item)
    ensures Matches(v, item) <==> item.layer == FOG && !item.itemType.OtherItem?
  {
  }

  /** The light filter: the light key, and a GM, a light not owner-only, or the owner. */
  lemma LightFilterCases(v: View, item: Item)
    requires v.kind == LightKind
    ensures !HasLight(item) ==> !Matches(v, item)
    ensures HasLight(item) && v.role == GM ==> Matches(v, item)
    ensures HasLight(item) && item.light.value.onlyVisibleToOwner != Some(true) ==> Matches(v, item)
    ensures HasLight(item) && item.createdUserId == v.playerId ==> Matches(v, item)
    ensures (HasLight(item) && v.role != GM && item.light.value.onlyVisibleToOwner == Some(true)
             && item.createdUserId != v.playerId) ==> !Matches(v, item)
  {
  }

  /** The self-light filter rejects full-circle, unangled and secondary lights, and accepts the rest. */
  lemma SelfLightCases(item: Item)
    ensures item.light.None? ==> !SelfLit(item)
    ensures item.light.Some? && item.light.value.outerAngle in {None, Some(360.0)} ==> !SelfLit(item)
    ensures item.light.Some? && item.light.value.lightType == Some(Secondary) ==> !SelfLit(item)
    ensures (item.light.Some? && item.light.value.outerAngle.Some? && item.light.value.outerAngle.value != 360.0
             && item.light.value.lightType != Some(Secondary)) ==> SelfLit(item)
  {
    if item.light.Some? && item.light.value.lightType.Some? {
      assert item.light.value.lightType.value == Primary || item.light.value.lightType.value == Secondary;
    }
  }

  /** The light overlay shows every light, even owner-only ones a player may not see lit. */
  lemma OverlayIgnoresOwner(v: View, w: View, item: Item)
    requires v.kind == LightOverlayKind && w.kind == LightKind && Matches(w, item)
    ensures Matches(v, item)
  {
  }

  /** The default diff on parsed dates: changed exactly when they differ; NaN is always changed. */
  lemma DefaultDiffCases(a: Item, b: Item)
    ensures a.lastModified.At? && b.lastModified.At? ==> (DefaultDiff(a, b) <==> a.lastModified.ms != b.lastModified.ms)
    ensures a.lastModified.NaN? || b.lastModified.NaN? ==> DefaultDiff(a, b)
    ensures a.lastModified.NaN? ==> DefaultDiff(a, a)
  {
  }

  /** A wall reactor whose door reactor changed counts every wall as changed. */
  lemma WallFollowsDoors(v: View, a: Item, b: Item)
    requires v.kind == WallKind && v.doorDidUpdate
    ensures DiffOf(v, a, b)
  {
  }
}
