/**
 * SelfLightActor (src/background/reconcile/actors/SelfLightActor.ts): one local
 * light with fixed settings, attached to its parent.
 */
module SelfLightActors {
  import opened Wrappers
  import opened Scene
  import opened LocalItems
  import opened Patching

  /**
   * The self light: at the parent's position and rotation with the builder's
   * default scale, as visible as the parent, with fixed attenuation radius 75,
   * falloff 2 and source radius 0.
   */
  function SelfLight(id: LocalId, parent: Item): (r: LocalItem)
    ensures r.id == id && r.attachedTo == ToItem(parent.id) && r.visible == parent.visible
    ensures r.transform.position == parent.transform.position && r.transform.rotation == parent.transform.rotation
    ensures r.transform.scale == Vec2(1.0, 1.0)
    ensures r.content.LightContent?
  {
    LocalItem(id, ToItem(parent.id), parent.transform.(scale := Vec2(1.0, 1.0)), parent.visible, None,
              LightContent(LightFields(Some(75.0), Some(0.0), Some(2.0), None, None, None)))
  }

  /** The self light does not depend on the parent's light config. */
  lemma SelfLightIgnoresConfig(id: LocalId, parent: Item, config: Option<LightConfig>)
    ensures SelfLight(id, parent.(light := config)) == SelfLight(id, parent)
    ensures var f := SelfLight(id, parent).content.light;
      f.attenuationRadius == Some(75.0) && f.falloff == Some(2.0) && f.sourceRadius == Some(0.0)
  {
  }

  class SelfLightActor {
    const light: LocalId

    /** Stages exactly one light addition and keeps its id. */
    constructor (ids: IdSource, patcher: Patcher, parent: Item)
      requires patcher.Valid()
      modifies ids, patcher
      ensures light == old(ids.next) && ids.next == old(ids.next) + 1
      ensures patcher.Valid() && patcher.State() == old(patcher.State()).Add([SelfLight(light, parent)])
      ensures patcher.ready == old(patcher.ready) && patcher.sent == old(patcher.sent)
    {
      var id := ids.Fresh();
      light := id;
      new;
      patcher.AddItems([SelfLight(id, parent)]);
    }

    /** Stages deletion of the one light. */
    method Delete(patcher: Patcher)
      requires patcher.Valid()
      modifies patcher
      ensures patcher.Valid() && patcher.State() == old(patcher.State()).Delete([light])
      ensures patcher.ready == old(patcher.ready) && patcher.sent == old(patcher.sent)
    {
      patcher.DeleteItems([light]);
    }
  }
}
