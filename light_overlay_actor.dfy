/**
 * LightOverlayActor (src/background/reconcile/actors/LightOverlayActor.ts): one
 * billboard marking a light, attached to its parent for the actor's lifetime.
 */
module LightOverlayActors {
  import opened Wrappers
  import opened Scene
  import opened LocalItems
  import opened Patching

  function LightBillboard(id: LocalId, parent: Item): (r: LocalItem)
    ensures r.id == id && r.attachedTo == ToItem(parent.id)
    ensures r.transform.position == parent.transform.position && r.content == BillboardContent(LightBillboardImage)
  {
    LocalItem(id, ToItem(parent.id), Identity(parent.transform.position), true, None, BillboardContent(LightBillboardImage))
  }

  class LightOverlayActor {
    /** The billboard's id, fixed for the actor's whole lifetime. */
    const billboard: LocalId

    /** Stages exactly one billboard addition. */
    constructor (ids: IdSource, patcher: Patcher, parent: Item)
      requires patcher.Valid()
      modifies ids, patcher
      ensures billboard == old(ids.next) && ids.next == old(ids.next) + 1
      ensures patcher.Valid() && patcher.State() == old(patcher.State()).Add([LightBillboard(billboard, parent)])
      ensures patcher.ready == old(patcher.ready) && patcher.sent == old(patcher.sent)
    {
      var id := ids.Fresh();
      billboard := id;
      new;
      patcher.AddItems([LightBillboard(id, parent)]);
    }

    /** Stages deletion of the billboard. */
    method Delete(patcher: Patcher)
      requires patcher.Valid()
      modifies patcher
      ensures patcher.Valid() && patcher.State() == old(patcher.State()).Delete([billboard])
      ensures patcher.ready == old(patcher.ready) && patcher.sent == old(patcher.sent)
    {
      patcher.DeleteItems([billboard]);
    }
  }
}
