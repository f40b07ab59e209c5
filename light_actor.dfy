/**
 * LightActor (src/background/reconcile/actors/LightActor.ts): a light, its
 * visibility polygon and the effect drawn on the polygon, kept in step with the
 * parent's light config.
 */
module LightActors {
  import opened Wrappers
  import opened Scene
  import opened CanvasKit
  import opened LocalItems
  import opened LightEdits
  import opened Updates
  import opened Patching

  const BLACK := Vec3(0.0, 0.0, 0.0)

  /** The three items of parentToLocalItems, built from consecutive ids and configured eagerly. */
  function LightItems(kit: Kit, walls: seq<seq<Vec2>>, parent: Item, first: LocalId): (r: seq<LocalItem>)
    ensures |r| == 3 && r[0].id == first && r[1].id == first + 1 && r[2].id == first + 2
    ensures r[0].content.LightContent? && r[1].content.CurveContent? && r[2].content.EffectContent?
    ensures r[0].attachedTo == ToItem(parent.id) && r[1].attachedTo == ToItem(parent.id)
    ensures r[2].attachedTo == ToLocal(first + 1)
  {
    var config := ConfigOf(parent);
    var light := LocalItem(first, ToItem(parent.id), parent.transform.(scale := Vec2(1.0, 1.0)), parent.visible, None,
                           LightContent(LightFields(None, None, None, None, None, None)));
    var polygon := LocalItem(first + 1, ToItem(parent.id), Identity(parent.transform.position), true, None,
                             CurveContent([]));
    var color := match ConfigColor(config) case Some(rgb) => rgb case None => BLACK;
    var effect := LocalItem(first + 2, ToLocal(first + 1), Identity(Vec2(0.0, 0.0)), true, None,
                            EffectContent([Uniform(RADIUS_UNIFORM, Scalar(RadiusOf(config))),
                                           Uniform(COLOR_UNIFORM, Color(color))]));
    [ApplyLightConfig(parent, light, config),
     LightEdits.ApplyWalls(kit, walls, parent, polygon, config),
     ApplyEffect(effect, config)]
  }

  /**
   * At creation the effect's radius uniform is the attenuation radius (150 by
   * default) and its colour uniform is the parsed config colour, or black when
   * the colour is missing, empty or does not parse.
   */
  lemma CreatedEffect(kit: Kit, walls: seq<seq<Vec2>>, parent: Item, first: LocalId)
    ensures var us := LightItems(kit, walls, parent, first)[2].content.uniforms;
      var config := ConfigOf(parent);
      && |us| == 2
      && us[0] == Uniform(RADIUS_UNIFORM, Scalar(if config.attenuationRadius.Some? then config.attenuationRadius.value
                                                 else 150.0))
      && us[1] == Uniform(COLOR_UNIFORM, Color(if ConfigColor(config).Some? then ConfigColor(config).value else BLACK))
  {
    var config := ConfigOf(parent);
    var color := match ConfigColor(config) case Some(rgb) => rgb case None => BLACK;
    var us := [Uniform(RADIUS_UNIFORM, Scalar(RadiusOf(config))), Uniform(COLOR_UNIFORM, Color(color))];
    assert FindUniform(us, COLOR_UNIFORM) == Some(1);
    assert FindUniform(us, RADIUS_UNIFORM) == Some(0);
  }

  /** The updaters update stages: one per item, each carrying the parent and its config. */
  function LightEditsFor(light: LocalId, polygon: LocalId, effect: LocalId, parent: Item): (r: seq<Staged>)
    ensures |r| == 3 && r[0].id == light && r[1].id == polygon && r[2].id == effect
  {
    var config := ConfigOf(parent);
    [Staged(light, LightConfigEdit(parent, config)), Staged(polygon, WallsEdit(parent, config)),
     Staged(effect, EffectEdit(config))]
  }

  class LightActor {
    var light: LocalId
    var polygon: LocalId
    var effect: LocalId

    /**
     * Stages exactly the three items and keeps their ids. `walls` is the light
     * reactor's wall cache, which the polygon is built against.
     */
    constructor (kit: Kit, ids: IdSource, patcher: Patcher, walls: seq<seq<Vec2>>, parent: Item)
      requires patcher.Valid()
      modifies ids, patcher
      ensures light == old(ids.next) && polygon == light + 1 && effect == light + 2 && ids.next == old(ids.next) + 3
      ensures patcher.Valid() && patcher.State() == old(patcher.State()).Add(LightItems(kit, walls, parent, light))
      ensures patcher.ready == old(patcher.ready) && patcher.sent == old(patcher.sent)
    {
      var l := ids.Fresh();
      var p := ids.Fresh();
      var e := ids.Fresh();
      light, polygon, effect := l, p, e;
      new;
      patcher.AddItems(LightItems(kit, walls, parent, l));
    }

    /** Stages deletion of exactly the three ids. */
    method Delete(patcher: Patcher)
      requires patcher.Valid()
      modifies patcher
      ensures patcher.Valid() && patcher.State() == old(patcher.State()).Delete([light, polygon, effect])
      ensures patcher.ready == old(patcher.ready) && patcher.sent == old(patcher.sent)
    {
      patcher.DeleteItems([light, polygon, effect]);
    }

    /** Stages exactly one updater for each of the three ids. */
    method Update(patcher: Patcher, parent: Item)
      requires patcher.Valid()
      modifies patcher
      ensures patcher.Valid()
      ensures patcher.State() == old(patcher.State()).Update(LightEditsFor(light, polygon, effect, parent))
      ensures patcher.ready == old(patcher.ready) && patcher.sent == old(patcher.sent)
    {
      patcher.UpdateItems(LightEditsFor(light, polygon, effect, parent));
    }
  }
}
