/** The scene document hook: a change of the scene's global-light maximum darkness is
    copied to every outdoor light when the scene is in manual global light mode. */
module SceneDocumentHook {
  import opened Documents

  /** The payload sent to each outdoor light: `config.darkness.max` and nothing else. */
  function DarknessMaxPayload(max: real): (u: LightUpdate)
    ensures u.config.Some? && u.config.value.darkness == Some(DarknessUpdate(Some(max)))
  {
    EmptyUpdate.(config := Some(EmptyConfigUpdate.(darkness := Some(DarknessUpdate(Some(max))))))
  }

  /** Merging that payload changes a light's maximum darkness and nothing else. */
  lemma DarknessMaxPayloadOnly(d: AmbientLightDoc, max: real)
    ensures ApplyUpdate(d, DarknessMaxPayload(max)) == d.(config := d.config.(darknessMax := max))
  {
  }

  /** `updateScene`: without a changed maximum darkness, or outside manual global
      light mode, no light is updated. Otherwise every outdoor light, and no other, is
      sent the payload holding the changed value. Returns the payload issued per
      light id. */
  method UpdateScene(scene: Scene, change: SceneChange) returns (issued: map<string, LightUpdate>)
    modifies scene
    ensures change.darknessMax.None? || scene.flags.outdoorLightMode != Some(ManualGlobalLight) ==>
      issued == map[] && scene.lights == old(scene.lights)
    ensures change.darknessMax.Some? && scene.flags.outdoorLightMode == Some(ManualGlobalLight) ==>
      && issued.Keys == OutdoorIds(old(scene.lights))
      && (forall id :: id in issued ==> issued[id] == DarknessMaxPayload(change.darknessMax.value))
    ensures scene.lights == UpdatedLights(old(scene.lights), issued)
  {
    issued := map[];
    var maxDarkness := change.darknessMax;
    if maxDarkness.None? {
      assert scene.lights == UpdatedLights(scene.lights, issued);
      return;
    }

    if scene.flags.outdoorLightMode != Some(ManualGlobalLight) {
      assert scene.lights == UpdatedLights(scene.lights, issued);
      return;
    }

    var lights := scene.lights;
    var remaining := lights.Keys;
    while remaining != {}
      invariant remaining <= lights.Keys
      invariant forall id :: id in issued <==> id in lights && id !in remaining && lights[id].isOutdoor
      invariant forall id :: id in issued ==> issued[id] == DarknessMaxPayload(maxDarkness.value)
      invariant scene.lights.Keys == lights.Keys
      invariant forall id :: id in lights ==>
        scene.lights[id] == if id in issued then ApplyUpdate(lights[id], issued[id]) else lights[id]
      decreases remaining
    {
      var id :| id in remaining;
      remaining := remaining - {id};
      var light := lights[id];
      if !light.isOutdoor {
        continue;
      }
      var payload := DarknessMaxPayload(maxDarkness.value);
      issued := issued[id := payload];
      scene.lights := scene.lights[id := ApplyUpdate(light, payload)];
    }
    assert scene.lights == UpdatedLights(lights, issued);
  }
}
