/** The scene extension: the scene's outdoor-light flag fields and their defaults, the
    update-data proxy that records only the light fields that differ from the
    document, and the scene-update fan-out to outdoor lights. */
module SceneExt {
  import opened Documents
  import opened ApplyDefaultOutdoorLightSettings

  // ---------------------------------------------------------------------------
  // Flag fields

  /** The options of a string choice field of the host's data model. */
  datatype StringFieldOptions<T> = StringFieldOptions(
    choices: seq<T>,
    nullable: bool,
    required: bool,
    initial: Option<T>)

  /** OutdoorLightModesField.Options: both modes, nullable, initially null. */
  const OutdoorLightModesFieldOptions: StringFieldOptions<OutdoorLightMode> :=
    StringFieldOptions([ManualGlobalLight, GlobalDarkness], true, false, None)

  /** OutdoorLightStatusField.Options: the three statuses, required, initially bright. */
  const OutdoorLightStatusFieldOptions: StringFieldOptions<OutdoorLightStatus> :=
    StringFieldOptions([Bright, Dim, Off], false, true, Some(Bright))

  /** The value a field of the data model takes: the stored value, or the field's
      initial value when nothing is stored. */
  function InitialOr<T>(options: StringFieldOptions<T>, stored: Option<T>): (r: Option<T>)
    ensures stored.Some? ==> r == stored
    ensures stored.None? ==> r == options.initial
  {
    if stored.Some? then stored else options.initial
  }

  /** The module's flags as stored on a scene, each None when absent. */
  datatype StoredSceneFlags = StoredSceneFlags(
    outdoorLightMode: Option<OutdoorLightMode>,
    outdoorLightStatus: Option<OutdoorLightStatus>)

  /** What OutdoorSceneFlagsDataModel reads from the stored flags. */
  function SceneFlagsOf(stored: StoredSceneFlags): (f: SceneFlags)
    ensures f.outdoorLightMode == stored.outdoorLightMode
    ensures f.outdoorLightStatus == (if stored.outdoorLightStatus.Some? then stored.outdoorLightStatus.value else Bright)
  {
    var status := InitialOr(OutdoorLightStatusFieldOptions, stored.outdoorLightStatus);
    SceneFlags(
      InitialOr(OutdoorLightModesFieldOptions, stored.outdoorLightMode),
      if status.Some? then status.value else Bright)
  }

  /** Every mode and status is a choice of its field; the mode may be null and starts
      null, the status is required and starts bright, so a scene without the flags has
      no mode and a bright status. */
  lemma FieldDefaults()
    ensures forall m: OutdoorLightMode :: m in OutdoorLightModesFieldOptions.choices
    ensures forall s: OutdoorLightStatus :: s in OutdoorLightStatusFieldOptions.choices
    ensures OutdoorLightModesFieldOptions.nullable && OutdoorLightModesFieldOptions.initial.None?
    ensures OutdoorLightStatusFieldOptions.required && OutdoorLightStatusFieldOptions.initial == Some(Bright)
    ensures SceneFlagsOf(StoredSceneFlags(None, None)) == SceneFlags(None, Bright)
  {
    forall m: OutdoorLightMode ensures m in OutdoorLightModesFieldOptions.choices {
      if m == ManualGlobalLight { assert OutdoorLightModesFieldOptions.choices[0] == m; }
      else { assert OutdoorLightModesFieldOptions.choices[1] == m; }
    }
    forall s: OutdoorLightStatus ensures s in OutdoorLightStatusFieldOptions.choices {
      if s == Bright { assert OutdoorLightStatusFieldOptions.choices[0] == s; }
      else if s == Dim { assert OutdoorLightStatusFieldOptions.choices[1] == s; }
      else { assert OutdoorLightStatusFieldOptions.choices[2] == s; }
    }
  }

  // ---------------------------------------------------------------------------
  // The update-data proxy

  /** The light fields a setter writes. */
  datatype FieldKey = BrightKey | DimKey | HiddenKey | LuminosityKey | DarknessMaxKey | AttenuationKey

  datatype FieldValue = Num(r: real) | Flag(b: bool)

  function KeyOf(c: SetterCall): FieldKey
  {
    match c
    case SetBright(_) => BrightKey
    case SetDim(_) => DimKey
    case SetHidden(_) => HiddenKey
    case SetLuminosity(_) => LuminosityKey
    case SetDarknessMax(_) => DarknessMaxKey
    case SetAttenuation(_) => AttenuationKey
  }

  function ValueOf(c: SetterCall): FieldValue
  {
    match c
    case SetHidden(h) => Flag(h)
    case SetBright(v) => Num(v)
    case SetDim(v) => Num(v)
    case SetLuminosity(v) => Num(v)
    case SetDarknessMax(v) => Num(v)
    case SetAttenuation(v) => Num(v)
  }

  /** The document's current value of a field. */
  function DocValue(doc: AmbientLightDoc, k: FieldKey): FieldValue
  {
    match k
    case BrightKey => Num(doc.config.bright)
    case DimKey => Num(doc.config.dim)
    case HiddenKey => Flag(doc.hidden)
    case LuminosityKey => Num(doc.config.luminosity)
    case DarknessMaxKey => Num(doc.config.darknessMax)
    case AttenuationKey => Num(doc.config.attenuation)
  }

  /** The value a payload holds for a field, None when the key is absent. */
  function Lookup(data: LightUpdate, k: FieldKey): Option<FieldValue>
  {
    var c := data.config.GetOr(EmptyConfigUpdate);
    match k
    case HiddenKey => if data.hidden.Some? then Some(Flag(data.hidden.value)) else None
    case BrightKey => if c.bright.Some? then Some(Num(c.bright.value)) else None
    case DimKey => if c.dim.Some? then Some(Num(c.dim.value)) else None
    case LuminosityKey => if c.luminosity.Some? then Some(Num(c.luminosity.value)) else None
    case AttenuationKey => if c.attenuation.Some? then Some(Num(c.attenuation.value)) else None
    case DarknessMaxKey =>
      var dk := c.darkness.GetOr(DarknessUpdate(None));
      if dk.max.Some? then Some(Num(dk.max.value)) else None
  }

  /** The payload after a setter writes its key; `config` and `config.darkness` are
      created when missing. */
  function Write(data: LightUpdate, call: SetterCall): LightUpdate
  {
    var c := data.config.GetOr(EmptyConfigUpdate);
    match call
    case SetHidden(h) => data.(hidden := Some(h))
    case SetBright(v) => data.(config := Some(c.(bright := Some(v))))
    case SetDim(v) => data.(config := Some(c.(dim := Some(v))))
    case SetLuminosity(v) => data.(config := Some(c.(luminosity := Some(v))))
    case SetAttenuation(v) => data.(config := Some(c.(attenuation := Some(v))))
    case SetDarknessMax(v) =>
      var dk := c.darkness.GetOr(DarknessUpdate(None));
      data.(config := Some(c.(darkness := Some(dk.(max := Some(v))))))
  }

  /** One setter of the proxy: nothing is recorded when the value equals the
      document's current value. */
  function Record(doc: AmbientLightDoc, data: LightUpdate, call: SetterCall): LightUpdate
  {
    if DocValue(doc, KeyOf(call)) == ValueOf(call) then data else Write(data, call)
  }

  /** A setter records its own key (when the value differs from the document), keeps
      every other key and every other part of the payload, and creates `config`, or
      `config.darkness`, only when it records a key that lives there. */
  lemma RecordKeys(doc: AmbientLightDoc, data: LightUpdate, call: SetterCall)
    ensures var r := Record(doc, data, call);
      && Lookup(r, KeyOf(call)) ==
           (if DocValue(doc, KeyOf(call)) == ValueOf(call) then Lookup(data, KeyOf(call)) else Some(ValueOf(call)))
      && (forall k :: k != KeyOf(call) ==> Lookup(r, k) == Lookup(data, k))
      && r.x == data.x && r.y == data.y && r.rotation == data.rotation && r.emissionWallId == data.emissionWallId
      && r.config.GetOr(EmptyConfigUpdate).angle == data.config.GetOr(EmptyConfigUpdate).angle
      && (r.config.Some? <==>
            data.config.Some? || (KeyOf(call) != HiddenKey && DocValue(doc, KeyOf(call)) != ValueOf(call)))
      && (r.config.Some? && r.config.value.darkness.Some? <==>
            (data.config.Some? && data.config.value.darkness.Some?) ||
            (KeyOf(call) == DarknessMaxKey && DocValue(doc, KeyOf(call)) != ValueOf(call)))
  {
  }

  /** Calling a setter twice with the same value records what calling it once does. */
  lemma RecordIdempotent(doc: AmbientLightDoc, data: LightUpdate, call: SetterCall)
    ensures Record(doc, Record(doc, data, call), call) == Record(doc, data, call)
  {
  }

  /** Setters of different fields may be called in either order. */
  lemma RecordCommutes(doc: AmbientLightDoc, data: LightUpdate, c1: SetterCall, c2: SetterCall)
    requires KeyOf(c1) != KeyOf(c2)
    ensures Record(doc, Record(doc, data, c1), c2) == Record(doc, Record(doc, data, c2), c1)
  {
  }

  /** A series of setter calls on the proxy, first to last. */
  function RecordAll(doc: AmbientLightDoc, data: LightUpdate, calls: seq<SetterCall>): LightUpdate
    decreases |calls|
  {
    if calls == [] then data else RecordAll(doc, Record(doc, data, calls[0]), calls[1..])
  }

  lemma {:induction false} RecordAllAppend(doc: AmbientLightDoc, data: LightUpdate, a: seq<SetterCall>, b: seq<SetterCall>)
    ensures RecordAll(doc, data, a + b) == RecordAll(doc, RecordAll(doc, data, a), b)
    decreases |a|
  {
    if a == [] {
      assert a + b == b;
    } else {
      assert (a + b)[1..] == a[1..] + b;
      RecordAllAppend(doc, Record(doc, data, a[0]), a[1..], b);
    }
  }

  /** The light fields of a document, as a light accessor holds them. */
  function FieldsOf(doc: AmbientLightDoc): LightFields
  {
    LightFields(doc.config.bright, doc.config.dim, doc.hidden, doc.config.luminosity,
                doc.config.darknessMax, doc.config.attenuation)
  }

  /** Each field is set at most once in the series. */
  predicate DistinctKeys(calls: seq<SetterCall>)
  {
    forall i, j :: 0 <= i < j < |calls| ==> KeyOf(calls[i]) != KeyOf(calls[j])
  }

  lemma MergeWrite(doc: AmbientLightDoc, data: LightUpdate, call: SetterCall)
    ensures FieldsOf(ApplyUpdate(doc, Write(data, call))) == Set(FieldsOf(ApplyUpdate(doc, data)), call)
  {
  }

  /** When no field is set twice, merging the recorded payload into the document gives
      the fields a field-backed accessor ends with after the same calls: recording
      only the differences loses nothing. */
  lemma {:induction false} RecordAllMatchesReplay(doc: AmbientLightDoc, data: LightUpdate, calls: seq<SetterCall>)
    requires DistinctKeys(calls)
    requires forall i :: 0 <= i < |calls| ==> Lookup(data, KeyOf(calls[i])).None?
    ensures FieldsOf(ApplyUpdate(doc, RecordAll(doc, data, calls))) == Replay(FieldsOf(ApplyUpdate(doc, data)), calls)
    decreases |calls|
  {
    if calls != [] {
      var c := calls[0];
      var data' := Record(doc, data, c);
      RecordKeys(doc, data, c);
      if DocValue(doc, KeyOf(c)) == ValueOf(c) {
        assert Lookup(data, KeyOf(c)).None?;
        assert Set(FieldsOf(ApplyUpdate(doc, data)), c) == FieldsOf(ApplyUpdate(doc, data));
      } else {
        MergeWrite(doc, data, c);
      }
      forall i | 0 <= i < |calls[1..]| ensures Lookup(data', KeyOf(calls[1..][i])).None? {
        assert calls[1..][i] == calls[i + 1];
        assert KeyOf(calls[0]) != KeyOf(calls[i + 1]);
      }
      RecordAllMatchesReplay(doc, data', calls[1..]);
    }
  }

  /** Setting a field back to the document's value after changing it is not recorded,
      so the earlier change stays in the payload; this is why the agreement above
      needs each field to be set at most once. */
  lemma RevertIsNotRecorded(doc: AmbientLightDoc)
    requires doc.config.bright == 1.0
    ensures var data := RecordAll(doc, EmptyUpdate, [SetBright(2.0), SetBright(1.0)]);
      ApplyUpdate(doc, data).config.bright == 2.0 &&
      Replay(FieldsOf(doc), [SetBright(2.0), SetBright(1.0)]).bright == 1.0
  {
    assert [SetBright(2.0), SetBright(1.0)][1..] == [SetBright(1.0)];
    assert [SetBright(1.0)][1..] == [];
  }

  /** AmbientLightDocumentUpdateDataProxy: setters collect an update payload for the
      document instead of changing it. */
  class AmbientLightDocumentUpdateDataProxy {
    const lightDoc: AmbientLightDoc
    var updateData: LightUpdate

    /** A fresh proxy has an empty payload. */
    constructor (lightDoc: AmbientLightDoc)
      ensures this.lightDoc == lightDoc && updateData == EmptyUpdate
      ensures forall k :: Lookup(updateData, k).None?
    {
      this.lightDoc := lightDoc;
      updateData := EmptyUpdate;
    }

    function GetUpdateData(): LightUpdate
      reads this
    {
      updateData
    }

    method GetBright() returns (bright: real)
      ensures bright == lightDoc.config.bright
    {
      bright := lightDoc.config.bright;
    }

    method GetDim() returns (dim: real)
      ensures dim == lightDoc.config.dim
    {
      dim := lightDoc.config.dim;
    }

    method SetBright(bright: real)
      modifies this
      ensures updateData == Record(lightDoc, old(updateData), SetterCall.SetBright(bright))
    {
      var current := GetBright();
      if current == bright {
        return;
      }
      if updateData.config.None? {
        updateData := updateData.(config := Some(EmptyConfigUpdate));
      }
      updateData := updateData.(config := Some(updateData.config.value.(bright := Some(bright))));
    }

    method SetDim(dim: real)
      modifies this
      ensures updateData == Record(lightDoc, old(updateData), SetterCall.SetDim(dim))
    {
      var current := GetDim();
      if current == dim {
        return;
      }
      if updateData.config.None? {
        updateData := updateData.(config := Some(EmptyConfigUpdate));
      }
      updateData := updateData.(config := Some(updateData.config.value.(dim := Some(dim))));
    }

    method SetHidden(hidden: bool)
      modifies this
      ensures updateData == Record(lightDoc, old(updateData), SetterCall.SetHidden(hidden))
    {
      if lightDoc.hidden == hidden {
        return;
      }
      updateData := updateData.(hidden := Some(hidden));
    }

    method SetLuminosity(luminosity: real)
      modifies this
      ensures updateData == Record(lightDoc, old(updateData), SetterCall.SetLuminosity(luminosity))
    {
      if lightDoc.config.luminosity == luminosity {
        return;
      }
      if updateData.config.None? {
        updateData := updateData.(config := Some(EmptyConfigUpdate));
      }
      updateData := updateData.(config := Some(updateData.config.value.(luminosity := Some(luminosity))));
    }

    method SetDarknessMax(max: real)
      modifies this
      ensures updateData == Record(lightDoc, old(updateData), SetterCall.SetDarknessMax(max))
    {
      if lightDoc.config.darknessMax == max {
        return;
      }
      if updateData.config.None? {
        updateData := updateData.(config := Some(EmptyConfigUpdate));
      }
      if updateData.config.value.darkness.None? {
        updateData := updateData.(config := Some(updateData.config.value.(darkness := Some(DarknessUpdate(None)))));
      }
      var config := updateData.config.value;
      updateData := updateData.(config := Some(config.(darkness := Some(config.darkness.value.(max := Some(max))))));
    }

    method SetAttenuation(attenuation: real)
      modifies this
      ensures updateData == Record(lightDoc, old(updateData), SetterCall.SetAttenuation(attenuation))
    {
      if lightDoc.config.attenuation == attenuation {
        return;
      }
      if updateData.config.None? {
        updateData := updateData.(config := Some(EmptyConfigUpdate));
      }
      updateData := updateData.(config := Some(updateData.config.value.(attenuation := Some(attenuation))));
    }

    /** Runs a series of setter calls on the proxy, first to last. */
    method Run(calls: seq<SetterCall>)
      modifies this
      ensures updateData == RecordAll(lightDoc, old(updateData), calls)
    {
      var i := 0;
      while i < |calls|
        invariant 0 <= i <= |calls|
        invariant updateData == RecordAll(lightDoc, old(updateData), calls[..i])
      {
        match calls[i] {
          case SetBright(v) => SetBright(v);
          case SetDim(v) => SetDim(v);
          case SetHidden(h) => SetHidden(h);
          case SetLuminosity(v) => SetLuminosity(v);
          case SetDarknessMax(v) => SetDarknessMax(v);
          case SetAttenuation(v) => SetAttenuation(v);
        }
        assert calls[..i + 1] == calls[..i] + [calls[i]];
        RecordAllAppend(lightDoc, old(updateData), calls[..i], [calls[i]]);
        assert [calls[i]][1..] == [];
        i := i + 1;
      }
      assert calls[..i] == calls;
    }
  }

  // ---------------------------------------------------------------------------
  // Scene update

  /** The options handed to the default-settings applier; an absent key is false. */
  datatype ApplyOptions = ApplyOptions(maxDarkness: bool, brightDimHidden: bool)

  /** The options updateScene selects from the scene's flags and the change. */
  function SelectApplyOptions(flags: SceneFlags, change: SceneChange): (o: ApplyOptions)
    ensures o.maxDarkness <==> change.darknessMax.Some? && flags.outdoorLightMode == Some(ManualGlobalLight)
    ensures o.brightDimHidden <==> change.outdoorLightStatus.Some?
  {
    ApplyOptions(
      change.darknessMax.Some? && flags.outdoorLightMode == Some(ManualGlobalLight),
      change.outdoorLightStatus.Some?)
  }

  /** `updateScene`: every outdoor light, and no other, gets a proxy on which the
      applier (`applier`, the setter calls it makes for the selected options and the
      light) runs; the proxy's payload is then merged into that light. Lights are read
      before any update is merged. Returns the payload issued per light id. */
  method UpdateScene(scene: Scene, change: SceneChange,
                     applier: (ApplyOptions, AmbientLightDoc) -> seq<SetterCall>)
    returns (issued: map<string, LightUpdate>)
    modifies scene
    ensures issued.Keys == OutdoorIds(old(scene.lights))
    ensures forall id :: id in issued ==>
      issued[id] == RecordAll(old(scene.lights)[id], EmptyUpdate,
                              applier(SelectApplyOptions(scene.flags, change), old(scene.lights)[id]))
    ensures scene.lights == UpdatedLights(old(scene.lights), issued)
  {
    var applyOptions := SelectApplyOptions(scene.flags, change);
    var lights := scene.lights;
    var remaining := lights.Keys;
    issued := map[];
    while remaining != {}
      invariant remaining <= lights.Keys
      invariant forall id :: id in issued <==> id in lights && id !in remaining && lights[id].isOutdoor
      invariant forall id :: id in issued ==>
        issued[id] == RecordAll(lights[id], EmptyUpdate, applier(applyOptions, lights[id]))
      invariant scene.lights.Keys == lights.Keys
      invariant forall id :: id in lights ==>
        scene.lights[id] == if id in issued then ApplyUpdate(lights[id], issued[id]) else lights[id]
      decreases remaining
    {
      var id :| id in remaining;
      remaining := remaining - {id};
      var light := lights[id];
      if !light.isOutdoor {
        continue;
      }
      var ambientLightProxy := new AmbientLightDocumentUpdateDataProxy(light);
      ambientLightProxy.Run(applier(applyOptions, light));
      var payload := ambientLightProxy.GetUpdateData();
      issued := issued[id := payload];
      scene.lights := scene.lights[id := ApplyUpdate(light, payload)];
    }
    assert scene.lights == UpdatedLights(lights, issued);
  }
}
