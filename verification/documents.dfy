/** Host documents of the tabletop engine, reduced to the fields the outdoor-light
    module reads or writes, and the module's own flag records attached to them. */
module Documents {

  datatype Option<+T> = None | Some(value: T)
  {
    function GetOr(default: T): T
    {
      match this
      case Some(v) => v
      case None => default
    }
  }

  /** The engine's wall sense types (CONST.WALL_SENSE_TYPES). */
  datatype WallSense = NONE | LIMITED | NORMAL | PROXIMITY | DISTANCE

  /** The engine's door types (CONST.WALL_DOOR_TYPES: NONE, DOOR, SECRET). */
  datatype DoorType = NoDoor | Door | SecretDoor

  /** The engine's door states (CONST.WALL_DOOR_STATES: CLOSED, OPEN, LOCKED). */
  datatype DoorState = Closed | Open | Locked

  /** Scene flag `outdoorLightMode`. */
  datatype OutdoorLightMode = ManualGlobalLight | GlobalDarkness

  /** Scene flag `outdoorLightStatus`. */
  datatype OutdoorLightStatus = Bright | Dim | Off

  /** Which side of an emission wall the companion light shines to. */
  datatype LightEmissionSide = SideNone | Left | Right

  /** How the emission radii of a wall are expressed. */
  datatype LightEmissionUnits = Ratio | Feet

  /** Scene pixels per grid distance unit: always positive in the engine. */
  type PositiveReal = r: real | r > 0.0 witness 1.0

  /** Wall flag `lightEmission`; an absent member is None. */
  datatype LightEmissionFlags = LightEmissionFlags(
    side: Option<LightEmissionSide>,
    dim: Option<real>,
    bright: Option<real>,
    units: Option<LightEmissionUnits>,
    lightId: Option<string>)

  /** The module's flags on a wall. */
  datatype WallFlags = WallFlags(
    isBlockingOutdoorLight: bool,
    isCurtain: bool,
    lightEmission: Option<LightEmissionFlags>)

  /** Wall endpoints, the document's `c` array. */
  datatype WallCoords = WallCoords(x0: real, y0: real, x1: real, y1: real)

  /** A wall document. `parent` is the scene holding it, null when detached. */
  datatype WallDocument = WallDocument(
    id: Option<string>,
    parent: Scene?,
    c: WallCoords,
    door: DoorType,
    ds: DoorState,
    light: WallSense,
    sight: WallSense,
    move: WallSense,
    lightThreshold: Option<real>,
    sightThreshold: Option<real>,
    flags: WallFlags)

  /** The resolved flags of a scene (absent fields already replaced by their defaults). */
  datatype SceneFlags = SceneFlags(
    outdoorLightMode: Option<OutdoorLightMode>,
    outdoorLightStatus: OutdoorLightStatus)

  /** The configuration block of an ambient light document. */
  datatype LightConfig = LightConfig(
    angle: real,
    bright: real,
    dim: real,
    luminosity: real,
    attenuation: real,
    darknessMax: real)

  /** An ambient light document with the module's light flags. */
  datatype AmbientLightDoc = AmbientLightDoc(
    x: real,
    y: real,
    rotation: real,
    hidden: bool,
    config: LightConfig,
    isOutdoor: bool,
    emissionWallId: Option<string>)

  /** A scene: its grid scale, its flags, its global-light maximum darkness
      (`environment.globalLight.darkness.max`, possibly undefined) and its
      collection of ambient lights keyed by document id. */
  class Scene {
    const distancePixels: PositiveReal
    const flags: SceneFlags
    const globalDarknessMax: Option<real>
    var lights: map<string, AmbientLightDoc>

    constructor (distancePixels: PositiveReal, flags: SceneFlags, globalDarknessMax: Option<real>,
                 lights: map<string, AmbientLightDoc>)
      ensures this.distancePixels == distancePixels && this.flags == flags
      ensures this.globalDarknessMax == globalDarknessMax && this.lights == lights
    {
      this.distancePixels := distancePixels;
      this.flags := flags;
      this.globalDarknessMax := globalDarknessMax;
      this.lights := lights;
    }
  }

  /** `config.darkness` part of an update payload. */
  datatype DarknessUpdate = DarknessUpdate(max: Option<real>)

  /** `config` part of an update payload. */
  datatype ConfigUpdate = ConfigUpdate(
    angle: Option<real>,
    bright: Option<real>,
    dim: Option<real>,
    luminosity: Option<real>,
    attenuation: Option<real>,
    darkness: Option<DarknessUpdate>)

  /** An ambient light update payload (AmbientLightDocument.UpdateData): only the
      keys present are written. `emissionWallId` is `flags["outdoor-light"].emissionWallId`. */
  datatype LightUpdate = LightUpdate(
    x: Option<real>,
    y: Option<real>,
    rotation: Option<real>,
    hidden: Option<bool>,
    config: Option<ConfigUpdate>,
    emissionWallId: Option<string>)

  const EmptyConfigUpdate := ConfigUpdate(None, None, None, None, None, None)
  const EmptyUpdate := LightUpdate(None, None, None, None, None, None)

  /** The host's merge of an update payload into a light document: every key
      present in the payload overwrites the document's value. */
  function ApplyUpdate(d: AmbientLightDoc, u: LightUpdate): AmbientLightDoc
  {
    var c := d.config;
    var cu := u.config.GetOr(EmptyConfigUpdate);
    var dk := cu.darkness.GetOr(DarknessUpdate(None));
    AmbientLightDoc(
      u.x.GetOr(d.x),
      u.y.GetOr(d.y),
      u.rotation.GetOr(d.rotation),
      u.hidden.GetOr(d.hidden),
      LightConfig(
        cu.angle.GetOr(c.angle),
        cu.bright.GetOr(c.bright),
        cu.dim.GetOr(c.dim),
        cu.luminosity.GetOr(c.luminosity),
        cu.attenuation.GetOr(c.attenuation),
        dk.max.GetOr(c.darknessMax)),
      d.isOutdoor,
      if u.emissionWallId.Some? then u.emissionWallId else d.emissionWallId)
  }

  /** Merging the same payload twice is the same as merging it once. */
  lemma ApplyUpdateIdempotent(d: AmbientLightDoc, u: LightUpdate)
    ensures ApplyUpdate(ApplyUpdate(d, u), u) == ApplyUpdate(d, u)
  {
  }

  /** An empty payload changes nothing. */
  lemma ApplyEmptyUpdate(d: AmbientLightDoc)
    ensures ApplyUpdate(d, EmptyUpdate) == d
  {
  }

  /** The part of a scene update the module's hooks read: the changed
      `environment.globalLight.darkness.max` and the changed `outdoorLightStatus` flag,
      each None when the change does not carry it. */
  datatype SceneChange = SceneChange(
    darknessMax: Option<real>,
    outdoorLightStatus: Option<OutdoorLightStatus>)

  /** The ids of the lights flagged `isOutdoor`. */
  function OutdoorIds(lights: map<string, AmbientLightDoc>): (ids: set<string>)
    ensures forall id :: id in ids <==> id in lights && lights[id].isOutdoor
  {
    set id | id in lights && lights[id].isOutdoor
  }

  /** A light collection after each payload in `issued` is merged into the light with
      the same id. */
  function UpdatedLights(lights: map<string, AmbientLightDoc>, issued: map<string, LightUpdate>): map<string, AmbientLightDoc>
  {
    map id | id in lights :: if id in issued then ApplyUpdate(lights[id], issued[id]) else lights[id]
  }

  /** Merging payloads keeps the collection's ids and every light's outdoor flag, and
      leaves every light without a payload as it was. */
  lemma UpdatedLightsFrame(lights: map<string, AmbientLightDoc>, issued: map<string, LightUpdate>)
    ensures UpdatedLights(lights, issued).Keys == lights.Keys
    ensures forall id :: id in lights ==> UpdatedLights(lights, issued)[id].isOutdoor == lights[id].isOutdoor
    ensures forall id :: id in lights && id !in issued ==> UpdatedLights(lights, issued)[id] == lights[id]
  {
  }
}
