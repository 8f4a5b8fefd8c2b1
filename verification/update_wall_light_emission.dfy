/** The wall light-emission updater: a wall whose flags ask for light emission gets a
    companion ambient light at its midpoint, shining to one side; the light is
    created, updated or deleted to follow the flags. */
module WallLightEmission {
  import opened Documents

  datatype Result<T> = Success(value: T) | Failure(error: string)

  const MissingIdOrParentError := "Wall must have an ID and a parent to update light emission."

  datatype Point = Point(x: real, y: real)

  /** The default emission radii, as ratios of the wall length, from the module's
      settings. */
  datatype EmissionSettings = EmissionSettings(dimRadius: real, brightRadius: real)

  datatype LightRadius = LightRadius(dim: real, bright: real)

  /** `getRayCenter`: the midpoint of the wall's endpoints. */
  function GetRayCenter(c: WallCoords): (p: Point)
    ensures p.x - c.x0 == c.x1 - p.x && p.y - c.y0 == c.y1 - p.y
  {
    Point((c.x0 + c.x1) / 2.0, (c.y0 + c.y1) / 2.0)
  }

  /** The midpoint does not depend on which endpoint comes first. */
  lemma RayCenterSymmetric(c: WallCoords)
    ensures GetRayCenter(WallCoords(c.x1, c.y1, c.x0, c.y0)) == GetRayCenter(c)
  {
  }

  predicate IsFeet(emission: Option<LightEmissionFlags>)
  {
    emission.Some? && emission.value.units == Some(Feet)
  }

  function DimFlag(emission: Option<LightEmissionFlags>): Option<real>
  {
    if emission.Some? then emission.value.dim else None
  }

  function BrightFlag(emission: Option<LightEmissionFlags>): Option<real>
  {
    if emission.Some? then emission.value.bright else None
  }

  /** `getLightRadius`. In feet the flag values are the radii (0 when absent).
      Otherwise each radius is a ratio (the flag, or the setting when the flag is
      absent) of the wall length measured in grid units: `rayLength` pixels divided by
      the scene's pixels per grid unit. */
  function GetLightRadius(rayLength: real, emission: Option<LightEmissionFlags>,
                          distancePixels: PositiveReal, settings: EmissionSettings): (r: LightRadius)
    ensures IsFeet(emission) ==>
      r == LightRadius(DimFlag(emission).GetOr(0.0), BrightFlag(emission).GetOr(0.0))
    ensures !IsFeet(emission) ==>
      && r.dim * distancePixels == rayLength * DimFlag(emission).GetOr(settings.dimRadius)
      && r.bright * distancePixels == rayLength * BrightFlag(emission).GetOr(settings.brightRadius)
  {
    if IsFeet(emission) then
      LightRadius(DimFlag(emission).GetOr(0.0), BrightFlag(emission).GetOr(0.0))
    else
      var wallLength := rayLength / distancePixels;
      var dimRatio := DimFlag(emission).GetOr(settings.dimRadius);
      var brightRatio := BrightFlag(emission).GetOr(settings.brightRadius);
      LightRadius(wallLength * dimRatio, wallLength * brightRatio)
  }

  /** Ratio radii grow in proportion to the wall; feet radii do not depend on it. */
  lemma LightRadiusScales(rayLength: real, k: real, emission: Option<LightEmissionFlags>,
                          distancePixels: PositiveReal, settings: EmissionSettings)
    ensures !IsFeet(emission) ==>
      && GetLightRadius(k * rayLength, emission, distancePixels, settings).dim ==
           k * GetLightRadius(rayLength, emission, distancePixels, settings).dim
      && GetLightRadius(k * rayLength, emission, distancePixels, settings).bright ==
           k * GetLightRadius(rayLength, emission, distancePixels, settings).bright
    ensures IsFeet(emission) ==>
      GetLightRadius(k * rayLength, emission, distancePixels, settings) ==
        GetLightRadius(rayLength, emission, distancePixels, settings)
  {
    if !IsFeet(emission) {
      var r1 := GetLightRadius(rayLength, emission, distancePixels, settings);
      var r2 := GetLightRadius(k * rayLength, emission, distancePixels, settings);
      assert r2.dim * distancePixels == k * (r1.dim * distancePixels);
      assert r2.bright * distancePixels == k * (r1.bright * distancePixels);
    }
  }

  /** `getRotationDegrees`, from the wall's direction normalised to [0, 360): the left
      side keeps it, the right side turns it by half a circle. */
  function GetRotationDegrees(isLeft: bool, rotationDegrees360: real): (r: real)
    requires 0.0 <= rotationDegrees360 < 360.0
    ensures isLeft ==> r == rotationDegrees360
    ensures !isLeft ==>
      && (r - rotationDegrees360 == 180.0 || rotationDegrees360 - r == 180.0)
      && 0.0 < r <= 360.0
  {
    if isLeft then rotationDegrees360
    else if rotationDegrees360 > 180.0 then rotationDegrees360 - 180.0
    else rotationDegrees360 + 180.0
  }

  /** Turning to the right twice comes back to the start, except from 0 and 180,
      whose first turn lands on 180 and 360. */
  lemma RightTurnInvolution(r: real)
    requires 0.0 < r < 360.0 && r != 180.0
    ensures 0.0 <= GetRotationDegrees(false, r) < 360.0
    ensures GetRotationDegrees(false, GetRotationDegrees(false, r)) == r
  {
  }

  /** The update data of the companion light: at the wall's midpoint, a half circle
      with the computed radii, turned to the chosen side, pointing back at the wall. */
  function LightData(wallId: string, center: Point, radius: LightRadius, rotation: real): (u: LightUpdate)
    ensures u.x == Some(center.x) && u.y == Some(center.y) && u.rotation == Some(rotation)
    ensures u.config == Some(EmptyConfigUpdate.(angle := Some(180.0), dim := Some(radius.dim), bright := Some(radius.bright)))
    ensures u.emissionWallId == Some(wallId) && u.hidden.None?
  {
    LightUpdate(Some(center.x), Some(center.y), Some(rotation), None,
                Some(EmptyConfigUpdate.(angle := Some(180.0), dim := Some(radius.dim), bright := Some(radius.bright))),
                Some(wallId))
  }

  /** A wall the updater accepts: a non-empty id and a parent scene. */
  predicate HasIdAndParent(wall: WallDocument)
  {
    wall.id.Some? && wall.id.value != "" && wall.parent != null
  }

  /** The side the flags ask for; no emission flags means none. */
  function LightSide(flags: WallFlags): LightEmissionSide
  {
    if flags.lightEmission.Some? && flags.lightEmission.value.side.Some? then flags.lightEmission.value.side.value
    else SideNone
  }

  /** The id of the companion light: the flags' light id, when it is non-empty and the
      canvas scene holds a light with that id. */
  function CompanionLight(flags: WallFlags, canvasLights: Option<map<string, AmbientLightDoc>>): (r: Option<string>)
    ensures r.Some? <==>
      && flags.lightEmission.Some? && flags.lightEmission.value.lightId.Some?
      && flags.lightEmission.value.lightId.value != ""
      && canvasLights.Some? && flags.lightEmission.value.lightId.value in canvasLights.value
    ensures r.Some? ==> r == flags.lightEmission.value.lightId
  {
    var lightId := if flags.lightEmission.Some? then flags.lightEmission.value.lightId else None;
    if lightId.None? || lightId.value == "" then None
    else if canvasLights.Some? && lightId.value in canvasLights.value then lightId
    else None
  }

  /** What the updater does to the light collections. */
  datatype EmissionAction =
    | NoAction
    | DeleteLight(id: string)
    | UpdateLight(id: string, data: LightUpdate)
    | CreateLight(data: LightUpdate)

  /** The four states: side none with or without a companion light, side set with or
      without one. */
  function PlanEmission(side: LightEmissionSide, companion: Option<string>, data: LightUpdate): (a: EmissionAction)
  {
    if side == SideNone then (if companion.Some? then DeleteLight(companion.value) else NoAction)
    else if companion.Some? then UpdateLight(companion.value, data)
    else CreateLight(data)
  }

  /** A light is deleted exactly when the side is none and the companion light exists;
      nothing is created or updated with side none; with a side set, the existing
      companion light is updated, and a new one is created only when there is none. */
  lemma PlanEmissionStates(side: LightEmissionSide, companion: Option<string>, data: LightUpdate)
    ensures PlanEmission(side, companion, data).DeleteLight? <==> side == SideNone && companion.Some?
    ensures PlanEmission(side, companion, data).NoAction? <==> side == SideNone && companion.None?
    ensures PlanEmission(side, companion, data).UpdateLight? <==> side != SideNone && companion.Some?
    ensures PlanEmission(side, companion, data).CreateLight? <==> side != SideNone && companion.None?
    ensures PlanEmission(side, companion, data).DeleteLight? || PlanEmission(side, companion, data).UpdateLight? ==>
      companion == Some(PlanEmission(side, companion, data).id)
    ensures PlanEmission(side, companion, data).UpdateLight? || PlanEmission(side, companion, data).CreateLight? ==>
      PlanEmission(side, companion, data).data == data
  {
  }

  /** The update data for a wall with an id and a parent. */
  function WallLightData(wall: WallDocument, rayLength: real, rotationDegrees360: real, settings: EmissionSettings): LightUpdate
    requires HasIdAndParent(wall)
    requires 0.0 <= rotationDegrees360 < 360.0
  {
    LightData(
      wall.id.value,
      GetRayCenter(wall.c),
      GetLightRadius(rayLength, wall.flags.lightEmission, wall.parent.distancePixels, settings),
      GetRotationDegrees(LightSide(wall.flags) == Left, rotationDegrees360))
  }

  /** The plan for a wall, reading the canvas scene's lights. */
  function WallPlan(wall: WallDocument, canvasScene: Scene?, rayLength: real, rotationDegrees360: real,
                    settings: EmissionSettings): EmissionAction
    requires HasIdAndParent(wall)
    requires 0.0 <= rotationDegrees360 < 360.0
    reads canvasScene
  {
    PlanEmission(
      LightSide(wall.flags),
      CompanionLight(wall.flags, if canvasScene != null then Some(canvasScene.lights) else None),
      WallLightData(wall, rayLength, rotationDegrees360, settings))
  }

  /** `updateWallLightEmission`. `canvasScene` is the scene shown on the canvas (null
      without one), where the companion light is looked up, deleted and updated; new
      lights are created in the wall's parent scene. `rayLength` is the wall's length in
      pixels and `rotationDegrees360` its direction in degrees, normalised to [0, 360).
      A created light is `newLight` with the update data merged in, stored under the new
      id the host assigns (`createdId`, None when the host returns no document); the
      host never assigns an id already used in the scene, so a creation adds exactly
      one light and a deletion removes exactly one. Returns the id of the companion
      light, or None when none is needed. */
  method UpdateWallLightEmission(wall: WallDocument, canvasScene: Scene?, rayLength: real,
                                 rotationDegrees360: real, settings: EmissionSettings,
                                 newLight: AmbientLightDoc, createdId: Option<string>)
    returns (r: Result<Option<string>>)
    requires 0.0 <= rotationDegrees360 < 360.0
    requires HasIdAndParent(wall) && createdId.Some? ==> createdId.value !in wall.parent.lights
    modifies wall.parent, canvasScene
    ensures !HasIdAndParent(wall) ==>
      && r == Failure(MissingIdOrParentError)
      && (wall.parent != null ==> wall.parent.lights == old(wall.parent.lights))
      && (canvasScene != null ==> canvasScene.lights == old(canvasScene.lights))
    ensures HasIdAndParent(wall) ==>
      match old(WallPlan(wall, canvasScene, rayLength, rotationDegrees360, settings))
      case NoAction =>
        && r == Success(None)
        && wall.parent.lights == old(wall.parent.lights)
        && (canvasScene != null ==> canvasScene.lights == old(canvasScene.lights))
      case DeleteLight(id) =>
        && r == Success(None)
        && canvasScene != null
        && canvasScene.lights == old(canvasScene.lights) - {id}
        && |canvasScene.lights.Keys| == |old(canvasScene.lights).Keys| - 1
        && (wall.parent != canvasScene ==> wall.parent.lights == old(wall.parent.lights))
      case UpdateLight(id, data) =>
        && r == Success(Some(id))
        && canvasScene != null && id in old(canvasScene.lights)
        && canvasScene.lights == old(canvasScene.lights)[id := ApplyUpdate(old(canvasScene.lights)[id], data)]
        && canvasScene.lights.Keys == old(canvasScene.lights).Keys
        && (wall.parent != canvasScene ==> wall.parent.lights == old(wall.parent.lights))
      case CreateLight(data) =>
        && r == Success(createdId)
        && (createdId.Some? ==>
              && createdId.value !in old(wall.parent.lights)
              && wall.parent.lights == old(wall.parent.lights)[createdId.value := ApplyUpdate(newLight, data)]
              && |wall.parent.lights.Keys| == |old(wall.parent.lights).Keys| + 1)
        && (createdId.None? ==> wall.parent.lights == old(wall.parent.lights))
        && (canvasScene != null && canvasScene != wall.parent ==> canvasScene.lights == old(canvasScene.lights))
  {
    if wall.id.None? || wall.id.value == "" || wall.parent == null {
      return Failure(MissingIdOrParentError);
    }

    var lightSide := LightSide(wall.flags);
    var light := CompanionLight(wall.flags, if canvasScene != null then Some(canvasScene.lights) else None);

    if lightSide == SideNone {
      if light.Some? {
        DeleteRemovesOne(canvasScene.lights, light.value);
        canvasScene.lights := canvasScene.lights - {light.value};
      }
      return Success(None);
    }

    var center := GetRayCenter(wall.c);
    var lightRadius := GetLightRadius(rayLength, wall.flags.lightEmission, wall.parent.distancePixels, settings);
    var rotationDegrees := GetRotationDegrees(lightSide == Left, rotationDegrees360);
    var lightData := LightData(wall.id.value, center, lightRadius, rotationDegrees);

    if light.Some? {
      canvasScene.lights := canvasScene.lights[light.value := ApplyUpdate(canvasScene.lights[light.value], lightData)];
      return Success(light);
    }

    if createdId.Some? {
      CreateAddsOne(wall.parent.lights, createdId.value, ApplyUpdate(newLight, lightData));
      wall.parent.lights := wall.parent.lights[createdId.value := ApplyUpdate(newLight, lightData)];
    }
    return Success(createdId);
  }

  /** Updating the companion light twice with the same wall leaves it as one update
      does. */
  lemma UpdateLightIdempotent(lights: map<string, AmbientLightDoc>, id: string, data: LightUpdate)
    requires id in lights
    ensures var once := lights[id := ApplyUpdate(lights[id], data)];
      once[id := ApplyUpdate(once[id], data)] == once
  {
    ApplyUpdateIdempotent(lights[id], data);
  }

  /** Creating under an id that is not yet in use adds exactly one light. */
  lemma CreateAddsOne(lights: map<string, AmbientLightDoc>, id: string, light: AmbientLightDoc)
    requires id !in lights
    ensures |lights[id := light].Keys| == |lights.Keys| + 1
  {
    assert lights[id := light].Keys == lights.Keys + {id};
  }

  /** Deleting the companion light removes exactly one light. */
  lemma DeleteRemovesOne(lights: map<string, AmbientLightDoc>, id: string)
    requires id in lights
    ensures |(lights - {id}).Keys| == |lights.Keys| - 1
  {
    assert (lights - {id}).Keys == lights.Keys - {id};
  }
}
