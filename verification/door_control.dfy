/** The door control icon of curtain walls: a door whose light sense lets light
    through (none or proximity) shows a curtain icon, open or closed with the door;
    any other door keeps the host's icon. */
module DoorControl {
  import opened Documents

  const CurtainCloseIconPath := "modules/outdoor-light/icons/svg/curtain-closed.svg"
  const CurtainOpenIconPath := "modules/outdoor-light/icons/svg/curtain-opened.svg"

  /** The icon path a door control asks for, or None for the host's own icon. */
  function CurtainIconPath(doorDoc: WallDocument): Option<string>
  {
    if doorDoc.door == NoDoor then None
    else if doorDoc.light != NONE && doorDoc.light != PROXIMITY then None
    else if doorDoc.ds == Open then Some(CurtainOpenIconPath)
    else Some(CurtainCloseIconPath)
  }

  /** `getWidowsTexture`: the texture of the curtain icon, looked up in the host's
      texture cache (`loaded` holds the paths whose texture is cached; a path that is
      not cached gives null, as the host's lookup does). */
  function GetWidowsTexture(doorDoc: WallDocument, loaded: set<string>): (texture: Option<string>)
    ensures texture.Some? <==>
      && doorDoc.door != NoDoor
      && (doorDoc.light == NONE || doorDoc.light == PROXIMITY)
      && (if doorDoc.ds == Open then CurtainOpenIconPath else CurtainCloseIconPath) in loaded
    ensures texture.Some? ==>
      (texture.value == CurtainOpenIconPath <==> doorDoc.ds == Open) &&
      (texture.value == CurtainCloseIconPath <==> doorDoc.ds != Open)
  {
    var texturePath := CurtainIconPath(doorDoc);
    if texturePath.Some? && texturePath.value in loaded then texturePath else None
  }

  /** What a door control shows: the curtain texture at a path, or the host's own
      texture. */
  datatype Texture = CurtainTexture(path: string) | OriginalTexture

  /** `getTexture_Wrapper`: a curtain texture is returned without calling the host's
      method; without one the host's method decides. */
  function GetTextureWrapper(doorDoc: WallDocument, loaded: set<string>): (t: Texture)
    ensures t.OriginalTexture? <==> GetWidowsTexture(doorDoc, loaded).None?
    ensures t.CurtainTexture? ==> Some(t.path) == GetWidowsTexture(doorDoc, loaded)
  {
    var texture := GetWidowsTexture(doorDoc, loaded);
    if texture.Some? then CurtainTexture(texture.value) else OriginalTexture
  }

  /** The icon choice reads the door type and the light sense only, never the wall's
      curtain flag: walls without a door, and doors that stop light in the usual ways
      (limited, normal or distance), keep the host's texture. */
  lemma LightBlockingDoorsKeepHostTexture(doorDoc: WallDocument, loaded: set<string>)
    ensures doorDoc.door == NoDoor ==> GetTextureWrapper(doorDoc, loaded) == OriginalTexture
    ensures doorDoc.light in {LIMITED, NORMAL, DISTANCE} ==> GetTextureWrapper(doorDoc, loaded) == OriginalTexture
  {
  }

  /** With both icons cached, a curtain door always shows a curtain, and the icon
      follows the door state alone: locked and closed look the same. */
  lemma CurtainIconFollowsDoorState(doorDoc: WallDocument, loaded: set<string>)
    requires CurtainOpenIconPath in loaded && CurtainCloseIconPath in loaded
    requires doorDoc.door != NoDoor && (doorDoc.light == NONE || doorDoc.light == PROXIMITY)
    ensures GetTextureWrapper(doorDoc, loaded) ==
      CurtainTexture(if doorDoc.ds == Open then CurtainOpenIconPath else CurtainCloseIconPath)
    ensures GetTextureWrapper(doorDoc.(ds := Locked), loaded) == GetTextureWrapper(doorDoc.(ds := Closed), loaded)
  {
  }
}
