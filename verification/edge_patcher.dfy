/** Per-edge sense modifications decided from wall and light flags, and their
    application to an edge. */
module EdgePatcher {
  import opened Documents

  /** What to do with one sense channel of an edge. */
  datatype SenseModification = UNCHANGED | REVERT_FROM_DOC | SET_NONE | SET_NORMAL

  /** The restriction type: "light", "sight" or "move". */
  datatype SenseType = LightSense | SightSense | MoveSense

  /** A sense with its distance threshold (null is None). */
  datatype SenseAndThreshold = SenseAndThreshold(sens: WallSense, threshold: Option<real>)

  /** One slot of an edge's threshold record: undefined (no slot, or no threshold
      record at all), or defined holding a number or null. */
  datatype ThresholdSlot = Undefined | Defined(value: Option<real>)

  /** Everything `applySensesTo` may read or write on an edge. */
  datatype EdgeState = EdgeState(
    light: WallSense,
    sight: WallSense,
    move: WallSense,
    lightThreshold: ThresholdSlot,
    sightThreshold: ThresholdSlot)

  /** A polygon edge of the engine. `wallDoc` is the edge's object's document
      when that document is a wall, None otherwise (boundary edges and the like). */
  class Edge {
    const wallDoc: Option<WallDocument>
    var light: WallSense
    var sight: WallSense
    var move: WallSense
    var lightThreshold: ThresholdSlot
    var sightThreshold: ThresholdSlot

    constructor (wallDoc: Option<WallDocument>, s: EdgeState)
      ensures this.wallDoc == wallDoc && State() == s
    {
      this.wallDoc := wallDoc;
      light, sight, move := s.light, s.sight, s.move;
      lightThreshold, sightThreshold := s.lightThreshold, s.sightThreshold;
    }

    function State(): EdgeState
      reads this
    {
      EdgeState(light, sight, move, lightThreshold, sightThreshold)
    }

    /** `edge.clone()`: a new edge with the same source and the same senses. */
    method Clone() returns (c: Edge)
      ensures fresh(c) && c.wallDoc == wallDoc && c.State() == State()
    {
      c := new Edge(wallDoc, State());
    }
  }

  /** The part of a sweep's configuration the deciders read: its type and, when its
      source object is an ambient light, that light's id and outdoor flag. */
  datatype SweepLight = SweepLight(id: string, isOutdoor: bool)
  datatype SweepConfig = SweepConfig(sweepType: string, sourceLight: Option<SweepLight>)

  predicate IsClockwiseSweepPolygonLight(config: SweepConfig)
  {
    config.sweepType == "light"
  }

  /** The decision for one edge: a modification per channel and the wall document
      the reverts read from. */
  datatype EdgeModification = EdgeModification(
    wallDoc: Option<WallDocument>,
    move: SenseModification,
    light: SenseModification,
    sight: SenseModification)
  {
    function For(t: SenseType): SenseModification
    {
      match t
      case LightSense => light
      case SightSense => sight
      case MoveSense => move
    }
  }

  /** A freshly constructed EdgeModification: every channel UNCHANGED. */
  function Unmodified(wallDoc: Option<WallDocument>): (r: EdgeModification)
    ensures r.wallDoc == wallDoc
    ensures forall t: SenseType :: r.For(t) == UNCHANGED
  {
    EdgeModification(wallDoc, UNCHANGED, UNCHANGED, UNCHANGED)
  }

  /** True when at least one channel is modified. */
  predicate HasModifications(m: EdgeModification)
    ensures HasModifications(m) <==> exists t: SenseType :: m.For(t) != UNCHANGED
  {
    assert m.For(LightSense) == m.light && m.For(SightSense) == m.sight && m.For(MoveSense) == m.move;
    m.light != UNCHANGED || m.sight != UNCHANGED || m.move != UNCHANGED
  }

  /** Curtain decision used by the collision test of the canvas edges. */
  function GetEdgeMod(edge: Edge): (r: EdgeModification)
    ensures r.wallDoc == edge.wallDoc
    ensures edge.wallDoc.None? ==> r == Unmodified(None)
    ensures edge.wallDoc.Some? ==>
      var w := edge.wallDoc.value;
      if w.flags.isCurtain && w.door != NoDoor then
        if w.ds != Open then r.light == SET_NORMAL && r.sight == SET_NORMAL && r.move == UNCHANGED
        else r.light == REVERT_FROM_DOC && r.sight == REVERT_FROM_DOC && r.move == REVERT_FROM_DOC
      else r == Unmodified(edge.wallDoc)
  {
    match edge.wallDoc
    case None => Unmodified(None)
    case Some(w) =>
      var result := Unmodified(edge.wallDoc);
      if w.flags.isCurtain && w.door != NoDoor then
        if w.ds != Open then result.(light := SET_NORMAL, sight := SET_NORMAL)
        else result.(light := REVERT_FROM_DOC, sight := REVERT_FROM_DOC, move := REVERT_FROM_DOC)
      else result
  }

  /** The wall is the emission wall of the sweep's light. */
  predicate EmitsLight(w: WallDocument, light: SweepLight)
  {
    w.flags.lightEmission.Some? && w.flags.lightEmission.value.lightId == Some(light.id)
  }

  /** Outdoor decision used by the light sweep. */
  function GetEdgeModForLight(edge: Edge, config: SweepConfig): (r: EdgeModification)
    requires IsClockwiseSweepPolygonLight(config)
    ensures r.wallDoc == edge.wallDoc
    ensures r.sight == UNCHANGED && r.move == UNCHANGED
    ensures edge.wallDoc.None? || config.sourceLight.None? ==> r.light == UNCHANGED
    ensures edge.wallDoc.Some? && config.sourceLight.Some? ==>
      var w, l := edge.wallDoc.value, config.sourceLight.value;
      && (r.light == SET_NONE <==> EmitsLight(w, l))
      && (r.light == SET_NORMAL <==> !EmitsLight(w, l) && w.flags.isBlockingOutdoorLight && l.isOutdoor)
      && r.light != REVERT_FROM_DOC
  {
    match edge.wallDoc
    case None => Unmodified(None)
    case Some(w) =>
      var result := Unmodified(edge.wallDoc);
      match config.sourceLight
      case None => result
      case Some(l) =>
        if EmitsLight(w, l) then result.(light := SET_NONE)
        else if w.flags.isBlockingOutdoorLight && l.isOutdoor then result.(light := SET_NORMAL)
        else result
  }

  /** The wall document's own sense for a channel. */
  function DocSense(w: WallDocument, t: SenseType): WallSense
  {
    match t
    case LightSense => w.light
    case SightSense => w.sight
    case MoveSense => w.move
  }

  /** The wall document's stored threshold for light or sight, in grid units. */
  function DocThreshold(w: WallDocument, t: SenseType): Option<real>
  {
    match t
    case LightSense => w.lightThreshold
    case SightSense => w.sightThreshold
    case MoveSense => None
  }

  /** The threshold a revert restores, in pixels; null for move, for a missing or
      zero document threshold, and for a wall without a scene. */
  function RevertedThreshold(w: WallDocument, t: SenseType): Option<real>
  {
    if t == MoveSense then None
    else
      var dt := DocThreshold(w, t);
      if dt.None? || dt.value == 0.0 then None
      else if w.parent == null then None
      else Some(dt.value * w.parent.distancePixels)
  }

  /** The sense and threshold channel `t` takes under modification `m`. */
  function GetSensFor(m: EdgeModification, t: SenseType, current: SenseAndThreshold): (r: SenseAndThreshold)
    ensures m.For(t) == SET_NONE ==> r == SenseAndThreshold(NONE, None)
    ensures m.For(t) == SET_NORMAL ==> r == SenseAndThreshold(NORMAL, None)
    ensures m.For(t) == UNCHANGED || (m.For(t) == REVERT_FROM_DOC && m.wallDoc.None?) ==> r == current
    ensures m.For(t) == REVERT_FROM_DOC && m.wallDoc.Some? ==>
      r.sens == DocSense(m.wallDoc.value, t) && r.threshold == RevertedThreshold(m.wallDoc.value, t)
  {
    match m.For(t)
    case SET_NONE => SenseAndThreshold(NONE, None)
    case SET_NORMAL => SenseAndThreshold(NORMAL, None)
    case REVERT_FROM_DOC =>
      if m.wallDoc.None? then current
      else SenseAndThreshold(DocSense(m.wallDoc.value, t), RevertedThreshold(m.wallDoc.value, t))
    case UNCHANGED => current
  }

  /** A reverted threshold converted back to grid units is the document's threshold. */
  lemma RevertedThresholdRoundTrip(w: WallDocument, t: SenseType)
    requires RevertedThreshold(w, t).Some?
    ensures t != MoveSense && w.parent != null && DocThreshold(w, t).Some?
    ensures DocThreshold(w, t).value != 0.0
    ensures RevertedThreshold(w, t).value / w.parent.distancePixels == DocThreshold(w, t).value
  {
    var dt := DocThreshold(w, t).value;
    var p := w.parent.distancePixels;
    assert (dt * p) / p == dt;
  }

  function SenseOf(s: EdgeState, t: SenseType): WallSense
  {
    match t
    case LightSense => s.light
    case SightSense => s.sight
    case MoveSense => s.move
  }

  function SlotOf(s: EdgeState, t: SenseType): ThresholdSlot
  {
    match t
    case LightSense => s.lightThreshold
    case SightSense => s.sightThreshold
    case MoveSense => Undefined
  }

  function SlotValue(slot: ThresholdSlot): Option<real>
  {
    match slot
    case Undefined => None
    case Defined(v) => v
  }

  /** The sense and threshold an edge currently has on a channel (move has none). */
  function Current(s: EdgeState, t: SenseType): SenseAndThreshold
  {
    SenseAndThreshold(SenseOf(s, t), if t == MoveSense then None else SlotValue(SlotOf(s, t)))
  }

  /** The edge state after `applySenseTo(t)`: channel `t` takes the new sense, and
      its threshold slot takes the new threshold when the slot exists. */
  function ApplySense(m: EdgeModification, t: SenseType, s: EdgeState): (r: EdgeState)
    ensures SenseOf(r, t) == GetSensFor(m, t, Current(s, t)).sens
    ensures forall u: SenseType :: u != t ==> SenseOf(r, u) == SenseOf(s, u) && SlotOf(r, u) == SlotOf(s, u)
    ensures SlotOf(r, t) == if SlotOf(s, t).Defined? then Defined(GetSensFor(m, t, Current(s, t)).threshold)
                            else SlotOf(s, t)
  {
    var n := GetSensFor(m, t, Current(s, t));
    match t
    case LightSense =>
      s.(light := n.sens, lightThreshold := if s.lightThreshold.Defined? then Defined(n.threshold) else s.lightThreshold)
    case SightSense =>
      s.(sight := n.sens, sightThreshold := if s.sightThreshold.Defined? then Defined(n.threshold) else s.sightThreshold)
    case MoveSense =>
      s.(move := n.sens)
  }

  /** The edge state after `applySensesTo`: light, then sight, then move. */
  function ApplySenses(m: EdgeModification, s: EdgeState): EdgeState
  {
    ApplySense(m, MoveSense, ApplySense(m, SightSense, ApplySense(m, LightSense, s)))
  }

  /** Each channel of the result is decided from that channel of the input alone:
      the three applications do not interfere. */
  lemma {:induction false} ApplySensesPerChannel(m: EdgeModification, s: EdgeState, t: SenseType)
    ensures SenseOf(ApplySenses(m, s), t) == GetSensFor(m, t, Current(s, t)).sens
    ensures SlotOf(ApplySenses(m, s), t) ==
      if SlotOf(s, t).Defined? then Defined(GetSensFor(m, t, Current(s, t)).threshold) else SlotOf(s, t)
  {
    var s1 := ApplySense(m, LightSense, s);
    var s2 := ApplySense(m, SightSense, s1);
    if t == LightSense {
      assert SenseOf(s2, t) == SenseOf(s1, t) && SlotOf(s2, t) == SlotOf(s1, t);
    } else if t == SightSense {
      assert Current(s1, t) == Current(s, t);
    } else {
      assert Current(s2, t) == Current(s1, t) == Current(s, t);
    }
  }

  /** A modification without modifications leaves the edge exactly as it was. */
  lemma UnmodifiedIsIdentity(m: EdgeModification, s: EdgeState)
    requires !HasModifications(m)
    ensures ApplySenses(m, s) == s
  {
    forall t: SenseType ensures SenseOf(ApplySenses(m, s), t) == SenseOf(s, t) && SlotOf(ApplySenses(m, s), t) == SlotOf(s, t) {
      ApplySensesPerChannel(m, s, t);
    }
    assert SenseOf(ApplySenses(m, s), LightSense) == SenseOf(s, LightSense);
    assert SenseOf(ApplySenses(m, s), SightSense) == SenseOf(s, SightSense);
    assert SenseOf(ApplySenses(m, s), MoveSense) == SenseOf(s, MoveSense);
    assert SlotOf(ApplySenses(m, s), LightSense) == SlotOf(s, LightSense);
    assert SlotOf(ApplySenses(m, s), SightSense) == SlotOf(s, SightSense);
  }

  /** Applying a modification a second time changes nothing more. */
  lemma ApplySensesIdempotent(m: EdgeModification, s: EdgeState)
    ensures ApplySenses(m, ApplySenses(m, s)) == ApplySenses(m, s)
  {
    var once := ApplySenses(m, s);
    forall t: SenseType
      ensures SenseOf(ApplySenses(m, once), t) == SenseOf(once, t) && SlotOf(ApplySenses(m, once), t) == SlotOf(once, t)
    {
      ApplySensesPerChannel(m, s, t);
      ApplySensesPerChannel(m, once, t);
    }
    assert SenseOf(ApplySenses(m, once), LightSense) == SenseOf(once, LightSense);
    assert SenseOf(ApplySenses(m, once), SightSense) == SenseOf(once, SightSense);
    assert SenseOf(ApplySenses(m, once), MoveSense) == SenseOf(once, MoveSense);
    assert SlotOf(ApplySenses(m, once), LightSense) == SlotOf(once, LightSense);
    assert SlotOf(ApplySenses(m, once), SightSense) == SlotOf(once, SightSense);
  }

  /** `applySenseTo(type, edge)`: rewrites channel `t` of the edge in place. */
  method ApplySenseTo(m: EdgeModification, t: SenseType, edge: Edge)
    modifies edge
    ensures edge.State() == ApplySense(m, t, old(edge.State()))
  {
    var curThreshold := if t != MoveSense then SlotValue(SlotOf(edge.State(), t)) else None;
    var current := SenseAndThreshold(SenseOf(edge.State(), t), curThreshold);
    var newSens := GetSensFor(m, t, current);
    match t {
      case LightSense =>
        edge.light := newSens.sens;
        if edge.lightThreshold.Defined? {
          edge.lightThreshold := Defined(newSens.threshold);
        }
      case SightSense =>
        edge.sight := newSens.sens;
        if edge.sightThreshold.Defined? {
          edge.sightThreshold := Defined(newSens.threshold);
        }
      case MoveSense =>
        edge.move := newSens.sens;
    }
  }

  /** `applySensesTo(edge)`: light, then sight, then move. */
  method ApplySensesTo(m: EdgeModification, edge: Edge)
    modifies edge
    ensures edge.State() == ApplySenses(m, old(edge.State()))
  {
    ApplySenseTo(m, LightSense, edge);
    ApplySenseTo(m, SightSense, edge);
    ApplySenseTo(m, MoveSense, edge);
  }

  /** The light-sweep decision never consults the curtain flag, the door type or the
      door state: two walls agreeing on emission and outdoor blocking get the same
      light decision, so the emission wall lets its own light through whatever its curtain does. */
  lemma {:induction false} LightDecisionIgnoresDoor(e1: Edge, e2: Edge, config: SweepConfig)
    requires IsClockwiseSweepPolygonLight(config)
    requires e1.wallDoc.Some? && e2.wallDoc.Some?
    requires e1.wallDoc.value.flags.lightEmission == e2.wallDoc.value.flags.lightEmission
    requires e1.wallDoc.value.flags.isBlockingOutdoorLight == e2.wallDoc.value.flags.isBlockingOutdoorLight
    ensures GetEdgeModForLight(e1, config).light == GetEdgeModForLight(e2, config).light
  {
  }

  /** The curtain decision modifies an edge exactly for curtain walls with a door,
      and never forces a sense to NONE. */
  lemma CurtainDecisionTable(edge: Edge)
    ensures HasModifications(GetEdgeMod(edge)) <==>
      edge.wallDoc.Some? && edge.wallDoc.value.flags.isCurtain && edge.wallDoc.value.door != NoDoor
    ensures forall t: SenseType :: GetEdgeMod(edge).For(t) != SET_NONE
  {
  }

  /** The light decision modifies an edge exactly when its wall emits the sweep's
      light, or blocks outdoor light and the sweep's light is outdoor. */
  lemma LightDecisionTable(edge: Edge, config: SweepConfig)
    requires IsClockwiseSweepPolygonLight(config)
    ensures HasModifications(GetEdgeModForLight(edge, config)) <==>
      edge.wallDoc.Some? && config.sourceLight.Some? &&
      (EmitsLight(edge.wallDoc.value, config.sourceLight.value) ||
       (edge.wallDoc.value.flags.isBlockingOutdoorLight && config.sourceLight.value.isOutdoor))
  {
  }
}
