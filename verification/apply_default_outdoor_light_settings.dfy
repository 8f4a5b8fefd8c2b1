/** Default outdoor-light settings: the fixed series of setter calls made on a light
    accessor, driven by the scene's outdoor light mode and status. */
module ApplyDefaultOutdoorLightSettings {
  import opened Documents

  /** One call on a light accessor (AmbientLightProxy). */
  datatype SetterCall =
    | SetBright(bright: real)
    | SetDim(dim: real)
    | SetHidden(hidden: bool)
    | SetLuminosity(luminosity: real)
    | SetDarknessMax(max: real)
    | SetAttenuation(attenuation: real)

  /** The setter calls of applyDefaultOutdoorLightSettings, given the scene's flags, its
      global-light maximum darkness and the dim value the accessor reports when read
      (before any setter runs). */
  function DefaultSettingCalls(flags: SceneFlags, sceneMaxDarkness: Option<real>, dim: real): seq<SetterCall>
  {
    if flags.outdoorLightMode.None? then []
    else
      (if flags.outdoorLightStatus == Dim then [SetBright(0.0)] else [SetBright(dim), SetDim(0.0)])
      + (if flags.outdoorLightStatus == Off then [SetHidden(true)] else [])
      + (if flags.outdoorLightMode == Some(ManualGlobalLight) then
           [SetLuminosity(0.0)] + (if sceneMaxDarkness.Some? then [SetDarknessMax(sceneMaxDarkness.value)] else [])
         else [SetAttenuation(0.0)])
  }

  /** What the calls promise on their own: nothing without a mode; hidden is only ever
      set to true, and exactly when the status is off; the two modes touch disjoint
      fields. */
  lemma DefaultSettingCallsShape(flags: SceneFlags, sceneMaxDarkness: Option<real>, dim: real)
    ensures flags.outdoorLightMode.None? ==> DefaultSettingCalls(flags, sceneMaxDarkness, dim) == []
    ensures forall c :: c in DefaultSettingCalls(flags, sceneMaxDarkness, dim) && c.SetHidden? ==> c.hidden
    ensures (exists c :: c in DefaultSettingCalls(flags, sceneMaxDarkness, dim) && c.SetHidden?) <==>
      flags.outdoorLightMode.Some? && flags.outdoorLightStatus == Off
    ensures flags.outdoorLightMode == Some(ManualGlobalLight) ==>
      forall c :: c in DefaultSettingCalls(flags, sceneMaxDarkness, dim) ==> !c.SetAttenuation?
    ensures flags.outdoorLightMode == Some(GlobalDarkness) ==>
      forall c :: c in DefaultSettingCalls(flags, sceneMaxDarkness, dim) ==> !c.SetLuminosity? && !c.SetDarknessMax?
  {
    var calls := DefaultSettingCalls(flags, sceneMaxDarkness, dim);
    if flags.outdoorLightMode.Some? && flags.outdoorLightStatus == Off {
      assert SetHidden(true) in calls;
    }
  }

  /** The values a field-backed accessor holds. */
  datatype LightFields = LightFields(
    bright: real,
    dim: real,
    hidden: bool,
    luminosity: real,
    darknessMax: real,
    attenuation: real)

  /** The effect of one setter call on the fields. */
  function Set(f: LightFields, c: SetterCall): LightFields
  {
    match c
    case SetBright(v) => f.(bright := v)
    case SetDim(v) => f.(dim := v)
    case SetHidden(v) => f.(hidden := v)
    case SetLuminosity(v) => f.(luminosity := v)
    case SetDarknessMax(v) => f.(darknessMax := v)
    case SetAttenuation(v) => f.(attenuation := v)
  }

  /** The effect of a series of setter calls, first to last. */
  function Replay(f: LightFields, calls: seq<SetterCall>): LightFields
    decreases |calls|
  {
    if calls == [] then f else Replay(Set(f, calls[0]), calls[1..])
  }

  lemma {:induction false} ReplayAppend(f: LightFields, a: seq<SetterCall>, b: seq<SetterCall>)
    ensures Replay(f, a + b) == Replay(Replay(f, a), b)
    decreases |a|
  {
    if a == [] {
      assert a + b == b;
    } else {
      assert (a + b)[1..] == a[1..] + b;
      ReplayAppend(Set(f, a[0]), a[1..], b);
    }
  }

  lemma ReplayOne(f: LightFields, c: SetterCall)
    ensures Replay(f, [c]) == Set(f, c)
  {
    assert [c][1..] == [];
  }

  lemma ReplayTwo(f: LightFields, c: SetterCall, d: SetterCall)
    ensures Replay(f, [c, d]) == Set(Set(f, c), d)
  {
    assert [c, d][1..] == [d];
    ReplayOne(Set(f, c), d);
  }

  /** The outcome on a field-backed accessor. Without a mode nothing changes. With
      status dim, bright becomes 0 and dim stays; otherwise bright takes the dim value
      read before the call and dim becomes 0. Hidden becomes true when the status is
      off and is never cleared. Manual global light zeroes luminosity and copies the
      scene's maximum darkness when defined, leaving attenuation; the other mode
      zeroes attenuation, leaving luminosity and maximum darkness. */
  lemma {:induction false} DefaultSettingsOutcome(f: LightFields, flags: SceneFlags, sceneMaxDarkness: Option<real>)
    ensures var r := Replay(f, DefaultSettingCalls(flags, sceneMaxDarkness, f.dim));
      if flags.outdoorLightMode.None? then r == f
      else
        && (flags.outdoorLightStatus == Dim ==> r.bright == 0.0 && r.dim == f.dim)
        && (flags.outdoorLightStatus != Dim ==> r.bright == f.dim && r.dim == 0.0)
        && r.hidden == (f.hidden || flags.outdoorLightStatus == Off)
        && (flags.outdoorLightMode == Some(ManualGlobalLight) ==>
              && r.luminosity == 0.0
              && r.darknessMax == sceneMaxDarkness.GetOr(f.darknessMax)
              && r.attenuation == f.attenuation)
        && (flags.outdoorLightMode == Some(GlobalDarkness) ==>
              && r.attenuation == 0.0
              && r.luminosity == f.luminosity
              && r.darknessMax == f.darknessMax)
  {
    if flags.outdoorLightMode.Some? {
      var a := if flags.outdoorLightStatus == Dim then [SetBright(0.0)] else [SetBright(f.dim), SetDim(0.0)];
      var b: seq<SetterCall> := if flags.outdoorLightStatus == Off then [SetHidden(true)] else [];
      var c := if flags.outdoorLightMode == Some(ManualGlobalLight) then
          [SetLuminosity(0.0)] + (if sceneMaxDarkness.Some? then [SetDarknessMax(sceneMaxDarkness.value)] else [])
        else [SetAttenuation(0.0)];
      assert DefaultSettingCalls(flags, sceneMaxDarkness, f.dim) == a + b + c;
      ReplayAppend(f, a + b, c);
      ReplayAppend(f, a, b);
      if flags.outdoorLightStatus == Dim { ReplayOne(f, a[0]); } else { ReplayTwo(f, a[0], a[1]); }
      var fa := Replay(f, a);
      if b != [] { ReplayOne(fa, b[0]); }
      var fb := Replay(fa, b);
      if flags.outdoorLightMode == Some(ManualGlobalLight) {
        if sceneMaxDarkness.Some? { ReplayTwo(fb, c[0], c[1]); } else { ReplayOne(fb, c[0]); }
      } else {
        ReplayOne(fb, c[0]);
      }
    }
  }

  /** An in-memory light accessor: the fields the setters write, and a record of the
      calls made on it. */
  class LightAccessor {
    var bright: real
    var dim: real
    var hidden: bool
    var luminosity: real
    var darknessMax: real
    var attenuation: real
    ghost var calls: seq<SetterCall>

    constructor (f: LightFields)
      ensures Fields() == f && calls == []
    {
      bright, dim, hidden := f.bright, f.dim, f.hidden;
      luminosity, darknessMax, attenuation := f.luminosity, f.darknessMax, f.attenuation;
      calls := [];
    }

    function Fields(): LightFields
      reads this
    {
      LightFields(bright, dim, hidden, luminosity, darknessMax, attenuation)
    }

    method GetDim() returns (d: real)
      ensures d == dim
    {
      d := dim;
    }

    method SetBright(v: real)
      modifies this
      ensures Fields() == Set(old(Fields()), SetterCall.SetBright(v)) && calls == old(calls) + [SetterCall.SetBright(v)]
    {
      bright := v;
      calls := calls + [SetterCall.SetBright(v)];
    }

    method SetDim(v: real)
      modifies this
      ensures Fields() == Set(old(Fields()), SetterCall.SetDim(v)) && calls == old(calls) + [SetterCall.SetDim(v)]
    {
      dim := v;
      calls := calls + [SetterCall.SetDim(v)];
    }

    method SetHidden(v: bool)
      modifies this
      ensures Fields() == Set(old(Fields()), SetterCall.SetHidden(v)) && calls == old(calls) + [SetterCall.SetHidden(v)]
    {
      hidden := v;
      calls := calls + [SetterCall.SetHidden(v)];
    }

    method SetLuminosity(v: real)
      modifies this
      ensures Fields() == Set(old(Fields()), SetterCall.SetLuminosity(v)) && calls == old(calls) + [SetterCall.SetLuminosity(v)]
    {
      luminosity := v;
      calls := calls + [SetterCall.SetLuminosity(v)];
    }

    method SetDarknessMax(v: real)
      modifies this
      ensures Fields() == Set(old(Fields()), SetterCall.SetDarknessMax(v)) && calls == old(calls) + [SetterCall.SetDarknessMax(v)]
    {
      darknessMax := v;
      calls := calls + [SetterCall.SetDarknessMax(v)];
    }

    method SetAttenuation(v: real)
      modifies this
      ensures Fields() == Set(old(Fields()), SetterCall.SetAttenuation(v)) && calls == old(calls) + [SetterCall.SetAttenuation(v)]
    {
      attenuation := v;
      calls := calls + [SetterCall.SetAttenuation(v)];
    }
  }

  /** applyDefaultOutdoorLightSettings(light, scene): makes exactly the calls of
      DefaultSettingCalls, in order, reading dim before it is overwritten. */
  method ApplyDefaultOutdoorLightSettings(light: LightAccessor, scene: Scene)
    modifies light
    ensures light.calls == old(light.calls) + DefaultSettingCalls(scene.flags, scene.globalDarknessMax, old(light.dim))
    ensures light.Fields() == Replay(old(light.Fields()), DefaultSettingCalls(scene.flags, scene.globalDarknessMax, old(light.dim)))
  {
    ghost var f0 := light.Fields();
    ghost var c0 := light.calls;
    var outdoorSceneFlags := scene.flags;

    if outdoorSceneFlags.outdoorLightMode.None? {
      return;
    }

    ghost var done: seq<SetterCall> := [];
    if outdoorSceneFlags.outdoorLightStatus == Dim {
      light.SetBright(0.0);
      done := [SetBright(0.0)];
      ReplayOne(f0, SetBright(0.0));
    } else {
      var d := light.GetDim();
      light.SetBright(d);
      light.SetDim(0.0);
      done := [SetBright(d), SetDim(0.0)];
      ReplayTwo(f0, SetBright(d), SetDim(0.0));
    }

    if outdoorSceneFlags.outdoorLightStatus == Off {
      ghost var before := light.Fields();
      light.SetHidden(true);
      ReplayAppend(f0, done, [SetHidden(true)]);
      ReplayOne(before, SetHidden(true));
      done := done + [SetHidden(true)];
    }

    if outdoorSceneFlags.outdoorLightMode == Some(ManualGlobalLight) {
      ghost var before := light.Fields();
      light.SetLuminosity(0.0);
      ReplayAppend(f0, done, [SetLuminosity(0.0)]);
      ReplayOne(before, SetLuminosity(0.0));
      done := done + [SetLuminosity(0.0)];
      var sceneMaxDarkness := scene.globalDarknessMax;
      if sceneMaxDarkness.Some? {
        before := light.Fields();
        light.SetDarknessMax(sceneMaxDarkness.value);
        ReplayAppend(f0, done, [SetDarknessMax(sceneMaxDarkness.value)]);
        ReplayOne(before, SetDarknessMax(sceneMaxDarkness.value));
        done := done + [SetDarknessMax(sceneMaxDarkness.value)];
      }
    } else {
      ghost var before := light.Fields();
      light.SetAttenuation(0.0);
      ReplayAppend(f0, done, [SetAttenuation(0.0)]);
      ReplayOne(before, SetAttenuation(0.0));
      done := done + [SetAttenuation(0.0)];
    }
    assert done == DefaultSettingCalls(scene.flags, scene.globalDarknessMax, f0.dim);
  }
}
