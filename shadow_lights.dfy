/** The shadow-light registry: a list of lights, newest first, numbered by a
    counter that only a map change resets, with at most one sun; loading it
    from the level's entity text; the per-frame shadow-map pass; and packing
    the rendered lights into the fixed-capacity uniform block the world
    shaders read. GL calls are recorded as events in a ghost log. */
module ShadowLights {
  import opened Common
  import opened ShadowParse

  /** `r_shadow_light_type_t`. */
  datatype LightKind = Sun | Spot | Point

  /** The integer stored in a uniform record's `light_type`. */
  function KindCode(k: LightKind): (r: int)
    ensures (r == 0 <==> k == Sun) && (r == 1 <==> k == Spot) && (r == 2 <==> k == Point)
  {
    match k
    case Sun => 0
    case Spot => 1
    case Point => 2
  }

  /** A 4x4 matrix, kept as the expression that built it; the float arithmetic
      of the matrix helpers is not part of this model. */
  datatype Matrix =
    | ZeroMatrix
    | View(angles: Vec3, origin: Vec3)
    | Ortho(bottom: real, top: real, left: real, right: real, near: real, far: real)
    | Perspective(fovx: real, fovy: real, near: real, far: real)
    | ShadowBias
    | Mul(a: Matrix, b: Matrix)

  const SunShadowSize: nat := 4096
  const SpotShadowSize: nat := 1024
  const SunShadowBias: real := 0.01
  const SpotShadowBias: real := 0.000001
  /** A spot light created with a zero far plane gets this one. */
  const DefaultSpotRange: real := 300.0
  /** `CULL_RADIUS`: spot lights farther than this from the eye are skipped. */
  const CullRadius: real := 1024.0
  const SpotCutoff: real := 0.3

  /** Map and console angles come as (yaw, pitch, roll); the engine keeps
      (-pitch, yaw, roll). */
  function InternalAngles(a: Vec3): (r: Vec3)
    ensures r[0] == -a[1] && r[1] == a[0] && r[2] == a[2]
  {
    [-a[1], a[0], a[2]]
  }

  /** What `r_shadow_sunangle` prints back for the stored angles. */
  function ConsoleAngles(la: Vec3): (r: Vec3)
  {
    [la[1], -la[0], la[2]]
  }

  /** The console readback returns the triple the sun was set up with. */
  lemma ConsoleAnglesRoundTrip(a: Vec3)
    ensures ConsoleAngles(InternalAngles(a)) == a
  {
  }

  /** One entry of the uniform block (`shadow_ubo_single_t`). */
  datatype ShadowRecord = ShadowRecord(
    shadowMatrix: Matrix, normal: Vec3, position: Vec3,
    brighten: real, darken: real, radius: real, bias: real, spotCutoff: real, lightType: int)

  /** A `shadow_frame_textures` entry: the depth texture and its texture unit. */
  datatype FrameTexture = FrameTexture(texture: nat, unit: int)

  /** GL calls and console output the registry makes, in order. */
  datatype GLEvent =
    | CreateShadowMap(texture: nat, width: nat, height: nat)
    | DeleteTexture(texture: nat)
    | LoadRandomTexture
    | MarkLightSurfaces(light: Light)
      /** The light's framebuffer and a viewport of its shadow-map size, or
          with `debug` the screen's own 1024x1024 corner. */
    | ShadowViewport(light: Light, debug: bool)
    | DrawShadowCasters(light: Light)
    | CreateUniformBuffer
    | ShadowLimitWarning
    | UploadUniforms(useShadow: int, count: nat, records: seq<ShadowRecord>)
    | RestoreViewport
    | MarkViewSurfaces
    | SelectUnit(unit: int)
    | BindTexture(texture: nat)
    | SetSampler(location: int, unit: int)

  /** Reply of the `r_shadow_sunangle` command: `SunMoved` stands for the
      console lines R_Shadow_SetupSun prints while placing the sun. */
  datatype AngleReply = NoActiveSun | CurrentAngles(angles: Vec3) | SunMoved | Silent

  /** `r_shadow_light_t`. */
  class Light {
    const kind: LightKind
    var id: nat
    var enabled: bool
    var rendered: bool
    var angles: Vec3
    var position: Vec3
    var normal: Vec3
    var width: nat
    var height: nat
    var bias: real
    var radius: real
    var brighten: real
    var darken: real
    var projView: Matrix
    var worldToShadow: Matrix
    var texture: nat

    /** `calloc`: every field zero. */
    constructor (kind: LightKind)
      ensures this.kind == kind && id == 0 && !enabled && !rendered
      ensures angles == Zero3 && position == Zero3 && normal == Zero3
      ensures width == 0 && height == 0 && bias == 0.0 && radius == 0.0
      ensures brighten == 0.0 && darken == 0.0
      ensures projView == ZeroMatrix && worldToShadow == ZeroMatrix && texture == 0
    {
      this.kind := kind;
      id := 0;
      enabled := false;
      rendered := false;
      angles := Zero3;
      position := Zero3;
      normal := Zero3;
      width := 0;
      height := 0;
      bias := 0.0;
      radius := 0.0;
      brighten := 0.0;
      darken := 0.0;
      projView := ZeroMatrix;
      worldToShadow := ZeroMatrix;
      texture := 0;
    }

    /** Point the light along `angles` with the given matrices. */
    method Aim(angles: Vec3, normal: Vec3, projView: Matrix, worldToShadow: Matrix)
      modifies this`angles, this`normal, this`projView, this`worldToShadow
      ensures this.angles == angles && this.normal == normal
      ensures this.projView == projView && this.worldToShadow == worldToShadow
    {
      this.angles := angles;
      this.normal := normal;
      this.projView := projView;
      this.worldToShadow := worldToShadow;
    }
  }

  /** The lights of `ls` whose `rendered` flag is set, in list order. */
  function RenderedOf(ls: seq<Light>): (r: seq<Light>)
    reads ls`rendered
    ensures |r| <= |ls|
  {
    if ls == [] then []
    else (if ls[0].rendered then [ls[0]] else []) + RenderedOf(ls[1..])
  }

  /** A light is among the rendered ones exactly when it is in the list with
      its flag set. */
  lemma {:induction false} RenderedOfMembers(ls: seq<Light>, l: Light)
    ensures l in RenderedOf(ls) <==> l in ls && l.rendered
  {
    if ls != [] {
      RenderedOfMembers(ls[1..], l);
      assert ls == [ls[0]] + ls[1..];
    }
  }

  lemma {:induction false} RenderedOfAppend(ls: seq<Light>, l: Light)
    ensures RenderedOf(ls + [l]) == RenderedOf(ls) + (if l.rendered then [l] else [])
  {
    if ls == [] {
      assert [l][1..] == [];
    } else {
      assert (ls + [l])[1..] == ls[1..] + [l];
      RenderedOfAppend(ls[1..], l);
    }
  }

  /** The lights of `ls` whose flag in `flags` is set, in list order. */
  function Selected(ls: seq<Light>, flags: seq<bool>): (r: seq<Light>)
    requires |flags| == |ls|
    ensures |r| <= |ls|
  {
    if ls == [] then []
    else Selected(ls[..|ls| - 1], flags[..|ls| - 1]) + (if flags[|ls| - 1] then [ls[|ls| - 1]] else [])
  }

  /** Extending both prefixes by one light adds that light when its flag is set. */
  lemma SelectedPrefix(ls: seq<Light>, flags: seq<bool>, i: nat)
    requires |flags| == |ls| && i < |ls|
    ensures Selected(ls[..i + 1], flags[..i + 1])
         == Selected(ls[..i], flags[..i]) + (if flags[i] then [ls[i]] else [])
  {
    assert ls[..i + 1][..i] == ls[..i];
    assert flags[..i + 1][..i] == flags[..i];
  }

  /** When the flags are the lights' `rendered` fields, the selection is the
      rendered lights. */
  lemma {:induction false} RenderedOfIsSelected(ls: seq<Light>, flags: seq<bool>)
    requires |flags| == |ls| && forall k :: 0 <= k < |ls| ==> ls[k].rendered == flags[k]
    ensures RenderedOf(ls) == Selected(ls, flags)
    decreases |ls|
  {
    if ls != [] {
      var n := |ls| - 1;
      RenderedOfIsSelected(ls[..n], flags[..n]);
      assert ls == ls[..n] + [ls[n]];
      RenderedOfAppend(ls[..n], ls[n]);
    }
  }

  /** The uniform record of a light. */
  function RecordOf(l: Light): ShadowRecord
    reads l`worldToShadow, l`normal, l`position, l`brighten, l`darken, l`radius, l`bias
  {
    ShadowRecord(l.worldToShadow, l.normal, l.position, l.brighten, l.darken, l.radius, l.bias,
                 SpotCutoff, KindCode(l.kind))
  }

  /** The events of the texture-binding loop for the first slots. */
  function BindEvents(slots: seq<FrameTexture>, locations: seq<int>): (r: seq<GLEvent>)
    requires |locations| >= |slots|
    ensures |r| == 3 * |slots|
    ensures forall k :: 0 <= k < |slots| ==>
              r[3 * k] == SelectUnit(slots[k].unit) && r[3 * k + 1] == BindTexture(slots[k].texture)
              && r[3 * k + 2] == SetSampler(locations[k], slots[k].unit)
  {
    if slots == [] then []
    else
      BindEvents(slots[..|slots| - 1], locations)
      + [SelectUnit(slots[|slots| - 1].unit), BindTexture(slots[|slots| - 1].texture),
         SetSampler(locations[|slots| - 1], slots[|slots| - 1].unit)]
  }

  /** One texture deletion per light, in list order. */
  function DeleteEvents(ls: seq<Light>): (r: seq<GLEvent>)
    reads ls`texture
    ensures |r| == |ls| && forall k {:trigger r[k]} :: 0 <= k < |ls| ==> r[k] == DeleteTexture(ls[k].texture)
  {
    if ls == [] then [] else DeleteEvents(ls[..|ls| - 1]) + [DeleteTexture(ls[|ls| - 1].texture)]
  }

  /** The kinds of a list of lights, in list order. */
  function KindsOf(ls: seq<Light>): (r: seq<LightKind>)
    ensures |r| == |ls|
  {
    if ls == [] then [] else [ls[0].kind] + KindsOf(ls[1..])
  }

  /** Entry `i` of the kinds is the kind of light `i`. */
  lemma {:induction false} KindsOfAt(ls: seq<Light>, i: nat)
    requires i < |ls|
    ensures KindsOf(ls)[i] == ls[i].kind
  {
    if i > 0 {
      KindsOfAt(ls[1..], i - 1);
    }
  }

  /** No two entries are suns. */
  predicate AtMostOneSun(kinds: seq<LightKind>)
  {
    forall i, j :: 0 <= i < j < |kinds| && kinds[i] == Sun ==> kinds[j] != Sun
  }

  /** What an entity's call decides about a light: its kind, position,
      (internal) angles and radius. */
  datatype Setting = Setting(kind: LightKind, position: Vec3, angles: Vec3, radius: real)

  /** The settings of a light. */
  function SettingOf(l: Light): Setting
    reads l`position, l`angles, l`radius
  {
    Setting(l.kind, l.position, l.angles, l.radius)
  }

  /** The settings of a list of lights, in list order. */
  function SettingsOf(ls: seq<Light>): (r: seq<Setting>)
    reads ls`position, ls`angles, ls`radius
    ensures |r| == |ls|
  {
    if ls == [] then [] else [SettingOf(ls[0])] + SettingsOf(ls[1..])
  }

  /** Entry `i` of the settings is the settings of light `i`. */
  lemma {:induction false} SettingsOfAt(ls: seq<Light>, i: nat)
    requires i < |ls|
    ensures SettingsOf(ls)[i] == SettingOf(ls[i])
  {
    if i > 0 {
      SettingsOfAt(ls[1..], i - 1);
    }
  }

  /** The kinds of a list of settings. */
  function Kinds(regs: seq<Setting>): (r: seq<LightKind>)
    ensures |r| == |regs| && forall i :: 0 <= i < |regs| ==> r[i] == regs[i].kind
  {
    seq(|regs|, i requires 0 <= i < |regs| => regs[i].kind)
  }

  /** The settings of a list of lights carry their kinds. */
  lemma SettingsKinds(ls: seq<Light>)
    ensures Kinds(SettingsOf(ls)) == KindsOf(ls)
  {
    forall i | 0 <= i < |ls| ensures Kinds(SettingsOf(ls))[i] == KindsOf(ls)[i] {
      SettingsOfAt(ls, i);
      KindsOfAt(ls, i);
    }
  }

  /** The settings after the sun is pointed along the internal angles `la`. */
  function AimSuns(regs: seq<Setting>, la: Vec3): (r: seq<Setting>)
    ensures |r| == |regs|
  {
    if regs == [] then []
    else [if regs[0].kind == Sun then regs[0].(angles := la) else regs[0]] + AimSuns(regs[1..], la)
  }

  /** Re-aiming changes the angles of the suns and nothing else. */
  lemma {:induction false} AimSunsAt(regs: seq<Setting>, la: Vec3, i: nat)
    requires i < |regs|
    ensures AimSuns(regs, la)[i] == if regs[i].kind == Sun then regs[i].(angles := la) else regs[i]
  {
    if i > 0 {
      AimSunsAt(regs[1..], la, i - 1);
    }
  }

  /** A light put in front of lights whose settings did not change adds its
      own settings in front. */
  twostate lemma PrependedSettings(new l: Light, ls: seq<Light>)
    requires forall m :: m in ls ==> m.position == old(m.position) && m.angles == old(m.angles) && m.radius == old(m.radius)
    ensures SettingsOf([l] + ls) == [SettingOf(l)] + old(SettingsOf(ls))
  {
    assert ([l] + ls)[1..] == ls;
    UnchangedSettings(ls);
  }

  /** Lights whose settings did not change keep the list's settings. */
  twostate lemma {:induction false} UnchangedSettings(ls: seq<Light>)
    requires forall m :: m in ls ==> m.position == old(m.position) && m.angles == old(m.angles) && m.radius == old(m.radius)
    ensures SettingsOf(ls) == old(SettingsOf(ls))
    decreases |ls|
  {
    if ls != [] {
      UnchangedSettings(ls[1..]);
    }
  }

  /** Every entry of the settings is the settings of its light. */
  lemma SettingsOfAll(ls: seq<Light>)
    ensures forall i :: 0 <= i < |ls| ==> SettingsOf(ls)[i] == SettingOf(ls[i])
  {
    forall i | 0 <= i < |ls| ensures SettingsOf(ls)[i] == SettingOf(ls[i]) {
      SettingsOfAt(ls, i);
    }
  }

  /** Lights that had the settings `before`, of which only the one sun `s`
      changed, and only its angles, to `la`: their settings are `before`
      with the sun re-aimed. */
  lemma {:induction false} ReaimedSettings(ls: seq<Light>, before: seq<Setting>, s: Light, la: Vec3)
    requires |before| == |ls|
    requires forall i :: 0 <= i < |ls| ==> (ls[i].kind == Sun <==> ls[i] == s)
    requires forall i :: 0 <= i < |ls| ==>
               before[i].kind == ls[i].kind && before[i].position == ls[i].position && before[i].radius == ls[i].radius
               && (ls[i] != s ==> before[i].angles == ls[i].angles)
    requires s in ls ==> s.angles == la
    ensures SettingsOf(ls) == AimSuns(before, la)
    decreases |ls|
  {
    if ls != [] {
      ReaimedSettings(ls[1..], before[1..], s, la);
    }
  }

  /** The settings of the sun R_Shadow_SetupSun creates: `calloc` leaves it at
      the origin with radius 0. */
  function NewSun(la: Vec3): Setting
  {
    Setting(Sun, Zero3, la, 0.0)
  }

  /** The range a spot light gets: 300 when the entity gives none. */
  function SpotRange(zfar: real): (r: real)
    ensures r != 0.0 && (zfar != 0.0 ==> r == zfar)
  {
    if zfar == 0.0 then DefaultSpotRange else zfar
  }

  /** The effect of one entity's call on the registry: a sun call does nothing
      when suns are disabled, re-aims the sun when there is one and otherwise
      puts a new sun in front; a spot call always puts a new spot light in
      front at the call's origin, angles and range. */
  function RegisterOne(regs: seq<Setting>, c: LightCall, sunOn: bool): seq<Setting>
  {
    match c
    case SetupSunCall(a) =>
      if !sunOn then regs
      else if Sun in Kinds(regs) then AimSuns(regs, InternalAngles(a))
      else [NewSun(InternalAngles(a))] + regs
    case AddSpotCall(origin, angles, _, zfar) =>
      [Setting(Spot, origin, InternalAngles(angles), SpotRange(zfar))] + regs
  }

  /** The registry a sequence of entity dispatches leads to. */
  function Registered(regs: seq<Setting>, calls: seq<LightCall>, sunOn: bool): seq<Setting>
    decreases |calls|
  {
    if calls == [] then regs else Registered(RegisterOne(regs, calls[0], sunOn), calls[1..], sunOn)
  }

  lemma {:induction false} RegisteredConcat(regs: seq<Setting>, a: seq<LightCall>, b: seq<LightCall>, sunOn: bool)
    ensures Registered(regs, a + b, sunOn) == Registered(Registered(regs, a, sunOn), b, sunOn)
    decreases |a|
  {
    if a == [] {
      assert a + b == b;
    } else {
      assert (a + b)[0] == a[0] && (a + b)[1..] == a[1..] + b;
      RegisteredConcat(RegisterOne(regs, a[0], sunOn), a[1..], b, sunOn);
    }
  }

  /** One call never makes a second sun. */
  lemma RegisterOneKeepsOneSun(regs: seq<Setting>, c: LightCall, sunOn: bool)
    requires AtMostOneSun(Kinds(regs))
    ensures AtMostOneSun(Kinds(RegisterOne(regs, c, sunOn)))
  {
    var kinds, next := Kinds(regs), Kinds(RegisterOne(regs, c, sunOn));
    if |next| != |kinds| {
      forall i, j | 0 <= i < j < |next| && next[i] == Sun ensures next[j] != Sun {
        assert next[j] == kinds[j - 1];
        if i > 0 {
          assert next[i] == kinds[i - 1];
        }
      }
    } else {
      forall i | 0 <= i < |kinds| ensures next[i] == kinds[i] {
        if sunOn && Sun in kinds {
          AimSunsAt(regs, InternalAngles(c.angle), i);
        }
      }
    }
  }

  /** However many sun calls a level makes, the registry never holds two suns. */
  lemma {:induction false} RegisteredKeepsOneSun(regs: seq<Setting>, calls: seq<LightCall>, sunOn: bool)
    requires AtMostOneSun(Kinds(regs))
    ensures AtMostOneSun(Kinds(Registered(regs, calls, sunOn)))
    decreases |calls|
  {
    if calls != [] {
      RegisterOneKeepsOneSun(regs, calls[0], sunOn);
      RegisteredKeepsOneSun(RegisterOne(regs, calls[0], sunOn), calls[1..], sunOn);
    }
  }

  /** The level with a `_shadowsun` worldspawn registers exactly one light, a
      sun at the origin aimed along the converted `_shadowsun` angles, when
      suns are enabled, and none otherwise. */
  lemma SunLevelRegistersOneSun(acc: Accum, num: Numbers, sunOn: bool)
    ensures Registered([], Dispatch(ScanEvents(SunLevel), acc, num).calls, sunOn)
         == (if sunOn then [NewSun(InternalAngles(num.atof3("45 10 0")))] else [])
  {
    SunLevelSetsUpOneSun(acc, num);
    var c := SetupSunCall(num.atof3("45 10 0"));
    assert [c][1..] == [];
    assert Kinds([]) == [];
  }

  /** The corners of an axis-aligned box, in the order the bounds are folded. */
  function Corners(mins: Vec3, maxs: Vec3): (r: seq<Vec3>)
    ensures |r| == 8
  {
    [ [mins[0], mins[1], mins[2]], [maxs[0], mins[1], mins[2]],
      [maxs[0], maxs[1], mins[2]], [mins[0], maxs[1], mins[2]],
      [mins[0], mins[1], maxs[2]], [maxs[0], mins[1], maxs[2]],
      [maxs[0], maxs[1], maxs[2]], [mins[0], maxs[1], maxs[2]] ]
  }

  function Axis(pts: seq<Vec3>, ax: nat): (r: seq<real>)
    requires ax < 3
    ensures |r| == |pts| && forall i {:trigger r[i]} :: 0 <= i < |pts| ==> r[i] == pts[i][ax]
  {
    seq(|pts|, i requires 0 <= i < |pts| => pts[i][ax])
  }

  /** The smallest of `xs`, starting from `FLT_MAX`. */
  function LowBound(xs: seq<real>): real
  {
    if xs == [] then FltMax
    else
      var m := LowBound(xs[..|xs| - 1]);
      if xs[|xs| - 1] < m then xs[|xs| - 1] else m
  }

  /** The largest of `xs`, starting from `-FLT_MAX`. */
  function HighBound(xs: seq<real>): real
  {
    if xs == [] then -FltMax
    else
      var m := HighBound(xs[..|xs| - 1]);
      if xs[|xs| - 1] > m then xs[|xs| - 1] else m
  }

  /** The low bound is at most `FLT_MAX` and every point, and is either
      `FLT_MAX` or one of the points. */
  lemma {:induction false} LowBoundBrackets(xs: seq<real>)
    ensures LowBound(xs) <= FltMax && forall k :: 0 <= k < |xs| ==> LowBound(xs) <= xs[k]
    ensures LowBound(xs) == FltMax || exists k :: 0 <= k < |xs| && LowBound(xs) == xs[k]
  {
    if xs != [] {
      var init := xs[..|xs| - 1];
      LowBoundBrackets(init);
      assert forall k :: 0 <= k < |init| ==> init[k] == xs[k];
    }
  }

  /** The high bound is at least `-FLT_MAX` and every point, and is either
      `-FLT_MAX` or one of the points. */
  lemma {:induction false} HighBoundBrackets(xs: seq<real>)
    ensures HighBound(xs) >= -FltMax && forall k :: 0 <= k < |xs| ==> HighBound(xs) >= xs[k]
    ensures HighBound(xs) == -FltMax || exists k :: 0 <= k < |xs| && HighBound(xs) == xs[k]
  {
    if xs != [] {
      var init := xs[..|xs| - 1];
      HighBoundBrackets(init);
      assert forall k :: 0 <= k < |init| ==> init[k] == xs[k];
    }
  }

  /** When the points are finite floats, the bounds are attained: the folds'
      starting values never survive. */
  lemma BoundsAttained(xs: seq<real>)
    requires |xs| > 0 && forall k :: 0 <= k < |xs| ==> -FltMax <= xs[k] <= FltMax
    ensures exists k :: 0 <= k < |xs| && LowBound(xs) == xs[k]
    ensures exists k :: 0 <= k < |xs| && HighBound(xs) == xs[k]
  {
    LowBoundBrackets(xs);
    HighBoundBrackets(xs);
    if LowBound(xs) == FltMax {
      assert LowBound(xs) <= xs[0];
    }
    if HighBound(xs) == -FltMax {
      assert HighBound(xs) >= xs[0];
    }
  }

  /** `(int)x`: conversion toward zero. */
  function TruncateToInt(x: real): (r: int)
    ensures x >= 0.0 ==> r == x.Floor
    ensures x < 0.0 ==> r == -((-x).Floor)
  {
    if x >= 0.0 then x.Floor else -((-x).Floor)
  }

  /** `n` limit warnings in a row. */
  function Warnings(n: nat): (r: seq<GLEvent>)
    ensures |r| == n && forall k :: 0 <= k < n ==> r[k] == ShadowLimitWarning
  {
    if n == 0 then [] else Warnings(n - 1) + [ShadowLimitWarning]
  }

  /** `shadow_ubo_data` and the `shadow_frame_textures` table beside it: at
      most `MAX_FRAME_SHADOWS` records, packed from the front. */
  class UniformBlock {
    /** `MAX_FRAME_SHADOWS`. */
    const capacity: nat
    /** `SHADOW_MAP_TEXTURE_UNIT - GL_TEXTURE0`. */
    const unitBase: int
    /** Whether `shadow_ubo` has been created. */
    var created: bool
    var useShadow: int
    var count: nat
    const records: array<ShadowRecord>
    const slots: array<FrameTexture>
    ghost var events: seq<GLEvent>

    ghost predicate Valid()
      reads this`count
    {
      records.Length == capacity && slots.Length == capacity && count <= capacity
    }

    constructor (capacity: nat, unitBase: int)
      ensures Valid() && this.capacity == capacity && this.unitBase == unitBase
      ensures !created && count == 0 && events == []
    {
      this.capacity := capacity;
      this.unitBase := unitBase;
      created := false;
      useShadow := 0;
      count := 0;
      records := new ShadowRecord[capacity](_ => ShadowRecord(ZeroMatrix, Zero3, Zero3, 0.0, 0.0, 0.0, 0.0, 0.0, 0));
      slots := new FrameTexture[capacity](_ => FrameTexture(0, 0));
      events := [];
    }

    /** The texture slot of a light: its depth texture, on the unit its id selects. */
    function SlotOf(l: Light): FrameTexture
      reads l`texture, l`id
    {
      FrameTexture(l.texture, unitBase + l.id)
    }

    /** R_Shadow_AddLightToUniformBuffer: append the light's record and texture
        slot, or warn and drop it when the block is full. */
    method AddLight(l: Light)
      requires Valid()
      modifies this`count, this`events, records, slots
      ensures Valid()
      ensures old(count) == capacity ==>
                count == old(count) && events == old(events) + [ShadowLimitWarning]
                && records[..] == old(records[..]) && slots[..] == old(slots[..])
      ensures old(count) < capacity ==>
                count == old(count) + 1 && events == old(events)
                && records[..] == old(records[..])[old(count) := RecordOf(l)]
                && slots[..] == old(slots[..])[old(count) := SlotOf(l)]
    {
      if count >= capacity {
        events := events + [ShadowLimitWarning];
        return;
      }
      records[count] := RecordOf(l);
      slots[count] := SlotOf(l);
      count := count + 1;
    }

    /** Entries `0 .. count` hold the records and slots of `shown`'s first lights. */
    ghost predicate HoldsFirst(shown: seq<Light>)
      reads this`count, records, slots, shown
    {
      Valid() && count <= |shown|
      && forall k :: 0 <= k < count ==> records[k] == RecordOf(shown[k]) && slots[k] == SlotOf(shown[k])
    }

    /** The arrays after packing `shown` into a block that held `oldRecords`
        and `oldSlots`: as many of them as fit, in order, and the unused
        entries untouched. */
    ghost predicate Filled(shown: seq<Light>, oldRecords: seq<ShadowRecord>, oldSlots: seq<FrameTexture>)
      reads this`count, records, slots, shown
    {
      HoldsFirst(shown) && count == Min(|shown|, capacity)
      && |oldRecords| == |oldSlots| == capacity
      && forall k :: count <= k < capacity ==> records[k] == oldRecords[k] && slots[k] == oldSlots[k]
    }

    /** `Filled`, and one warning after `start` per light that did not fit. */
    ghost predicate Packing(shown: seq<Light>, start: seq<GLEvent>,
                            oldRecords: seq<ShadowRecord>, oldSlots: seq<FrameTexture>)
      reads this`count, this`events, records, slots, shown
    {
      Filled(shown, oldRecords, oldSlots) && events == start + Warnings(|shown| - count)
    }

    /** The loop body of R_Shadow_UpdateUniformBuffer: a rendered light
        follows the lights already packed, or is dropped with a warning; any
        other light is passed over. */
    method Consider(l: Light, ghost shown: seq<Light>, ghost start: seq<GLEvent>,
                    ghost oldRecords: seq<ShadowRecord>, ghost oldSlots: seq<FrameTexture>)
      requires Packing(shown, start, oldRecords, oldSlots)
      modifies this`count, this`events, records, slots
      ensures Packing(shown + (if l.rendered then [l] else []), start, oldRecords, oldSlots)
    {
      if l.rendered {
        AddLight(l);
        assert forall k :: 0 <= k < |shown| ==> (shown + [l])[k] == shown[k];
      } else {
        assert shown + [] == shown;
      }
    }

    /** R_Shadow_UpdateUniformBuffer: create the buffer on first use, repack
        the rendered lights in list order up to the capacity, and upload the
        whole block. */
    method Update(lights: seq<Light>, sunCvar: real)
      requires Valid()
      modifies this`created, this`useShadow, this`count, this`events, records, slots
      ensures created && useShadow == TruncateToInt(sunCvar)
      ensures Filled(RenderedOf(lights), old(records[..]), old(slots[..]))
      ensures events == old(events) + (if old(created) then [] else [CreateUniformBuffer])
                        + Warnings(|RenderedOf(lights)| - count) + [UploadUniforms(useShadow, count, records[..])]
    {
      if !created {
        created := true;
        events := events + [CreateUniformBuffer];
      }
      useShadow := TruncateToInt(sunCvar);
      count := 0;
      PackAll(lights);
      events := events + [UploadUniforms(useShadow, count, records[..])];
    }

    /** The loop of R_Shadow_UpdateUniformBuffer, from an empty block. */
    method PackAll(lights: seq<Light>)
      requires Valid() && count == 0
      modifies this`count, this`events, records, slots
      ensures Packing(RenderedOf(lights), old(events), old(records[..]), old(slots[..]))
    {
      ghost var start, oldRecords, oldSlots := events, records[..], slots[..];
      ghost var shown: seq<Light> := [];
      var i := 0;
      while i < |lights|
        invariant 0 <= i <= |lights| && shown == RenderedOf(lights[..i])
        invariant Packing(shown, start, oldRecords, oldSlots)
      {
        shown := ConsiderAt(lights, i, lights[i], shown, start, oldRecords, oldSlots);
        i := i + 1;
      }
      assert lights[..i] == lights;
    }

    /** `Consider` on the light at position `i`, seen from the whole list:
        the packed lights grow from the rendered ones before `i` to the
        rendered ones up to and including it. */
    method ConsiderAt(lights: seq<Light>, i: nat, l: Light, ghost shown: seq<Light>, ghost start: seq<GLEvent>,
                      ghost oldRecords: seq<ShadowRecord>, ghost oldSlots: seq<FrameTexture>)
      returns (ghost shown': seq<Light>)
      requires i < |lights| && l == lights[i] && shown == RenderedOf(lights[..i])
      requires Packing(shown, start, oldRecords, oldSlots)
      modifies this`count, this`events, records, slots
      ensures shown' == RenderedOf(lights[..i + 1]) && Packing(shown', start, oldRecords, oldSlots)
    {
      assert lights[..i + 1] == lights[..i] + [l];
      RenderedOfAppend(lights[..i], l);
      Consider(l, shown, start, oldRecords, oldSlots);
      shown' := shown + (if l.rendered then [l] else []);
    }

    /** R_Shadow_BindTextures: bind each packed texture to its unit and point
        the matching sampler at that unit. */
    method BindTextures(locations: seq<int>)
      requires Valid() && |locations| >= count
      modifies this`events
      ensures events == old(events) + BindEvents(slots[..count], locations)
    {
      var i := 0;
      while i < count
        invariant 0 <= i <= count
        invariant events == old(events) + BindEvents(slots[..i], locations)
      {
        var slot := slots[i];
        assert slots[..i + 1][..i] == slots[..i];
        events := events + [SelectUnit(slot.unit), BindTexture(slot.texture), SetSampler(locations[i], slot.unit)];
        i := i + 1;
      }
    }
  }
}
