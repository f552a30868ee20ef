/** The shadow-light registry of r_shadow.c as one object: the list of lights
    (newest first) with its id counter and its single sun, the parser's
    accumulators, the console variables the shadow code reads, and the
    per-frame pass that redraws the shadow maps and repacks the uniform block.
    GL calls and console output are appended to the ghost log `emitted`. */
module ShadowRegistry {
  import opened Common
  import opened ShadowParse
  import opened ShadowLights

  /** One step of the scan keeps the registry on course: what the rest of
      the text registers after this step's calls is what the whole remaining
      text registers. */
  lemma StepPending(text: string, offs: nat, s: ScanState, acc: Accum, num: Numbers,
                    regs: seq<Setting>, on: bool, start: seq<Setting>, total: Outcome)
    requires offs < |text| && s.begin <= offs && s.keyAt <= offs
    requires var rest := ScanDispatch(text, offs, s, acc, num);
             rest.acc == total.acc && Registered(regs, rest.calls, on) == Registered(start, total.calls, on)
    ensures var r := Step(text, offs, s);
            var now := Dispatch(r.events, acc, num);
            var later := ScanDispatch(text, r.last + 1, r.next, now.acc, num);
            later.acc == total.acc
            && Registered(Registered(regs, now.calls, on), later.calls, on) == Registered(start, total.calls, on)
  {
    var r := Step(text, offs, s);
    var now := Dispatch(r.events, acc, num);
    var later := ScanDispatch(text, r.last + 1, r.next, now.acc, num);
    ScanDispatchStep(text, offs, s, acc, num);
    RegisteredConcat(regs, now.calls, later.calls, on);
  }

  class Shadows {
    // The environment: the view transform of a point for given angles and
    // origin, AngleVectors' forward vector, the length of a difference, the
    // world model's bounding box and the two string-to-number readers.
    const viewTransform: (Vec3, Vec3, Vec3) -> Vec3
    const forward: Vec3 -> Vec3
    const distance: (Vec3, Vec3) -> real
    const worldMins: Vec3
    const worldMaxs: Vec3
    const num: Numbers
    /** `shadow_ubo_data` and `shadow_frame_textures`. */
    const ubo: UniformBlock

    // Console variables.
    var sunCvar: real
    var sunDebug: real
    var sunBrighten: real
    var sunDarken: real

    // The registry: `first_light` as a list, `sun_light`, `light_id_gen`.
    var lights: seq<Light>
    var sun: Light?
    var idGen: nat
    var lastRendered: Light?
    /** The next name `glGenTextures` hands out. */
    var textureGen: nat

    // Sun placement.
    var currentSunPos: Vec3
    var debugSunPos: Vec3
    var debugOverrideSunPos: bool

    /** The parser's global accumulators. */
    var acc: Accum

    ghost var emitted: seq<GLEvent>

    /** Ids count down from the newest light to 0: the head has the latest id
        and every light its own. */
    ghost predicate IdsValid()
      reads this`lights, this`idGen, lights`id
    {
      |lights| == idGen && forall i :: 0 <= i < |lights| ==> lights[i].id == idGen - 1 - i
    }

    /** `sun_light` is the one sun of the list, or null when the list has none. */
    ghost predicate SunValid()
      reads this`lights, this`sun
    {
      (sun == null <==> Sun !in KindsOf(lights))
      && (sun != null ==> sun in lights && sun.kind == Sun)
      && AtMostOneSun(KindsOf(lights))
    }

    ghost predicate Valid()
      reads this`lights, this`idGen, this`sun, lights`id
    {
      IdsValid() && SunValid()
    }

    /** Lights at different list positions are different objects. */
    lemma DistinctLights()
      requires IdsValid()
      ensures NoDup(lights)
    {
      forall i, j | 0 <= i < j < |lights| ensures lights[i] != lights[j] {
        assert lights[i].id != lights[j].id;
      }
    }

    /** The sun is the only light of kind `Sun` in the list. */
    lemma OnlySun()
      requires SunValid() && sun != null
      ensures forall i :: 0 <= i < |lights| ==> (lights[i].kind == Sun <==> lights[i] == sun)
    {
      var j :| 0 <= j < |lights| && lights[j] == sun;
      forall i | 0 <= i < |lights| ensures lights[i].kind == Sun <==> lights[i] == sun {
        KindsOfAt(lights, i);
        KindsOfAt(lights, j);
      }
    }

    /** R_Shadow_CullLight: a light at `position` is within `CULL_RADIUS` of
        the eye. */
    predicate CullLight(position: Vec3, eye: Vec3)
    {
      distance(eye, position) <= CullRadius
    }

    /** Whether the frame pass draws the shadow map of a light of the given
        kind and position, with `r_shadow_sun` at `sunValue` and the eye at `eye`. */
    predicate ShouldRender(kind: LightKind, position: Vec3, sunValue: real, eye: Vec3)
    {
      match kind
      case Sun => sunValue != 0.0
      case Spot => CullLight(position, eye)
      case Point => false
    }

    constructor (viewTransform: (Vec3, Vec3, Vec3) -> Vec3, forward: Vec3 -> Vec3,
                 distance: (Vec3, Vec3) -> real, worldMins: Vec3, worldMaxs: Vec3, num: Numbers,
                 maxFrameShadows: nat, shadowUnitBase: int)
      ensures Valid() && lights == [] && sun == null && idGen == 0 && lastRendered == null
      ensures sunCvar == 1.0 && sunDebug == 0.0 && sunBrighten == 0.2 && sunDarken == 0.4
      ensures this.viewTransform == viewTransform && this.forward == forward && this.distance == distance
      ensures this.worldMins == worldMins && this.worldMaxs == worldMaxs && this.num == num
      ensures fresh(ubo) && ubo.Valid() && ubo.capacity == maxFrameShadows && ubo.unitBase == shadowUnitBase
      ensures !ubo.created && ubo.count == 0 && ubo.events == []
      ensures acc == ZeroAccum && !debugOverrideSunPos && emitted == []
    {
      this.viewTransform := viewTransform;
      this.forward := forward;
      this.distance := distance;
      this.worldMins := worldMins;
      this.worldMaxs := worldMaxs;
      this.num := num;
      ubo := new UniformBlock(maxFrameShadows, shadowUnitBase);
      sunCvar := 1.0;
      sunDebug := 0.0;
      sunBrighten := 0.2;
      sunDarken := 0.4;
      lights := [];
      sun := null;
      idGen := 0;
      lastRendered := null;
      textureGen := 0;
      currentSunPos := Zero3;
      debugSunPos := Zero3;
      debugOverrideSunPos := false;
      acc := ZeroAccum;
      emitted := [];
    }

    // -------------------------------------------------------------------------
    // Registry
    // -------------------------------------------------------------------------

    /** R_Shadow_LinkLight: the light takes the counter as its id and becomes
        the list head; the rest of the list is unchanged. */
    method LinkLight(l: Light)
      requires IdsValid() && l !in lights
      modifies this`lights, this`idGen, l`id
      ensures IdsValid()
      ensures lights == [l] + old(lights) && l.id == old(idGen) && idGen == old(idGen) + 1
    {
      l.id := idGen;
      idGen := idGen + 1;
      lights := [l] + lights;
    }

    /** R_Shadow_CreateFramebuffer, reduced to the depth texture it names. */
    method CreateFramebuffer(l: Light)
      modifies this`textureGen, this`emitted, l`texture
      ensures l.texture == old(textureGen) && textureGen == old(textureGen) + 1
      ensures emitted == old(emitted) + [CreateShadowMap(l.texture, l.width, l.height)]
    {
      l.texture := textureGen;
      textureGen := textureGen + 1;
      emitted := emitted + [CreateShadowMap(l.texture, l.width, l.height)];
    }

    /** R_Shadow_ClearLights: delete every light's depth texture in list order,
        then empty the list, forget the sun and restart the numbering at 0. */
    method ClearLights()
      requires Valid()
      modifies this`lights, this`idGen, this`sun, this`emitted
      ensures Valid() && lights == [] && sun == null && idGen == 0
      ensures emitted == old(emitted) + DeleteEvents(old(lights))
    {
      var i := 0;
      while i < |lights|
        invariant 0 <= i <= |lights| && lights == old(lights)
        invariant emitted == old(emitted) + DeleteEvents(lights[..i])
      {
        assert lights[..i + 1][..i] == lights[..i];
        emitted := emitted + [DeleteTexture(lights[i].texture)];
        i := i + 1;
      }
      assert lights[..i] == lights;
      sun := null;
      lights := [];
      idGen := 0;
    }

    /** The box corners after the view transform for `angles` about the origin. */
    function ViewCorners(mins: Vec3, maxs: Vec3, angles: Vec3): (r: seq<Vec3>)
      ensures |r| == 8
    {
      var c := Corners(mins, maxs);
      seq(8, i requires 0 <= i < 8 => viewTransform(angles, Zero3, c[i]))
    }

    /** R_Shadow_GetWorldProjectionBounds: per axis, the smallest and largest
        coordinate of the eight box corners as seen from `angles`. */
    method WorldProjectionBounds(mins: Vec3, maxs: Vec3, angles: Vec3) returns (lo: Vec3, hi: Vec3)
      ensures forall ax :: 0 <= ax < 3 ==> lo[ax] == LowBound(Axis(ViewCorners(mins, maxs, angles), ax))
      ensures forall ax :: 0 <= ax < 3 ==> hi[ax] == HighBound(Axis(ViewCorners(mins, maxs, angles), ax))
    {
      var v := ViewCorners(mins, maxs, angles);
      lo := [FltMax, FltMax, FltMax];
      hi := [-FltMax, -FltMax, -FltMax];
      var i := 0;
      while i < 8
        invariant 0 <= i <= 8
        invariant forall ax :: 0 <= ax < 3 ==> lo[ax] == LowBound(Axis(v[..i], ax)) && hi[ax] == HighBound(Axis(v[..i], ax))
      {
        var ax := 0;
        while ax < 3
          invariant 0 <= ax <= 3
          invariant forall a :: 0 <= a < ax ==> lo[a] == LowBound(Axis(v[..i + 1], a)) && hi[a] == HighBound(Axis(v[..i + 1], a))
          invariant forall a :: ax <= a < 3 ==> lo[a] == LowBound(Axis(v[..i], a)) && hi[a] == HighBound(Axis(v[..i], a))
        {
          assert Axis(v[..i + 1], ax)[..i] == Axis(v[..i], ax);
          if v[i][ax] < lo[ax] {
            lo := lo[ax := v[i][ax]];
          }
          if v[i][ax] > hi[ax] {
            hi := hi[ax := v[i][ax]];
          }
          ax := ax + 1;
        }
        i := i + 1;
      }
      assert v[..8] == v;
    }

    /** Every transformed corner lies within the bounds on every axis, and
        with finite coordinates each bound is one of the corners'. */
    lemma ProjectionBoundsTight(mins: Vec3, maxs: Vec3, angles: Vec3, ax: nat)
      requires ax < 3
      requires forall i :: 0 <= i < 8 ==> -FltMax <= ViewCorners(mins, maxs, angles)[i][ax] <= FltMax
      ensures var v := ViewCorners(mins, maxs, angles);
              var pts := Axis(v, ax);
              (forall i :: 0 <= i < 8 ==> LowBound(pts) <= v[i][ax] <= HighBound(pts))
              && (exists i :: 0 <= i < 8 && LowBound(pts) == v[i][ax])
              && (exists i :: 0 <= i < 8 && HighBound(pts) == v[i][ax])
    {
      var v := ViewCorners(mins, maxs, angles);
      var pts := Axis(v, ax);
      assert forall i :: 0 <= i < 8 ==> pts[i] == v[i][ax];
      LowBoundBrackets(pts);
      HighBoundBrackets(pts);
      BoundsAttained(pts);
    }

    /** The sun's projection: an ortho box over the bounds seen along the
        light, with near and far taken from the bounds seen from the opposite
        direction. */
    function SunProjection(la: Vec3): Matrix
    {
      var v := ViewCorners(worldMins, worldMaxs, la);
      var back := ViewCorners(worldMins, worldMaxs, [-la[0], la[1] + 180.0, la[2]]);
      Ortho(LowBound(Axis(v, 1)), HighBound(Axis(v, 1)), LowBound(Axis(v, 0)), HighBound(Axis(v, 0)),
            LowBound(Axis(back, 2)), HighBound(Axis(back, 2)))
    }

    /** The two bound computations of R_Shadow_SetupSun and the projection
        built from them. */
    method SunProjectionFor(la: Vec3) returns (proj: Matrix)
      ensures proj == SunProjection(la)
    {
      var lo, hi := WorldProjectionBounds(worldMins, worldMaxs, la);
      var back: Vec3 := [-la[0], la[1] + 180.0, la[2]];
      var backLo, backHi := WorldProjectionBounds(worldMins, worldMaxs, back);
      proj := Ortho(lo[1], hi[1], lo[0], hi[0], backLo[2], backHi[2]);
    }

    /** The fixed settings R_Shadow_SetupSun gives the sun it creates. */
    static ghost predicate SunSettings(l: Light)
      reads l`enabled, l`width, l`height, l`bias, l`position, l`radius
    {
      l.kind == Sun && l.enabled && l.width == SunShadowSize && l.height == SunShadowSize
      && l.bias == SunShadowBias && l.position == Zero3 && l.radius == 0.0
    }

    /** The `calloc`ed sun of R_Shadow_SetupSun with its fixed settings. */
    static method NewSunLight() returns (l: Light)
      ensures fresh(l) && SunSettings(l)
    {
      l := new Light(Sun);
      l.enabled := true;
      l.width := SunShadowSize;
      l.height := SunShadowSize;
      l.bias := SunShadowBias;
    }

    /** R_Shadow_SetupSun: nothing when `r_shadow_sun` is 0; otherwise create
        and link the sun when there is none, then point it along the given
        (yaw, pitch, roll) and rebuild its matrices. */
    method SetupSun(angle: Vec3)
      requires Valid()
      modifies this`sun, this`lights, this`idGen, this`textureGen, this`emitted
      modifies this`currentSunPos, this`debugOverrideSunPos
      modifies SunSet()`angles, SunSet()`normal, SunSet()`projView, SunSet()`worldToShadow
      ensures Valid()
      ensures SettingsOf(lights) == RegisterOne(old(SettingsOf(lights)), SetupSunCall(angle), sunCvar != 0.0)
      ensures sunCvar == 0.0 ==> lights == old(lights) && sun == old(sun) && emitted == old(emitted)
      ensures sunCvar != 0.0 ==> SunPlaced(old(sun), old(lights), old(idGen), old(emitted), angle,
                                           if old(debugOverrideSunPos) then old(debugSunPos) else Zero3)
      ensures old(sun) == null && sun != null ==> fresh(sun)
    {
      if sunCvar == 0.0 {
        return;
      }
      SetupSunOn(angle);
    }

    /** What R_Shadow_SetupSun leaves behind with suns enabled, given the sun,
        list, id counter and log before the call: the old sun or a fresh,
        linked one with its depth texture, aimed along `angle` from `pos`. */
    ghost predicate SunPlaced(sun0: Light?, lights0: seq<Light>, idGen0: nat, emitted0: seq<GLEvent>,
                              angle: Vec3, pos: Vec3)
      reads this`sun, this`lights, this`idGen, this`emitted, this`currentSunPos, this`debugOverrideSunPos
      reads SunSet()`angles, SunSet()`normal, SunSet()`projView, SunSet()`worldToShadow
      reads SunSet()`enabled, SunSet()`width, SunSet()`height, SunSet()`bias, SunSet()`texture
      reads SunSet()`position, SunSet()`radius
      reads SunSet()`id
    {
      sun != null && (sun0 != null ==> sun == sun0 && lights == lights0 && emitted == emitted0 + [LoadRandomTexture])
      && (sun0 == null ==>
            lights == [sun] + lights0 && sun.id == idGen0 && idGen == idGen0 + 1 && SunSettings(sun)
            && emitted == emitted0 + [CreateShadowMap(sun.texture, SunShadowSize, SunShadowSize), LoadRandomTexture])
      && AimedAlong(sun, angle, pos) && !debugOverrideSunPos
    }

    /** R_Shadow_SetupSun past the `r_shadow_sun` test. */
    method SetupSunOn(angle: Vec3)
      requires Valid()
      modifies this`sun, this`lights, this`idGen, this`textureGen, this`emitted
      modifies this`currentSunPos, this`debugOverrideSunPos
      modifies SunSet()`angles, SunSet()`normal, SunSet()`projView, SunSet()`worldToShadow
      ensures Valid() && SettingsOf(lights) == RegisterOne(old(SettingsOf(lights)), SetupSunCall(angle), true)
      ensures SunPlaced(old(sun), old(lights), old(idGen), old(emitted), angle,
                        if old(debugOverrideSunPos) then old(debugSunPos) else Zero3)
      ensures old(sun) == null ==> fresh(sun)
    {
      ghost var before := SettingsOf(lights);
      SettingsOfAll(lights);
      SettingsKinds(lights);
      if sun == null {
        FirstSun(angle);
        PrependedSettings(sun, old(lights));
      } else {
        AimSun(angle);
        OnlySun();
        ReaimedSettings(lights, before, sun, InternalAngles(angle));
      }
    }

    /** R_Shadow_SetupSun with suns enabled and no sun yet. */
    method FirstSun(angle: Vec3)
      requires Valid() && sun == null
      modifies this`sun, this`lights, this`idGen, this`textureGen, this`emitted
      modifies this`currentSunPos, this`debugOverrideSunPos
      ensures Valid() && KindsOf(lights) == [Sun] + old(KindsOf(lights)) && fresh(sun)
      ensures SunPlaced(null, old(lights), old(idGen), old(emitted), angle,
                        if old(debugOverrideSunPos) then old(debugSunPos) else Zero3)
    {
      CreateSun();
      AimSun(angle);
    }

    /** The sun, as a set: empty when there is none. */
    function SunSet(): set<Light>
      reads this`sun
    {
      if sun == null then {} else {sun as Light}
    }

    /** The sun `l` has been pointed along the (yaw, pitch, roll) triple
        `angle` from `pos`, its normal and matrices rebuilt to match. */
    ghost predicate AimedAlong(l: Light, angle: Vec3, pos: Vec3)
      reads this`currentSunPos, l`angles, l`normal, l`projView, l`worldToShadow
    {
      l.angles == InternalAngles(angle) && l.normal == forward(l.angles) && currentSunPos == pos
      && l.projView == Mul(SunProjection(l.angles), View(l.angles, pos))
      && l.worldToShadow == Mul(ShadowBias, l.projView)
    }

    /** The first half of R_Shadow_SetupSun when there is no sun yet: create
        it, link it and give it its depth texture. */
    method CreateSun()
      requires Valid() && sun == null
      modifies this`sun, this`lights, this`idGen, this`textureGen, this`emitted
      ensures Valid() && sun != null && fresh(sun) && lights == [sun] + old(lights) && sun.id == old(idGen)
      ensures SunSettings(sun)
      ensures KindsOf(lights) == [Sun] + old(KindsOf(lights))
      ensures emitted == old(emitted) + [CreateShadowMap(sun.texture, SunShadowSize, SunShadowSize)]
    {
      var l := NewSunLight();
      sun := l;
      LinkLight(l);
      CreateFramebuffer(l);
      SunAdded(old(lights), l);
    }

    /** The rest of R_Shadow_SetupSun: store the angles, place the sun and
        rebuild its matrices; no other light changes. */
    method AimSun(angle: Vec3)
      requires Valid() && sun != null
      modifies this`emitted, this`currentSunPos, this`debugOverrideSunPos
      modifies SunSet()`angles, SunSet()`normal, SunSet()`projView, SunSet()`worldToShadow
      ensures Valid() && sun != null && sun == old(sun) && lights == old(lights)
      ensures AimedAlong(sun, angle, if old(debugOverrideSunPos) then old(debugSunPos) else Zero3)
      ensures !debugOverrideSunPos
      ensures emitted == old(emitted) + [LoadRandomTexture]
      ensures forall l :: l in lights && l != sun ==>
                l.angles == old(l.angles) && l.normal == old(l.normal)
                && l.projView == old(l.projView) && l.worldToShadow == old(l.worldToShadow)
    {
      var la := InternalAngles(angle);
      var pos := Zero3;
      if debugOverrideSunPos {
        pos := debugSunPos;
        debugOverrideSunPos := false;
      }
      currentSunPos := pos;
      var proj := SunProjectionFor(la);
      var projView := Mul(proj, View(la, pos));
      sun.Aim(la, forward(la), projView, Mul(ShadowBias, projView));
      emitted := emitted + [LoadRandomTexture];
    }

    /** Putting a sun in front of a list without one keeps at most one sun. */
    static lemma SunAdded(ls: seq<Light>, l: Light)
      requires Sun !in KindsOf(ls) && l.kind == Sun
      ensures KindsOf([l] + ls) == [Sun] + KindsOf(ls) && AtMostOneSun(KindsOf([l] + ls))
    {
      assert ([l] + ls)[1..] == ls;
    }

    /** The `calloc`ed light of R_Shadow_AddSpotLight with its settings and
        matrices, for a range already defaulted. */
    method NewSpotLight(pos: Vec3, angles: Vec3, fov: real, range: real) returns (l: Light)
      ensures fresh(l) && l.kind == Spot && l.enabled && l.bias == SpotShadowBias && l.radius == range
      ensures l.width == SpotShadowSize && l.height == SpotShadowSize && l.position == pos
      ensures l.angles == InternalAngles(angles) && l.normal == forward(l.angles)
      ensures l.projView == Mul(Perspective(fov, fov, 1.0, range), View(l.angles, pos))
      ensures l.worldToShadow == l.projView
    {
      l := new Light(Spot);
      l.enabled := true;
      l.bias := SpotShadowBias;
      l.radius := range;
      l.width := SpotShadowSize;
      l.height := SpotShadowSize;
      l.position := pos;
      l.angles := InternalAngles(angles);
      l.normal := forward(l.angles);
      l.projView := Mul(Perspective(fov, fov, 1.0, range), View(l.angles, l.position));
      l.worldToShadow := l.projView;
    }

    /** R_Shadow_AddSpotLight: a new spot light, range 300 when none is given,
        becomes the list head. */
    method AddSpotLight(pos: Vec3, angles: Vec3, fov: real, zfar: real)
      requires Valid()
      modifies this`lights, this`idGen, this`textureGen, this`emitted
      ensures Valid() && sun == old(sun) && idGen == old(idGen) + 1
      ensures |lights| == |old(lights)| + 1 && lights[1..] == old(lights) && fresh(lights[0])
      ensures KindsOf(lights) == [Spot] + old(KindsOf(lights))
      ensures var l := lights[0];
              var range := if zfar == 0.0 then DefaultSpotRange else zfar;
              l.kind == Spot && l.enabled && l.id == old(idGen) && l.bias == SpotShadowBias && l.radius == range
              && l.width == SpotShadowSize && l.height == SpotShadowSize && l.position == pos
              && l.angles == InternalAngles(angles) && l.normal == forward(l.angles)
              && l.projView == Mul(Perspective(fov, fov, 1.0, range), View(l.angles, pos))
              && l.worldToShadow == l.projView
              && emitted == old(emitted) + [CreateShadowMap(l.texture, SpotShadowSize, SpotShadowSize)]
    {
      var range := zfar;
      if range == 0.0 {
        range := DefaultSpotRange;
      }
      var l := NewSpotLight(pos, angles, fov, range);
      CreateFramebuffer(l);
      LinkLight(l);
      SpotAdded(old(lights), l);
    }

    /** Putting a spot light in front adds no sun. */
    static lemma SpotAdded(ls: seq<Light>, l: Light)
      requires AtMostOneSun(KindsOf(ls)) && l.kind == Spot
      ensures KindsOf([l] + ls) == [Spot] + KindsOf(ls) && AtMostOneSun(KindsOf([l] + ls))
      ensures Sun in KindsOf([l] + ls) <==> Sun in KindsOf(ls)
    {
      assert ([l] + ls)[1..] == ls;
    }

    /** R_Shadow_SetAngle_f: with fewer than three arguments, report the sun's
        angles in the order they were given (or that there is no sun);
        otherwise read three numbers and set the sun up along them. */
    method SetAngleCommand(argv: seq<string>) returns (reply: AngleReply)
      requires Valid()
      modifies this`sun, this`lights, this`idGen, this`textureGen, this`emitted
      modifies this`currentSunPos, this`debugOverrideSunPos
      modifies SunSet()`angles, SunSet()`normal, SunSet()`projView, SunSet()`worldToShadow
      ensures Valid()
      ensures |argv| < 4 ==> reply == (if old(sun) == null then NoActiveSun else CurrentAngles(ConsoleAngles(old(sun.angles))))
      ensures |argv| < 4 ==> lights == old(lights) && sun == old(sun) && emitted == old(emitted)
      ensures |argv| >= 4 ==> reply == (if sunCvar != 0.0 then SunMoved else Silent)
      ensures |argv| >= 4 && sunCvar == 0.0 ==> lights == old(lights) && sun == old(sun) && emitted == old(emitted)
      ensures |argv| >= 4 ==>
                SettingsOf(lights) == RegisterOne(old(SettingsOf(lights)),
                                                  SetupSunCall([num.atof(argv[1]), num.atof(argv[2]), num.atof(argv[3])]),
                                                  sunCvar != 0.0)
      ensures |argv| >= 4 && sunCvar != 0.0 ==>
                sun != null && ConsoleAngles(sun.angles) == [num.atof(argv[1]), num.atof(argv[2]), num.atof(argv[3])]
    {
      if |argv| < 4 {
        if sun == null {
          return NoActiveSun;
        }
        return CurrentAngles(ConsoleAngles(sun.angles));
      }
      var a: Vec3 := [num.atof(argv[1]), num.atof(argv[2]), num.atof(argv[3])];
      SetupSun(a);
      ConsoleAnglesRoundTrip(a);
      reply := if sunCvar != 0.0 then SunMoved else Silent;
    }

    // -------------------------------------------------------------------------
    // Loading from the entity text
    // -------------------------------------------------------------------------

    /** R_Shadow_HandleEntityKey over the accumulators. */
    method HandleKey(t: EntityKind, key: string, value: string)
      modifies this`acc
      ensures acc == HandleEntityKey(old(acc), t, key, value, num)
    {
      acc := HandleEntityKey(acc, t, key, value, num);
    }

    /** R_Shadow_EndEntity: set up the light the entity asked for (the choice
        `EndCall` makes), then reset the per-entity accumulators. */
    method EndEntity(t: EntityKind)
      requires Valid()
      modifies this`acc, this`sun, this`lights, this`idGen, this`textureGen, this`emitted
      modifies this`currentSunPos, this`debugOverrideSunPos
      modifies SunSet()`angles, SunSet()`normal, SunSet()`projView, SunSet()`worldToShadow
      ensures Valid() && acc == ResetAfterEntity(old(acc))
      ensures var c := EndCall(old(acc), t);
              var calls := if c.Some? then [c.value] else [];
              SettingsOf(lights) == Registered(old(SettingsOf(lights)), calls, sunCvar != 0.0)
      ensures old(sun) != null ==> sun == old(sun)
      ensures old(sun) == null && sun != null ==> fresh(sun)
    {
      var c := EndCall(acc, t);
      if c.Some? {
        Perform(c.value);
        assert [c.value][1..] == [];
      }
      acc := ResetAfterEntity(acc);
    }

    /** The registry call an entity leads to: R_Shadow_SetupSun or
        R_Shadow_AddSpotLight with the accumulated settings. */
    method Perform(c: LightCall)
      requires Valid()
      modifies this`sun, this`lights, this`idGen, this`textureGen, this`emitted
      modifies this`currentSunPos, this`debugOverrideSunPos
      modifies SunSet()`angles, SunSet()`normal, SunSet()`projView, SunSet()`worldToShadow
      ensures Valid() && SettingsOf(lights) == RegisterOne(old(SettingsOf(lights)), c, sunCvar != 0.0)
      ensures old(sun) != null ==> sun == old(sun)
      ensures old(sun) == null && sun != null ==> fresh(sun)
    {
      match c
      case SetupSunCall(angle) =>
        SetupSun(angle);
      case AddSpotCall(origin, angles, cone, radius) =>
        AddSpotLight(origin, angles, cone, radius);
        assert lights == [lights[0]] + old(lights);
        PrependedSettings(lights[0], old(lights));
    }

    /** What remains of the scan from `offs` in state `s` still registers,
        on top of the lights so far, exactly what the whole text registers
        on top of `start`, and ends with the accumulators `total` ends with. */
    ghost predicate Pending(text: string, offs: nat, s: ScanState, start: seq<Setting>, total: Outcome)
      reads this`acc, this`lights, this`sunCvar, lights`position, lights`angles, lights`radius
    {
      offs <= |text| && s.begin <= offs && s.keyAt <= offs
      && var rest := ScanDispatch(text, offs, s, acc, num);
         rest.acc == total.acc
         && Registered(SettingsOf(lights), rest.calls, sunCvar != 0.0) == Registered(start, total.calls, sunCvar != 0.0)
    }

    /** One turn of R_Shadow_ParseEntities' loop. */
    method ScanStep(text: string, offs: nat, s: ScanState, ghost start: seq<Setting>, ghost total: Outcome)
      returns (r: Stepped)
      requires Valid() && offs < |text| && Pending(text, offs, s, start, total)
      modifies this`acc, this`sun, this`lights, this`idGen, this`textureGen, this`emitted
      modifies this`currentSunPos, this`debugOverrideSunPos
      modifies SunSet()`angles, SunSet()`normal, SunSet()`projView, SunSet()`worldToShadow
      ensures Valid() && offs <= r.last && Pending(text, r.last + 1, r.next, start, total)
      ensures old(sun) != null ==> sun == old(sun)
      ensures old(sun) == null && sun != null ==> fresh(sun)
    {
      ghost var calls;
      StepPending(text, offs, s, acc, num, SettingsOf(lights), sunCvar != 0.0, start, total);
      r, calls := ScanChar(text, offs, s);
    }

    /** The `switch` of R_Shadow_ParseEntities' loop at position `offs`: react
        to the character, closing an entity or handing on a key/value pair as
        the mode says. */
    method ScanChar(text: string, offs: nat, s: ScanState) returns (r: Stepped, ghost calls: seq<LightCall>)
      requires Valid() && offs < |text| && s.begin <= offs && s.keyAt <= offs
      modifies this`acc, this`sun, this`lights, this`idGen, this`textureGen, this`emitted
      modifies this`currentSunPos, this`debugOverrideSunPos
      modifies SunSet()`angles, SunSet()`normal, SunSet()`projView, SunSet()`worldToShadow
      ensures r == Step(text, offs, s)
      ensures Valid()
      ensures var out := Dispatch(r.events, old(acc), num);
              calls == out.calls && acc == out.acc
              && SettingsOf(lights) == Registered(old(SettingsOf(lights)), calls, sunCvar != 0.0)
      ensures old(sun) != null ==> sun == old(sun)
      ensures old(sun) == null && sun != null ==> fresh(sun)
    {
      var c := text[offs];
      var cn := if offs + 1 < |text| then text[offs + 1] else '\0';
      ghost var before := SettingsOf(lights);
      r := Stepped(s, offs, []);
      match s.mode {
        case Initial =>
          if c == '/' && cn == '/' {
            r := Stepped(s.(mode := Comment), offs + 1, []);
          } else if c == '{' {
            r := Stepped(s.(mode := Entity1), offs, []);
          }
        case Entity1 =>
          if c == '"' {
            r := Stepped(s.(mode := FieldKey, begin := offs + 1), offs, []);
          } else if c == '{' {
            r := Stepped(s.(mode := Brushes, begin := offs + 1), offs, []);
          } else if c == '}' {
            EndEntity(s.entity);
            DispatchSingle(EndOf(s.entity), old(acc), num);
            r := Stepped(s.(mode := Initial, entity := Invalid), offs, [EndOf(s.entity)]);
          }
        case Entity2 =>
          if c == '"' {
            r := Stepped(s.(mode := FieldValue, begin := offs + 1), offs, []);
          }
        case FieldKey =>
          if c == '"' {
            r := Stepped(s.(mode := Entity2, keyAt := s.begin, key := text[s.begin..offs]), offs, []);
          }
        case FieldValue =>
          if c == '"' {
            var value := text[s.begin..offs];
            var e := s.entity;
            if KeyMatches(s.key, "classname") && KeyMatches(value, "worldspawn") {
              e := Worldspawn;
            }
            if e == Invalid && StartsShadowlight(text, s.keyAt) {
              e := LightEntity;
            }
            HandleKey(e, s.key, value);
            assert SettingsOf(lights) == before;
            DispatchSingle(KeyValue(e, s.key, value), old(acc), num);
            r := Stepped(s.(mode := Entity1, entity := e), offs, [KeyValue(e, s.key, value)]);
          }
        case Brushes =>
          if c == '}' {
            r := Stepped(s.(mode := Entity1), offs, []);
          }
        case Comment =>
          if c == '\n' {
            r := Stepped(s.(mode := Initial), offs, []);
          }
      }
      calls := Dispatch(r.events, old(acc), num).calls;
    }

    /** R_Shadow_ParseEntities: one pass of the scanner over the text, acting on
        each key/value pair and each closed entity as it is found. The registry
        ends up with the lights the text's events ask for, in order. */
    method ParseEntities(text: string)
      requires Valid()
      modifies this`acc, this`sun, this`lights, this`idGen, this`textureGen, this`emitted
      modifies this`currentSunPos, this`debugOverrideSunPos
      modifies SunSet()`angles, SunSet()`normal, SunSet()`projView, SunSet()`worldToShadow
      ensures Valid()
      ensures var out := Dispatch(ScanEvents(text), old(acc), num);
              acc == out.acc
              && SettingsOf(lights) == Registered(old(SettingsOf(lights)), out.calls, sunCvar != 0.0)
    {
      ScanDispatchIsDispatch(text, 0, InitialScan, acc, num);
      ScanText(text);
    }

    /** The loop of R_Shadow_ParseEntities: scan the text once from its start,
        acting on the events of each position as they come. */
    method ScanText(text: string)
      requires Valid()
      modifies this`acc, this`sun, this`lights, this`idGen, this`textureGen, this`emitted
      modifies this`currentSunPos, this`debugOverrideSunPos
      modifies SunSet()`angles, SunSet()`normal, SunSet()`projView, SunSet()`worldToShadow
      ensures Valid()
      ensures var out := ScanDispatch(text, 0, InitialScan, old(acc), num);
              acc == out.acc
              && SettingsOf(lights) == Registered(old(SettingsOf(lights)), out.calls, sunCvar != 0.0)
    {
      var st := InitialScan;
      var offs: nat := 0;
      ghost var start := SettingsOf(lights);
      ghost var total := ScanDispatch(text, 0, st, acc, num);
      while offs < |text|
        invariant Valid() && Pending(text, offs, st, start, total)
        invariant old(sun) != null ==> sun == old(sun)
        invariant old(sun) == null && sun != null ==> fresh(sun)
        decreases |text| - offs
      {
        var r := ScanStep(text, offs, st, start, total);
        st := r.next;
        offs := r.last + 1;
      }
    }

    /** R_Shadow_NewMap: drop every light, clear the sun accumulators and load
        the lights of the new level's entity text. */
    method NewMap(text: string)
      requires Valid()
      modifies this`acc, this`sun, this`lights, this`idGen, this`textureGen, this`emitted
      modifies this`currentSunPos, this`debugOverrideSunPos
      modifies SunSet()`angles, SunSet()`normal, SunSet()`projView, SunSet()`worldToShadow
      ensures Valid() && idGen == |lights|
      ensures var start := old(acc).(worldsun := false, worldsunangle := Zero3);
              var out := Dispatch(ScanEvents(text), start, num);
              acc == out.acc
              && SettingsOf(lights) == Registered([], out.calls, sunCvar != 0.0)
    {
      ClearLights();
      acc := acc.(worldsun := false, worldsunangle := Zero3);
      ParseEntities(text);
    }

    /** After loading the level with a `_shadowsun` worldspawn with suns
        enabled, the registry holds one light, the sun, aimed along the
        converted `_shadowsun` angles. */
    lemma SunLevelLoaded(start: Accum)
      requires Valid() && sunCvar != 0.0
      requires SettingsOf(lights) == Registered([], Dispatch(ScanEvents(SunLevel), start, num).calls, sunCvar != 0.0)
      ensures |lights| == 1 && lights[0] == sun && sun.position == Zero3
      ensures sun.angles == InternalAngles(num.atof3("45 10 0"))
    {
      SunLevelRegistersOneSun(start, num, true);
      SettingsOfAt(lights, 0);
      KindsOfAt(lights, 0);
      OnlySun();
    }

    // -------------------------------------------------------------------------
    // Per-frame pass
    // -------------------------------------------------------------------------

    /** R_Shadow_PrepareToRender and the drawing after it: mark the surfaces the
        light sees, set up the view (the light's shadow map, or the debug view
        when `r_shadow_sundebug` is set), then draw the world and the entities. */
    static function PassEvents(l: Light, debug: bool): seq<GLEvent>
    {
      [MarkLightSurfaces(l), ShadowViewport(l, debug), DrawShadowCasters(l)]
    }

    /** The drawing passes of the given lights, in order. */
    static function Passes(ls: seq<Light>, debug: bool): (r: seq<GLEvent>)
      ensures |r| == 3 * |ls|
    {
      if ls == [] then [] else Passes(ls[..|ls| - 1], debug) + PassEvents(ls[|ls| - 1], debug)
    }

    static lemma PassesAppend(ls: seq<Light>, l: Light, debug: bool)
      ensures Passes(ls + [l], debug) == Passes(ls, debug) + PassEvents(l, debug)
    {
      assert (ls + [l])[..|ls|] == ls;
    }

    /** The last element of a non-empty sequence. */
    static function Last(ls: seq<Light>): Light
      requires ls != []
    {
      ls[|ls| - 1]
    }

    /** R_Shadow_RenderSunShadowMap and R_Shadow_RenderSpotShadowMap: take the
        brighten/darken console values, draw the pass and mark the light as
        the last one rendered. */
    method RenderLight(l: Light)
      modifies l`brighten, l`darken, l`rendered, this`lastRendered, this`emitted
      ensures l.rendered && l.brighten == sunBrighten && l.darken == sunDarken && lastRendered == l
      ensures emitted == old(emitted) + PassEvents(l, sunDebug != 0.0)
    {
      l.brighten := sunBrighten;
      l.darken := sunDarken;
      emitted := emitted + PassEvents(l, sunDebug != 0.0);
      lastRendered := l;
      l.rendered := true;
    }

    /** The loop body of R_Shadow_RenderShadowMap: clear the light's flag, then
        draw it when it is the sun and `r_shadow_sun` is on, or a spot light
        close enough to the eye. */
    method Visit(l: Light, eye: Vec3)
      modifies l`brighten, l`darken, l`rendered, this`lastRendered, this`emitted
      ensures l.rendered == ShouldRender(l.kind, l.position, sunCvar, eye)
      ensures l.rendered ==>
                l.brighten == sunBrighten && l.darken == sunDarken && lastRendered == l
                && emitted == old(emitted) + PassEvents(l, sunDebug != 0.0)
      ensures !l.rendered ==>
                l.brighten == old(l.brighten) && l.darken == old(l.darken)
                && lastRendered == old(lastRendered) && emitted == old(emitted)
    {
      l.rendered := false;
      match l.kind {
        case Sun =>
          if sunCvar != 0.0 {
            RenderLight(l);
          }
        case Spot =>
          if CullLight(l.position, eye) {
            RenderLight(l);
          }
        case Point =>
      }
    }

    /** `ShouldRender` of each light of `ls`. */
    ghost function ShouldRenderAll(ls: seq<Light>, eye: Vec3): (r: seq<bool>)
      reads this`sunCvar, ls`position
      ensures |r| == |ls|
      ensures forall k {:trigger r[k]} :: 0 <= k < |ls| ==> r[k] == ShouldRender(ls[k].kind, ls[k].position, sunCvar, eye)
    {
      if ls == [] then [] else [ShouldRender(ls[0].kind, ls[0].position, sunCvar, eye)] + ShouldRenderAll(ls[1..], eye)
    }

    /** The pass so far has drawn `shown`, in order, after the log `log0`. */
    ghost predicate Drawn(shown: seq<Light>, log0: seq<GLEvent>)
      reads this`lastRendered, this`emitted, this`sunDebug
    {
      (shown == [] ==> lastRendered == null)
      && (shown != [] ==> lastRendered == Last(shown))
      && emitted == log0 + Passes(shown, sunDebug != 0.0)
    }

    /** `Visit`, seen from the loop: the light joins the drawn ones exactly
        when it should be drawn. */
    method VisitNext(l: Light, eye: Vec3, ghost shown: seq<Light>, ghost log0: seq<GLEvent>)
      requires Drawn(shown, log0)
      modifies l`brighten, l`darken, l`rendered, this`lastRendered, this`emitted
      ensures l.rendered == ShouldRender(l.kind, l.position, sunCvar, eye)
      ensures Drawn(shown + (if l.rendered then [l] else []), log0)
      ensures l.rendered ==> l.brighten == sunBrighten && l.darken == sunDarken
      ensures !l.rendered ==> l.brighten == old(l.brighten) && l.darken == old(l.darken)
    {
      Visit(l, eye);
      if l.rendered {
        PassesAppend(shown, l, sunDebug != 0.0);
        assert emitted == log0 + (Passes(shown, sunDebug != 0.0) + PassEvents(l, sunDebug != 0.0));
      } else {
        assert shown + [] == shown;
      }
    }

    /** After the pass: each light is flagged rendered exactly when it should be
        drawn; those took the console's brighten/darken values, the others
        kept theirs from `b0`/`d0`. */
    ghost predicate Flagged(eye: Vec3, b0: seq<real>, d0: seq<real>)
      reads this`lights, this`sunCvar, this`sunBrighten, this`sunDarken
      reads lights`rendered, lights`brighten, lights`darken, lights`position
    {
      |b0| == |d0| == |lights|
      && forall k :: 0 <= k < |lights| ==>
           lights[k].rendered == ShouldRender(lights[k].kind, lights[k].position, sunCvar, eye)
           && if lights[k].rendered then lights[k].brighten == sunBrighten && lights[k].darken == sunDarken
              else lights[k].brighten == b0[k] && lights[k].darken == d0[k]
    }

    /** The state of R_Shadow_RenderShadowMap's loop before position `i`: the
        lights before it are flagged as `should` says, those drawn took the
        console's brighten/darken values, every other light keeps the values
        `b0`/`d0` it had, and the passes of the drawn lights are logged. */
    ghost predicate PassedUpTo(i: nat, eye: Vec3, should: seq<bool>, b0: seq<real>, d0: seq<real>,
                               shown: seq<Light>, log0: seq<GLEvent>)
      reads this`lights, this`sunCvar, this`sunBrighten, this`sunDarken, this`lastRendered, this`emitted, this`sunDebug
      reads lights`rendered, lights`brighten, lights`darken, lights`position
    {
      i <= |lights| && |should| == |b0| == |d0| == |lights| && NoDup(lights)
      && (forall k :: 0 <= k < |lights| ==> should[k] == ShouldRender(lights[k].kind, lights[k].position, sunCvar, eye))
      && (forall k :: 0 <= k < i ==> lights[k].rendered == should[k])
      && (forall k :: 0 <= k < |lights| ==>
            if k < i && should[k] then lights[k].brighten == sunBrighten && lights[k].darken == sunDarken
            else lights[k].brighten == b0[k] && lights[k].darken == d0[k])
      && shown == Selected(lights[..i], should[..i])
      && Drawn(shown, log0)
    }

    /** One turn of that loop, for the light at position `i`. */
    method VisitAt(i: nat, l: Light, eye: Vec3, ghost should: seq<bool>, ghost b0: seq<real>, ghost d0: seq<real>,
                   ghost shown: seq<Light>, ghost log0: seq<GLEvent>)
      returns (ghost shown': seq<Light>)
      requires PassedUpTo(i, eye, should, b0, d0, shown, log0) && i < |lights| && l == lights[i]
      modifies l`rendered, l`brighten, l`darken, this`lastRendered, this`emitted
      ensures PassedUpTo(i + 1, eye, should, b0, d0, shown', log0)
    {
      VisitNext(l, eye, shown, log0);
      SelectedPrefix(lights, should, i);
      shown' := shown + (if should[i] then [l] else []);
    }

    /** The brighten values of the lights. */
    ghost function BrightenOf(ls: seq<Light>): (r: seq<real>)
      reads ls`brighten
      ensures |r| == |ls| && forall k {:trigger r[k]} :: 0 <= k < |ls| ==> r[k] == ls[k].brighten
    {
      if ls == [] then [] else [ls[0].brighten] + BrightenOf(ls[1..])
    }

    /** The darken values of the lights. */
    ghost function DarkenOf(ls: seq<Light>): (r: seq<real>)
      reads ls`darken
      ensures |r| == |ls| && forall k {:trigger r[k]} :: 0 <= k < |ls| ==> r[k] == ls[k].darken
    {
      if ls == [] then [] else [ls[0].darken] + DarkenOf(ls[1..])
    }

    /** The loop of R_Shadow_RenderShadowMap over the list. Afterwards a light
        is flagged rendered exactly when it should be drawn, only those took
        the console's brighten/darken values, each of them had its pass
        drawn in list order, and the last one drawn is remembered. */
    method RenderLights(eye: Vec3)
      requires Valid()
      modifies this`lastRendered, this`emitted, lights`rendered, lights`brighten, lights`darken
      ensures Flagged(eye, old(BrightenOf(lights)), old(DarkenOf(lights)))
      ensures Drawn(RenderedOf(lights), old(emitted))
      ensures ubo.records[..] == old(ubo.records[..]) && ubo.slots[..] == old(ubo.slots[..])
    {
      ghost var should := ShouldRenderAll(lights, eye);
      ghost var b0, d0 := BrightenOf(lights), DarkenOf(lights);
      ghost var shown: seq<Light> := [];
      DistinctLights();
      lastRendered := null;
      var i := 0;
      while i < |lights|
        invariant PassedUpTo(i, eye, should, b0, d0, shown, old(emitted))
      {
        shown := VisitAt(i, lights[i], eye, should, b0, d0, shown, old(emitted));
        i := i + 1;
      }
      PassDone(eye, should, b0, d0, shown, old(emitted));
    }

    /** At the end of the loop every light has been visited. */
    lemma PassDone(eye: Vec3, should: seq<bool>, b0: seq<real>, d0: seq<real>,
                   shown: seq<Light>, log0: seq<GLEvent>)
      requires PassedUpTo(|lights|, eye, should, b0, d0, shown, log0)
      ensures Flagged(eye, b0, d0)
      ensures Drawn(RenderedOf(lights), log0)
    {
      assert lights[..|lights|] == lights && should[..|lights|] == should;
      RenderedOfIsSelected(lights, should);
    }

    /** R_Shadow_RenderShadowMap: redraw the shadow map of every light that
        should be drawn this frame; when anything was drawn and the debug view
        is off, repack the uniform block and restore the view's framebuffer
        and viewport; in every case mark the view's surfaces afterwards. */
    method RenderShadowMap(eye: Vec3) returns (ghost shown: seq<Light>)
      requires Valid() && ubo.Valid()
      modifies this`lastRendered, this`emitted, lights`rendered, lights`brighten, lights`darken
      modifies ubo`created, ubo`useShadow, ubo`count, ubo`events, ubo.records, ubo.slots
      ensures Valid() && ubo.Valid()
      ensures Flagged(eye, old(BrightenOf(lights)), old(DarkenOf(lights)))
      ensures shown == RenderedOf(lights)
      ensures shown == [] ==> lastRendered == null
      ensures shown != [] ==> lastRendered == Last(shown)
      ensures emitted == old(emitted) + Passes(shown, sunDebug != 0.0) + Closing(shown != [])
      ensures Repacked(shown != [], shown, old(ubo.created), old(ubo.events), old(ubo.records[..]), old(ubo.slots[..]))
    {
      RenderLights(eye);
      shown := RenderedOf(lights);
      FinishFrame(shown, eye, old(BrightenOf(lights)), old(DarkenOf(lights)));
    }

    /** The events that close a frame pass: the view's framebuffer and
        viewport come back when shadow maps were drawn outside the debug
        view, and the view's surfaces are marked in every case. */
    function Closing(drawn: bool): (r: seq<GLEvent>)
      reads this`sunDebug
      ensures r != [] && r[|r| - 1] == MarkViewSurfaces
      ensures RestoreViewport in r <==> sunDebug == 0.0 && drawn
    {
      (if sunDebug == 0.0 && drawn then [RestoreViewport] else []) + [MarkViewSurfaces]
    }

    /** The uniform block after a frame pass that drew `shown`: repacked and
        uploaded when something was drawn outside the debug view, untouched
        otherwise. */
    ghost predicate Repacked(drawn: bool, shown: seq<Light>, created0: bool, events0: seq<GLEvent>,
                             records0: seq<ShadowRecord>, slots0: seq<FrameTexture>)
      reads this`sunDebug, this`sunCvar, ubo`created, ubo`useShadow, ubo`count, ubo`events, ubo.records, ubo.slots, shown
    {
      ubo.Valid()
      && if sunDebug == 0.0 && drawn then
           ubo.created && ubo.useShadow == TruncateToInt(sunCvar)
           && ubo.Filled(shown, records0, slots0)
           && ubo.events == events0 + (if created0 then [] else [CreateUniformBuffer])
                            + Warnings(|shown| - ubo.count) + [UploadUniforms(ubo.useShadow, ubo.count, ubo.records[..])]
         else
           ubo.created == created0 && ubo.events == events0
           && ubo.records[..] == records0 && ubo.slots[..] == slots0
    }

    /** The end of R_Shadow_RenderShadowMap, once the lights are drawn. */
    method FinishFrame(ghost shown: seq<Light>, ghost eye: Vec3, ghost b0: seq<real>, ghost d0: seq<real>)
      requires Valid() && ubo.Valid() && Flagged(eye, b0, d0)
      requires shown == RenderedOf(lights) && (shown == [] <==> lastRendered == null)
      modifies this`emitted, ubo`created, ubo`useShadow, ubo`count, ubo`events, ubo.records, ubo.slots
      ensures Valid() && Flagged(eye, b0, d0) && shown == RenderedOf(lights)
      ensures emitted == old(emitted) + Closing(shown != [])
      ensures Repacked(shown != [], shown, old(ubo.created), old(ubo.events), old(ubo.records[..]), old(ubo.slots[..]))
    {
      if sunDebug == 0.0 && lastRendered != null {
        Repack(shown, eye, b0, d0);
      }
      Close(lastRendered != null);
    }

    /** Restore the view's framebuffer and viewport after shadow maps were
        drawn outside the debug view, then mark the view's surfaces. */
    method Close(drawn: bool)
      modifies this`emitted
      ensures emitted == old(emitted) + Closing(drawn)
    {
      if sunDebug == 0.0 && drawn {
        emitted := emitted + [RestoreViewport];
      }
      emitted := emitted + [MarkViewSurfaces];
    }

    /** R_Shadow_UpdateUniformBuffer as called from the frame pass: only the
        uniform block changes. */
    method Repack(ghost shown: seq<Light>, ghost eye: Vec3, ghost b0: seq<real>, ghost d0: seq<real>)
      requires Valid() && ubo.Valid() && Flagged(eye, b0, d0) && shown == RenderedOf(lights)
      requires sunDebug == 0.0 && shown != []
      modifies ubo`created, ubo`useShadow, ubo`count, ubo`events, ubo.records, ubo.slots
      ensures Valid() && Flagged(eye, b0, d0) && shown == RenderedOf(lights)
      ensures Repacked(true, shown, old(ubo.created), old(ubo.events), old(ubo.records[..]), old(ubo.slots[..]))
    {
      ubo.Update(lights, sunCvar);
    }
  }
}
