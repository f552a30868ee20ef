/** The level's entity text as the shadow system reads it: a character-level
    scanner over `{ "key" "value" ... }` blocks that skips nested brush blocks and
    `//` comments, the per-key accumulation of light settings, and the decision
    taken when an entity closes (set up the sun, add a spot light, or nothing).
    Everything here is pure; the loop that drives it against the light registry
    is `ShadowRegistry.Shadows.ParseEntities`. */
module ShadowParse {
  import opened Common

  // ---------------------------------------------------------------------------
  // C string comparison
  // ---------------------------------------------------------------------------

  /** Character `i` of a C string: past the end there is the terminating NUL. */
  function CharAt(s: string, i: nat): char
  {
    if i < |s| then s[i] else '\0'
  }

  /** `strncmp(a + i, b + i, n - i) == 0`: positions `i .. n-1` agree, where the
      comparison stops early at a NUL both strings share. */
  predicate StrnEqFrom(a: string, b: string, i: nat, n: nat)
    decreases n - i
  {
    if i >= n then true
    else if CharAt(a, i) != CharAt(b, i) then false
    else if CharAt(a, i) == '\0' then true
    else StrnEqFrom(a, b, i + 1, n)
  }

  /** `!strncmp(a, b, n)`. */
  predicate StrnEq(a: string, b: string, n: nat)
  {
    StrnEqFrom(a, b, 0, n)
  }

  /** `!strncmp(key, name, keylen)`: how every key is compared with a known name. */
  predicate KeyMatches(key: string, name: string)
  {
    StrnEq(key, name, |key|)
  }

  lemma {:induction false} StrnEqFromPrefix(key: string, name: string, i: nat)
    requires i <= |key|
    requires '\0' !in key && '\0' !in name
    requires i <= |name| && key[..i] == name[..i]
    ensures StrnEqFrom(key, name, i, |key|) <==> (|key| <= |name| && key == name[..|key|])
    decreases |key| - i
  {
    if i < |key| {
      assert key[i] != '\0';
      if i < |name| {
        assert name[i] != '\0';
        if key[i] == name[i] {
          assert key[..i + 1] == key[..i] + [key[i]];
          assert name[..i + 1] == name[..i] + [name[i]];
          StrnEqFromPrefix(key, name, i + 1);
        } else {
          assert |key| <= |name| ==> name[..|key|][i] == name[i];
        }
      } else {
        assert CharAt(name, i) == '\0';
      }
    } else {
      assert key == key[..i];
    }
  }

  /** For NUL-free strings, comparing over the key's own length accepts exactly
      the keys that are a prefix of the name, the empty key included. */
  lemma KeyMatchesIsPrefix(key: string, name: string)
    requires '\0' !in key && '\0' !in name
    ensures KeyMatches(key, name) <==> (|key| <= |name| && key == name[..|key|])
  {
    StrnEqFromPrefix(key, name, 0);
  }

  /** A key that differs from the name at some position before its own end does
      not match it. */
  lemma DiffersAt(key: string, name: string, i: nat)
    requires '\0' !in key && '\0' !in name
    requires i < |key| && (i >= |name| || key[i] != name[i])
    ensures !KeyMatches(key, name)
  {
    KeyMatchesIsPrefix(key, name);
    assert |key| <= |name| ==> name[..|key|][i] == name[i];
  }

  // ---------------------------------------------------------------------------
  // Scanner
  // ---------------------------------------------------------------------------

  /** Which kind of entity the scanner believes it is reading. */
  datatype EntityKind = Invalid | Worldspawn | LightEntity

  datatype Mode = Initial | Entity1 | Entity2 | FieldKey | FieldValue | Brushes | Comment

  /** The scanner's locals: its mode, `field_begin`, where the last key starts
      (`field_key`), that key, and `current_entity`. */
  datatype ScanState = ScanState(mode: Mode, begin: nat, keyAt: nat, key: string, entity: EntityKind)

  /** The first entity of a level is taken to be the worldspawn. */
  const InitialScan: ScanState := ScanState(Initial, 0, 0, "", Worldspawn)

  /** What the scanner hands on: a key/value pair of the current entity, or the
      end of an entity. */
  datatype Event = KeyValue(entity: EntityKind, key: string, value: string) | EndOf(entity: EntityKind)

  datatype Stepped = Stepped(next: ScanState, last: nat, events: seq<Event>)

  /** The look-ahead character `cn` (NUL at the last position). */
  function NextChar(text: string, offs: nat): char
  {
    if offs + 1 < |text| then text[offs + 1] else '\0'
  }

  /** The reclassification test: the text at the key starts with `_shadowlight`,
      compared over the twelve characters of that name. */
  predicate StartsShadowlight(text: string, keyAt: nat)
    requires keyAt <= |text|
  {
    StrnEq(text[keyAt..], "_shadowlight", 12)
  }

  /** One iteration of the scanning loop at position `offs`. `last` is the
      position the loop's own increment starts from (one further after `//`). */
  function Step(text: string, offs: nat, s: ScanState): (r: Stepped)
    requires offs < |text| && s.begin <= offs && s.keyAt <= offs
    ensures offs <= r.last < |text| && r.next.begin <= r.last + 1 && r.next.keyAt <= r.last + 1
  {
    var c := text[offs];
    var cn := NextChar(text, offs);
    match s.mode
    case Initial =>
      if c == '/' && cn == '/' then Stepped(s.(mode := Comment), offs + 1, [])
      else if c == '{' then Stepped(s.(mode := Entity1), offs, [])
      else Stepped(s, offs, [])
    case Entity1 =>
      if c == '"' then Stepped(s.(mode := FieldKey, begin := offs + 1), offs, [])
      else if c == '{' then Stepped(s.(mode := Brushes, begin := offs + 1), offs, [])
      else if c == '}' then Stepped(s.(mode := Initial, entity := Invalid), offs, [EndOf(s.entity)])
      else Stepped(s, offs, [])
    case Entity2 =>
      if c == '"' then Stepped(s.(mode := FieldValue, begin := offs + 1), offs, [])
      else Stepped(s, offs, [])
    case FieldKey =>
      if c == '"' then Stepped(s.(mode := Entity2, keyAt := s.begin, key := text[s.begin..offs]), offs, [])
      else Stepped(s, offs, [])
    case FieldValue =>
      if c == '"' then
        var value := text[s.begin..offs];
        var e := Classify(text, s.keyAt, s.key, value, s.entity);
        Stepped(s.(mode := Entity1, entity := e), offs, [KeyValue(e, s.key, value)])
      else Stepped(s, offs, [])
    case Brushes =>
      if c == '}' then Stepped(s.(mode := Entity1), offs, [])
      else Stepped(s, offs, [])
    case Comment =>
      if c == '\n' then Stepped(s.(mode := Initial), offs, [])
      else Stepped(s, offs, [])
  }

  /** The entity kind after a key/value pair: `classname` naming the worldspawn
      makes it the worldspawn; otherwise an invalid entity whose key starts with
      `_shadowlight` becomes a light. */
  function Classify(text: string, keyAt: nat, key: string, value: string, e: EntityKind): (r: EntityKind)
    requires keyAt <= |text|
    ensures e == Worldspawn ==> r == Worldspawn
    ensures e != Invalid ==> r != Invalid
  {
    var e1 := if KeyMatches(key, "classname") && KeyMatches(value, "worldspawn") then Worldspawn else e;
    if e1 == Invalid && StartsShadowlight(text, keyAt) then LightEntity else e1
  }

  /** The events the scanner produces from position `offs` on. */
  function ScanFrom(text: string, offs: nat, s: ScanState): seq<Event>
    requires offs <= |text| && s.begin <= offs && s.keyAt <= offs
    decreases |text| - offs
  {
    if offs == |text| then []
    else
      var r := Step(text, offs, s);
      r.events + ScanFrom(text, r.last + 1, r.next)
  }

  /** The events of a whole entity text. */
  function ScanEvents(text: string): seq<Event>
  {
    ScanFrom(text, 0, InitialScan)
  }

  /** A step that changes nothing: the character is not one the mode reacts to. */
  predicate Idle(text: string, offs: nat, m: Mode)
    requires offs < |text|
  {
    var c := text[offs];
    match m
    case Initial => c != '{' && !(c == '/' && NextChar(text, offs) == '/')
    case Entity1 => c != '"' && c != '{' && c != '}'
    case Entity2 => c != '"'
    case FieldKey => c != '"'
    case FieldValue => c != '"'
    case Brushes => c != '}'
    case Comment => c != '\n'
  }

  /** A run of idle characters produces no events and leaves the state as it is. */
  lemma {:induction false} SkipIdle(text: string, offs: nat, j: nat, s: ScanState)
    requires offs <= j <= |text| && s.begin <= offs && s.keyAt <= offs
    requires forall k :: offs <= k < j ==> Idle(text, k, s.mode)
    ensures ScanFrom(text, offs, s) == ScanFrom(text, j, s)
    decreases j - offs
  {
    if offs < j {
      assert Idle(text, offs, s.mode);
      assert Step(text, offs, s) == Stepped(s, offs, []);
      SkipIdle(text, offs + 1, j, s);
    }
  }

  /** `//` in the initial state starts a comment that lasts to the newline; the
      characters in between, braces included, produce nothing. */
  lemma CommentSkipped(text: string, offs: nat, nl: nat, s: ScanState)
    requires s.mode == Initial && s.begin <= offs && s.keyAt <= offs
    requires offs + 2 <= nl < |text| && text[offs] == '/' && text[offs + 1] == '/'
    requires text[nl] == '\n' && '\n' !in text[offs + 2..nl]
    ensures ScanFrom(text, offs, s) == ScanFrom(text, nl + 1, s)
  {
    var sc := s.(mode := Comment);
    assert Step(text, offs, s) == Stepped(sc, offs + 1, []);
    forall k | offs + 2 <= k < nl ensures Idle(text, k, Comment) {
      assert text[k] == text[offs + 2..nl][k - offs - 2];
    }
    SkipIdle(text, offs + 2, nl, sc);
    assert Step(text, nl, sc) == Stepped(s, nl, []);
  }

  /** A `/` not followed by another `/` is an ordinary character: no comment. */
  lemma SingleSlashIsNotComment(text: string, offs: nat, s: ScanState)
    requires s.mode == Initial && s.begin <= offs && s.keyAt <= offs
    requires offs < |text| && text[offs] == '/' && NextChar(text, offs) != '/'
    ensures ScanFrom(text, offs, s) == ScanFrom(text, offs + 1, s)
  {
  }

  /** `{` in the initial state opens an entity. */
  lemma OpenEntity(text: string, offs: nat, s: ScanState)
    requires s.mode == Initial && s.begin <= offs && s.keyAt <= offs
    requires offs < |text| && text[offs] == '{'
    ensures ScanFrom(text, offs, s) == ScanFrom(text, offs + 1, s.(mode := Entity1))
  {
  }

  /** `}` in an entity closes it: exactly one end event, carrying the kind the
      entity had, after which the next entity starts out invalid. */
  lemma CloseEntity(text: string, offs: nat, s: ScanState)
    requires s.mode == Entity1 && s.begin <= offs && s.keyAt <= offs
    requires offs < |text| && text[offs] == '}'
    ensures ScanFrom(text, offs, s)
         == [EndOf(s.entity)] + ScanFrom(text, offs + 1, s.(mode := Initial, entity := Invalid))
  {
  }

  /** An inner `{` starts a brush block, skipped up to the first `}` whatever it
      holds (quotes and further `{` included). */
  lemma BrushBlockSkipped(text: string, offs: nat, close: nat, s: ScanState)
    requires s.mode == Entity1 && s.begin <= offs && s.keyAt <= offs
    requires offs < close < |text| && text[offs] == '{' && text[close] == '}'
    requires '}' !in text[offs + 1..close]
    ensures ScanFrom(text, offs, s) == ScanFrom(text, close + 1, s.(begin := offs + 1))
  {
    var sb := s.(mode := Brushes, begin := offs + 1);
    forall k | offs + 1 <= k < close ensures Idle(text, k, Brushes) {
      assert text[k] == text[offs + 1..close][k - offs - 1];
    }
    SkipIdle(text, offs + 1, close, sb);
  }

  /** A quote in an entity opens the key, which runs to the next quote. */
  lemma QuotedKey(text: string, offs: nat, close: nat, s: ScanState)
    requires s.mode == Entity1 && s.begin <= offs && s.keyAt <= offs
    requires offs < close < |text| && text[offs] == '"' && text[close] == '"'
    requires '"' !in text[offs + 1..close]
    ensures ScanFrom(text, offs, s)
         == ScanFrom(text, close + 1, s.(mode := Entity2, begin := offs + 1, keyAt := offs + 1, key := text[offs + 1..close]))
  {
    var sk := s.(mode := FieldKey, begin := offs + 1);
    forall k | offs + 1 <= k < close ensures Idle(text, k, FieldKey) {
      assert text[k] == text[offs + 1..close][k - offs - 1];
    }
    SkipIdle(text, offs + 1, close, sk);
  }

  /** After a key, the next quote opens the value, which runs to the quote after
      it; closing the value reports the pair with the entity's (re)classified kind. */
  lemma QuotedValue(text: string, offs: nat, open: nat, close: nat, s: ScanState)
    requires s.mode == Entity2 && s.begin <= offs && s.keyAt <= offs
    requires offs <= open < close < |text| && text[open] == '"' && text[close] == '"'
    requires '"' !in text[offs..open] && '"' !in text[open + 1..close]
    ensures var value := text[open + 1..close];
            var e := Classify(text, s.keyAt, s.key, value, s.entity);
            (ScanFrom(text, offs, s)
             == [KeyValue(e, s.key, value)]
                + ScanFrom(text, close + 1, s.(mode := Entity1, begin := open + 1, entity := e)))
  {
    forall k | offs <= k < open ensures Idle(text, k, Entity2) {
      assert text[k] == text[offs..open][k - offs];
    }
    SkipIdle(text, offs, open, s);
    ValueBody(text, open, close, s);
  }

  /** The value itself, from its opening quote to its closing one. */
  lemma ValueBody(text: string, open: nat, close: nat, s: ScanState)
    requires s.mode == Entity2 && s.begin <= open && s.keyAt <= open
    requires open < close < |text| && text[open] == '"' && text[close] == '"'
    requires '"' !in text[open + 1..close]
    ensures var value := text[open + 1..close];
            var e := Classify(text, s.keyAt, s.key, value, s.entity);
            (ScanFrom(text, open, s)
             == [KeyValue(e, s.key, value)]
                + ScanFrom(text, close + 1, s.(mode := Entity1, begin := open + 1, entity := e)))
  {
    var sv := s.(mode := FieldValue, begin := open + 1);
    forall k | open + 1 <= k < close ensures Idle(text, k, FieldValue) {
      assert text[k] == text[open + 1..close][k - open - 1];
    }
    SkipIdle(text, open + 1, close, sv);
  }

  /** Outside any entity, text without an opening brace produces no events,
      whatever comments it holds. */
  lemma {:induction false} NoBraceNoEvents(text: string, offs: nat, s: ScanState)
    requires offs <= |text| && s.begin <= offs && s.keyAt <= offs
    requires s.mode == Initial || s.mode == Comment
    requires '{' !in text[offs..]
    ensures ScanFrom(text, offs, s) == []
    decreases |text| - offs
  {
    if offs < |text| {
      assert text[offs] == text[offs..][0];
      var r := Step(text, offs, s);
      assert r.events == [] && (r.next.mode == Initial || r.next.mode == Comment);
      assert text[r.last + 1..] == text[offs..][r.last + 1 - offs..];
      NoBraceNoEvents(text, r.last + 1, r.next);
    }
  }

  /** Every key/value event names a non-invalid entity only when the scanner
      classified it so, and the first entity is the worldspawn: a first entity
      opened at the very start reports its pairs as the worldspawn's until a
      key says otherwise. */
  lemma FirstEntityIsWorldspawn(text: string)
    requires |text| >= 1 && text[0] == '{'
    ensures ScanEvents(text) == ScanFrom(text, 1, ScanState(Entity1, 0, 0, "", Worldspawn))
  {
  }

  // ---------------------------------------------------------------------------
  // Accumulated light settings and what closing an entity does with them
  // ---------------------------------------------------------------------------

  /** `Q_atof` and the three-number reading done with `Cmd_TokenizeString` and
      `Cmd_Argv`; their source is not part of this model. */
  datatype Numbers = Numbers(atof: string -> real, atof3: string -> Vec3)

  /** The parser's global accumulators. */
  datatype Accum = Accum(
    worldsun: bool, worldsunangle: Vec3,
    shadowlight: bool, origin: Vec3, angle: Vec3, cone: real, radius: real,
    spot: bool)

  /** All accumulators zero, as at program start. */
  const ZeroAccum: Accum := Accum(false, Zero3, false, Zero3, Zero3, 0.0, 0.0, false)

  /** The two ways closing an entity reaches the light registry. */
  datatype LightCall =
    | SetupSunCall(angle: Vec3)
    | AddSpotCall(origin: Vec3, angles: Vec3, cone: real, radius: real)

  /** R_Shadow_HandleEntityKey: record what a key says about the current entity. */
  function HandleEntityKey(acc: Accum, t: EntityKind, key: string, value: string, num: Numbers): (r: Accum)
    ensures |key| == 0 || t == Invalid ==> r == acc
    ensures t != LightEntity ==> r.(worldsun := acc.worldsun, worldsunangle := acc.worldsunangle) == acc
    ensures t != Worldspawn ==> r.worldsun == acc.worldsun && r.worldsunangle == acc.worldsunangle
    ensures acc.spot ==> r.spot
  {
    if |key| == 0 then acc
    else if t == Worldspawn then
      if KeyMatches(key, "_shadowsun") then acc.(worldsun := true)
      else if KeyMatches(key, "_shadowsunangle") then acc.(worldsunangle := num.atof3(value))
      else acc
    else if t == LightEntity then
      if KeyMatches(key, "_shadowlight") then acc.(shadowlight := true)
      else if KeyMatches(key, "origin") then acc.(origin := num.atof3(value))
      else if KeyMatches(key, "mangle") then acc.(angle := num.atof3(value), spot := true)
      else if KeyMatches(key, "angle") then acc.(cone := num.atof(value), spot := true)
      else if KeyMatches(key, "_shadowlightconeangle") then acc.(cone := num.atof(value), spot := true)
      else if KeyMatches(key, "_shadowlightradius") then acc.(radius := num.atof(value))
      else acc
    else acc
  }

  /** The call R_Shadow_EndEntity makes for an entity of kind `t`, if any. */
  function EndCall(acc: Accum, t: EntityKind): (r: Option<LightCall>)
    ensures r.Some? && r.value.SetupSunCall? <==> t == Worldspawn && acc.worldsun
    ensures r.Some? && r.value.AddSpotCall? <==> t == LightEntity && acc.shadowlight && acc.spot
    ensures r.Some? && r.value.SetupSunCall? ==> r.value.angle == acc.worldsunangle
    ensures r.Some? && r.value.AddSpotCall? ==>
              r.value == AddSpotCall(acc.origin, acc.angle, acc.cone, acc.radius)
  {
    if t == LightEntity && acc.shadowlight then
      if acc.spot then Some(AddSpotCall(acc.origin, acc.angle, acc.cone, acc.radius)) else None
    else if t == Worldspawn && acc.worldsun then Some(SetupSunCall(acc.worldsunangle))
    else None
  }

  /** The reset at the end of R_Shadow_EndEntity: origin, angles, cone, radius and
      both flags go back to zero; the sun angle and the spot flag are kept. */
  function ResetAfterEntity(acc: Accum): (r: Accum)
    ensures !r.worldsun && !r.shadowlight && r.origin == Zero3 && r.angle == Zero3
    ensures r.cone == 0.0 && r.radius == 0.0
    ensures r.worldsunangle == acc.worldsunangle && r.spot == acc.spot
  {
    acc.(origin := Zero3, angle := Zero3, cone := 0.0, radius := 0.0, shadowlight := false, worldsun := false)
  }

  datatype Outcome = Outcome(calls: seq<LightCall>, acc: Accum)

  /** The registry calls a sequence of scanner events leads to, and the
      accumulators left behind. */
  function Dispatch(events: seq<Event>, acc: Accum, num: Numbers): Outcome
  {
    if events == [] then Outcome([], acc)
    else
      var first := DispatchOne(events[0], acc, num);
      var rest := Dispatch(events[1..], first.acc, num);
      Outcome(first.calls + rest.calls, rest.acc)
  }

  function DispatchOne(e: Event, acc: Accum, num: Numbers): Outcome
  {
    match e
    case KeyValue(t, k, v) => Outcome([], HandleEntityKey(acc, t, k, v, num))
    case EndOf(t) =>
      var c := EndCall(acc, t);
      Outcome(if c.Some? then [c.value] else [], ResetAfterEntity(acc))
  }

  /** Dispatching one event is that event's own outcome. */
  lemma DispatchSingle(e: Event, acc: Accum, num: Numbers)
    ensures Dispatch([e], acc, num) == DispatchOne(e, acc, num)
  {
    assert [e][1..] == [];
  }

  lemma {:induction false} DispatchAppend(a: seq<Event>, b: seq<Event>, acc: Accum, num: Numbers)
    ensures var da := Dispatch(a, acc, num);
            var db := Dispatch(b, da.acc, num);
            Dispatch(a + b, acc, num) == Outcome(da.calls + db.calls, db.acc)
  {
    if a != [] {
      assert (a + b)[0] == a[0];
      assert (a + b)[1..] == a[1..] + b;
      DispatchAppend(a[1..], b, DispatchOne(a[0], acc, num).acc, num);
    } else {
      assert a + b == b;
    }
  }

  /** Scanning and dispatching interleaved, as R_Shadow_ParseEntities does
      them: the outcome of the text from `offs` on, step by step. */
  function ScanDispatch(text: string, offs: nat, s: ScanState, acc: Accum, num: Numbers): Outcome
    requires offs <= |text| && s.begin <= offs && s.keyAt <= offs
    decreases |text| - offs, 2
  {
    if offs == |text| then Outcome([], acc) else StepDispatch(text, offs, s, acc, num)
  }

  /** Before the end of the text: the next step, then the rest. Kept apart
      from `Advance` so that unfolding the scan exposes one step at a time. */
  function StepDispatch(text: string, offs: nat, s: ScanState, acc: Accum, num: Numbers): Outcome
    requires offs < |text| && s.begin <= offs && s.keyAt <= offs
    decreases |text| - offs, 1
  {
    Advance(text, offs, s, acc, num)
  }

  /** One step's events acted on, then the rest of the text. */
  function Advance(text: string, offs: nat, s: ScanState, acc: Accum, num: Numbers): Outcome
    requires offs < |text| && s.begin <= offs && s.keyAt <= offs
    decreases |text| - offs, 0
  {
    var r := Step(text, offs, s);
    var now := Dispatch(r.events, acc, num);
    var later := ScanDispatch(text, r.last + 1, r.next, now.acc, num);
    Outcome(now.calls + later.calls, later.acc)
  }

  /** Before the end of the text, the outcome is the step's calls followed by
      those of the text after it. */
  lemma ScanDispatchStep(text: string, offs: nat, s: ScanState, acc: Accum, num: Numbers)
    requires offs < |text| && s.begin <= offs && s.keyAt <= offs
    ensures var r := Step(text, offs, s);
            var now := Dispatch(r.events, acc, num);
            var later := ScanDispatch(text, r.last + 1, r.next, now.acc, num);
            ScanDispatch(text, offs, s, acc, num) == Outcome(now.calls + later.calls, later.acc)
  {
    assert ScanDispatch(text, offs, s, acc, num) == StepDispatch(text, offs, s, acc, num);
    assert StepDispatch(text, offs, s, acc, num) == Advance(text, offs, s, acc, num);
  }

  /** Interleaving changes nothing: acting on each step's events as they come
      is dispatching the whole event sequence afterwards. */
  lemma {:induction false} ScanDispatchIsDispatch(text: string, offs: nat, s: ScanState, acc: Accum, num: Numbers)
    requires offs <= |text| && s.begin <= offs && s.keyAt <= offs
    ensures ScanDispatch(text, offs, s, acc, num) == Dispatch(ScanFrom(text, offs, s), acc, num)
    decreases |text| - offs
  {
    if offs < |text| {
      var r := Step(text, offs, s);
      var now := Dispatch(r.events, acc, num);
      var tail := ScanFrom(text, r.last + 1, r.next);
      assert ScanFrom(text, offs, s) == r.events + tail;
      ScanDispatchStep(text, offs, s, acc, num);
      ScanDispatchIsDispatch(text, r.last + 1, r.next, now.acc, num);
      DispatchAppend(r.events, tail, acc, num);
    }
  }

  // ---------------------------------------------------------------------------
  // Properties of the key handling
  // ---------------------------------------------------------------------------

  /** Keys are compared over their own length, so a shortened worldspawn key
      such as `_s` is read as `_shadowsun`, while the full `_shadowsunangle`
      still reaches the angle. */
  lemma ShortKeysMatchWorldspawnNames(acc: Accum, value: string, num: Numbers)
    ensures HandleEntityKey(acc, Worldspawn, "_s", value, num) == acc.(worldsun := true)
    ensures HandleEntityKey(acc, Worldspawn, "_shadowsun", value, num) == acc.(worldsun := true)
    ensures HandleEntityKey(acc, Worldspawn, "_shadowsunangle", value, num)
         == acc.(worldsunangle := num.atof3(value))
    ensures HandleEntityKey(acc, Worldspawn, "_shadowsunangles", value, num) == acc
  {
    KeyMatchesIsPrefix("_s", "_shadowsun");
    KeyMatchesIsPrefix("_shadowsun", "_shadowsun");
    DiffersAt("_shadowsunangle", "_shadowsun", 10);
    KeyMatchesIsPrefix("_shadowsunangle", "_shadowsunangle");
    DiffersAt("_shadowsunangles", "_shadowsun", 10);
    DiffersAt("_shadowsunangles", "_shadowsunangle", 15);
  }

  /** On a light entity the names are tried in order: `a` is read as `angle`,
      `m` as `mangle`, and `_shadowlightradius` reaches the radius because it is
      longer than `_shadowlight`. */
  lemma ShortKeysMatchLightNames(acc: Accum, value: string, num: Numbers)
    ensures HandleEntityKey(acc, LightEntity, "a", value, num) == acc.(cone := num.atof(value), spot := true)
    ensures HandleEntityKey(acc, LightEntity, "m", value, num) == acc.(angle := num.atof3(value), spot := true)
    ensures HandleEntityKey(acc, LightEntity, "_shadowlightradius", value, num) == acc.(radius := num.atof(value))
    ensures HandleEntityKey(acc, LightEntity, "_sh", value, num) == acc.(shadowlight := true)
  {
    DiffersAt("a", "_shadowlight", 0);
    DiffersAt("a", "origin", 0);
    DiffersAt("a", "mangle", 0);
    KeyMatchesIsPrefix("a", "angle");
    DiffersAt("m", "_shadowlight", 0);
    DiffersAt("m", "origin", 0);
    KeyMatchesIsPrefix("m", "mangle");
    DiffersAt("_shadowlightradius", "_shadowlight", 12);
    DiffersAt("_shadowlightradius", "origin", 0);
    DiffersAt("_shadowlightradius", "mangle", 0);
    DiffersAt("_shadowlightradius", "angle", 0);
    DiffersAt("_shadowlightradius", "_shadowlightconeangle", 12);
    KeyMatchesIsPrefix("_shadowlightradius", "_shadowlightradius");
    KeyMatchesIsPrefix("_sh", "_shadowlight");
  }

  /** The spot flag survives the end of an entity: once one light entity has a
      cone key, a later `_shadowlight` entity without any is still added as a
      spot light, with zero angles, zero cone and the radius it gives. */
  lemma SpotFlagLeaksIntoNextLight(acc: Accum, radius: string, num: Numbers)
    requires acc.spot
    ensures var a1 := ResetAfterEntity(acc);
            var a2 := HandleEntityKey(a1, LightEntity, "_shadowlight", "1", num);
            var a3 := HandleEntityKey(a2, LightEntity, "_shadowlightradius", radius, num);
            EndCall(a3, LightEntity) == Some(AddSpotCall(Zero3, Zero3, 0.0, num.atof(radius)))
  {
    KeyMatchesIsPrefix("_shadowlight", "_shadowlight");
    DiffersAt("_shadowlightradius", "_shadowlight", 12);
    DiffersAt("_shadowlightradius", "origin", 0);
    DiffersAt("_shadowlightradius", "mangle", 0);
    DiffersAt("_shadowlightradius", "angle", 0);
    DiffersAt("_shadowlightradius", "_shadowlightconeangle", 12);
    KeyMatchesIsPrefix("_shadowlightradius", "_shadowlightradius");
  }

  /** The reclassification test reads the text at the key, but because a key
      always ends at a quote it accepts exactly the keys that start with
      `_shadowlight`. */
  lemma StartsShadowlightIsKeyPrefix(text: string, keyAt: nat, close: nat)
    requires keyAt <= close < |text| && text[close] == '"' && '\0' !in text
    ensures StartsShadowlight(text, keyAt)
        <==> (close - keyAt >= 12 && text[keyAt..keyAt + 12] == "_shadowlight")
  {
    var t := text[keyAt..];
    var name := "_shadowlight";
    if close - keyAt >= 12 {
      var k := t[..12];
      assert k == text[keyAt..keyAt + 12];
      assert '\0' !in k by {
        forall i | 0 <= i < 12 ensures k[i] != '\0' { assert k[i] == text[keyAt + i]; }
      }
      PrefixAgreement(t, name, 0, 12);
    } else {
      var n := close - keyAt;
      assert t[n] == '"';
      assert '\0' !in t by {
        forall i | 0 <= i < |t| ensures t[i] != '\0' { assert t[i] == text[keyAt + i]; }
      }
      PrefixStops(t, name, 0, n);
    }
  }

  lemma {:induction false} PrefixAgreement(t: string, name: string, i: nat, n: nat)
    requires |name| == n && i <= n <= |t| && '\0' !in t[..n] && '\0' !in name
    ensures StrnEqFrom(t, name, i, n) <==> t[i..n] == name[i..n]
    decreases n - i
  {
    if i < n {
      assert t[i] == t[..n][i];
      PrefixAgreement(t, name, i + 1, n);
      assert t[i..n] == [t[i]] + t[i + 1..n];
      assert name[i..n] == [name[i]] + name[i + 1..n];
    }
  }

  lemma {:induction false} PrefixStops(t: string, name: string, i: nat, n: nat)
    requires i <= n < |t| && n < |name| && t[n] == '"' && '"' !in name && '\0' !in t
    ensures !StrnEqFrom(t, name, i, |name|)
    decreases n - i
  {
    if i < n {
      if CharAt(t, i) == CharAt(name, i) && CharAt(t, i) != '\0' {
        PrefixStops(t, name, i + 1, n);
      }
    } else {
      assert name[n] != '"';
    }
  }

  // ---------------------------------------------------------------------------
  // A whole level text
  // ---------------------------------------------------------------------------

  /** A level whose worldspawn asks for a shadow-casting sun at angles 45 10 0. */
  const SunLevel: string :=
    "{\n\"" + "classname" + "\" \"" + "worldspawn" + "\"\n\"" + "_shadowsun" + "\" \"" + "1"
    + "\"\n\"" + "_shadowsunangle" + "\" \"" + "45 10 0" + "\"\n}\n"

  const SunLevelEvents: seq<Event> :=
    [KeyValue(Worldspawn, "classname", "worldspawn"), KeyValue(Worldspawn, "_shadowsun", "1"),
     KeyValue(Worldspawn, "_shadowsunangle", "45 10 0"), EndOf(Worldspawn)]

  /** The opening brace and the first key of that level. */
  lemma SunLevelOpening(t: string)
    requires |t| == 74 && t[0] == '{' && t[1] == '\n'
    requires t[2] == '"' && t[3..12] == "classname" && t[12] == '"'
    ensures ScanEvents(t) == ScanFrom(t, 13, ScanState(Entity2, 3, 3, "classname", Worldspawn))
  {
    var s1 := ScanState(Entity1, 0, 0, "", Worldspawn);
    OpenEntity(t, 0, InitialScan);
    SkipIdle(t, 1, 2, s1);
    QuotedKey(t, 2, 12, s1);
  }

  /** The first line of that level: the brace and the `classname` pair. */
  lemma SunLevelLine1(t: string)
    requires |t| == 74 && t[0] == '{' && t[1] == '\n'
    requires t[2] == '"' && t[3..12] == "classname" && t[12] == '"' && t[13] == ' '
    requires t[14] == '"' && t[15..25] == "worldspawn" && t[25] == '"'
    ensures ScanEvents(t)
         == [KeyValue(Worldspawn, "classname", "worldspawn")]
            + ScanFrom(t, 26, ScanState(Entity1, 15, 3, "classname", Worldspawn))
  {
    SunLevelOpening(t);
    assert t[13..14] == [' '];
    QuotedValue(t, 13, 14, 25, ScanState(Entity2, 3, 3, "classname", Worldspawn));
  }

  /** A further pair line of the worldspawn, between positions `offs` and `ve`. */
  lemma WorldspawnPair(t: string, offs: nat, kq: nat, ke: nat, vq: nat, ve: nat, s: ScanState)
    requires s.mode == Entity1 && s.entity == Worldspawn && s.begin <= offs && s.keyAt <= offs
    requires offs + 1 == kq < ke && ke + 2 == vq < ve < |t|
    requires t[offs] == '\n' && t[kq] == '"' && t[ke] == '"' && t[ke + 1] == ' ' && t[vq] == '"' && t[ve] == '"'
    requires '"' !in t[kq + 1..ke] && '"' !in t[vq + 1..ve]
    ensures ScanFrom(t, offs, s)
         == [KeyValue(Worldspawn, t[kq + 1..ke], t[vq + 1..ve])]
            + ScanFrom(t, ve + 1, ScanState(Entity1, vq + 1, kq + 1, t[kq + 1..ke], Worldspawn))
  {
    SkipIdle(t, offs, kq, s);
    QuotedKey(t, kq, ke, s);
    QuotedValue(t, ke + 1, vq, ve, s.(mode := Entity2, begin := kq + 1, keyAt := kq + 1, key := t[kq + 1..ke]));
  }

  /** The closing line: `}` then a newline. */
  lemma ClosingLine(t: string, s: ScanState)
    requires |t| >= 3 && s.mode == Entity1 && s.begin <= |t| - 3 && s.keyAt <= |t| - 3
    requires t[|t| - 3] == '\n' && t[|t| - 2] == '}' && t[|t| - 1] == '\n'
    ensures ScanFrom(t, |t| - 3, s) == [EndOf(s.entity)]
  {
    SkipIdle(t, |t| - 3, |t| - 2, s);
    CloseEntity(t, |t| - 2, s);
    assert t[|t| - 1..] == [t[|t| - 1]];
    NoBraceNoEvents(t, |t| - 1, s.(mode := Initial, entity := Invalid));
  }

  lemma SunLevelFirstLine()
    ensures var t := SunLevel;
      |t| == 74 && t[0] == '{' && t[1] == '\n'
      && t[2] == '"' && t[3..12] == "classname" && t[12] == '"' && t[13] == ' '
      && t[14] == '"' && t[15..25] == "worldspawn" && t[25] == '"'
  {
  }

  lemma SunLevelSecondLine()
    ensures var t := SunLevel;
      |t| == 74 && t[26] == '\n' && t[27] == '"' && t[38] == '"' && t[39] == ' ' && t[40] == '"' && t[42] == '"'
      && t[28..38] == "_shadowsun" && t[41..42] == "1"
  {
    var t := SunLevel;
    var head := "{\n\"" + "classname" + "\" \"" + "worldspawn" + "\"\n\"";
    assert |head| == 28;
    assert t[28..38] == "_shadowsun" by {
      assert t == head + "_shadowsun" + t[38..];
    }
    assert t[41..42] == "1" by {
      assert t == head + "_shadowsun" + "\" \"" + "1" + t[42..];
    }
  }

  lemma SunLevelThirdLine()
    ensures var t := SunLevel;
      |t| == 74 && t[43] == '\n' && t[44] == '"' && t[60] == '"' && t[61] == ' ' && t[62] == '"' && t[70] == '"'
      && t[45..60] == "_shadowsunangle" && t[63..70] == "45 10 0"
      && t[71] == '\n' && t[72] == '}' && t[73] == '\n'
  {
  }

  /** The third line of that level and its closing brace. */
  lemma SunLevelAngleLine(t: string)
    requires |t| == 74
    requires t[43] == '\n' && t[44] == '"' && t[60] == '"' && t[61] == ' ' && t[62] == '"' && t[70] == '"'
    requires t[45..60] == "_shadowsunangle" && t[63..70] == "45 10 0"
    requires t[71] == '\n' && t[72] == '}' && t[73] == '\n'
    ensures ScanFrom(t, 43, ScanState(Entity1, 41, 28, "_shadowsun", Worldspawn)) == SunLevelEvents[2..]
  {
    WorldspawnPair(t, 43, 44, 60, 62, 70, ScanState(Entity1, 41, 28, "_shadowsun", Worldspawn));
    ClosingLine(t, ScanState(Entity1, 63, 45, "_shadowsunangle", Worldspawn));
  }

  /** Any text laid out like that level scans to its events. */
  lemma SunLevelLayout(t: string)
    requires |t| == 74 && t[0] == '{' && t[1] == '\n'
    requires t[2] == '"' && t[3..12] == "classname" && t[12] == '"' && t[13] == ' '
    requires t[14] == '"' && t[15..25] == "worldspawn" && t[25] == '"'
    requires t[26] == '\n' && t[27] == '"' && t[38] == '"' && t[39] == ' ' && t[40] == '"' && t[42] == '"'
    requires t[28..38] == "_shadowsun" && t[41..42] == "1"
    requires t[43] == '\n' && t[44] == '"' && t[60] == '"' && t[61] == ' ' && t[62] == '"' && t[70] == '"'
    requires t[45..60] == "_shadowsunangle" && t[63..70] == "45 10 0"
    requires t[71] == '\n' && t[72] == '}' && t[73] == '\n'
    ensures ScanEvents(t) == SunLevelEvents
  {
    SunLevelLine1(t);
    WorldspawnPair(t, 26, 27, 38, 40, 42, ScanState(Entity1, 15, 3, "classname", Worldspawn));
    SunLevelAngleLine(t);
  }

  /** Scanning that level yields its three pairs as worldspawn pairs and one
      worldspawn end. */
  lemma SunLevelScan()
    ensures ScanEvents(SunLevel) == SunLevelEvents
  {
    SunLevelFirstLine();
    SunLevelSecondLine();
    SunLevelThirdLine();
    SunLevelLayout(SunLevel);
  }

  /** Dispatching those events asks for exactly one sun, at the angles read from
      `_shadowsunangle`, whatever the accumulators held before. */
  lemma SunLevelSetsUpOneSun(acc: Accum, num: Numbers)
    ensures Dispatch(ScanEvents(SunLevel), acc, num).calls == [SetupSunCall(num.atof3("45 10 0"))]
  {
    SunLevelScan();
    var e := SunLevelEvents;
    DiffersAt("classname", "_shadowsun", 0);
    DiffersAt("classname", "_shadowsunangle", 0);
    KeyMatchesIsPrefix("_shadowsun", "_shadowsun");
    DiffersAt("_shadowsunangle", "_shadowsun", 10);
    KeyMatchesIsPrefix("_shadowsunangle", "_shadowsunangle");
    var a2 := acc.(worldsun := true);
    var a3 := a2.(worldsunangle := num.atof3("45 10 0"));
    assert HandleEntityKey(acc, Worldspawn, "classname", "worldspawn", num) == acc;
    assert HandleEntityKey(acc, Worldspawn, "_shadowsun", "1", num) == a2;
    assert HandleEntityKey(a2, Worldspawn, "_shadowsunangle", "45 10 0", num) == a3;
    assert e[3..][1..] == [];
    assert Dispatch(e[3..], a3, num).calls == [SetupSunCall(num.atof3("45 10 0"))];
    assert e[2..][1..] == e[3..];
    assert Dispatch(e[2..], a2, num).calls == [SetupSunCall(num.atof3("45 10 0"))];
    assert e[1..][1..] == e[2..];
    assert Dispatch(e[1..], acc, num).calls == [SetupSunCall(num.atof3("45 10 0"))];
  }
}
