/**
 * The command vocabulary of the robot console's frontend (`src/commands.ts`):
 * builders for the JSON payloads handed to the backend, and the single
 * fire-and-forget send primitive that records them.
 *
 * Sending is modelled as appending an `Emission` to an abstract trace; the
 * outcome of the asynchronous backend call is a parameter, because it is
 * decided by code outside this model.
 */
module Commands {
  import opened Wrappers
  import opened JsValues

  // ---------------------------------------------------------------------
  // Vocabulary
  // ---------------------------------------------------------------------

  /**
   * Walking directions accepted by `walk`. The wire letters are
   * "f", "b", "L", "R", "l" and "r"; the robot behind the backend gives
   * the upper- and lower-case side letters their meaning.
   */
  datatype Dir = Forward | Backward | UpperL | UpperR | LowerL | LowerR

  function DirCode(d: Dir): (code: string)
    ensures |code| == 1
    ensures DirOf(code) == Some(d)
  {
    match d
    case Forward => "f"
    case Backward => "b"
    case UpperL => "L"
    case UpperR => "R"
    case LowerL => "l"
    case LowerR => "r"
  }

  /** Reads a direction letter back; anything else is not a direction. */
  function DirOf(code: string): Option<Dir>
  {
    if code == "f" then Some(Forward)
    else if code == "b" then Some(Backward)
    else if code == "L" then Some(UpperL)
    else if code == "R" then Some(UpperR)
    else if code == "l" then Some(LowerL)
    else if code == "r" then Some(LowerR)
    else None
  }

  /** Gaits accepted by `walk`. */
  datatype Mode = Crawl | Trot

  function ModeName(m: Mode): (name: string)
    ensures ModeOf(name) == Some(m)
  {
    match m
    case Crawl => "crawl"
    case Trot => "trot"
  }

  function ModeOf(name: string): Option<Mode>
  {
    if name == "crawl" then Some(Crawl)
    else if name == "trot" then Some(Trot)
    else None
  }

  /** Leg indices: the source's type is the literal union 0 | 1 | 2 | 3. */
  type LegId = n: nat | n < 4

  /** Single-leg actions, sent as "up", "dn", "mf", "bk" and "mid". */
  datatype LegMove = Raise | Lower | StepFront | StepBack | Centre

  function LegMoveCode(a: LegMove): (code: string)
    ensures LegMoveOf(code) == Some(a)
  {
    match a
    case Raise => "up"
    case Lower => "dn"
    case StepFront => "mf"
    case StepBack => "bk"
    case Centre => "mid"
  }

  function LegMoveOf(code: string): Option<LegMove>
  {
    if code == "up" then Some(Raise)
    else if code == "dn" then Some(Lower)
    else if code == "mf" then Some(StepFront)
    else if code == "bk" then Some(StepBack)
    else if code == "mid" then Some(Centre)
    else None
  }

  function LegIdOf(v: Value): Option<LegId>
  {
    if v == Num(0.0) then Some(0)
    else if v == Num(1.0) then Some(1)
    else if v == Num(2.0) then Some(2)
    else if v == Num(3.0) then Some(3)
    else None
  }

  // ---------------------------------------------------------------------
  // Payload builders
  // ---------------------------------------------------------------------

  /** The optional argument of `walk` and `startContinuousWalk`. */
  datatype WalkOptions = WalkOptions(
    mode: Nullable<Mode>,
    steps: Nullable<real>,
    speed: Nullable<real>,
    height: Nullable<real>,
    stepLength: Nullable<real>)

  /** The options object `{}` used when the caller passes none. */
  function NoOptions(): (o: WalkOptions)
    ensures !o.mode.IsDefined() && !o.steps.IsDefined() && !o.stepLength.IsDefined()
    ensures !o.speed.IsDefined() && !o.height.IsDefined()
    ensures forall d :: ResolveWalk(d, o) == WalkCmd(d, Crawl, 10.0, 80.0, Missing, Missing)
  {
    WalkOptions(Missing, Missing, Missing, Missing, Missing)
  }

  const DefaultMode: Mode := Crawl
  const DefaultSteps: real := 10.0
  const DefaultStepLength: real := 80.0

  /** The keys every walk payload carries. */
  const WalkKeys: set<string> := {"cmd", "dir", "mode", "steps", "step_length"}

  /** The JSON value a defined optional number is copied as. */
  function NumberOrNull(f: Nullable<real>): (v: Value)
    requires f.IsDefined()
    ensures f.Null? ==> v == NullValue
    ensures f.Given? ==> v == Num(f.value)
    ensures NullableNumberOf(v) == Some(f)
  {
    if f.Given? then Num(f.value) else NullValue
  }

  /** The inverse of `NumberOrNull`; a string is not a number. */
  function NullableNumberOf(v: Value): Option<Nullable<real>>
  {
    match v
    case Num(n) => Some(Given(n))
    case NullValue => Some(Null)
    case Str(_) => None
  }

  function StopPayload(): (p: Payload)
    ensures p.Keys == {"cmd"}
    ensures p["cmd"] == Str("stop")
  {
    map["cmd" := Str("stop")]
  }

  /**
   * The payload `walk` sends: the fixed keys with their documented defaults
   * (crawl, 10 steps, step length 80), plus `speed` and `height` exactly when
   * the caller's options define them.
   */
  function WalkPayload(dir: Dir, opts: WalkOptions): (p: Payload)
    ensures p.Keys == WalkKeys
                      + (if opts.speed.IsDefined() then {"speed"} else {})
                      + (if opts.height.IsDefined() then {"height"} else {})
    ensures p["cmd"] == Str("walk") && p["dir"] == Str(DirCode(dir))
    ensures opts.mode.Given? ==> p["mode"] == Str(ModeName(opts.mode.value))
    ensures !opts.mode.Given? ==> p["mode"] == Str("crawl")
    ensures opts.steps.Given? ==> p["steps"] == Num(opts.steps.value)
    ensures !opts.steps.Given? ==> p["steps"] == Num(10.0)
    ensures opts.stepLength.Given? ==> p["step_length"] == Num(opts.stepLength.value)
    ensures !opts.stepLength.Given? ==> p["step_length"] == Num(80.0)
    ensures "speed" in p <==> opts.speed.IsDefined()
    ensures opts.speed.IsDefined() ==> p["speed"] == NumberOrNull(opts.speed)
    ensures "height" in p <==> opts.height.IsDefined()
    ensures opts.height.IsDefined() ==> p["height"] == NumberOrNull(opts.height)
  {
    var fixed := map[
      "cmd" := Str("walk"),
      "dir" := Str(DirCode(dir)),
      "mode" := Str(ModeName(opts.mode.Coalesce(DefaultMode))),
      "steps" := Num(opts.steps.Coalesce(DefaultSteps)),
      "step_length" := Num(opts.stepLength.Coalesce(DefaultStepLength))];
    var withSpeed := if opts.speed.IsDefined() then fixed["speed" := NumberOrNull(opts.speed)] else fixed;
    if opts.height.IsDefined() then withSpeed["height" := NumberOrNull(opts.height)] else withSpeed
  }

  function RadiusPayload(val: real): (p: Payload)
    ensures p.Keys == {"cmd", "val"}
    ensures p["cmd"] == Str("radius") && p["val"] == Num(val)
  {
    map["cmd" := Str("radius"), "val" := Num(val)]
  }

  function LegActionPayload(id: LegId, action: LegMove): (p: Payload)
    ensures p.Keys == {"cmd", "id", "action"}
    ensures p["cmd"] == Str("leg") && LegIdOf(p["id"]) == Some(id)
    ensures p["action"] == Str(LegMoveCode(action))
  {
    map["cmd" := Str("leg"), "id" := Num(id as real), "action" := Str(LegMoveCode(action))]
  }

  function LegXYZPayload(id: LegId, x: real, y: real, z: real): (p: Payload)
    ensures p.Keys == {"cmd", "id", "x", "y", "z"}
    ensures p["cmd"] == Str("leg") && LegIdOf(p["id"]) == Some(id)
    ensures p["x"] == Num(x) && p["y"] == Num(y) && p["z"] == Num(z)
  {
    map["cmd" := Str("leg"), "id" := Num(id as real), "x" := Num(x), "y" := Num(y), "z" := Num(z)]
  }

  // ---------------------------------------------------------------------
  // Commands as data: what a payload means to the backend
  // ---------------------------------------------------------------------

  /**
   * The information a structured payload carries. A walk command holds the
   * resolved values (defaults already applied); `speed` and `height` keep the
   * three-way distinction absent / null / number.
   */
  datatype Command =
    | StopCmd
    | WalkCmd(dir: Dir, mode: Mode, steps: real, stepLength: real,
              speed: Nullable<real>, height: Nullable<real>)
    | RadiusCmd(val: real)
    | LegActionCmd(id: LegId, action: LegMove)
    | LegXYZCmd(id: LegId, x: real, y: real, z: real)

  function Encode(c: Command): Payload
  {
    match c
    case StopCmd => StopPayload()
    case WalkCmd(d, m, st, sl, sp, h) =>
      WalkPayload(d, WalkOptions(Given(m), Given(st), sp, h, Given(sl)))
    case RadiusCmd(v) => RadiusPayload(v)
    case LegActionCmd(id, a) => LegActionPayload(id, a)
    case LegXYZCmd(id, x, y, z) => LegXYZPayload(id, x, y, z)
  }

  /** The command a `walk(dir, opts)` call asks for once its defaults are applied. */
  function ResolveWalk(dir: Dir, opts: WalkOptions): Command
  {
    WalkCmd(dir, opts.mode.Coalesce(DefaultMode), opts.steps.Coalesce(DefaultSteps),
            opts.stepLength.Coalesce(DefaultStepLength), opts.speed, opts.height)
  }

  /** Reads an optional numeric key of a walk payload. */
  function OptionalKey(p: Payload, key: string): Option<Nullable<real>>
  {
    if key in p then NullableNumberOf(p[key]) else Some(Missing)
  }

  function DecodeWalk(p: Payload): Option<Command>
  {
    if !(WalkKeys <= p.Keys && p.Keys <= WalkKeys + {"speed", "height"}) then None
    else if p["cmd"] != Str("walk") then None
    else if !(p["dir"].Str? && p["mode"].Str? && p["steps"].Num? && p["step_length"].Num?) then None
    else
      var dir := DirOf(p["dir"].s);
      var mode := ModeOf(p["mode"].s);
      var speed := OptionalKey(p, "speed");
      var height := OptionalKey(p, "height");
      if dir.None? || mode.None? || speed.None? || height.None? then None
      else Some(WalkCmd(dir.value, mode.value, p["steps"].n, p["step_length"].n,
                        speed.value, height.value))
  }

  function DecodeLeg(p: Payload): Option<Command>
  {
    if "cmd" !in p || p["cmd"] != Str("leg") || "id" !in p || LegIdOf(p["id"]).None? then None
    else if p.Keys == {"cmd", "id", "action"} then
      if p["action"].Str? && LegMoveOf(p["action"].s).Some?
      then Some(LegActionCmd(LegIdOf(p["id"]).value, LegMoveOf(p["action"].s).value))
      else None
    else if p.Keys == {"cmd", "id", "x", "y", "z"} then
      if p["x"].Num? && p["y"].Num? && p["z"].Num?
      then Some(LegXYZCmd(LegIdOf(p["id"]).value, p["x"].n, p["y"].n, p["z"].n))
      else None
    else None
  }

  /** Recognises exactly the payloads the builders above can produce. */
  function Decode(p: Payload): Option<Command>
  {
    if "cmd" !in p || !p["cmd"].Str? then None
    else
      var c := p["cmd"].s;
      if c == "stop" then
        if p.Keys == {"cmd"} then Some(StopCmd) else None
      else if c == "walk" then DecodeWalk(p)
      else if c == "radius" then
        if p.Keys == {"cmd", "val"} && p["val"].Num? then Some(RadiusCmd(p["val"].n)) else None
      else if c == "leg" then DecodeLeg(p)
      else None
  }

  // ---------------------------------------------------------------------
  // Sending
  // ---------------------------------------------------------------------

  /** How the backend `invoke` call settled. */
  datatype InvokeOutcome = Delivered | Rejected(reason: string)

  /** One call of the send primitive: the payload handed over and how the call settled. */
  datatype Emission = Emission(payload: Payload, outcome: InvokeOutcome)

  type Trace = seq<Emission>

  /** The payloads of a trace, in emission order. */
  function Payloads(t: Trace): (ps: seq<Payload>)
    ensures |ps| == |t|
    ensures forall i :: 0 <= i < |t| ==> ps[i] == t[i].payload
  {
    if t == [] then [] else Payloads(t[..|t| - 1]) + [t[|t| - 1].payload]
  }

  /**
   * `sendCommand`: hands the payload to the backend once. A rejection is
   * caught and only logged, so the caller always gets back a trace: there is
   * no error result to propagate.
   */
  function SendCommand(t: Trace, p: Payload, outcome: InvokeOutcome): (r: Trace)
    ensures Payloads(r) == Payloads(t) + [p]
    ensures |r| == |t| + 1 && r[..|t|] == t
    ensures r[|t|].outcome == outcome
  {
    t + [Emission(p, outcome)]
  }

  /** `stop()`: exactly one payload, `{cmd: "stop"}`. */
  function Stop(t: Trace, outcome: InvokeOutcome): (r: Trace)
    ensures Payloads(r) == Payloads(t) + [map["cmd" := Str("stop")]]
  {
    SendCommand(t, StopPayload(), outcome)
  }

  /** `walk(dir, options)`: exactly one walk payload. */
  function Walk(t: Trace, dir: Dir, opts: WalkOptions, outcome: InvokeOutcome): (r: Trace)
    ensures Payloads(r) == Payloads(t) + [Encode(ResolveWalk(dir, opts))]
  {
    WalkIsResolvedCommand(dir, opts);
    SendCommand(t, WalkPayload(dir, opts), outcome)
  }

  /** `setRadius(val)`. */
  function SetRadius(t: Trace, val: real, outcome: InvokeOutcome): (r: Trace)
    ensures Payloads(r) == Payloads(t) + [Encode(RadiusCmd(val))]
  {
    SendCommand(t, RadiusPayload(val), outcome)
  }

  /** `legAction(id, action)`. */
  function LegAction(t: Trace, id: LegId, action: LegMove, outcome: InvokeOutcome): (r: Trace)
    ensures Payloads(r) == Payloads(t) + [Encode(LegActionCmd(id, action))]
  {
    SendCommand(t, LegActionPayload(id, action), outcome)
  }

  /** `legXYZ(id, x, y, z)`. */
  function LegXYZ(t: Trace, id: LegId, x: real, y: real, z: real, outcome: InvokeOutcome): (r: Trace)
    ensures Payloads(r) == Payloads(t) + [Encode(LegXYZCmd(id, x, y, z))]
  {
    SendCommand(t, LegXYZPayload(id, x, y, z), outcome)
  }

  /** `sendCustom(obj)`: forwards an arbitrary object unchanged. */
  function SendCustom(t: Trace, obj: Payload, outcome: InvokeOutcome): (r: Trace)
    ensures Payloads(r) == Payloads(t) + [obj]
  {
    SendCommand(t, obj, outcome)
  }

  // ---------------------------------------------------------------------
  // Properties
  // ---------------------------------------------------------------------

  /** A `walk` call sends the payload of its resolved command: defaults fill the gaps. */
  lemma WalkIsResolvedCommand(dir: Dir, opts: WalkOptions)
    ensures WalkPayload(dir, opts) == Encode(ResolveWalk(dir, opts))
  {
  }

  /**
   * `walk(dir)` with no options sends the documented defaults and nothing
   * else: `{cmd: "walk", dir, mode: "crawl", steps: 10, step_length: 80}`.
   */
  lemma WalkWithoutOptions(t: Trace, dir: Dir, outcome: InvokeOutcome)
    ensures Payloads(Walk(t, dir, NoOptions(), outcome)) == Payloads(t) + [map[
              "cmd" := Str("walk"), "dir" := Str(DirCode(dir)), "mode" := Str("crawl"),
              "steps" := Num(10.0), "step_length" := Num(80.0)]]
  {
    var p := WalkPayload(dir, NoOptions());
    assert p.Keys == WalkKeys;
  }

  /** Every command survives encoding: decoding a built payload gives the command back. */
  lemma DecodeEncode(c: Command)
    ensures Decode(Encode(c)) == Some(c)
  {
  }

  /** Decoding is exact: a payload it accepts is precisely the encoding of its result. */
  lemma EncodeDecode(p: Payload)
    ensures Decode(p).Some? ==> Encode(Decode(p).value) == p
  {
    if Decode(p).Some? {
      var c := p["cmd"].s;
      if c == "walk" {
        DecodeWalkExact(p);
      } else if c == "leg" {
        DecodeLegExact(p);
      } else {
        var q := Encode(Decode(p).value);
        assert q.Keys == p.Keys;
        assert forall k :: k in p ==> q[k] == p[k];
      }
    }
  }

  lemma DecodeWalkExact(p: Payload)
    requires DecodeWalk(p).Some?
    ensures Encode(DecodeWalk(p).value) == p
  {
    var q := Encode(DecodeWalk(p).value);
    CodesAreExact();
    assert q.Keys == p.Keys;
  }

  lemma DecodeLegExact(p: Payload)
    requires DecodeLeg(p).Some?
    ensures Encode(DecodeLeg(p).value) == p
  {
    var q := Encode(DecodeLeg(p).value);
    CodesAreExact();
    assert q.Keys == p.Keys;
  }

  /** The decoders of the vocabulary accept only the codes the encoders produce. */
  lemma CodesAreExact()
    ensures forall s :: DirOf(s).Some? ==> DirCode(DirOf(s).value) == s
    ensures forall s :: ModeOf(s).Some? ==> ModeName(ModeOf(s).value) == s
    ensures forall s :: LegMoveOf(s).Some? ==> LegMoveCode(LegMoveOf(s).value) == s
    ensures forall v :: LegIdOf(v).Some? ==> Num(LegIdOf(v).value as real) == v
    ensures forall v, f :: NullableNumberOf(v) == Some(f) ==> f.IsDefined() && NumberOrNull(f) == v
  {
  }

  /** Distinct commands never share a payload. */
  lemma EncodeInjective(c1: Command, c2: Command)
    ensures Encode(c1) == Encode(c2) ==> c1 == c2
  {
    DecodeEncode(c1);
    DecodeEncode(c2);
  }
}
