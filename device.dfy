/**
 * The per-meter poller (drivers/meter/device.ts): it reads one consumption
 * value for its metering point from the API, publishes it as the
 * `measure_power` capability, and keeps one 60 s interval that repeats the
 * poll.
 *
 * The pure parts come first (picking the metering point, reading its first
 * sample, the publish guard). Then come the specification functions over a
 * `PollerState` value with the lemmas about them, and last the class whose
 * methods are proved against those functions.
 */
module Device {
  import opened Wrappers
  import opened MeteringApi

  const MeasurePower: string := "measure_power"

  /** What `consumption` holds before the response callback runs. */
  const Sentinel: real := -255.0

  const WattsPerKilowatt: real := 1000.0

  const PollIntervalMs: nat := 60000

  /** A value a rejected promise carries: an `Error` with a message, or anything else. */
  datatype Thrown = ErrorObject(message: string) | OtherValue

  /** How an async operation settles: it resolves, or it rejects with a thrown value. */
  datatype Outcome = Completed | Threw(thrown: Thrown)

  /** A host interval: a handle id and its period. */
  datatype Interval = Interval(id: nat, periodMs: nat)

  /** One call of `setCapabilityValue`. */
  datatype CapWrite = CapWrite(name: string, value: real)

  /**
   * What the outside world does during one poll: an exception thrown by the
   * client construction, the settings read or the clock (before any request
   * is sent), the two formatted timestamps, and how the HTTP call settles.
   */
  datatype PollEnv = PollEnv(fault: Option<Thrown>, startTime: string, endTime: string, reply: Reply)

  /**
   * The device's state: its `timer` field, the intervals the host runs for
   * it (`live`), the number of handles the host has issued to it, its
   * capability values, the log of capability writes, its warning and the log
   * of requests it sent.
   */
  datatype PollerState = PollerState(
    timer: Option<Interval>,
    live: set<Interval>,
    issued: nat,
    caps: map<string, real>,
    writes: seq<CapWrite>,
    warning: Option<string>,
    sent: seq<Request>)

  // ---------------------------------------------------------------------
  // Picking the metering point and its value
  // ---------------------------------------------------------------------

  predicate Matches(p: MeteringPoint, id: string) {
    p.meteringPointId == Some(id)
  }

  /** Entry `i` is the first entry of `points` whose id is `id`. */
  predicate IsFirstMatch(points: seq<MeteringPoint>, id: string, i: int) {
    0 <= i < |points| && Matches(points[i], id) &&
    forall j | 0 <= j < i :: !Matches(points[j], id)
  }

  /** `meteringpoints.find(p => p?.meteringPointId == id)`. */
  function FindPoint(points: seq<MeteringPoint>, id: string): (r: Option<MeteringPoint>)
    ensures r.Some? ==> r.value in points && Matches(r.value, id)
    ensures r.None? <==> forall i | 0 <= i < |points| :: !Matches(points[i], id)
  {
    if |points| == 0 then None
    else if Matches(points[0], id) then Some(points[0])
    else FindPoint(points[1..], id)
  }

  /** `p?.metervalue?.timeSeries?.[0]?.value`. */
  function FirstSampleValue(p: MeteringPoint): Option<real> {
    match p.metervalue
    case None => None
    case Some(mv) =>
      match mv.timeSeries
      case None => None
      case Some(ts) => if |ts| == 0 then None else ts[0].value
  }

  /** The value the success callback assigns to `consumption`. */
  function ExtractValue(body: Response, id: string): Option<real> {
    match body.meteringpoints
    case None => None
    case Some(points) =>
      match FindPoint(points, id)
      case None => None
      case Some(p) => FirstSampleValue(p)
  }

  /** Every level of the path down to the first sample's value is present, and the value is `v`. */
  predicate HasFirstSample(p: MeteringPoint, v: real) {
    p.metervalue.Some? &&
    p.metervalue.value.timeSeries.Some? &&
    |p.metervalue.value.timeSeries.value| > 0 &&
    p.metervalue.value.timeSeries.value[0].value == Some(v)
  }

  /** `find` returns the first entry with the device's id. */
  lemma {:induction false} FindPointIsFirstMatch(points: seq<MeteringPoint>, id: string, i: int)
    requires IsFirstMatch(points, id, i)
    ensures FindPoint(points, id) == Some(points[i])
    decreases |points|
  {
    if i > 0 {
      assert !Matches(points[0], id);
      assert IsFirstMatch(points[1..], id, i - 1);
      FindPointIsFirstMatch(points[1..], id, i - 1);
    }
  }

  /** Entries after the first match, duplicates of it included, do not change what `find` returns. */
  lemma {:induction false} LaterDuplicatesIgnored(points: seq<MeteringPoint>, rest: seq<MeteringPoint>, id: string)
    requires exists i | 0 <= i < |points| :: Matches(points[i], id)
    ensures FindPoint(points + rest, id) == FindPoint(points, id)
    ensures ExtractValue(Response(Some(points + rest)), id) == ExtractValue(Response(Some(points)), id)
    decreases |points|
  {
    if !Matches(points[0], id) {
      var i :| 0 <= i < |points| && Matches(points[i], id);
      assert i > 0 && Matches(points[1..][i - 1], id);
      assert (points + rest)[1..] == points[1..] + rest;
      LaterDuplicatesIgnored(points[1..], rest, id);
    }
  }

  /**
   * The extracted value is `v` exactly when the answer has `meteringpoints`,
   * some entry carries the device's id, and the first such entry has a
   * non-empty `timeSeries` whose first element's value is `v`.
   */
  lemma ExtractValueIsFirstSample(body: Response, id: string, v: real)
    ensures ExtractValue(body, id) == Some(v) <==>
      body.meteringpoints.Some? &&
      exists i :: IsFirstMatch(body.meteringpoints.value, id, i) && HasFirstSample(body.meteringpoints.value[i], v)
  {
    if body.meteringpoints.Some? {
      var points := body.meteringpoints.value;
      if FindPoint(points, id).Some? {
        var k :| 0 <= k < |points| && Matches(points[k], id);
        var first := FirstMatchExists(points, id, k);
        FindPointIsFirstMatch(points, id, first);
      }
    }
  }

  /** Some entry matching implies a first matching entry, at or before it. */
  lemma {:induction false} FirstMatchExists(points: seq<MeteringPoint>, id: string, k: int) returns (first: int)
    requires 0 <= k < |points| && Matches(points[k], id)
    ensures IsFirstMatch(points, id, first) && first <= k
    decreases k
  {
    if forall j | 0 <= j < k :: !Matches(points[j], id) {
      first := k;
    } else {
      var j :| 0 <= j < k && Matches(points[j], id);
      first := FirstMatchExists(points, id, j);
    }
  }

  /** The publish guard and scaling of `fetchFromService`: `consumption * 1000`, unless absent or the sentinel. */
  function PowerToPublish(consumption: Option<real>): Option<real> {
    if consumption.Some? && consumption.value != Sentinel
    then Some(consumption.value * WattsPerKilowatt)
    else None
  }

  // ---------------------------------------------------------------------
  // Specification of the device's operations
  // ---------------------------------------------------------------------

  /** `setCap(name, value)`: write only when the value differs from the current one. */
  function SetCapSpec(s: PollerState, name: string, value: real): PollerState {
    if name in s.caps && s.caps[name] == value then s
    else s.(caps := s.caps[name := value], writes := s.writes + [CapWrite(name, value)])
  }

  /** The request a poll sends. */
  function PollRequest(token: Setting, env: PollEnv): Request {
    Request(MeterValuesPath(env.startTime, env.endTime), BearerHeader(token))
  }

  /** `fetchFromService()`: the new state and how the returned promise settles. */
  function FetchSpec(s: PollerState, id: string, token: Setting, env: PollEnv): (PollerState, Outcome) {
    match env.fault
    case Some(e) =>
      (if e.ErrorObject? then s.(warning := Some(e.message)) else s, Threw(e))
    case None =>
      var sent := s.(sent := s.sent + [PollRequest(token, env)]);
      var consumption := match env.reply
        case Failed => Some(Sentinel)
        case Answered(body) => ExtractValue(body, id);
      var power := PowerToPublish(consumption);
      (if power.Some? then SetCapSpec(sent, MeasurePower, power.value) else sent, Completed)
  }

  /** The state with the interval the `timer` field holds cleared; the field keeps its handle. */
  function ClearSpec(s: PollerState): PollerState {
    if s.timer.Some? then s.(live := s.live - {s.timer.value}) else s
  }

  /** `fetchAndRestartTimer()`: clear the held interval, poll, and only if that resolves arm a new one. */
  function RestartSpec(s: PollerState, id: string, token: Setting, env: PollEnv): (PollerState, Outcome) {
    var (polled, outcome) := FetchSpec(ClearSpec(s), id, token, env);
    if outcome.Threw? then (polled, outcome)
    else
      var h := Interval(polled.issued, PollIntervalMs);
      (polled.(timer := Some(h), live := polled.live + {h}, issued := polled.issued + 1), Completed)
  }

  /** `onInit()`: an `Error` from the restart becomes the warning, anything else is re-thrown. */
  function InitSpec(s: PollerState, id: string, token: Setting, env: PollEnv): (PollerState, Outcome) {
    var (t, outcome) := RestartSpec(s, id, token, env);
    match outcome
    case Threw(ErrorObject(m)) => (t.(warning := Some(m)), Completed)
    case _ => (t, outcome)
  }

  /** `onDeleted()`. */
  function DeletedSpec(s: PollerState): PollerState {
    ClearSpec(s)
  }

  /** The state after restarting once per element of `envs`, in order. */
  function RestartMany(s: PollerState, id: string, token: Setting, envs: seq<PollEnv>): PollerState
    decreases |envs|
  {
    if envs == [] then s
    else RestartSpec(RestartMany(s, id, token, envs[..|envs| - 1]), id, token, envs[|envs| - 1]).0
  }

  /**
   * The timer discipline: every interval the host runs for the device is the
   * one its `timer` field holds, a 60 s interval with a handle already issued.
   */
  ghost predicate TimerInv(s: PollerState) {
    (forall h | h in s.live :: s.timer == Some(h) && h.periodMs == PollIntervalMs && h.id < s.issued) &&
    (s.timer.Some? ==> s.timer.value.id < s.issued)
  }

  /** Under the discipline at most one interval runs: timers never stack. */
  lemma AtMostOneInterval(s: PollerState)
    requires TimerInv(s)
    ensures s.live == {} || (s.timer.Some? && s.live == {s.timer.value})
    ensures |s.live| <= 1
  {
  }

  /** `setCap` writes nothing when the value is already current, and exactly one write of the value otherwise. */
  lemma SetCapWritesOnChange(s: PollerState, name: string, value: real)
    ensures SetCapSpec(s, name, value).caps == s.caps[name := value]
    ensures SetCapSpec(s, name, value).writes == s.writes <==> name in s.caps && s.caps[name] == value
    ensures !(name in s.caps && s.caps[name] == value) ==>
      SetCapSpec(s, name, value).writes == s.writes + [CapWrite(name, value)]
    ensures SetCapSpec(s, name, value).(caps := s.caps, writes := s.writes) == s
  {
  }

  /** Setting the same value twice writes once. */
  lemma SetCapIdempotent(s: PollerState, name: string, value: real)
    ensures SetCapSpec(SetCapSpec(s, name, value), name, value) == SetCapSpec(s, name, value)
  {
  }

  /**
   * A poll that gets past the plumbing sends one request and writes at most
   * once: the first sample's value times 1000, and only when that value is
   * present and not the sentinel. A failed request, an absent value or the
   * sentinel leaves the capabilities as they were, and a scaled value equal
   * to the published one changes nothing but the request log.
   */
  lemma FetchPublishesOnlyValidValues(s: PollerState, id: string, token: Setting, env: PollEnv)
    requires env.fault.None?
    ensures var (t, outcome) := FetchSpec(s, id, token, env);
      outcome == Completed &&
      t.sent == s.sent + [PollRequest(token, env)] &&
      t.warning == s.warning &&
      (env.reply.Failed? ==> t.caps == s.caps && t.writes == s.writes) &&
      (env.reply.Answered? && PowerToPublish(ExtractValue(env.reply.body, id)).None? ==>
        t.caps == s.caps && t.writes == s.writes) &&
      (env.reply.Answered? && PowerToPublish(ExtractValue(env.reply.body, id)).Some? &&
       MeasurePower in s.caps &&
       s.caps[MeasurePower] == PowerToPublish(ExtractValue(env.reply.body, id)).value ==>
        t == s.(sent := s.sent + [PollRequest(token, env)])) &&
      (t.writes == s.writes ||
        (env.reply.Answered? &&
         ExtractValue(env.reply.body, id).Some? &&
         ExtractValue(env.reply.body, id).value != Sentinel &&
         t.writes == s.writes + [CapWrite(MeasurePower, ExtractValue(env.reply.body, id).value * WattsPerKilowatt)]))
  {
  }

  /** A poll whose value is present, not the sentinel and new, publishes it in watts. */
  lemma FetchPublishesNewValue(s: PollerState, id: string, token: Setting, env: PollEnv, body: Response, v: real)
    requires env.fault.None? && env.reply == Answered(body)
    requires ExtractValue(body, id) == Some(v) && v != Sentinel
    requires !(MeasurePower in s.caps && s.caps[MeasurePower] == v * WattsPerKilowatt)
    ensures FetchSpec(s, id, token, env).0.caps == s.caps[MeasurePower := v * WattsPerKilowatt]
    ensures FetchSpec(s, id, token, env).0.writes == s.writes + [CapWrite(MeasurePower, v * WattsPerKilowatt)]
  {
  }

  /**
   * A poll answered with a response whose first entry for the device has
   * first sample `v`: the sentinel publishes nothing; any other value is
   * written once as `v * 1000` unless that is already the published value
   * (so a sample of 1.5 is published as 1500).
   */
  lemma {:induction false} PollPublishesFirstSampleInWatts(
    s: PollerState, id: string, token: Setting, env: PollEnv, points: seq<MeteringPoint>, i: int, v: real)
    requires env.fault.None? && env.reply == Answered(Response(Some(points)))
    requires IsFirstMatch(points, id, i) && HasFirstSample(points[i], v)
    ensures var t := FetchSpec(s, id, token, env).0;
      (v == Sentinel ==> t.caps == s.caps && t.writes == s.writes) &&
      (v != Sentinel ==> t.caps == s.caps[MeasurePower := v * WattsPerKilowatt]) &&
      (v != Sentinel && !(MeasurePower in s.caps && s.caps[MeasurePower] == v * WattsPerKilowatt) ==>
        t.writes == s.writes + [CapWrite(MeasurePower, v * WattsPerKilowatt)]) &&
      (v == 1.5 && !(MeasurePower in s.caps && s.caps[MeasurePower] == 1500.0) ==>
        t.writes == s.writes + [CapWrite(MeasurePower, 1500.0)])
  {
    ExtractValueIsFirstSample(Response(Some(points)), id, v);
    FetchPublishesOnlyValidValues(s, id, token, env);
  }

  /** A poll that throws sends nothing, writes nothing, sets the warning to an `Error`'s message and passes the value on. */
  lemma FetchFaultWarns(s: PollerState, id: string, token: Setting, env: PollEnv)
    requires env.fault.Some?
    ensures FetchSpec(s, id, token, env).1 == Threw(env.fault.value)
    ensures FetchSpec(s, id, token, env).0.warning ==
      (if env.fault.value.ErrorObject? then Some(env.fault.value.message) else s.warning)
    ensures FetchSpec(s, id, token, env).0.(warning := s.warning) == s
  {
  }

  /** A poll never touches the timer: a failing tick leaves the interval running. */
  lemma FetchKeepsTimer(s: PollerState, id: string, token: Setting, env: PollEnv)
    ensures var t := FetchSpec(s, id, token, env).0;
      t.timer == s.timer && t.live == s.live && t.issued == s.issued
    ensures TimerInv(s) ==> TimerInv(FetchSpec(s, id, token, env).0)
  {
  }

  /**
   * A restart that resolves has cleared the old interval and holds exactly
   * one new 60 s interval; one that rejects has cleared the old interval,
   * arms none and leaves the `timer` field as it was.
   */
  lemma RestartNeverStacks(s: PollerState, id: string, token: Setting, env: PollEnv)
    requires TimerInv(s)
    ensures var (t, outcome) := RestartSpec(s, id, token, env);
      TimerInv(t) &&
      (outcome.Completed? <==> env.fault.None?) &&
      (outcome.Completed? ==>
        t.timer.Some? && t.live == {t.timer.value} &&
        t.timer.value.periodMs == PollIntervalMs && t.timer.value !in s.live) &&
      (outcome.Threw? ==> t.live == {} && t.timer == s.timer && outcome == Threw(env.fault.value))
  {
    AtMostOneInterval(s);
    FetchKeepsTimer(ClearSpec(s), id, token, env);
  }

  /** However many restarts, at most one interval runs, and exactly one when the last restart resolved. */
  lemma {:induction false} RepeatedRestartsHoldOneTimer(s: PollerState, id: string, token: Setting, envs: seq<PollEnv>)
    requires TimerInv(s)
    ensures TimerInv(RestartMany(s, id, token, envs))
    ensures |RestartMany(s, id, token, envs).live| <= 1
    ensures |envs| > 0 && envs[|envs| - 1].fault.None? ==> |RestartMany(s, id, token, envs).live| == 1
    decreases |envs|
  {
    if envs != [] {
      var before := RestartMany(s, id, token, envs[..|envs| - 1]);
      RepeatedRestartsHoldOneTimer(s, id, token, envs[..|envs| - 1]);
      RestartNeverStacks(before, id, token, envs[|envs| - 1]);
    }
    AtMostOneInterval(RestartMany(s, id, token, envs));
  }

  /** `onInit` resolves unless the restart threw something other than an `Error`; an `Error` becomes the warning. */
  lemma InitTurnsErrorsIntoWarnings(s: PollerState, id: string, token: Setting, env: PollEnv)
    requires TimerInv(s)
    ensures var (t, outcome) := InitSpec(s, id, token, env);
      TimerInv(t) &&
      (outcome.Threw? <==> env.fault == Some(OtherValue)) &&
      (outcome.Threw? ==> outcome == Threw(OtherValue)) &&
      (env.fault.Some? && env.fault.value.ErrorObject? ==>
        t.warning == Some(env.fault.value.message) && t.live == {}) &&
      (env.fault.None? ==> |t.live| == 1)
  {
    RestartNeverStacks(s, id, token, env);
    var (t, outcome) := RestartSpec(s, id, token, env);
    AtMostOneInterval(t);
  }

  /** After `onDeleted` no interval runs for the device. */
  lemma DeletedStopsPolling(s: PollerState)
    requires TimerInv(s)
    ensures DeletedSpec(s).live == {}
    ensures TimerInv(DeletedSpec(s))
    ensures DeletedSpec(s).(live := s.live) == s
  {
  }

  // ---------------------------------------------------------------------
  // The device object
  // ---------------------------------------------------------------------

  /** `MyDevice`: one per metering point; `id` is the metering point id from the pairing data. */
  class MeterDevice {
    const id: string
    var timer: Option<Interval>
    var live: set<Interval>
    var issued: nat
    var caps: map<string, real>
    var writes: seq<CapWrite>
    var warning: Option<string>
    var sent: seq<Request>
    /** How many times `fetchAndRestartTimer` has been called on this device. */
    ghost var restarts: nat

    function State(): PollerState
      reads this
    {
      PollerState(timer, live, issued, caps, writes, warning, sent)
    }

    ghost predicate Valid()
      reads this
    {
      TimerInv(State())
    }

    /**
     * A device as the host creates it: `timer` starts null, while the
     * capability values and the warning are those the host has stored for
     * the device (empty for a newly paired one).
     */
    constructor (id: string, storedCaps: map<string, real>, storedWarning: Option<string>)
      ensures this.id == id && Valid() && restarts == 0
      ensures State() == PollerState(None, {}, 0, storedCaps, [], storedWarning, [])
    {
      this.id := id;
      timer := None;
      live := {};
      issued := 0;
      caps := storedCaps;
      writes := [];
      warning := storedWarning;
      sent := [];
      restarts := 0;
    }

    /** `setCap(name, value)`. */
    method SetCap(name: string, value: real)
      requires Valid()
      modifies this
      ensures Valid()
      ensures State() == SetCapSpec(old(State()), name, value)
      ensures restarts == old(restarts)
    {
      var current := if name in caps then Some(caps[name]) else None;
      if current == Some(value) {
        return;
      }
      caps := caps[name := value];
      writes := writes + [CapWrite(name, value)];
    }

    /** `fetchFromService()`, with the settings' token and what the outside world does during this poll. */
    method FetchFromService(token: Setting, env: PollEnv) returns (outcome: Outcome)
      requires Valid()
      modifies this
      ensures Valid()
      ensures (State(), outcome) == FetchSpec(old(State()), id, token, env)
      ensures restarts == old(restarts)
    {
      if env.fault.Some? {
        var e := env.fault.value;
        if e.ErrorObject? {
          warning := Some(e.message);
        }
        return Threw(e);
      }
      var consumption: Option<real> := Some(Sentinel);
      sent := sent + [PollRequest(token, env)];
      match env.reply {
        case Answered(body) =>
          consumption := ExtractValue(body, id);
        case Failed =>
      }
      if consumption.Some? && consumption.value != Sentinel {
        SetCap(MeasurePower, consumption.value * WattsPerKilowatt);
      }
      outcome := Completed;
    }

    /** `fetchAndRestartTimer()`. */
    method FetchAndRestartTimer(token: Setting, env: PollEnv) returns (outcome: Outcome)
      requires Valid()
      modifies this
      ensures Valid()
      ensures (State(), outcome) == RestartSpec(old(State()), id, token, env)
      ensures restarts == old(restarts) + 1
    {
      RestartNeverStacks(State(), id, token, env);
      restarts := restarts + 1;
      if timer.Some? {
        live := live - {timer.value};
      }
      outcome := FetchFromService(token, env);
      if outcome.Threw? {
        return;
      }
      var h := Interval(issued, PollIntervalMs);
      issued := issued + 1;
      live := live + {h};
      timer := Some(h);
    }

    /** One firing of interval `h`: `() => this.fetchFromService()`, whose rejection nobody handles. */
    method Tick(h: Interval, token: Setting, env: PollEnv)
      requires Valid() && h in live
      modifies this
      ensures Valid()
      ensures State() == FetchSpec(old(State()), id, token, env).0
      ensures timer == old(timer) && live == old(live)
      ensures restarts == old(restarts)
    {
      FetchKeepsTimer(State(), id, token, env);
      var _ := FetchFromService(token, env);
    }

    /** `onInit()`. */
    method OnInit(token: Setting, env: PollEnv) returns (outcome: Outcome)
      requires Valid()
      modifies this
      ensures Valid()
      ensures (State(), outcome) == InitSpec(old(State()), id, token, env)
    {
      InitTurnsErrorsIntoWarnings(State(), id, token, env);
      outcome := FetchAndRestartTimer(token, env);
      if outcome.Threw? && outcome.thrown.ErrorObject? {
        warning := Some(outcome.thrown.message);
        outcome := Completed;
      }
    }

    /** `onDeleted()`. */
    method OnDeleted()
      requires Valid()
      modifies this
      ensures Valid()
      ensures State() == DeletedSpec(old(State()))
      ensures live == {}
      ensures restarts == old(restarts)
    {
      DeletedStopsPolling(State());
      if timer.Some? {
        live := live - {timer.value};
      }
    }
  }
}
