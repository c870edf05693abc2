/**
 * The meter driver (drivers/meter/driver.ts): it resets the shared token and
 * restarts every device whenever a setting is set or unset, and it lists the
 * metering points available for pairing.
 */
module Driver {
  import opened Wrappers
  import opened JsText
  import opened MeteringApi
  import opened Device

  // ---------------------------------------------------------------------
  // The pairing request
  // ---------------------------------------------------------------------

  /** Two-digit padding: `"0" + n` below 10, `n.toString()` otherwise. */
  function Pad(n: int): string {
    if n < 10 then "0" + IntToString(n) else IntToString(n)
  }

  /** Every pairing timestamp ends at the top of the hour with a fixed +02:00 offset. */
  const StampSuffix: string := ":00:00+02:00"

  /** `year + "-" + MM + "-" + DD + "T" + HH + ":00:00+02:00"`. */
  function Stamp(year: int, month: int, day: int, hour: int): string {
    IntToString(year) + "-" + Pad(month) + "-" + Pad(day) + "T" + Pad(hour) + StampSuffix
  }

  /** The pairing query: from the previous hour to the current hour of the same date. */
  function PairingPath(year: int, month: int, day: int, hour: int): string {
    MeterValuesPath(Stamp(year, month, day, hour - 1), Stamp(year, month, day, hour))
  }

  /** A date and hour read back from a timestamp. */
  datatype DateHour = DateHour(year: int, month: int, day: int, hour: int)

  /** Reads a `YYYY-MM-DDTHH:00:00+02:00` timestamp. */
  function ParseStamp(s: string): Option<DateHour> {
    if |s| == 25 && AllDigits(s[0..4]) && s[4] == '-' && AllDigits(s[5..7]) && s[7] == '-' &&
       AllDigits(s[8..10]) && s[10] == 'T' && AllDigits(s[11..13]) && s[13..] == StampSuffix
    then Some(DateHour(ParseDigits(s[0..4]), ParseDigits(s[5..7]), ParseDigits(s[8..10]), ParseDigits(s[11..13])))
    else None
  }

  /** Reads the two timestamps back from a pairing query. */
  function ParsePairingPath(p: string): Option<(DateHour, DateHour)> {
    var startAt := |MeterValuesPrefix|;
    var endAt := startAt + 25 + |EndTimeKey|;
    if |p| == endAt + 25 && p[..startAt] == MeterValuesPrefix && p[startAt + 25..endAt] == EndTimeKey
    then
      match (ParseStamp(p[startAt..startAt + 25]), ParseStamp(p[endAt..]))
      case (Some(start), Some(end)) => Some((start, end))
      case _ => None
    else None
  }

  /** For the numbers 0 to 99 the padding gives two digits that read back as the number. */
  lemma PadTwoDigits(n: int)
    requires 0 <= n <= 99
    ensures |Pad(n)| == 2 && AllDigits(Pad(n)) && ParseDigits(Pad(n)) == n
  {
    NatToStringLength(n);
    NatToStringRoundTrip(n);
    var s := Pad(n);
    if n < 10 {
      assert s[..1] == "0";
      assert ParseDigits(s[..1]) == 0 by {
        assert s[..1][..0] == [];
      }
    }
  }

  /** The previous hour of hour 0 is padded as "0-1": the pairing query then holds no valid start time. */
  lemma MidnightQuirk(year: int, month: int, day: int)
    requires 1000 <= year <= 9999 && 0 <= month <= 99 && 0 <= day <= 99
    ensures Pad(-1) == "0-1"
    ensures Stamp(year, month, day, -1)[10..] == "T0-1" + StampSuffix
    ensures ParseStamp(Stamp(year, month, day, -1)) == None
    ensures ParsePairingPath(PairingPath(year, month, day, 0)) == None
  {
    assert IntToString(-1) == "-1";
    NatToStringLength(year);
    PadTwoDigits(month);
    PadTwoDigits(day);
    var s := Stamp(year, month, day, -1);
    assert |s| == 26;
    assert |PairingPath(year, month, day, 0)| == 83;
  }

  /** A timestamp of a four-digit year and two-digit fields reads back as those fields. */
  lemma StampRoundTrip(year: int, month: int, day: int, hour: int)
    requires 1000 <= year <= 9999 && 0 <= month <= 99 && 0 <= day <= 99 && 0 <= hour <= 99
    ensures |Stamp(year, month, day, hour)| == 25
    ensures ParseStamp(Stamp(year, month, day, hour)) == Some(DateHour(year, month, day, hour))
  {
    NatToStringLength(year);
    NatToStringRoundTrip(year);
    PadTwoDigits(month);
    PadTwoDigits(day);
    PadTwoDigits(hour);
    var s := Stamp(year, month, day, hour);
    assert s[0..4] == IntToString(year);
    assert s[5..7] == Pad(month);
    assert s[8..10] == Pad(day);
    assert s[11..13] == Pad(hour);
  }

  /** A query of two 25-character timestamps has them at fixed positions. */
  lemma PathLayout(start: string, end: string)
    requires |start| == 25 && |end| == 25
    ensures var p := MeterValuesPath(start, end);
      |p| == 82 && p[..23] == MeterValuesPrefix && p[23..48] == start &&
      p[48..57] == EndTimeKey && p[57..] == end
  {
    var p := MeterValuesPath(start, end);
    assert p == MeterValuesPrefix + start + EndTimeKey + end;
  }

  /**
   * The pairing query asks from the previous hour to the current hour of one
   * date, both at minute zero with offset +02:00 (for hours 1 to 23 and a
   * four-digit year).
   */
  lemma PairingPathWindow(year: int, month: int, day: int, hour: int)
    requires 1000 <= year <= 9999 && 0 <= month <= 99 && 0 <= day <= 99 && 1 <= hour <= 99
    ensures ParsePairingPath(PairingPath(year, month, day, hour)) ==
      Some((DateHour(year, month, day, hour - 1), DateHour(year, month, day, hour)))
  {
    StampRoundTrip(year, month, day, hour - 1);
    StampRoundTrip(year, month, day, hour);
    PathLayout(Stamp(year, month, day, hour - 1), Stamp(year, month, day, hour));
  }

  // ---------------------------------------------------------------------
  // Pairing records
  // ---------------------------------------------------------------------

  datatype PairData = PairData(id: Option<string>)

  /** `{ name, data: { id } }`, as the pairing view receives it. */
  datatype PairRecord = PairRecord(name: Option<string>, data: PairData)

  /** What `onPairListDevices` returns: `undefined` (`Missing`) or an array of records. */
  datatype Listing = Missing | Records(records: seq<PairRecord>)

  function ToRecord(p: MeteringPoint): PairRecord {
    PairRecord(p.meteringPointId, PairData(p.meteringPointId))
  }

  /** `meteringpoints.map(...)`. */
  function PairRecords(points: seq<MeteringPoint>): seq<PairRecord> {
    if points == [] then [] else [ToRecord(points[0])] + PairRecords(points[1..])
  }

  /** The mapping is one-to-one and keeps the order; name and id are both the metering point id. */
  lemma {:induction false} PairRecordsOneToOne(points: seq<MeteringPoint>)
    ensures |PairRecords(points)| == |points|
    ensures forall i | 0 <= i < |points| ::
      PairRecords(points)[i].name == points[i].meteringPointId &&
      PairRecords(points)[i].data.id == points[i].meteringPointId
  {
    if points != [] {
      PairRecordsOneToOne(points[1..]);
      assert forall i | 1 <= i < |points| :: PairRecords(points)[i] == PairRecords(points[1..])[i - 1];
    }
  }

  /**
   * `resetClient` stores null before it restarts the devices, so every poll
   * of the restart that reaches the request sends the header "Bearer null",
   * whatever token the settings held before.
   */
  lemma ResetRestartSendsNullBearer(s: PollerState, id: string, env: PollEnv)
    requires env.fault.None?
    ensures RestartSpec(s, id, Null, env).0.sent ==
      s.sent + [Request(MeterValuesPath(env.startTime, env.endTime), "Bearer null")]
  {
    var cleared := ClearSpec(s);
    FetchPublishesOnlyValidValues(cleared, id, Null, env);
    BearerHeaderCarriesToken(Null);
  }

  // ---------------------------------------------------------------------
  // The driver object
  // ---------------------------------------------------------------------

  /** Since the enclosing method began, `d` was restarted exactly once, with the null token and `env`. */
  twostate predicate RestartedOnce(d: MeterDevice, env: PollEnv)
    reads d
  {
    d.State() == RestartSpec(old(d.State()), d.id, Null, env).0 &&
    d.restarts == old(d.restarts) + 1
  }

  datatype SettingsEvent = SetEvent | UnsetEvent

  /** `MyDriver`, with the "token" setting and the devices the host returns from `getDevices()`. */
  class MeterDriver {
    var token: Setting
    var devices: seq<MeterDevice>
    /** The settings events `onInit` has subscribed to. */
    var subscribed: set<SettingsEvent>

    /** `getDevices()` lists each device once, and every device keeps its timer discipline. */
    ghost predicate Valid()
      reads this, devices
    {
      (forall i, j | 0 <= i < j < |devices| :: devices[i] != devices[j]) &&
      (forall i | 0 <= i < |devices| :: devices[i].Valid())
    }

    constructor (devices: seq<MeterDevice>, token: Setting)
      requires forall i, j | 0 <= i < j < |devices| :: devices[i] != devices[j]
      requires forall i | 0 <= i < |devices| :: devices[i].Valid()
      ensures Valid()
      ensures this.devices == devices && this.token == token && subscribed == {}
    {
      this.devices := devices;
      this.token := token;
      subscribed := {};
    }

    /** `saveToken(token)`. */
    method SaveToken(t: Setting)
      modifies this`token
      ensures token == t
    {
      token := t;
    }

    /**
     * `resetClient()`: store null as the token, then restart every device in
     * `getDevices()` order. The restarts are not awaited, so one that rejects
     * does not stop the others; `envs[i]` is what the world does during the
     * restart of device `i`.
     */
    method ResetClient(envs: seq<PollEnv>)
      requires Valid() && |envs| == |devices|
      modifies this`token, devices
      ensures Valid()
      ensures token == Null && devices == old(devices)
      ensures forall i | 0 <= i < |devices| ::
        devices[i].State() == RestartSpec(old(devices[i].State()), devices[i].id, Null, envs[i]).0 &&
        devices[i].restarts == old(devices[i].restarts) + 1
    {
      SaveToken(Null);
      var i := 0;
      while i < |devices|
        invariant 0 <= i <= |devices|
        invariant token == Null
        invariant forall j | 0 <= j < i :: devices[j].Valid() && RestartedOnce(devices[j], envs[j])
        invariant forall j | i <= j < |devices| :: unchanged(devices[j])
      {
        var _ := devices[i].FetchAndRestartTimer(token, envs[i]);
        i := i + 1;
      }
    }

    /** The `settings.on('set', ...)` handler. */
    method OnSettingsSet(key: string, envs: seq<PollEnv>)
      requires Valid() && |envs| == |devices|
      modifies this`token, devices
      ensures Valid()
      ensures token == Null && devices == old(devices)
      ensures forall i | 0 <= i < |devices| ::
        devices[i].State() == RestartSpec(old(devices[i].State()), devices[i].id, Null, envs[i]).0 &&
        devices[i].restarts == old(devices[i].restarts) + 1
    {
      ResetClient(envs);
    }

    /** The `settings.on('unset', ...)` handler. */
    method OnSettingsUnset(key: string, envs: seq<PollEnv>)
      requires Valid() && |envs| == |devices|
      modifies this`token, devices
      ensures Valid()
      ensures token == Null && devices == old(devices)
      ensures forall i | 0 <= i < |devices| ::
        devices[i].State() == RestartSpec(old(devices[i].State()), devices[i].id, Null, envs[i]).0 &&
        devices[i].restarts == old(devices[i].restarts) + 1
    {
      ResetClient(envs);
    }

    /** `onInit()`: subscribe both handlers. */
    method OnInit()
      modifies this`subscribed
      ensures subscribed == old(subscribed) + {SetEvent, UnsetEvent}
      ensures SetEvent in subscribed && UnsetEvent in subscribed
    {
      subscribed := subscribed + {SetEvent};
      subscribed := subscribed + {UnsetEvent};
    }

    /** The settings store emitting `ev`: it runs the handler subscribed to it, if any. */
    method Notify(ev: SettingsEvent, key: string, envs: seq<PollEnv>)
      requires Valid() && |envs| == |devices|
      modifies this`token, devices
      ensures Valid() && devices == old(devices)
      ensures ev in subscribed ==> (
        token == Null &&
        forall i | 0 <= i < |devices| ::
          devices[i].State() == RestartSpec(old(devices[i].State()), devices[i].id, Null, envs[i]).0 &&
          devices[i].restarts == old(devices[i].restarts) + 1)
      ensures ev !in subscribed ==> (
        token == old(token) &&
        forall i | 0 <= i < |devices| ::
          devices[i].State() == old(devices[i].State()) && devices[i].restarts == old(devices[i].restarts))
    {
      if ev in subscribed {
        match ev {
          case SetEvent => OnSettingsSet(key, envs);
          case UnsetEvent => OnSettingsUnset(key, envs);
        }
      }
    }

    /**
     * `onPairListDevices()` at the local date and hour given, with the way the
     * HTTP call settles: the request it sends and the list it returns.
     */
    method OnPairListDevices(year: int, month: int, day: int, hour: int, reply: Reply)
      returns (request: Request, listing: Listing)
      ensures request.path == PairingPath(year, month, day, hour)
      ensures HeaderToken(request.authorization) == Some(SettingText(token))
      ensures reply.Failed? ==> listing == Records([])
      ensures reply.Answered? && reply.body.meteringpoints.None? ==> listing == Missing
      ensures reply.Answered? && reply.body.meteringpoints.Some? ==>
        var points := reply.body.meteringpoints.value;
        listing.Records? && |listing.records| == |points| &&
        forall i | 0 <= i < |points| ::
          listing.records[i].name == points[i].meteringPointId &&
          listing.records[i].data.id == points[i].meteringPointId
    {
      var tokenTemp := token;
      var devicesOut: Listing := Records([]);
      request := Request(PairingPath(year, month, day, hour), BearerHeader(tokenTemp));
      BearerHeaderCarriesToken(tokenTemp);
      match reply {
        case Answered(body) =>
          match body.meteringpoints {
            case None =>
              devicesOut := Missing;
            case Some(points) =>
              PairRecordsOneToOne(points);
              devicesOut := Records(PairRecords(points));
          }
        case Failed =>
      }
      listing := devicesOut;
    }
  }
}
