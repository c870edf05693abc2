/**
 * The remote metering API as both core files see it: the JSON answer of
 * `GET /metervalues`, the request they issue and the stored bearer token.
 * Every level of the answer may be missing, as optional chaining allows.
 */
module MeteringApi {
  import opened Wrappers

  /** One entry of `metervalue.timeSeries`; only `value` is read. */
  datatype Sample = Sample(value: Option<real>)

  datatype MeterValue = MeterValue(timeSeries: Option<seq<Sample>>)

  datatype MeteringPoint = MeteringPoint(meteringPointId: Option<string>, metervalue: Option<MeterValue>)

  /** The `data` of a response: `{ meteringpoints: [...] }`. */
  datatype Response = Response(meteringpoints: Option<seq<MeteringPoint>>)

  /**
   * What the HTTP call settles to. `Failed` is a rejected request (transport
   * error, non-2xx status) or a throw inside the success callback; both end
   * in the `.catch` handler, which only logs.
   */
  datatype Reply = Answered(body: Response) | Failed

  datatype Request = Request(path: string, authorization: string)

  /** The value of the "token" setting: never set, stored as null, or a string. */
  datatype Setting = Undefined | Null | Text(text: string)

  /** The string JavaScript's `+` produces for the setting value. */
  function SettingText(t: Setting): string {
    match t
    case Undefined => "undefined"
    case Null => "null"
    case Text(s) => s
  }

  const BearerPrefix: string := "Bearer "

  /** The `Authorization` header: `"Bearer " + token`. */
  function BearerHeader(token: Setting): string {
    BearerPrefix + SettingText(token)
  }

  /** The credential a header carries, if it is a bearer header. */
  function HeaderToken(header: string): Option<string> {
    if |header| >= |BearerPrefix| && header[..|BearerPrefix|] == BearerPrefix
    then Some(header[|BearerPrefix|..])
    else None
  }

  /** The header carries the token's text, and an absent token is sent as the text "null" or "undefined". */
  lemma BearerHeaderCarriesToken(token: Setting)
    ensures HeaderToken(BearerHeader(token)) == Some(SettingText(token))
    ensures token.Text? ==> HeaderToken(BearerHeader(token)) == Some(token.text)
    ensures token == Null ==> BearerHeader(token) == "Bearer null"
  {
  }

  const MeterValuesPrefix: string := "/metervalues?startTime="
  const EndTimeKey: string := "&endTime="

  /** The request path for a start and an end timestamp. */
  function MeterValuesPath(startTime: string, endTime: string): string {
    MeterValuesPrefix + startTime + EndTimeKey + endTime
  }
}
