/**
 * The device client: the request and response schemas, the records they
 * describe, and one method per HTTP endpoint. Every endpoint runs the same
 * fixed pipeline: validate the request, send it, treat a status outside
 * 200-299 as failure, then (for the endpoints that read a reply) validate the
 * reply body. The network is an abstract transport outcome given to each
 * endpoint; `sent` reports the request the endpoint put on the wire, if any.
 */
module Api {
  import opened Wrappers

  /** The upper bound of both brightness channels in every brightness schema. */
  const MaxBrightness := 1023

  /** A JSON value as `response.json()` yields it (numbers restricted to integers). */
  datatype Json =
    | JNull
    | JBool(b: bool)
    | JNumber(n: int)
    | JString(s: string)
    | JArray(items: seq<Json>)
    | JObject(fields: map<string, Json>)

  // ---------------------------------------------------------------------------
  // Schemas: one predicate per zod object schema, one conjunct per field

  predicate HasString(j: Json, key: string)
  {
    j.JObject? && key in j.fields && j.fields[key].JString?
  }

  predicate HasBoolean(j: Json, key: string)
  {
    j.JObject? && key in j.fields && j.fields[key].JBool?
  }

  /** `z.number().min(lo).max(hi)`: a number within [lo, hi], both ends included. */
  predicate HasNumberIn(j: Json, key: string, lo: int, hi: int)
  {
    j.JObject? && key in j.fields && j.fields[key].JNumber? && lo <= j.fields[key].n <= hi
  }

  predicate StatusResponseSchema(j: Json)
  {
    HasString(j, "currentTime") && HasString(j, "alarmTime")
    && HasBoolean(j, "isAlarmSet") && HasBoolean(j, "isSunriseActive")
    && HasNumberIn(j, "warmBrightness", 0, MaxBrightness)
    && HasNumberIn(j, "coolBrightness", 0, MaxBrightness)
  }

  predicate AlarmRequestSchema(j: Json)
  {
    HasNumberIn(j, "hour", 0, 23) && HasNumberIn(j, "minute", 0, 59)
  }

  predicate GetAlarmResponseSchema(j: Json)
  {
    HasNumberIn(j, "hour", 0, 23) && HasNumberIn(j, "minute", 0, 59) && HasBoolean(j, "isSet")
  }

  predicate BrightnessRequestSchema(j: Json)
  {
    HasNumberIn(j, "warm", 0, MaxBrightness) && HasNumberIn(j, "cool", 0, MaxBrightness)
  }

  predicate BrightnessResponseSchema(j: Json)
  {
    HasNumberIn(j, "warm", 0, MaxBrightness) && HasNumberIn(j, "cool", 0, MaxBrightness)
  }

  predicate ToggleAlarmRequestSchema(j: Json)
  {
    HasBoolean(j, "enabled")
  }

  predicate ToggleAlarmResponseSchema(j: Json)
  {
    HasBoolean(j, "isAlarmSet") && HasString(j, "alarmTime")
  }

  /** The field names of the status schema; parsing drops every other field. */
  const StatusKeys: set<string> :=
    {"currentTime", "alarmTime", "isAlarmSet", "isSunriseActive", "warmBrightness", "coolBrightness"}

  const GetAlarmKeys: set<string> := {"hour", "minute", "isSet"}
  const BrightnessKeys: set<string> := {"warm", "cool"}
  const ToggleAlarmKeys: set<string> := {"isAlarmSet", "alarmTime"}

  /** What parsing keeps of an object: the fields the schema names. */
  function Strip(j: Json, keys: set<string>): Json
    requires j.JObject?
  {
    JObject(map k | k in j.fields && k in keys :: j.fields[k])
  }

  // ---------------------------------------------------------------------------
  // Records and their JSON form

  datatype Status = Status(
    currentTime: string,
    alarmTime: string,
    isAlarmSet: bool,
    isSunriseActive: bool,
    warmBrightness: int,
    coolBrightness: int)

  datatype AlarmRequest = AlarmRequest(hour: int, minute: int)
  datatype GetAlarmResponse = GetAlarmResponse(hour: int, minute: int, isSet: bool)
  datatype BrightnessRequest = BrightnessRequest(warm: int, cool: int)
  datatype BrightnessResponse = BrightnessResponse(warm: int, cool: int)
  datatype ToggleAlarmResponse = ToggleAlarmResponse(isAlarmSet: bool, alarmTime: string)

  function StatusJson(s: Status): Json
  {
    JObject(map[
      "currentTime" := JString(s.currentTime),
      "alarmTime" := JString(s.alarmTime),
      "isAlarmSet" := JBool(s.isAlarmSet),
      "isSunriseActive" := JBool(s.isSunriseActive),
      "warmBrightness" := JNumber(s.warmBrightness),
      "coolBrightness" := JNumber(s.coolBrightness)])
  }

  function AlarmRequestJson(a: AlarmRequest): Json
  {
    JObject(map["hour" := JNumber(a.hour), "minute" := JNumber(a.minute)])
  }

  function GetAlarmResponseJson(a: GetAlarmResponse): Json
  {
    JObject(map["hour" := JNumber(a.hour), "minute" := JNumber(a.minute), "isSet" := JBool(a.isSet)])
  }

  function BrightnessRequestJson(b: BrightnessRequest): Json
  {
    JObject(map["warm" := JNumber(b.warm), "cool" := JNumber(b.cool)])
  }

  function BrightnessResponseJson(b: BrightnessResponse): Json
  {
    JObject(map["warm" := JNumber(b.warm), "cool" := JNumber(b.cool)])
  }

  function ToggleAlarmRequestJson(enabled: bool): Json
  {
    JObject(map["enabled" := JBool(enabled)])
  }

  function ToggleAlarmResponseJson(t: ToggleAlarmResponse): Json
  {
    JObject(map["isAlarmSet" := JBool(t.isAlarmSet), "alarmTime" := JString(t.alarmTime)])
  }

  /** A status record the status schema admits: both brightness values in range. */
  predicate StatusInRange(s: Status)
  {
    0 <= s.warmBrightness <= MaxBrightness && 0 <= s.coolBrightness <= MaxBrightness
  }

  /** `AlarmRequestSchema.parse(alarm)` succeeds. */
  predicate AlarmRequestValid(a: AlarmRequest)
  {
    AlarmRequestSchema(AlarmRequestJson(a))
  }

  /** `BrightnessRequestSchema.parse(brightness)` succeeds. */
  predicate BrightnessRequestValid(b: BrightnessRequest)
  {
    BrightnessRequestSchema(BrightnessRequestJson(b))
  }

  // ---------------------------------------------------------------------------
  // Decoding: `schema.parse(data)` on a reply body

  function StringAt(j: Json, key: string): Option<string>
  {
    if j.JObject? && key in j.fields && j.fields[key].JString? then Some(j.fields[key].s) else None
  }

  function BooleanAt(j: Json, key: string): Option<bool>
  {
    if j.JObject? && key in j.fields && j.fields[key].JBool? then Some(j.fields[key].b) else None
  }

  function NumberAt(j: Json, key: string, lo: int, hi: int): Option<int>
  {
    if j.JObject? && key in j.fields && j.fields[key].JNumber? then
      var n := j.fields[key].n;
      if lo <= n <= hi then Some(n) else None
    else None
  }

  /** `StatusResponseSchema.parse`: a status record exactly when the body fits the schema. */
  function ParseStatus(j: Json): (r: Option<Status>)
    ensures r.Some? <==> StatusResponseSchema(j)
    ensures r.Some? ==> StatusInRange(r.value)
  {
    match (StringAt(j, "currentTime"), StringAt(j, "alarmTime"),
           BooleanAt(j, "isAlarmSet"), BooleanAt(j, "isSunriseActive"),
           NumberAt(j, "warmBrightness", 0, MaxBrightness), NumberAt(j, "coolBrightness", 0, MaxBrightness))
    case (Some(now), Some(alarm), Some(isSet), Some(sunrise), Some(warm), Some(cool)) =>
      Some(Status(now, alarm, isSet, sunrise, warm, cool))
    case _ => None
  }

  /** `GetAlarmResponseSchema.parse`. */
  function ParseGetAlarmResponse(j: Json): (r: Option<GetAlarmResponse>)
    ensures r.Some? <==> GetAlarmResponseSchema(j)
    ensures r.Some? ==> 0 <= r.value.hour <= 23 && 0 <= r.value.minute <= 59
  {
    match (NumberAt(j, "hour", 0, 23), NumberAt(j, "minute", 0, 59), BooleanAt(j, "isSet"))
    case (Some(h), Some(m), Some(isSet)) => Some(GetAlarmResponse(h, m, isSet))
    case _ => None
  }

  /** `BrightnessResponseSchema.parse`. */
  function ParseBrightnessResponse(j: Json): (r: Option<BrightnessResponse>)
    ensures r.Some? <==> BrightnessResponseSchema(j)
    ensures r.Some? ==> 0 <= r.value.warm <= MaxBrightness && 0 <= r.value.cool <= MaxBrightness
  {
    match (NumberAt(j, "warm", 0, MaxBrightness), NumberAt(j, "cool", 0, MaxBrightness))
    case (Some(w), Some(c)) => Some(BrightnessResponse(w, c))
    case _ => None
  }

  /** `ToggleAlarmResponseSchema.parse`. */
  function ParseToggleAlarmResponse(j: Json): (r: Option<ToggleAlarmResponse>)
    ensures r.Some? <==> ToggleAlarmResponseSchema(j)
  {
    match (BooleanAt(j, "isAlarmSet"), StringAt(j, "alarmTime"))
    case (Some(isSet), Some(alarm)) => Some(ToggleAlarmResponse(isSet, alarm))
    case _ => None
  }

  /** The parsed status is the body with every field the schema does not name dropped. */
  lemma ParseStatusKeepsSchemaFields(j: Json)
    requires ParseStatus(j).Some?
    ensures j.JObject? && StatusJson(ParseStatus(j).value) == Strip(j, StatusKeys)
  {
    var m := StatusJson(ParseStatus(j).value).fields;
    var n := Strip(j, StatusKeys).fields;
    assert m.Keys == StatusKeys;
    assert n.Keys == StatusKeys;
    forall k | k in StatusKeys
      ensures m[k] == n[k]
    {
    }
  }

  /** A field the status schema does not name has no effect on parsing. */
  lemma ParseStatusIgnoresUnknownFields(fields: map<string, Json>, key: string, v: Json)
    requires key !in StatusKeys
    ensures ParseStatus(JObject(fields[key := v])) == ParseStatus(JObject(fields))
  {
  }

  /** A status record survives encoding and parsing exactly when it is in range. */
  lemma StatusRoundTrip(s: Status)
    ensures ParseStatus(StatusJson(s)) == if StatusInRange(s) then Some(s) else None
  {
  }

  /** The parsed get-alarm reply is the body with every field the schema does not name dropped. */
  lemma ParseGetAlarmKeepsSchemaFields(j: Json)
    requires ParseGetAlarmResponse(j).Some?
    ensures j.JObject? && GetAlarmResponseJson(ParseGetAlarmResponse(j).value) == Strip(j, GetAlarmKeys)
  {
    var m := GetAlarmResponseJson(ParseGetAlarmResponse(j).value).fields;
    var n := Strip(j, GetAlarmKeys).fields;
    assert m.Keys == GetAlarmKeys;
    assert n.Keys == GetAlarmKeys;
    forall k | k in GetAlarmKeys
      ensures m[k] == n[k]
    {
    }
  }

  /** A get-alarm reply survives encoding and parsing exactly when it is on the 24-hour clock. */
  lemma GetAlarmRoundTrip(a: GetAlarmResponse)
    ensures ParseGetAlarmResponse(GetAlarmResponseJson(a))
            == if 0 <= a.hour <= 23 && 0 <= a.minute <= 59 then Some(a) else None
  {
  }

  /** The parsed brightness reply is the body with every field the schema does not name dropped. */
  lemma ParseBrightnessKeepsSchemaFields(j: Json)
    requires ParseBrightnessResponse(j).Some?
    ensures j.JObject? && BrightnessResponseJson(ParseBrightnessResponse(j).value) == Strip(j, BrightnessKeys)
  {
    var m := BrightnessResponseJson(ParseBrightnessResponse(j).value).fields;
    var n := Strip(j, BrightnessKeys).fields;
    assert m.Keys == BrightnessKeys;
    assert n.Keys == BrightnessKeys;
    forall k | k in BrightnessKeys
      ensures m[k] == n[k]
    {
    }
  }

  /** A brightness reply survives encoding and parsing exactly when both channels are in range. */
  lemma BrightnessRoundTrip(b: BrightnessResponse)
    ensures ParseBrightnessResponse(BrightnessResponseJson(b))
            == if 0 <= b.warm <= MaxBrightness && 0 <= b.cool <= MaxBrightness then Some(b) else None
  {
  }

  /** The alarm request schema is the 24-hour clock range check. */
  lemma AlarmRequestValidIsClockRange(a: AlarmRequest)
    ensures AlarmRequestValid(a) <==> 0 <= a.hour <= 23 && 0 <= a.minute <= 59
  {
  }

  /** The brightness request schema bounds each channel to [0, MaxBrightness]. */
  lemma BrightnessRequestValidIsRange(b: BrightnessRequest)
    ensures BrightnessRequestValid(b) <==> 0 <= b.warm <= MaxBrightness && 0 <= b.cool <= MaxBrightness
  {
  }

  /** Request and reply brightness schemas admit exactly the same bodies. */
  lemma BrightnessBoundsAgree(j: Json)
    ensures BrightnessRequestSchema(j) <==> BrightnessResponseSchema(j)
  {
  }

  /** The toggle request schema admits every request `toggleAlarm` can build. */
  lemma ToggleRequestAlwaysValid(enabled: bool)
    ensures ToggleAlarmRequestSchema(ToggleAlarmRequestJson(enabled))
  {
  }

  // ---------------------------------------------------------------------------
  // Transport and the request pipeline

  /**
   * What the network does with one request: `fetch` rejects, or a response
   * arrives with a status code and a body that is JSON (Some) or not (None).
   */
  datatype Transport = NetworkFailure | Response(status: int, body: Option<Json>)

  /** `response.ok`. */
  predicate Ok(t: Transport)
  {
    t.Response? && 200 <= t.status <= 299
  }

  datatype ApiError =
    | InvalidRequest      // the request schema threw before `fetch` was called
    | NetworkError        // `fetch` rejected
    | HttpError(status: int)
    | MalformedBody       // `response.json()` threw
    | InvalidResponse     // the reply schema threw

  /** One call of an endpoint, with its argument. */
  datatype Call =
    | GetStatusCall
    | GetAlarmCall
    | SetAlarmCall(alarm: AlarmRequest)
    | ManualOnCall
    | ManualOffCall
    | SetBrightnessCall(brightness: BrightnessRequest)
    | ToggleAlarmCall(enabled: bool)

  /** The request passes the schema its endpoint checks before sending (GET and bodiless calls check none). */
  predicate RequestValid(c: Call)
  {
    match c
    case SetAlarmCall(a) => AlarmRequestValid(a)
    case SetBrightnessCall(b) => BrightnessRequestValid(b)
    case ToggleAlarmCall(enabled) => ToggleAlarmRequestSchema(ToggleAlarmRequestJson(enabled))
    case _ => true
  }

  /** The endpoint reads and validates a reply body. */
  predicate ReadsReply(c: Call)
  {
    c.GetStatusCall? || c.GetAlarmCall? || c.SetBrightnessCall? || c.ToggleAlarmCall?
  }

  /** The reply body passes the endpoint's reply schema. */
  predicate ReplyValid(c: Call, j: Json)
  {
    match c
    case GetStatusCall => StatusResponseSchema(j)
    case GetAlarmCall => GetAlarmResponseSchema(j)
    case SetBrightnessCall(_) => BrightnessResponseSchema(j)
    case ToggleAlarmCall(_) => ToggleAlarmResponseSchema(j)
    case _ => true
  }

  /**
   * The first stage of the pipeline that fails, in pipeline order, or None
   * when the call succeeds.
   */
  function FirstFailure(c: Call, t: Transport): Option<ApiError>
  {
    if !RequestValid(c) then Some(InvalidRequest)
    else if t.NetworkFailure? then Some(NetworkError)
    else if !Ok(t) then Some(HttpError(t.status))
    else if !ReadsReply(c) then None
    else if t.body.None? then Some(MalformedBody)
    else if !ReplyValid(c, t.body.value) then Some(InvalidResponse)
    else None
  }

  /** A request the schema rejects fails the same way whatever the network would have done. */
  lemma InvalidRequestFailsFirst(c: Call, t: Transport)
    requires !RequestValid(c)
    ensures FirstFailure(c, t) == Some(InvalidRequest)
  {
  }

  /** A status outside 200-299 is a failure whatever the body holds. */
  lemma NonOkFailsWhateverTheBody(c: Call, status: int, body: Option<Json>)
    requires RequestValid(c)
    requires !(200 <= status <= 299)
    ensures FirstFailure(c, Response(status, body)) == Some(HttpError(status))
  {
  }

  /** For an endpoint that reads its reply, a body failing the schema is a failure like any other. */
  lemma BadReplyIsFailure(c: Call, status: int, j: Json)
    requires RequestValid(c) && ReadsReply(c) && 200 <= status <= 299
    requires !ReplyValid(c, j)
    ensures FirstFailure(c, Response(status, Some(j))) == Some(InvalidResponse)
  {
  }

  /** Shared by the two GET endpoints: send, check the status, parse the body. */
  method FetchWithValidation<T>(t: Transport, parse: Json -> Option<T>) returns (r: Result<T, ApiError>)
    ensures t.NetworkFailure? ==> r == Failure(NetworkError)
    ensures t.Response? && !Ok(t) ==> r == Failure(HttpError(t.status))
    ensures Ok(t) && t.body.None? ==> r == Failure(MalformedBody)
    ensures r.Success? <==> Ok(t) && t.body.Some? && parse(t.body.value).Some?
    ensures r.Success? ==> r.value == parse(t.body.value).value
    ensures Ok(t) && t.body.Some? && parse(t.body.value).None? ==> r == Failure(InvalidResponse)
  {
    if t.NetworkFailure? {
      return Failure(NetworkError);
    }
    if !Ok(t) {
      return Failure(HttpError(t.status));
    }
    if t.body.None? {
      return Failure(MalformedBody);
    }
    var parsed := parse(t.body.value);
    if parsed.None? {
      return Failure(InvalidResponse);
    }
    return Success(parsed.value);
  }

  method GetStatus(t: Transport) returns (sent: Option<Call>, r: Result<Status, ApiError>)
    ensures sent == Some(GetStatusCall)
    ensures FailureOf(r) == FirstFailure(GetStatusCall, t)
    ensures r.Success? ==> StatusInRange(r.value) && r == Success(ParseStatus(t.body.value).value)
  {
    sent := Some(GetStatusCall);
    r := FetchWithValidation(t, ParseStatus);
  }

  method GetAlarm(t: Transport) returns (sent: Option<Call>, r: Result<GetAlarmResponse, ApiError>)
    ensures sent == Some(GetAlarmCall)
    ensures FailureOf(r) == FirstFailure(GetAlarmCall, t)
    ensures r.Success? ==> 0 <= r.value.hour <= 23 && 0 <= r.value.minute <= 59
    ensures r.Success? ==> r == Success(ParseGetAlarmResponse(t.body.value).value)
  {
    sent := Some(GetAlarmCall);
    r := FetchWithValidation(t, ParseGetAlarmResponse);
  }

  method SetAlarm(alarm: AlarmRequest, t: Transport) returns (sent: Option<Call>, r: Result<(), ApiError>)
    ensures sent.Some? <==> AlarmRequestValid(alarm)
    ensures sent.Some? ==> sent.value == SetAlarmCall(alarm)
    ensures FailureOf(r) == FirstFailure(SetAlarmCall(alarm), t)
  {
    if !AlarmRequestValid(alarm) {
      return None, Failure(InvalidRequest);
    }
    sent := Some(SetAlarmCall(alarm));
    if t.NetworkFailure? {
      return sent, Failure(NetworkError);
    }
    if !Ok(t) {
      return sent, Failure(HttpError(t.status));
    }
    r := Success(());
  }

  method TurnLightsOn(t: Transport) returns (sent: Option<Call>, r: Result<(), ApiError>)
    ensures sent == Some(ManualOnCall)
    ensures FailureOf(r) == FirstFailure(ManualOnCall, t)
  {
    sent := Some(ManualOnCall);
    if t.NetworkFailure? {
      return sent, Failure(NetworkError);
    }
    if !Ok(t) {
      return sent, Failure(HttpError(t.status));
    }
    r := Success(());
  }

  method TurnLightsOff(t: Transport) returns (sent: Option<Call>, r: Result<(), ApiError>)
    ensures sent == Some(ManualOffCall)
    ensures FailureOf(r) == FirstFailure(ManualOffCall, t)
  {
    sent := Some(ManualOffCall);
    if t.NetworkFailure? {
      return sent, Failure(NetworkError);
    }
    if !Ok(t) {
      return sent, Failure(HttpError(t.status));
    }
    r := Success(());
  }

  method SetBrightness(brightness: BrightnessRequest, t: Transport)
    returns (sent: Option<Call>, r: Result<BrightnessResponse, ApiError>)
    ensures sent.Some? <==> BrightnessRequestValid(brightness)
    ensures sent.Some? ==> sent.value == SetBrightnessCall(brightness)
    ensures FailureOf(r) == FirstFailure(SetBrightnessCall(brightness), t)
    ensures r.Success? ==> 0 <= r.value.warm <= MaxBrightness && 0 <= r.value.cool <= MaxBrightness
    ensures r.Success? ==> BrightnessResponseJson(r.value) == Strip(t.body.value, BrightnessKeys)
  {
    if !BrightnessRequestValid(brightness) {
      return None, Failure(InvalidRequest);
    }
    sent := Some(SetBrightnessCall(brightness));
    if t.NetworkFailure? {
      return sent, Failure(NetworkError);
    }
    if !Ok(t) {
      return sent, Failure(HttpError(t.status));
    }
    if t.body.None? {
      return sent, Failure(MalformedBody);
    }
    var parsed := ParseBrightnessResponse(t.body.value);
    if parsed.None? {
      return sent, Failure(InvalidResponse);
    }
    ParseBrightnessKeepsSchemaFields(t.body.value);
    r := Success(parsed.value);
  }

  method ToggleAlarm(enabled: bool, t: Transport)
    returns (sent: Option<Call>, r: Result<ToggleAlarmResponse, ApiError>)
    ensures sent == Some(ToggleAlarmCall(enabled))
    ensures FailureOf(r) == FirstFailure(ToggleAlarmCall(enabled), t)
    ensures r.Success? ==> ToggleAlarmResponseJson(r.value) == Strip(t.body.value, ToggleAlarmKeys)
  {
    // The request schema admits every `{enabled}` built from a boolean, so this step never throws.
    ToggleRequestAlwaysValid(enabled);
    sent := Some(ToggleAlarmCall(enabled));
    if t.NetworkFailure? {
      return sent, Failure(NetworkError);
    }
    if !Ok(t) {
      return sent, Failure(HttpError(t.status));
    }
    if t.body.None? {
      return sent, Failure(MalformedBody);
    }
    var parsed := ParseToggleAlarmResponse(t.body.value);
    if parsed.None? {
      return sent, Failure(InvalidResponse);
    }
    r := Success(parsed.value);
    ghost var m := ToggleAlarmResponseJson(r.value).fields;
    ghost var n := Strip(t.body.value, ToggleAlarmKeys).fields;
    assert m.Keys == n.Keys;
  }

  /**
   * The mutation function of any call: run its endpoint against the transport
   * outcome and report only what was sent and how the call failed, if it did.
   */
  method Perform(c: Call, t: Transport) returns (sent: Option<Call>, failure: Option<ApiError>)
    ensures sent == if RequestValid(c) then Some(c) else None
    ensures failure == FirstFailure(c, t)
  {
    match c
    case GetStatusCall =>
      var r;
      sent, r := GetStatus(t);
      failure := FailureOf(r);
    case GetAlarmCall =>
      var r;
      sent, r := GetAlarm(t);
      failure := FailureOf(r);
    case SetAlarmCall(a) =>
      var r;
      sent, r := SetAlarm(a, t);
      failure := FailureOf(r);
    case ManualOnCall =>
      var r;
      sent, r := TurnLightsOn(t);
      failure := FailureOf(r);
    case ManualOffCall =>
      var r;
      sent, r := TurnLightsOff(t);
      failure := FailureOf(r);
    case SetBrightnessCall(b) =>
      var r;
      sent, r := SetBrightness(b, t);
      failure := FailureOf(r);
    case ToggleAlarmCall(enabled) =>
      var r;
      sent, r := ToggleAlarm(enabled, t);
      failure := FailureOf(r);
  }
}
