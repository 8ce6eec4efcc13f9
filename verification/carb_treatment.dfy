/**
 * The `add_carb_treatment` tool: validates its arguments, builds the
 * treatment with its defaults, posts it with the credentials of the session's
 * user, and merges the stored record Nightscout returns with what was sent.
 *
 * Numeric coercion of strings, the clock, the credential lookup and the
 * Nightscout request are parameters.
 */
module CarbTreatment {
  import opened Wrappers
  import opened Js
  import opened Cognito

  const EventTypes: seq<string> := ["Carb Correction", "Meal Bolus", "Snack Bolus"]
  const DefaultEventType := "Carb Correction"
  const DefaultEnteredBy := "MCP Server"
  const NoDataMessage := "No treatment data returned from Nightscout"
  const FailurePrefix := "Failed to add carb treatment: "

  /** Arguments that passed the schema. */
  datatype CarbArgs = CarbArgs(
    carbs: real,
    eventType: Option<string>,
    createdAt: Option<string>,
    notes: Option<string>,
    enteredBy: Option<string>)

  /** The treatment posted to Nightscout. */
  datatype Treatment = Treatment(
    eventType: string,
    carbs: real,
    createdAt: Option<string>,
    notes: Option<string>,
    enteredBy: string)

  /** The tool's structured result; the optional fields are None when the source leaves them off. */
  datatype CarbOutput = CarbOutput(
    success: bool,
    treatmentId: JsValue,
    eventType: JsValue,
    carbs: real,
    createdAt: JsValue,
    notes: Option<JsValue>,
    enteredBy: Option<JsValue>)

  /** `z.coerce.number().positive()`: `Number(v)` is a number (not NaN) above zero. */
  predicate PositiveCarbs(v: JsValue, parseNumber: string -> Option<real>) {
    var n := ToNumber(v, parseNumber);
    n.Some? && n.value > 0.0
  }

  /** `z.enum([...]).optional()` */
  predicate OptionalEventType(v: JsValue) {
    v.Undefined? || (v.Str? && v.s in EventTypes)
  }

  /**
   * `AddCarbTreatmentSchema.parse`: carbs coerced to a positive number, the
   * event type one of three, the other fields optional strings; each bad
   * field is reported.
   */
  function ValidateCarbArgs(args: JsValue, parseNumber: string -> Option<real>): (r: Result<CarbArgs, ToolError>)
    ensures r.Success? <==>
      && args.Obj?
      && PositiveCarbs(Get(args, "carbs"), parseNumber)
      && OptionalEventType(Get(args, "eventType"))
      && OptionalString(Get(args, "created_at"))
      && OptionalString(Get(args, "notes"))
      && OptionalString(Get(args, "enteredBy"))
    ensures r.Failure? ==> r.error.InvalidArguments? && r.error.issues != []
    ensures r.Success? ==> r.value.carbs > 0.0 && ToNumber(Get(args, "carbs"), parseNumber) == Some(r.value.carbs)
    ensures r.Success? && r.value.eventType.Some? ==> r.value.eventType.value in EventTypes
    ensures r.Success? ==> FromOption(r.value.eventType) == Get(args, "eventType")
    ensures r.Success? ==> FromOption(r.value.createdAt) == Get(args, "created_at")
    ensures r.Success? ==> FromOption(r.value.notes) == Get(args, "notes")
    ensures r.Success? ==> FromOption(r.value.enteredBy) == Get(args, "enteredBy")
  {
    if !args.Obj? then Failure(InvalidArguments([""]))
    else
      var carbs, eventType := Get(args, "carbs"), Get(args, "eventType");
      var createdAt, notes, enteredBy := Get(args, "created_at"), Get(args, "notes"), Get(args, "enteredBy");
      var issues :=
        (if PositiveCarbs(carbs, parseNumber) then [] else ["carbs"])
        + (if OptionalEventType(eventType) then [] else ["eventType"])
        + (if OptionalString(createdAt) then [] else ["created_at"])
        + (if OptionalString(notes) then [] else ["notes"])
        + (if OptionalString(enteredBy) then [] else ["enteredBy"]);
      if issues != [] then Failure(InvalidArguments(issues))
      else Success(CarbArgs(
        ToNumber(carbs, parseNumber).value,
        AsOptionalString(eventType),
        AsOptionalString(createdAt),
        AsOptionalString(notes),
        AsOptionalString(enteredBy)))
  }

  /** `a || fallback` for an optional string. */
  function OrDefault(a: Option<string>, fallback: string): string {
    if a.Some? && a.value != "" then a.value else fallback
  }

  /**
   * The treatment literal: event type defaults to "Carb Correction" and the
   * author to "MCP Server"; carbs, time and notes pass through unchanged.
   */
  function MakeTreatment(a: CarbArgs): (t: Treatment)
    ensures a.eventType.None? || a.eventType.value == "" ==> t.eventType == DefaultEventType
    ensures a.eventType.Some? && a.eventType.value != "" ==> t.eventType == a.eventType.value
    ensures a.enteredBy.None? || a.enteredBy.value == "" ==> t.enteredBy == DefaultEnteredBy
    ensures a.enteredBy.Some? && a.enteredBy.value != "" ==> t.enteredBy == a.enteredBy.value
    ensures t.carbs == a.carbs && t.createdAt == a.createdAt && t.notes == a.notes
    ensures t.eventType != "" && t.enteredBy != ""
  {
    Treatment(OrDefault(a.eventType, DefaultEventType), a.carbs, a.createdAt, a.notes, OrDefault(a.enteredBy, DefaultEnteredBy))
  }

  /** The stored record in Nightscout's reply: the first element of an array reply, else the reply; it must be truthy. */
  function PickTreatment(reply: JsValue): (r: Result<JsValue, ThrownError>)
    ensures r.Success? ==> Truthy(r.value)
    ensures r.Failure? ==> r.error == PlainError(NoDataMessage)
    ensures reply.Arr? && |reply.items| > 0 && Truthy(reply.items[0]) ==> r == Success(reply.items[0])
    ensures reply.Arr? && (|reply.items| == 0 || !Truthy(reply.items[0])) ==> r.Failure?
    ensures !reply.Arr? ==> (r.Success? <==> Truthy(reply)) && (r.Success? ==> r.value == reply)
  {
    var data := if reply.Arr? then (if |reply.items| > 0 then reply.items[0] else Undefined) else reply;
    if Truthy(data) then Success(data) else Failure(PlainError(NoDataMessage))
  }

  /** The returned value when it is truthy, the fallback otherwise. */
  predicate Prefers(v: JsValue, returned: JsValue, fallback: JsValue) {
    (Truthy(returned) ==> v == returned) && (!Truthy(returned) ==> v == fallback)
  }

  /** An optional output field: present when either source is truthy, preferring the returned one. */
  predicate OptionalField(v: Option<JsValue>, returned: JsValue, sent: JsValue) {
    (v.Some? <==> Truthy(returned) || Truthy(sent)) && (v.Some? ==> Prefers(v.value, returned, sent))
  }

  /** How the output merges the stored record `data` with the treatment that was sent. */
  ghost predicate MergedFrom(out: CarbOutput, data: JsValue, sent: Treatment, nowIso: string,
                             parseNumber: string -> Option<real>)
  {
    var returnedCarbs := ToNumber(Get(data, "carbs"), parseNumber);
    && out.success
    && Prefers(out.treatmentId, Get(data, "_id"), Str("unknown"))
    && Prefers(out.eventType, Get(data, "eventType"), Str(sent.eventType))
    && (returnedCarbs.Some? && returnedCarbs.value != 0.0 ==> out.carbs == returnedCarbs.value)
    && (returnedCarbs.None? || returnedCarbs.value == 0.0 ==> out.carbs == sent.carbs)
    && Prefers(out.createdAt, Get(data, "created_at"), Or(FromOption(sent.createdAt), Str(nowIso)))
    && OptionalField(out.notes, Get(data, "notes"), FromOption(sent.notes))
    && OptionalField(out.enteredBy, Get(data, "enteredBy"), Str(sent.enteredBy))
  }

  /** The output literal, then the optional fields added only when there is something to add. */
  method BuildOutput(data: JsValue, sent: Treatment, nowIso: string, parseNumber: string -> Option<real>)
    returns (out: CarbOutput)
    ensures MergedFrom(out, data, sent, nowIso, parseNumber)
  {
    var returnedCarbs := ToNumber(Get(data, "carbs"), parseNumber);
    out := CarbOutput(
      true,
      Or(Get(data, "_id"), Str("unknown")),
      Or(Get(data, "eventType"), Str(sent.eventType)),
      if returnedCarbs.Some? && returnedCarbs.value != 0.0 then returnedCarbs.value else sent.carbs,
      Or(Or(Get(data, "created_at"), FromOption(sent.createdAt)), Str(nowIso)),
      None,
      None);
    var returnedNotes, sentNotes := Get(data, "notes"), FromOption(sent.notes);
    if Truthy(returnedNotes) || Truthy(sentNotes) {
      out := out.(notes := Some(Or(returnedNotes, sentNotes)));
    }
    var returnedBy, sentBy := Get(data, "enteredBy"), Str(sent.enteredBy);
    if Truthy(returnedBy) || Truthy(sentBy) {
      out := out.(enteredBy := Some(Or(returnedBy, sentBy)));
    }
  }

  /**
   * Coercion goes through an array's string form: `[5]` is accepted as 5,
   * while `[]` coerces to 0 and is refused as not positive.
   */
  lemma SingletonArrayCarbs(x: real, parseNumber: string -> Option<real>)
    requires x > 0.0
    ensures var r := ValidateCarbArgs(Obj(map["carbs" := Arr([Num(x)])]), parseNumber);
      r.Success? && r.value.carbs == x
    ensures ValidateCarbArgs(Obj(map["carbs" := Arr([])]), parseNumber).Failure?
  {
    var one := Obj(map["carbs" := Arr([Num(x)])]);
    assert Get(one, "carbs") == Arr([Num(x)]);
    assert ToNumber(Get(one, "carbs"), parseNumber) == Some(x);
    var none := Obj(map["carbs" := Arr([])]);
    assert Get(none, "carbs") == Arr([]);
    assert !PositiveCarbs(Get(none, "carbs"), parseNumber);
  }

  /**
   * Merged with a treatment built by `MakeTreatment`, the output always
   * names an author and an event type.
   */
  lemma OutputAlwaysHasAuthorAndType(out: CarbOutput, data: JsValue, a: CarbArgs, nowIso: string,
                                     parseNumber: string -> Option<real>)
    requires MergedFrom(out, data, MakeTreatment(a), nowIso, parseNumber)
    ensures out.enteredBy.Some? && Truthy(out.enteredBy.value)
    ensures Truthy(out.eventType)
  {
  }

  /**
   * The tool callback. Argument validation happens before the `try` and its
   * error is passed on as is; any later failure is rethrown with the tool's
   * prefix.
   */
  method AddCarbTreatment(
    args: JsValue,
    username: string,
    parseNumber: string -> Option<real>,
    nowIso: string,
    getAttrs: string -> Result<NightscoutCredentials, ThrownError>,
    addTreatment: (NightscoutCredentials, Treatment) -> Result<JsValue, ThrownError>)
    returns (r: Result<CarbOutput, ToolError>)
    ensures ValidateCarbArgs(args, parseNumber).Failure? ==> r == Failure(ValidateCarbArgs(args, parseNumber).error)
    ensures ValidateCarbArgs(args, parseNumber).Success? && r.Failure? ==>
      r.error.Failed? && StartsWith(r.error.message, FailurePrefix)
    ensures r.Success? ==>
      var sent := MakeTreatment(ValidateCarbArgs(args, parseNumber).value);
      && getAttrs(username).Success?
      && var reply := addTreatment(getAttrs(username).value, sent);
      && reply.Success?
      && PickTreatment(reply.value).Success?
      && MergedFrom(r.value, PickTreatment(reply.value).value, sent, nowIso, parseNumber)
    ensures ValidateCarbArgs(args, parseNumber).Success? && getAttrs(username).Success? ==>
      var sent := MakeTreatment(ValidateCarbArgs(args, parseNumber).value);
      var reply := addTreatment(getAttrs(username).value, sent);
      reply.Success? && PickTreatment(reply.value).Failure? ==> r == Failure(Failed(FailurePrefix + NoDataMessage))
    ensures ValidateCarbArgs(args, parseNumber).Success? && getAttrs(username).Failure? ==>
      r == Failure(Failed(FailurePrefix + getAttrs(username).error.message))
    ensures ValidateCarbArgs(args, parseNumber).Success? && getAttrs(username).Success? ==>
      var sent := MakeTreatment(ValidateCarbArgs(args, parseNumber).value);
      var reply := addTreatment(getAttrs(username).value, sent);
      && (reply.Failure? ==> r == Failure(Failed(FailurePrefix + reply.error.message)))
      && (reply.Success? && PickTreatment(reply.value).Success? ==> r.Success?)
  {
    var validated := ValidateCarbArgs(args, parseNumber);
    if validated.Failure? {
      return Failure(validated.error);
    }
    var creds := getAttrs(username);
    if creds.Failure? {
      return Failure(Failed(FailurePrefix + creds.error.message));
    }
    var treatment := MakeTreatment(validated.value);
    var reply := addTreatment(creds.value, treatment);
    if reply.Failure? {
      return Failure(Failed(FailurePrefix + reply.error.message));
    }
    var data := PickTreatment(reply.value);
    if data.Failure? {
      return Failure(Failed(FailurePrefix + data.error.message));
    }
    var output := BuildOutput(data.value, treatment, nowIso, parseNumber);
    r := Success(output);
  }
}
