/**
 * The `get_glucose_entries` tool: validates its arguments, fills in the
 * default window (the last 24 hours) and limit, fetches the entries with the
 * credentials of the user the session was opened for, and returns them in
 * the compact mmol/l shape.
 *
 * The clock, date parsing, the credential lookup and the Nightscout request
 * are parameters.
 */
module GlucoseEntries {
  import opened Wrappers
  import opened Js
  import opened Cognito
  import opened GlucoseFormat

  const DayMillis: int := 24 * 60 * 60 * 1000
  const DefaultLimit: int := 1000
  const MaxLimit: int := 10000
  const FailurePrefix := "Failed to fetch glucose entries: "

  /** Arguments that passed the schema. */
  datatype GlucoseArgs = GlucoseArgs(startDate: Option<string>, endDate: Option<string>, limit: Option<int>)

  /** The request actually sent to Nightscout. */
  datatype Query = Query(startDate: int, endDate: int, limit: int)

  predicate IsInteger(n: real) {
    n == n.Floor as real
  }

  /** `z.number().int().positive().max(10000).optional()` */
  predicate OptionalLimit(v: JsValue) {
    v.Undefined? || (v.Num? && IsInteger(v.n) && 0.0 < v.n <= MaxLimit as real)
  }

  /**
   * `GetGlucoseEntriesSchema.parse`: every field is checked and each bad one
   * is reported; an accepted limit is an integer between 1 and 10000.
   */
  function ValidateGlucoseArgs(args: JsValue): (r: Result<GlucoseArgs, ToolError>)
    ensures r.Success? <==>
      args.Obj? && OptionalString(Get(args, "startDate")) && OptionalString(Get(args, "endDate"))
      && OptionalLimit(Get(args, "limit"))
    ensures r.Failure? ==> r.error.InvalidArguments? && r.error.issues != []
    ensures r.Success? ==> FromOption(r.value.startDate) == Get(args, "startDate")
    ensures r.Success? ==> FromOption(r.value.endDate) == Get(args, "endDate")
    ensures r.Success? && r.value.limit.Some? ==> 1 <= r.value.limit.value <= MaxLimit
    ensures r.Success? ==> (r.value.limit.None? <==> Get(args, "limit").Undefined?)
    ensures r.Success? && r.value.limit.Some? ==> Get(args, "limit") == Num(r.value.limit.value as real)
  {
    if !args.Obj? then Failure(InvalidArguments([""]))
    else
      var start, end, limit := Get(args, "startDate"), Get(args, "endDate"), Get(args, "limit");
      var issues :=
        (if OptionalString(start) then [] else ["startDate"])
        + (if OptionalString(end) then [] else ["endDate"])
        + (if OptionalLimit(limit) then [] else ["limit"]);
      if issues != [] then Failure(InvalidArguments(issues))
      else Success(GlucoseArgs(
        AsOptionalString(start),
        AsOptionalString(end),
        if limit.Num? then Some(limit.n.Floor) else None))
  }

  /**
   * The window and limit: an absent (or empty) start is exactly one day
   * before `now`, an absent end is `now`, an absent limit is 1000.
   */
  function QueryFor(a: GlucoseArgs, now: int, parseDate: string -> int): (q: Query)
    ensures a.startDate.None? || a.startDate.value == "" ==> q.startDate == now - 86_400_000
    ensures a.startDate.Some? && a.startDate.value != "" ==> q.startDate == parseDate(a.startDate.value)
    ensures a.endDate.None? || a.endDate.value == "" ==> q.endDate == now
    ensures a.endDate.Some? && a.endDate.value != "" ==> q.endDate == parseDate(a.endDate.value)
    ensures a.limit.None? ==> q.limit == DefaultLimit
    ensures a.limit.Some? && a.limit.value != 0 ==> q.limit == a.limit.value
  {
    var oneDayAgo := now - DayMillis;
    Query(
      if a.startDate.Some? && a.startDate.value != "" then parseDate(a.startDate.value) else oneDayAgo,
      if a.endDate.Some? && a.endDate.value != "" then parseDate(a.endDate.value) else now,
      if a.limit.Some? && a.limit.value != 0 then a.limit.value else DefaultLimit)
  }

  /** Every query built from accepted arguments asks for between 1 and 10000 entries. */
  lemma QueryLimitInRange(args: JsValue, now: int, parseDate: string -> int)
    requires ValidateGlucoseArgs(args).Success?
    ensures 1 <= QueryFor(ValidateGlucoseArgs(args).value, now, parseDate).limit <= MaxLimit
  {
  }

  /** The tool callback: validation errors pass through; every later error gets the tool's prefix. */
  function GetGlucoseEntries(
    args: JsValue,
    username: string,
    now: int,
    parseDate: string -> int,
    getAttrs: string -> Result<NightscoutCredentials, ThrownError>,
    getEntries: (NightscoutCredentials, int, int, int) -> Result<seq<Option<Entry>>, ThrownError>,
    toMmol: real -> real,
    toIso: int -> string): (r: Result<CompactGlucoseResponse, ToolError>)
    ensures ValidateGlucoseArgs(args).Failure? ==> r == Failure(ValidateGlucoseArgs(args).error)
    ensures ValidateGlucoseArgs(args).Success? && r.Failure? ==>
      r.error.Failed? && StartsWith(r.error.message, FailurePrefix)
    ensures ValidateGlucoseArgs(args).Success? && getAttrs(username).Failure? ==>
      r == Failure(Failed(FailurePrefix + getAttrs(username).error.message))
    ensures ValidateGlucoseArgs(args).Success? && getAttrs(username).Success? ==>
      var q := QueryFor(ValidateGlucoseArgs(args).value, now, parseDate);
      var fetched := getEntries(getAttrs(username).value, q.startDate, q.endDate, q.limit);
      && (fetched.Failure? ==> r == Failure(Failed(FailurePrefix + fetched.error.message)))
      && (fetched.Success? ==> r.Success?)
    ensures r.Success? ==>
      var q := QueryFor(ValidateGlucoseArgs(args).value, now, parseDate);
      && getAttrs(username).Success?
      && var fetched := getEntries(getAttrs(username).value, q.startDate, q.endDate, q.limit);
      && fetched.Success?
      && r == Success(FormatEntriesToCompact(fetched.value, MmolPerL, Some(q.startDate), Some(q.endDate), now, toMmol, toIso))
      && r.value.unit == MmolPerL
      && r.value.startDate == q.startDate
      && (q.endDate != 0 ==> r.value.endDate == q.endDate)
      && r.value.count == |SgvEntries(fetched.value)|
  {
    var a :- ValidateGlucoseArgs(args);
    var q := QueryFor(a, now, parseDate);
    match getAttrs(username)
    case Failure(e) => Failure(Failed(FailurePrefix + e.message))
    case Success(creds) =>
      match getEntries(creds, q.startDate, q.endDate, q.limit)
      case Failure(e) => Failure(Failed(FailurePrefix + e.message))
      case Success(entries) =>
        Success(FormatEntriesToCompact(entries, MmolPerL, Some(q.startDate), Some(q.endDate), now, toMmol, toIso))
  }

  /** The tool reads the credentials of its session's user and of no one else. */
  lemma UsesOnlySessionUser(
    args: JsValue, username: string, now: int, parseDate: string -> int,
    getAttrs1: string -> Result<NightscoutCredentials, ThrownError>,
    getAttrs2: string -> Result<NightscoutCredentials, ThrownError>,
    getEntries: (NightscoutCredentials, int, int, int) -> Result<seq<Option<Entry>>, ThrownError>,
    toMmol: real -> real, toIso: int -> string)
    requires getAttrs1(username) == getAttrs2(username)
    ensures GetGlucoseEntries(args, username, now, parseDate, getAttrs1, getEntries, toMmol, toIso)
         == GetGlucoseEntries(args, username, now, parseDate, getAttrs2, getEntries, toMmol, toIso)
  {
  }
}
