/**
 * The compact, token-efficient shape glucose readings are returned in:
 * the sensor-glucose entries of a Nightscout reply, in order, each reduced to
 * its value in the requested unit, its trend and its timestamp.
 *
 * The mg/dl to mmol/l conversion rounds floating-point numbers and is passed
 * in as `toMmol`; rendering an epoch time as ISO 8601 is passed in as `toIso`.
 */
module GlucoseFormat {
  import opened Wrappers

  datatype GlucoseUnit = MmolPerL | MgPerDl

  /** A Nightscout entry (`kind` is its `type` field). */
  datatype Entry = Entry(
    kind: string,
    sgv: Option<real>,
    direction: Option<string>,
    date: int,
    dateString: Option<string>,
    sysTime: Option<string>,
    utcOffset: Option<real>)

  datatype Reading = Reading(value: real, direction: Option<string>, dateString: string)

  datatype CompactGlucoseResponse = CompactGlucoseResponse(
    unit: GlucoseUnit,
    utcOffset: real,
    readings: seq<Reading>,
    count: int,
    startDate: int,
    endDate: int)

  /** A non-null entry of type "sgv" that carries a numeric `sgv`. */
  predicate IsSgvEntry(e: Option<Entry>) {
    e.Some? && e.value.kind == "sgv" && e.value.sgv.Some?
  }

  /** The entries kept by the filter, in input order (null elements of the reply are None). */
  function SgvEntries(entries: seq<Option<Entry>>): (r: seq<Entry>)
    ensures |r| <= |entries|
    ensures forall i | 0 <= i < |r| :: IsSgvEntry(Some(r[i]))
  {
    if |entries| == 0 then []
    else (if IsSgvEntry(entries[0]) then [entries[0].value] else []) + SgvEntries(entries[1..])
  }

  /** The filter keeps the order of its input: filtering a concatenation concatenates the results. */
  lemma {:induction false} SgvEntriesAppend(a: seq<Option<Entry>>, b: seq<Option<Entry>>)
    ensures SgvEntries(a + b) == SgvEntries(a) + SgvEntries(b)
  {
    if |a| > 0 {
      assert (a + b)[1..] == a[1..] + b;
      SgvEntriesAppend(a[1..], b);
    } else {
      assert a + b == b;
    }
  }

  /** The filter keeps exactly the sgv entries: no other entry is kept and none is lost. */
  lemma {:induction false} SgvEntriesMembership(entries: seq<Option<Entry>>, e: Entry)
    ensures e in SgvEntries(entries) <==> Some(e) in entries && IsSgvEntry(Some(e))
  {
    if |entries| > 0 {
      SgvEntriesMembership(entries[1..], e);
      assert entries == [entries[0]] + entries[1..];
    }
  }

  /** One kept entry as a reading. */
  function ToReading(e: Entry, unit: GlucoseUnit, toMmol: real -> real, toIso: int -> string): (r: Reading)
    requires e.sgv.Some?
    ensures unit == MgPerDl ==> r.value == e.sgv.value
    ensures unit == MmolPerL ==> r.value == toMmol(e.sgv.value)
    ensures r.direction == e.direction
    ensures e.dateString.Some? && e.dateString.value != "" ==> r.dateString == e.dateString.value
    ensures (e.dateString.None? || e.dateString.value == "") && e.sysTime.Some? && e.sysTime.value != ""
      ==> r.dateString == e.sysTime.value
    ensures (e.dateString.None? || e.dateString.value == "") && (e.sysTime.None? || e.sysTime.value == "")
      ==> r.dateString == toIso(e.date)
  {
    var raw := e.sgv.value;
    var value := if unit == MmolPerL then toMmol(raw) else raw;
    var dateString :=
      if e.dateString.Some? && e.dateString.value != "" then e.dateString.value
      else if e.sysTime.Some? && e.sysTime.value != "" then e.sysTime.value
      else toIso(e.date);
    Reading(value, e.direction, dateString)
  }

  /** The first entry's numeric utcOffset, or 0, whether or not that entry is a reading. */
  function FirstUtcOffset(entries: seq<Option<Entry>>): (r: real)
    ensures |entries| > 0 && entries[0].Some? && entries[0].value.utcOffset.Some? ==>
      r == entries[0].value.utcOffset.value
    ensures r != 0.0 ==> |entries| > 0 && entries[0].Some? && entries[0].value.utcOffset == Some(r)
  {
    if |entries| > 0 && entries[0].Some? && entries[0].value.utcOffset.Some? then entries[0].value.utcOffset.value
    else 0.0
  }

  /** Only the first raw entry decides the offset: appending entries never changes it. */
  lemma FirstUtcOffsetIgnoresRest(entries: seq<Option<Entry>>, more: seq<Option<Entry>>)
    requires |entries| > 0
    ensures FirstUtcOffset(entries + more) == FirstUtcOffset(entries)
  {
    assert (entries + more)[0] == entries[0];
  }

  /**
   * `formatEntriesToCompact`: the readings are the kept entries mapped one by
   * one; the count is theirs; a falsy start becomes 0 and a falsy end becomes
   * `now`.
   */
  function FormatEntriesToCompact(
    entries: seq<Option<Entry>>,
    unit: GlucoseUnit,
    startDate: Option<int>,
    endDate: Option<int>,
    now: int,
    toMmol: real -> real,
    toIso: int -> string): (r: CompactGlucoseResponse)
    ensures r.unit == unit
    ensures r.count == |r.readings| == |SgvEntries(entries)|
    ensures forall i | 0 <= i < |r.readings| ::
      r.readings[i] == ToReading(SgvEntries(entries)[i], unit, toMmol, toIso)
    ensures r.utcOffset == FirstUtcOffset(entries)
    ensures r.startDate == if startDate.Some? && startDate.value != 0 then startDate.value else 0
    ensures r.endDate == if endDate.Some? && endDate.value != 0 then endDate.value else now
  {
    var kept := SgvEntries(entries);
    var readings := seq(|kept|, i requires 0 <= i < |kept| => ToReading(kept[i], unit, toMmol, toIso));
    CompactGlucoseResponse(
      unit,
      FirstUtcOffset(entries),
      readings,
      |readings|,
      if startDate.Some? && startDate.value != 0 then startDate.value else 0,
      if endDate.Some? && endDate.value != 0 then endDate.value else now)
  }

  /** In mg/dl every reading is the raw sgv of the entry it came from. */
  lemma MgPerDlKeepsRawValues(entries: seq<Option<Entry>>, startDate: Option<int>, endDate: Option<int>,
                              now: int, toMmol: real -> real, toIso: int -> string, i: nat)
    requires i < |SgvEntries(entries)|
    ensures var r := FormatEntriesToCompact(entries, MgPerDl, startDate, endDate, now, toMmol, toIso);
      i < |r.readings| && r.readings[i].value == SgvEntries(entries)[i].sgv.value
  {
  }
}
