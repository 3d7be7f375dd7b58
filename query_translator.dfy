/**
 * The rich-query selectors of the two range lookups. A selector is kept as a
 * value (which bounds it has and an optional device id); QueryText gives the
 * exact CouchDB query text the chaincode sends, and Matches says which records
 * the selector asks for (`$gte` and `$lte` are inclusive).
 */
module QueryTranslator {
  import opened Wrappers
  import Strconv
  import EventRecord

  /**
   * The timestamp condition. The four shapes are kept apart even where two
   * would select alike (Unbounded and From(0)), because their texts differ.
   */
  datatype Range = Unbounded | UpTo(hi: int) | From(lo: int) | Between(lo: int, hi: int)

  datatype Selector = Selector(range: Range, device: Option<string>)

  /**
   * The bounds of a lookup from its start and end texts: an empty text is a
   * missing bound, and a text Atoi cannot read is the bound 0.
   */
  function RangeOf(start: string, end: string): (r: Range)
    ensures r.Unbounded? <==> start == "" && end == ""
    ensures r.UpTo? <==> start == "" && end != ""
    ensures r.From? <==> start != "" && end == ""
    ensures r.Between? <==> start != "" && end != ""
    ensures (r.From? || r.Between?) ==> r.lo == Strconv.Atoi(start)
    ensures (r.UpTo? || r.Between?) ==> r.hi == Strconv.Atoi(end)
  {
    if start == "" && end == "" then Unbounded
    else if start == "" then UpTo(Strconv.Atoi(end))
    else if end == "" then From(Strconv.Atoi(start))
    else Between(Strconv.Atoi(start), Strconv.Atoi(end))
  }

  /** The selector QueryAllByDateRange sends. */
  function AllSelector(start: string, end: string): Selector {
    Selector(RangeOf(start, end), None)
  }

  /** The selector QueryDeviceByDateRange sends. */
  function DeviceSelector(start: string, end: string, deviceId: string): Selector {
    Selector(RangeOf(start, end), Some(deviceId))
  }

  /** The query text, byte for byte as the chaincode formats it; the device id is spliced in unescaped. */
  function QueryText(sel: Selector): string {
    match sel.device
    case None =>
      (match sel.range
       case Unbounded => "{\"selector\":{\"timestamp\":{\"$gte\": 0}}}"
       case UpTo(hi) => "{\"selector\":{\"timestamp\":{ \"$lte\": " + Strconv.Itoa(hi) + "}}}"
       case From(lo) => "{\"selector\":{\"timestamp\":{\"$gte\": " + Strconv.Itoa(lo) + "}}}"
       case Between(lo, hi) =>
         "{\"selector\":{\"timestamp\":{\"$gte\": " + Strconv.Itoa(lo) + ",\"$lte\": " + Strconv.Itoa(hi) + "}}}")
    case Some(d) =>
      (match sel.range
       case Unbounded => "{\"selector\":{\"timestamp\":{\"$gte\": 0} , \"id\": \"" + d + "\"}}"
       case UpTo(hi) => "{\"selector\":{\"timestamp\":{ \"$lte\": " + Strconv.Itoa(hi) + "}, \"id\": \"" + d + "\"}}"
       case From(lo) => "{\"selector\":{\"timestamp\":{\"$gte\": " + Strconv.Itoa(lo) + "}, \"id\": \"" + d + "\"}}"
       case Between(lo, hi) =>
         "{\"selector\":{\"timestamp\":{\"$gte\": " + Strconv.Itoa(lo) + ",\"$lte\": " + Strconv.Itoa(hi) +
         "}, \"id\": \"" + d + "\"}}")
  }

  /** Whether a stored record satisfies the selector. */
  predicate Matches(sel: Selector, m: EventRecord.EventMessage) {
    (match sel.range
     case Unbounded => 0 <= m.timestamp
     case UpTo(hi) => m.timestamp <= hi
     case From(lo) => lo <= m.timestamp
     case Between(lo, hi) => lo <= m.timestamp <= hi) &&
    (sel.device.Some? ==> m.deviceId == sel.device.value)
  }

  /**
   * The documented meaning of a (start, end) lookup, bound by bound: a present
   * start is an inclusive lower bound, a present end an inclusive upper bound,
   * and with both absent only timestamps from 0 up are selected.
   */
  predicate InRange(start: string, end: string, t: int) {
    && (start != "" ==> Strconv.Atoi(start) <= t)
    && (end != "" ==> t <= Strconv.Atoi(end))
    && (start == "" && end == "" ==> 0 <= t)
  }

  /** The range lookup selects exactly the records whose timestamp is in range. */
  lemma AllSelectorMatches(start: string, end: string, m: EventRecord.EventMessage)
    ensures Matches(AllSelector(start, end), m) <==> InRange(start, end, m.timestamp)
  {
  }

  /** The device lookup selects the intersection of the range lookup and the device's records. */
  lemma DeviceSelectorMatches(start: string, end: string, deviceId: string, m: EventRecord.EventMessage)
    ensures Matches(DeviceSelector(start, end, deviceId), m) <==>
            Matches(AllSelector(start, end), m) && m.deviceId == deviceId
  {
  }

  /** A bound Atoi cannot read acts as the bound 0 rather than being refused. */
  lemma UnreadableBoundIsZero(start: string, end: string, t: int)
    requires start != "" && Strconv.ParseInt(start).None?
    requires end != "" && Strconv.ParseInt(end).None?
    ensures Matches(AllSelector(start, end), EventRecord.EventMessage(t, "", "")) <==> t == 0
  {
  }

  /** With no bounds, a record with a negative timestamp is not selected. */
  lemma UnboundedSkipsNegativeTimestamps(m: EventRecord.EventMessage)
    requires m.timestamp < 0
    ensures !Matches(AllSelector("", ""), m)
  {
  }

  /** The four query texts of QueryAllByDateRange, chosen by which bounds are empty. */
  lemma AllQueryTexts(start: string, end: string)
    ensures start == "" && end == "" ==>
      QueryText(AllSelector(start, end)) == "{\"selector\":{\"timestamp\":{\"$gte\": 0}}}"
    ensures start == "" && end != "" ==>
      QueryText(AllSelector(start, end)) ==
        "{\"selector\":{\"timestamp\":{ \"$lte\": " + Strconv.Itoa(Strconv.Atoi(end)) + "}}}"
    ensures start != "" && end == "" ==>
      QueryText(AllSelector(start, end)) ==
        "{\"selector\":{\"timestamp\":{\"$gte\": " + Strconv.Itoa(Strconv.Atoi(start)) + "}}}"
    ensures start != "" && end != "" ==>
      QueryText(AllSelector(start, end)) ==
        "{\"selector\":{\"timestamp\":{\"$gte\": " + Strconv.Itoa(Strconv.Atoi(start)) +
        ",\"$lte\": " + Strconv.Itoa(Strconv.Atoi(end)) + "}}}"
  {
  }

  /** The four query texts of QueryDeviceByDateRange: the same conditions and the device id, unescaped. */
  lemma DeviceQueryTexts(start: string, end: string, d: string)
    ensures start == "" && end == "" ==>
      QueryText(DeviceSelector(start, end, d)) ==
        "{\"selector\":{\"timestamp\":{\"$gte\": 0} , \"id\": \"" + d + "\"}}"
    ensures start == "" && end != "" ==>
      QueryText(DeviceSelector(start, end, d)) ==
        "{\"selector\":{\"timestamp\":{ \"$lte\": " + Strconv.Itoa(Strconv.Atoi(end)) + "}, \"id\": \"" + d + "\"}}"
    ensures start != "" && end == "" ==>
      QueryText(DeviceSelector(start, end, d)) ==
        "{\"selector\":{\"timestamp\":{\"$gte\": " + Strconv.Itoa(Strconv.Atoi(start)) + "}, \"id\": \"" + d + "\"}}"
    ensures start != "" && end != "" ==>
      QueryText(DeviceSelector(start, end, d)) ==
        "{\"selector\":{\"timestamp\":{\"$gte\": " + Strconv.Itoa(Strconv.Atoi(start)) +
        ",\"$lte\": " + Strconv.Itoa(Strconv.Atoi(end)) + "}, \"id\": \"" + d + "\"}}"
  {
  }

  /**
   * Sample records and the lookups that list them: devices "faucet" (at 1234
   * and 40) and "fauci" (at 1234); a device lookup from "41" to "2000" for
   * "fauci" selects only its record, and the plain range lookup both records
   * at 1234.
   */
  lemma ExampleLookups()
    ensures var a := EventRecord.EventMessage(1234, "faucet", "6d61697961686565");
            var b := EventRecord.EventMessage(40, "faucet", "6d61697961686565");
            var c := EventRecord.EventMessage(1234, "fauci", "6d61697961686565");
            && !Matches(DeviceSelector("41", "2000", "fauci"), a)
            && !Matches(DeviceSelector("41", "2000", "fauci"), b)
            && Matches(DeviceSelector("41", "2000", "fauci"), c)
            && Matches(AllSelector("41", "2000"), a)
            && !Matches(AllSelector("41", "2000"), b)
            && Matches(AllSelector("41", "2000"), c)
  {
    assert Strconv.DecimalValue("41") == 41 by {
      assert "41"[..1] == "4";
    }
    assert Strconv.DecimalValue("2000") == 2000 by {
      assert "2000"[..3] == "200";
      assert "200"[..2] == "20";
      assert "20"[..1] == "2";
    }
  }
}
