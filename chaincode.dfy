/**
 * The DltAudit contract: logs device events under an `id~timestamp` composite
 * key and answers point lookups by key and range lookups by rich query. Each
 * transaction function is a method over the stub, proved equal to a function
 * on the ledger as a value; the properties are lemmas about those functions.
 */
module Chaincode {
  import opened Wrappers
  import Strconv
  import Hex
  import CompositeKey
  import opened EventRecord
  import opened QueryTranslator
  import opened Ledger
  import ResultSet

  const IndexName: string := "id~timestamp"
  const LogEventName: string := "logEvent"

  datatype Error =
    | DecodeError                                  // the packet is not hex
    | KeyError                                     // the composite key was refused
    | PutError(key: string, value: seq<Hex.byte>)  // PutState failed
    | ReadError(cause: string)                     // GetState failed
    | NotFound(id: string)                         // no value under the key
    | Propagated(cause: string)                    // a stub or iterator error returned as it is

  /** The text of each error as the contract formats it. */
  function Message(e: Error): string {
    match e
    case DecodeError => "Error decoding the GOOSE packet (expected valid hex string)"
    case KeyError => "Error creating composite key for GooseEvent"
    case PutError(key, value) => "Error putting key '" + key + "' and value '" + ByteText(value) + "'"
    case ReadError(cause) => "Failed to read: " + cause
    case NotFound(id) => id + " does not exist"
    case Propagated(cause) => cause
  }

  /** Bytes printed with %s, one character per byte. */
  function ByteText(b: seq<Hex.byte>): string {
    if b == [] then "" else [b[0] as char] + ByteText(b[1..])
  }

  /** The point-lookup key of an event: the composite key of (id, timestamp text). */
  function EventKey(id: string, timestamp: string): (r: Option<string>)
    ensures r.Some? <==> CompositeKey.ValidSegment(id) && CompositeKey.ValidSegment(timestamp)
  {
    assert CompositeKey.ValidSegment(IndexName);
    assert [id, timestamp][0] == id && [id, timestamp][1] == timestamp;
    CompositeKey.CreateCompositeKey(IndexName, [id, timestamp])
  }

  /** The record LogEvent stores: the timestamp as Atoi reads it, the id, and the packet's hex text. */
  function RecordOf(id: string, timestamp: string, goosePacket: string): EventMessage {
    EventMessage(Strconv.Atoi(timestamp), id, goosePacket)
  }

  // ---- the transaction functions as functions on the ledger value ----

  /** LogEvent's new ledger and error. */
  function LogEventSpec(w: World, failing: map<PeerCall, string>, id: string, timestamp: string, goosePacket: string)
    : (World, Option<Error>)
  {
    match Hex.DecodeString(goosePacket)
    case None => (w, Some(DecodeError))
    case Some(packet) =>
      match EventKey(id, timestamp)
      case None => (w, Some(KeyError))
      case Some(key) =>
        if PutStateCall in failing then (w, Some(PutError(key, packet)))
        else (World(w.state[key := Marshal(RecordOf(id, timestamp, goosePacket))],
                    w.events + [Event(LogEventName, packet)]), None)
  }

  /** QueryEvent's answer: the stored text, or the error. */
  function QueryEventSpec(w: World, failing: map<PeerCall, string>, id: string, timestamp: string)
    : Result<string, Error>
  {
    match EventKey(id, timestamp)
    case None => Err(KeyError)
    case Some(key) =>
      if GetStateCall in failing then Err(ReadError(failing[GetStateCall]))
      else if key !in w.state then Err(NotFound(id))
      else Ok(w.state[key])
  }

  /** A range lookup's answer: the response text over what the engine yields, or the error. */
  function RangeQuerySpec(w: World, engine: QueryEngine, sel: Selector): Result<string, Error> {
    match engine(QueryText(sel), w.state)
    case Err(e) => Err(Propagated(e))
    case Ok(items) =>
      match ResultSet.Response(items)
      case Err(e) => Err(Propagated(e))
      case Ok(text) => Ok(text)
  }

  // ---- the transaction functions over the stub ----

  /** InitLedger: nothing to set up. */
  method InitLedger(stub: Stub) returns (err: Option<Error>)
    ensures err == None
  {
    err := None;
  }

  /**
   * LogEvent: decode the packet (no state touched if it is not hex), build
   * and serialise the record, build the key, write, then emit `logEvent`
   * with the decoded bytes.
   */
  method LogEvent(stub: Stub, id: string, timestamp: string, goosePacket: string) returns (err: Option<Error>)
    modifies stub`state, stub`events
    ensures (stub.Snapshot(), err) == LogEventSpec(old(stub.Snapshot()), stub.failing, id, timestamp, goosePacket)
  {
    var packetBytes := Hex.DecodeString(goosePacket);
    if packetBytes.None? {
      return Some(DecodeError);
    }
    var timeInt := Strconv.Atoi(timestamp);
    var theInput := EventMessage(timeInt, id, goosePacket);
    var eventAsJson := Marshal(theInput);
    var key := EventKey(id, timestamp);
    if key.None? {
      return Some(KeyError);
    }
    assert key.value[0] == CompositeKey.MinUnicodeRune;
    var putErr := stub.PutState(key.value, eventAsJson);
    if putErr.Some? {
      return Some(PutError(key.value, packetBytes.value));
    }
    var eventErr := stub.SetEvent(LogEventName, packetBytes.value);
    err := match eventErr
      case Some(cause) => Some(Propagated(cause))
      case None => None;
  }

  /** QueryEvent: rebuild the key and read it; reads only. */
  method QueryEvent(stub: Stub, id: string, timestamp: string) returns (r: Result<string, Error>)
    ensures r == QueryEventSpec(stub.Snapshot(), stub.failing, id, timestamp)
  {
    var key := EventKey(id, timestamp);
    if key.None? {
      return Err(KeyError);
    }
    var eventAsBytes := stub.GetState(key.value);
    if eventAsBytes.Err? {
      return Err(ReadError(eventAsBytes.error));
    }
    if eventAsBytes.value.None? {
      return Err(NotFound(id));
    }
    r := Ok(eventAsBytes.value.value);
  }

  /**
   * The part both range lookups share: run the rich query, build the
   * response from its iterator, and close the iterator on every path
   * once it was opened.
   */
  method RichQueryResponse(stub: Stub, queryString: string) returns (r: Result<string, Error>)
    modifies stub`openIterators
    ensures stub.openIterators == old(stub.openIterators)
    ensures r == match stub.engine(queryString, stub.state)
                 case Err(e) => Err(Propagated(e))
                 case Ok(items) => (match ResultSet.Response(items)
                                    case Err(e) => Err(Propagated(e))
                                    case Ok(text) => Ok(text))
  {
    var resultsIterator := stub.GetQueryResult(queryString);
    if resultsIterator.Err? {
      return Err(Propagated(resultsIterator.error));
    }
    var it := resultsIterator.value;
    var buffer := ResultSet.ConstructQueryResponseFromIterator(it);
    it.Close();
    if buffer.Err? {
      return Err(Propagated(buffer.error));
    }
    r := Ok(buffer.value);
  }

  /** QueryAllByDateRange: the records with timestamps in [start, end], empty bounds left open. */
  method QueryAllByDateRange(stub: Stub, start: string, end: string) returns (r: Result<string, Error>)
    modifies stub`openIterators
    ensures stub.openIterators == old(stub.openIterators)
    ensures r == RangeQuerySpec(stub.Snapshot(), stub.engine, AllSelector(start, end))
  {
    var queryString := QueryText(AllSelector(start, end));
    r := RichQueryResponse(stub, queryString);
  }

  /** QueryDeviceByDateRange: as QueryAllByDateRange, for one device id only. */
  method QueryDeviceByDateRange(stub: Stub, start: string, end: string, deviceId: string)
    returns (r: Result<string, Error>)
    modifies stub`openIterators
    ensures stub.openIterators == old(stub.openIterators)
    ensures r == RangeQuerySpec(stub.Snapshot(), stub.engine, DeviceSelector(start, end, deviceId))
  {
    var queryString := QueryText(DeviceSelector(start, end, deviceId));
    r := RichQueryResponse(stub, queryString);
  }

  // ---- properties ----

  /**
   * LogEvent succeeds exactly when the packet is hex, both key segments are
   * accepted and the peer takes the write; on success it stores the
   * serialised record under the event's key, changes no other key and
   * appends one `logEvent` event with the decoded bytes; on every failure
   * the ledger and the event log are as before.
   */
  lemma LogEventOutcome(w: World, failing: map<PeerCall, string>, id: string, timestamp: string, goosePacket: string)
    ensures LogEventSpec(w, failing, id, timestamp, goosePacket).1.None? <==>
      && Hex.DecodeString(goosePacket).Some?
      && CompositeKey.ValidSegment(id) && CompositeKey.ValidSegment(timestamp)
      && PutStateCall !in failing
    ensures LogEventSpec(w, failing, id, timestamp, goosePacket).1.None? ==>
      var w' := LogEventSpec(w, failing, id, timestamp, goosePacket).0;
      var key := EventKey(id, timestamp).value;
      && w'.state == w.state[key := Marshal(RecordOf(id, timestamp, goosePacket))]
      && w'.events == w.events + [Event(LogEventName, Hex.DecodeString(goosePacket).value)]
    ensures LogEventSpec(w, failing, id, timestamp, goosePacket).1.Some? ==>
      LogEventSpec(w, failing, id, timestamp, goosePacket).0 == w
  {
    assert CompositeKey.ValidSegment(IndexName);
  }

  /**
   * A packet that is not hex (odd length, or a character outside 0-9, a-f,
   * A-F) is refused with the decoding error and nothing is written or emitted.
   */
  lemma BadPacketRefused(w: World, failing: map<PeerCall, string>, id: string, timestamp: string, goosePacket: string)
    requires |goosePacket| % 2 == 1 || exists i :: 0 <= i < |goosePacket| && !Hex.IsHexDigit(goosePacket[i])
    ensures LogEventSpec(w, failing, id, timestamp, goosePacket) == (w, Some(DecodeError))
  {
  }

  /**
   * The stored text reads back as the record: the timestamp as Atoi reads
   * the timestamp text, the id, and the packet's hex text (not its bytes),
   * which decodes to the payload of the event just emitted.
   */
  lemma StoredRecordContents(w: World, failing: map<PeerCall, string>, id: string, timestamp: string, goosePacket: string)
    requires LogEventSpec(w, failing, id, timestamp, goosePacket).1.None?
    ensures var w' := LogEventSpec(w, failing, id, timestamp, goosePacket).0;
      && EventKey(id, timestamp).Some? && EventKey(id, timestamp).value in w'.state
      && Unmarshal(w'.state[EventKey(id, timestamp).value]) ==
           Some(EventMessage(Strconv.Atoi(timestamp), id, goosePacket))
      && |w'.events| > 0
      && w'.events[|w'.events| - 1].name == "logEvent"
      && Hex.DecodeString(goosePacket) == Some(w'.events[|w'.events| - 1].payload)
  {
    UnmarshalMarshal(RecordOf(id, timestamp, goosePacket));
  }

  /** A timestamp text Atoi cannot read is stored as timestamp 0. */
  lemma UnreadableTimestampStoredAsZero(w: World, failing: map<PeerCall, string>, id: string, timestamp: string,
                                        goosePacket: string)
    requires LogEventSpec(w, failing, id, timestamp, goosePacket).1.None?
    requires Strconv.ParseInt(timestamp).None?
    ensures var w' := LogEventSpec(w, failing, id, timestamp, goosePacket).0;
      Unmarshal(w'.state[EventKey(id, timestamp).value]) == Some(EventMessage(0, id, goosePacket))
  {
    StoredRecordContents(w, failing, id, timestamp, goosePacket);
  }

  /**
   * The key takes the timestamp text, the record its value: "012" and "12"
   * are two keys whose records carry the same timestamp.
   */
  lemma TimestampTextAndValue(id: string, goosePacket: string)
    requires CompositeKey.ValidSegment(id)
    ensures EventKey(id, "012").Some? && EventKey(id, "12").Some?
    ensures EventKey(id, "012") != EventKey(id, "12")
    ensures RecordOf(id, "012", goosePacket) == RecordOf(id, "12", goosePacket)
  {
    assert CompositeKey.ValidSegment(IndexName);
    if EventKey(id, "012") == EventKey(id, "12") {
      CompositeKey.CreateCompositeKeyInjective(IndexName, [id, "012"], IndexName, [id, "12"]);
    }
    Strconv.LeadingZeroIgnored("12");
    assert "0" + "12" == "012";
  }

  /** After a successful LogEvent, QueryEvent of the same id and timestamp text returns the stored text. */
  lemma LogThenQuery(w: World, failing: map<PeerCall, string>, id: string, timestamp: string, goosePacket: string)
    requires LogEventSpec(w, failing, id, timestamp, goosePacket).1.None?
    requires GetStateCall !in failing
    ensures QueryEventSpec(LogEventSpec(w, failing, id, timestamp, goosePacket).0, failing, id, timestamp) ==
            Ok(Marshal(RecordOf(id, timestamp, goosePacket)))
  {
  }

  /** LogEvent leaves every other event alone: lookups of any other (id, timestamp) answer as before. */
  lemma LogEventLeavesOthers(w: World, failing: map<PeerCall, string>, id: string, timestamp: string,
                             goosePacket: string, id2: string, timestamp2: string)
    requires id2 != id || timestamp2 != timestamp
    ensures QueryEventSpec(LogEventSpec(w, failing, id, timestamp, goosePacket).0, failing, id2, timestamp2) ==
            QueryEventSpec(w, failing, id2, timestamp2)
  {
    var key, key2 := EventKey(id, timestamp), EventKey(id2, timestamp2);
    if key.Some? && key2.Some? && key == key2 {
      CompositeKey.CreateCompositeKeyInjective(IndexName, [id, timestamp], IndexName, [id2, timestamp2]);
    }
  }

  /**
   * A lookup of a key that holds nothing (never written, or only attempted
   * with a packet that is not hex) fails with the not-found error naming the id.
   */
  lemma MissingEventNotFound(w: World, failing: map<PeerCall, string>, id: string, timestamp: string)
    requires EventKey(id, timestamp).Some? && EventKey(id, timestamp).value !in w.state
    requires GetStateCall !in failing
    ensures QueryEventSpec(w, failing, id, timestamp) == Err(NotFound(id))
    ensures Message(QueryEventSpec(w, failing, id, timestamp).error) == id + " does not exist"
  {
  }

  /** A stored value holds a record the selector asks for. */
  predicate Selected(sel: Selector, value: string) {
    match Unmarshal(value)
    case Some(m) => Matches(sel, m)
    case None => false
  }

  /**
   * The rich-query engine answers the selector's text on this state without
   * error and with exactly the stored entries whose record the selector asks for.
   */
  ghost predicate AnswersFaithfully(engine: QueryEngine, state: map<string, string>, sel: Selector) {
    match engine(QueryText(sel), state)
    case Err(_) => false
    case Ok(items) =>
      && (forall i :: 0 <= i < |items| ==> items[i].Ok?)
      && (forall kv: KV :: Ok(kv) in items <==> kv.key in state && state[kv.key] == kv.value && Selected(sel, kv.value))
  }

  /**
   * With a faithful engine, a range lookup after a successful LogEvent lists
   * that event exactly when its timestamp (as Atoi read it) is within the
   * inclusive bounds; the device lookup also needs the device id to match.
   */
  lemma LoggedEventInRangeLookup(w: World, failing: map<PeerCall, string>, id: string, timestamp: string,
                                 goosePacket: string, engine: QueryEngine, start: string, end: string,
                                 device: Option<string>)
    requires LogEventSpec(w, failing, id, timestamp, goosePacket).1.None?
    requires var sel := Selector(RangeOf(start, end), device);
             AnswersFaithfully(engine, LogEventSpec(w, failing, id, timestamp, goosePacket).0.state, sel)
    ensures var w' := LogEventSpec(w, failing, id, timestamp, goosePacket).0;
            var sel := Selector(RangeOf(start, end), device);
            var entry := KV(EventKey(id, timestamp).value, Marshal(RecordOf(id, timestamp, goosePacket)));
            Ok(entry) in engine(QueryText(sel), w'.state).value <==>
              InRange(start, end, Strconv.Atoi(timestamp)) && (device.Some? ==> device.value == id)
  {
    var record := RecordOf(id, timestamp, goosePacket);
    var w' := LogEventSpec(w, failing, id, timestamp, goosePacket).0;
    var key := EventKey(id, timestamp).value;
    var sel := Selector(RangeOf(start, end), device);
    LogEventOutcome(w, failing, id, timestamp, goosePacket);
    assert key in w'.state && w'.state[key] == Marshal(record);
    UnmarshalMarshal(record);
    assert Selected(sel, Marshal(record)) == Matches(sel, record);
    AllSelectorMatches(start, end, record);
    assert Matches(sel, record) <==> InRange(start, end, record.timestamp) && (device.Some? ==> device.value == id);
  }

  /**
   * With a faithful engine a range lookup answers `[`, the entries' members
   * joined by commas in the engine's order, `]`.
   */
  lemma FaithfulRangeResponse(w: World, engine: QueryEngine, sel: Selector)
    requires AnswersFaithfully(engine, w.state, sel)
    ensures var items := engine(QueryText(sel), w.state).value;
            RangeQuerySpec(w, engine, sel) ==
              Ok("[" + ResultSet.Join(seq(|items|, i requires 0 <= i < |items| => ResultSet.Member(items[i].value))) + "]")
  {
    var items := engine(QueryText(sel), w.state).value;
    ResultSet.MembersContents(items);
    var ms := ResultSet.Members(items).value;
    assert ms == seq(|items|, i requires 0 <= i < |items| => ResultSet.Member(items[i].value));
  }

  // ---- dispatch of a transaction by function name ----

  /** A transaction function of the contract with its arguments. */
  datatype Invocation =
    | InitLedgerCall
    | LogEventCall(id: string, timestamp: string, goosePacket: string)
    | QueryEventCall(id: string, timestamp: string)
    | QueryAllCall(start: string, end: string)
    | QueryDeviceCall(start: string, end: string, deviceId: string)

  /** The exported name of the transaction function. */
  function FcnOf(inv: Invocation): string {
    match inv
    case InitLedgerCall => "InitLedger"
    case LogEventCall(_, _, _) => "LogEvent"
    case QueryEventCall(_, _) => "QueryEvent"
    case QueryAllCall(_, _) => "QueryAllByDateRange"
    case QueryDeviceCall(_, _, _) => "QueryDeviceByDateRange"
  }

  /** The string arguments after the context, in declaration order. */
  function ArgsOf(inv: Invocation): seq<string> {
    match inv
    case InitLedgerCall => []
    case LogEventCall(id, timestamp, goosePacket) => [id, timestamp, goosePacket]
    case QueryEventCall(id, timestamp) => [id, timestamp]
    case QueryAllCall(start, end) => [start, end]
    case QueryDeviceCall(start, end, deviceId) => [start, end, deviceId]
  }

  /**
   * The transaction function a request names, taking its arguments in
   * declaration order; None for an unknown name or a wrong argument count.
   */
  function Route(fcn: string, args: seq<string>): (r: Option<Invocation>)
    ensures r.Some? ==> FcnOf(r.value) == fcn && ArgsOf(r.value) == args
  {
    if fcn == "InitLedger" && |args| == 0 then Some(InitLedgerCall)
    else if fcn == "LogEvent" && |args| == 3 then Some(LogEventCall(args[0], args[1], args[2]))
    else if fcn == "QueryEvent" && |args| == 2 then Some(QueryEventCall(args[0], args[1]))
    else if fcn == "QueryAllByDateRange" && |args| == 2 then Some(QueryAllCall(args[0], args[1]))
    else if fcn == "QueryDeviceByDateRange" && |args| == 3 then Some(QueryDeviceCall(args[0], args[1], args[2]))
    else None
  }

  /** Naming a transaction function with its own arguments reaches exactly that call. */
  lemma RouteOfCall(inv: Invocation)
    ensures Route(FcnOf(inv), ArgsOf(inv)) == Some(inv)
  {
  }

  /** Route is exact: every request it accepts is the name and arguments of the call it yields. */
  lemma RouteExact(fcn: string, args: seq<string>, inv: Invocation)
    ensures Route(fcn, args) == Some(inv) <==> fcn == FcnOf(inv) && args == ArgsOf(inv)
  {
    if fcn == FcnOf(inv) && args == ArgsOf(inv) {
      RouteOfCall(inv);
    }
  }

  /** One transaction on the ledger value: the new ledger and the payload or the error. */
  function Invoke(w: World, failing: map<PeerCall, string>, engine: QueryEngine, inv: Invocation)
    : (World, Result<string, Error>)
  {
    match inv
    case InitLedgerCall => (w, Ok(""))
    case LogEventCall(id, timestamp, goosePacket) =>
      var (w', err) := LogEventSpec(w, failing, id, timestamp, goosePacket);
      (w', if err.Some? then Err(err.value) else Ok(""))
    case QueryEventCall(id, timestamp) => (w, QueryEventSpec(w, failing, id, timestamp))
    case QueryAllCall(start, end) => (w, RangeQuerySpec(w, engine, AllSelector(start, end)))
    case QueryDeviceCall(start, end, deviceId) => (w, RangeQuerySpec(w, engine, DeviceSelector(start, end, deviceId)))
  }

  /** Only LogEvent changes the ledger, and only when it succeeds. */
  lemma OnlyLoggingWrites(w: World, failing: map<PeerCall, string>, engine: QueryEngine, inv: Invocation)
    ensures Invoke(w, failing, engine, inv).0 != w ==> inv.LogEventCall? && Invoke(w, failing, engine, inv).1.Ok?
    ensures Invoke(w, failing, engine, inv).1.Err? ==> Invoke(w, failing, engine, inv).0 == w
  {
    if inv.LogEventCall? {
      LogEventOutcome(w, failing, inv.id, inv.timestamp, inv.goosePacket);
    }
  }

  /**
   * A range response splices each key into its member unescaped, and every
   * key LogEvent writes starts with the composite-key namespace U+0000: the
   * response carries a raw control character inside a JSON string.
   */
  lemma ResponseKeyStartsWithRawNul(id: string, timestamp: string, value: string)
    requires EventKey(id, timestamp).Some?
    ensures var member := ResultSet.Member(KV(EventKey(id, timestamp).value, value));
      |member| > 8 && member[8] == '\0'
  {
    var key := EventKey(id, timestamp).value;
    assert key[0] == CompositeKey.MinUnicodeRune;
    ResultSet.MemberLayout(KV(key, value));
    assert ResultSet.Member(KV(key, value))[8..8 + |key|] == key;
  }
}
