/**
 * The client library: a context naming the installed contract, the argument
 * builders, and the four calls that send a request to the channel, LogEvent
 * through the ordering path and the lookups through the query path. The
 * channel is a transport function; `Serve` is a reference peer that runs the
 * contract model on a ledger value, so the client calls can be followed end
 * to end.
 */
module Hflib {
  import opened Wrappers
  import opened Ledger
  import Chaincode
  import EventRecord
  import Hex
  import QueryTranslator

  /** The chaincode id the requests carry; the SDK handles are not modelled. */
  datatype Context = Context(chaincodeId: string)

  /** Request arguments, one text per argument. */
  type Args = seq<string>

  function ThreeArgs(first: string, second: string, third: string): (a: Args)
    ensures |a| == 3 && a[0] == first && a[1] == second && a[2] == third
  {
    [first, second, third]
  }

  function NewQueryEventArgs(id: string, timestamp: string): (a: Args)
    ensures |a| == 2 && a[0] == id && a[1] == timestamp
  {
    [id, timestamp]
  }

  function NewLogEventArgs(id: string, timestamp: string, data: string): (a: Args)
    ensures |a| == 3 && a[0] == id && a[1] == timestamp && a[2] == data
  {
    [id, timestamp, data]
  }

  datatype Request = Request(chaincodeId: string, fcn: string, args: Args)

  /** Execute is endorsed and committed; Query is only evaluated. */
  datatype Path = Execute | Query

  datatype Proposal = Proposal(path: Path, request: Request)

  datatype Response = Response(payload: string)

  /** The channel client: answers a proposal with the peer's payload or an error text. */
  type Transport = Proposal -> Result<Response, string>

  /** The text and error a lookup returns; the text is empty when there is an error. */
  datatype Reply = Reply(text: string, err: Option<string>)

  function LogEventProposal(c: Context, id: string, timestamp: string, goosePacket: string): Proposal {
    Proposal(Execute, Request(c.chaincodeId, "LogEvent", NewLogEventArgs(id, timestamp, goosePacket)))
  }

  function QueryEventProposal(c: Context, id: string, timestamp: string): Proposal {
    Proposal(Query, Request(c.chaincodeId, "QueryEvent", NewQueryEventArgs(id, timestamp)))
  }

  function QueryAllProposal(c: Context, start: string, end: string): Proposal {
    Proposal(Query, Request(c.chaincodeId, "QueryAllByDateRange", NewQueryEventArgs(start, end)))
  }

  function QueryDeviceProposal(c: Context, start: string, end: string, deviceId: string): Proposal {
    Proposal(Query, Request(c.chaincodeId, "QueryDeviceByDateRange", ThreeArgs(start, end, deviceId)))
  }

  /** The payload as a reply, or the empty text with the error. */
  function AsReply(r: Result<Response, string>): (reply: Reply)
    ensures r.Ok? <==> reply.err.None?
    ensures r.Ok? ==> reply.text == r.value.payload
    ensures r.Err? ==> reply == Reply("", Some(r.error))
  {
    match r
    case Ok(resp) => Reply(resp.payload, None)
    case Err(e) => Reply("", Some(e))
  }

  /** Context.LogEvent: execute the LogEvent transaction; the payload is dropped. */
  function LogEvent(c: Context, send: Transport, id: string, timestamp: string, goosePacket: string): (err: Option<string>)
    ensures err.None? <==> send(LogEventProposal(c, id, timestamp, goosePacket)).Ok?
    ensures err.Some? ==> err.value == send(LogEventProposal(c, id, timestamp, goosePacket)).error
  {
    match send(LogEventProposal(c, id, timestamp, goosePacket))
    case Ok(_) => None
    case Err(e) => Some(e)
  }

  function QueryEvent(c: Context, send: Transport, id: string, timestamp: string): Reply {
    AsReply(send(QueryEventProposal(c, id, timestamp)))
  }

  function QueryAllByDateRange(c: Context, send: Transport, start: string, end: string): Reply {
    AsReply(send(QueryAllProposal(c, start, end)))
  }

  function QueryDeviceByDateRange(c: Context, send: Transport, start: string, end: string, deviceId: string): Reply {
    AsReply(send(QueryDeviceProposal(c, start, end, deviceId)))
  }

  /**
   * Each client call sends one proposal that names the context's chaincode,
   * takes the ordering path only for LogEvent, and reaches the contract's
   * transaction function of the same name with the arguments in the
   * contract's declaration order.
   */
  lemma ProposalsReachTheirTransactions(c: Context, a: string, b: string, d: string)
    ensures var p := LogEventProposal(c, a, b, d);
      p.path == Execute && p.request.chaincodeId == c.chaincodeId &&
      Chaincode.Route(p.request.fcn, p.request.args) == Some(Chaincode.LogEventCall(a, b, d))
    ensures var p := QueryEventProposal(c, a, b);
      p.path == Query && p.request.chaincodeId == c.chaincodeId &&
      Chaincode.Route(p.request.fcn, p.request.args) == Some(Chaincode.QueryEventCall(a, b))
    ensures var p := QueryAllProposal(c, a, b);
      p.path == Query && p.request.chaincodeId == c.chaincodeId &&
      Chaincode.Route(p.request.fcn, p.request.args) == Some(Chaincode.QueryAllCall(a, b))
    ensures var p := QueryDeviceProposal(c, a, b, d);
      p.path == Query && p.request.chaincodeId == c.chaincodeId &&
      Chaincode.Route(p.request.fcn, p.request.args) == Some(Chaincode.QueryDeviceCall(a, b, d))
  {
    Chaincode.RouteOfCall(Chaincode.LogEventCall(a, b, d));
    Chaincode.RouteOfCall(Chaincode.QueryEventCall(a, b));
    Chaincode.RouteOfCall(Chaincode.QueryAllCall(a, b));
    Chaincode.RouteOfCall(Chaincode.QueryDeviceCall(a, b, d));
  }

  /**
   * Over any transport, each lookup returns the payload of its proposal's
   * answer with no error, or the empty text with the transport's error
   * unchanged.
   */
  lemma LookupsPassAnswersThrough(c: Context, send: Transport, a: string, b: string, d: string)
    ensures var r := send(QueryEventProposal(c, a, b));
      QueryEvent(c, send, a, b) == if r.Ok? then Reply(r.value.payload, None) else Reply("", Some(r.error))
    ensures var r := send(QueryAllProposal(c, a, b));
      QueryAllByDateRange(c, send, a, b) == if r.Ok? then Reply(r.value.payload, None) else Reply("", Some(r.error))
    ensures var r := send(QueryDeviceProposal(c, a, b, d));
      QueryDeviceByDateRange(c, send, a, b, d) == if r.Ok? then Reply(r.value.payload, None) else Reply("", Some(r.error))
  {
  }

  // ---- a reference peer ----

  /** The installed contract and the peer's behaviour. */
  datatype Peer = Peer(chaincodeId: string, failing: map<PeerCall, string>, engine: QueryEngine)

  const UnknownChaincode: string := "chaincode not found"
  const UnknownFunction: string := "function not found or wrong number of arguments"

  /**
   * A peer answering a proposal: a request for another chaincode or for an
   * unknown function is refused; otherwise the transaction runs on the
   * ledger, its error answered with the contract's error text, and its new
   * ledger kept only on the Execute path.
   */
  function Serve(w: World, peer: Peer, p: Proposal): (World, Result<Response, string>) {
    if p.request.chaincodeId != peer.chaincodeId then (w, Err(UnknownChaincode))
    else match Chaincode.Route(p.request.fcn, p.request.args)
      case None => (w, Err(UnknownFunction))
      case Some(inv) =>
        var (w', r) := Chaincode.Invoke(w, peer.failing, peer.engine, inv);
        match r
        case Err(e) => (w, Err(Chaincode.Message(e)))
        case Ok(payload) => (if p.path == Execute then w' else w, Ok(Response(payload)))
  }

  /**
   * A proposal for the installed chaincode that names a transaction gets that
   * transaction's payload or error text; the ledger takes the transaction's
   * new state only on the Execute path and only on success.
   */
  lemma ServeRouted(w: World, peer: Peer, p: Proposal, inv: Chaincode.Invocation)
    requires p.request.chaincodeId == peer.chaincodeId
    requires Chaincode.Route(p.request.fcn, p.request.args) == Some(inv)
    ensures var (w', r) := Chaincode.Invoke(w, peer.failing, peer.engine, inv);
      Serve(w, peer, p) ==
        if r.Ok? then (if p.path == Execute then w' else w, Ok(Response(r.value)))
        else (w, Err(Chaincode.Message(r.error)))
  {
  }

  /** A proposal on the query path never changes the ledger, whatever it names. */
  lemma QueriesDoNotCommit(w: World, peer: Peer, p: Proposal)
    requires p.path == Query
    ensures Serve(w, peer, p).0 == w
  {
  }

  /**
   * End to end: a LogEvent through the client commits the record, and a
   * QueryEvent through the client on the committed ledger returns the
   * serialised record, which reads back as the timestamp Atoi made of the
   * timestamp text, the id and the packet text.
   */
  lemma ClientLogThenQuery(w: World, peer: Peer, c: Context, id: string, timestamp: string, goosePacket: string)
    requires c.chaincodeId == peer.chaincodeId
    requires Chaincode.LogEventSpec(w, peer.failing, id, timestamp, goosePacket).1.None?
    requires GetStateCall !in peer.failing
    ensures LogEvent(c, q => Serve(w, peer, q).1, id, timestamp, goosePacket) == None
    ensures var w1 := Serve(w, peer, LogEventProposal(c, id, timestamp, goosePacket)).0;
      var reply := QueryEvent(c, q => Serve(w1, peer, q).1, id, timestamp);
      && reply.err == None
      && EventRecord.Unmarshal(reply.text) ==
           Some(EventRecord.EventMessage(Chaincode.RecordOf(id, timestamp, goosePacket).timestamp, id, goosePacket))
  {
    ProposalsReachTheirTransactions(c, id, timestamp, goosePacket);
    ServeRouted(w, peer, LogEventProposal(c, id, timestamp, goosePacket), Chaincode.LogEventCall(id, timestamp, goosePacket));
    var w1 := Serve(w, peer, LogEventProposal(c, id, timestamp, goosePacket)).0;
    ServeRouted(w1, peer, QueryEventProposal(c, id, timestamp), Chaincode.QueryEventCall(id, timestamp));
    assert w1 == Chaincode.LogEventSpec(w, peer.failing, id, timestamp, goosePacket).0;
    Chaincode.LogThenQuery(w, peer.failing, id, timestamp, goosePacket);
    EventRecord.UnmarshalMarshal(Chaincode.RecordOf(id, timestamp, goosePacket));
  }

  /** A packet that is not hex: the client gets the decoding error's text and the ledger is unchanged. */
  lemma ClientBadPacket(w: World, peer: Peer, c: Context, id: string, timestamp: string, goosePacket: string)
    requires c.chaincodeId == peer.chaincodeId
    requires Hex.DecodeString(goosePacket).None?
    ensures LogEvent(c, q => Serve(w, peer, q).1, id, timestamp, goosePacket) ==
            Some("Error decoding the GOOSE packet (expected valid hex string)")
    ensures Serve(w, peer, LogEventProposal(c, id, timestamp, goosePacket)).0 == w
  {
    ProposalsReachTheirTransactions(c, id, timestamp, goosePacket);
    ServeRouted(w, peer, LogEventProposal(c, id, timestamp, goosePacket), Chaincode.LogEventCall(id, timestamp, goosePacket));
    assert Chaincode.Invoke(w, peer.failing, peer.engine, Chaincode.LogEventCall(id, timestamp, goosePacket)) ==
           (w, Err(Chaincode.DecodeError));
  }

  /** A request for a chaincode other than the installed one is refused and changes nothing. */
  lemma WrongChaincodeRefused(w: World, peer: Peer, p: Proposal)
    requires p.request.chaincodeId != peer.chaincodeId
    ensures Serve(w, peer, p) == (w, Err(UnknownChaincode))
  {
  }

  /**
   * The range lookups through the client answer what the contract's range
   * query answers on the ledger: its response text, or the empty text with
   * the error's text.
   */
  lemma ClientQueryAll(w: World, peer: Peer, c: Context, start: string, end: string)
    requires c.chaincodeId == peer.chaincodeId
    ensures var all := Chaincode.RangeQuerySpec(w, peer.engine, QueryTranslator.AllSelector(start, end));
      QueryAllByDateRange(c, q => Serve(w, peer, q).1, start, end) ==
        (if all.Ok? then Reply(all.value, None) else Reply("", Some(Chaincode.Message(all.error))))
  {
    ProposalsReachTheirTransactions(c, start, end, "");
    ServeRouted(w, peer, QueryAllProposal(c, start, end), Chaincode.QueryAllCall(start, end));
    var all := Chaincode.RangeQuerySpec(w, peer.engine, QueryTranslator.AllSelector(start, end));
    assert Chaincode.Invoke(w, peer.failing, peer.engine, Chaincode.QueryAllCall(start, end)) == (w, all);
    var answer := Serve(w, peer, QueryAllProposal(c, start, end)).1;
    assert answer == if all.Ok? then Ok(Response(all.value)) else Err(Chaincode.Message(all.error));
    assert QueryAllByDateRange(c, q => Serve(w, peer, q).1, start, end) == AsReply(answer);
  }

  lemma ClientQueryDevice(w: World, peer: Peer, c: Context, start: string, end: string, deviceId: string)
    requires c.chaincodeId == peer.chaincodeId
    ensures var dev := Chaincode.RangeQuerySpec(w, peer.engine, QueryTranslator.DeviceSelector(start, end, deviceId));
      QueryDeviceByDateRange(c, q => Serve(w, peer, q).1, start, end, deviceId) ==
        (if dev.Ok? then Reply(dev.value, None) else Reply("", Some(Chaincode.Message(dev.error))))
  {
    ProposalsReachTheirTransactions(c, start, end, deviceId);
    ServeRouted(w, peer, QueryDeviceProposal(c, start, end, deviceId), Chaincode.QueryDeviceCall(start, end, deviceId));
    var dev := Chaincode.RangeQuerySpec(w, peer.engine, QueryTranslator.DeviceSelector(start, end, deviceId));
    assert Chaincode.Invoke(w, peer.failing, peer.engine, Chaincode.QueryDeviceCall(start, end, deviceId)) == (w, dev);
    var answer := Serve(w, peer, QueryDeviceProposal(c, start, end, deviceId)).1;
    assert answer == if dev.Ok? then Ok(Response(dev.value)) else Err(Chaincode.Message(dev.error));
    assert QueryDeviceByDateRange(c, q => Serve(w, peer, q).1, start, end, deviceId) == AsReply(answer);
  }
}
