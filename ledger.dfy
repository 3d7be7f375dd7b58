/**
 * The chaincode's view of the ledger through its stub: key/value world state,
 * the emitted chaincode events, rich queries answered by an iterator. What the
 * peer does behind these calls is outside the model: a peer-side failure of
 * GetState or PutState is given by `failing` (with the peer's message), and
 * the rich-query evaluation (CouchDB) by `engine`.
 */
module Ledger {
  import opened Wrappers
  import Hex

  /** A chaincode event: its name and payload bytes. */
  datatype Event = Event(name: string, payload: seq<Hex.byte>)

  /** A query result entry: ledger key and stored value. */
  datatype KV = KV(key: string, value: string)

  /** What one iterator step yields: an entry, or the error Next reports. */
  type Item = Result<KV, string>

  /** The world state and the events emitted so far, as a value. */
  datatype World = World(state: map<string, string>, events: seq<Event>)

  /** Stub calls whose failure is decided by the peer. */
  datatype PeerCall = GetStateCall | PutStateCall

  /** A rich-query evaluator: the entries a query text yields on a state, or its error. */
  type QueryEngine = (string, map<string, string>) -> Result<seq<Item>, string>

  class Stub {
    var state: map<string, string>
    var events: seq<Event>
    /** Result iterators handed out and not yet closed. */
    var openIterators: int
    const failing: map<PeerCall, string>
    const engine: QueryEngine

    constructor (w: World, failing: map<PeerCall, string>, engine: QueryEngine)
      ensures Snapshot() == w && openIterators == 0
      ensures this.failing == failing && this.engine == engine
    {
      state, events, openIterators := w.state, w.events, 0;
      this.failing, this.engine := failing, engine;
    }

    function Snapshot(): World
      reads this
    {
      World(state, events)
    }

    /** GetState: the stored value, None for a missing key, or the peer's error. */
    method GetState(key: string) returns (r: Result<Option<string>, string>)
      ensures GetStateCall in failing ==> r == Err(failing[GetStateCall])
      ensures GetStateCall !in failing ==> r == Ok(if key in state then Some(state[key]) else None)
    {
      if GetStateCall in failing {
        r := Err(failing[GetStateCall]);
      } else {
        r := Ok(if key in state then Some(state[key]) else None);
      }
    }

    /** PutState: refuses an empty key, otherwise writes unless the peer fails the call. */
    method PutState(key: string, value: string) returns (err: Option<string>)
      modifies this`state
      ensures key == "" ==> err == Some("key must not be an empty string")
      ensures key != "" && PutStateCall in failing ==> err == Some(failing[PutStateCall])
      ensures state == if err.None? then old(state)[key := value] else old(state)
      ensures err.None? <==> key != "" && PutStateCall !in failing
    {
      if key == "" {
        err := Some("key must not be an empty string");
      } else if PutStateCall in failing {
        err := Some(failing[PutStateCall]);
      } else {
        state := state[key := value];
        err := None;
      }
    }

    /** SetEvent: refuses an empty event name, otherwise records the event. */
    method SetEvent(name: string, payload: seq<Hex.byte>) returns (err: Option<string>)
      modifies this`events
      ensures err.None? <==> name != ""
      ensures err.Some? ==> err.value == "event name can not be empty string"
      ensures events == if err.None? then old(events) + [Event(name, payload)] else old(events)
    {
      if name == "" {
        err := Some("event name can not be empty string");
      } else {
        events := events + [Event(name, payload)];
        err := None;
      }
    }

    /** GetQueryResult: an open iterator over what the engine yields, or the engine's error. */
    method GetQueryResult(query: string) returns (r: Result<ResultsIterator, string>)
      modifies this`openIterators
      ensures engine(query, state).Err? ==>
        r == Err(engine(query, state).error) && openIterators == old(openIterators)
      ensures engine(query, state).Ok? ==>
        && r.Ok? && fresh(r.value)
        && r.value.stub == this && r.value.items == engine(query, state).value
        && r.value.pos == 0 && !r.value.closed
        && openIterators == old(openIterators) + 1
    {
      match engine(query, state)
      case Err(e) =>
        r := Err(e);
      case Ok(items) =>
        var it := new ResultsIterator(this, items);
        openIterators := openIterators + 1;
        r := Ok(it);
    }
  }

  /** StateQueryIteratorInterface: a cursor over the entries of one rich query. */
  class ResultsIterator {
    const stub: Stub
    const items: seq<Item>
    var pos: nat
    var closed: bool

    ghost predicate Valid()
      reads this
    {
      pos <= |items|
    }

    constructor (stub: Stub, items: seq<Item>)
      ensures Valid() && this.stub == stub && this.items == items && pos == 0 && !closed
    {
      this.stub, this.items, pos, closed := stub, items, 0, false;
    }

    method HasNext() returns (more: bool)
      requires Valid()
      ensures more <==> pos < |items|
    {
      more := pos < |items|;
    }

    /** Next: the following entry; the iterator protocol calls it only after HasNext. */
    method Next() returns (item: Item)
      requires Valid() && pos < |items|
      modifies this`pos
      ensures Valid() && pos == old(pos) + 1 && item == items[old(pos)]
    {
      item := items[pos];
      pos := pos + 1;
    }

    /** Close: releases the cursor; closing twice releases it once. */
    method Close()
      modifies this`closed, stub`openIterators
      ensures closed
      ensures stub.openIterators == if old(closed) then old(stub.openIterators) else old(stub.openIterators) - 1
    {
      if !closed {
        stub.openIterators := stub.openIterators - 1;
        closed := true;
      }
    }
  }
}
