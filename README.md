# DltAudit event store, modelled in Dafny

The DltAudit chaincode keeps an audit log of GOOSE events on a Hyperledger
Fabric ledger. An event is stored as a JSON record
`{"timestamp":…,"id":…,"message":…}` under the composite key
`id~timestamp` built from the device id and the timestamp text. The
contract answers:

- point lookups by (id, timestamp);
- range lookups by timestamp, optionally for one device. These send a
  CouchDB rich-query selector to the peer and join the matching entries
  into one JSON array.

The hflib client wraps each transaction into a channel request. LogEvent
goes through the ordering (Execute) path. The lookups go through the
query path.

The model has these modules:

- `Wrappers`: `Option` and `Result`.
- `Strconv`: decimal parsing as `strconv.Atoi` does it (optional sign, then
  digits; 0 when the text cannot be read) and decimal printing.
- `Hex`: `hex.DecodeString` and lower-case encoding, with both round trips.
- `CompositeKey`: the shim's composite-key format. It starts with a NUL
  namespace byte, and every segment is followed by NUL. Segments that
  contain U+0000 or U+10FFFF are refused. The model proves the format
  injective.
- `EventRecord`: the `EventMessage` record, its JSON serialisation with
  the string escaping of Go 1.21's encoding/json, and a reader that inverts it.
- `QueryTranslator`: the selector texts the range lookups send, and what
  each selector asks for.
- `Ledger`: the part of the peer stub the contract uses, as classes:
  - `Stub`, with the world state, the event log and the count of open
    iterators;
  - `ResultsIterator`.

  A peer fault is a map from a stub call to its error. The rich-query
  evaluator is a function parameter.
- `ResultSet`: `constructQueryResponseFromIterator`, as a loop over the
  iterator, proved equal to a function of the entries it yields.
- `Chaincode`: the transaction functions. Each one is a method over the
  stub, proved equal to a function on the ledger value. The properties are
  lemmas about those functions. The module also has the dispatch of a
  function name and its arguments to a transaction.
- `Hflib`: the client context, the argument builders and the four client
  calls over a transport function. It also has a reference peer, `Serve`,
  that runs the contract on a ledger value, so that client calls can be
  followed end to end.

Where the comments in the source and its code disagree, the model follows
the code:

- A range lookup with both bounds empty is said to "return all elements".
  It actually selects `timestamp >= 0`, so records with a negative
  timestamp are never listed (`QueryTranslator.UnboundedSkipsNegativeTimestamps`).
- A bound that is not a number is not rejected. Atoi turns it into 0
  (`QueryTranslator.UnreadableBoundIsZero`). A timestamp that is not a
  number is stored as 0 (`Chaincode.UnreadableTimestampStoredAsZero`).
- A range response is meant to be one JSON array, but each key is spliced
  into its member unescaped, and every key starts with the composite-key
  namespace U+0000. So the response holds a raw control character inside a
  JSON string, which strict JSON forbids
  (`Chaincode.ResponseKeyStartsWithRawNul`). The model keeps the text as
  the code builds it.
- The record's timestamp is the number, but the key holds the text. So
  "012" and "12" are two keys whose records are equal
  (`Chaincode.TimestampTextAndValue`).

## Model

| member | source | states |
|---|---|---|
| Strconv.ParseInt | chaincode/chaincode.go:75 | a text reads as a number exactly when it is an optional sign followed by at least one decimal digit |
| Strconv.Itoa | chaincode/chaincode.go:76-77 | the decimal text of a number is non-empty and holds only digits and a minus sign |
| Strconv.Atoi | chaincode/chaincode.go:75 | `n, _ := strconv.Atoi(s)`: a well-formed text gives its value, any other text 0 |
| Strconv.ParseItoa | chaincode/chaincode.go:75-77 | reading the decimal text of any integer gives that integer back (both ParseInt and Atoi) |
| Strconv.ItoaInjective | chaincode/chaincode.go:76-77 | different integers have different decimal texts |
| Strconv.LeadingZeroIgnored | chaincode/chaincode.go:75 | a leading zero does not change the number a digit text reads as |
| Strconv.DecimalValueOfDigits | chaincode/chaincode.go:75-77 | the digits printed for n read back as n |
| Strconv.DecimalValueLeadingZero | chaincode/chaincode.go:75 | the value of "0" followed by digits is the value of the digits |
| Hex.DecodeString | chaincode/chaincode.go:71-74 | decoding succeeds exactly when the text has even length and only hex digits; the result has half the length, and byte i is the value of characters 2i and 2i+1 |
| Hex.EncodeToString | chaincode/chaincode.go:71 | the lower-case inverse of the decoding, which the program itself never calls; it is here for the two round trips (DecodeEncode, EncodeDecode); the encoding of n bytes has 2n characters |
| Hex.DecodeEncode | chaincode/chaincode.go:71 | decoding the encoding of any bytes gives them back |
| Hex.EncodeDecode | chaincode/chaincode.go:71 | encoding what a hex text decodes to gives that text in lower case |
| Hex.HexChar | chaincode/chaincode.go:71 | the digit written for a value below 16 is a lower-case hex digit that reads back as that value |
| CompositeKey.JoinSegments | chaincode/chaincode.go:82 | the attributes join exactly when none contains U+0000 or U+10FFFF; no attributes give the empty text |
| CompositeKey.CreateCompositeKey | chaincode/chaincode.go:82-85 | a key is made exactly when the object type and every attribute are valid segments |
| CompositeKey.SeparatorIndexAfterSegment | chaincode/chaincode.go:82 | in a valid segment followed by a separator, the first separator is the one right after the segment |
| CompositeKey.SplitAtSeparator | chaincode/chaincode.go:82 | two texts, each a valid segment followed by a separator, are equal only when their segments and their tails are equal |
| CompositeKey.JoinSegmentsInjective | chaincode/chaincode.go:82 | two lists of valid segments join to the same text only when they are equal |
| CompositeKey.CreateCompositeKeyInjective | chaincode/chaincode.go:82 | equal keys come from equal object types and equal attribute lists |
| EventRecord.Hex4 | chaincode/chaincode.go:77 | the four-digit escape of a code below 0x10000 consists of hex digits |
| EventRecord.EscapeCharSafe | chaincode/chaincode.go:77 | a character inside a JSON string is written as itself or as a backslash escape; the output holds no control character, no `<`, `>`, `&`, U+2028 or U+2029, and a quote only right after a backslash |
| EventRecord.Marshal | chaincode/chaincode.go:76-77 | json.Marshal of the record, fields in declaration order under their tags (no contract of its own; its inverse is Unmarshal, proved by UnmarshalMarshal and MarshalInjective) |
| EventRecord.ReadHex4Of | chaincode/chaincode.go:77 | a four-digit escape reads back as its code |
| EventRecord.ReadEscapeChar | chaincode/chaincode.go:77 | reading an escaped character then the rest gives the character in front of what the rest reads as |
| EventRecord.ReadEscapeText | chaincode/chaincode.go:77 | an escaped text followed by a closing quote reads back as that text, and the reader stops at that quote |
| EventRecord.CommaIndexAfterNumber | chaincode/chaincode.go:77 | the first comma after a number is the one that follows it |
| EventRecord.ReadTaggedOf | chaincode/chaincode.go:77 | a tag followed by a quoted text reads back as that text and what follows it |
| EventRecord.UnmarshalFieldsOf | chaincode/chaincode.go:22-26 | the fields after the timestamp tag read back as the record |
| EventRecord.UnmarshalMarshal | chaincode/chaincode.go:22-26 | the JSON text of any record reads back as that record |
| EventRecord.MarshalInjective | chaincode/chaincode.go:76-77 | different records serialise to different texts |
| QueryTranslator.AllSelector | chaincode/chaincode.go:121-137 | the selector QueryAllByDateRange sends for its two bound texts (no contract of its own); AllSelectorMatches states which records it asks for and AllQueryTexts the text sent for it |
| QueryTranslator.AllSelectorMatches | chaincode/chaincode.go:121-137 | the date-range selector asks for a record exactly when its timestamp is within the bounds that Atoi reads; an empty bound is open, except that both empty means timestamp >= 0 |
| QueryTranslator.RangeOf | chaincode/chaincode.go:123-137 | the four-way split on which bound text is empty, each present bound being the value Atoi reads |
| QueryTranslator.QueryText | chaincode/chaincode.go:126-180 | the CouchDB selector text (no contract of its own; AllQueryTexts and DeviceQueryTexts state each of the eight texts) |
| QueryTranslator.Matches | chaincode/chaincode.go:126-180 | the records a selector asks for (no contract of its own); AllSelectorMatches and DeviceSelectorMatches relate it to the bound-by-bound reading InRange |
| QueryTranslator.DeviceSelector | chaincode/chaincode.go:163-180 | the selector QueryDeviceByDateRange sends for its bound texts and device id (no contract of its own); DeviceSelectorMatches states which records it asks for and DeviceQueryTexts the text sent for it |
| QueryTranslator.DeviceSelectorMatches | chaincode/chaincode.go:163-180 | the device selector asks for a record exactly when the date condition holds and the record's id is the device id |
| QueryTranslator.UnreadableBoundIsZero | chaincode/chaincode.go:123-124 | two non-empty bounds that are not numbers both become 0, so only timestamp 0 is selected |
| QueryTranslator.UnboundedSkipsNegativeTimestamps | chaincode/chaincode.go:125-127 | with both bounds empty, a record with a negative timestamp is not selected |
| QueryTranslator.AllQueryTexts | chaincode/chaincode.go:126-137 | the selector text sent for each of the four bound cases, with the bounds printed as Atoi read them |
| QueryTranslator.DeviceQueryTexts | chaincode/chaincode.go:169-180 | the selector text with the device id for each of the four bound cases |
| QueryTranslator.ExampleLookups | chaincode/chaincode.go:121-180 | on sample records: which range and device lookups select which records |
| Ledger.Stub.GetState | chaincode/chaincode.go:103-111 | a read answers the peer's error when the read fails; otherwise it answers the stored value, or nothing when no value is stored |
| Ledger.Stub.PutState | chaincode/chaincode.go:87-90 | a write of a non-empty key succeeds unless the peer fails it; it updates that key only, and only on success |
| Ledger.Stub.SetEvent | chaincode/chaincode.go:92 | emitting an event fails only for an empty name; on success the event is appended to the log |
| Ledger.Stub.GetQueryResult | chaincode/chaincode.go:141-146 | a rich query either answers the evaluator's error, or opens a new iterator over the evaluator's entries and counts it as open |
| Ledger.ResultsIterator.HasNext | chaincode/chaincode.go:39 | there is a next entry exactly when entries are left |
| Ledger.ResultsIterator.Next | chaincode/chaincode.go:40 | yields the next entry and advances by one |
| Ledger.ResultsIterator.Close | chaincode/chaincode.go:146 | closing releases the iterator once; closing it again changes nothing |
| ResultSet.MembersContents | chaincode/chaincode.go:39-58 | the members build exactly when every entry is readable; there is one member per entry, in order; otherwise the error is that of an entry with only readable entries before it |
| ResultSet.MemberLayout | chaincode/chaincode.go:48-56 | one array member is `{"Key":"`, the key as it is, `", "Record":`, the stored value as it is, `}` |
| ResultSet.Response | chaincode/chaincode.go:31-62 | a successful response is bracketed by `[` and `]`; MembersContents and ResponseAppend give its members |
| ResultSet.MembersSnoc | chaincode/chaincode.go:39-58 | one more entry adds its member, or ends with its error |
| ResultSet.FirstErrorWins | chaincode/chaincode.go:40-43 | the first unreadable entry's error is returned, whatever comes after it |
| ResultSet.EmptyResponse | chaincode/chaincode.go:34-59 | no entries give `[]` |
| ResultSet.JoinSnoc | chaincode/chaincode.go:44-47 | a comma goes before every member but the first |
| ResultSet.ResponseAppend | chaincode/chaincode.go:39-59 | one more readable entry adds a comma and its member before the closing bracket |
| ResultSet.BufferStep | chaincode/chaincode.go:44-56 | one loop step keeps the buffer equal to `[` followed by the members written so far, joined by commas |
| ResultSet.ConstructQueryResponseFromIterator | chaincode/chaincode.go:31-62 | the loop returns `[` + the entries' `{"Key":"…", "Record":…}` members joined by commas + `]`, having drained the iterator, or the first error |
| Chaincode.EventKey | chaincode/chaincode.go:82-85 | the key of (id, timestamp) exists exactly when neither text contains U+0000 or U+10FFFF |
| Chaincode.RecordOf | chaincode/chaincode.go:75-76 | the record LogEvent builds, `&EventMessage{timeInt, id, goosePacket}` (no contract of its own); StoredRecordContents states that the stored text reads back as exactly this record |
| Chaincode.Message | chaincode/chaincode.go:73-110 | the error texts of the contract (no contract of its own; MissingEventNotFound and ClientBadPacket state two of them) |
| Chaincode.LogEventSpec | chaincode/chaincode.go:70-93 | LogEvent on the ledger value (no contract of its own); its properties are LogEventOutcome, StoredRecordContents and LogThenQuery |
| Chaincode.QueryEventSpec | chaincode/chaincode.go:96-114 | QueryEvent on the ledger value (no contract of its own); its properties are LogThenQuery, LogEventLeavesOthers and MissingEventNotFound |
| Chaincode.RangeQuerySpec | chaincode/chaincode.go:121-197 | a range lookup on the ledger value (no contract of its own); its properties are LoggedEventInRangeLookup and FaithfulRangeResponse |
| Chaincode.InitLedger | chaincode/chaincode.go:65-67 | initialisation always succeeds |
| Chaincode.LogEvent | chaincode/chaincode.go:70-93 | the stub's new state and event log, and the error, are those of LogEventSpec on the old ones |
| Chaincode.QueryEvent | chaincode/chaincode.go:96-114 | the lookup answers QueryEventSpec on the stub's ledger: the key error, the read error, the not-found error or the stored text |
| Chaincode.RichQueryResponse | chaincode/chaincode.go:141-155 | the rich query answers the response over the evaluator's entries, or the error as it is; the iterator is closed on every path once opened |
| Chaincode.QueryAllByDateRange | chaincode/chaincode.go:121-156 | the answer is the response for the date-range selector; no iterator is left open |
| Chaincode.QueryDeviceByDateRange | chaincode/chaincode.go:163-197 | the answer is the response for the device selector; no iterator is left open |
| Chaincode.LogEventOutcome | chaincode/chaincode.go:70-93 | LogEvent succeeds exactly when the packet is hex, the key segments are valid and the write is accepted; on success exactly one key is set and one `logEvent` event with the decoded bytes is appended; on failure nothing changes |
| Chaincode.BadPacketRefused | chaincode/chaincode.go:71-74 | a packet of odd length or with a non-hex character gives the decoding error and changes nothing |
| Chaincode.StoredRecordContents | chaincode/chaincode.go:75-92 | the stored text reads back as (Atoi of the timestamp text, id, packet hex text), and the last event is `logEvent` carrying the decoded packet |
| Chaincode.UnreadableTimestampStoredAsZero | chaincode/chaincode.go:75-76 | a timestamp text that is not a number is stored as timestamp 0 |
| Chaincode.TimestampTextAndValue | chaincode/chaincode.go:75-82 | "012" and "12" give two different keys whose records are equal |
| Chaincode.LogThenQuery | chaincode/chaincode.go:70-114 | after a successful LogEvent, QueryEvent of the same id and timestamp text returns the serialised record |
| Chaincode.LogEventLeavesOthers | chaincode/chaincode.go:82-87 | LogEvent changes the answer of no lookup for another (id, timestamp) |
| Chaincode.MissingEventNotFound | chaincode/chaincode.go:109-111 | a lookup of a key with no value fails with "<id> does not exist" |
| Chaincode.LoggedEventInRangeLookup | chaincode/chaincode.go:121-197 | with an evaluator that answers the selector faithfully, a logged event is listed exactly when its timestamp is within the bounds and, for the device lookup, its id is the device |
| Chaincode.FaithfulRangeResponse | chaincode/chaincode.go:141-155 | with a faithful evaluator, the range response is `[`, the entries' members in the evaluator's order, `]` |
| Chaincode.ResponseKeyStartsWithRawNul | chaincode/chaincode.go:48-51 | the member of every key LogEvent writes carries a raw U+0000 inside its `Key` string |
| Chaincode.FcnOf | chaincode/chaincode.go:65-163 | the exported name of each transaction function (no contract of its own); RouteExact states that a request reaches a transaction exactly when it carries this name |
| Chaincode.ArgsOf | chaincode/chaincode.go:65-163 | each transaction's string parameters after the context, in declaration order (no contract of its own); RouteExact states that a request reaches a transaction exactly when it carries these arguments |
| Chaincode.Route | chaincode/chaincode.go:65-163 | a request reaches a transaction only when its name and argument count match that transaction's declaration |
| Chaincode.RouteOfCall | chaincode/chaincode.go:65-163 | naming a transaction with its own arguments reaches that transaction |
| Chaincode.RouteExact | chaincode/chaincode.go:65-163 | a request reaches a given transaction exactly when its name and arguments are that transaction's |
| Chaincode.Invoke | chaincode/chaincode.go:65-197 | one transaction on the ledger value by its Invocation (no contract of its own); OnlyLoggingWrites states what it may change |
| Chaincode.OnlyLoggingWrites | chaincode/chaincode.go:65-197 | only a successful LogEvent changes the ledger; a failing transaction never does |
| Hflib.ThreeArgs | hflib/context.go:36-38 | three arguments, in the order given |
| Hflib.NewQueryEventArgs | hflib/context.go:41-43 | id then timestamp |
| Hflib.NewLogEventArgs | hflib/context.go:47-49 | id, timestamp, then data |
| Hflib.LogEventProposal | hflib/context.go:80-87 | the LogEvent request on the Execute path (no contract of its own; ProposalsReachTheirTransactions states it) |
| Hflib.QueryEventProposal | hflib/context.go:102-109 | the QueryEvent request on the Query path (stated by ProposalsReachTheirTransactions) |
| Hflib.QueryAllProposal | hflib/context.go:128-135 | the QueryAllByDateRange request on the Query path (stated by ProposalsReachTheirTransactions) |
| Hflib.QueryDeviceProposal | hflib/context.go:154-161 | the QueryDeviceByDateRange request on the Query path (stated by ProposalsReachTheirTransactions) |
| Hflib.AsReply | hflib/context.go:112-119 | a reply has no error exactly when the transport answered, and then carries the payload; otherwise the text is empty |
| Hflib.LogEvent | hflib/context.go:78-96 | the client call reports no error exactly when the transport accepted the LogEvent proposal, and otherwise returns the transport's error unchanged; the response is dropped |
| Hflib.QueryEvent | hflib/context.go:100-120 | the client point lookup (no contract of its own; LookupsPassAnswersThrough states it) |
| Hflib.QueryAllByDateRange | hflib/context.go:126-146 | the client date-range lookup (stated by LookupsPassAnswersThrough) |
| Hflib.QueryDeviceByDateRange | hflib/context.go:152-172 | the client device lookup (stated by LookupsPassAnswersThrough) |
| Hflib.LookupsPassAnswersThrough | hflib/context.go:100-172 | over any transport, QueryEvent, QueryAllByDateRange and QueryDeviceByDateRange return the answer's payload with no error, or the empty text with the transport's error unchanged |
| Hflib.ProposalsReachTheirTransactions | hflib/context.go:78-172 | each client call names the context's chaincode, uses the Execute path only for LogEvent, and reaches the contract's transaction of the same name with the arguments in declaration order |
| Hflib.Serve | hflib/context.go:90 | the reference peer behind Execute and Query (no contract of its own): it routes the request, runs the contract and keeps the new ledger only on Execute success |
| Hflib.ServeRouted | hflib/context.go:90 | about the reference peer: a routed request gets its transaction's payload or error text, and the ledger changes only on Execute success |
| Hflib.QueriesDoNotCommit | hflib/context.go:112 | about the reference peer, not the client: a proposal on the query path never changes the ledger |
| Hflib.ClientLogThenQuery | hflib/context.go:78-120 | a client LogEvent commits the record, and a client QueryEvent on the committed ledger returns a text that reads back as that record |
| Hflib.ClientBadPacket | hflib/context.go:78-96 | a client LogEvent with a non-hex packet gets the decoding error's text and leaves the ledger unchanged |
| Hflib.WrongChaincodeRefused | hflib/context.go:83-84 | about the reference peer, not the client: a request for another chaincode id is refused with a placeholder text and changes nothing |
| Hflib.ClientQueryAll | hflib/context.go:126-146 | with the reference peer, the client's QueryAllByDateRange returns the contract's date-range response, or the empty text with the contract error's text |
| Hflib.ClientQueryDevice | hflib/context.go:152-172 | with the reference peer, the client's QueryDeviceByDateRange returns the contract's device response, or the empty text with the contract error's text |

## Left out

- `hflib.Init`, the `Config` record, `main` in both programs and the SDK handles inside `Context`: they set up connections and have nothing to prove. `main.go` is not part of this model.
- The Fabric SDK and peer internals are not modelled: endorsement, ordering, MVCC validation and concurrency. The channel is a transport function, and `Hflib.Serve` is a reference peer of this model. Its error texts for an unknown chaincode or function are placeholders.
- The CouchDB evaluation of a selector is not modelled. The evaluator is a function parameter. `Chaincode.AnswersFaithfully` states what a correct evaluator returns, and lemmas assume it where needed.
- Go strings and `[]byte` conversions of ledger values and arguments are modelled as text: a value stored as bytes is read back as the same text. Only the decoded GOOSE packet is a byte sequence.
- Strconv.ParseInt: does not model Atoi's range limit. Texts beyond 64 bits read as their exact value, not as an out-of-range error.
- EventRecord.EscapeChar: follows encoding/json of Go 1.21 and earlier, which writes U+0008 and U+000C as `\u0008` and `\u000c`; Go 1.22 and later write `\b` and `\f`.
- Hflib.Serve: returns a contract error's text to the client as it is. The Fabric SDK instead wraps it in an endorsement status error, so Hflib.ClientBadPacket, Hflib.ClientQueryAll and Hflib.ClientQueryDevice state exact error texts that hold only for this reference peer.
- EventRecord.Marshal: follows encoding/json's HTML-safe escaping of `<`, `>`, `&`, U+2028 and U+2029. It does not replace invalid UTF-8, which Dafny strings cannot hold. The marshalling error branch (chaincode.go lines 77-80) cannot be reached, because the record always serialises.
- Chaincode.Message: a `PutError` prints the packet bytes one character per byte. This matches `%s` only for bytes below 0x80.
- Ledger.ResultsIterator.Next: does not model the shim's errors for reading past the end. The precondition states the iterator protocol that the loop follows.
- Ledger.Stub.SetEvent: fails only on an empty event name, as the shim does. So the `logEvent` emit never fails, and its error path in LogEvent is not reachable. The shim keeps one event per transaction, and a second SetEvent in the same transaction replaces the first; the model appends to a log instead, which holds one event per committed transaction because LogEvent calls SetEvent once. Repeated SetEvent calls within one transaction are not modelled.
- The device id is spliced into the selector text without escaping. The model keeps the text exactly as built. It does not model what CouchDB makes of a device id that contains a quote.
