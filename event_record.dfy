/**
 * The record the event store keeps under each key: EventMessage with its JSON
 * field tags, and the JSON text json.Marshal makes of it. Unmarshal reads that
 * text back; it accepts exactly the layout Marshal writes, not JSON in general.
 */
module EventRecord {
  import opened Wrappers
  import Strconv
  import Hex

  /** `EventMessage{Timestamp int "timestamp"; DeviceID string "id"; Message string "message"}`. */
  datatype EventMessage = EventMessage(timestamp: int, deviceId: string, message: string)

  /** Four lower-case hex digits of n, as a `\uXXXX` escape carries them. */
  function Hex4(n: nat): (s: string)
    requires n < 0x10000
    ensures |s| == 4 && forall i :: 0 <= i < 4 ==> Hex.IsHexDigit(s[i])
  {
    var q1 := n / 16;
    var q2 := q1 / 16;
    var q3 := q2 / 16;
    [Hex.HexChar(q3 % 16), Hex.HexChar(q2 % 16), Hex.HexChar(q1 % 16), Hex.HexChar(n % 16)]
  }

  /**
   * One character inside a JSON string literal, escaped the way encoding/json
   * of Go 1.21 and earlier does with HTML escaping on (json.Marshal's
   * default): quote and backslash get a backslash, newline, carriage return
   * and tab their short forms, other control characters, '<', '>', '&',
   * U+2028 and U+2029 a `\u` escape. (Go 1.22 writes U+0008 and U+000C as
   * `\b` and `\f` instead.)
   */
  function EscapeChar(c: char): string {
    if c == '"' || c == '\\' then ['\\', c]
    else if c == '\n' then "\\n"
    else if c == '\r' then "\\r"
    else if c == '\t' then "\\t"
    else if c < ' ' || c == '<' || c == '>' || c == '&' || c == '\U{2028}' || c == '\U{2029}' then
      "\\u" + Hex4(c as int)
    else [c]
  }

  function EscapeText(s: string): string {
    if s == [] then "" else EscapeChar(s[0]) + EscapeText(s[1..])
  }

  /** A JSON string literal holding s. */
  function Quote(s: string): string {
    "\"" + EscapeText(s) + "\""
  }

  const TimestampTag: string := "{\"timestamp\":"
  const IdTag: string := ",\"id\":"
  const MessageTag: string := ",\"message\":"

  /** json.Marshal of an EventMessage: the fields in declaration order under their tags. */
  function Marshal(m: EventMessage): string {
    TimestampTag + (Strconv.Itoa(m.timestamp) + (IdTag + Quote(m.deviceId) + (MessageTag + Quote(m.message) + "}")))
  }

  // ---- reading the text back ----

  function ReadHex4(s: string): (n: nat)
    requires |s| >= 4 && forall i :: 0 <= i < 4 ==> Hex.IsHexDigit(s[i])
    ensures n < 0x10000
  {
    ((Hex.FromHexChar(s[0]) * 16 + Hex.FromHexChar(s[1])) * 16 +
      Hex.FromHexChar(s[2])) * 16 + Hex.FromHexChar(s[3])
  }

  function Prepend(c: char, r: Option<(string, string)>): Option<(string, string)> {
    match r
    case None => None
    case Some((text, rest)) => Some(([c] + text, rest))
  }

  /**
   * The body of a JSON string literal, after its opening quote: the characters
   * it denotes and the text after its closing quote, or None if it is not one.
   */
  function ReadStringBody(s: string): Option<(string, string)>
    decreases |s|
  {
    if s == [] then None
    else if s[0] == '"' then Some(("", s[1..]))
    else if s[0] < ' ' then None
    else if s[0] != '\\' then Prepend(s[0], ReadStringBody(s[1..]))
    else if |s| < 2 then None
    else if s[1] == '"' || s[1] == '\\' || s[1] == '/' then Prepend(s[1], ReadStringBody(s[2..]))
    else if s[1] == 'b' then Prepend('\U{0008}', ReadStringBody(s[2..]))
    else if s[1] == 'f' then Prepend('\U{000C}', ReadStringBody(s[2..]))
    else if s[1] == 'n' then Prepend('\n', ReadStringBody(s[2..]))
    else if s[1] == 'r' then Prepend('\r', ReadStringBody(s[2..]))
    else if s[1] == 't' then Prepend('\t', ReadStringBody(s[2..]))
    else if s[1] == 'u' && |s| >= 6 && forall i :: 2 <= i < 6 ==> Hex.IsHexDigit(s[i]) then
      var v := ReadHex4(s[2..6]);
      if 0xD800 <= v < 0xE000 then None else Prepend(v as char, ReadStringBody(s[6..]))
    else None
  }

  /** The position of the first comma in s, or |s|. */
  function CommaIndex(s: string): (n: nat)
    ensures n <= |s|
  {
    if s == [] || s[0] == ',' then 0 else 1 + CommaIndex(s[1..])
  }

  /** A tag followed by a JSON string literal: the string and what follows it. */
  function ReadTagged(tag: string, s: string): Option<(string, string)> {
    if |s| < |tag| + 1 || s[..|tag| + 1] != tag + "\"" then None
    else ReadStringBody(s[|tag| + 1..])
  }

  /** Reads back the layout Marshal writes. */
  function Unmarshal(s: string): Option<EventMessage> {
    if |s| < |TimestampTag| || s[..|TimestampTag|] != TimestampTag then None
    else UnmarshalFields(s[|TimestampTag|..])
  }

  /** The fields after the timestamp tag: number, id, message, closing brace. */
  function UnmarshalFields(s: string): Option<EventMessage> {
    var n := CommaIndex(s);
    match Strconv.ParseInt(s[..n])
    case None => None
    case Some(t) =>
      match ReadTagged(IdTag, s[n..])
      case None => None
      case Some((id, r2)) =>
        match ReadTagged(MessageTag, r2)
        case None => None
        case Some((msg, r3)) => if r3 == "}" then Some(EventMessage(t, id, msg)) else None
  }

  lemma ReadHex4Of(n: nat)
    requires n < 0x10000
    ensures ReadHex4(Hex4(n)) == n
  {
    var q1 := n / 16;
    var q2 := q1 / 16;
    var q3 := q2 / 16;
    assert n == q1 * 16 + n % 16;
    assert q1 == q2 * 16 + q1 % 16;
    assert q2 == q3 * 16 + q2 % 16;
    assert q3 < 16;
  }

  /**
   * An escaped character is the character itself or a backslash escape, and
   * holds no control character, no `<`, `>`, `&`, U+2028 or U+2029, and a
   * quote only right after a backslash.
   */
  lemma EscapeCharSafe(c: char)
    ensures var r := EscapeChar(c);
      r == [c] || (|r| >= 2 && r[0] == '\\')
    ensures var r := EscapeChar(c);
      forall i :: 0 <= i < |r| ==>
        ' ' <= r[i] && r[i] != '<' && r[i] != '>' && r[i] != '&' && r[i] != '\U{2028}' && r[i] != '\U{2029}'
    ensures var r := EscapeChar(c);
      forall i :: 0 <= i < |r| && r[i] == '"' ==> i == 1 && r[0] == '\\'
  {
  }

  /** Quote, backslash, newline, carriage return and tab read back from their two-character escapes. */
  lemma ReadShortEscape(c: char, rest: string)
    requires c == '"' || c == '\\' || c == '\n' || c == '\r' || c == '\t'
    ensures ReadStringBody(EscapeChar(c) + rest) == Prepend(c, ReadStringBody(rest))
  {
    assert (EscapeChar(c) + rest)[2..] == rest;
  }

  /** A character written as a `\u` escape reads back from it. */
  lemma ReadUnicodeEscape(c: char, rest: string)
    requires !(c == '"' || c == '\\' || c == '\n' || c == '\r' || c == '\t')
    requires c < ' ' || c == '<' || c == '>' || c == '&' || c == '\U{2028}' || c == '\U{2029}'
    ensures ReadStringBody(EscapeChar(c) + rest) == Prepend(c, ReadStringBody(rest))
  {
    var s := EscapeChar(c) + rest;
    assert s == "\\u" + Hex4(c as int) + rest;
    ReadHex4Of(c as int);
    assert s[2..6] == Hex4(c as int);
    assert s[6..] == rest;
  }

  lemma ReadEscapeChar(c: char, rest: string)
    ensures ReadStringBody(EscapeChar(c) + rest) == Prepend(c, ReadStringBody(rest))
  {
    if c == '"' || c == '\\' || c == '\n' || c == '\r' || c == '\t' {
      ReadShortEscape(c, rest);
    } else if c < ' ' || c == '<' || c == '>' || c == '&' || c == '\U{2028}' || c == '\U{2029}' {
      ReadUnicodeEscape(c, rest);
    } else {
      assert (EscapeChar(c) + rest)[1..] == rest;
    }
  }

  /** Reading an escaped text up to its closing quote gives the text and what follows. */
  lemma {:induction false} ReadEscapeText(a: string, rest: string)
    ensures ReadStringBody(EscapeText(a) + "\"" + rest) == Some((a, rest))
  {
    if a == [] {
      assert EscapeText(a) + "\"" + rest == "\"" + rest;
      assert ("\"" + rest)[1..] == rest;
    } else {
      assert EscapeText(a) + "\"" + rest == EscapeChar(a[0]) + (EscapeText(a[1..]) + "\"" + rest);
      ReadEscapeChar(a[0], EscapeText(a[1..]) + "\"" + rest);
      ReadEscapeText(a[1..], rest);
      assert [a[0]] + a[1..] == a;
    }
  }

  lemma {:induction false} CommaIndexAfterNumber(d: string, rest: string)
    requires forall i :: 0 <= i < |d| ==> d[i] != ','
    requires rest != [] && rest[0] == ','
    ensures CommaIndex(d + rest) == |d|
  {
    if d != [] {
      assert (d + rest)[1..] == d[1..] + rest;
      CommaIndexAfterNumber(d[1..], rest);
    }
  }

  lemma ReadTaggedOf(tag: string, a: string, rest: string)
    ensures ReadTagged(tag, tag + Quote(a) + rest) == Some((a, rest))
  {
    var s := tag + Quote(a) + rest;
    assert s == (tag + "\"") + (EscapeText(a) + "\"" + rest);
    assert s[..|tag| + 1] == tag + "\"";
    assert s[|tag| + 1..] == EscapeText(a) + "\"" + rest;
    ReadEscapeText(a, rest);
  }

  lemma UnmarshalFieldsOf(m: EventMessage)
    ensures UnmarshalFields(Strconv.Itoa(m.timestamp) + (IdTag + Quote(m.deviceId) + (MessageTag + Quote(m.message) + "}")))
      == Some(m)
  {
    var ts := Strconv.Itoa(m.timestamp);
    var tail2 := MessageTag + Quote(m.message) + "}";
    var tail1 := IdTag + Quote(m.deviceId) + tail2;
    var s := ts + tail1;
    CommaIndexAfterNumber(ts, tail1);
    assert s[..|ts|] == ts && s[|ts|..] == tail1;
    Strconv.ParseItoa(m.timestamp);
    ReadTaggedOf(IdTag, m.deviceId, tail2);
    ReadTaggedOf(MessageTag, m.message, "}");
  }

  /** Unmarshal undoes Marshal: the stored text determines the whole record. */
  lemma UnmarshalMarshal(m: EventMessage)
    ensures Unmarshal(Marshal(m)) == Some(m)
  {
    var rest := Strconv.Itoa(m.timestamp) + (IdTag + Quote(m.deviceId) + (MessageTag + Quote(m.message) + "}"));
    assert Marshal(m)[..|TimestampTag|] == TimestampTag;
    assert Marshal(m)[|TimestampTag|..] == rest;
    UnmarshalFieldsOf(m);
  }

  /** Different records are never stored as the same text. */
  lemma MarshalInjective(m1: EventMessage, m2: EventMessage)
    requires Marshal(m1) == Marshal(m2)
    ensures m1 == m2
  {
    UnmarshalMarshal(m1);
    UnmarshalMarshal(m2);
  }
}
