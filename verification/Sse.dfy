/**
 Server-sent event framing: `_sse_line` of app/mappers/stream_mapper.py against an event stream decoder after
 section 9.2 of the WHATWG HTML Living Standard.
 */
module Sse {
  import opened Sequences
  import opened Strings
  import opened Wrappers

  // ----- json.dumps(data, ensure_ascii=False) -----

  datatype Json =
    | JsonNull
    | JsonBool(b: bool)
    | JsonInt(n: int)
    | JsonString(s: string)
    | JsonArray(items: seq<Json>)
    | JsonObject(members: seq<Member>)

  datatype Member = Member(key: string, value: Json)

  const HEX_DIGITS := "0123456789abcdef"

  /** Section 7 of RFC 8259: quotation mark, reverse solidus and the control characters must be escaped. */
  function EscapeChar(c: char): string {
    match c
    case '\"' => "\\\""
    case '\\' => "\\\\"
    case '\n' => "\\n"
    case '\r' => "\\r"
    case '\t' => "\\t"
    case '\U{0008}' => "\\b"
    case '\U{000C}' => "\\f"
    case _ =>
      if c < ' ' then "\\u00" + [HEX_DIGITS[c as int / 16], HEX_DIGITS[c as int % 16]] else [c]
  }

  function Quoted(s: string): string {
    "\"" + FlatMap(EscapeChar, s) + "\""
  }

  function Dumps(j: Json): string
    decreases j, 1
  {
    match j
    case JsonNull => "null"
    case JsonBool(b) => if b then "true" else "false"
    case JsonInt(n) => if n < 0 then "-" + Decimal(-n) else Decimal(n)
    case JsonString(s) => Quoted(s)
    case JsonArray(items) => "[" + DumpsItems(items) + "]"
    case JsonObject(members) => "{" + DumpsMembers(members) + "}"
  }

  function DumpsItems(items: seq<Json>): string
    decreases items, 0
  {
    if items == [] then ""
    else Dumps(items[0]) + (if |items| == 1 then "" else ", " + DumpsItems(items[1..]))
  }

  function DumpsMembers(members: seq<Member>): string
    decreases members, 0
  {
    if members == [] then ""
    else
      Quoted(members[0].key) + ": " + Dumps(members[0].value)
      + (if |members| == 1 then "" else ", " + DumpsMembers(members[1..]))
  }

  predicate OneLine(s: string) {
    forall i | 0 <= i < |s| :: s[i] >= ' '
  }

  lemma {:induction false} QuotedOneLine(s: string)
    ensures OneLine(FlatMap(EscapeChar, s))
  {
    if s != [] {
      QuotedOneLine(s[..|s| - 1]);
      assert OneLine(EscapeChar(s[|s| - 1]));
    }
  }

  lemma {:induction false} DigitsOneLine(n: nat)
    ensures OneLine(Decimal(n))
  {
    if n >= 10 {
      DigitsOneLine(n / 10);
    }
  }

  /** Whatever the strings in it, dumped JSON has no control character, so no raw CR or LF. */
  lemma {:induction false} DumpsOneLine(j: Json)
    ensures OneLine(Dumps(j))
    decreases j, 1
  {
    hide Decimal, DumpsItems, DumpsMembers;
    match j
    case JsonInt(n) => DigitsOneLine(if n < 0 then -n else n);
    case JsonString(s) => QuotedOneLine(s);
    case JsonArray(items) => ItemsOneLine(items);
    case JsonObject(members) => MembersOneLine(members);
    case _ =>
  }

  lemma {:induction false} ItemsOneLine(items: seq<Json>)
    ensures OneLine(DumpsItems(items))
    decreases items, 0
  {
    if items != [] {
      DumpsOneLine(items[0]);
      ItemsOneLine(items[1..]);
    }
  }

  lemma {:induction false} MembersOneLine(members: seq<Member>)
    ensures OneLine(DumpsMembers(members))
    decreases members, 0
  {
    if members != [] {
      QuotedOneLine(members[0].key);
      DumpsOneLine(members[0].value);
      MembersOneLine(members[1..]);
    }
  }

  // ----- frames -----

  /** The payload of one frame: a JSON value, or the closing [DONE]. */
  datatype Payload = Data(json: Json) | Done

  function Body(p: Payload): string {
    match p
    case Data(j) => Dumps(j)
    case Done => "[DONE]"
  }

  function Frame(p: Payload): string {
    "data: " + Body(p) + "\n\n"
  }

  // ----- the decoder -----

  /** The first line and what follows its end (CRLF, LF or CR); None when no line ends. */
  function FirstLine(s: string): Option<(string, string)> {
    if s == "" then None
    else if s[0] == '\n' then Some(("", s[1..]))
    else if s[0] == '\r' then Some(("", if |s| > 1 && s[1] == '\n' then s[2..] else s[1..]))
    else
      match FirstLine(s[1..])
      case None => None
      case Some((line, rest)) => Some(([s[0]] + line, rest))
  }

  lemma {:induction false} FirstLineShrinks(s: string)
    requires FirstLine(s).Some?
    ensures |FirstLine(s).value.1| < |s|
  {
    if s[0] != '\n' && s[0] != '\r' {
      FirstLineShrinks(s[1..]);
    }
  }

  /** Position of the first colon, or the length of the line. */
  function Colon(line: string): (i: nat)
    ensures i <= |line|
  {
    if line == "" || line[0] == ':' then 0 else 1 + Colon(line[1..])
  }

  function FieldValue(line: string): string {
    var i := Colon(line);
    var raw := if i < |line| then line[i + 1..] else "";
    if raw != "" && raw[0] == ' ' then raw[1..] else raw
  }

  /** The data buffer after a non-empty line; comments and other fields leave it alone. */
  function Processed(line: string, buffer: string): string {
    if line[..Colon(line)] == "data" then buffer + FieldValue(line) + "\n" else buffer
  }

  /** The data of the events dispatched while reading `s`; an event without its blank line is dropped. */
  function Events(s: string, buffer: string): seq<string>
    decreases |s|
  {
    match FirstLine(s)
    case None => []
    case Some((line, rest)) =>
      FirstLineShrinks(s);
      if line != "" then Events(rest, Processed(line, buffer))
      else (if buffer == "" then [] else [buffer[..|buffer| - 1]]) + Events(rest, "")
  }

  /** A leading byte order mark is ignored. */
  function Decode(stream: string): seq<string> {
    Events(if stream != "" && stream[0] == '\U{FEFF}' then stream[1..] else stream, "")
  }

  // ----- round trip -----

  lemma {:induction false} LineEnds(line: string, rest: string)
    requires OneLine(line)
    ensures FirstLine(line + "\n" + rest) == Some((line, rest))
  {
    var s := line + "\n" + rest;
    if line == "" {
      assert s[1..] == rest;
    } else {
      assert s[1..] == line[1..] + "\n" + rest;
      LineEnds(line[1..], rest);
      assert [s[0]] + line[1..] == line;
    }
  }

  lemma DataField(body: string)
    ensures Processed("data: " + body, "") == body + "\n"
  {
    var line := "data: " + body;
    assert line[1..][0] == 'a' && line[1..][1..] == line[2..];
    assert line[2..][0] == 't' && line[2..][1..] == line[3..];
    assert line[3..][0] == 'a' && line[3..][1..] == line[4..];
    assert line[4..][0] == ':';
    assert Colon(line[3..]) == 1 && Colon(line[2..]) == 2 && Colon(line[1..]) == 3 && Colon(line) == 4;
    assert line[..4] == "data";
    assert line[5..] == " " + body;
    assert FieldValue(line) == body;
    assert "" + body + "\n" == body + "\n";
  }

  lemma FrameDecodes(body: string, rest: string)
    requires OneLine(body)
    ensures Events("data: " + body + "\n\n" + rest, "") == [body] + Events(rest, "")
  {
    var line, s := "data: " + body, "data: " + body + "\n\n" + rest;
    assert s == line + "\n" + ("\n" + rest);
    LineEnds(line, "\n" + rest);
    assert "\n" + rest == "" + "\n" + rest;
    LineEnds("", rest);
    DataField(body);
    assert (body + "\n")[..|body|] == body;
    assert Events(s, "") == Events("\n" + rest, body + "\n");
  }

  function Stream(ps: seq<Payload>): string {
    if ps == [] then "" else Frame(ps[0]) + Stream(ps[1..])
  }

  function Bodies(ps: seq<Payload>): seq<string> {
    seq(|ps|, i requires 0 <= i < |ps| => Body(ps[i]))
  }

  lemma OneFrame(p: Payload, rest: string)
    ensures Events(Frame(p) + rest, "") == [Body(p)] + Events(rest, "")
  {
    if p.Data? { DumpsOneLine(p.json); }
    FrameDecodes(Body(p), rest);
    assert Frame(p) + rest == "data: " + Body(p) + "\n\n" + rest;
  }

  lemma {:induction false} FramesDecode(ps: seq<Payload>)
    ensures Events(Stream(ps), "") == Bodies(ps)
  {
    if ps != [] {
      FramesDecode(ps[1..]);
      OneFrame(ps[0], Stream(ps[1..]));
      assert Bodies(ps) == [Body(ps[0])] + Bodies(ps[1..]);
    }
  }

  /** Decoding any sequence of frames gives back exactly the bodies that were framed. */
  lemma FramingRoundTrip(ps: seq<Payload>)
    ensures Decode(Stream(ps)) == Bodies(ps)
  {
    FramesDecode(ps);
    if ps != [] {
      assert Stream(ps)[0] == 'd';
    }
  }

  lemma {:induction false} DecimalStart(n: nat)
    ensures Decimal(n) != "" && '0' <= Decimal(n)[0] <= '9'
  {
    if n >= 10 {
      DecimalStart(n / 10);
    }
  }

  lemma DumpsStart(j: Json)
    ensures Dumps(j) != "" && Dumps(j)[0] != 'D' && Dumps(j)[0] != ']'
  {
    if j.JsonInt? {
      DecimalStart(if j.n < 0 then -j.n else j.n);
    }
  }

  /** No payload can be mistaken for the closing marker. */
  lemma DoneIsUnique(p: Payload)
    ensures Body(p) == "[DONE]" <==> p == Done
  {
    if p.Data? {
      match p.json
      case JsonArray(items) =>
        if items != [] {
          DumpsStart(items[0]);
          assert Dumps(p.json)[1] == Dumps(items[0])[0];
        } else {
          assert |Dumps(p.json)| == 2;
        }
      case JsonInt(n) => DecimalStart(if n < 0 then -n else n); assert Dumps(p.json)[0] != '[';
      case _ => assert Dumps(p.json)[0] != '[';
    }
  }
}
