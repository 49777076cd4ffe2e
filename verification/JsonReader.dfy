/** A reader of JSON text after RFC 8259, for values whose numbers are integers; it gives back what was dumped. */
module JsonReader {
  import opened Sequences
  import opened Strings
  import opened Wrappers
  import opened Sse

  // ----- the reader: a value and what follows it -----

  predicate IsDigit(c: char) {
    '0' <= c <= '9'
  }

  /** Section 2: insignificant white space. */
  function Skip(s: string): (r: string)
    ensures |r| <= |s|
  {
    if s != "" && s[0] in {' ', '\t', '\n', '\r'} then Skip(s[1..]) else s
  }

  function Digits(s: string): (n: nat)
    ensures n <= |s| && forall i | 0 <= i < n :: IsDigit(s[i])
  {
    if s != "" && IsDigit(s[0]) then 1 + Digits(s[1..]) else 0
  }

  function Numeral(digits: string): nat
    requires forall i | 0 <= i < |digits| :: IsDigit(digits[i])
  {
    if digits == "" then 0
    else
      var last := digits[|digits| - 1];
      assert IsDigit(last);
      10 * Numeral(digits[..|digits| - 1]) + (last as int - '0' as int)
  }

  /** Section 6, integers: no leading zeros. */
  function ReadNatural(s: string): (r: Option<(nat, string)>)
    ensures r.Some? ==> |r.value.1| < |s|
  {
    var n := Digits(s);
    if n == 0 || (n > 1 && s[0] == '0') then None else Some((Numeral(s[..n]), s[n..]))
  }

  function HexValue(c: char): Option<nat> {
    if '0' <= c <= '9' then Some(c as int - '0' as int)
    else if 'a' <= c <= 'f' then Some(c as int - 'a' as int + 10)
    else if 'A' <= c <= 'F' then Some(c as int - 'A' as int + 10)
    else None
  }

  /** The code unit of four hexadecimal digits. */
  function CodeUnit(s: string): (r: Option<nat>)
    ensures r.Some? ==> |s| >= 4 && r.value < 0x1_0000
  {
    if |s| < 4 then None
    else
      match (HexValue(s[0]), HexValue(s[1]), HexValue(s[2]), HexValue(s[3]))
      case (Some(a), Some(b), Some(c), Some(d)) =>
        if a < 16 && b < 16 && c < 16 && d < 16 then Some(0x1000 * a + 0x100 * b + 0x10 * c + d) else None
      case _ => None
  }

  /** The character of a \u escape whose digits start `s`, and how many characters of `s` it takes. */
  function Unicode(s: string): (r: Option<(char, nat)>)
    ensures r.Some? ==> r.value.1 <= |s|
  {
    match CodeUnit(s)
    case None => None
    case Some(u) =>
      if u < 0xD800 || 0xE000 <= u then Some((u as char, 4))
      else if u < 0xDC00 && |s| >= 6 && s[4..6] == "\\u" then
        match CodeUnit(s[6..])
        case None => None
        case Some(v) =>
          if 0xDC00 <= v < 0xE000 then Some(((0x1_0000 + 0x400 * (u - 0xD800) + (v - 0xDC00)) as char, 10)) else None
      else None
  }

  /** The letter of a two-character escape. */
  function Escape(letter: char): Option<char> {
    match letter
    case '\"' => Some('\"')
    case '\\' => Some('\\')
    case '/' => Some('/')
    case 'b' => Some('\U{0008}')
    case 'f' => Some('\U{000C}')
    case 'n' => Some('\n')
    case 'r' => Some('\r')
    case 't' => Some('\t')
    case _ => None
  }

  /** The first character of a string's text and what follows it; control characters may not stand there unescaped. */
  function ReadChar(s: string): (r: Option<(char, string)>)
    ensures r.Some? ==> |r.value.1| < |s|
  {
    if s == "" || s[0] < ' ' || s[0] == '\"' then None
    else if s[0] != '\\' then Some((s[0], s[1..]))
    else if |s| < 2 then None
    else if s[1] == 'u' then
      match Unicode(s[2..])
      case None => None
      case Some((c, n)) => Some((c, s[2 + n..]))
    else
      match Escape(s[1])
      case None => None
      case Some(c) => Some((c, s[2..]))
  }

  /** Section 7: the text up to the closing quotation mark. */
  function ReadText(s: string): (r: Option<(string, string)>)
    ensures r.Some? ==> |r.value.1| < |s|
    decreases |s|
  {
    if s != "" && s[0] == '\"' then Some(("", s[1..]))
    else
      match ReadChar(s)
      case None => None
      case Some((c, rest)) =>
        match ReadText(rest)
        case None => None
        case Some((t, rest')) => Some(([c] + t, rest'))
  }

  function ReadLiteral(s: string, literal: string, j: Json): (r: Option<(Json, string)>)
    requires literal != ""
    ensures r.Some? ==> |r.value.1| < |s|
  {
    if literal <= s then Some((j, s[|literal|..])) else None
  }

  /** Section 3 */
  function Read(text: string): (r: Option<(Json, string)>)
    ensures r.Some? ==> |r.value.1| < |text|
    decreases |text|, 0
  {
    var s := Skip(text);
    if s == "" then None
    else
      match s[0]
      case 'n' => ReadLiteral(s, "null", JsonNull)
      case 't' => ReadLiteral(s, "true", JsonBool(true))
      case 'f' => ReadLiteral(s, "false", JsonBool(false))
      case '\"' =>
        (match ReadText(s[1..])
         case None => None
         case Some((t, rest)) => Some((JsonString(t), rest)))
      case '[' => ReadArray(s[1..])
      case '{' => ReadObject(s[1..])
      case '-' =>
        (match ReadNatural(s[1..])
         case None => None
         case Some((n, rest)) => Some((JsonInt(-(n as int)), rest)))
      case _ =>
        match ReadNatural(s)
        case None => None
        case Some((n, rest)) => Some((JsonInt(n), rest))
  }

  /** Section 5, after the opening bracket. */
  function ReadArray(text: string): (r: Option<(Json, string)>)
    ensures r.Some? ==> |r.value.1| <= |text|
    decreases |text|, 2
  {
    var s := Skip(text);
    if s != "" && s[0] == ']' then Some((JsonArray([]), s[1..]))
    else
      match ReadItems(text)
      case None => None
      case Some((items, rest)) => Some((JsonArray(items), rest))
  }

  /** One item or more, up to the closing bracket. */
  function ReadItems(text: string): (r: Option<(seq<Json>, string)>)
    ensures r.Some? ==> |r.value.1| <= |text|
    decreases |text|, 1
  {
    match Read(text)
    case None => None
    case Some((j, after)) =>
      var s := Skip(after);
      if s == "" then None
      else if s[0] == ']' then Some(([j], s[1..]))
      else if s[0] == ',' then
        match ReadItems(s[1..])
        case None => None
        case Some((items, rest)) => Some(([j] + items, rest))
      else None
  }

  /** Section 4, after the opening brace. */
  function ReadObject(text: string): (r: Option<(Json, string)>)
    ensures r.Some? ==> |r.value.1| <= |text|
    decreases |text|, 2
  {
    var s := Skip(text);
    if s != "" && s[0] == '}' then Some((JsonObject([]), s[1..]))
    else
      match ReadMembers(text)
      case None => None
      case Some((members, rest)) => Some((JsonObject(members), rest))
  }

  function ReadName(text: string): (r: Option<(string, string)>)
    ensures r.Some? ==> |r.value.1| < |text|
  {
    var s := Skip(text);
    if s == "" || s[0] != '\"' then None
    else
      match ReadText(s[1..])
      case None => None
      case Some((name, after)) =>
        var colon := Skip(after);
        if colon != "" && colon[0] == ':' then Some((name, colon[1..])) else None
  }

  /** One member or more, up to the closing brace. */
  function ReadMembers(text: string): (r: Option<(seq<Member>, string)>)
    ensures r.Some? ==> |r.value.1| <= |text|
    decreases |text|, 1
  {
    match ReadName(text)
    case None => None
    case Some((name, value)) =>
      match Read(value)
      case None => None
      case Some((j, after)) =>
        var s := Skip(after);
        if s == "" then None
        else if s[0] == '}' then Some(([Member(name, j)], s[1..]))
        else if s[0] == ',' then
          match ReadMembers(s[1..])
          case None => None
          case Some((members, rest)) => Some(([Member(name, j)] + members, rest))
        else None
  }

  // ----- numbers -----

  /** `rest` does not carry on a number that ends before it. */
  predicate Stops(rest: string) {
    rest == "" || !IsDigit(rest[0])
  }

  lemma {:induction false} DecimalDigits(n: nat)
    ensures forall i | 0 <= i < |Decimal(n)| :: IsDigit(Decimal(n)[i])
    ensures Decimal(n) != "" && (n > 0 ==> Decimal(n)[0] != '0') && (n == 0 ==> |Decimal(n)| == 1)
  {
    if n >= 10 {
      DecimalDigits(n / 10);
    }
  }

  lemma {:induction false} NumeralOfDecimal(n: nat)
    requires forall i | 0 <= i < |Decimal(n)| :: IsDigit(Decimal(n)[i])
    ensures Numeral(Decimal(n)) == n
  {
    DigitValue(n % 10);
    if n >= 10 {
      DecimalDigits(n / 10);
      NumeralOfDecimal(n / 10);
      assert Decimal(n)[..|Decimal(n)| - 1] == Decimal(n / 10);
    } else {
      assert Decimal(n)[..0] == "";
    }
  }

  lemma DigitValue(d: nat)
    requires d < 10
    ensures "0123456789"[d] as int - '0' as int == d
  {
  }

  lemma {:induction false} DigitsOf(digits: string, rest: string)
    requires (forall i | 0 <= i < |digits| :: IsDigit(digits[i])) && Stops(rest)
    ensures Digits(digits + rest) == |digits|
  {
    if digits == "" {
      assert digits + rest == rest;
    } else {
      assert (digits + rest)[1..] == digits[1..] + rest;
      DigitsOf(digits[1..], rest);
    }
  }

  lemma NaturalReadsBack(n: nat, rest: string)
    requires Stops(rest)
    ensures ReadNatural(Decimal(n) + rest) == Some((n, rest))
  {
    DecimalDigits(n);
    DigitsOf(Decimal(n), rest);
    NumeralOfDecimal(n);
    var s := Decimal(n) + rest;
    assert s[..|Decimal(n)|] == Decimal(n) && s[|Decimal(n)|..] == rest && s[0] == Decimal(n)[0];
    hide Decimal, Digits, Numeral;
  }

  // ----- strings -----

  lemma HexReadsBack(i: nat)
    requires i < 16
    ensures HexValue(HEX_DIGITS[i]) == Some(i)
  {
  }

  lemma ControlReadsBack(c: char, rest: string)
    requires c < ' '
    ensures Unicode("00" + [HEX_DIGITS[c as int / 16], HEX_DIGITS[c as int % 16]] + rest) == Some((c, 4))
  {
    HexReadsBack(c as int / 16);
    HexReadsBack(c as int % 16);
    var s := "00" + [HEX_DIGITS[c as int / 16], HEX_DIGITS[c as int % 16]] + rest;
    assert s[0] == '0' && s[1] == '0' && s[2] == HEX_DIGITS[c as int / 16] && s[3] == HEX_DIGITS[c as int % 16];
    assert CodeUnit(s) == Some(c as int);
  }

  lemma CharReadsBack(c: char, rest: string)
    ensures ReadChar(EscapeChar(c) + rest) == Some((c, rest))
    ensures EscapeChar(c) != "" && EscapeChar(c)[0] != '\"'
  {
    var s := EscapeChar(c) + rest;
    if |EscapeChar(c)| == 6 {
      ControlReadsBack(c, rest);
      assert s[2..] == "00" + [HEX_DIGITS[c as int / 16], HEX_DIGITS[c as int % 16]] + rest;
      assert s[6..] == rest;
    } else if |EscapeChar(c)| == 2 {
      assert s[1] == EscapeChar(c)[1] && s[2..] == rest;
    } else {
      assert s[1..] == rest;
    }
  }

  lemma EscapedHead(t: string, rest: string)
    requires t != ""
    ensures FlatMap(EscapeChar, t) + "\"" + rest ==
            EscapeChar(t[0]) + (FlatMap(EscapeChar, t[1..]) + "\"" + rest)
  {
    assert t == [t[0]] + t[1..];
    FlatMapAppend(EscapeChar, [t[0]], t[1..]);
    FlatMapOne(EscapeChar, t[0]);
    hide FlatMap, EscapeChar;
    Regroup(EscapeChar(t[0]), FlatMap(EscapeChar, t[1..]), "\"", rest);
  }

  lemma {:induction false} TextReadsBack(t: string, rest: string)
    ensures ReadText(FlatMap(EscapeChar, t) + "\"" + rest) == Some((t, rest))
  {
    hide FlatMap, EscapeChar, ReadChar;
    if t == "" {
      FlatMapNone(EscapeChar);
      var s := "\"" + rest;
      assert "" + "\"" + rest == s && s[1..] == rest;
    } else {
      var more := FlatMap(EscapeChar, t[1..]) + "\"" + rest;
      TextReadsBack(t[1..], rest);
      CharReadsBack(t[0], more);
      EscapedHead(t, rest);
      assert (EscapeChar(t[0]) + more)[0] == EscapeChar(t[0])[0];
      assert [t[0]] + t[1..] == t;
    }
  }

  lemma QuotedReadsBack(t: string, rest: string)
    ensures (Quoted(t) + rest)[0] == '\"' && ReadText((Quoted(t) + rest)[1..]) == Some((t, rest))
  {
    TextReadsBack(t, rest);
    hide ReadText, FlatMap;
    assert (Quoted(t) + rest)[1..] == FlatMap(EscapeChar, t) + "\"" + rest;
  }

  // ----- values -----

  /** The first character tells what kind of value it is; it is neither white space nor a closing bracket. */
  lemma FirstChar(j: Json)
    ensures Dumps(j) != ""
    ensures match j
            case JsonNull => Dumps(j)[0] == 'n'
            case JsonBool(b) => Dumps(j)[0] == if b then 't' else 'f'
            case JsonInt(n) => if n < 0 then Dumps(j)[0] == '-' else IsDigit(Dumps(j)[0])
            case JsonString(_) => Dumps(j)[0] == '\"'
            case JsonArray(_) => Dumps(j)[0] == '['
            case JsonObject(_) => Dumps(j)[0] == '{'
  {
    if j.JsonInt? {
      DecimalDigits(if j.n < 0 then -j.n else j.n);
    }
    hide Decimal, DumpsItems, DumpsMembers, FlatMap;
  }

  lemma NothingToSkip(s: string)
    requires s != "" && s[0] !in {' ', '\t', '\n', '\r'}
    ensures Skip(s) == s
  {
  }

  lemma OneSpace(s: string)
    requires s != "" && s[0] !in {' ', '\t', '\n', '\r'}
    ensures Skip(" " + s) == s
  {
    assert (" " + s)[1..] == s;
    NothingToSkip(s);
  }

  lemma LiteralReadsBack(literal: string, rest: string, j: Json)
    requires literal != ""
    ensures ReadLiteral(literal + rest, literal, j) == Some((j, rest))
  {
    assert (literal + rest)[|literal|..] == rest;
  }

  lemma IntReadsBack(n: int, rest: string)
    requires Stops(rest)
    ensures Read(Dumps(JsonInt(n)) + rest) == Some((JsonInt(n), rest))
  {
    var s := Dumps(JsonInt(n)) + rest;
    hide Dumps, Decimal, ReadNatural, Skip, Read;
    FirstChar(JsonInt(n));
    assert s[0] == Dumps(JsonInt(n))[0];
    NothingToSkip(s);
    IntDumped(n, rest);
    NaturalReadsBack(if n < 0 then -n else n, rest);
    if n < 0 { NegativeRead(s); } else { PositiveRead(s); }
  }

  lemma IntDumped(n: int, rest: string)
    ensures var s := Dumps(JsonInt(n)) + rest;
            if n < 0 then s != "" && s[1..] == Decimal(-n) + rest else s == Decimal(n) + rest
  {
    hide Decimal;
    if n < 0 { assert Dumps(JsonInt(n)) + rest == "-" + (Decimal(-n) + rest); }
  }

  lemma NegativeRead(s: string)
    requires s != "" && s[0] == '-' && Skip(s) == s && ReadNatural(s[1..]).Some?
    ensures var (n, rest) := ReadNatural(s[1..]).value; Read(s) == Some((JsonInt(-(n as int)), rest))
  {
    hide ReadNatural, Skip;
  }

  lemma PositiveRead(s: string)
    requires s != "" && IsDigit(s[0]) && Skip(s) == s && ReadNatural(s).Some?
    ensures var (n, rest) := ReadNatural(s).value; Read(s) == Some((JsonInt(n), rest))
  {
    hide ReadNatural, Skip;
  }

  /** What follows the first of several dumped items or members. */
  function Tail(more: bool, rest: string, close: string, x: string): string {
    (if more then ", " + rest else "") + close + x
  }

  lemma TailStops(more: bool, rest: string, close: string, x: string)
    requires close in {"]", "}"}
    ensures var t := Tail(more, rest, close, x);
            && Stops(t) && Skip(t) == t != ""
            && (if more then t[0] == ',' && t[1..] == " " + (rest + close + x) else t[0] == close[0] && t[1..] == x)
  {
    var t := Tail(more, rest, close, x);
    if more { assert t == "," + (" " + (rest + close + x)); } else { assert t == close + x; }
    NothingToSkip(t);
  }

  lemma ItemsHead(items: seq<Json>, x: string)
    requires items != []
    ensures var more := |items| > 1;
            DumpsItems(items) + "]" + x ==
            Dumps(items[0]) + Tail(more, if more then DumpsItems(items[1..]) else "", "]", x)
  {
    var more := |items| > 1;
    assert DumpsItems(items) == Dumps(items[0]) + if more then ", " + DumpsItems(items[1..]) else "";
    hide Dumps, DumpsItems;
    Regroup(Dumps(items[0]), if more then ", " + DumpsItems(items[1..]) else "", "]", x);
  }

  lemma Regroup(a: string, b: string, c: string, d: string)
    ensures a + b + c + d == a + (b + c + d)
  {
  }

  lemma MembersHead(members: seq<Member>, x: string)
    requires members != []
    ensures var more := |members| > 1;
            DumpsMembers(members) + "}" + x ==
            Quoted(members[0].key) + (": " + (Dumps(members[0].value) +
                                              Tail(more, if more then DumpsMembers(members[1..]) else "", "}", x)))
  {
    var m, more := members[0], |members| > 1;
    var rest := if more then ", " + DumpsMembers(members[1..]) else "";
    assert DumpsMembers(members) == Quoted(m.key) + ": " + Dumps(m.value) + rest;
    hide Dumps, DumpsMembers, Quoted;
    RegroupMember(Quoted(m.key), ": ", Dumps(m.value), rest, "}", x);
  }

  lemma RegroupMember(key: string, colon: string, value: string, rest: string, close: string, x: string)
    ensures key + colon + value + rest + close + x == key + (colon + (value + (rest + close + x)))
  {
    Regroup(key + colon + value, rest, close, x);
    Regroup(key, colon, value, rest + close + x);
  }

  /** A reader given the dumped form of a value, and anything that does not carry on a number, stops right after it. */
  lemma {:induction false} ReadsBack(j: Json, rest: string)
    requires Stops(rest)
    ensures Read(Dumps(j) + rest) == Some((j, rest))
    decreases j, 1
  {
    hide Dumps, DumpsItems, DumpsMembers, Quoted, ReadText, ReadArray, ReadObject, Decimal;
    var s := Dumps(j) + rest;
    FirstChar(j);
    assert s[0] == Dumps(j)[0];
    NothingToSkip(s);
    match j
    case JsonNull => LiteralDumped(j, rest);
    case JsonBool(b) => LiteralDumped(j, rest);
    case JsonInt(n) => IntReadsBack(n, rest);
    case JsonString(t) =>
      StringDumped(t);
      QuotedReadsBack(t, rest);
    case JsonArray(items) =>
      ArrayDumped(items, rest);
      ArrayReadsBack(items, rest);
    case JsonObject(members) =>
      ObjectDumped(members, rest);
      ObjectReadsBack(members, rest);
  }

  lemma LiteralDumped(j: Json, rest: string)
    requires j.JsonNull? || j.JsonBool?
    ensures Read(Dumps(j) + rest) == Some((j, rest))
  {
    var literal := if j.JsonNull? then "null" else if j.b then "true" else "false";
    assert Dumps(j) == literal;
    LiteralReadsBack(literal, rest, j);
    NothingToSkip(literal + rest);
    hide Dumps, ReadLiteral;
  }

  lemma StringDumped(t: string)
    ensures Dumps(JsonString(t)) == Quoted(t)
  {
    hide Quoted;
  }

  lemma ArrayDumped(items: seq<Json>, rest: string)
    ensures (Dumps(JsonArray(items)) + rest)[0] == '['
    ensures (Dumps(JsonArray(items)) + rest)[1..] == DumpsItems(items) + "]" + rest
  {
    hide DumpsItems;
    Regroup("[", DumpsItems(items), "]", rest);
  }

  lemma ObjectDumped(members: seq<Member>, rest: string)
    ensures (Dumps(JsonObject(members)) + rest)[0] == '{'
    ensures (Dumps(JsonObject(members)) + rest)[1..] == DumpsMembers(members) + "}" + rest
  {
    hide DumpsMembers;
    Regroup("{", DumpsMembers(members), "}", rest);
  }

  lemma {:induction false} ArrayReadsBack(items: seq<Json>, rest: string)
    ensures ReadArray(DumpsItems(items) + "]" + rest) == Some((JsonArray(items), rest))
    decreases items, 1
  {
    var s := DumpsItems(items) + "]" + rest;
    if items == [] {
      assert s == "]" + rest;
      NothingToSkip(s);
    } else {
      ItemsHead(items, rest);
      FirstChar(items[0]);
      assert s[0] == Dumps(items[0])[0];
      hide Dumps, DumpsItems, ReadItems;
      NothingToSkip(s);
      ItemsReadBack(items, rest);
    }
  }

  lemma ItemsGoOn(text: string)
    requires Read(text).Some? && Skip(Read(text).value.1) == Read(text).value.1 != ""
    ensures var (j, tail) := Read(text).value;
            && (tail[0] == ']' ==> ReadItems(text) == Some(([j], tail[1..])))
            && (tail[0] == ',' && ReadItems(tail[1..]).Some? ==>
                var (more, rest) := ReadItems(tail[1..]).value; ReadItems(text) == Some(([j] + more, rest)))
  {
    hide Read, Skip;
  }

  lemma {:induction false} ItemsReadBack(items: seq<Json>, rest: string)
    requires items != []
    ensures ReadItems(DumpsItems(items) + "]" + rest) == Some((items, rest))
    decreases items, 0
  {
    hide Dumps, DumpsItems, Read, Skip, ReadItems, Tail;
    var more := |items| > 1;
    var next := if more then DumpsItems(items[1..]) else "";
    var tail := Tail(more, next, "]", rest);
    ItemsHead(items, rest);
    TailStops(more, next, "]", rest);
    ReadsBack(items[0], tail);
    ItemsGoOn(DumpsItems(items) + "]" + rest);
    if more {
      ItemsReadBack(items[1..], rest);
      ItemsSkip(items[1..], rest);
      assert items == [items[0]] + items[1..];
    } else {
      assert items == [items[0]];
    }
  }

  /** The space after a comma makes no difference. */
  lemma ItemsSkip(items: seq<Json>, rest: string)
    requires items != []
    ensures ReadItems(" " + (DumpsItems(items) + "]" + rest)) == ReadItems(DumpsItems(items) + "]" + rest)
  {
    var s := DumpsItems(items) + "]" + rest;
    ItemsHead(items, rest);
    FirstChar(items[0]);
    assert s[0] == Dumps(items[0])[0];
    hide Dumps, DumpsItems, Read, ReadItems;
    ReadSkips(s);
    ItemsAfter(" " + s, s);
  }

  lemma ItemsAfter(s: string, t: string)
    requires Read(s) == Read(t)
    ensures ReadItems(s) == ReadItems(t)
  {
    hide Read;
  }

  lemma {:induction false} ObjectReadsBack(members: seq<Member>, rest: string)
    ensures ReadObject(DumpsMembers(members) + "}" + rest) == Some((JsonObject(members), rest))
    decreases members, 1
  {
    var s := DumpsMembers(members) + "}" + rest;
    if members == [] {
      assert s == "}" + rest;
      NothingToSkip(s);
    } else {
      MembersHead(members, rest);
      QuotedReadsBack(members[0].key, "");
      hide Dumps, DumpsMembers, ReadMembers, ReadText;
      NothingToSkip(s);
      MembersReadBack(members, rest);
    }
  }

  lemma NameReadsBack(key: string, value: string)
    ensures ReadName(Quoted(key) + (": " + value)) == Some((key, " " + value))
    ensures ReadName(" " + (Quoted(key) + (": " + value))) == Some((key, " " + value))
  {
    var after := ": " + value;
    var s := Quoted(key) + after;
    QuotedReadsBack(key, after);
    hide Quoted, ReadText;
    NothingToSkip(s);
    OneSpace(s);
    assert after[1..] == " " + value;
    NothingToSkip(after);
  }

  lemma MembersGoOn(text: string)
    requires ReadName(text).Some? && Read(ReadName(text).value.1).Some?
    requires var (_, tail) := Read(ReadName(text).value.1).value; Skip(tail) == tail != ""
    ensures var name := ReadName(text).value.0;
            var (j, tail) := Read(ReadName(text).value.1).value;
            && (tail[0] == '}' ==> ReadMembers(text) == Some(([Member(name, j)], tail[1..])))
            && (tail[0] == ',' && ReadMembers(tail[1..]).Some? ==>
                var (more, rest) := ReadMembers(tail[1..]).value;
                ReadMembers(text) == Some(([Member(name, j)] + more, rest)))
  {
    hide Read, Skip, ReadName;
  }

  lemma {:induction false} MembersReadBack(members: seq<Member>, rest: string)
    requires members != []
    ensures ReadMembers(DumpsMembers(members) + "}" + rest) == Some((members, rest))
    decreases members, 0
  {
    hide Dumps, DumpsMembers, Read, Quoted, ReadName, Skip, ReadMembers, Tail;
    var m, more := members[0], |members| > 1;
    var next := if more then DumpsMembers(members[1..]) else "";
    var tail := Tail(more, next, "}", rest);
    MembersHead(members, rest);
    TailStops(more, next, "}", rest);
    NameReadsBack(m.key, Dumps(m.value) + tail);
    ValueReadsBack(m.value, tail);
    ReadsBack(m.value, tail);
    MembersGoOn(DumpsMembers(members) + "}" + rest);
    assert Member(m.key, m.value) == m;
    if more {
      MembersReadBack(members[1..], rest);
      MembersSkip(members[1..], rest);
      assert members == [m] + members[1..];
    } else {
      assert members == [m];
    }
  }

  /** The space after a colon makes no difference. */
  lemma ValueReadsBack(j: Json, tail: string)
    ensures Read(" " + (Dumps(j) + tail)) == Read(Dumps(j) + tail)
  {
    FirstChar(j);
    assert (Dumps(j) + tail)[0] == Dumps(j)[0];
    hide Dumps, Read;
    ReadSkips(Dumps(j) + tail);
  }

  lemma MembersSkip(members: seq<Member>, rest: string)
    requires members != []
    ensures ReadMembers(" " + (DumpsMembers(members) + "}" + rest)) == ReadMembers(DumpsMembers(members) + "}" + rest)
  {
    var s := DumpsMembers(members) + "}" + rest;
    var m, more := members[0], |members| > 1;
    MembersHead(members, rest);
    hide Dumps, DumpsMembers, Read, Quoted, ReadName;
    NameReadsBack(m.key, Dumps(m.value) + Tail(more, if more then DumpsMembers(members[1..]) else "", "}", rest));
    MembersAfter(" " + s, s);
  }

  lemma MembersAfter(s: string, t: string)
    requires ReadName(s) == ReadName(t)
    ensures ReadMembers(s) == ReadMembers(t)
  {
    hide Read, ReadName;
  }

  /** White space before a value makes no difference. */
  lemma ReadSkips(s: string)
    requires s != "" && s[0] !in {' ', '\t', '\n', '\r'}
    ensures Read(" " + s) == Read(s)
  {
    OneSpace(s);
    NothingToSkip(s);
  }
}
