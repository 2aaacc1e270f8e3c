/**
 JSON text as Python's `json` module writes and reads it (RFC 8259): compact separators, escapes of section 7,
 integers but no floats.  An object is its list of fields in insertion order.
 */
module Json {
  import opened Basics
  import opened Sorting

  datatype Json =
    | Null
    | Bool(b: bool)
    | Num(n: int)
    | Str(s: string)
    | Arr(items: seq<Json>)
    | Obj(fields: seq<Field>)

  datatype Field = Field(key: string, value: Json)

  // ---- writing -------------------------------------------------------------------------------------

  function HexDigit(n: nat): char
    requires n < 16
  {
    if n < 10 then '0' + n as char else 'a' + (n - 10) as char
  }

  function HexEscape(n: nat): string
    requires n < 0x1_0000
  {
    "\\u" + [HexDigit(n / 4096), HexDigit(n / 256 % 16), HexDigit(n / 16 % 16), HexDigit(n % 16)]
  }

  /** One character between the quotes; `ascii` is the module's `ensure_ascii`. */
  function Escape(c: char, ascii: bool): string {
    if c == '\"' then "\\\""
    else if c == '\\' then "\\\\"
    else if c == '\n' then "\\n"
    else if c == '\r' then "\\r"
    else if c == '\t' then "\\t"
    else if c == '\U{C}' then "\\f"
    else if c == '\U{8}' then "\\b"
    else if c < ' ' then HexEscape(c as int)
    else if ascii && c > '~' then
      if c as int < 0x1_0000 then HexEscape(c as int)
      else HexEscape(0xD800 + (c as int - 0x1_0000) / 0x400) + HexEscape(0xDC00 + (c as int - 0x1_0000) % 0x400)
    else [c]
  }

  /** The characters from the space on stand for themselves, but for quote, backslash and, in ASCII mode, what is not ASCII. */
  lemma EscapeExactly(c: char, ascii: bool)
    ensures Escape(c, ascii) == [c] <==> c >= ' ' && c != '\"' && c != '\\' && (ascii ==> c <= '~')
    ensures c in ['\n', '\r', '\t', '\U{C}', '\U{8}', '\"', '\\'] <==> |Escape(c, ascii)| == 2
  {
  }

  function EscapeAll(s: string, ascii: bool): string {
    if s == "" then "" else Escape(s[0], ascii) + EscapeAll(s[1..], ascii)
  }

  function Quote(s: string, ascii: bool): string {
    "\"" + (EscapeAll(s, ascii) + "\"")
  }

  function PrintInt(n: int): string {
    if n < 0 then "-" + Digits(-n) else Digits(n)
  }

  /** Fields are written in the order they have. */
  function Print(j: Json, ascii: bool): string {
    match j
    case Null => "null"
    case Bool(b) => if b then "true" else "false"
    case Num(n) => PrintInt(n)
    case Str(s) => Quote(s, ascii)
    case Arr(items) => if items == [] then "[]" else "[" + PrintItems(items, ascii)
    case Obj(fields) => if fields == [] then "{}" else "{" + PrintFields(fields, ascii)
  }

  /** The items and the closing bracket. */
  function PrintItems(items: seq<Json>, ascii: bool): string
    requires items != []
  {
    Print(items[0], ascii) + (if |items| == 1 then "]" else "," + PrintItems(items[1..], ascii))
  }

  /** The fields and the closing brace. */
  function PrintFields(fields: seq<Field>, ascii: bool): string
    requires fields != []
  {
    Quote(fields[0].key, ascii) + (":" + (Print(fields[0].value, ascii) +
    (if |fields| == 1 then "}" else "," + PrintFields(fields[1..], ascii))))
  }

  // ---- reading -------------------------------------------------------------------------------------

  function HexValue(c: char): Option<nat> {
    if '0' <= c <= '9' then Some(c as int - '0' as int)
    else if 'a' <= c <= 'f' then Some(c as int - 'a' as int + 10)
    else if 'A' <= c <= 'F' then Some(c as int - 'A' as int + 10)
    else None
  }

  /** The code unit of `\uXXXX` at the start of `s`. */
  function ReadHexEscape(s: string): Option<nat> {
    if |s| < 6 || s[0] != '\\' || s[1] != 'u' then None
    else
      match (HexValue(s[2]), HexValue(s[3]), HexValue(s[4]), HexValue(s[5]))
      case (Some(a), Some(b), Some(c), Some(d)) => Some(a * 4096 + b * 256 + c * 16 + d)
      case _ => None
  }

  /** One character of a string body: the character and how much text it took.  Lone surrogates are not text here. */
  function ReadChar(s: string): Option<(char, nat)>
    requires s != ""
  {
    if s[0] < ' ' || s[0] == '\"' then None
    else if s[0] != '\\' then Some((s[0], 1))
    else if |s| < 2 then None
    else if s[1] == 'u' then
      match ReadHexEscape(s)
      case None => None
      case Some(u) =>
        if u < 0xD800 || 0xE000 <= u < 0x1_0000 then Some((u as char, 6))
        else if 0xD800 <= u < 0xDC00 then
          (match ReadHexEscape(s[6..])
           case Some(v) =>
             if 0xDC00 <= v < 0xE000 then Some(((0x1_0000 + (u - 0xD800) * 0x400 + (v - 0xDC00)) as char, 12)) else None
           case None => None)
        else None
    else
      match s[1]
      case '\"' => Some(('\"', 2))
      case '\\' => Some(('\\', 2))
      case '/' => Some(('/', 2))
      case 'n' => Some(('\n', 2))
      case 'r' => Some(('\r', 2))
      case 't' => Some(('\t', 2))
      case 'f' => Some(('\U{C}', 2))
      case 'b' => Some(('\U{8}', 2))
      case _ => None
  }

  /** The rest of a string after its opening quote, and the text behind its closing quote. */
  function ReadString(s: string): (r: Option<(string, string)>)
    ensures r.Some? ==> |r.value.1| < |s|
    decreases |s|
  {
    if s == "" then None
    else if s[0] == '\"' then Some(("", s[1..]))
    else
      match ReadChar(s)
      case Some((c, n)) =>
        if 1 <= n <= |s| then
          (match ReadString(s[n..])
           case Some((text, rest)) => Some(([c] + text, rest))
           case None => None)
        else None
      case None => None
  }

  predicate IsDigit(c: char) {
    '0' <= c <= '9'
  }

  function LeadingDigits(s: string): (n: nat)
    ensures n <= |s|
    ensures forall i :: 0 <= i < n ==> IsDigit(s[i])
  {
    if s == "" || !IsDigit(s[0]) then 0 else 1 + LeadingDigits(s[1..])
  }

  function ValueOf(digits: string): nat
    requires forall i :: 0 <= i < |digits| ==> IsDigit(digits[i])
  {
    if digits == "" then 0
    else ValueOf(digits[..|digits| - 1]) * 10 + DigitValue(digits[|digits| - 1])
  }

  function DigitValue(c: char): nat
    requires IsDigit(c)
  {
    c as int - '0' as int
  }

  /** Digits without a leading zero; a fraction or exponent would make it a float, which is left out. */
  function ReadNat(s: string): (r: Option<(nat, string)>)
    ensures r.Some? ==> |r.value.1| < |s|
  {
    var n := LeadingDigits(s);
    if n == 0 then None
    else
      var m := if s[0] == '0' then 1 else n;
      if m < |s| && s[m] in ['.', 'e', 'E'] then None else Some((ValueOf(s[..m]), s[m..]))
  }

  function ReadInt(s: string): (r: Option<(int, string)>)
    ensures r.Some? ==> |r.value.1| < |s|
  {
    if s != "" && s[0] == '-' then
      match ReadNat(s[1..])
      case Some((n, rest)) => Some((0 - n, rest))
      case None => None
    else
      match ReadNat(s)
      case Some((n, rest)) => Some((n, rest))
      case None => None
  }

  function SkipSpace(s: string): (r: string)
    ensures |r| <= |s|
  {
    if s != "" && s[0] in [' ', '\t', '\n', '\r'] then SkipSpace(s[1..]) else s
  }

  /** A later field of the same name replaces the value of the earlier one. */
  function SetField(fields: seq<Field>, key: string, value: Json): seq<Field> {
    if fields == [] then [Field(key, value)]
    else if fields[0].key == key then [Field(key, value)] + fields[1..]
    else [fields[0]] + SetField(fields[1..], key, value)
  }

  function Dict(pairs: seq<Field>): seq<Field> {
    if pairs == [] then []
    else SetField(Dict(pairs[..|pairs| - 1]), pairs[|pairs| - 1].key, pairs[|pairs| - 1].value)
  }

  /** A value at the start of `s`, and the text behind it. */
  function ReadValue(s: string): (r: Option<(Json, string)>)
    ensures r.Some? ==> |r.value.1| < |s|
    decreases |s|, 0
  {
    if s == "" then None
    else if s[0] == '\"' then
      match ReadString(s[1..])
      case Some((text, rest)) => Some((Str(text), rest))
      case None => None
    else if s[0] == '[' then
      var t := SkipSpace(s[1..]);
      if t != "" && t[0] == ']' then Some((Arr([]), t[1..]))
      else
        match ReadItems(t)
        case Some((items, rest)) => Some((Arr(items), rest))
        case None => None
    else if s[0] == '{' then
      var t := SkipSpace(s[1..]);
      if t != "" && t[0] == '}' then Some((Obj([]), t[1..]))
      else
        match ReadFields(t)
        case Some((pairs, rest)) => Some((Obj(Dict(pairs)), rest))
        case None => None
    else if "null" <= s then Some((Null, s[4..]))
    else if "true" <= s then Some((Bool(true), s[4..]))
    else if "false" <= s then Some((Bool(false), s[5..]))
    else
      match ReadInt(s)
      case Some((n, rest)) => Some((Num(n), rest))
      case None => None
  }

  /** The items from here to the closing bracket. */
  function ReadItems(s: string): (r: Option<(seq<Json>, string)>)
    ensures r.Some? ==> |r.value.1| < |s|
    decreases |s|, 1
  {
    match ReadValue(s)
    case None => None
    case Some((item, rest)) =>
      var t := SkipSpace(rest);
      if t != "" && t[0] == ']' then Some(([item], t[1..]))
      else if t != "" && t[0] == ',' then
        match ReadItems(SkipSpace(t[1..]))
        case Some((items, end)) => Some(([item] + items, end))
        case None => None
      else None
  }

  /** The fields from here to the closing brace. */
  function ReadFields(s: string): (r: Option<(seq<Field>, string)>)
    ensures r.Some? ==> |r.value.1| < |s|
    decreases |s|, 1
  {
    if s == "" || s[0] != '\"' then None
    else
      match ReadString(s[1..])
      case None => None
      case Some((key, afterKey)) =>
        var t := SkipSpace(afterKey);
        if t == "" || t[0] != ':' then None
        else
          match ReadValue(SkipSpace(t[1..]))
          case None => None
          case Some((value, rest)) =>
            var u := SkipSpace(rest);
            if u != "" && u[0] == '}' then Some(([Field(key, value)], u[1..]))
            else if u != "" && u[0] == ',' then
              match ReadFields(SkipSpace(u[1..]))
              case Some((pairs, end)) => Some(([Field(key, value)] + pairs, end))
              case None => None
            else None
  }

  /** `json.loads`: one value and nothing but space behind it. */
  function Loads(s: string): Option<Json> {
    match ReadValue(SkipSpace(s))
    case Some((j, rest)) => if SkipSpace(rest) == "" then Some(j) else None
    case None => None
  }

  // ---- reading back what was written ---------------------------------------------------------------

  lemma HexRoundTrip(n: nat, rest: string)
    requires n < 0x1_0000
    ensures ReadHexEscape(HexEscape(n) + rest) == Some(n)
  {
    var s := HexEscape(n) + rest;
    assert s[0] == '\\' && s[1] == 'u';
    assert s[2] == HexDigit(n / 4096) && s[3] == HexDigit(n / 256 % 16);
    assert s[4] == HexDigit(n / 16 % 16) && s[5] == HexDigit(n % 16);
    HexDigitsOf(n);
  }

  lemma HexDigitsOf(n: nat)
    requires n < 0x1_0000
    ensures n == n / 4096 * 4096 + n / 256 % 16 * 256 + n / 16 % 16 * 16 + n % 16
  {
    assert n / 256 == n / 4096 * 16 + n / 256 % 16;
    assert n / 16 == n / 256 * 16 + n / 16 % 16;
  }

  lemma SurrogatesRoundTrip(c: char, rest: string)
    requires 0x1_0000 <= c as int
    ensures var u, v := 0xD800 + (c as int - 0x1_0000) / 0x400, 0xDC00 + (c as int - 0x1_0000) % 0x400;
            ReadChar(HexEscape(u) + HexEscape(v) + rest) == Some((c, 12))
  {
    var u, v := 0xD800 + (c as int - 0x1_0000) / 0x400, 0xDC00 + (c as int - 0x1_0000) % 0x400;
    var s := HexEscape(u) + HexEscape(v) + rest;
    assert s == HexEscape(u) + (HexEscape(v) + rest);
    HexRoundTrip(u, HexEscape(v) + rest);
    HexRoundTrip(v, rest);
    assert s[6..] == HexEscape(v) + rest;
  }

  lemma HexCharRoundTrip(c: char, rest: string)
    requires c as int < 0x1_0000
    ensures ReadChar(HexEscape(c as int) + rest) == Some((c, 6))
  {
    HexRoundTrip(c as int, rest);
  }

  ghost predicate CharReadsBack(c: char, ascii: bool, rest: string) {
    ReadChar(Escape(c, ascii) + rest) == Some((c, |Escape(c, ascii)|))
  }

  /** Quote, backslash and the five control characters with a letter of their own. */
  predicate HasShortEscape(c: char) {
    c in ['\"', '\\', '\n', '\r', '\t', '\U{C}', '\U{8}']
  }

  lemma HexEscapeReadsBack(c: char, ascii: bool, rest: string)
    requires (c < ' ' || (ascii && c > '~' && c as int < 0x1_0000)) && !HasShortEscape(c)
    ensures CharReadsBack(c, ascii, rest)
  {
    HexCharRoundTrip(c, rest);
  }

  lemma AstralReadsBack(c: char, rest: string)
    requires c as int >= 0x1_0000
    ensures CharReadsBack(c, true, rest)
  {
    SurrogatesRoundTrip(c, rest);
  }

  lemma CharRoundTrip(c: char, ascii: bool, rest: string)
    ensures CharReadsBack(c, ascii, rest)
  {
    if HasShortEscape(c) {
    } else if c < ' ' || (ascii && c > '~' && c as int < 0x1_0000) {
      HexEscapeReadsBack(c, ascii, rest);
    } else if ascii && c > '~' {
      AstralReadsBack(c, rest);
    } else {
    }
  }

  lemma {:induction false} CharThenString(c: char, ascii: bool, tail: string, text: string, rest: string)
    requires ReadString(tail) == Some((text, rest))
    ensures ReadString(Escape(c, ascii) + tail) == Some(([c] + text, rest))
  {
    var e := Escape(c, ascii);
    CharRoundTrip(c, ascii, tail);
    assert (e + tail)[0] == e[0];
    assert (e + tail)[|e|..] == tail;
  }

  lemma {:induction false} EscapeAllStep(s: string, ascii: bool, rest: string)
    requires s != ""
    ensures EscapeAll(s, ascii) + "\"" + rest == Escape(s[0], ascii) + (EscapeAll(s[1..], ascii) + "\"" + rest)
  {
  }

  lemma {:induction false} StringRoundTrip(s: string, ascii: bool, rest: string)
    ensures ReadString(EscapeAll(s, ascii) + "\"" + rest) == Some((s, rest))
  {
    if s == "" {
    } else {
      StringRoundTrip(s[1..], ascii, rest);
      CharThenString(s[0], ascii, EscapeAll(s[1..], ascii) + "\"" + rest, s[1..], rest);
      EscapeAllStep(s, ascii, rest);
      assert s == [s[0]] + s[1..];
    }
  }

  /** What may follow a written value. */
  predicate Delimited(rest: string) {
    rest == "" || rest[0] in [',', ']', '}', '\n']
  }

  lemma {:induction false} DigitsRead(n: nat)
    ensures ValueOf(Digits(n)) == n
    ensures Digits(n)[0] == '0' <==> n == 0
    ensures n < 10 ==> |Digits(n)| == 1
  {
    if n >= 10 {
      DigitsRead(n / 10);
      assert Digits(n)[..|Digits(n)| - 1] == Digits(n / 10);
    } else {
      assert Digits(n)[..0] == "";
    }
  }

  lemma {:induction false} LeadingDigitsOfConcat(d: string, rest: string)
    requires (forall i :: 0 <= i < |d| ==> IsDigit(d[i])) && Delimited(rest)
    ensures LeadingDigits(d + rest) == |d|
  {
    if d != "" {
      assert (d + rest)[1..] == d[1..] + rest;
      LeadingDigitsOfConcat(d[1..], rest);
    } else {
      assert d + rest == rest;
    }
  }

  lemma {:induction false} NatRoundTrip(n: nat, rest: string)
    requires Delimited(rest)
    ensures ReadNat(Digits(n) + rest) == Some((n, rest))
  {
    var d := Digits(n);
    DigitsRead(n);
    LeadingDigitsOfConcat(d, rest);
    assert (d + rest)[..|d|] == d && (d + rest)[|d|..] == rest;
  }

  lemma NegativeRoundTrip(n: nat, rest: string)
    requires Delimited(rest) && n > 0
    ensures ReadInt(PrintInt(0 - n) + rest) == Some((0 - n, rest))
  {
    var t := Digits(n) + rest;
    NatRoundTrip(n, rest);
    assert PrintInt(0 - n) + rest == "-" + t;
  }

  lemma NaturalRoundTrip(n: nat, rest: string)
    requires Delimited(rest)
    ensures ReadInt(PrintInt(n) + rest) == Some((n, rest))
  {
    var t := Digits(n) + rest;
    NatRoundTrip(n, rest);
    assert t[0] == Digits(n)[0];
  }

  lemma IntRoundTrip(n: int, rest: string)
    requires Delimited(rest)
    ensures ReadInt(PrintInt(n) + rest) == Some((n, rest))
  {
    if n < 0 {
      NegativeRoundTrip(-n, rest);
    } else {
      NaturalRoundTrip(n, rest);
    }
  }

  /** No object repeats a field name. */
  predicate WellFormed(j: Json) {
    match j
    case Arr(items) => AllWellFormed(items)
    case Obj(fields) => FieldsWellFormed(fields)
    case _ => true
  }

  predicate AllWellFormed(items: seq<Json>) {
    items == [] || (WellFormed(items[0]) && AllWellFormed(items[1..]))
  }

  function Keys(fields: seq<Field>): seq<string> {
    if fields == [] then [] else [fields[0].key] + Keys(fields[1..])
  }

  predicate FieldsWellFormed(fields: seq<Field>) {
    fields == [] ||
    (WellFormed(fields[0].value) && fields[0].key !in Keys(fields[1..]) && FieldsWellFormed(fields[1..]))
  }

  predicate StartsValue(c: char) {
    c in ['n', 't', 'f', '-', '\"', '[', '{'] || IsDigit(c)
  }

  lemma {:induction false} PrintStarts(j: Json, ascii: bool, rest: string)
    ensures Print(j, ascii) != "" && StartsValue(Print(j, ascii)[0])
    ensures SkipSpace(Print(j, ascii) + rest) == Print(j, ascii) + rest
  {
  }

  lemma QuoteRoundTrip(s: string, ascii: bool, rest: string)
    ensures var t := Quote(s, ascii) + rest;
            t[0] == '\"' && ReadString(t[1..]) == Some((s, rest)) && SkipSpace(t) == t
  {
    var t := Quote(s, ascii) + rest;
    assert t[1..] == EscapeAll(s, ascii) + "\"" + rest;
    StringRoundTrip(s, ascii, rest);
  }

  lemma {:induction false} SetNewField(fields: seq<Field>, key: string, value: Json)
    requires key !in Keys(fields)
    ensures SetField(fields, key, value) == fields + [Field(key, value)]
  {
    if fields != [] {
      SetNewField(fields[1..], key, value);
      assert fields == [fields[0]] + fields[1..];
    }
  }

  lemma {:induction false} KeysOfInit(fields: seq<Field>)
    requires fields != [] && FieldsWellFormed(fields)
    ensures var init := fields[..|fields| - 1];
            FieldsWellFormed(init) && fields[|fields| - 1].key !in Keys(init)
            && forall k :: k in Keys(init) ==> k in Keys(fields)
  {
    if |fields| > 1 {
      KeysOfInit(fields[1..]);
      var init, tail := fields[..|fields| - 1], fields[1..];
      assert init[1..] == tail[..|tail| - 1];
      KeyOfLast(tail);
    }
  }

  lemma {:induction false} KeyOfLast(fields: seq<Field>)
    requires fields != []
    ensures fields[|fields| - 1].key in Keys(fields)
  {
    if |fields| > 1 {
      KeyOfLast(fields[1..]);
    }
  }

  lemma {:induction false} DictOfDistinct(fields: seq<Field>)
    requires FieldsWellFormed(fields)
    ensures Dict(fields) == fields
  {
    if fields != [] {
      var init, last := fields[..|fields| - 1], fields[|fields| - 1];
      KeysOfInit(fields);
      DictOfDistinct(init);
      SetNewField(init, last.key, last.value);
      assert fields == init + [last];
    }
  }

  lemma {:induction false} LiteralRoundTrip(j: Json, ascii: bool, rest: string)
    requires j.Null? || j.Bool? || j.Num? || j.Str?
    requires Delimited(rest)
    ensures ReadValue(Print(j, ascii) + rest) == Some((j, rest))
  {
    match j
    case Null => WordReadsBack("null", rest);
    case Bool(b) => WordReadsBack(if b then "true" else "false", rest);
    case Num(n) => NumberReadsBack(n, rest);
    case Str(s) => QuoteRoundTrip(s, ascii, rest);
  }

  lemma {:induction false} NumberReadsBack(n: int, rest: string)
    requires Delimited(rest)
    ensures ReadValue(PrintInt(n) + rest) == Some((Num(n), rest))
  {
    var t := PrintInt(n) + rest;
    NumberStarts(n);
    assert t[0] == PrintInt(n)[0];
    IntRoundTrip(n, rest);
    ReadsAsNumber(t);
  }

  lemma {:induction false} NumberStarts(n: int)
    ensures PrintInt(n) != "" && (PrintInt(n)[0] == '-' || IsDigit(PrintInt(n)[0]))
  {
  }

  lemma {:induction false} ReadsAsNumber(t: string)
    requires t != "" && (t[0] == '-' || IsDigit(t[0])) && ReadInt(t).Some?
    ensures ReadValue(t) == Some((Num(ReadInt(t).value.0), ReadInt(t).value.1))
  {
  }

  lemma {:induction false} WordReadsBack(word: string, rest: string)
    requires word == "null" || word == "true" || word == "false"
    ensures ReadValue(word + rest)
         == Some((if word == "null" then Null else Bool(word == "true"), rest))
  {
  }

  lemma {:induction false} ReadsObject(body: string, fields: seq<Field>, rest: string)
    requires body != "" && SkipSpace(body) == body && body[0] != '}' && ReadFields(body) == Some((fields, rest))
    ensures ReadValue("{" + body) == Some((Obj(Dict(fields)), rest))
  {
  }

  lemma {:induction false} ReadsLastItem(s: string, item: Json, rest: string)
    requires ReadValue(s) == Some((item, "]" + rest))
    ensures ReadItems(s) == Some(([item], rest))
  {
  }

  lemma {:induction false} ReadsItem(s: string, item: Json, more: string, items: seq<Json>, rest: string)
    requires ReadValue(s) == Some((item, "," + more)) && SkipSpace(more) == more
    requires ReadItems(more) == Some((items, rest))
    ensures ReadItems(s) == Some(([item] + items, rest))
  {
  }

  lemma {:induction false} ReadsKey(key: string, ascii: bool, value: string)
    requires SkipSpace(value) == value
    ensures var s := Quote(key, ascii) + (":" + value);
            && s != "" && s[0] == '\"' && SkipSpace(s) == s
            && ReadString(s[1..]) == Some((key, ":" + value))
            && SkipSpace(":" + value) == ":" + value && (":" + value)[1..] == value
  {
    QuoteRoundTrip(key, ascii, ":" + value);
  }

  lemma {:induction false} ReadsLastField(key: string, ascii: bool, value: string, j: Json, rest: string)
    requires SkipSpace(value) == value && ReadValue(value) == Some((j, "}" + rest))
    ensures ReadFields(Quote(key, ascii) + (":" + value)) == Some(([Field(key, j)], rest))
  {
    ReadsKey(key, ascii, value);
    assert ("}" + rest)[1..] == rest;
  }

  lemma {:induction false} ReadsField(key: string, ascii: bool, value: string, j: Json, more: string, fields: seq<Field>, rest: string)
    requires SkipSpace(value) == value && ReadValue(value) == Some((j, "," + more)) && SkipSpace(more) == more
    requires ReadFields(more) == Some((fields, rest))
    ensures ReadFields(Quote(key, ascii) + (":" + value)) == Some(([Field(key, j)] + fields, rest))
  {
    ReadsKey(key, ascii, value);
    assert ("," + more)[1..] == more;
  }

  /** `j` is read back from its written form in front of `rest`. */
  ghost predicate ReadsBack(j: Json, ascii: bool, rest: string) {
    ReadValue(Print(j, ascii) + rest) == Some((j, rest))
  }

  ghost predicate ItemsReadBack(items: seq<Json>, ascii: bool, rest: string)
    requires items != []
  {
    var t := PrintItems(items, ascii) + rest;
    ReadItems(t) == Some((items, rest)) && SkipSpace(t) == t && t != "" && t[0] != ']'
  }

  ghost predicate FieldsReadBack(fields: seq<Field>, ascii: bool, rest: string)
    requires fields != []
  {
    var t := PrintFields(fields, ascii) + rest;
    ReadFields(t) == Some((fields, rest)) && SkipSpace(t) == t && t != "" && t[0] != '}'
  }

  lemma {:induction false} PrintedObject(fields: seq<Field>, ascii: bool, rest: string)
    requires fields != []
    ensures Print(Obj(fields), ascii) + rest == "{" + (PrintFields(fields, ascii) + rest)
  {
  }

  lemma {:induction false} PrintedFields(f: Field, fields: seq<Field>, ascii: bool, rest: string)
    requires fields != []
    ensures PrintFields([f] + fields, ascii) + rest
            == Quote(f.key, ascii) + (":" + (Print(f.value, ascii) + ("," + (PrintFields(fields, ascii) + rest))))
  {
  }

  lemma {:induction false} PrintedArray(items: seq<Json>, ascii: bool, rest: string)
    requires items != []
    ensures Print(Arr(items), ascii) + rest == "[" + (PrintItems(items, ascii) + rest)
  {
  }

  lemma {:induction false} PrintedItems(item: Json, items: seq<Json>, ascii: bool, rest: string)
    requires items != []
    ensures PrintItems([item] + items, ascii) + rest == Print(item, ascii) + ("," + (PrintItems(items, ascii) + rest))
  {
  }

  lemma ArrayReadsBack(items: seq<Json>, ascii: bool, rest: string)
    requires items != [] ==> ItemsReadBack(items, ascii, rest)
    ensures ReadsBack(Arr(items), ascii, rest)
  {
    if items == [] {
    } else {
      PrintedArray(items, ascii, rest);
    }
  }

  lemma {:induction false} ObjectReadsBack(fields: seq<Field>, ascii: bool, rest: string)
    requires FieldsWellFormed(fields) && (fields != [] ==> FieldsReadBack(fields, ascii, rest))
    ensures ReadsBack(Obj(fields), ascii, rest)
  {
    if fields == [] {
    } else {
      DictOfDistinct(fields);
      ReadsObject(PrintFields(fields, ascii) + rest, fields, rest);
      PrintedObject(fields, ascii, rest);
    }
  }

  lemma {:induction false} PrintedLastItem(item: Json, ascii: bool, rest: string)
    ensures PrintItems([item], ascii) + rest == Print(item, ascii) + ("]" + rest)
  {
  }

  lemma LastItemReadsBack(item: Json, ascii: bool, rest: string)
    requires ReadsBack(item, ascii, "]" + rest)
    ensures ItemsReadBack([item], ascii, rest)
  {
    var t := PrintItems([item], ascii) + rest;
    PrintedLastItem(item, ascii, rest);
    PrintStarts(item, ascii, "]" + rest);
    ReadsLastItem(t, item, rest);
  }

  lemma {:induction false} ItemReadsBack(item: Json, items: seq<Json>, ascii: bool, rest: string)
    requires items != [] && ItemsReadBack(items, ascii, rest)
    requires ReadsBack(item, ascii, "," + (PrintItems(items, ascii) + rest))
    ensures ItemsReadBack([item] + items, ascii, rest)
  {
    var t, more := PrintItems([item] + items, ascii) + rest, PrintItems(items, ascii) + rest;
    PrintedItems(item, items, ascii, rest);
    PrintStarts(item, ascii, "," + more);
    ReadsItem(t, item, more, items, rest);
  }

  lemma LastFieldReadsBack(f: Field, ascii: bool, rest: string)
    requires ReadsBack(f.value, ascii, "}" + rest)
    ensures FieldsReadBack([f], ascii, rest)
  {
    var t, value := PrintFields([f], ascii) + rest, Print(f.value, ascii) + ("}" + rest);
    assert t == Quote(f.key, ascii) + (":" + value);
    PrintStarts(f.value, ascii, "}" + rest);
    ReadsKey(f.key, ascii, value);
    ReadsLastField(f.key, ascii, value, f.value, rest);
    assert f == Field(f.key, f.value);
  }

  lemma {:induction false} FieldReadsBack(f: Field, fields: seq<Field>, ascii: bool, rest: string)
    requires fields != [] && FieldsReadBack(fields, ascii, rest)
    requires ReadsBack(f.value, ascii, "," + (PrintFields(fields, ascii) + rest))
    ensures FieldsReadBack([f] + fields, ascii, rest)
  {
    var t, more := PrintFields([f] + fields, ascii) + rest, PrintFields(fields, ascii) + rest;
    var value := Print(f.value, ascii) + ("," + more);
    PrintedFields(f, fields, ascii, rest);
    assert t == Quote(f.key, ascii) + (":" + value);
    PrintStarts(f.value, ascii, "," + more);
    ReadsKey(f.key, ascii, value);
    ReadsField(f.key, ascii, value, f.value, more, fields, rest);
    assert f == Field(f.key, f.value);
  }

  lemma {:induction false} ValueRoundTrip(j: Json, ascii: bool, rest: string)
    requires WellFormed(j) && Delimited(rest)
    ensures ReadsBack(j, ascii, rest)
    decreases j, 0
  {
    match j
    case Arr(items) =>
      if items != [] {
        ItemsRoundTrip(items, ascii, rest);
      }
      ArrayReadsBack(items, ascii, rest);
    case Obj(fields) =>
      if fields != [] {
        FieldsRoundTrip(fields, ascii, rest);
      }
      ObjectReadsBack(fields, ascii, rest);
    case _ => LiteralRoundTrip(j, ascii, rest);
  }

  lemma {:induction false} ItemsRoundTrip(items: seq<Json>, ascii: bool, rest: string)
    requires items != [] && AllWellFormed(items)
    ensures ItemsReadBack(items, ascii, rest)
    decreases items, 1
  {
    if |items| == 1 {
      ValueRoundTrip(items[0], ascii, "]" + rest);
      LastItemReadsBack(items[0], ascii, rest);
      assert items == [items[0]];
    } else {
      ItemsRoundTrip(items[1..], ascii, rest);
      ValueRoundTrip(items[0], ascii, "," + (PrintItems(items[1..], ascii) + rest));
      ItemReadsBack(items[0], items[1..], ascii, rest);
      assert items == [items[0]] + items[1..];
    }
  }

  lemma {:induction false} FieldsRoundTrip(fields: seq<Field>, ascii: bool, rest: string)
    requires fields != [] && FieldsWellFormed(fields)
    ensures FieldsReadBack(fields, ascii, rest)
    decreases fields, 1
  {
    if |fields| == 1 {
      ValueRoundTrip(fields[0].value, ascii, "}" + rest);
      LastFieldReadsBack(fields[0], ascii, rest);
      assert fields == [fields[0]];
    } else {
      FieldsRoundTrip(fields[1..], ascii, rest);
      ValueRoundTrip(fields[0].value, ascii, "," + (PrintFields(fields[1..], ascii) + rest));
      FieldReadsBack(fields[0], fields[1..], ascii, rest);
      assert fields == [fields[0]] + fields[1..];
    }
  }

  /** Reading what was written gives the value back. */
  lemma {:induction false} LoadsPrinted(j: Json, ascii: bool)
    requires WellFormed(j)
    ensures Loads(Print(j, ascii)) == Some(j)
  {
    assert Print(j, ascii) + "" == Print(j, ascii);
    PrintStarts(j, ascii, "");
    ValueRoundTrip(j, ascii, "");
  }
}
