/**
 Point ids and the opaque scan cursor (`_encode_scan_cursor`, `_decode_scan_cursor` in
 memorybridge/service.py): JSON, then base64url without padding (RFC 4648, sections 3.2 and 5).
 Bytes are characters below 256.
 */
module Cursor {
  import opened Basics
  import opened Json

  datatype PointId = Number(n: nat) | Uuid(text: string)

  /** Qdrant's order of ids: numbers first. */
  predicate IdLeq(a: PointId, b: PointId) {
    match (a, b)
    case (Number(m), Number(n)) => m <= n
    case (Number(_), Uuid(_)) => true
    case (Uuid(_), Number(_)) => false
    case (Uuid(s), Uuid(t)) => StrLeq(s, t)
  }

  predicate IdLess(a: PointId, b: PointId) {
    a != b && IdLeq(a, b)
  }

  lemma IdOrder(a: PointId, b: PointId, c: PointId)
    ensures IdLeq(a, b) || IdLeq(b, a)
    ensures IdLeq(a, b) && IdLeq(b, a) ==> a == b
    ensures IdLeq(a, b) && IdLeq(b, c) ==> IdLeq(a, c)
    ensures IdLeq(a, a)
  {
    if a.Uuid? {
      StrLeqReflexive(a.text);
      if b.Uuid? {
        StrLeqTotal(a.text, b.text);
        if StrLeq(a.text, b.text) && StrLeq(b.text, a.text) {
          StrLeqAntisymmetric(a.text, b.text);
        }
        if c.Uuid? && StrLeq(a.text, b.text) && StrLeq(b.text, c.text) {
          StrLeqTransitive(a.text, b.text, c.text);
        }
      }
    }
  }

  /** Where a scan continues: a collection and the first id to return from it. */
  datatype Position = Position(ci: nat, offset: Option<PointId>)

  function OffsetJson(offset: Option<PointId>): Json {
    match offset
    case None => Null
    case Some(Number(n)) => Num(n)
    case Some(Uuid(s)) => Str(s)
  }

  function CursorText(p: Position): string {
    Print(Obj([Field("ci", Num(p.ci)), Field("offset", OffsetJson(p.offset))]), true)
  }

  // ---- base64url -----------------------------------------------------------------------------------

  function Symbol(n: nat): char
    requires n < 64
  {
    if n < 26 then 'A' + n as char
    else if n < 52 then 'a' + (n - 26) as char
    else if n < 62 then '0' + (n - 52) as char
    else if n == 62 then '-' else '_'
  }

  function SymbolValue(c: char): Option<nat> {
    if 'A' <= c <= 'Z' then Some(c as int - 'A' as int)
    else if 'a' <= c <= 'z' then Some(c as int - 'a' as int + 26)
    else if '0' <= c <= '9' then Some(c as int - '0' as int + 52)
    else if c == '-' then Some(62) else if c == '_' then Some(63) else None
  }

  predicate AreBytes(s: string) {
    forall i :: 0 <= i < |s| ==> s[i] as int < 256
  }

  function Repeat(c: char, n: nat): string {
    if n == 0 then "" else [c] + Repeat(c, n - 1)
  }

  /** The symbols of one to three bytes, without padding. */
  function Group(s: string): string
    requires AreBytes(s) && 1 <= |s| <= 3
  {
    var a := s[0] as int;
    if |s| == 1 then [Symbol(a / 4), Symbol(a % 4 * 16)]
    else
      var b := s[1] as int;
      if |s| == 2 then [Symbol(a / 4), Symbol(a % 4 * 16 + b / 16), Symbol(b % 16 * 4)]
      else
        var c := s[2] as int;
        [Symbol(a / 4), Symbol(a % 4 * 16 + b / 16), Symbol(b % 16 * 4 + c / 64), Symbol(c % 64)]
  }

  function Symbols(s: string): string
    requires AreBytes(s)
  {
    if s == "" then "" else if |s| <= 3 then Group(s) else Group(s[..3]) + Symbols(s[3..])
  }

  function Base64(s: string): string
    requires AreBytes(s)
  {
    Symbols(s) + Repeat('=', (3 - |s| % 3) % 3)
  }

  /** The bytes of four symbols, of which the last two or the last may be padding. */
  function Ungroup(q: string): Option<string>
    requires |q| == 4
  {
    match (SymbolValue(q[0]), SymbolValue(q[1]), SymbolValue(q[2]), SymbolValue(q[3]))
    case (Some(i), Some(j), Some(k), Some(l)) =>
      Some([(i * 4 + j / 16) as char, (j % 16 * 16 + k / 4) as char, (k % 4 * 64 + l) as char])
    case (Some(i), Some(j), Some(k), None) =>
      if q[3] == '=' then Some([(i * 4 + j / 16) as char, (j % 16 * 16 + k / 4) as char]) else None
    case (Some(i), Some(j), None, None) =>
      if q[2] == '=' && q[3] == '=' then Some([(i * 4 + j / 16) as char]) else None
    case _ => None
  }

  function Unbase64(s: string): Option<string> {
    if s == "" then Some("")
    else if |s| < 4 then None
    else
      match (Ungroup(s[..4]), Unbase64(s[4..]))
      case (Some(bytes), Some(rest)) => if |bytes| < 3 && rest != "" then None else Some(bytes + rest)
      case _ => None
  }

  /** `rstrip("=")`. */
  function Stripped(s: string): string {
    if s != "" && s[|s| - 1] == '=' then Stripped(s[..|s| - 1]) else s
  }

  /** `cursor + "=" * (-len(cursor) % 4)`. */
  function Padded(s: string): string {
    s + Repeat('=', (4 - |s| % 4) % 4)
  }

  function EncodeCursor(p: Position): string
    requires AreBytes(CursorText(p))
  {
    Stripped(Base64(CursorText(p)))
  }

  function FieldOf(fields: seq<Field>, key: string): Option<Json> {
    if fields == [] then None else if fields[0].key == key then Some(fields[0].value) else FieldOf(fields[1..], key)
  }

  function OffsetOf(j: Option<Json>): Option<Option<PointId>> {
    match j
    case None => Some(None)
    case Some(Null) => Some(None)
    case Some(Num(n)) => if 0 <= n then Some(Some(Number(n))) else None
    case Some(Str(s)) => Some(Some(Uuid(s)))
    case _ => None
  }

  lemma {:induction false} SetFieldSets(fields: seq<Field>, key: string, value: Json, other: string)
    ensures FieldOf(SetField(fields, key, value), other) == if other == key then Some(value) else FieldOf(fields, other)
  {
    if fields != [] && fields[0].key != key {
      SetFieldSets(fields[1..], key, value, other);
    }
  }

  /** Where an object repeats a name, the last value counts. */
  lemma {:induction false} LastValueCounts(pairs: seq<Field>, k: nat)
    requires k < |pairs| && forall j :: k < j < |pairs| ==> pairs[j].key != pairs[k].key
    ensures FieldOf(Dict(pairs), pairs[k].key) == Some(pairs[k].value)
  {
    var n := |pairs| - 1;
    SetFieldSets(Dict(pairs[..n]), pairs[n].key, pairs[n].value, pairs[k].key);
    if k < n {
      LastValueCounts(pairs[..n], k);
    }
  }

  /** None when the source raises.  An absent or empty cursor starts at the beginning. */
  function DecodeCursor(cursor: Option<string>): Option<Position> {
    if cursor.None? || cursor.value == "" then Some(Position(0, None))
    else
      match Unbase64(Padded(cursor.value))
      case None => None
      case Some(text) =>
        match Loads(text)
        case Some(Obj(fields)) => PositionOf(FieldOf(fields, "ci"), OffsetOf(FieldOf(fields, "offset")))
        case _ => None
  }

  function PositionOf(ci: Option<Json>, offset: Option<Option<PointId>>): Option<Position> {
    match (ci, offset)
    case (Some(Num(n)), Some(o)) => if 0 <= n then Some(Position(n, o)) else None
    case (None, Some(o)) => Some(Position(0, o))
    case _ => None
  }

  // ---- the round trip ------------------------------------------------------------------------------

  lemma SymbolRoundTrip(n: nat)
    requires n < 64
    ensures SymbolValue(Symbol(n)) == Some(n) && Symbol(n) != '='
  {
  }

  /** Splitting bytes into six-bit groups and joining them again; a missing byte counts as 0. */
  lemma BitsRejoin(a: nat, b: nat, c: nat)
    requires a < 256 && b < 256 && c < 256
    ensures (a / 4) * 4 + (a % 4 * 16 + b / 16) / 16 == a
    ensures (a % 4 * 16 + b / 16) % 16 * 16 + (b % 16 * 4 + c / 64) / 4 == b
    ensures (b % 16 * 4 + c / 64) % 4 * 64 + c % 64 == c
  {
  }

  lemma OneByteRoundTrip(s: string)
    requires AreBytes(s) && |s| == 1
    ensures Ungroup(Group(s) + "==") == Some(s)
  {
    var a := s[0] as int;
    SymbolRoundTrip(a / 4);
    SymbolRoundTrip(a % 4 * 16);
    BitsRejoin(a, 0, 0);
    assert Group(s) + "==" == [Symbol(a / 4), Symbol(a % 4 * 16), '=', '='];
    assert s == [s[0]];
  }

  lemma TwoBytesRoundTrip(s: string)
    requires AreBytes(s) && |s| == 2
    ensures Ungroup(Group(s) + "=") == Some(s)
  {
    var a, b := s[0] as int, s[1] as int;
    SymbolRoundTrip(a / 4);
    SymbolRoundTrip(a % 4 * 16 + b / 16);
    SymbolRoundTrip(b % 16 * 4);
    BitsRejoin(a, b, 0);
    assert Group(s) + "=" == [Symbol(a / 4), Symbol(a % 4 * 16 + b / 16), Symbol(b % 16 * 4), '='];
    assert s == [s[0], s[1]];
  }

  lemma ThreeBytesRoundTrip(s: string)
    requires AreBytes(s) && |s| == 3
    ensures Ungroup(Group(s)) == Some(s)
  {
    var a, b, c := s[0] as int, s[1] as int, s[2] as int;
    SymbolRoundTrip(a / 4);
    SymbolRoundTrip(a % 4 * 16 + b / 16);
    SymbolRoundTrip(b % 16 * 4 + c / 64);
    SymbolRoundTrip(c % 64);
    BitsRejoin(a, b, c);
    assert s == [s[0], s[1], s[2]];
  }

  lemma {:induction false} BaseOfShort(s: string)
    requires AreBytes(s) && 1 <= |s| <= 2
    ensures Base64(s) == Group(s) + Repeat('=', 3 - |s|)
  {
    assert Symbols(s) == Group(s);
    if |s| == 1 {
      assert (3 - 1 % 3) % 3 == 2;
    } else {
      assert (3 - 2 % 3) % 3 == 1;
    }
  }

  lemma {:induction false} PaddedGroup(s: string, padding: string)
    requires AreBytes(s) && 1 <= |s| <= 2 && padding == Repeat('=', 3 - |s|)
    requires |Group(s) + padding| == 4 && Ungroup(Group(s) + padding) == Some(s)
    ensures Unbase64(Base64(s)) == Some(s)
  {
    var t := Group(s) + padding;
    BaseOfShort(s);
    assert t + "" == t && s + "" == s;
  }

  lemma ShortRoundTrip(s: string)
    requires AreBytes(s) && 1 <= |s| <= 2
    ensures Unbase64(Base64(s)) == Some(s)
  {
    assert Repeat('=', 1) == "=";
    if |s| == 1 {
      OneByteRoundTrip(s);
      assert Repeat('=', 2) == "==";
      PaddedGroup(s, "==");
    } else {
      TwoBytesRoundTrip(s);
      PaddedGroup(s, "=");
    }
  }

  lemma SymbolsOfLong(head: string, tail: string)
    requires AreBytes(head) && AreBytes(tail) && |head| == 3
    ensures AreBytes(head + tail) && Base64(head + tail) == Group(head) + Base64(tail)
  {
  }

  lemma {:induction false} Base64RoundTrip(s: string)
    requires AreBytes(s)
    ensures Unbase64(Base64(s)) == Some(s)
    decreases |s|
  {
    if 1 <= |s| <= 2 {
      ShortRoundTrip(s);
    } else if |s| >= 3 {
      var head, tail := s[..3], s[3..];
      Base64RoundTrip(tail);
      ThreeBytesRoundTrip(head);
      SymbolsOfLong(head, tail);
      assert s == head + tail;
    }
  }

  lemma SymbolsOfHead(head: string, more: string, n: nat)
    requires '=' !in head && '=' !in more && |head| == 4 && (4 - |more| % 4) % 4 == (3 - n % 3) % 3
    ensures '=' !in head + more && (4 - |head + more| % 4) % 4 == (3 - (n + 3) % 3) % 3
  {
  }

  lemma {:induction false} SymbolsArePlain(s: string)
    requires AreBytes(s)
    ensures '=' !in Symbols(s) && (Symbols(s) == "" <==> s == "")
    ensures (4 - |Symbols(s)| % 4) % 4 == (3 - |s| % 3) % 3
    decreases |s|
  {
    if 0 < |s| <= 3 {
    } else if |s| > 3 {
      SymbolsArePlain(s[3..]);
      SymbolsOfHead(Group(s[..3]), Symbols(s[3..]), |s| - 3);
    }
  }

  lemma RepeatLast(t: string, n: nat)
    requires n > 0
    ensures t + Repeat('=', n) == t + Repeat('=', n - 1) + "="
  {
    RepeatEnds('=', n - 1);
  }

  lemma {:induction false} StripRemoves(t: string, n: nat)
    requires '=' !in t
    ensures Stripped(t + Repeat('=', n)) == t
  {
    if n == 0 {
      assert t + Repeat('=', 0) == t;
    } else {
      StripRemoves(t, n - 1);
      RepeatLast(t, n);
    }
  }

  lemma {:induction false} RepeatEnds(c: char, n: nat)
    ensures Repeat(c, n + 1) == Repeat(c, n) + [c]
  {
    if n > 0 {
      RepeatEnds(c, n - 1);
    }
  }

  /** Recomputing the padding from the length restores what was stripped. */
  lemma {:induction false} PaddingIsRestored(s: string)
    requires AreBytes(s)
    ensures Stripped(Base64(s)) == Symbols(s) && Padded(Stripped(Base64(s))) == Base64(s)
  {
    SymbolsArePlain(s);
    StripRemoves(Symbols(s), (3 - |s| % 3) % 3);
  }

  // ---- cursor text is ASCII ------------------------------------------------------------------------

  predicate IsAscii(s: string) {
    forall i :: 0 <= i < |s| ==> s[i] as int < 128
  }

  lemma {:induction false} EscapeAllIsAscii(s: string)
    ensures IsAscii(EscapeAll(s, true))
  {
    if s != "" {
      EscapeAllIsAscii(s[1..]);
    }
  }

  function CursorFields(p: Position): seq<Field> {
    [Field("ci", Num(p.ci)), Field("offset", OffsetJson(p.offset))]
  }

  lemma CursorTextIs(p: Position)
    ensures CursorText(p) == "{" + (Quote("ci", true) + (":" + (Digits(p.ci) + ("," +
                             (Quote("offset", true) + (":" + (Print(OffsetJson(p.offset), true) + "}")))))))
  {
    var fields, first := CursorFields(p), CursorFields(p)[0];
    var last := [Field("offset", OffsetJson(p.offset))];
    PrintedObject(fields, true, "");
    PrintedFields(first, last, true, "");
    assert fields == [first] + last;
    assert PrintFields(last, true) == Quote("offset", true) + (":" + (Print(OffsetJson(p.offset), true) + "}"));
    assert PrintFields(last, true) + "" == PrintFields(last, true);
    assert Print(first.value, true) == Digits(p.ci);
    assert CursorText(p) == CursorText(p) + "";
  }

  lemma ConcatIsAscii(a: string, b: string)
    requires IsAscii(a) && IsAscii(b)
    ensures IsAscii(a + b)
  {
  }

  lemma OffsetIsAscii(offset: Option<PointId>)
    ensures IsAscii(Print(OffsetJson(offset), true))
  {
    if offset.Some? && offset.value.Uuid? {
      QuoteIsAscii(offset.value.text);
    }
  }

  lemma QuoteIsAscii(s: string)
    ensures IsAscii(Quote(s, true))
  {
    EscapeAllIsAscii(s);
  }

  lemma CursorTextIsAscii(p: Position)
    ensures IsAscii(CursorText(p)) && AreBytes(CursorText(p)) && CursorText(p) != ""
  {
    CursorTextIs(p);
    OffsetIsAscii(p.offset);
    QuoteIsAscii("ci");
    QuoteIsAscii("offset");
    var t1 := Print(OffsetJson(p.offset), true) + "}";
    var t2 := Quote("offset", true) + (":" + t1);
    ConcatIsAscii(":", t1);
    ConcatIsAscii(Quote("offset", true), ":" + t1);
    ConcatIsAscii(",", t2);
    ConcatIsAscii(Digits(p.ci), "," + t2);
    ConcatIsAscii(":", Digits(p.ci) + ("," + t2));
    ConcatIsAscii(Quote("ci", true), ":" + (Digits(p.ci) + ("," + t2)));
    ConcatIsAscii("{", Quote("ci", true) + (":" + (Digits(p.ci) + ("," + t2))));
  }

  lemma FieldsAreWellFormed(p: Position)
    ensures WellFormed(Obj(CursorFields(p)))
  {
    var fields, last := CursorFields(p), [Field("offset", OffsetJson(p.offset))];
    assert WellFormed(OffsetJson(p.offset)) && WellFormed(Num(p.ci));
    assert last[1..] == [];
    assert Keys(last) == ["offset"] && FieldsWellFormed(last);
    assert fields[1..] == last;
  }

  lemma CursorLoads(p: Position)
    ensures Loads(CursorText(p)) == Some(Obj(CursorFields(p)))
    ensures FieldOf(CursorFields(p), "ci") == Some(Num(p.ci))
    ensures FieldOf(CursorFields(p), "offset") == Some(OffsetJson(p.offset))
  {
    FieldsAreWellFormed(p);
    LoadsPrinted(Obj(CursorFields(p)), true);
    assert CursorFields(p)[1..] == [Field("offset", OffsetJson(p.offset))];
  }

  lemma EncodedIsPlain(p: Position)
    ensures AreBytes(CursorText(p)) && EncodeCursor(p) != ""
    ensures Unbase64(Padded(EncodeCursor(p))) == Some(CursorText(p))
  {
    var text := CursorText(p);
    CursorTextIsAscii(p);
    PaddingIsRestored(text);
    SymbolsArePlain(text);
    Base64RoundTrip(text);
  }

  lemma OffsetRoundTrip(offset: Option<PointId>)
    ensures OffsetOf(Some(OffsetJson(offset))) == Some(offset)
  {
  }

  /** No cursor, like an empty one, is the start. */
  lemma NoCursorIsTheStart(cursor: Option<string>)
    ensures cursor == None || cursor == Some("") ==> DecodeCursor(cursor) == Some(Position(0, None))
  {
  }

  /** Decoding an encoded cursor gives back the position, for every index and every kind of offset. */
  lemma CursorRoundTrip(p: Position)
    ensures AreBytes(CursorText(p)) && EncodeCursor(p) != ""
    ensures DecodeCursor(Some(EncodeCursor(p))) == Some(p)
  {
    EncodedIsPlain(p);
    CursorLoads(p);
    OffsetRoundTrip(p.offset);
    assert PositionOf(Some(Num(p.ci)), Some(p.offset)) == Some(p);
  }
}
