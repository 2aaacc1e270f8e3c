/**
 The portable export of a collection (memorybridge/snapshot.py): one canonical JSON line for each point, written
 page by page, and read back to be fingerprinted again.
 */
module Export {
  import opened Basics
  import opened Sorting
  import opened Json
  import opened Cursor
  import opened Scan
  import Fingerprint

  // ---- canonical records ---------------------------------------------------------------------------

  /** Python's truth value. */
  predicate Truthy(j: Json) {
    match j
    case Null => false
    case Bool(b) => b
    case Num(n) => n != 0
    case Str(s) => s != ""
    case Arr(items) => items != []
    case Obj(fields) => fields != []
  }

  const ByKey := (a: Field, b: Field) => StrLeq(a.key, b.key)

  /** `sort_keys=True`, at every level. */
  function SortKeys(j: Json): Json {
    match j
    case Arr(items) => Arr(SortItems(items))
    case Obj(fields) => Obj(Sort(SortValues(fields), ByKey))
    case _ => j
  }

  function SortItems(items: seq<Json>): seq<Json> {
    if items == [] then [] else [SortKeys(items[0])] + SortItems(items[1..])
  }

  function SortValues(fields: seq<Field>): seq<Field> {
    if fields == [] then []
    else [Field(fields[0].key, SortKeys(fields[0].value))] + SortValues(fields[1..])
  }

  function PayloadOf(payload: Option<Json>): Json {
    if payload.Some? && Truthy(payload.value) then payload.value else Obj([])
  }

  /** The id and payload of a point; a payload without truth value becomes the empty object. */
  function Portable(fields: seq<Field>): (j: Json)
    ensures j.Obj?
  {
    Obj([Field("id", FieldOf(fields, "id").GetOr(Null)), Field("payload", PayloadOf(FieldOf(fields, "payload")))])
  }

  /** `_canonical_point`. */
  function Canonical(fields: seq<Field>): string {
    Print(SortKeys(Portable(fields)), false)
  }

  function PointFields(p: Point): seq<Field> {
    [Field("id", OffsetJson(Some(p.id))), Field("payload", p.payload)]
  }

  // ---- lines ---------------------------------------------------------------------------------------

  function Line(p: Point): string {
    Canonical(PointFields(p)) + "\n"
  }

  function LinesOf(c: seq<Point>): seq<string> {
    Map(c, Line)
  }

  /** The text of the export. */
  function Lines(c: seq<Point>): string {
    Joined(LinesOf(c))
  }

  function BeforeBreak(text: string): (n: nat)
    ensures n <= |text|
  {
    if text == "" || text[0] in ['\n', '\r'] then 0 else 1 + BeforeBreak(text[1..])
  }

  /** Reading a text file line by line: `\r` and `\r\n` end a line as `\n` does. */
  function FileLines(text: string): seq<string>
    decreases |text|
  {
    var n := BeforeBreak(text);
    if text == "" then []
    else if n == |text| then [text]
    else if text[n] == '\r' && n + 1 < |text| && text[n + 1] == '\n' then [text[..n] + "\n"] + FileLines(text[n + 2..])
    else [text[..n] + "\n"] + FileLines(text[n + 1..])
  }

  // ---- fingerprints --------------------------------------------------------------------------------

  type Digest = string -> nat

  function ValueOf(digest: Digest): Point -> nat {
    p => digest(Canonical(PointFields(p)))
  }

  function Values(c: seq<Point>, digest: Digest): seq<nat> {
    Map(c, ValueOf(digest))
  }

  function PrintOf(c: seq<Point>, digest: Digest): Fingerprint.Print {
    Fingerprint.Of(Values(c, digest))
  }

  /** What one line adds: nothing if blank, an error if it holds no object. */
  datatype LineValue = Skipped | Value(n: nat) | Bad

  function ReadLine(line: string, digest: Digest): LineValue {
    if Blank(line) then Skipped
    else
      match Loads(line)
      case Some(Obj(fields)) => Value(digest(Canonical(fields)))
      case _ => Bad
  }

  function Reader(digest: Digest): string -> LineValue {
    line => ReadLine(line, digest)
  }

  /** The values of the lines, None when one is bad. */
  function Gathered(lines: seq<string>, read: string -> LineValue): Option<seq<nat>> {
    if lines == [] then Some([])
    else
      match (Gathered(lines[..|lines| - 1], read), read(lines[|lines| - 1]))
      case (Some(values), Skipped) => Some(values)
      case (Some(values), Value(n)) => Some(values + [n])
      case _ => None
  }

  function LineValues(lines: seq<string>, digest: Digest): Option<seq<nat>> {
    Gathered(lines, Reader(digest))
  }

  lemma {:induction false} BadLineSpoils(lines: seq<string>, read: string -> LineValue, k: nat)
    requires k < |lines| && read(lines[k]).Bad?
    ensures Gathered(lines, read).None?
  {
    if k < |lines| - 1 {
      BadLineSpoils(lines[..|lines| - 1], read, k);
    }
  }

  /** `state` is the fingerprint of the first `k` lines, none of which is bad. */
  ghost predicate ReadSoFar(lines: seq<string>, k: nat, read: string -> LineValue, state: Fingerprint.Print)
    requires k <= |lines|
  {
    var values := Gathered(lines[..k], read);
    values.Some? && state == Fingerprint.Of(values.value)
  }

  lemma ReadsOne(lines: seq<string>, k: nat, read: string -> LineValue, state: Fingerprint.Print)
    requires k < |lines| && ReadSoFar(lines, k, read, state)
    ensures read(lines[k]).Skipped? ==> ReadSoFar(lines, k + 1, read, state)
    ensures read(lines[k]).Value? ==> ReadSoFar(lines, k + 1, read, Fingerprint.Add(state, read(lines[k]).n))
  {
    assert lines[..k + 1][..k] == lines[..k] && lines[..k + 1][k] == lines[k];
    var values := Gathered(lines[..k], read).value;
    if read(lines[k]).Value? {
      var n := read(lines[k]).n;
      assert (values + [n])[..|values|] == values;
    }
  }

  method FingerprintExport(text: string, digest: Digest) returns (r: Option<Fingerprint.Print>)
    ensures r == match LineValues(FileLines(text), digest)
                 case None => None
                 case Some(values) => Some(Fingerprint.Of(values))
  {
    var lines := FileLines(text);
    var state := Fingerprint.EMPTY;
    for k := 0 to |lines|
      invariant ReadSoFar(lines, k, Reader(digest), state)
    {
      ReadsOne(lines, k, Reader(digest), state);
      if Blank(lines[k]) {
        continue;
      }
      var point := Loads(lines[k]);
      if point.None? || !point.value.Obj? {
        BadLineSpoils(lines, Reader(digest), k);
        return None;
      }
      state := Fingerprint.Add(state, digest(Canonical(point.value.fields)));
    }
    assert lines[..|lines|] == lines;
    r := Some(state);
  }

  lemma NotLess(c: seq<Point>, k: nat, i: nat)
    requires Ordered(c) && k <= i < |c|
    ensures !IdLess(c[i].id, c[k].id)
  {
    if k < i {
      IdOrder(c[k].id, c[i].id, c[i].id);
    }
  }

  lemma SameBoundary(c: seq<Point>, k: nat, n: nat)
    requires k < |c| && n <= |c|
    requires forall i :: 0 <= i < n ==> IdLess(c[i].id, c[k].id)
    requires forall i :: n <= i < |c| ==> !IdLess(c[i].id, c[k].id)
    requires forall i :: 0 <= i < k ==> IdLess(c[i].id, c[k].id)
    requires forall i :: k <= i < |c| ==> !IdLess(c[i].id, c[k].id)
    ensures n == k
  {
    assert n < |c| ==> !IdLess(c[n].id, c[k].id);
    assert !IdLess(c[k].id, c[k].id);
  }

  lemma BoundaryIs(c: seq<Point>, k: nat, n: nat)
    requires Ordered(c) && k < |c| && n <= |c|
    requires forall i :: 0 <= i < n ==> IdLess(c[i].id, c[k].id)
    requires forall i :: n <= i < |c| ==> !IdLess(c[i].id, c[k].id)
    ensures n == k
  {
    assert forall i :: k <= i < |c| ==> !IdLess(c[i].id, c[k].id) by {
      forall i | k <= i < |c| ensures !IdLess(c[i].id, c[k].id) {
        NotLess(c, k, i);
      }
    }
    assert forall i :: 0 <= i < k ==> IdLess(c[i].id, c[k].id);
    SameBoundary(c, k, n);
  }

  lemma {:induction false} FromAt(c: seq<Point>, k: nat)
    requires Ordered(c) && k < |c|
    ensures From(c, Some(c[k].id)) == c[k..]
  {
    FromIsTail(c, Some(c[k].id));
    BoundaryIs(c, k, |c| - |From(c, Some(c[k].id))|);
  }

  /** The export builds the portable record once, prints it, and fingerprints that record again. */
  function ExportedLine(p: Point): string {
    Print(SortKeys(Portable(PointFields(p))), false) + "\n"
  }

  function ExportedValue(p: Point, digest: Digest): nat {
    digest(Canonical(Portable(PointFields(p)).fields))
  }

  ghost predicate Exported(c: seq<Point>, k: nat, digest: Digest, text: string, state: Fingerprint.Print)
    requires k <= |c|
  {
    text == Lines(c[..k]) && state == PrintOf(c[..k], digest)
  }

  lemma {:induction false} MapMore<S, T>(s: seq<S>, k: nat, f: S -> T)
    requires k < |s|
    ensures Map(s[..k + 1], f) == Map(s[..k], f) + [f(s[k])]
  {
  }

  lemma ExportsOne(c: seq<Point>, k: nat, digest: Digest, text: string, state: Fingerprint.Print)
    requires k < |c| && Exported(c, k, digest, text, state)
    ensures Exported(c, k + 1, digest, text + ExportedLine(c[k]), Fingerprint.Add(state, ExportedValue(c[k], digest)))
  {
    PortableTwice(c[k]);
    MapMore(c, k, Line);
    MapMore(c, k, ValueOf(digest));
  }

  method ExportOne(c: seq<Point>, k: nat, digest: Digest, text0: string, state0: Fingerprint.Print)
    returns (text: string, state: Fingerprint.Print)
    requires k < |c| && Exported(c, k, digest, text0, state0)
    ensures Exported(c, k + 1, digest, text, state)
  {
    ExportsOne(c, k, digest, text0, state0);
    text := text0 + ExportedLine(c[k]);
    state := Fingerprint.Add(state0, ExportedValue(c[k], digest));
  }

  /** A page of 500 points written and added up. */
  method ExportPage(c: seq<Point>, start: nat, digest: Digest, text0: string, state0: Fingerprint.Print)
    returns (text: string, state: Fingerprint.Print, next: nat)
    requires start <= |c| && Exported(c, start, digest, text0, state0)
    ensures next == Min(start + 500, |c|) && Exported(c, next, digest, text, state)
  {
    text, state, next := text0, state0, start;
    while next < |c| && next < start + 500
      invariant start <= next <= Min(start + 500, |c|) && Exported(c, next, digest, text, state)
    {
      text, state := ExportOne(c, next, digest, text, state);
      next := next + 1;
    }
  }

  /** If all payloads are well formed, each line of the file is the record of its point. */
  ghost predicate HoldsRecords(text: string, c: seq<Point>) {
    (forall k :: 0 <= k < |c| ==> WellFormed(c[k].payload)) ==>
      |FileLines(text)| == |c| && forall k :: 0 <= k < |c| ==>
        Loads(FileLines(text)[k]).Some? && IsRecordOf(Loads(FileLines(text)[k]).value, c[k])
  }

  lemma LinesHoldRecords(c: seq<Point>, digest: Digest)
    ensures HoldsRecords(Lines(c), c)
  {
    if forall k :: 0 <= k < |c| ==> WellFormed(c[k].payload) {
      ExportReadsBack(c, digest);
    }
  }

  /** The whole export and its fingerprint, gathered page by page in scroll order. */
  method ExportLines(c: seq<Point>, digest: Digest) returns (text: string, state: Fingerprint.Print)
    requires Ordered(c)
    ensures text == Lines(c) && state == PrintOf(c, digest)
    ensures HoldsRecords(text, c)
  {
    text, state := "", Fingerprint.EMPTY;
    var offset: Option<PointId> := None;
    var next := 0;
    assert c[..0] == [] && c[0..] == c;
    while true
      invariant next <= |c| && Exported(c, next, digest, text, state) && From(c, offset) == c[next..]
      decreases |c| - next
    {
      var found := From(c, offset);
      text, state, next := ExportPage(c, |c| - |found|, digest, text, state);
      if next == |c| {
        assert c[..next] == c;
        break;
      }
      FromAt(c, next);
      offset := Some(c[next].id);
    }
    LinesHoldRecords(c, digest);
  }

  // ---- the export reads back -----------------------------------------------------------------------

  lemma FieldsOfTwo(id: Json, payload: Json)
    ensures var f := [Field("id", id), Field("payload", payload)];
            FieldOf(f, "id") == Some(id) && FieldOf(f, "payload") == Some(payload)
  {
  }

  lemma PortableTwice(p: Point)
    ensures Portable(Portable(PointFields(p)).fields) == Portable(PointFields(p))
  {
    FieldsOfTwo(OffsetJson(Some(p.id)), p.payload);
    FieldsOfTwo(OffsetJson(Some(p.id)), PayloadOf(Some(p.payload)));
  }

  // Sorting keys keeps a value well formed, and once sorted a value stays as it is.

  ghost predicate DistinctKeys(fields: seq<Field>) {
    forall i, j :: 0 <= i < j < |fields| ==> fields[i].key != fields[j].key
  }

  ghost predicate ValuesWellFormed(fields: seq<Field>) {
    forall i :: 0 <= i < |fields| ==> WellFormed(fields[i].value)
  }

  lemma {:induction false} KeysAre(fields: seq<Field>)
    ensures |Keys(fields)| == |fields| && forall i :: 0 <= i < |fields| ==> Keys(fields)[i] == fields[i].key
  {
    if fields != [] {
      KeysAre(fields[1..]);
    }
  }

  lemma {:induction false} FieldsAre(fields: seq<Field>)
    ensures FieldsWellFormed(fields) <==> DistinctKeys(fields) && ValuesWellFormed(fields)
  {
    if fields != [] {
      var tail := fields[1..];
      FieldsAre(tail);
      KeysAre(tail);
      assert fields == [fields[0]] + tail;
      if DistinctKeys(fields) && ValuesWellFormed(fields) {
        assert forall i :: 0 <= i < |tail| ==> tail[i] == fields[i + 1];
        assert FieldsWellFormed(tail);
        assert forall i :: 0 <= i < |tail| ==> Keys(tail)[i] != fields[0].key;
      }
      if FieldsWellFormed(fields) {
        forall j | 0 < j < |fields| ensures fields[0].key != fields[j].key {
          assert Keys(tail)[j - 1] == fields[j].key;
        }
      }
    }
  }

  lemma ByKeyIsTotal()
    ensures TotalPreorder(ByKey)
  {
    forall a: Field, b: Field ensures ByKey(a, b) || ByKey(b, a) {
      StrLeqTotal(a.key, b.key);
    }
    forall a: Field, b: Field, c: Field | ByKey(a, b) && ByKey(b, c) ensures ByKey(a, c) {
      StrLeqTransitive(a.key, b.key, c.key);
    }
  }

  lemma {:induction false} SortKeepsKeysDistinct(fields: seq<Field>)
    requires DistinctKeys(fields)
    ensures DistinctKeys(Sort(fields, ByKey))
    ensures ValuesWellFormed(fields) ==> ValuesWellFormed(Sort(fields, ByKey))
  {
    ByKeyIsTotal();
    SortFacts(fields, ByKey);
    var s := Sort(fields, ByKey);
    forall i, j | 0 <= i < j < |s| ensures s[i].key != s[j].key {
      assert s[i] in fields && s[j] in fields && s[i] != s[j];
    }
    if ValuesWellFormed(fields) {
      forall i | 0 <= i < |s| ensures WellFormed(s[i].value) {
        assert s[i] in fields;
      }
    }
  }

  lemma {:induction false} SortValuesAt(fields: seq<Field>)
    ensures |SortValues(fields)| == |fields|
    ensures forall i :: 0 <= i < |fields| ==> SortValues(fields)[i] == Field(fields[i].key, SortKeys(fields[i].value))
  {
    if fields != [] {
      SortValuesAt(fields[1..]);
    }
  }

  lemma {:induction false} SortedIsSorted(fields: seq<Field>)
    requires Sorted(fields, ByKey)
    ensures Sort(fields, ByKey) == fields
  {
    if fields != [] {
      SortedIsSorted(fields[1..]);
      assert fields == [fields[0]] + fields[1..];
      assert |fields| > 1 ==> ByKey(fields[0], fields[1]);
    }
  }

  lemma {:induction false} SortedFieldsWellFormed(fields: seq<Field>)
    requires FieldsWellFormed(fields) && ValuesWellFormed(SortValues(fields))
    ensures FieldsWellFormed(Sort(SortValues(fields), ByKey))
  {
    FieldsAre(fields);
    SortValuesAt(fields);
    SortKeepsKeysDistinct(SortValues(fields));
    FieldsAre(Sort(SortValues(fields), ByKey));
  }

  lemma {:induction false} SortKeysWellFormed(j: Json)
    requires WellFormed(j)
    ensures WellFormed(SortKeys(j))
    decreases j, 0
  {
    match j
    case Arr(items) => SortItemsWellFormed(items);
    case Obj(fields) =>
      SortValuesWellFormed(fields);
      SortedFieldsWellFormed(fields);
    case _ =>
  }

  lemma {:induction false} SortItemsWellFormed(items: seq<Json>)
    requires AllWellFormed(items)
    ensures AllWellFormed(SortItems(items))
    decreases items, 1
  {
    if items != [] {
      SortKeysWellFormed(items[0]);
      SortItemsWellFormed(items[1..]);
      assert SortItems(items)[1..] == SortItems(items[1..]);
    }
  }

  lemma {:induction false} SortValuesWellFormed(fields: seq<Field>)
    requires FieldsWellFormed(fields)
    ensures ValuesWellFormed(SortValues(fields))
    decreases fields, 1
  {
    if fields != [] {
      SortKeysWellFormed(fields[0].value);
      SortValuesWellFormed(fields[1..]);
    }
  }

  lemma {:induction false} SortedTwice(fields: seq<Field>)
    requires |SortValues(fields)| == |fields|
    requires forall i :: 0 <= i < |fields| ==> SortKeys(SortValues(fields)[i].value) == SortValues(fields)[i].value
    ensures SortKeys(SortKeys(Obj(fields))) == SortKeys(Obj(fields))
  {
    var v := SortValues(fields);
    var s := Sort(v, ByKey);
    ByKeyIsTotal();
    SortFacts(v, ByKey);
    SortValuesAt(s);
    forall i | 0 <= i < |s| ensures SortValues(s)[i] == s[i] {
      assert s[i] in v;
    }
    assert SortValues(s) == s;
    SortedIsSorted(s);
  }

  lemma {:induction false} SortKeysTwice(j: Json)
    ensures SortKeys(SortKeys(j)) == SortKeys(j)
    decreases j, 0
  {
    match j
    case Arr(items) => SortItemsTwice(items);
    case Obj(fields) =>
      SortValuesTwice(fields);
      SortedTwice(fields);
    case _ =>
  }

  lemma {:induction false} SortItemsTwice(items: seq<Json>)
    ensures SortItems(SortItems(items)) == SortItems(items)
    decreases items, 1
  {
    if items != [] {
      SortKeysTwice(items[0]);
      SortItemsTwice(items[1..]);
      assert SortItems(items)[1..] == SortItems(items[1..]);
    }
  }

  lemma {:induction false} SortValuesTwice(fields: seq<Field>)
    ensures |SortValues(fields)| == |fields|
    ensures forall i :: 0 <= i < |fields| ==> SortKeys(SortValues(fields)[i].value) == SortValues(fields)[i].value
    decreases fields, 1
  {
    if fields != [] {
      SortKeysTwice(fields[0].value);
      SortValuesTwice(fields[1..]);
    }
  }

  // No printed character is a control character, so a record stays on its line.

  ghost predicate Plain(s: string) {
    forall i :: 0 <= i < |s| ==> s[i] >= ' '
  }

  lemma PlainConcat(a: string, b: string)
    requires Plain(a) && Plain(b)
    ensures Plain(a + b)
  {
  }

  lemma {:induction false} EscapedIsPlain(s: string)
    ensures Plain(EscapeAll(s, false))
  {
    if s != "" {
      EscapedIsPlain(s[1..]);
      PlainConcat(Escape(s[0], false), EscapeAll(s[1..], false));
    }
  }

  lemma QuotedIsPlain(s: string)
    ensures Plain(Quote(s, false))
  {
    EscapedIsPlain(s);
    PlainConcat(EscapeAll(s, false), "\"");
    PlainConcat("\"", EscapeAll(s, false) + "\"");
  }

  lemma {:induction false} PrintedIsPlain(j: Json)
    ensures Plain(Print(j, false))
    decreases j, 0
  {
    match j
    case Str(s) => QuotedIsPlain(s);
    case Arr(items) =>
      if items != [] {
        ItemsArePlain(items);
        PlainConcat("[", PrintItems(items, false));
      }
    case Obj(fields) =>
      if fields != [] {
        FieldsArePlain(fields);
        PlainConcat("{", PrintFields(fields, false));
      }
    case _ =>
  }

  lemma {:induction false} ItemsArePlain(items: seq<Json>)
    requires items != []
    ensures Plain(PrintItems(items, false))
    decreases items, 1
  {
    PrintedIsPlain(items[0]);
    if |items| == 1 {
      PlainConcat(Print(items[0], false), "]");
    } else {
      ItemsArePlain(items[1..]);
      PlainConcat(",", PrintItems(items[1..], false));
      PlainConcat(Print(items[0], false), "," + PrintItems(items[1..], false));
    }
  }

  lemma {:induction false} FieldsArePlain(fields: seq<Field>)
    requires fields != []
    ensures Plain(PrintFields(fields, false))
    decreases fields, 1
  {
    var more := if |fields| == 1 then "}" else "," + PrintFields(fields[1..], false);
    if |fields| > 1 {
      FieldsArePlain(fields[1..]);
      PlainConcat(",", PrintFields(fields[1..], false));
    }
    PrintedIsPlain(fields[0].value);
    QuotedIsPlain(fields[0].key);
    PlainConcat(Print(fields[0].value, false), more);
    PlainConcat(":", Print(fields[0].value, false) + more);
    PlainConcat(Quote(fields[0].key, false), ":" + (Print(fields[0].value, false) + more));
  }

  lemma {:induction false} BreaksAfter(s: string, rest: string)
    requires Plain(s)
    ensures BeforeBreak(s + "\n" + rest) == |s|
  {
    var t := s + "\n" + rest;
    if s != "" {
      assert t[1..] == s[1..] + "\n" + rest;
      BreaksAfter(s[1..], rest);
    }
  }

  lemma {:induction false} BreakIsThere(s: string, rest: string)
    requires (forall i :: 0 <= i < |s| ==> s[i] != '\n' && s[i] != '\r') && rest != "" && rest[0] in ['\n', '\r']
    ensures BeforeBreak(s + rest) == |s|
  {
    if s != "" {
      assert (s + rest)[1..] == s[1..] + rest;
      BreakIsThere(s[1..], rest);
    } else {
      assert s + rest == rest;
    }
  }

  /** Each kind of line break ends a line, and the line is read as if it ended with `\n`. */
  lemma {:induction false} AnyBreakEnds(s: string, mark: string, rest: string)
    requires forall i :: 0 <= i < |s| ==> s[i] != '\n' && s[i] != '\r'
    requires mark == "\n" || mark == "\r\n" || (mark == "\r" && (rest == "" || rest[0] != '\n'))
    ensures FileLines(s + mark + rest) == [s + "\n"] + FileLines(rest)
  {
    var t := s + mark + rest;
    BreakIsThere(s, mark + rest);
    assert t == s + (mark + rest);
    assert t[..|s|] == s && t[|s|] == mark[0] && t[|s| + |mark|..] == rest;
    if mark == "\r" {
      assert |s| + 1 < |t| ==> t[|s| + 1] == rest[0];
    }
    if mark == "\r\n" {
      assert t[|s| + 1] == '\n';
    }
  }

  lemma {:induction false} FirstLine(s: string, rest: string)
    requires Plain(s)
    ensures FileLines(s + "\n" + rest) == [s + "\n"] + FileLines(rest)
  {
    var t := s + "\n" + rest;
    BreaksAfter(s, rest);
    assert t[..|s|] == s && t[|s| + 1..] == rest;
  }

  lemma {:induction false} JoinedFromFront(parts: seq<string>)
    requires parts != []
    ensures Joined(parts) == parts[0] + Joined(parts[1..])
  {
    var n := |parts| - 1;
    if n > 0 {
      JoinedFromFront(parts[..n]);
      assert parts[..n][1..] == parts[1..][..n - 1] && parts[1..][n - 1] == parts[n];
      assert parts[0] + Joined(parts[1..n]) + parts[n] == parts[0] + (Joined(parts[1..n]) + parts[n]);
    } else {
      assert parts[..0] == [] && parts[1..] == [];
      assert "" + parts[0] == parts[0] + "";
    }
  }

  lemma LinesFromFront(c: seq<Point>)
    requires c != []
    ensures Lines(c) == Line(c[0]) + Lines(c[1..])
  {
    JoinedFromFront(LinesOf(c));
    assert LinesOf(c)[1..] == LinesOf(c[1..]);
  }

  /** Reading the file line by line gives the lines that were written. */
  lemma {:induction false} FileLinesOfExport(c: seq<Point>)
    ensures FileLines(Lines(c)) == LinesOf(c)
  {
    if c != [] {
      var record := Canonical(PointFields(c[0]));
      LinesFromFront(c);
      PrintedIsPlain(SortKeys(Portable(PointFields(c[0]))));
      assert Lines(c) == record + "\n" + Lines(c[1..]);
      FirstLine(record, Lines(c[1..]));
      FileLinesOfExport(c[1..]);
      assert LinesOf(c) == [Line(c[0])] + LinesOf(c[1..]);
    }
  }

  // Each line reads back as the record it was written from.

  lemma {:induction false} TwoFieldsStay(id: Json, payload: Json)
    ensures SortKeys(Obj([Field("id", id), Field("payload", payload)]))
            == Obj([Field("id", SortKeys(id)), Field("payload", SortKeys(payload))])
  {
    var f := [Field("id", id), Field("payload", payload)];
    var g := [Field("id", SortKeys(id)), Field("payload", SortKeys(payload))];
    SortValuesAt(f);
    assert SortValues(f) == g;
    assert StrLeq("id", "payload");
    SortedIsSorted(g);
  }

  /** The canonical text of a record read back is the text it was read from. */
  lemma CanonicalAgain(p: Point)
    ensures SortKeys(Portable(PointFields(p))).Obj?
    ensures Canonical(SortKeys(Portable(PointFields(p))).fields) == Canonical(PointFields(p))
  {
    var id, payload := OffsetJson(Some(p.id)), PayloadOf(Some(p.payload));
    FieldsOfTwo(id, p.payload);
    TwoFieldsStay(id, payload);
    FieldsOfTwo(SortKeys(id), SortKeys(payload));
    SortKeysTwice(Portable(PointFields(p)));
  }

  lemma PortableWellFormed(p: Point)
    requires WellFormed(p.payload)
    ensures WellFormed(Portable(PointFields(p)))
  {
    var id, payload := OffsetJson(Some(p.id)), PayloadOf(Some(p.payload));
    FieldsOfTwo(id, p.payload);
    FieldsAre([Field("id", id), Field("payload", payload)]);
  }

  lemma LineReadsBack(p: Point)
    requires WellFormed(p.payload)
    ensures Loads(Line(p)) == Some(SortKeys(Portable(PointFields(p)))) && !Blank(Line(p))
  {
    var j := SortKeys(Portable(PointFields(p)));
    PortableWellFormed(p);
    SortKeysWellFormed(Portable(PointFields(p)));
    ValueRoundTrip(j, false, "\n");
    PrintStarts(j, false, "\n");
    assert SkipSpace("\n") == "" by {
      assert "\n"[1..] == "";
    }
    NotBlank(Print(j, false), "\n");
  }

  lemma NotBlank(s: string, rest: string)
    requires s != "" && StartsValue(s[0])
    ensures !Blank(s + rest)
  {
    assert (s + rest)[0] == s[0];
  }

  lemma LineYieldsValue(p: Point, digest: Digest)
    requires WellFormed(p.payload)
    ensures ReadLine(Line(p), digest) == Value(digest(Canonical(PointFields(p))))
  {
    LineReadsBack(p);
    CanonicalAgain(p);
  }

  lemma {:induction false} GatheredIs(lines: seq<string>, read: string -> LineValue, values: seq<nat>)
    requires |lines| == |values| && forall k :: 0 <= k < |lines| ==> read(lines[k]) == Value(values[k])
    ensures Gathered(lines, read) == Some(values)
  {
    if lines != [] {
      var n := |lines| - 1;
      GatheredIs(lines[..n], read, values[..n]);
      assert values == values[..n] + [values[n]];
    }
  }

  lemma {:induction false} LinesReadBack(c: seq<Point>, digest: Digest)
    requires forall k :: 0 <= k < |c| ==> WellFormed(c[k].payload)
    ensures LineValues(LinesOf(c), digest) == Some(Values(c, digest))
  {
    forall k | 0 <= k < |c| ensures Reader(digest)(LinesOf(c)[k]) == Value(Values(c, digest)[k]) {
      LineYieldsValue(c[k], digest);
    }
    GatheredIs(LinesOf(c), Reader(digest), Values(c, digest));
  }

  /**
   Re-reading the export file gives the fingerprint that was computed while writing it, and each line is the record of
   its point.
   */
  lemma {:induction false} ExportReadsBack(c: seq<Point>, digest: Digest)
    requires forall k :: 0 <= k < |c| ==> WellFormed(c[k].payload)
    ensures LineValues(FileLines(Lines(c)), digest) == Some(Values(c, digest))
    ensures |FileLines(Lines(c))| == |c| && forall k :: 0 <= k < |c| ==>
              Loads(FileLines(Lines(c))[k]).Some? && IsRecordOf(Loads(FileLines(Lines(c))[k]).value, c[k])
  {
    FileLinesOfExport(c);
    LinesReadBack(c, digest);
    forall k | 0 <= k < |c| ensures Loads(LinesOf(c)[k]).Some? && IsRecordOf(Loads(LinesOf(c)[k]).value, c[k]) {
      LineReadsBack(c[k]);
      RecordIs(c[k]);
    }
  }

  // ---- equal up to the order of fields -------------------------------------------------------------

  /** The same value, if the order of fields does not count at any level. */
  ghost predicate Alike(a: Json, b: Json)
    decreases a, 0
  {
    match (a, b)
    case (Arr(x), Arr(y)) => |x| == |y| && forall k :: 0 <= k < |x| && k < |y| ==> Alike(x[k], y[k])
    case (Obj(x), Obj(y)) =>
      |x| == |y| && Matched(x, y) && MatchedBack(x, y)
    case _ => a == b
  }

  /** Each field of `x` has its like in `y` ... */
  ghost predicate Matched(x: seq<Field>, y: seq<Field>)
    decreases x, 1
  {
    forall i :: 0 <= i < |x| ==> exists j :: 0 <= j < |y| && x[i].key == y[j].key && Alike(x[i].value, y[j].value)
  }

  /** ... and each field of `y` in `x`. */
  ghost predicate MatchedBack(x: seq<Field>, y: seq<Field>)
    decreases x, 1
  {
    forall j :: 0 <= j < |y| ==> exists i :: 0 <= i < |x| && x[i].key == y[j].key && Alike(x[i].value, y[j].value)
  }

  /** Every object has its fields in the order of their keys. */
  ghost predicate KeysInOrder(j: Json) {
    match j
    case Arr(items) => forall k :: 0 <= k < |items| ==> KeysInOrder(items[k])
    case Obj(fields) => Sorted(fields, ByKey) && forall k :: 0 <= k < |fields| ==> KeysInOrder(fields[k].value)
    case _ => true
  }

  lemma {:induction false} SortItemsAt(items: seq<Json>)
    ensures |SortItems(items)| == |items| && forall k :: 0 <= k < |items| ==> SortItems(items)[k] == SortKeys(items[k])
  {
    if items != [] {
      SortItemsAt(items[1..]);
    }
  }

  lemma {:induction false} AllWellFormedAt(items: seq<Json>, k: nat)
    requires AllWellFormed(items) && k < |items|
    ensures WellFormed(items[k])
  {
    if k > 0 {
      AllWellFormedAt(items[1..], k - 1);
    }
  }

  lemma {:induction false} SortedFieldsDistinct(fields: seq<Field>)
    requires FieldsWellFormed(fields)
    ensures DistinctKeys(SortValues(fields)) && ValuesWellFormed(fields)
  {
    FieldsAre(fields);
    SortValuesAt(fields);
  }

  /** Sorting the fields only depends on which fields there are. */
  lemma {:induction false} SortIgnoresOrder(x: seq<Field>, y: seq<Field>)
    requires DistinctKeys(x) && DistinctKeys(y) && forall f :: f in x <==> f in y
    ensures Sort(x, ByKey) == Sort(y, ByKey)
  {
    ByKeyIsTotal();
    SortFacts(x, ByKey);
    SortFacts(y, ByKey);
    DistinctAre(x);
    DistinctAre(y);
    DistinctKeysOrder(x);
    SortedIsUnique(Sort(x, ByKey), Sort(y, ByKey), ByKey);
  }

  lemma DistinctAre(x: seq<Field>)
    requires DistinctKeys(x)
    ensures Distinct(x)
  {
  }

  /** Sorting keys is a normal form for that: two values are sorted to the same one exactly if they are alike. */
  lemma {:induction false} SortKeysExactly(a: Json, b: Json)
    requires WellFormed(a) && WellFormed(b)
    ensures SortKeys(a) == SortKeys(b) <==> Alike(a, b)
    decreases a
  {
    match (a, b)
    case (Arr(x), Arr(y)) =>
      SortItemsAt(x);
      SortItemsAt(y);
      forall k | 0 <= k < |x| && k < |y| ensures SortKeys(x[k]) == SortKeys(y[k]) <==> Alike(x[k], y[k]) {
        AllWellFormedAt(x, k);
        AllWellFormedAt(y, k);
        SortKeysExactly(x[k], y[k]);
      }
      assert SortItems(x) == SortItems(y) <==> |x| == |y| && forall k :: 0 <= k < |x| && k < |y| ==> SortKeys(x[k]) == SortKeys(y[k]);
    case (Obj(x), Obj(y)) =>
      SortedFieldsDistinct(x);
      SortedFieldsDistinct(y);
      forall i, j | 0 <= i < |x| && 0 <= j < |y| ensures SortedAlike(x[i].value, y[j].value) {
        SortKeysExactly(x[i].value, y[j].value);
      }
      FieldsSortedAlike(x, y);
      ObjectsSortedAlike(x, y);
    case _ =>
  }

  /** Whether two values are sorted to the same one is whether they are alike. */
  ghost predicate SortedAlike(a: Json, b: Json) {
    SortKeys(a) == SortKeys(b) <==> Alike(a, b)
  }

  ghost predicate AllSortedAlike(x: seq<Field>, y: seq<Field>) {
    forall i, j :: 0 <= i < |x| && 0 <= j < |y| ==> SortedAlike(x[i].value, y[j].value)
  }

  /** These two fields are sorted to the same one exactly if they have one key and are alike. */
  lemma {:induction false} FieldSortedAlike(x: seq<Field>, y: seq<Field>, i: nat, j: nat)
    requires AllSortedAlike(x, y) && i < |x| && j < |y|
    ensures |SortValues(x)| == |x| && |SortValues(y)| == |y|
    ensures SortValues(x)[i] == SortValues(y)[j] <==> x[i].key == y[j].key && Alike(x[i].value, y[j].value)
  {
    SortValuesAt(x);
    SortValuesAt(y);
    assert SortedAlike(x[i].value, y[j].value);
  }

  ghost predicate Within(v: seq<Field>, w: seq<Field>) {
    forall f :: f in v ==> f in w
  }

  lemma {:induction false} MatchedIsSorted(x: seq<Field>, y: seq<Field>)
    requires AllSortedAlike(x, y)
    ensures Matched(x, y) <==> Within(SortValues(x), SortValues(y))
  {
    SortValuesAt(x);
    SortValuesAt(y);
    if Matched(x, y) {
      forall i | 0 <= i < |x| ensures SortValues(x)[i] in SortValues(y) {
        var j :| 0 <= j < |y| && x[i].key == y[j].key && Alike(x[i].value, y[j].value);
        FieldSortedAlike(x, y, i, j);
      }
    }
    if Within(SortValues(x), SortValues(y)) {
      forall i | 0 <= i < |x| ensures exists j :: 0 <= j < |y| && x[i].key == y[j].key && Alike(x[i].value, y[j].value) {
        assert SortValues(x)[i] in SortValues(y);
        var j :| 0 <= j < |y| && SortValues(y)[j] == SortValues(x)[i];
        FieldSortedAlike(x, y, i, j);
      }
    }
  }

  lemma {:induction false} MatchedBackIsSorted(x: seq<Field>, y: seq<Field>)
    requires AllSortedAlike(x, y)
    ensures MatchedBack(x, y) <==> Within(SortValues(y), SortValues(x))
  {
    SortValuesAt(x);
    SortValuesAt(y);
    if MatchedBack(x, y) {
      forall j | 0 <= j < |y| ensures SortValues(y)[j] in SortValues(x) {
        var i :| 0 <= i < |x| && x[i].key == y[j].key && Alike(x[i].value, y[j].value);
        FieldSortedAlike(x, y, i, j);
      }
    }
    if Within(SortValues(y), SortValues(x)) {
      forall j | 0 <= j < |y| ensures exists i :: 0 <= i < |x| && x[i].key == y[j].key && Alike(x[i].value, y[j].value) {
        assert SortValues(y)[j] in SortValues(x);
        var i :| 0 <= i < |x| && SortValues(x)[i] == SortValues(y)[j];
        FieldSortedAlike(x, y, i, j);
      }
    }
  }

  lemma {:induction false} SortIsSame(v: seq<Field>, w: seq<Field>)
    requires DistinctKeys(v) && DistinctKeys(w)
    ensures Sort(v, ByKey) == Sort(w, ByKey) <==> Within(v, w) && Within(w, v)
    ensures Sort(v, ByKey) == Sort(w, ByKey) ==> |v| == |w|
  {
    ByKeyIsTotal();
    SortFacts(v, ByKey);
    SortFacts(w, ByKey);
    if Within(v, w) && Within(w, v) {
      SortIgnoresOrder(v, w);
    }
  }

  lemma {:induction false} FieldsSortedAlike(x: seq<Field>, y: seq<Field>)
    requires DistinctKeys(SortValues(x)) && DistinctKeys(SortValues(y)) && AllSortedAlike(x, y)
    ensures Sort(SortValues(x), ByKey) == Sort(SortValues(y), ByKey) <==> |x| == |y| && Matched(x, y) && MatchedBack(x, y)
  {
    SortValuesAt(x);
    SortValuesAt(y);
    SortIsSame(SortValues(x), SortValues(y));
    MatchedIsSorted(x, y);
    MatchedBackIsSorted(x, y);
    assert Within(SortValues(x), SortValues(y)) <==> Matched(x, y);
  }

  lemma {:induction false} ObjectsSortedAlike(x: seq<Field>, y: seq<Field>)
    requires Sort(SortValues(x), ByKey) == Sort(SortValues(y), ByKey) <==> |x| == |y| && Matched(x, y) && MatchedBack(x, y)
    ensures SortKeys(Obj(x)) == SortKeys(Obj(y)) <==> Alike(Obj(x), Obj(y))
  {
  }

  /** And it only puts fields in order. */
  lemma {:induction false} SortKeysIsAlike(j: Json)
    requires WellFormed(j)
    ensures Alike(j, SortKeys(j)) && KeysInOrder(SortKeys(j))
  {
    SortKeysWellFormed(j);
    SortKeysTwice(j);
    SortKeysExactly(j, SortKeys(j));
    SortKeysInOrder(j);
  }

  lemma {:induction false} SortKeysInOrder(j: Json)
    ensures KeysInOrder(SortKeys(j))
    decreases j
  {
    match j
    case Arr(items) =>
      SortItemsAt(items);
      forall k | 0 <= k < |items| ensures KeysInOrder(SortItems(items)[k]) {
        SortKeysInOrder(items[k]);
      }
    case Obj(fields) =>
      forall k | 0 <= k < |fields| ensures KeysInOrder(SortKeys(fields[k].value)) {
        SortKeysInOrder(fields[k].value);
      }
      FieldsInOrder(fields);
    case _ =>
  }

  lemma {:induction false} FieldsInOrder(fields: seq<Field>)
    requires forall k :: 0 <= k < |fields| ==> KeysInOrder(SortKeys(fields[k].value))
    ensures KeysInOrder(Obj(Sort(SortValues(fields), ByKey)))
  {
    var v := SortValues(fields);
    SortValuesAt(fields);
    ByKeyIsTotal();
    SortFacts(v, ByKey);
    forall f | f in v ensures KeysInOrder(f.value) {
      var k :| 0 <= k < |v| && v[k] == f;
      assert KeysInOrder(SortKeys(fields[k].value));
    }
    var s := Sort(v, ByKey);
    forall k | 0 <= k < |s| ensures KeysInOrder(s[k].value) {
      assert s[k] in v;
    }
  }

  // ---- what a line says ----------------------------------------------------------------------------

  /** The values that Python takes for false. */
  predicate Empty(j: Json) {
    j == Null || j == Bool(false) || j == Num(0) || j == Str("") || j == Arr([]) || j == Obj([])
  }

  /** Two payloads that mean the same record: alike, or both empty. */
  ghost predicate SamePayload(a: Json, b: Json) {
    Alike(a, b) || (Empty(a) && Empty(b))
  }

  ghost predicate SameRecord(p: Point, q: Point) {
    p.id == q.id && SamePayload(p.payload, q.payload)
  }

  /** An object with the fields id and payload and no others, which hold the point's id and payload. */
  ghost predicate IsRecordOf(j: Json, p: Point) {
    && j.Obj? && |j.fields| == 2 && j.fields[0].key == "id" && j.fields[1].key == "payload"
    && j.fields[0].value == (match p.id case Number(n) => Num(n) case Uuid(text) => Str(text))
    && (if Empty(p.payload) then j.fields[1].value == Obj([]) else Alike(p.payload, j.fields[1].value))
  }

  lemma SortedRecord(p: Point)
    ensures SortKeys(Portable(PointFields(p)))
            == Obj([Field("id", OffsetJson(Some(p.id))), Field("payload", SortKeys(PayloadOf(Some(p.payload))))])
  {
    FieldsOfTwo(OffsetJson(Some(p.id)), p.payload);
    TwoFieldsStay(OffsetJson(Some(p.id)), PayloadOf(Some(p.payload)));
  }

  lemma RecordIs(p: Point)
    requires WellFormed(p.payload)
    ensures IsRecordOf(SortKeys(Portable(PointFields(p))), p)
  {
    SortedRecord(p);
    SortKeysIsAlike(p.payload);
    PayloadIs(p.payload);
  }

  lemma PayloadIs(j: Json)
    ensures PayloadOf(Some(j)) == if Empty(j) then Obj([]) else j
    ensures SortKeys(Obj([])) == Obj([])
  {
    assert Sort(SortValues([]), ByKey) == [];
  }

  lemma {:induction false} EmptyAlone(a: Json, b: Json)
    requires Alike(a, b)
    ensures Empty(a) <==> Empty(b)
  {
  }

  lemma RecordsAgree(p: Point, q: Point)
    requires WellFormed(p.payload) && WellFormed(q.payload)
    ensures SortKeys(Portable(PointFields(p))) == SortKeys(Portable(PointFields(q))) <==> SameRecord(p, q)
  {
    var a, b := PayloadOf(Some(p.payload)), PayloadOf(Some(q.payload));
    SortedRecord(p);
    SortedRecord(q);
    PayloadsAgree(p.payload, q.payload);
    assert p.id == q.id <==> OffsetJson(Some(p.id)) == OffsetJson(Some(q.id));
  }

  lemma {:induction false} PayloadsAgree(a: Json, b: Json)
    requires WellFormed(a) && WellFormed(b)
    ensures SortKeys(PayloadOf(Some(a))) == SortKeys(PayloadOf(Some(b))) <==> SamePayload(a, b)
  {
    PayloadIs(a);
    PayloadIs(b);
    SortKeysExactly(PayloadOf(Some(a)), PayloadOf(Some(b)));
    if Alike(a, b) {
      EmptyAlone(a, b);
    }
    if Alike(PayloadOf(Some(a)), PayloadOf(Some(b))) {
      EmptyAlone(PayloadOf(Some(a)), PayloadOf(Some(b)));
    }
  }

  // ---- what the fingerprint certifies --------------------------------------------------------------

  /** Objects that differ in the order of their fields alone are the same record. */
  lemma FieldOrderIsImmaterial(a: seq<Field>, b: seq<Field>)
    requires DistinctKeys(a) && DistinctKeys(b) && forall f :: f in a <==> f in b
    ensures SortKeys(Obj(a)) == SortKeys(Obj(b))
  {
    SortValuesAt(a);
    SortValuesAt(b);
    SameSorted(a, b);
    SameSorted(b, a);
    SortIgnoresOrder(SortValues(a), SortValues(b));
  }

  lemma {:induction false} DistinctKeysOrder(x: seq<Field>)
    requires DistinctKeys(x)
    ensures forall f, g :: f in Sort(x, ByKey) && g in Sort(x, ByKey) && ByKey(f, g) && ByKey(g, f) ==> f == g
  {
    ByKeyIsTotal();
    SortFacts(x, ByKey);
    forall f, g | f in Sort(x, ByKey) && g in Sort(x, ByKey) && ByKey(f, g) && ByKey(g, f) ensures f == g {
      StrLeqAntisymmetric(f.key, g.key);
      var i :| 0 <= i < |x| && x[i] == f;
      var j :| 0 <= j < |x| && x[j] == g;
    }
  }

  lemma {:induction false} SameSorted(a: seq<Field>, b: seq<Field>)
    requires forall f :: f in a ==> f in b
    ensures forall f :: f in SortValues(a) ==> f in SortValues(b)
  {
    SortValuesAt(a);
    SortValuesAt(b);
    forall f | f in SortValues(a) ensures f in SortValues(b) {
      var i :| 0 <= i < |a| && SortValues(a)[i] == f;
      assert a[i] in b;
      var j :| 0 <= j < |b| && b[j] == a[i];
      assert SortValues(b)[j] == f;
    }
  }

  /** Canonical texts are equal exactly for the same record. */
  lemma CanonicalIdentifies(p: Point, q: Point)
    requires WellFormed(p.payload) && WellFormed(q.payload)
    ensures Canonical(PointFields(p)) == Canonical(PointFields(q)) <==> SameRecord(p, q)
  {
    LineReadsBack(p);
    LineReadsBack(q);
    RecordsAgree(p, q);
  }

  /** What is asked of the digest: 256 bits for these two texts, and no collision between them. */
  predicate TellsApart(digest: Digest, s: string, t: string) {
    digest(s) < Fingerprint.MODULUS && digest(t) < Fingerprint.MODULUS && (digest(s) == digest(t) ==> s == t)
  }

  lemma {:induction false} MapWithout<S, T>(s: seq<S>, k: nat, f: S -> T)
    requires k < |s|
    ensures Map(s[..k] + s[k + 1..], f) == Map(s, f)[..k] + Map(s, f)[k + 1..]
  {
  }

  lemma ValuesOfMore(c: seq<Point>, digest: Digest, k: nat)
    requires k < |c|
    ensures multiset(Values(c[..k] + c[k + 1..], digest)) == multiset(Values(c, digest)) - multiset{ValueOf(digest)(c[k])}
    ensures multiset(Values(c, digest)) == multiset(Values(c[..k] + c[k + 1..], digest)) + multiset{ValueOf(digest)(c[k])}
  {
    MapWithout(c, k, ValueOf(digest));
    WithoutOne(Values(c, digest), k);
    assert Values(c, digest)[k] in multiset(Values(c, digest));
  }

  /** Scroll order does not matter. */
  lemma FingerprintIgnoresOrder(a: seq<Point>, b: seq<Point>, digest: Digest)
    requires multiset(a) == multiset(b)
    ensures PrintOf(a, digest) == PrintOf(b, digest)
  {
    ValuesIgnoreOrder(a, b, digest);
    Fingerprint.OrderIndependent(Values(a, digest), Values(b, digest));
  }

  lemma {:induction false} ValuesIgnoreOrder(a: seq<Point>, b: seq<Point>, digest: Digest)
    requires multiset(a) == multiset(b)
    ensures multiset(Values(a, digest)) == multiset(Values(b, digest))
  {
    if a == [] {
      assert |b| == |multiset(b)| == 0;
    } else {
      var n := |a| - 1;
      assert a[n] in multiset(b);
      var k :| 0 <= k < |b| && b[k] == a[n];
      WithoutOne(b, k);
      WithoutOne(a, n);
      ValuesIgnoreOrder(a[..n] + a[n + 1..], b[..k] + b[k + 1..], digest);
      ValuesOfMore(a, digest, n);
      ValuesOfMore(b, digest, k);
    }
  }

  /** Unless the two canonical texts collide, replacing one record by a different one always shows. */
  lemma AlteredRecordShows(c: seq<Point>, k: nat, q: Point, digest: Digest)
    requires k < |c| && WellFormed(c[k].payload) && WellFormed(q.payload)
    requires TellsApart(digest, Canonical(PointFields(c[k])), Canonical(PointFields(q)))
    ensures PrintOf(c[k := q], digest) == PrintOf(c, digest) <==> SameRecord(q, c[k])
  {
    var d := c[k := q];
    var rest := c[..k] + c[k + 1..];
    assert d[..k] + d[k + 1..] == rest;
    ValuesOfMore(c, digest, k);
    ValuesOfMore(d, digest, k);
    var v, w := digest(Canonical(PointFields(c[k]))), digest(Canonical(PointFields(q)));
    Fingerprint.OneAlteredIsDetected(Values(d, digest), Values(c, digest), multiset(Values(rest, digest)), w, v);
    CanonicalIdentifies(q, c[k]);
  }

  /** So does removing or inserting one. */
  lemma MissingRecordShows(c: seq<Point>, k: nat, digest: Digest)
    requires k < |c|
    ensures PrintOf(c[..k] + c[k + 1..], digest) != PrintOf(c, digest)
  {
    ValuesOfMore(c, digest, k);
    Fingerprint.OneMoreIsDetected(Values(c[..k] + c[k + 1..], digest), Values(c, digest), digest(Canonical(PointFields(c[k]))));
  }
}
