/**
 Reading on from a cursor (`since` in memorybridge/service.py): the ordered scroll, and the fallback that sorts
 what an unordered scroll of at most `Cap` matching points returns.
 */
module Since {
  import opened Basics
  import opened Records
  import opened Sorting
  import opened Rows
  import opened Protocol

  function Cap(limit: nat): nat {
    Max(limit * 10, 1000)
  }

  /** The filter `seq > cursor`, in scroll order. */
  function Matches(rows: seq<Row>, cursor: int): seq<Row> {
    if rows == [] then []
    else if rows[0].Serial() > cursor then [rows[0]] + Matches(rows[1..], cursor)
    else Matches(rows[1..], cursor)
  }

  const BySerial := (a: Row, b: Row) => a.Serial() <= b.Serial()

  function First(rows: seq<Row>, n: nat): seq<Row> {
    rows[..Min(n, |rows|)]
  }

  function Fetched(rows: seq<Row>, cursor: int, limit: nat, ordered: bool): seq<Row> {
    if ordered then First(Sort(Matches(rows, cursor), BySerial), limit + 1)
    else Sort(First(Matches(rows, cursor), Cap(limit)), BySerial)
  }

  function Highest(cursor: int, items: seq<Row>): int {
    if items == [] then cursor else Max(items[0].Serial(), Highest(cursor, items[1..]))
  }

  datatype SincePage = SincePage(items: seq<Row>, cursor: int, hasMore: bool)

  function PageOf(cursor: int, limit: nat, points: seq<Row>): SincePage {
    SincePage(First(points, limit), Highest(cursor, First(points, limit)), |points| > limit)
  }

  /** `ordered` is false when the store refuses the ordered scroll. */
  function SinceReply(rows: seq<Row>, cursor: int, limit: nat, ordered: bool): SincePage {
    PageOf(cursor, limit, Fetched(rows, cursor, limit, ordered))
  }

  ghost predicate DistinctSerials(rows: seq<Row>) {
    forall i, j :: 0 <= i < j < |rows| ==> rows[i].Serial() != rows[j].Serial()
  }

  function Ids(rows: seq<Row>): (ids: seq<string>)
    ensures |ids| == |rows| && forall k :: 0 <= k < |rows| ==> ids[k] == rows[k].id
  {
    if rows == [] then [] else [rows[0].id] + Ids(rows[1..])
  }

  lemma {:induction false} MatchesAre(rows: seq<Row>, cursor: int)
    requires Ordered(rows) && DistinctSerials(rows)
    ensures forall row :: row in Matches(rows, cursor) <==> row in rows && row.Serial() > cursor
    ensures Distinct(Matches(rows, cursor)) && DistinctSerials(Matches(rows, cursor))
  {
    if rows != [] {
      MatchesAre(rows[1..], cursor);
      assert rows == [rows[0]] + rows[1..];
      forall row | row in Matches(rows[1..], cursor) ensures row.Serial() != rows[0].Serial() {
        var k :| 0 <= k < |rows[1..]| && rows[1..][k] == row;
        assert rows[k + 1] == row;
      }
    }
  }

  /** Ascending serials, hence each row once. */
  ghost predicate StrictlyUp(rows: seq<Row>) {
    forall i, j :: 0 <= i < j < |rows| ==> rows[i].Serial() < rows[j].Serial()
  }

  lemma {:induction false} SortedMatches(rows: seq<Row>, cursor: int)
    requires Ordered(rows) && DistinctSerials(rows)
    ensures var s := Sort(Matches(rows, cursor), BySerial);
            && StrictlyUp(s) && |s| == |Matches(rows, cursor)|
            && forall row :: row in s <==> row in rows && row.Serial() > cursor
  {
    MatchesAre(rows, cursor);
    SortFacts(Matches(rows, cursor), BySerial);
    var s, m := Sort(Matches(rows, cursor), BySerial), Matches(rows, cursor);
    forall i, j | 0 <= i < j < |s| ensures s[i].Serial() < s[j].Serial() {
      assert BySerial(s[i], s[j]) && s[i] != s[j] && s[i] in m && s[j] in m;
    }
  }

  /** With few matches the fallback fetches the same points, so both replies agree. */
  lemma {:induction false} FewMatchesAgree(rows: seq<Row>, cursor: int, limit: nat)
    requires |Matches(rows, cursor)| <= Cap(limit)
    ensures SinceReply(rows, cursor, limit, false) == SinceReply(rows, cursor, limit, true)
  {
    var m := Matches(rows, cursor);
    SortIsPermutation(m, BySerial);
    assert |Sort(m, BySerial)| == |multiset(Sort(m, BySerial))| == |multiset(m)| == |m|;
    assert First(m, Cap(limit)) == m;
    assert First(First(Sort(m, BySerial), limit + 1), limit) == First(Sort(m, BySerial), limit);
  }

  lemma {:induction false} HighestIsLast(cursor: int, items: seq<Row>)
    requires StrictlyUp(items) && forall k :: 0 <= k < |items| ==> items[k].Serial() > cursor
    ensures Highest(cursor, items) == if items == [] then cursor else items[|items| - 1].Serial()
  {
    if items != [] {
      HighestIsLast(cursor, items[1..]);
    }
  }

  /** `s` lists the rows above the cursor. */
  ghost predicate Lists(s: seq<Row>, rows: seq<Row>, cursor: int) {
    StrictlyUp(s) && forall row :: row in s <==> row in rows && row.Serial() > cursor
  }

  lemma HeldBackAreLater(rows: seq<Row>, cursor: int, s: seq<Row>, n: nat, row: Row)
    requires Lists(s, rows, cursor) && row in rows && row.Serial() > cursor && row.id !in Ids(First(s, n))
    ensures n < |s| && forall i :: 0 <= i < n ==> s[i].Serial() < row.Serial()
  {
  }

  lemma {:induction false} PrefixIsInRaw(rows: seq<Row>, cursor: int, s: seq<Row>, n: nat, k: nat)
    requires Ordered(rows) && Lists(s, rows, cursor) && k < |First(s, n)|
    ensures var row := First(s, n)[k];
            row in rows && row.Serial() > cursor && row.id in AsMap(rows) && AsMap(rows)[row.id] == row.record
  {
    AsMapHolds(rows);
    assert First(s, n)[k] in s;
  }

  lemma {:induction false} PrefixIsOrderedPage(rows: seq<Row>, cursor: int, s: seq<Row>, n: nat)
    requires Ordered(rows) && Lists(s, rows, cursor)
    ensures OrderedPage(AsMap(rows), cursor, n, Ids(First(s, n)))
  {
    var raw, page, ids := AsMap(rows), First(s, n), Ids(First(s, n));
    forall k | 0 <= k < |page|
      ensures ids[k] in raw && raw[ids[k]] == s[k].record && s[k].Serial() > cursor
    {
      PrefixIsInRaw(rows, cursor, s, n, k);
    }
    forall id | id in raw && cursor < raw[id].Serial() && id !in ids
      ensures |page| == n && forall i :: 0 <= i < |page| ==> s[i].Serial() < raw[id].Serial()
    {
      AsMapHolds(rows);
      var k :| 0 <= k < |rows| && rows[k].id == id;
      HeldBackAreLater(rows, cursor, s, n, rows[k]);
    }
  }

  lemma {:induction false} HighestIsHead(rows: seq<Row>, cursor: int, s: seq<Row>, n: nat)
    requires Ordered(rows) && Lists(s, rows, cursor)
    ensures forall k :: 0 <= k < |First(s, n)| ==> Ids(First(s, n))[k] in AsMap(rows)
    ensures Highest(cursor, First(s, n)) == Head(AsMap(rows), cursor, Ids(First(s, n)))
  {
    forall k | 0 <= k < |First(s, n)|
      ensures First(s, n)[k].Serial() > cursor && Ids(First(s, n))[k] in AsMap(rows)
      ensures AsMap(rows)[First(s, n)[k].id] == First(s, n)[k].record
    {
      PrefixIsInRaw(rows, cursor, s, n, k);
    }
    HighestIsLast(cursor, First(s, n));
  }

  lemma {:induction false} OrderedReplyIs(rows: seq<Row>, cursor: int, limit: nat)
    requires Ordered(rows) && DistinctSerials(rows)
    ensures var s := Sort(Matches(rows, cursor), BySerial);
            && Lists(s, rows, cursor)
            && SinceReply(rows, cursor, limit, true)
               == SincePage(First(s, limit), Highest(cursor, First(s, limit)), |Matches(rows, cursor)| > limit)
  {
    var s := Sort(Matches(rows, cursor), BySerial);
    SortedMatches(rows, cursor);
    assert First(First(s, limit + 1), limit) == First(s, limit);
  }

  ghost predicate IsReadStep(rows: seq<Row>, cursor: int, limit: nat, ids: seq<string>) {
    exists page :: OrderedPage(AsMap(rows), cursor, limit + 1, page) && ids == Shown(limit, page)
  }

  lemma PrefixIsShown(rows: seq<Row>, cursor: int, s: seq<Row>, limit: nat)
    requires Ordered(rows) && Lists(s, rows, cursor)
    ensures IsReadStep(rows, cursor, limit, Ids(First(s, limit)))
  {
    PrefixIsOrderedPage(rows, cursor, s, limit + 1);
    assert Ids(First(s, limit)) == Shown(limit, Ids(First(s, limit + 1)));
  }

  /** What a consumer relies on: the reply is a `Read` step of the protocol. */
  ghost predicate ReadsOn(rows: seq<Row>, cursor: int, limit: nat, reply: SincePage) {
    && IsReadStep(rows, cursor, limit, Ids(reply.items))
    && OrderedPage(AsMap(rows), cursor, limit, Ids(reply.items))
    && reply.cursor == Head(AsMap(rows), cursor, Ids(reply.items))
    && reply.hasMore == (|Matches(rows, cursor)| > limit)
  }

  /**
   Whichever path answers, as long as the ordered scroll works or few enough points match, the page is the first
   `limit` records above the cursor in serial order, the new cursor is the last of their serials, and `hasMore`
   tells whether any record was held back.
   */
  lemma {:induction false} SinceReadsInOrder(rows: seq<Row>, cursor: int, limit: nat, ordered: bool)
    requires Ordered(rows) && DistinctSerials(rows)
    requires ordered || |Matches(rows, cursor)| <= Cap(limit)
    ensures ReadsOn(rows, cursor, limit, SinceReply(rows, cursor, limit, ordered))
  {
    if !ordered {
      FewMatchesAgree(rows, cursor, limit);
    }
    var s := Sort(Matches(rows, cursor), BySerial);
    OrderedReplyIs(rows, cursor, limit);
    PrefixIsOrderedPage(rows, cursor, s, limit);
    PrefixIsShown(rows, cursor, s, limit);
    HighestIsHead(rows, cursor, s, limit);
  }

  // ---- exactly when the fallback is complete -------------------------------------------------------

  function Name(k: nat): string {
    if k == 0 then "" else "a" + Name(k - 1)
  }

  lemma {:induction false} NamesAscend(i: nat, j: nat)
    requires i < j
    ensures StrLess(Name(i), Name(j))
  {
    if i > 0 {
      NamesAscend(i - 1, j - 1);
      assert Name(i)[1..] == Name(i - 1) && Name(j)[1..] == Name(j - 1);
    }
  }

  /** `n` records in scroll order whose last one has the lowest serial. */
  function Rotated(n: nat, record: MemoryRecord, cursor: int): (rows: seq<Row>)
    requires n > 0
    ensures |rows| == n
    ensures forall k :: 0 <= k < n ==> rows[k].id == Name(k)
    ensures forall k :: 0 <= k < n ==> rows[k].Serial() == cursor + (if k == n - 1 then 1 else k + 2)
  {
    seq(n, k requires 0 <= k < n =>
      Row(Name(k), record.(core := record.core.(serial := cursor + (if k == n - 1 then 1 else k + 2)))))
  }

  lemma {:induction false} AllMatch(rows: seq<Row>, cursor: int)
    requires forall k :: 0 <= k < |rows| ==> rows[k].Serial() > cursor
    ensures Matches(rows, cursor) == rows
  {
    if rows != [] {
      AllMatch(rows[1..], cursor);
    }
  }

  /** Too many matches: the fallback passes over the oldest record, and its cursor leaves it behind for good. */
  lemma FallbackCanSkip(n: nat, limit: nat, cursor: int, record: MemoryRecord) returns (rows: seq<Row>)
    requires n > Cap(limit) && limit > 0
    ensures Ordered(rows) && DistinctSerials(rows) && Matches(rows, cursor) == rows && |rows| == n
    ensures var (reply, skipped) := (SinceReply(rows, cursor, limit, false), rows[n - 1]);
            skipped in Matches(rows, cursor) && skipped !in reply.items && skipped.Serial() < reply.cursor
    ensures SinceReply(rows, cursor, limit, false) != SinceReply(rows, cursor, limit, true)
  {
    rows := Rotated(n, record, cursor);
    forall i, j | 0 <= i < j < n ensures StrLess(rows[i].id, rows[j].id) {
      NamesAscend(i, j);
    }
    AllMatch(rows, cursor);
    SkippedByFallback(rows, cursor, limit);
    SortedMatches(rows, cursor);
    LowestIsFirst(rows, cursor, limit, rows[n - 1]);
  }

  lemma {:induction false} SkippedByFallback(rows: seq<Row>, cursor: int, limit: nat)
    requires |rows| > Cap(limit) && limit > 0 && Matches(rows, cursor) == rows
    requires forall k :: 0 <= k < |rows| - 1 ==> rows[k].Serial() > cursor + 1
    requires rows[|rows| - 1].Serial() == cursor + 1
    ensures var reply := SinceReply(rows, cursor, limit, false);
            rows[|rows| - 1] !in reply.items && cursor + 1 < reply.cursor
  {
    var some := First(rows, Cap(limit));
    var points := Sort(some, BySerial);
    SortFacts(some, BySerial);
    forall p | p in points ensures p.Serial() > cursor + 1 {
      assert p in some;
    }
    var items := First(points, limit);
    assert points[0] in points && items[0] == points[0];
    HighestIsAbove(cursor, items, 0);
  }

  lemma {:induction false} HighestIsAbove(cursor: int, items: seq<Row>, k: nat)
    requires k < |items|
    ensures Highest(cursor, items) >= items[k].Serial()
  {
    if k > 0 {
      HighestIsAbove(cursor, items[1..], k - 1);
    }
  }

  lemma LowestIsFirst(rows: seq<Row>, cursor: int, limit: nat, low: Row)
    requires Ordered(rows) && DistinctSerials(rows) && limit > 0
    requires low in rows && low.Serial() == cursor + 1
    ensures low in SinceReply(rows, cursor, limit, true).items
  {
    SortedMatches(rows, cursor);
    var s := Sort(Matches(rows, cursor), BySerial);
    var k :| 0 <= k < |s| && s[k] == low;
    assert s[0] in s;
    assert First(First(s, limit + 1), limit)[0] == s[0];
  }

  ghost predicate FallbackServes(cursor: int, limit: nat, n: nat) {
    forall rows :: Ordered(rows) && DistinctSerials(rows) && |Matches(rows, cursor)| == n ==>
      SinceReply(rows, cursor, limit, false) == SinceReply(rows, cursor, limit, true)
  }

  /** The fallback answers like the ordered scroll for every order of ids exactly while `n` matches fit the cap. */
  lemma FallbackServesExactly(cursor: int, limit: nat, n: nat, record: MemoryRecord)
    requires limit > 0
    ensures FallbackServes(cursor, limit, n) <==> n <= if limit * 10 < 1000 then 1000 else limit * 10
  {
    if n <= Cap(limit) {
      forall rows | |Matches(rows, cursor)| == n
        ensures SinceReply(rows, cursor, limit, false) == SinceReply(rows, cursor, limit, true)
      {
        FewMatchesAgree(rows, cursor, limit);
      }
    } else {
      var rows := FallbackCanSkip(n, limit, cursor, record);
    }
  }
}
