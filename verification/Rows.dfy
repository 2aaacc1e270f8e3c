/** The raw collection as Qdrant keeps it: points in ascending order of their ids. */
module Rows {
  import opened Basics
  import opened Records
  import opened Sorting

  datatype Row = Row(id: string, record: MemoryRecord) {
    function Serial(): int {
      record.Serial()
    }

    predicate IsPending() {
      record.index.Pending?
    }
  }

  ghost predicate Ordered(rows: seq<Row>) {
    forall i, j :: 0 <= i < j < |rows| ==> StrLess(rows[i].id, rows[j].id)
  }

  function Find(rows: seq<Row>, id: string): Option<MemoryRecord> {
    if rows == [] then None else if rows[0].id == id then Some(rows[0].record) else Find(rows[1..], id)
  }

  function Upsert(rows: seq<Row>, id: string, record: MemoryRecord): seq<Row> {
    if rows == [] then [Row(id, record)]
    else if rows[0].id == id then [Row(id, record)] + rows[1..]
    else if StrLeq(id, rows[0].id) then [Row(id, record)] + rows
    else [rows[0]] + Upsert(rows[1..], id, record)
  }

  lemma {:induction false} UpsertStores(rows: seq<Row>, id: string, record: MemoryRecord, other: string)
    ensures Find(Upsert(rows, id, record), other) == if other == id then Some(record) else Find(rows, other)
  {
    if rows != [] && rows[0].id != id && !StrLeq(id, rows[0].id) {
      UpsertStores(rows[1..], id, record, other);
    }
  }

  /** `set_payload` with the index fields; a missing point is left missing. */
  function SetStatus(rows: seq<Row>, id: string, status: IndexStatus): seq<Row> {
    if rows == [] then []
    else if rows[0].id == id then [Row(id, rows[0].record.(index := status))] + rows[1..]
    else [rows[0]] + SetStatus(rows[1..], id, status)
  }

  function AsMap(rows: seq<Row>): map<string, MemoryRecord> {
    if rows == [] then map[] else AsMap(rows[1..])[rows[0].id := rows[0].record]
  }

  lemma {:induction false} AsMapHolds(rows: seq<Row>)
    requires Ordered(rows)
    ensures forall k :: 0 <= k < |rows| ==> rows[k].id in AsMap(rows) && AsMap(rows)[rows[k].id] == rows[k].record
    ensures forall id :: id in AsMap(rows) ==> exists k :: 0 <= k < |rows| && rows[k].id == id
  {
    if rows != [] {
      var tail := rows[1..];
      AsMapHolds(tail);
      forall k | 0 <= k < |rows| ensures rows[k].id in AsMap(rows) && AsMap(rows)[rows[k].id] == rows[k].record {
        if k > 0 {
          assert rows[k] == tail[k - 1];
          assert StrLess(rows[0].id, rows[k].id);
        }
      }
      forall id | id in AsMap(rows) ensures exists k :: 0 <= k < |rows| && rows[k].id == id {
        if id == rows[0].id {
          assert rows[0].id == id;
        } else {
          var k :| 0 <= k < |tail| && tail[k].id == id;
          assert rows[k + 1].id == id;
        }
      }
    }
  }

  lemma {:induction false} FindLooksUp(rows: seq<Row>, id: string)
    ensures Find(rows, id) == if id in AsMap(rows) then Some(AsMap(rows)[id]) else None
  {
    if rows != [] {
      FindLooksUp(rows[1..], id);
    }
  }

  lemma {:induction false} UpsertAsMap(rows: seq<Row>, id: string, record: MemoryRecord)
    ensures AsMap(Upsert(rows, id, record)) == AsMap(rows)[id := record]
  {
    if rows != [] {
      UpsertAsMap(rows[1..], id, record);
      if rows[0].id == id {
        assert ([Row(id, record)] + rows[1..])[1..] == rows[1..];
      } else if StrLeq(id, rows[0].id) {
        assert ([Row(id, record)] + rows)[1..] == rows;
      }
    }
  }

  lemma {:induction false} SetStatusAsMap(rows: seq<Row>, id: string, status: IndexStatus)
    ensures var raw := AsMap(rows);
            AsMap(SetStatus(rows, id, status)) == if id in raw then raw[id := raw[id].(index := status)] else raw
  {
    if rows != [] {
      SetStatusAsMap(rows[1..], id, status);
      if rows[0].id == id {
        assert SetStatus(rows, id, status)[1..] == rows[1..];
      }
    }
  }

  lemma StrLessTransitive(a: string, b: string, c: string)
    requires StrLess(a, b) && StrLess(b, c)
    ensures StrLess(a, c)
  {
    StrLeqTransitive(a, b, c);
    if a == c {
      StrLeqAntisymmetric(a, b);
    }
  }

  lemma PutFirst(row: Row, rows: seq<Row>)
    requires Ordered(rows) && (rows != [] ==> StrLess(row.id, rows[0].id))
    ensures Ordered([row] + rows)
  {
    forall j | 0 <= j < |rows| ensures StrLess(row.id, rows[j].id) {
      if j > 0 {
        StrLessTransitive(row.id, rows[0].id, rows[j].id);
      }
    }
  }

  lemma {:induction false} UpsertKeepsOrder(rows: seq<Row>, id: string, record: MemoryRecord)
    requires Ordered(rows)
    ensures Ordered(Upsert(rows, id, record))
    ensures Upsert(rows, id, record) != []
    ensures Upsert(rows, id, record)[0].id == id || (rows != [] && Upsert(rows, id, record)[0].id == rows[0].id)
  {
    if rows != [] {
      UpsertKeepsOrder(rows[1..], id, record);
      StrLeqTotal(id, rows[0].id);
      var tail := Upsert(rows[1..], id, record);
      if rows[0].id == id {
        PutFirst(Row(id, record), rows[1..]);
      } else if StrLeq(id, rows[0].id) {
        PutFirst(Row(id, record), rows);
      } else {
        PutFirst(rows[0], tail);
      }
    }
  }

  /** Setting index fields touches one row, in place. */
  lemma {:induction false} SetStatusAt(rows: seq<Row>, id: string, status: IndexStatus)
    requires Ordered(rows)
    ensures var rows' := SetStatus(rows, id, status);
            |rows'| == |rows| && Ordered(rows') && forall k :: 0 <= k < |rows| ==>
              rows'[k] == if rows[k].id == id then Row(id, rows[k].record.(index := status)) else rows[k]
  {
    if rows != [] {
      SetStatusAt(rows[1..], id, status);
      var rows', tail := SetStatus(rows, id, status), SetStatus(rows[1..], id, status);
      forall k | 0 < k < |rows|
        ensures rows'[k] == if rows[k].id == id then Row(id, rows[k].record.(index := status)) else rows[k]
      {
        assert StrLess(rows[0].id, rows[k].id);
        assert rows[1..][k - 1] == rows[k];
      }
    }
  }
}
