/**
 One indexing pass (`index_pending` in memorybridge/service.py): which points it takes, and what each possible
 course of its calls leaves behind.
 */
module IndexPass {
  import opened Basics
  import opened Records
  import opened Json
  import opened Rows
  import opened ServerMachine
  import opened IndexMachine

  /** How a call to the store ends: an error may come after the call took effect. */
  datatype Answer = Done | Lost | Refused

  /** What happens to one pending point. */
  datatype Outcome =
    | EmbedFails
    | Embedded(dim: nat, now: int, created: Answer, upserted: Answer, marked: Answer)

  datatype Derived = Derived(rows: seq<Row>, vectors: Vectors)

  // ---- which points --------------------------------------------------------------------------------

  function PendingOf(rows: seq<Row>): seq<Row> {
    if rows == [] then []
    else if rows[0].IsPending() then [rows[0]] + PendingOf(rows[1..])
    else PendingOf(rows[1..])
  }

  function PageSize(limit: nat): nat {
    Max(100, Min(limit * 5, 500))
  }

  function FromId(rows: seq<Row>, offset: Option<string>): seq<Row> {
    if offset.None? || rows == [] || StrLeq(offset.value, rows[0].id) then rows else FromId(rows[1..], offset)
  }

  lemma {:induction false} PendingOfConcat(a: seq<Row>, b: seq<Row>)
    ensures PendingOf(a + b) == PendingOf(a) + PendingOf(b)
  {
    if a == [] {
      assert a + b == b;
    } else {
      assert (a + b)[1..] == a[1..] + b;
      PendingOfConcat(a[1..], b);
    }
  }

  lemma {:induction false} FromIdOfRow(rows: seq<Row>, k: nat)
    requires Ordered(rows) && k < |rows|
    ensures FromId(rows, Some(rows[k].id)) == rows[k..]
  {
    if k == 0 {
      StrLeqReflexive(rows[0].id);
    } else {
      assert StrLess(rows[0].id, rows[k].id);
      if StrLeq(rows[k].id, rows[0].id) {
        StrLeqAntisymmetric(rows[k].id, rows[0].id);
      }
      assert rows[1..][k - 1] == rows[k];
      FromIdOfRow(rows[1..], k - 1);
      assert rows[1..][k - 1..] == rows[k..];
    }
  }

  /** The first `limit` pending points in scroll order, however many pages of indexed points lie before them. */
  method CollectPending(rows: seq<Row>, limit: nat) returns (pending: seq<Row>)
    requires Ordered(rows)
    ensures pending == PendingOf(rows)[..Min(limit, |PendingOf(rows)|)]
  {
    pending := [];
    var offset: Option<string> := None;
    ghost var k := 0;
    assert rows[..0] == [] && rows[0..] == rows;
    while |pending| < limit
      invariant k <= |rows| && pending == PendingOf(rows[..k]) && FromId(rows, offset) == rows[k..]
      decreases |rows| - k
    {
      var found := FromId(rows, offset);
      var size := Min(PageSize(limit), |found|);
      PendingOfConcat(rows[..k], found[..size]);
      assert rows[..k] + found[..size] == rows[..k + size];
      pending := pending + PendingOf(found[..size]);
      k := k + size;
      if size == |found| {
        assert rows[..k] == rows;
        break;
      }
      assert found[size] == rows[k];
      FromIdOfRow(rows, k);
      offset := Some(found[size].id);
    }
    PendingOfConcat(rows[..k], rows[k..]);
    assert rows[..k] + rows[k..] == rows;
    assert |pending| >= limit || k == |rows|;
    pending := pending[..Min(limit, |pending|)];
  }

  // ---- one point -----------------------------------------------------------------------------------

  datatype Handled = Handled(after: Derived, indexed: bool)

  function VectorOf(g: Setup, model: string, row: Row, dim: nat): Vector {
    Vector(model, ExtractContent(g, row.record), dim)
  }

  /** `row` is the point as the pass read it. */
  function HandleItem(g: Setup, model: string, d: Derived, row: Row, o: Outcome): Handled {
    if o.EmbedFails? || o.created.Refused? then Handled(d, false)
    else
      var v := VectorOf(g, model, row, o.dim);
      var name := Home(g, v);
      var d1 := d.(vectors := Created(d.vectors, name, o.dim));
      if o.created.Lost? || o.upserted.Refused? || !Fits(g, d1.vectors, v) then Handled(d1, false)
      else
        var d2 := d1.(vectors := Upserted(d1.vectors, name, row.id, PointFor(g, Job(row.id, row.record), v, o.now)));
        if o.upserted.Lost? || o.marked.Refused? then Handled(d2, false)
        else Handled(d2.(rows := SetStatus(d2.rows, row.id, StatusFor(g, v, o.now))), o.marked.Done?)
  }

  /** The point leaves the backlog: its status was written, whether or not the answer arrived. */
  function Clears(g: Setup, model: string, d: Derived, row: Row, o: Outcome): bool {
    && o.Embedded? && o.created.Done? && o.upserted.Done? && !o.marked.Refused?
    && var v := VectorOf(g, model, row, o.dim);
       Fits(g, Created(d.vectors, Home(g, v), o.dim), v)
  }

  // ---- a list of points ----------------------------------------------------------------------------

  datatype Counts = Counts(after: Derived, indexed: nat, cleared: nat)

  /** Points `k` and up. */
  function HandleAll(g: Setup, model: string, d: Derived, jobs: seq<Row>, outcome: nat -> Outcome, k: nat): Counts
    requires k <= |jobs|
    decreases |jobs| - k
  {
    if k == |jobs| then Counts(d, 0, 0)
    else
      var h := HandleItem(g, model, d, jobs[k], outcome(k));
      var rest := HandleAll(g, model, h.after, jobs, outcome, k + 1);
      Counts(rest.after, rest.indexed + (if h.indexed then 1 else 0),
             rest.cleared + (if Clears(g, model, d, jobs[k], outcome(k)) then 1 else 0))
  }

  // ---- what it means -------------------------------------------------------------------------------

  ghost predicate Agrees(g: Setup, d: Derived) {
    && Ordered(d.rows)
    && VectorsOk(g, AsMap(d.rows), d.vectors)
    && RawOk(g, AsMap(d.rows), d.vectors)
  }

  /** The rows are those read before, except for index fields. */
  ghost predicate SameButIndex(rows: seq<Row>, rows': seq<Row>) {
    && |rows'| == |rows|
    && forall k :: 0 <= k < |rows| ==> rows'[k].id == rows[k].id && rows'[k].record.core == rows[k].record.core
  }

  lemma {:induction false} SetStatusGrows(g: Setup, rows: seq<Row>, id: string, status: IndexStatus, vectors: Vectors)
    requires Ordered(rows) && StatusOk(g, vectors, id, status)
    ensures RawGrows(g, AsMap(rows), AsMap(SetStatus(rows, id, status)), vectors)
    ensures SameButIndex(rows, SetStatus(rows, id, status)) && Ordered(SetStatus(rows, id, status))
  {
    SetStatusAsMap(rows, id, status);
    SetStatusAt(rows, id, status);
  }

  lemma CreatedAgrees(g: Setup, d: Derived, name: string, dim: nat)
    requires Agrees(g, d)
    ensures Agrees(g, d.(vectors := Created(d.vectors, name, dim)))
  {
    CreatedKeeps(g, AsMap(d.rows), d.vectors, name, dim);
    VectorsGrowKeeps(g, AsMap(d.rows), d.vectors, Created(d.vectors, name, dim));
  }

  lemma UpsertedAgrees(g: Setup, d: Derived, job: Job, v: Vector, at: int)
    requires Agrees(g, d) && JobOk(AsMap(d.rows), job) && Represents(g, v, job.record.core)
    ensures var vectors' := Upserted(d.vectors, Home(g, v), job.id, PointFor(g, job, v, at));
            Agrees(g, d.(vectors := vectors')) && (Fits(g, d.vectors, v) ==> StatusOk(g, vectors', job.id, StatusFor(g, v, at)))
  {
    UpsertedKeeps(g, AsMap(d.rows), d.vectors, job, v, at);
    VectorsGrowKeeps(g, AsMap(d.rows), d.vectors, Upserted(d.vectors, Home(g, v), job.id, PointFor(g, job, v, at)));
  }

  lemma {:induction false} MarkedAgrees(g: Setup, d: Derived, id: string, status: IndexStatus)
    requires Agrees(g, d) && StatusOk(g, d.vectors, id, status)
    ensures Agrees(g, d.(rows := SetStatus(d.rows, id, status))) && SameButIndex(d.rows, SetStatus(d.rows, id, status))
  {
    SetStatusGrows(g, d.rows, id, status, d.vectors);
    RawGrowsKeeps(g, AsMap(d.rows), AsMap(SetStatus(d.rows, id, status)), d.vectors);
  }

  /** Whatever fails on the way, records and vectors still agree afterwards. */
  lemma HandleItemAgrees(g: Setup, model: string, d: Derived, row: Row, o: Outcome)
    requires Agrees(g, d) && JobOk(AsMap(d.rows), Job(row.id, row.record))
    ensures var after := HandleItem(g, model, d, row, o).after; Agrees(g, after) && SameButIndex(d.rows, after.rows)
  {
    if o.Embedded? && !o.created.Refused? {
      var v := VectorOf(g, model, row, o.dim);
      var d1 := d.(vectors := Created(d.vectors, Home(g, v), o.dim));
      CreatedAgrees(g, d, Home(g, v), o.dim);
      var job := Job(row.id, row.record);
      UpsertedAgrees(g, d1, job, v, o.now);
      if Fits(g, d1.vectors, v) {
        MarkedAgrees(g, d1.(vectors := Upserted(d1.vectors, Home(g, v), row.id, PointFor(g, job, v, o.now))), row.id,
                     StatusFor(g, v, o.now));
      }
    }
  }

  /** The status of a point indexed at this outcome: its time, the model, and the generation of model and dimension. */
  predicate IsStatus(g: Setup, model: string, o: Outcome, s: IndexStatus) {
    o.Embedded? &&
    var digest := (g.hashes.sha256)(model);
    s == Indexed(o.now, model, g.base + ("__" + ((if |digest| <= 10 then digest else digest[..10]) + ("__" + Digits(o.dim)))))
  }

  /** A status that has changed is that of one of these outcomes. */
  ghost predicate IndexedBy(g: Setup, model: string, rows: seq<Row>, rows': seq<Row>, outcome: nat -> Outcome) {
    && |rows'| == |rows|
    && forall k :: 0 <= k < |rows| ==>
         rows'[k].record.index == rows[k].record.index || exists i: nat :: IsStatus(g, model, outcome(i), rows'[k].record.index)
  }

  lemma HandleItemIndexes(g: Setup, model: string, d: Derived, row: Row, outcome: nat -> Outcome, i: nat)
    requires Ordered(d.rows)
    ensures var after := HandleItem(g, model, d, row, outcome(i)).after;
            Ordered(after.rows) && IndexedBy(g, model, d.rows, after.rows, outcome)
  {
    var o := outcome(i);
    if o.Embedded? {
      var status := StatusFor(g, VectorOf(g, model, row, o.dim), o.now);
      SetStatusAt(d.rows, row.id, status);
      assert IsStatus(g, model, outcome(i), status);
    }
  }

  lemma {:induction false} HandleAllIndexes(g: Setup, model: string, d: Derived, jobs: seq<Row>, outcome: nat -> Outcome, k: nat)
    requires k <= |jobs| && Ordered(d.rows)
    ensures IndexedBy(g, model, d.rows, HandleAll(g, model, d, jobs, outcome, k).after.rows, outcome)
    decreases |jobs| - k
  {
    if k < |jobs| {
      HandleItemIndexes(g, model, d, jobs[k], outcome, k);
      HandleAllIndexes(g, model, HandleItem(g, model, d, jobs[k], outcome(k)).after, jobs, outcome, k + 1);
    }
  }

  lemma {:induction false} PendingAfterSet(rows: seq<Row>, id: string, status: IndexStatus, i: nat)
    requires Ordered(rows) && status.Indexed? && i < |PendingOf(rows)| && PendingOf(rows)[i].id == id
    ensures PendingOf(SetStatus(rows, id, status)) == PendingOf(rows)[..i] + PendingOf(rows)[i + 1..]
    decreases rows
  {
    var tail, p := rows[1..], PendingOf(rows[1..]);
    assert [rows[0]] + tail == rows;
    if rows[0].id == id {
      if !rows[0].IsPending() || i > 0 {
        PendingIsIn(tail, if rows[0].IsPending() then i - 1 else i);
      }
      assert SetStatus(rows, id, status)[1..] == tail;
    } else if rows[0].IsPending() {
      PendingAfterSet(tail, id, status, i - 1);
      assert PendingOf(rows)[..i] == [rows[0]] + p[..i - 1] && PendingOf(rows)[i + 1..] == p[i..];
    } else {
      PendingAfterSet(tail, id, status, i);
    }
  }

  lemma {:induction false} PendingIsIn(rows: seq<Row>, i: nat)
    requires i < |PendingOf(rows)|
    ensures exists k :: 0 <= k < |rows| && rows[k] == PendingOf(rows)[i] && rows[k].IsPending()
    decreases rows
  {
    if rows[0].IsPending() && i == 0 {
      assert rows[0] == PendingOf(rows)[0];
    } else {
      PendingIsIn(rows[1..], if rows[0].IsPending() then i - 1 else i);
      var k :| 0 <= k < |rows[1..]| && rows[1..][k] == PendingOf(rows)[i] && rows[1..][k].IsPending();
      assert rows[k + 1] == PendingOf(rows)[i];
    }
  }

  /** The backlog consists of the points passed over so far and those not yet handled. */
  ghost predicate Backlog(rows: seq<Row>, stuck: seq<Row>, jobs: seq<Row>, k: nat, later: seq<Row>)
    requires k <= |jobs|
  {
    Ordered(rows) && PendingOf(rows) == stuck + jobs[k..] + later
  }

  lemma ItemAndBacklog(g: Setup, model: string, d: Derived, stuck: seq<Row>, jobs: seq<Row>, k: nat, later: seq<Row>,
                       o: Outcome)
    requires k < |jobs| && Backlog(d.rows, stuck, jobs, k, later)
    ensures var after := HandleItem(g, model, d, jobs[k], o).after;
            Backlog(after.rows, if Clears(g, model, d, jobs[k], o) then stuck else stuck + [jobs[k]], jobs, k + 1, later)
    ensures HandleItem(g, model, d, jobs[k], o).indexed ==> Clears(g, model, d, jobs[k], o)
  {
    assert jobs[k..] == [jobs[k]] + jobs[k + 1..];
    if Clears(g, model, d, jobs[k], o) {
      var status := StatusFor(g, VectorOf(g, model, jobs[k], o.dim), o.now);
      var p := PendingOf(d.rows);
      assert p[|stuck|] == jobs[k];
      PendingAfterSet(d.rows, jobs[k].id, status, |stuck|);
      SetStatusAt(d.rows, jobs[k].id, status);
      assert p[..|stuck|] == stuck && p[|stuck| + 1..] == jobs[k + 1..] + later;
      assert stuck + (jobs[k + 1..] + later) == stuck + jobs[k + 1..] + later;
    } else {
      assert stuck + jobs[k..] == stuck + [jobs[k]] + jobs[k + 1..];
    }
  }

  lemma {:induction false} BacklogShrinks(g: Setup, model: string, d: Derived, stuck: seq<Row>, jobs: seq<Row>, k: nat,
                                          later: seq<Row>, outcome: nat -> Outcome)
    requires k <= |jobs| && Backlog(d.rows, stuck, jobs, k, later)
    ensures var c := HandleAll(g, model, d, jobs, outcome, k);
            && c.indexed <= c.cleared <= |jobs| - k
            && |PendingOf(c.after.rows)| == |stuck| + |jobs| - k + |later| - c.cleared
            && (c.cleared == |jobs| - k ==> PendingOf(c.after.rows) == stuck + later)
    decreases |jobs| - k
  {
    if k < |jobs| {
      var o := outcome(k);
      var h := HandleItem(g, model, d, jobs[k], o);
      ItemAndBacklog(g, model, d, stuck, jobs, k, later, o);
      BacklogShrinks(g, model, h.after, if Clears(g, model, d, jobs[k], o) then stuck else stuck + [jobs[k]], jobs, k + 1,
                     later, outcome);
    } else {
      assert jobs[k..] == [] && stuck + [] == stuck;
    }
  }

  lemma {:induction false} HandleAllAgrees(g: Setup, model: string, d: Derived, jobs: seq<Row>, outcome: nat -> Outcome, k: nat)
    requires k <= |jobs| && Agrees(g, d)
    requires forall i :: k <= i < |jobs| ==> JobOk(AsMap(d.rows), Job(jobs[i].id, jobs[i].record))
    ensures var after := HandleAll(g, model, d, jobs, outcome, k).after; Agrees(g, after) && SameButIndex(d.rows, after.rows)
    decreases |jobs| - k
  {
    if k < |jobs| {
      var after := HandleItem(g, model, d, jobs[k], outcome(k)).after;
      HandleItemAgrees(g, model, d, jobs[k], outcome(k));
      forall i | k + 1 <= i < |jobs| ensures JobOk(AsMap(after.rows), Job(jobs[i].id, jobs[i].record)) {
        SameButIndexInMap(d.rows, after.rows, Job(jobs[i].id, jobs[i].record));
      }
      HandleAllAgrees(g, model, after, jobs, outcome, k + 1);
    }
  }

  lemma {:induction false} SameButIndexInMap(rows: seq<Row>, rows': seq<Row>, job: Job)
    requires Ordered(rows) && Ordered(rows') && SameButIndex(rows, rows') && JobOk(AsMap(rows), job)
    ensures JobOk(AsMap(rows'), job)
  {
    AsMapHolds(rows);
    AsMapHolds(rows');
    var k :| 0 <= k < |rows| && rows[k].id == job.id;
    assert rows'[k].id == job.id;
  }

  // ---- draining ------------------------------------------------------------------------------------

  function Jobs(rows: seq<Row>, limit: nat): seq<Row> {
    PendingOf(rows)[..Min(limit, |PendingOf(rows)|)]
  }

  function PassOver(g: Setup, model: string, d: Derived, limit: nat, outcome: nat -> Outcome): Counts {
    HandleAll(g, model, d, Jobs(d.rows, limit), outcome, 0)
  }

  lemma PassShrinksBacklog(g: Setup, model: string, d: Derived, limit: nat, outcome: nat -> Outcome)
    requires Ordered(d.rows)
    ensures var c := PassOver(g, model, d, limit, outcome);
            && c.indexed <= c.cleared <= |Jobs(d.rows, limit)|
            && |PendingOf(c.after.rows)| == |PendingOf(d.rows)| - c.cleared
            && (c.cleared == |Jobs(d.rows, limit)| ==> PendingOf(c.after.rows) == PendingOf(d.rows)[|Jobs(d.rows, limit)|..])
  {
    var p, jobs := PendingOf(d.rows), Jobs(d.rows, limit);
    assert p == [] + jobs[0..] + p[|jobs|..];
    BacklogShrinks(g, model, d, [], jobs, 0, p[|jobs|..], outcome);
    assert [] + p[|jobs|..] == p[|jobs|..];
  }

  /** Every embedding is delivered and every call answered. */
  ghost predicate AllSucceed(outcome: nat -> Outcome) {
    forall k :: outcome(k).Embedded? && outcome(k).created.Done? && outcome(k).upserted.Done? && outcome(k).marked.Done?
  }

  /** A generation's name ends in its dimension. */
  predicate NamesDimension(g: Setup, name: string, dim: nat) {
    |name| >= |g.base| + 14 && name[|g.base| + 14..] == Digits(dim)
  }

  ghost predicate NamesOk(g: Setup, vectors: Vectors) {
    forall name :: name in vectors ==> NamesDimension(g, name, vectors[name].dim)
  }

  ghost predicate HexDigests(g: Setup) {
    forall m :: |(g.hashes.sha256)(m)| == 64
  }

  lemma HomeNamesDimension(g: Setup, v: Vector, dim: nat)
    requires HexDigests(g)
    ensures NamesDimension(g, Home(g, v), dim) <==> v.dim == dim
  {
    var h := Take((g.hashes.sha256)(v.model), 10);
    assert |(g.hashes.sha256)(v.model)| == 64 && |h| == 10;
    assert Home(g, v)[|g.base|..] == "__" + (h + ("__" + Digits(v.dim)));
    assert Home(g, v)[|g.base| + 14..] == Digits(v.dim);
    DigitsRead(v.dim);
    DigitsRead(dim);
  }

  /** So no upsert is ever refused for its dimension. */
  lemma NamesMakeRoom(g: Setup, vectors: Vectors, v: Vector)
    requires HexDigests(g) && NamesOk(g, vectors)
    ensures var vectors' := Created(vectors, Home(g, v), v.dim); Fits(g, vectors', v) && NamesOk(g, vectors')
  {
    HomeNamesDimension(g, v, v.dim);
    if Home(g, v) in vectors {
      HomeNamesDimension(g, v, vectors[Home(g, v)].dim);
    }
  }

  lemma HandleItemKeepsNames(g: Setup, model: string, d: Derived, row: Row, o: Outcome)
    requires HexDigests(g) && NamesOk(g, d.vectors)
    ensures NamesOk(g, HandleItem(g, model, d, row, o).after.vectors)
    ensures Clears(g, model, d, row, o) <==> o.Embedded? && o.created.Done? && o.upserted.Done? && !o.marked.Refused?
    ensures HandleItem(g, model, d, row, o).indexed <==> Clears(g, model, d, row, o) && o.marked.Done?
  {
    if o.Embedded? {
      NamesMakeRoom(g, d.vectors, VectorOf(g, model, row, o.dim));
    }
  }

  lemma {:induction false} HandleAllSucceeds(g: Setup, model: string, d: Derived, jobs: seq<Row>, outcome: nat -> Outcome, k: nat)
    requires k <= |jobs| && HexDigests(g) && NamesOk(g, d.vectors)
    ensures var c := HandleAll(g, model, d, jobs, outcome, k);
            NamesOk(g, c.after.vectors) && (AllSucceed(outcome) ==> c.indexed == c.cleared == |jobs| - k)
    decreases |jobs| - k
  {
    if k < |jobs| {
      HandleItemKeepsNames(g, model, d, jobs[k], outcome(k));
      HandleAllSucceeds(g, model, HandleItem(g, model, d, jobs[k], outcome(k)).after, jobs, outcome, k + 1);
    }
  }

  function Passes(g: Setup, model: string, d: Derived, limit: nat, outcome: nat -> Outcome, n: nat): Derived {
    if n == 0 then d else PassOver(g, model, Passes(g, model, d, limit, outcome, n - 1), limit, outcome).after
  }

  /** Each all-successful pass takes the next `limit` points off the front; enough of them leave nothing pending. */
  lemma {:induction false} PassesDrain(g: Setup, model: string, d: Derived, limit: nat, outcome: nat -> Outcome, n: nat)
    requires HexDigests(g) && NamesOk(g, d.vectors) && Agrees(g, d) && AllSucceed(outcome)
    ensures var after := Passes(g, model, d, limit, outcome, n);
            && Agrees(g, after) && NamesOk(g, after.vectors)
            && PendingOf(after.rows) == PendingOf(d.rows)[Min(n * limit, |PendingOf(d.rows)|)..]
    ensures n * limit >= |PendingOf(d.rows)| ==> PendingOf(Passes(g, model, d, limit, outcome, n).rows) == []
  {
    if n > 0 {
      PassesDrain(g, model, d, limit, outcome, n - 1);
      var before := Passes(g, model, d, limit, outcome, n - 1);
      PassStep(g, model, before, limit, outcome);
      SkipTwice(PendingOf(d.rows), limit, n);
    }
  }

  lemma SkipTwice(p: seq<Row>, limit: nat, n: nat)
    requires n > 0
    ensures 0 <= (n - 1) * limit <= n * limit
    ensures var q := p[Min((n - 1) * limit, |p|)..]; q[Min(limit, |q|)..] == p[Min(n * limit, |p|)..]
  {
    assert n * limit == (n - 1) * limit + limit;
  }

  lemma PassStep(g: Setup, model: string, d: Derived, limit: nat, outcome: nat -> Outcome)
    requires HexDigests(g) && NamesOk(g, d.vectors) && Agrees(g, d) && AllSucceed(outcome)
    ensures var after := PassOver(g, model, d, limit, outcome).after;
            && Agrees(g, after) && NamesOk(g, after.vectors)
            && PendingOf(after.rows) == PendingOf(d.rows)[Min(limit, |PendingOf(d.rows)|)..]
  {
    var jobs := Jobs(d.rows, limit);
    PassShrinksBacklog(g, model, d, limit, outcome);
    HandleAllSucceeds(g, model, d, jobs, outcome, 0);
    JobsAreStored(d.rows, limit);
    HandleAllAgrees(g, model, d, jobs, outcome, 0);
  }

  /** A pending point stays stored while only index fields change. */
  lemma {:induction false} JobStaysStored(rows: seq<Row>, rows': seq<Row>, limit: nat, k: nat)
    requires Ordered(rows) && Ordered(rows') && SameButIndex(rows, rows') && k < |Jobs(rows, limit)|
    ensures JobOk(AsMap(rows'), Job(Jobs(rows, limit)[k].id, Jobs(rows, limit)[k].record))
  {
    JobsAreStored(rows, limit);
    SameButIndexInMap(rows, rows', Job(Jobs(rows, limit)[k].id, Jobs(rows, limit)[k].record));
  }

  lemma {:induction false} JobsAreStored(rows: seq<Row>, limit: nat)
    requires Ordered(rows)
    ensures forall i :: 0 <= i < |Jobs(rows, limit)| ==>
              JobOk(AsMap(rows), Job(Jobs(rows, limit)[i].id, Jobs(rows, limit)[i].record))
  {
    forall i | 0 <= i < |Jobs(rows, limit)|
      ensures JobOk(AsMap(rows), Job(Jobs(rows, limit)[i].id, Jobs(rows, limit)[i].record))
    {
      AsMapHolds(rows);
      PendingIsIn(rows, i);
      var k :| 0 <= k < |rows| && rows[k] == PendingOf(rows)[i];
    }
  }
}
