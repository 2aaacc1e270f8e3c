/**
 The memory service (memorybridge/service.py) as one object.  Qdrant's collections and the in-memory clock are its
 fields; each call into Qdrant ends as the caller's course says.  A ghost copy of the server machine moves along,
 so that all that is proved about that machine holds of these methods.
 */
module Service {
  import opened Basics
  import opened Records
  import opened Sorting
  import opened Rows
  import opened ServerMachine
  import opened Since
  import IndexMachine
  import opened IndexPass

  /** How the calls of one `put` end, and what the clock says. */
  datatype Course = Course(lookup: bool, clockRead: bool, clockWrite: Answer, rawWrite: Answer, clock: int, now: int)

  datatype PutResult = Duplicate(id: string, serial: int) | Stored(id: string, serial: int) | Raised

  class MemoryService {
    const setup: IndexMachine.Setup
    const model: string
    var raw: seq<Row>
    var meta: int
    var lastSeq: Option<int>
    var vectors: IndexMachine.Vectors
    ghost var machine: Server

    /** The fields are the machine's state, with the put lock as given. */
    ghost predicate Mirrors(lock: Lock)
      reads this
    {
      && machine.store.raw == AsMap(raw) && machine.store.lastSeq == meta
      && machine.proc.lastSeq == lastSeq && machine.proc.lock == lock
    }

    ghost predicate Consistent(lock: Lock)
      reads this
    {
      Mirrors(lock) && Ordered(raw) && ServerInv(setup.hashes, machine)
    }

    ghost predicate Valid()
      reads this
    {
      && Consistent(Free)
      && HexDigests(setup) && NamesOk(setup, vectors) && Agrees(setup, Derived(raw, vectors))
    }

    constructor (setup: IndexMachine.Setup, model: string)
      requires HexDigests(setup)
      ensures Valid() && raw == [] && lastSeq == None && this.setup == setup && this.model == model
    {
      this.setup, this.model := setup, model;
      raw, meta, lastSeq, vectors := [], 0, None, map[];
      machine := EMPTY_SERVER;
      new;
      EmptyServerInv(setup.hashes);
    }

    /** The process dies and starts again: only the in-memory clock is lost. */
    method Restart()
      requires Valid()
      modifies this`lastSeq, this`machine
      ensures Valid() && lastSeq == None
    {
      lastSeq := None;
      ServeKeepsInv(setup.hashes, machine, ServerStep.Restart);
      machine := Serve(setup.hashes, machine, ServerStep.Restart);
    }

    /** The first request after a start reads the persisted clock. */
    method LoadClock(answered: bool) returns (loaded: bool)
      requires machine.proc.lock.Held? && machine.proc.lock.point.Clock? && Consistent(machine.proc.lock)
      modifies this`lastSeq, this`machine
      ensures loaded == (old(lastSeq).Some? || answered)
      ensures lastSeq == if loaded then Some(old(lastSeq).GetOr(meta)) else None
      ensures Consistent(if loaded then old(machine.proc.lock) else Free)
    {
      loaded := true;
      if lastSeq.None? {
        var step := if answered then ServerStep.LoadClock else ReadFails;
        ServeKeepsInv(setup.hashes, machine, step);
        machine := Serve(setup.hashes, machine, step);
        loaded, lastSeq := answered, if answered then Some(meta) else None;
      }
    }

    method PersistClock(answer: Answer)
      requires machine.proc.lock.Held? && machine.proc.lock.point.Persist? && Consistent(machine.proc.lock)
      modifies this`meta, this`machine
      ensures var n := old(machine.proc.lock.point.serial);
              && meta == (if answer.Refused? then old(meta) else n)
              && Consistent(if answer.Done? then old(machine.proc.lock).(point := Write(n)) else Free)
    {
      var step := if answer.Done? then ClockStored else ClockFails(answer.Lost?);
      ghost var n := machine.proc.lock.point.serial;
      ServeKeepsInv(setup.hashes, machine, step);
      machine := Serve(setup.hashes, machine, step);
      meta := if answer.Refused? then meta else lastSeq.value;
    }

    method Tick(clock: int)
      requires machine.proc.lock.Held? && machine.proc.lock.point.Clock? && Consistent(machine.proc.lock) && lastSeq.Some?
      modifies this`lastSeq, this`machine
      ensures lastSeq == Some(NextTimeNs(old(lastSeq).value, clock))
      ensures Consistent(old(machine.proc.lock).(point := Persist(lastSeq.value)))
    {
      ServeKeepsInv(setup.hashes, machine, ServerStep.Tick(clock));
      machine := Serve(setup.hashes, machine, ServerStep.Tick(clock));
      lastSeq := Some(NextTimeNs(lastSeq.value, clock));
    }

    /**
     A serial above the clock persisted so far.  The in-memory clock moves on even when the write fails, and the
     persisted one even when only the answer is lost.
     */
    method NextSeq(c: Course) returns (serial: Option<int>)
      requires machine.proc.lock.Held? && machine.proc.lock.point.Clock? && Consistent(machine.proc.lock)
      modifies this`meta, this`lastSeq, this`machine
      ensures var (fails, n) := (old(lastSeq).None? && !c.clockRead, NextTimeNs(old(lastSeq).GetOr(old(meta)), c.clock));
              && lastSeq == (if fails then None else Some(n))
              && meta == (if fails || c.clockWrite.Refused? then old(meta) else n)
              && serial == (if fails || !c.clockWrite.Done? then None else Some(n))
      ensures serial.Some? ==> var last := if old(lastSeq).Some? then old(lastSeq).value else old(meta);
                               serial.value == if c.clock > last then c.clock else last + 1
      ensures Consistent(if serial.Some? then old(machine.proc.lock).(point := Write(serial.value)) else Free)
    {
      var loaded := LoadClock(c.clockRead);
      if !loaded {
        return None;
      }
      Tick(c.clock);
      PersistClock(c.clockWrite);
      return if c.clockWrite.Done? then lastSeq else None;
    }

    /** The request takes the put lock and looks its id up. */
    method Look(m: MemoryPut, nonce: string) returns (found: Option<MemoryRecord>)
      requires Valid()
      modifies this`machine
      ensures found == Find(raw, DeterministicId(setup.hashes, m, nonce))
      ensures machine.proc.lock.Held? && machine.proc.lock.call == Call(m, DeterministicId(setup.hashes, m, nonce))
      ensures machine.proc.lock.point == Lookup && Consistent(machine.proc.lock)
    {
      var h, token := setup.hashes, machine.proc.nextToken;
      found := Find(raw, DeterministicId(h, m, nonce));
      ServeKeepsInv(h, machine, Submit(m, nonce));
      machine := Serve(h, machine, Submit(m, nonce));
      ServeKeepsInv(h, machine, Acquire(token));
      machine := Serve(h, machine, Acquire(token));
    }

    /** The lookup's answer: the lock is given back on a hit or an error, and kept on a miss. */
    method Settle(step: ServerStep)
      requires machine.proc.lock.Held? && machine.proc.lock.point == Lookup && Consistent(machine.proc.lock)
      requires Enabled(machine, step) && (step == Hit || step == Miss || step == ReadFails)
      modifies this`machine
      ensures Consistent(if step == Miss then old(machine.proc.lock).(point := Clock) else Free)
    {
      ServeKeepsInv(setup.hashes, machine, step);
      machine := Serve(setup.hashes, machine, step);
    }

    method WriteRecord(m: MemoryPut, id: string, serial: int, c: Course)
      requires machine.proc.lock.Held? && machine.proc.lock.call == Call(m, id) && machine.proc.lock.point == Write(serial)
      requires Consistent(machine.proc.lock) && id !in AsMap(raw) && Agrees(setup, Derived(raw, vectors))
      modifies this`raw, this`machine
      ensures raw == (if c.rawWrite.Refused? then old(raw)
                      else Upsert(old(raw), id, FromPut(setup.hashes, m, serial, c.now)))
      ensures Below(AsMap(old(raw)), serial)
      ensures Consistent(Free) && Agrees(setup, Derived(raw, vectors))
      ensures !c.rawWrite.Refused? ==> StoredAs(setup.hashes, old(raw), raw, id, serial, m, c.now)
    {
      ghost var step := if c.rawWrite.Done? then RawStored(c.now) else RawFails(c.rawWrite.Lost?, c.now);
      ServeKeepsInv(setup.hashes, machine, step);
      machine := Serve(setup.hashes, machine, step);
      if !c.rawWrite.Refused? {
        var record := FromPut(setup.hashes, m, serial, c.now);
        UpsertAsMap(raw, id, record);
        UpsertKeepsOrder(raw, id, record);
        UpsertAgrees(setup, raw, vectors, id, record);
        PutStores(setup.hashes, raw, id, serial, m, c.now);
        raw := Upsert(raw, id, record);
      }
    }

    /**
     The first writer wins: a stored id is answered as a duplicate and nothing changes.  Otherwise the record gets a
     serial above every other, and an error leaves the store either as it was or with that record.
     */
    method Put(m: MemoryPut, nonce: string, c: Course) returns (r: PutResult)
      requires Valid()
      modifies this`raw, this`meta, this`lastSeq, this`machine
      ensures Valid()
      ensures var (id, found) := (DeterministicId(setup.hashes, m, nonce), Find(old(raw), DeterministicId(setup.hashes, m, nonce)));
              var (fails, n) := (old(lastSeq).None? && !c.clockRead, NextTimeNs(old(lastSeq).GetOr(old(meta)), c.clock));
              if !c.lookup || found.Some? then
                && r == (if c.lookup then Duplicate(id, found.value.Serial()) else Raised)
                && raw == old(raw) && meta == old(meta) && lastSeq == old(lastSeq)
              else
                && lastSeq == (if fails then None else Some(n))
                && meta == (if fails || c.clockWrite.Refused? then old(meta) else n)
                && (if fails || !c.clockWrite.Done? || c.rawWrite.Refused? then raw == old(raw) && r == Raised
                    else && raw == Upsert(old(raw), id, FromPut(setup.hashes, m, n, c.now))
                         && r == (if c.rawWrite.Done? then Stored(id, n) else Raised)
                         && Below(AsMap(old(raw)), n))
      ensures raw != old(raw) || r.Stored? ==>
                StoredAs(setup.hashes, old(raw), raw, DeterministicId(setup.hashes, m, nonce),
                         NextTimeNs(old(lastSeq).GetOr(old(meta)), c.clock), m, c.now)
    {
      var id := DeterministicId(setup.hashes, m, nonce);
      var found := Look(m, nonce);
      FindLooksUp(raw, id);
      if !c.lookup {
        Settle(ReadFails);
        return Raised;
      }
      if found.Some? {
        Settle(Hit);
        return Duplicate(id, found.value.Serial());
      }
      Settle(Miss);
      var serial := NextSeq(c);
      if serial.None? {
        return Raised;
      }
      WriteRecord(m, id, serial.value, c);
      return if c.rawWrite.Done? then Stored(id, serial.value) else Raised;
    }

    /** A page of `memory_since`; the ordered scroll, or few enough matches, make it a step of the protocol's reader. */
    method Since(cursor: int, limit: nat, ordered: bool) returns (page: SincePage)
      requires Valid()
      ensures page == SinceReply(raw, cursor, limit, ordered)
      ensures ordered || |Matches(raw, cursor)| <= Cap(limit) ==> ReadsOn(raw, cursor, limit, page)
    {
      page := PageOf(cursor, limit, Fetched(raw, cursor, limit, ordered));
      SerialsAreDistinct(setup.hashes, raw, machine.store);
      if ordered || |Matches(raw, cursor)| <= Cap(limit) {
        SinceReadsInOrder(raw, cursor, limit, ordered);
      }
    }

    /** One point: embed, make sure of the collection, write the vector, then the status. */
    method IndexOne(row: Row, o: Outcome) returns (done: bool)
      requires Valid() && IndexMachine.JobOk(AsMap(raw), IndexMachine.Job(row.id, row.record))
      modifies this`raw, this`vectors, this`machine
      ensures Valid() && SameButIndex(old(raw), raw)
      ensures Handled(Derived(raw, vectors), done) == HandleItem(setup, model, Derived(old(raw), old(vectors)), row, o)
    {
      HandleItemAgrees(setup, model, Derived(raw, vectors), row, o);
      HandleItemKeepsNames(setup, model, Derived(raw, vectors), row, o);
      if o.EmbedFails? || o.created.Refused? {
        return false;
      }
      var v := VectorOf(setup, model, row, o.dim);
      var name := IndexMachine.Home(setup, v);
      vectors := IndexMachine.Created(vectors, name, o.dim);
      if o.created.Lost? || o.upserted.Refused? || !IndexMachine.Fits(setup, vectors, v) {
        return false;
      }
      var point := IndexMachine.PointFor(setup, IndexMachine.Job(row.id, row.record), v, o.now);
      vectors := IndexMachine.Upserted(vectors, name, row.id, point);
      if o.upserted.Lost? || o.marked.Refused? {
        return false;
      }
      SetStatus(row.id, IndexMachine.StatusFor(setup, v, o.now));
      return o.marked.Done?;
    }

    method SetStatus(id: string, status: IndexStatus)
      requires Consistent(Free) && id in AsMap(raw)
      modifies this`raw, this`machine
      ensures Consistent(Free) && raw == Rows.SetStatus(old(raw), id, status)
    {
      ServeKeepsInv(setup.hashes, machine, MarkIndexed(id, status));
      MarkedStore(setup.hashes, machine, raw, id, status);
      machine := Serve(setup.hashes, machine, MarkIndexed(id, status));
      raw := Rows.SetStatus(raw, id, status);
    }

    /**
     One pass over the first `limit` pending points.  Whatever fails, raw records and vectors agree afterwards, every
     point handled is counted once, and the backlog shrinks by at least what is reported as indexed.
     */
    method IndexPending(limit: nat, outcome: nat -> Outcome) returns (indexed: nat, failed: nat)
      requires Valid()
      modifies this`raw, this`vectors, this`machine
      ensures Valid() && SameButIndex(old(raw), raw)
      ensures Derived(raw, vectors) == PassOver(setup, model, Derived(old(raw), old(vectors)), limit, outcome).after
      ensures indexed == PassOver(setup, model, Derived(old(raw), old(vectors)), limit, outcome).indexed
      ensures indexed + failed == Min(limit, |PendingOf(old(raw))|)
      ensures |PendingOf(raw)| <= |PendingOf(old(raw))| - indexed
      ensures IndexedBy(setup, model, old(raw), raw, outcome)
    {
      ghost var start := Derived(raw, vectors);
      var pending := CollectPending(raw, limit);
      indexed, failed := 0, 0;
      ghost var whole := HandleAll(setup, model, start, pending, outcome, 0);
      for k := 0 to |pending|
        invariant Valid() && SameButIndex(start.rows, raw)
        invariant indexed + failed == k
        invariant Rest(setup, model, whole, indexed, Derived(raw, vectors), pending, outcome, k)
      {
        JobStaysStored(start.rows, raw, limit, k);
        RestStep(setup, model, whole, indexed, Derived(raw, vectors), pending, outcome, k);
        var done := IndexOne(pending[k], outcome(k));
        if done {
          indexed := indexed + 1;
        } else {
          failed := failed + 1;
        }
      }
      PassShrinksBacklog(setup, model, start, limit, outcome);
      HandleAllIndexes(setup, model, start, pending, outcome, 0);
    }
  }

  /** The record is pending, has this serial and otherwise says what the request says; no other record has changed. */
  ghost predicate StoredAs(h: Hashes, rows: seq<Row>, rows': seq<Row>, id: string, serial: int, m: MemoryPut, now: int) {
    && Find(rows', id).Some? && Find(rows', id).value.index == Pending && Find(rows', id).value.Serial() == serial
    && Carries(h, Find(rows', id).value.core, m, now)
    && forall other :: other != id ==> Find(rows', other) == Find(rows, other)
  }

  lemma {:induction false} PutStores(h: Hashes, rows: seq<Row>, id: string, serial: int, m: MemoryPut, now: int)
    ensures StoredAs(h, rows, Upsert(rows, id, FromPut(h, m, serial, now)), id, serial, m, now)
  {
    forall other ensures Find(Upsert(rows, id, FromPut(h, m, serial, now)), other)
                         == if other == id then Some(FromPut(h, m, serial, now)) else Find(rows, other)
    {
      UpsertStores(rows, id, FromPut(h, m, serial, now), other);
    }
  }

  lemma {:induction false} MarkedStore(h: Hashes, s: Server, rows: seq<Row>, id: string, status: IndexStatus)
    requires Ordered(rows) && s.store.raw == AsMap(rows)
    ensures var s' := Serve(h, s, MarkIndexed(id, status));
            && s'.proc == s.proc && s'.store.lastSeq == s.store.lastSeq
            && s'.store.raw == AsMap(Rows.SetStatus(rows, id, status)) && Ordered(Rows.SetStatus(rows, id, status))
  {
    SetStatusAsMap(rows, id, status);
    SetStatusAt(rows, id, status);
  }

  /** The points from `k` on complete the whole pass. */
  ghost predicate Rest(g: IndexMachine.Setup, model: string, whole: Counts, indexed: nat, d: Derived, jobs: seq<Row>,
                       outcome: nat -> Outcome, k: nat)
    requires k <= |jobs|
    ensures Rest(g, model, whole, indexed, d, jobs, outcome, k) && k == |jobs| ==> whole.after == d && whole.indexed == indexed
  {
    var rest := HandleAll(g, model, d, jobs, outcome, k);
    whole.after == rest.after && whole.indexed == indexed + rest.indexed
  }

  lemma RestStep(g: IndexMachine.Setup, model: string, whole: Counts, indexed: nat, d: Derived, jobs: seq<Row>,
                 outcome: nat -> Outcome, k: nat)
    requires k < |jobs| && Rest(g, model, whole, indexed, d, jobs, outcome, k)
    ensures var h := HandleItem(g, model, d, jobs[k], outcome(k));
            Rest(g, model, whole, indexed + (if h.indexed then 1 else 0), h.after, jobs, outcome, k + 1)
  {
  }

  lemma {:induction false} UpsertAgrees(g: IndexMachine.Setup, rows: seq<Row>, vectors: IndexMachine.Vectors, id: string, record: MemoryRecord)
    requires Agrees(g, Derived(rows, vectors)) && id !in AsMap(rows) && record.index.Pending?
    ensures Agrees(g, Derived(Upsert(rows, id, record), vectors))
  {
    UpsertAsMap(rows, id, record);
    UpsertKeepsOrder(rows, id, record);
    assert IndexMachine.StatusOk(g, vectors, id, record.index);
    IndexMachine.RawGrowsKeeps(g, AsMap(rows), AsMap(Upsert(rows, id, record)), vectors);
  }

  lemma {:induction false} SerialsAreDistinct(h: Hashes, rows: seq<Row>, st: Store)
    requires StoreInv(h, st) && Ordered(rows) && st.raw == AsMap(rows)
    ensures DistinctSerials(rows)
  {
    AsMapHolds(rows);
    forall i, j | 0 <= i < j < |rows| ensures rows[i].Serial() != rows[j].Serial() {
      assert StrLess(rows[i].id, rows[j].id);
      assert st.raw[rows[i].id] == rows[i].record && st.raw[rows[j].id] == rows[j].record;
    }
  }

  /** At most one record is added, under `id`, and none is changed. */
  ghost predicate AddsAtMost(rows: seq<Row>, rows': seq<Row>, id: string) {
    && AsMap(rows').Keys <= AsMap(rows).Keys + {id}
    && forall i :: i in AsMap(rows) ==> i in AsMap(rows') && AsMap(rows')[i] == AsMap(rows)[i]
  }

  lemma {:induction false} UpsertAddsAtMost(rows: seq<Row>, id: string, record: MemoryRecord)
    requires id !in AsMap(rows)
    ensures AddsAtMost(rows, Upsert(rows, id, record), id) && Find(Upsert(rows, id, record), id) == Some(record)
  {
    UpsertAsMap(rows, id, record);
    FindLooksUp(Upsert(rows, id, record), id);
  }

  /** The first `put` wrote its record, though its answer may have been lost. */
  predicate Writes(lastSeq: Option<int>, c: Course) {
    c.lookup && (lastSeq.Some? || c.clockRead) && c.clockWrite.Done? && !c.rawWrite.Refused?
  }

  /** A client that repeats a keyed request gets one record, whichever answers were lost. */
  method PutTwice(s: MemoryService, m: MemoryPut, nonce: string, c: Course, nonce': string, c': Course)
    returns (first: PutResult, second: PutResult)
    requires s.Valid() && m.Keyed() && c'.lookup
    modifies s
    ensures s.Valid() && AddsAtMost(old(s.raw), s.raw, DeterministicId(s.setup.hashes, m, nonce))
    ensures first.Stored? ==> second == Duplicate(first.id, first.serial)
    ensures first.Duplicate? ==> second == first
    ensures first.Raised? && Writes(old(s.lastSeq), c) ==> second.Duplicate?
  {
    ghost var id := DeterministicId(s.setup.hashes, m, nonce);
    assert DeterministicId(s.setup.hashes, m, nonce') == id;
    ghost var before, before' := s.raw, s.lastSeq;
    FindLooksUp(s.raw, id);
    first := s.Put(m, nonce, c);
    ghost var n := NextTimeNs(before'.GetOr(old(s.meta)), c.clock);
    if id !in AsMap(before) {
      UpsertAddsAtMost(before, id, FromPut(s.setup.hashes, m, n, c.now));
    }
    ghost var between, n' := s.raw, NextTimeNs(s.lastSeq.GetOr(s.meta), c'.clock);
    FindLooksUp(s.raw, id);
    second := s.Put(m, nonce', c');
    if id !in AsMap(between) {
      UpsertAddsAtMost(between, id, FromPut(s.setup.hashes, m, n', c'.now));
    }
  }
}
