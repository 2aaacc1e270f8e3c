/**
 `MemoryService.put` and `_next_seq` (memorybridge/service.py) as a machine that can stop at
 every `await`.  The put lock admits one call at a time; every call into Qdrant may fail, with or
 without having taken effect; the process may restart at any point; the clock may run backwards.
 */
module ServerMachine {
  import opened Basics
  import opened Records

  datatype Call = Call(memory: MemoryPut, id: string)
  datatype Origin = Origin(memory: MemoryPut, now: int)

  /** What Qdrant holds.  `origin` is history: the request behind each raw point. */
  datatype Store = Store(raw: map<string, MemoryRecord>, origin: map<string, Origin>, lastSeq: int)

  datatype StoreOp =
    | Nothing
    | PutClock(serial: int)
    | PutRaw(call: Call, serial: int, now: int)
    | SetIndex(id: string, status: IndexStatus)

  function Apply(h: Hashes, st: Store, op: StoreOp): Store {
    match op
    case Nothing => st
    case PutClock(n) => st.(lastSeq := n)
    case PutRaw(c, n, now) =>
      st.(raw := st.raw[c.id := FromPut(h, c.memory, n, now)], origin := st.origin[c.id := Origin(c.memory, now)])
    case SetIndex(id, status) =>
      if id in st.raw then st.(raw := st.raw[id := st.raw[id].(index := status)]) else st
  }

  /** Where the call that holds the put lock is suspended. */
  datatype Point =
    | Lookup                // reading the raw point
    | Clock                 // entering _next_seq
    | Persist(serial: int)  // writing the sequence clock to the meta collection
    | Write(serial: int)    // writing the raw point

  datatype Lock = Free | Held(token: nat, call: Call, point: Point)

  /** The process: queued calls, the put lock, the in-memory `_last_seq`, and the answers sent so far. */
  datatype Process = Process(waiting: map<nat, Call>, lock: Lock, lastSeq: Option<int>,
                             answered: map<nat, Call>, nextToken: nat)

  datatype Server = Server(store: Store, proc: Process)

  const EMPTY_SERVER := Server(Store(map[], map[], 0), Process(map[], Free, None, map[], 0))

  datatype ServerStep =
    | Submit(memory: MemoryPut, nonce: string)
    | Acquire(token: nat)
    | Hit
    | Miss
    | LoadClock
    | Tick(clock: int)
    | ClockStored
    | ClockFails(effect: bool)
    | RawStored(now: int)
    | RawFails(effect: bool, now: int)
    | ReadFails
    | MarkIndexed(id: string, status: IndexStatus)
    | Restart

  predicate Enabled(s: Server, step: ServerStep) {
    var p, raw := s.proc, s.store.raw;
    match step
    case Acquire(t) => p.lock.Free? && t in p.waiting
    case Hit => p.lock.Held? && p.lock.point.Lookup? && p.lock.call.id in raw
    case Miss => p.lock.Held? && p.lock.point.Lookup? && p.lock.call.id !in raw
    case LoadClock => p.lock.Held? && p.lock.point.Clock? && p.lastSeq.None?
    case Tick(_) => p.lock.Held? && p.lock.point.Clock? && p.lastSeq.Some?
    case ClockStored => p.lock.Held? && p.lock.point.Persist?
    case ClockFails(_) => p.lock.Held? && p.lock.point.Persist?
    case RawStored(_) => p.lock.Held? && p.lock.point.Write?
    case RawFails(_, _) => p.lock.Held? && p.lock.point.Write?
    case ReadFails => p.lock.Held? && (p.lock.point.Lookup? || p.lock.point.Clock?)
    case MarkIndexed(_, _) => true
    case Submit(_, _) => true
    case Restart => true
  }

  /** What the step does to the store ... */
  function Effect(s: Server, step: ServerStep): StoreOp
    requires Enabled(s, step)
  {
    match step
    case ClockStored => PutClock(s.proc.lock.point.serial)
    case ClockFails(effect) => if effect then PutClock(s.proc.lock.point.serial) else Nothing
    case RawStored(now) => PutRaw(s.proc.lock.call, s.proc.lock.point.serial, now)
    case RawFails(effect, now) => if effect then PutRaw(s.proc.lock.call, s.proc.lock.point.serial, now) else Nothing
    case MarkIndexed(id, status) => SetIndex(id, status)
    case _ => Nothing
  }

  function Release(p: Process): Process {
    p.(lock := Free)
  }

  function Answer(p: Process): Process
    requires p.lock.Held?
  {
    p.(lock := Free, answered := p.answered[p.lock.token := p.lock.call])
  }

  function MoveTo(p: Process, point: Point): Process
    requires p.lock.Held?
  {
    p.(lock := p.lock.(point := point))
  }

  /** ... and to the process. */
  function Advanced(h: Hashes, s: Server, step: ServerStep): Process
    requires Enabled(s, step)
  {
    var p := s.proc;
    match step
    case Submit(m, nonce) =>
      p.(waiting := p.waiting[p.nextToken := Call(m, DeterministicId(h, m, nonce))], nextToken := p.nextToken + 1)
    case Acquire(t) => p.(waiting := p.waiting - {t}, lock := Held(t, p.waiting[t], Lookup))
    case Hit => Answer(p)
    case Miss => MoveTo(p, Clock)
    case LoadClock => p.(lastSeq := Some(s.store.lastSeq))
    case Tick(clock) =>
      var n := NextTimeNs(p.lastSeq.value, clock);
      MoveTo(p.(lastSeq := Some(n)), Persist(n))
    case ClockStored => MoveTo(p, Write(p.lock.point.serial))
    case ClockFails(_) => Release(p)
    case RawStored(_) => Answer(p)
    case RawFails(_, _) => Release(p)
    case ReadFails => Release(p)
    case MarkIndexed(_, _) => p
    case Restart => p.(waiting := map[], lock := Free, lastSeq := None)
  }

  function Serve(h: Hashes, s: Server, step: ServerStep): Server
    requires Enabled(s, step)
  {
    Server(Apply(h, s.store, Effect(s, step)), Advanced(h, s, step))
  }

  ghost predicate CallFits(h: Hashes, c: Call) {
    c.memory.Keyed() ==> c.id == DeterministicId(h, c.memory, "")
  }

  /** Up to its serial and its index fields the record is what the request says. */
  ghost predicate Faithful(h: Hashes, id: string, record: MemoryRecord, o: Origin) {
    CallFits(h, Call(o.memory, id)) && Carries(h, record.core, o.memory, o.now)
  }

  /** Serials are distinct, positive and at most the stored clock; every record stems from one request. */
  ghost predicate StoreInv(h: Hashes, st: Store) {
    && 0 <= st.lastSeq
    && (forall id :: id in st.raw ==> 1 <= st.raw[id].Serial() <= st.lastSeq)
    && (forall i, j :: i in st.raw && j in st.raw && st.raw[i].Serial() == st.raw[j].Serial() ==> i == j)
    && st.origin.Keys == st.raw.Keys
    && forall id :: id in st.raw ==> Faithful(h, id, st.raw[id], st.origin[id])
  }

  ghost predicate Below(raw: map<string, MemoryRecord>, n: int) {
    forall id :: id in raw ==> raw[id].Serial() < n
  }

  ghost predicate OpOk(h: Hashes, st: Store, op: StoreOp) {
    match op
    case Nothing => true
    case PutClock(n) => st.lastSeq < n
    case PutRaw(c, n, now) => CallFits(h, c) && c.id !in st.raw && 1 <= n <= st.lastSeq && Below(st.raw, n)
    case SetIndex(id, status) => true
  }

  /** First writer wins: a raw point never disappears and only its index fields ever change. */
  ghost predicate RawPreserved(st: Store, st': Store) {
    forall id :: id in st.raw ==> id in st'.raw && st'.raw[id].core == st.raw[id].core
  }

  /** A point that becomes visible has a serial above everything visible before. */
  ghost predicate AppearsAbove(st: Store, st': Store) {
    forall id :: id in st'.raw && id !in st.raw ==> Below(st.raw, st'.raw[id].Serial())
  }

  lemma PutRawKeepsStore(h: Hashes, st: Store, c: Call, n: int, now: int)
    requires StoreInv(h, st) && OpOk(h, st, PutRaw(c, n, now))
    ensures StoreInv(h, Apply(h, st, PutRaw(c, n, now)))
    ensures RawPreserved(st, Apply(h, st, PutRaw(c, n, now))) && AppearsAbove(st, Apply(h, st, PutRaw(c, n, now)))
  {
    assert Faithful(h, c.id, FromPut(h, c.memory, n, now), Origin(c.memory, now));
  }

  lemma SetIndexKeepsStore(h: Hashes, st: Store, id: string, status: IndexStatus)
    requires StoreInv(h, st) && id in st.raw
    ensures StoreInv(h, Apply(h, st, SetIndex(id, status)))
    ensures RawPreserved(st, Apply(h, st, SetIndex(id, status)))
  {
    var st' := Apply(h, st, SetIndex(id, status));
    assert st'.raw.Keys == st.raw.Keys;
    assert forall i :: i in st.raw ==> st'.raw[i].core == st.raw[i].core;
    forall i | i in st'.raw ensures Faithful(h, i, st'.raw[i], st'.origin[i]) {
      assert Faithful(h, i, st.raw[i], st.origin[i]);
    }
  }

  lemma ApplyKeepsStore(h: Hashes, st: Store, op: StoreOp)
    requires StoreInv(h, st) && OpOk(h, st, op)
    ensures StoreInv(h, Apply(h, st, op))
    ensures RawPreserved(st, Apply(h, st, op)) && AppearsAbove(st, Apply(h, st, op))
  {
    match op
    case PutRaw(c, n, now) => PutRawKeepsStore(h, st, c, n, now);
    case SetIndex(id, status) => if id in st.raw { SetIndexKeepsStore(h, st, id, status); }
    case _ =>
  }

  ghost predicate ClockOk(s: Server) {
    s.proc.lastSeq.Some? ==> s.store.lastSeq <= s.proc.lastSeq.value
  }

  ghost predicate LockOk(s: Server) {
    s.proc.lock.Held? && !s.proc.lock.point.Lookup? ==>
      && s.proc.lock.call.id !in s.store.raw
      && match s.proc.lock.point
         case Persist(n) => s.proc.lastSeq == Some(n) && s.store.lastSeq < n
         case Write(n) => s.proc.lastSeq == Some(n) && s.store.lastSeq == n && 1 <= n && Below(s.store.raw, n)
         case _ => true
  }

  ghost predicate TokensOk(h: Hashes, s: Server) {
    var p := s.proc;
    && (forall t :: t in p.waiting ==> t < p.nextToken && t !in p.answered && CallFits(h, p.waiting[t]))
    && (forall t :: t in p.answered ==> t < p.nextToken && p.answered[t].id in s.store.raw && CallFits(h, p.answered[t]))
    && (p.lock.Held? ==> p.lock.token < p.nextToken && p.lock.token !in p.waiting && p.lock.token !in p.answered
                         && CallFits(h, p.lock.call))
  }

  ghost predicate ServerInv(h: Hashes, s: Server) {
    StoreInv(h, s.store) && ClockOk(s) && LockOk(s) && TokensOk(h, s)
  }

  lemma EmptyServerInv(h: Hashes)
    ensures ServerInv(h, EMPTY_SERVER)
  {
  }

  lemma EffectIsOk(h: Hashes, s: Server, step: ServerStep)
    requires ServerInv(h, s) && Enabled(s, step)
    ensures OpOk(h, s.store, Effect(s, step))
  {
  }

  lemma ServeKeepsLock(h: Hashes, s: Server, step: ServerStep)
    requires ServerInv(h, s) && Enabled(s, step)
    ensures ClockOk(Serve(h, s, step)) && LockOk(Serve(h, s, step))
  {
  }

  lemma ServeKeepsTokens(h: Hashes, s: Server, step: ServerStep)
    requires ServerInv(h, s) && Enabled(s, step)
    ensures TokensOk(h, Serve(h, s, step))
  {
  }

  /** Every step keeps the invariant, never loses or rewrites a record, and appends in serial order. */
  lemma ServeKeepsInv(h: Hashes, s: Server, step: ServerStep)
    requires ServerInv(h, s) && Enabled(s, step)
    ensures ServerInv(h, Serve(h, s, step))
    ensures RawPreserved(s.store, Serve(h, s, step).store)
    ensures AppearsAbove(s.store, Serve(h, s, step).store)
  {
    EffectIsOk(h, s, step);
    ApplyKeepsStore(h, s.store, Effect(s, step));
    ServeKeepsLock(h, s, step);
    ServeKeepsTokens(h, s, step);
  }
}
