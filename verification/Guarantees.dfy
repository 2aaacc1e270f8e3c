/** What the protocol guarantees over whole runs. */
module Guarantees {
  import opened Basics
  import opened Records
  import opened ServerMachine
  import opened SpoolMachine
  import opened Protocol
  import Runs

  ghost predicate RunFrom(h: Hashes, s: State, run: seq<State>) {
    Run(h, run) && run[0] == s
  }

  ghost predicate KeptIn(h: Hashes, s: State, name: string) {
    Kept(h, s.spool, s.server.store.raw.Keys, name)
  }

  ghost predicate SecureIn(h: Hashes, s: State, name: string) {
    Secure(h, s.spool, s.server.store.raw.Keys, name)
  }

  lemma StartInv(h: Hashes)
    ensures Inv(h, START)
  {
    EmptyServerInv(h);
  }

  lemma SuccessorKeepsInv(h: Hashes, s: State, s': State)
    requires Succeeds(h, s, s') && Inv(h, s)
    ensures Inv(h, s')
  {
    var step :| Possible(h, s, step) && s' == Next(h, s, step);
    NextKeepsInv(h, s, step);
  }

  lemma RunKeepsInv(h: Hashes, run: seq<State>, i: nat, j: nat)
    requires Run(h, run) && i <= j < |run| && Inv(h, run[i])
    ensures Inv(h, run[j])
  {
    forall s, s' | Inv(h, s) && Succeeds(h, s, s') ensures Inv(h, s') {
      SuccessorKeepsInv(h, s, s');
    }
    Runs.Along(run, (s, s') => Succeeds(h, s, s'), s => Inv(h, s), i, j);
  }

  // ---- the raw collection -------------------------------------------------------------------------

  lemma NextIsAppendOnly(h: Hashes, s: State, step: Step)
    requires Inv(h, s) && Possible(h, s, step)
    ensures RawPreserved(s.server.store, Next(h, s, step).server.store)
    ensures AppearsAbove(s.server.store, Next(h, s, step).server.store)
  {
    match step
    case Remote(st) => ServeKeepsInv(h, s.server, st);
    case DaemonPushes => ServeKeepsInv(h, s.server, Submit(s.spool.daemon.memory, ""));
    case _ =>
  }

  lemma SuccessorIsAppendOnly(h: Hashes, s: State, s': State)
    requires Succeeds(h, s, s') && Inv(h, s)
    ensures RawPreserved(s.server.store, s'.server.store) && AppearsAbove(s.server.store, s'.server.store)
  {
    var step :| Possible(h, s, step) && s' == Next(h, s, step);
    NextIsAppendOnly(h, s, step);
  }

  ghost predicate Extends(h: Hashes, s: State, s': State) {
    Inv(h, s') && RawPreserved(s.server.store, s'.server.store) && AppearsAbove(s.server.store, s'.server.store)
  }

  lemma ExtendsOn(h: Hashes, s0: State, s: State, s': State)
    requires Extends(h, s0, s) && Succeeds(h, s, s')
    ensures Extends(h, s0, s')
  {
    SuccessorKeepsInv(h, s, s');
    SuccessorIsAppendOnly(h, s, s');
    AppendOnlyTransitive(s0.server.store, s.server.store, s'.server.store);
  }

  /**
   First writer wins over whole runs: once a record is stored it stays, its content never changes, and
   every record stored later has a higher serial than everything stored before.
   */
  lemma FirstWriterWins(h: Hashes, run: seq<State>, i: nat, j: nat)
    requires Run(h, run) && i <= j < |run| && Inv(h, run[i])
    ensures RawPreserved(run[i].server.store, run[j].server.store)
    ensures AppearsAbove(run[i].server.store, run[j].server.store)
  {
    forall s, s' | Extends(h, run[i], s) && Succeeds(h, s, s') ensures Extends(h, run[i], s') {
      ExtendsOn(h, run[i], s, s');
    }
    assert Extends(h, run[i], run[i]);
    Runs.Along(run, (s, s') => Succeeds(h, s, s'), s => Extends(h, run[i], s), i, j);
  }

  lemma AppendOnlyTransitive(a: Store, b: Store, c: Store)
    requires RawPreserved(a, b) && RawPreserved(b, c) && AppearsAbove(a, b) && AppearsAbove(b, c)
    ensures RawPreserved(a, c) && AppearsAbove(a, c)
  {
    forall id | id in c.raw && id !in a.raw ensures Below(a.raw, c.raw[id].Serial()) {
      if id in b.raw {
        assert Below(a.raw, b.raw[id].Serial());
      } else {
        assert Below(b.raw, c.raw[id].Serial());
      }
    }
  }

  /** At most one record per identity, and field by field it is what the request that wrote it says. */
  lemma OneRecordPerIdentity(h: Hashes, run: seq<State>, j: nat, i1: string, i2: string)
    requires RunFrom(h, START, run) && j < |run|
    requires i1 in run[j].server.store.raw && i2 in run[j].server.store.raw
    ensures var st := run[j].server.store;
            && i1 in st.origin && i2 in st.origin
            && Carries(h, st.raw[i1].core, st.origin[i1].memory, st.origin[i1].now)
            && ((st.origin[i1].memory.Keyed() && st.origin[i2].memory.Keyed()
                 && SameIdentity(st.origin[i1].memory, st.origin[i2].memory)) ==> i1 == i2)
  {
    StartInv(h);
    RunKeepsInv(h, run, 0, j);
    var st := run[j].server.store;
    assert Faithful(h, i1, st.raw[i1], st.origin[i1]) && Faithful(h, i2, st.raw[i2], st.origin[i2]);
  }

  // ---- nothing that was returned is lost ----------------------------------------------------------

  /** The request under this key is in a pending file or has its record. */
  ghost predicate KeyKept(h: Hashes, s: State, key: string) {
    || (exists n :: n in s.spool.pending.live && s.spool.pending.live[n].body.Whole?
                    && s.spool.pending.live[n].body.memory.idempotencyKey == Some(key))
    || (exists m :: m in s.spool.log && m.Keyed() && m.idempotencyKey == Some(key)
                    && DeterministicId(h, m, "") in s.server.store.raw)
  }

  /** No key that was ever spooled collides with this one. */
  ghost predicate KeyApart(h: Hashes, s: State, key: string) {
    forall m :: m in s.spool.log && m.Keyed() ==> NoClash(h.sha256, m.idempotencyKey.value, key)
  }

  lemma KeptMeansKeyKept(h: Hashes, s: State, key: string)
    requires KeyApart(h, s, key) && Inv(h, s) && key != "" && KeptIn(h, s, h.sha256(key))
    ensures KeyKept(h, s, key)
  {
    var name := h.sha256(key);
    if name in s.spool.pending.live {
      var e := s.spool.pending.live[name];
      assert h.sha256(e.body.memory.idempotencyKey.value) == h.sha256(key);
    } else {
      var m :| m in s.spool.log && m.Keyed() && SpoolName(h, m) == name
               && DeterministicId(h, m, "") in s.server.store.raw.Keys;
      assert h.sha256(m.idempotencyKey.value) == h.sha256(key);
    }
  }

  lemma NextKeepsSecure(h: Hashes, s: State, step: Step, name: string)
    requires Inv(h, s) && Possible(h, s, step) && SecureIn(h, s, name)
    ensures SecureIn(h, Next(h, s, step), name)
  {
    var ids := s.server.store.raw.Keys;
    match step
    case Local(st) => SecureIsStable(h, s.spool, ids, st, name);
    case DaemonIsAnswered => SecureIsStable(h, s.spool, ids, DaemonHears, name);
    case DaemonPushes => SecureIsStable(h, s.spool, ids, DaemonCalls(s.server.proc.nextToken), name);
    case Remote(st) =>
      NextIsAppendOnly(h, s, step);
      if Arrived(h, s.spool.log, ids, name) {
        ArrivedMonotone(h, s.spool.log, ids, s.spool.log, Next(h, s, step).server.store.raw.Keys, name);
      }
    case Read(_, _) =>
  }

  ghost predicate Safe(h: Hashes, s: State, name: string) {
    Inv(h, s) && SecureIn(h, s, name)
  }

  lemma SuccessorKeepsSafe(h: Hashes, s: State, s': State, name: string)
    requires Succeeds(h, s, s') && Safe(h, s, name)
    ensures Safe(h, s', name)
  {
    SuccessorKeepsInv(h, s, s');
    var step :| Possible(h, s, step) && s' == Next(h, s, step);
    NextKeepsSecure(h, s, step, name);
  }

  lemma SafeForever(h: Hashes, run: seq<State>, i: nat, j: nat, name: string)
    requires Run(h, run) && i <= j < |run| && Safe(h, run[i], name)
    ensures Safe(h, run[j], name)
  {
    forall s, s' | Safe(h, s, name) && Succeeds(h, s, s') ensures Safe(h, s', name) {
      SuccessorKeepsSafe(h, s, s', name);
    }
    Runs.Along(run, (s, s') => Succeeds(h, s, s'), s => Safe(h, s, name), i, j);
  }

  /** A power loss in which nothing that was not on disk survives. */
  lemma Blackout(h: Hashes, s: State) returns (run: seq<State>)
    requires Inv(h, s)
    ensures RunFrom(h, s, run) && |run| == 2
    ensures forall n :: n in run[1].spool.pending.live ==> n in s.spool.pending.disk
    ensures run[1].spool.log == s.spool.log && run[1].server == s.server
  {
    var blackout := Local(PowerLoss({}, {}));
    assert Possible(h, s, blackout);
    run := [s, Next(h, s, blackout)];
    assert Succeeds(h, run[0], run[1]);
  }

  /**
   The exact condition for durability: a name is kept in every future, power losses included, exactly
   when its entry is already on disk as well as live, or its record is stored.
   */
  lemma KeptForeverExactly(h: Hashes, s: State, name: string)
    requires Inv(h, s)
    ensures (forall run :: RunFrom(h, s, run) ==> KeptIn(h, run[|run| - 1], name)) <==> SecureIn(h, s, name)
  {
    if SecureIn(h, s, name) {
      forall run | RunFrom(h, s, run) ensures KeptIn(h, run[|run| - 1], name) {
        SafeForever(h, run, 0, |run| - 1, name);
      }
    }
    if forall run :: RunFrom(h, s, run) ==> KeptIn(h, run[|run| - 1], name) {
      assert RunFrom(h, s, [s]);
      assert KeptIn(h, [s][0], name);
      var run := Blackout(h, s);
      assert KeptIn(h, run[1], name);
    }
  }

  /** `put` returns in this step for this request. */
  ghost predicate PutReturns(s: State, step: Step, m: MemoryPut) {
    && step.Local? && m.Keyed()
    && (step.spoolStep.HookSyncs? || step.spoolStep.HookFindsReceipt? || step.spoolStep.HookFindsPending?)
    && step.spoolStep.task in s.spool.hooks && s.spool.hooks[step.spoolStep.task].memory == m
  }

  /** It returned after its own fsync, on a delivery receipt, or on a pending entry that was on disk. */
  ghost predicate ReturnsSynced(h: Hashes, s: State, step: Step, m: MemoryPut) {
    && PutReturns(s, step, m)
    && (step.spoolStep.HookFindsPending? ==> SpoolName(h, m) in s.spool.pending.disk)
  }

  lemma SyncedReturnIsSecure(h: Hashes, s: State, step: Step, m: MemoryPut)
    requires Inv(h, s) && Possible(h, s, step) && ReturnsSynced(h, s, step, m)
    ensures SecureIn(h, Next(h, s, step), SpoolName(h, m))
  {
    assert HookOk(h, s.spool, s.server.store.raw.Keys, s.spool.hooks[step.spoolStep.task]);
  }

  /** No loss: in every later state of every run the request is pending or stored. */
  lemma ReturnedPutIsNeverLost(h: Hashes, run: seq<State>, i: nat, j: nat, step: Step, m: MemoryPut)
    requires RunFrom(h, START, run) && i < j < |run| && m.Keyed() && KeyApart(h, run[j], m.idempotencyKey.value)
    requires Possible(h, run[i], step) && run[i + 1] == Next(h, run[i], step) && ReturnsSynced(h, run[i], step, m)
    ensures KeyKept(h, run[j], m.idempotencyKey.value)
  {
    StartInv(h);
    RunKeepsInv(h, run, 0, i);
    NextKeepsInv(h, run[i], step);
    SyncedReturnIsSecure(h, run[i], step, m);
    SafeForever(h, run, i + 1, j, SpoolName(h, m));
    KeptMeansKeyKept(h, run[j], m.idempotencyKey.value);
  }

  /**
   The early return on an existing pending file is safe exactly when that file's directory entry has
   reached the disk, or its record is stored: `put` does not repeat the directory fsync on that path.
   */
  lemma EarlyReturnIsSafeExactly(h: Hashes, s: State, step: Step, m: MemoryPut)
    requires Inv(h, s) && Possible(h, s, step) && PutReturns(s, step, m) && step.spoolStep.HookFindsPending?
    ensures (forall run :: RunFrom(h, Next(h, s, step), run) ==> KeptIn(h, run[|run| - 1], SpoolName(h, m)))
            <==> (SpoolName(h, m) in s.spool.pending.disk
                  || Arrived(h, s.spool.log, s.server.store.raw.Keys, SpoolName(h, m)))
  {
    NextKeepsInv(h, s, step);
    KeptForeverExactly(h, Next(h, s, step), SpoolName(h, m));
  }

  ghost predicate SucceedsPowered(h: Hashes, s: State, s': State) {
    exists step :: Possible(h, s, step) && !(step.Local? && step.spoolStep.PowerLoss?) && s' == Next(h, s, step)
  }

  ghost predicate AllReturnedKept(h: Hashes, s: State) {
    forall key :: key in s.spool.returned ==> key != "" && KeptIn(h, s, h.sha256(key))
  }

  lemma PoweredStepKeepsName(h: Hashes, s: State, step: Step, name: string)
    requires Inv(h, s) && Possible(h, s, step) && !(step.Local? && step.spoolStep.PowerLoss?)
    requires KeptIn(h, s, name)
    ensures KeptIn(h, Next(h, s, step), name)
  {
    var ids := s.server.store.raw.Keys;
    match step
    case Local(st) => KeptIsStable(h, s.spool, ids, st, name);
    case DaemonIsAnswered => KeptIsStable(h, s.spool, ids, DaemonHears, name);
    case DaemonPushes => KeptIsStable(h, s.spool, ids, DaemonCalls(s.server.proc.nextToken), name);
    case Remote(st) =>
      NextIsAppendOnly(h, s, step);
      if Arrived(h, s.spool.log, ids, name) {
        ArrivedMonotone(h, s.spool.log, ids, s.spool.log, Next(h, s, step).server.store.raw.Keys, name);
      }
    case Read(_, _) =>
  }

  lemma OnlyHooksReturn(h: Hashes, s: State, step: Step)
    requires Possible(h, s, step) && !step.Local?
    ensures Next(h, s, step).spool.returned == s.spool.returned
  {
  }

  ghost predicate Sound(h: Hashes, s: State) {
    Inv(h, s) && AllReturnedKept(h, s)
  }

  lemma PoweredSuccessorIsSound(h: Hashes, s: State, s': State)
    requires Sound(h, s) && SucceedsPowered(h, s, s')
    ensures Sound(h, s')
  {
    var step :| Possible(h, s, step) && !(step.Local? && step.spoolStep.PowerLoss?) && s' == Next(h, s, step);
    NextKeepsInv(h, s, step);
    forall key | key in s'.spool.returned ensures key != "" && KeptIn(h, s', h.sha256(key)) {
      if key in s.spool.returned {
        PoweredStepKeepsName(h, s, step, h.sha256(key));
      } else {
        if !step.Local? {
          OnlyHooksReturn(h, s, step);
        }
        ReturnIsKept(h, s.spool, s.server.store.raw.Keys, step.spoolStep, key);
      }
    }
  }

  /** With process crashes but no power loss, every `put` that returned is kept, early returns included. */
  lemma ProcessCrashesLoseNothing(h: Hashes, run: seq<State>, j: nat)
    requires j < |run| && run[0] == START
    requires forall i :: 0 <= i < |run| - 1 ==> SucceedsPowered(h, run[i], run[i + 1])
    ensures forall key :: key in run[j].spool.returned && KeyApart(h, run[j], key) ==> KeyKept(h, run[j], key)
  {
    StartInv(h);
    forall s, s' | Sound(h, s) && SucceedsPowered(h, s, s') ensures Sound(h, s') {
      PoweredSuccessorIsSound(h, s, s');
    }
    Runs.Along(run, (s, s') => SucceedsPowered(h, s, s'), s => Sound(h, s), 0, j);
    forall key | key in run[j].spool.returned && KeyApart(h, run[j], key) ensures KeyKept(h, run[j], key) {
      KeptMeansKeyKept(h, run[j], key);
    }
  }

  /** What `put` wrote is never taken for malformed data. */
  lemma SpooledFilesAreNeverCondemned(h: Hashes, run: seq<State>, j: nat)
    requires RunFrom(h, START, run) && j < |run|
    ensures !run[j].spool.daemon.Condemned?
    ensures forall n :: n in run[j].spool.pending.live ==> run[j].spool.pending.live[n].body.Whole?
  {
    StartInv(h);
    RunKeepsInv(h, run, 0, j);
  }

  // ---- a concrete loss -----------------------------------------------------------------------------

  lemma Then(h: Hashes, run: seq<State>, st: SpoolStep) returns (longer: seq<State>)
    requires RunFrom(h, START, run) && Possible(h, run[|run| - 1], Local(st))
    ensures RunFrom(h, START, longer) && longer[|longer| - 1] == Next(h, run[|run| - 1], Local(st))
  {
    var n := |run|;
    longer := run + [Next(h, run[n - 1], Local(st))];
    forall i | 0 <= i < |longer| - 1 ensures Succeeds(h, longer[i], longer[i + 1]) {
      if i < n - 1 {
        assert Succeeds(h, run[i], run[i + 1]);
      } else {
        assert Possible(h, longer[i], Local(st)) && longer[i + 1] == Next(h, longer[i], Local(st));
      }
    }
  }

  /** The first process has renamed its file into pending and has not yet synced the directory. */
  ghost predicate PlacedUnsynced(h: Hashes, s: State, m: MemoryPut) {
    && m.Keyed()
    && s == START.(spool := EMPTY_SPOOL.(hooks := map[0 := Placed(m)],
                                         pending := Directory(map[SpoolName(h, m) := Entry(Whole(m), true)], map[]),
                                         log := {m}))
  }

  lemma ReachPlacedUnsynced(h: Hashes, m: MemoryPut) returns (run: seq<State>)
    requires m.Keyed()
    ensures RunFrom(h, START, run) && PlacedUnsynced(h, run[|run| - 1], m)
  {
    run := Then(h, [START], HookStarts(0, m));
    run := Then(h, run, HookMissesPending(0));
    run := Then(h, run, HookMissesReceipt(0));
    run := Then(h, run, HookWrites(0));
    run := Then(h, run, HookFlushes(0));
    run := Then(h, run, HookRenames(0));
    assert run[|run| - 1].spool.hooks == map[0 := Placed(m)];
  }

  /**
   A returned put that is lost: the first process dies between the rename and the directory fsync, a
   retry sees the file and returns, and the power fails.
   */
  lemma ReturnedPutCanBeLost(h: Hashes, m: MemoryPut) returns (run: seq<State>)
    requires m.Keyed()
    ensures RunFrom(h, START, run)
    ensures var last := run[|run| - 1];
            m.idempotencyKey.value in last.spool.returned && !KeptIn(h, last, SpoolName(h, m))
  {
    run := ReachPlacedUnsynced(h, m);
    run := Then(h, run, HookDies(0));
    run := Then(h, run, HookStarts(0, m));
    run := Then(h, run, HookFindsPending(0));
    run := Then(h, run, PowerLoss({}, {}));
  }

  // ---- the cursor reader ---------------------------------------------------------------------------

  /**
   At every moment the consumer has been given exactly the records up to its cursor, each once, in
   ascending serial order; whatever becomes visible later lies above the cursor.
   */
  lemma ReaderMissesNothing(h: Hashes, run: seq<State>, i: nat, j: nat)
    requires RunFrom(h, START, run) && i <= j < |run|
    ensures var raw, r := run[j].server.store.raw, run[j].reader;
            && Ascending(raw, r.seen)
            && forall id :: id in raw ==> (id in r.seen <==> raw[id].Serial() <= r.cursor)
    ensures forall id :: id in run[j].server.store.raw && id !in run[i].server.store.raw ==>
              run[i].reader.cursor < run[j].server.store.raw[id].Serial()
  {
    StartInv(h);
    RunKeepsInv(h, run, 0, i);
    RunKeepsInv(h, run, i, j);
    FirstWriterWins(h, run, i, j);
    var r := run[i].reader;
    forall id | id in run[j].server.store.raw && id !in run[i].server.store.raw
      ensures r.cursor < run[j].server.store.raw[id].Serial()
    {
      assert Below(run[i].server.store.raw, run[j].server.store.raw[id].Serial());
      if r.cursor != 0 {
        var top :| top in run[i].server.store.raw && run[i].server.store.raw[top].Serial() == r.cursor;
      }
    }
  }

  /** A read shows something whenever something is unread, and one without `has_more` shows it all. */
  lemma ReadsDrain(h: Hashes, s: State, limit: nat, page: seq<string>)
    requires Inv(h, s) && Possible(h, s, Read(limit, page)) && 1 <= limit
    ensures Shown(limit, page) == [] ==>
              forall id :: id in s.server.store.raw ==> id in s.reader.seen
    ensures |page| <= limit ==>
              forall id :: id in s.server.store.raw ==> id in Next(h, s, Read(limit, page)).reader.seen
  {
    var raw, r := s.server.store.raw, s.reader;
    forall id | id in raw ensures |page| <= limit ==> id in r.seen + Shown(limit, page) {
      if |page| <= limit && r.cursor < raw[id].Serial() {
        assert Shown(limit, page) == page;
        assert id in page;
      }
    }
    assert Shown(limit, page) == [] ==> r.seen + Shown(limit, page) == r.seen;
  }

  /** End to end: with pending empty and the reader drained, a secure request has been read. */
  lemma SecureRequestIsRead(h: Hashes, s: State, m: MemoryPut, limit: nat, page: seq<string>)
    requires Inv(h, s) && m.Keyed() && SecureIn(h, s, SpoolName(h, m)) && s.spool.pending.live == map[]
    requires Possible(h, s, Read(limit, page)) && |page| <= limit && 1 <= limit
    ensures exists p :: p in s.spool.log && p.Keyed() && SpoolName(h, p) == SpoolName(h, m)
                        && DeterministicId(h, p, "") in Next(h, s, Read(limit, page)).reader.seen
  {
    var p :| p in s.spool.log && p.Keyed() && SpoolName(h, p) == SpoolName(h, m)
             && DeterministicId(h, p, "") in s.server.store.raw.Keys;
    ReadsDrain(h, s, limit, page);
    assert DeterministicId(h, p, "") in Next(h, s, Read(limit, page)).reader.seen;
  }
}
