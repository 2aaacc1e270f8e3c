/**
 The local spool (memorybridge/spool.py) as a machine over single file operations.  Hook processes run
 `LocalSpool.put`; the daemon runs the delivery loop of `sync_once` with `mark_sent`.  A directory has
 a live view and the view on disk: `fsync` on the directory copies the first to the second, and a power
 loss leaves every entry in one of the two.  File contents survive a power loss only if they were
 flushed.  A directory fsync that is reached succeeds.
 */
module SpoolMachine {
  import opened Basics
  import opened Records

  datatype Body = Whole(memory: MemoryPut) | Torn
  datatype Entry = Entry(body: Body, flushed: bool)
  datatype Directory = Directory(live: map<string, Entry>, disk: map<string, Entry>)

  function Sync(d: Directory): Directory {
    d.(disk := d.live)
  }

  function Settle(e: Entry): Entry {
    if e.flushed then e else Entry(Torn, true)
  }

  /** After a power loss the names in `kept` are as they were live, all others as they were on disk. */
  function AfterPowerLoss(d: Directory, kept: set<string>): Directory {
    var left := map n | n in d.live.Keys + d.disk.Keys && (if n in kept then n in d.live else n in d.disk) ::
                  Settle(if n in kept then d.live[n] else d.disk[n]);
    Directory(left, left)
  }

  /** Where a process running `put` is suspended. */
  datatype Hook =
    | CheckPending(memory: MemoryPut)
    | CheckReceipts(memory: MemoryPut)
    | Missing(memory: MemoryPut)
    | Temporary(memory: MemoryPut, flushed: bool)
    | Placed(memory: MemoryPut)

  /** Where the daemon is suspended. */
  datatype Daemon =
    | Resting
    | Loaded(name: string, memory: MemoryPut)
    | Condemned(name: string)
    | Calling(name: string, memory: MemoryPut, token: nat)
    | Delivered(name: string)
    | Moved
    | PendingSynced
    | Pruning

  /** `log` and `returned` are history: what was given to `put`, and the keys for which it returned. */
  datatype Spool = Spool(
    hooks: map<nat, Hook>,
    daemon: Daemon,
    pending: Directory,
    sent: Directory,
    log: set<MemoryPut>,
    returned: set<string>)

  const EMPTY_SPOOL :=
    Spool(map[], Resting, Directory(map[], map[]), Directory(map[], map[]), {}, {})

  function SpoolName(h: Hashes, m: MemoryPut): string
    requires m.Keyed()
  {
    h.sha256(m.idempotencyKey.value)
  }

  datatype SpoolStep =
    | HookStarts(task: nat, memory: MemoryPut)
    | HookFindsPending(task: nat)
    | HookMissesPending(task: nat)
    | HookFindsReceipt(task: nat)
    | HookMissesReceipt(task: nat)
    | HookWrites(task: nat)
    | HookFlushes(task: nat)
    | HookRenames(task: nat)
    | HookSyncs(task: nat)
    | HookDies(task: nat)
    | DaemonReads(name: string)
    | DaemonQuarantines
    | DaemonCalls(token: nat)
    | DaemonHears
    | DaemonMoves
    | DaemonSyncsPending
    | DaemonSyncsReceipts
    | DaemonPrunes(name: string)
    | DaemonRests
    | PowerLoss(keptPending: set<string>, keptReceipts: set<string>)

  predicate HookAt(sp: Spool, task: nat) {
    task in sp.hooks && sp.hooks[task].memory.Keyed()
  }

  predicate SpoolEnabled(h: Hashes, sp: Spool, step: SpoolStep) {
    match step
    case HookStarts(t, m) => t !in sp.hooks && m.Keyed()
    case HookFindsPending(t) =>
      HookAt(sp, t) && sp.hooks[t].CheckPending? && SpoolName(h, sp.hooks[t].memory) in sp.pending.live
    case HookMissesPending(t) =>
      HookAt(sp, t) && sp.hooks[t].CheckPending? && SpoolName(h, sp.hooks[t].memory) !in sp.pending.live
    case HookFindsReceipt(t) =>
      HookAt(sp, t) && sp.hooks[t].CheckReceipts? && SpoolName(h, sp.hooks[t].memory) in sp.sent.live
    case HookMissesReceipt(t) =>
      HookAt(sp, t) && sp.hooks[t].CheckReceipts? && SpoolName(h, sp.hooks[t].memory) !in sp.sent.live
    case HookWrites(t) => HookAt(sp, t) && sp.hooks[t].Missing?
    case HookFlushes(t) => HookAt(sp, t) && sp.hooks[t].Temporary? && !sp.hooks[t].flushed
    case HookRenames(t) => HookAt(sp, t) && sp.hooks[t].Temporary? && sp.hooks[t].flushed
    case HookSyncs(t) => HookAt(sp, t) && sp.hooks[t].Placed?
    case HookDies(t) => t in sp.hooks
    case DaemonReads(name) => sp.daemon.Resting? && name in sp.pending.live
    case DaemonQuarantines => sp.daemon.Condemned? && sp.daemon.name in sp.pending.live
    case DaemonCalls(_) => sp.daemon.Loaded?
    case DaemonHears => sp.daemon.Calling?
    case DaemonMoves => sp.daemon.Delivered? && sp.daemon.name in sp.pending.live
    case DaemonSyncsPending => sp.daemon.Moved?
    case DaemonSyncsReceipts => sp.daemon.PendingSynced?
    case DaemonPrunes(name) => sp.daemon.Pruning? && name in sp.sent.live
    case DaemonRests => true
    case PowerLoss(_, _) => true
  }

  function Become(sp: Spool, task: nat, hook: Hook): Spool {
    sp.(hooks := sp.hooks[task := hook])
  }

  function Return(sp: Spool, task: nat): Spool
    requires HookAt(sp, task)
  {
    sp.(hooks := sp.hooks - {task}, returned := sp.returned + {sp.hooks[task].memory.idempotencyKey.value})
  }

  function Place(d: Directory, name: string, e: Entry): Directory {
    d.(live := d.live[name := e])
  }

  function Unlink(d: Directory, name: string): Directory {
    d.(live := d.live - {name})
  }

  function Advance(h: Hashes, sp: Spool, step: SpoolStep): Spool
    requires SpoolEnabled(h, sp, step)
  {
    match step
    case HookStarts(t, m) => Become(sp, t, CheckPending(m)).(log := sp.log + {m})
    case HookFindsPending(t) => Return(sp, t)
    case HookMissesPending(t) => Become(sp, t, CheckReceipts(sp.hooks[t].memory))
    case HookFindsReceipt(t) => Return(sp, t)
    case HookMissesReceipt(t) => Become(sp, t, Missing(sp.hooks[t].memory))
    case HookWrites(t) => Become(sp, t, Temporary(sp.hooks[t].memory, false))
    case HookFlushes(t) => Become(sp, t, Temporary(sp.hooks[t].memory, true))
    case HookRenames(t) =>
      var m := sp.hooks[t].memory;
      Become(sp, t, Placed(m))
        .(pending := Place(sp.pending, SpoolName(h, m), Entry(Whole(m), sp.hooks[t].flushed)))
    case HookSyncs(t) => Return(sp, t).(pending := Sync(sp.pending))
    case HookDies(t) => sp.(hooks := sp.hooks - {t})
    case DaemonReads(name) =>
      (match sp.pending.live[name].body
       case Whole(m) => sp.(daemon := Loaded(name, m))
       case Torn => sp.(daemon := Condemned(name)))
    case DaemonQuarantines => sp.(daemon := Resting, pending := Sync(Unlink(sp.pending, sp.daemon.name)))
    case DaemonCalls(token) => sp.(daemon := Calling(sp.daemon.name, sp.daemon.memory, token))
    case DaemonHears => sp.(daemon := Delivered(sp.daemon.name))
    case DaemonMoves =>
      sp.(daemon := Moved, pending := Unlink(sp.pending, sp.daemon.name),
          sent := Place(sp.sent, sp.daemon.name, sp.pending.live[sp.daemon.name]))
    case DaemonSyncsPending => sp.(daemon := PendingSynced, pending := Sync(sp.pending))
    case DaemonSyncsReceipts => sp.(daemon := Pruning, sent := Sync(sp.sent))
    case DaemonPrunes(name) => sp.(sent := Unlink(sp.sent, name))
    case DaemonRests => sp.(daemon := Resting)
    case PowerLoss(keptPending, keptReceipts) =>
      sp.(hooks := map[], daemon := Resting,
          pending := AfterPowerLoss(sp.pending, keptPending), sent := AfterPowerLoss(sp.sent, keptReceipts))
  }

  /** A request spooled under this name has its record; `stored` are the ids of the raw collection. */
  ghost predicate Arrived(h: Hashes, log: set<MemoryPut>, stored: set<string>, name: string) {
    exists m :: m in log && m.Keyed() && SpoolName(h, m) == name && DeterministicId(h, m, "") in stored
  }

  ghost predicate Fits(h: Hashes, log: set<MemoryPut>, name: string, m: MemoryPut) {
    m in log && m.Keyed() && SpoolName(h, m) == name
  }

  ghost predicate EntriesOk(h: Hashes, log: set<MemoryPut>, entries: map<string, Entry>) {
    forall n :: n in entries ==>
      entries[n].flushed && entries[n].body.Whole? && Fits(h, log, n, entries[n].body.memory)
  }

  ghost predicate ReceiptsOk(h: Hashes, log: set<MemoryPut>, stored: set<string>, entries: map<string, Entry>) {
    forall n :: n in entries ==> entries[n].flushed && Arrived(h, log, stored, n)
  }

  ghost predicate Kept(h: Hashes, sp: Spool, stored: set<string>, name: string) {
    name in sp.pending.live || Arrived(h, sp.log, stored, name)
  }

  /** Kept, and beyond the reach of a power loss. */
  ghost predicate Secure(h: Hashes, sp: Spool, stored: set<string>, name: string) {
    (name in sp.pending.live && name in sp.pending.disk) || Arrived(h, sp.log, stored, name)
  }

  ghost predicate HookOk(h: Hashes, sp: Spool, stored: set<string>, hook: Hook) {
    hook.memory in sp.log && hook.memory.Keyed()
    && (hook.Placed? ==> Kept(h, sp, stored, SpoolName(h, hook.memory)))
  }

  ghost predicate DaemonOk(h: Hashes, sp: Spool, stored: set<string>) {
    match sp.daemon
    case Loaded(n, m) => Fits(h, sp.log, n, m)
    case Calling(n, m, _) => Fits(h, sp.log, n, m)
    case Condemned(_) => false
    case Delivered(n) => Arrived(h, sp.log, stored, n)
    case _ => true
  }

  ghost predicate SpoolInv(h: Hashes, sp: Spool, stored: set<string>) {
    && EntriesOk(h, sp.log, sp.pending.live) && EntriesOk(h, sp.log, sp.pending.disk)
    && ReceiptsOk(h, sp.log, stored, sp.sent.live) && ReceiptsOk(h, sp.log, stored, sp.sent.disk)
    && (forall t :: t in sp.hooks ==> HookOk(h, sp, stored, sp.hooks[t]))
    && DaemonOk(h, sp, stored)
  }

  /** The answer the daemon waits for is only given when the record is there. */
  ghost predicate AnswerIsTrue(h: Hashes, sp: Spool, stored: set<string>, step: SpoolStep) {
    step.DaemonHears? && sp.daemon.Calling? ==>
      DeterministicId(h, sp.daemon.memory, "") in stored
  }

  lemma ArrivedMonotone(h: Hashes, log: set<MemoryPut>, stored: set<string>,
                        log': set<MemoryPut>, stored': set<string>, name: string)
    requires log <= log' && stored <= stored' && Arrived(h, log, stored, name)
    ensures Arrived(h, log', stored', name)
  {
    var m :| m in log && m.Keyed() && SpoolName(h, m) == name && DeterministicId(h, m, "") in stored;
    assert m in log' && DeterministicId(h, m, "") in stored';
  }

  /** A server step or a logged request only ever adds: what held about arrival keeps holding. */
  lemma SpoolInvMonotone(h: Hashes, sp: Spool, stored: set<string>, log': set<MemoryPut>, stored': set<string>)
    requires SpoolInv(h, sp, stored) && sp.log <= log' && stored <= stored'
    ensures SpoolInv(h, sp.(log := log'), stored')
  {
    forall n | Arrived(h, sp.log, stored, n) ensures Arrived(h, log', stored', n) {
      ArrivedMonotone(h, sp.log, stored, log', stored', n);
    }
    var sp' := sp.(log := log');
    forall t | t in sp'.hooks ensures HookOk(h, sp', stored', sp'.hooks[t]) {
      assert HookOk(h, sp, stored, sp.hooks[t]);
    }
  }

  lemma HookStepKeepsInv(h: Hashes, sp: Spool, stored: set<string>, step: SpoolStep)
    requires SpoolInv(h, sp, stored) && SpoolEnabled(h, sp, step)
    requires step.HookMissesPending? || step.HookMissesReceipt? || step.HookWrites? || step.HookFlushes?
             || step.HookDies? || step.HookFindsPending? || step.HookFindsReceipt? || step.HookSyncs?
    ensures SpoolInv(h, Advance(h, sp, step), stored)
  {
    var sp' := Advance(h, sp, step);
    forall t | t in sp'.hooks ensures HookOk(h, sp', stored, sp'.hooks[t]) {
      assert HookOk(h, sp, stored, sp.hooks[t]);
    }
  }

  lemma HookStartsKeepsInv(h: Hashes, sp: Spool, stored: set<string>, step: SpoolStep)
    requires SpoolInv(h, sp, stored) && SpoolEnabled(h, sp, step) && step.HookStarts?
    ensures SpoolInv(h, Advance(h, sp, step), stored)
  {
    SpoolInvMonotone(h, sp, stored, sp.log + {step.memory}, stored);
    var sp0, sp' := sp.(log := sp.log + {step.memory}), Advance(h, sp, step);
    forall t | t in sp'.hooks ensures HookOk(h, sp', stored, sp'.hooks[t]) {
      if t != step.task {
        assert HookOk(h, sp0, stored, sp0.hooks[t]);
      }
    }
  }

  lemma HookRenamesKeepsInv(h: Hashes, sp: Spool, stored: set<string>, step: SpoolStep)
    requires SpoolInv(h, sp, stored) && SpoolEnabled(h, sp, step) && step.HookRenames?
    ensures SpoolInv(h, Advance(h, sp, step), stored)
  {
    var sp' := Advance(h, sp, step);
    assert HookOk(h, sp, stored, sp.hooks[step.task]);
    forall t | t in sp'.hooks ensures HookOk(h, sp', stored, sp'.hooks[t]) {
      assert HookOk(h, sp, stored, sp.hooks[t]);
    }
  }

  lemma DaemonMovesKeepsInv(h: Hashes, sp: Spool, stored: set<string>, step: SpoolStep)
    requires SpoolInv(h, sp, stored) && SpoolEnabled(h, sp, step) && step.DaemonMoves?
    ensures SpoolInv(h, Advance(h, sp, step), stored)
  {
    var sp' := Advance(h, sp, step);
    forall t | t in sp'.hooks ensures HookOk(h, sp', stored, sp'.hooks[t]) {
      assert HookOk(h, sp, stored, sp.hooks[t]);
    }
  }

  lemma DaemonStepKeepsInv(h: Hashes, sp: Spool, stored: set<string>, step: SpoolStep)
    requires SpoolInv(h, sp, stored) && SpoolEnabled(h, sp, step) && AnswerIsTrue(h, sp, stored, step)
    requires step.DaemonReads? || step.DaemonQuarantines? || step.DaemonCalls? || step.DaemonHears?
             || step.DaemonSyncsPending? || step.DaemonSyncsReceipts? || step.DaemonPrunes? || step.DaemonRests?
    ensures SpoolInv(h, Advance(h, sp, step), stored)
  {
    var sp' := Advance(h, sp, step);
    forall t | t in sp'.hooks ensures HookOk(h, sp', stored, sp'.hooks[t]) {
      assert HookOk(h, sp, stored, sp.hooks[t]);
    }
  }

  lemma PowerLossKeepsInv(h: Hashes, sp: Spool, stored: set<string>, step: SpoolStep)
    requires SpoolInv(h, sp, stored) && step.PowerLoss?
    ensures SpoolInv(h, Advance(h, sp, step), stored)
  {
  }

  lemma AdvanceKeepsInv(h: Hashes, sp: Spool, stored: set<string>, step: SpoolStep)
    requires SpoolInv(h, sp, stored) && SpoolEnabled(h, sp, step) && AnswerIsTrue(h, sp, stored, step)
    ensures SpoolInv(h, Advance(h, sp, step), stored)
  {
    match step
    case HookStarts(_, _) => HookStartsKeepsInv(h, sp, stored, step);
    case HookRenames(_) => HookRenamesKeepsInv(h, sp, stored, step);
    case DaemonMoves => DaemonMovesKeepsInv(h, sp, stored, step);
    case PowerLoss(_, _) => PowerLossKeepsInv(h, sp, stored, step);
    case DaemonReads(_) => DaemonStepKeepsInv(h, sp, stored, step);
    case DaemonQuarantines => DaemonStepKeepsInv(h, sp, stored, step);
    case DaemonCalls(_) => DaemonStepKeepsInv(h, sp, stored, step);
    case DaemonHears => DaemonStepKeepsInv(h, sp, stored, step);
    case DaemonSyncsPending => DaemonStepKeepsInv(h, sp, stored, step);
    case DaemonSyncsReceipts => DaemonStepKeepsInv(h, sp, stored, step);
    case DaemonPrunes(_) => DaemonStepKeepsInv(h, sp, stored, step);
    case DaemonRests => DaemonStepKeepsInv(h, sp, stored, step);
    case _ => HookStepKeepsInv(h, sp, stored, step);
  }

  /** A secure name stays secure through every step, power losses included. */
  lemma SecureIsStable(h: Hashes, sp: Spool, stored: set<string>, step: SpoolStep, name: string)
    requires SpoolInv(h, sp, stored) && SpoolEnabled(h, sp, step)
    requires Secure(h, sp, stored, name)
    ensures Secure(h, Advance(h, sp, step), stored, name)
  {
    if Arrived(h, sp.log, stored, name) {
      ArrivedMonotone(h, sp.log, stored, Advance(h, sp, step).log, stored, name);
    }
  }

  /** Without a power loss, being in pending is enough. */
  lemma KeptIsStable(h: Hashes, sp: Spool, stored: set<string>, step: SpoolStep, name: string)
    requires SpoolInv(h, sp, stored) && SpoolEnabled(h, sp, step) && !step.PowerLoss?
    requires Kept(h, sp, stored, name)
    ensures Kept(h, Advance(h, sp, step), stored, name)
  {
    if Arrived(h, sp.log, stored, name) {
      ArrivedMonotone(h, sp.log, stored, Advance(h, sp, step).log, stored, name);
    }
  }

  /** Whatever made `put` return, the name is kept at that moment. */
  lemma ReturnIsKept(h: Hashes, sp: Spool, stored: set<string>, step: SpoolStep, key: string)
    requires SpoolInv(h, sp, stored) && SpoolEnabled(h, sp, step)
    requires key in Advance(h, sp, step).returned && key !in sp.returned
    ensures key != "" && Kept(h, Advance(h, sp, step), stored, h.sha256(key))
  {
    if step.HookSyncs? || step.HookFindsPending? || step.HookFindsReceipt? {
      assert HookOk(h, sp, stored, sp.hooks[step.task]);
    }
  }
}
