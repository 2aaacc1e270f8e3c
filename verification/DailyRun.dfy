/**
 The daily summary run (`run_once` in memorybridge/daily_summary.py) on top of the spool-and-server protocol.  A file
 lock admits one run at a time.  A run may die anywhere, the power may fail, the state file may be lost, and the model
 may answer the same conversation differently each time.
 */
module DailyRun {
  import opened Basics
  import opened Records
  import opened ServerMachine
  import opened SpoolMachine
  import opened Protocol
  import opened Guarantees
  import Runs

  /** A conversation: its key, which need not tell sessions apart, and what goes into the memory. */
  datatype Group = Group(key: string, session: Option<string>, agent: string, messages: nat)

  /** The keys recorded as completed: as the file reads now, and as it is on disk. */
  datatype StateFile = StateFile(live: set<string>, disk: set<string>)

  /** Where the run is; `completed` is its own copy of the record. */
  datatype Runner =
    | Asleep
    | Choosing(completed: set<string>, queue: seq<Group>)
    | Spooling(completed: set<string>, queue: seq<Group>, task: nat)
    | Recording(completed: set<string>, queue: seq<Group>)
    | Renamed(completed: set<string>, queue: seq<Group>)

  /** `synced` is history: the keys whose `put` returned with its entry on disk or delivered. */
  datatype Daily = Daily(proto: State, file: StateFile, runner: Runner, synced: set<string>)

  const START_DAILY := Daily(START, StateFile({}, {}), Asleep, {})

  /** The hashes, and the day that all keys here belong to. */
  datatype Setup = Setup(hashes: Hashes, day: string)

  function Short(s: string): string {
    if |s| <= 32 then s else s[..32]
  }

  function SummaryKey(g: Setup, key: string): string {
    "daily-summary:" + (g.day + (":" + Short((g.hashes.sha256)(key))))
  }

  const SUMMARIZER := "memorybridge-daily-summary"

  /** The summary under its heading: the day, the agent and the number of messages. */
  function SummaryText(g: Setup, group: Group, summary: string): string {
    "\U{3010}\U{6BCF}\U{65E5}\U{4F1A}\U{8BDD}\U{6458}\U{8981}\U{3011}" + g.day + "\U{FF5C}\U{6765}\U{6E90}\U{FF1A}" + group.agent
    + "\U{FF5C}\U{6D88}\U{606F}\U{6570}\U{FF1A}" + Digits(group.messages) + "\n\n" + summary
  }

  function SummaryPut(g: Setup, group: Group, summary: string, metadata: map<string, string>, createdAt: int): MemoryPut {
    MemoryPut(SummaryText(g, group, summary), SUMMARIZER, None, group.session, "memory", Some("MemoryBridge daily summaries"),
              metadata, Some(SummaryKey(g, group.key)), Some(createdAt))
  }

  datatype DailyStep =
    | Elsewhere(step: Step, keepsFile: bool)
    | Wakes(groups: seq<Group>)
    | Skips
    | Summarizes(task: nat, summary: string, metadata: map<string, string>, createdAt: int)
    | Records
    | SyncsFile
    | Ends
    | LosesFile

  ghost predicate Possible(g: Setup, d: Daily, step: DailyStep) {
    match step
    case Elsewhere(st, _) => Protocol.Possible(g.hashes, d.proto, st)
    case Wakes(_) => d.runner.Asleep?
    case Skips => d.runner.Choosing? && d.runner.queue != [] && d.runner.queue[0].key in d.runner.completed
    case Summarizes(t, _, _, _) =>
      d.runner.Choosing? && d.runner.queue != [] && d.runner.queue[0].key !in d.runner.completed && t !in d.proto.spool.hooks
    case Records => d.runner.Recording? && d.runner.queue != []
    case SyncsFile => d.runner.Renamed? && d.runner.queue != []
    case Ends => !d.runner.Spooling?
    case LosesFile => true
  }

  /** The run's own `put` returns in this step. */
  ghost predicate OwnPutReturns(d: Daily, st: Step) {
    && d.runner.Spooling? && st.Local?
    && (st.spoolStep.HookSyncs? || st.spoolStep.HookFindsReceipt? || st.spoolStep.HookFindsPending?)
    && st.spoolStep.task == d.runner.task
  }

  ghost predicate Kills(d: Daily, st: Step) {
    st.Local? && (st.spoolStep.PowerLoss? || (d.runner.Spooling? && st.spoolStep.HookDies? && st.spoolStep.task == d.runner.task))
  }

  ghost function RunnerAfter(d: Daily, st: Step): Runner {
    if OwnPutReturns(d, st) then Recording(d.runner.completed, d.runner.queue)
    else if Kills(d, st) then Asleep
    else d.runner
  }

  /** A power loss leaves the state file as it was before or after the last rename. */
  ghost function FileAfter(d: Daily, st: Step, keepsFile: bool): StateFile {
    if st.Local? && st.spoolStep.PowerLoss? then
      var left := if keepsFile then d.file.live else d.file.disk;
      StateFile(left, left)
    else d.file
  }

  ghost function SyncedAfter(g: Setup, d: Daily, st: Step): set<string>
    requires Protocol.Possible(g.hashes, d.proto, st)
  {
    if st.Local? && (st.spoolStep.HookSyncs? || st.spoolStep.HookFindsReceipt? || st.spoolStep.HookFindsPending?)
       && ReturnsSynced(g.hashes, d.proto, st, d.proto.spool.hooks[st.spoolStep.task].memory)
    then d.synced + {d.proto.spool.hooks[st.spoolStep.task].memory.idempotencyKey.value}
    else d.synced
  }

  ghost function Next(g: Setup, d: Daily, step: DailyStep): Daily
    requires Possible(g, d, step)
  {
    match step
    case Elsewhere(st, keepsFile) =>
      Daily(Protocol.Next(g.hashes, d.proto, st), FileAfter(d, st, keepsFile), RunnerAfter(d, st), SyncedAfter(g, d, st))
    case Wakes(groups) => d.(runner := Choosing(d.file.live, groups))
    case Skips => d.(runner := Choosing(d.runner.completed, d.runner.queue[1..]))
    case Summarizes(t, summary, metadata, createdAt) =>
      var m := SummaryPut(g, d.runner.queue[0], summary, metadata, createdAt);
      d.(proto := Protocol.Next(g.hashes, d.proto, Local(HookStarts(t, m))),
         runner := Spooling(d.runner.completed, d.runner.queue, t))
    case Records =>
      var completed := d.runner.completed + {d.runner.queue[0].key};
      d.(file := d.file.(live := completed), runner := Renamed(completed, d.runner.queue))
    case SyncsFile =>
      d.(file := d.file.(disk := d.file.live), runner := Choosing(d.runner.completed, d.runner.queue[1..]))
    case Ends => d.(runner := Asleep)
    case LosesFile => d.(file := StateFile({}, {}))
  }

  // ---- what every step keeps -----------------------------------------------------------------------

  /** Recorded keys are keys whose `put` returned. */
  ghost predicate AllReturned(g: Setup, d: Daily, keys: set<string>) {
    forall key :: key in keys ==> SummaryKey(g, key) in d.proto.spool.returned
  }

  ghost predicate RunnerOk(g: Setup, d: Daily) {
    && (!d.runner.Asleep? ==> AllReturned(g, d, d.runner.completed))
    && (d.runner.Spooling? ==>
          && d.runner.queue != [] && d.runner.task in d.proto.spool.hooks
          && d.proto.spool.hooks[d.runner.task].memory.idempotencyKey == Some(SummaryKey(g, d.runner.queue[0].key)))
    && (d.runner.Recording? ==> d.runner.queue != [] && SummaryKey(g, d.runner.queue[0].key) in d.proto.spool.returned)
  }

  ghost predicate SyncedOk(g: Setup, d: Daily) {
    forall key :: key in d.synced ==> key != "" && SecureIn(g.hashes, d.proto, g.hashes.sha256(key))
  }

  ghost predicate DailyInv(g: Setup, d: Daily) {
    && Protocol.Inv(g.hashes, d.proto)
    && AllReturned(g, d, d.file.live) && AllReturned(g, d, d.file.disk)
    && RunnerOk(g, d) && SyncedOk(g, d)
  }

  lemma StartDailyInv(g: Setup)
    ensures DailyInv(g, START_DAILY)
  {
    StartInv(g.hashes);
  }

  lemma ReturnedGrows(h: Hashes, s: State, st: Step)
    requires Protocol.Possible(h, s, st)
    ensures s.spool.returned <= Protocol.Next(h, s, st).spool.returned
  {
  }

  /** A process running `put` is there until it returns or dies. */
  lemma HookStays(h: Hashes, s: State, st: Step, task: nat)
    requires Protocol.Possible(h, s, st) && task in s.spool.hooks
    requires !(st.Local? && (st.spoolStep.PowerLoss? || (st.spoolStep.HookDies? && st.spoolStep.task == task)))
    requires !(st.Local? && (st.spoolStep.HookSyncs? || st.spoolStep.HookFindsReceipt? || st.spoolStep.HookFindsPending?)
               && st.spoolStep.task == task)
    ensures var s' := Protocol.Next(h, s, st); task in s'.spool.hooks && s'.spool.hooks[task].memory == s.spool.hooks[task].memory
  {
  }

  lemma SyncedStays(g: Setup, d: Daily, st: Step, keepsFile: bool)
    requires DailyInv(g, d) && Possible(g, d, Elsewhere(st, keepsFile))
    ensures SyncedOk(g, Next(g, d, Elsewhere(st, keepsFile)))
  {
    var d' := Next(g, d, Elsewhere(st, keepsFile));
    forall key | key in d'.synced ensures key != "" && SecureIn(g.hashes, d'.proto, g.hashes.sha256(key)) {
      if key in d.synced {
        NextKeepsSecure(g.hashes, d.proto, st, g.hashes.sha256(key));
      } else {
        SyncedReturnIsSecure(g.hashes, d.proto, st, d.proto.spool.hooks[st.spoolStep.task].memory);
      }
    }
  }

  lemma OwnReturn(g: Setup, d: Daily, st: Step)
    requires DailyInv(g, d) && Protocol.Possible(g.hashes, d.proto, st) && OwnPutReturns(d, st)
    ensures SummaryKey(g, d.runner.queue[0].key) in Protocol.Next(g.hashes, d.proto, st).spool.returned
  {
  }

  lemma ElsewhereKeeps(g: Setup, d: Daily, st: Step, keepsFile: bool)
    requires DailyInv(g, d) && Possible(g, d, Elsewhere(st, keepsFile))
    ensures DailyInv(g, Next(g, d, Elsewhere(st, keepsFile)))
  {
    Protocol.NextKeepsInv(g.hashes, d.proto, st);
    ReturnedGrows(g.hashes, d.proto, st);
    SyncedStays(g, d, st, keepsFile);
    if OwnPutReturns(d, st) {
      OwnReturn(g, d, st);
    } else if d.runner.Spooling? && !Kills(d, st) {
      HookStays(g.hashes, d.proto, st, d.runner.task);
    }
  }

  lemma SummarizesKeeps(g: Setup, d: Daily, step: DailyStep)
    requires DailyInv(g, d) && Possible(g, d, step) && step.Summarizes?
    ensures DailyInv(g, Next(g, d, step))
  {
    var m := SummaryPut(g, d.runner.queue[0], step.summary, step.metadata, step.createdAt);
    var st := Local(HookStarts(step.task, m));
    Protocol.NextKeepsInv(g.hashes, d.proto, st);
    forall key | key in d.synced ensures SecureIn(g.hashes, Protocol.Next(g.hashes, d.proto, st), g.hashes.sha256(key)) {
      NextKeepsSecure(g.hashes, d.proto, st, g.hashes.sha256(key));
    }
  }

  lemma NextKeepsDaily(g: Setup, d: Daily, step: DailyStep)
    requires DailyInv(g, d) && Possible(g, d, step)
    ensures DailyInv(g, Next(g, d, step))
  {
    match step
    case Elsewhere(st, keepsFile) => ElsewhereKeeps(g, d, st, keepsFile);
    case Summarizes(_, _, _, _) => SummarizesKeeps(g, d, step);
    case _ =>
  }

  ghost predicate Succeeds(g: Setup, d: Daily, d': Daily) {
    exists step :: Possible(g, d, step) && d' == Next(g, d, step)
  }

  ghost predicate Run(g: Setup, run: seq<Daily>) {
    run != [] && run[0] == START_DAILY && forall k :: 0 <= k < |run| - 1 ==> Succeeds(g, run[k], run[k + 1])
  }

  lemma RunKeepsDaily(g: Setup, run: seq<Daily>, k: nat)
    requires Run(g, run) && k < |run|
    ensures DailyInv(g, run[k])
  {
    StartDailyInv(g);
    forall d, d' | DailyInv(g, d) && Succeeds(g, d, d') ensures DailyInv(g, d') {
      var step :| Possible(g, d, step) && d' == Next(g, d, step);
      NextKeepsDaily(g, d, step);
    }
    Runs.Along(run, (d, d') => Succeeds(g, d, d'), d => DailyInv(g, d), 0, k);
  }

  // ---- over whole runs -----------------------------------------------------------------------------

  /** Recorded, on disk as well, and known to the run that is under way. */
  ghost predicate Settled(d: Daily, key: string) {
    key in d.file.live && key in d.file.disk && (!d.runner.Asleep? ==> key in d.runner.completed)
  }

  ghost predicate SucceedsKeepingFile(g: Setup, d: Daily, d': Daily) {
    exists step :: Possible(g, d, step) && !step.LosesFile? && d' == Next(g, d, step)
  }

  lemma SettledStays(g: Setup, d: Daily, d': Daily, key: string)
    requires Settled(d, key) && SucceedsKeepingFile(g, d, d')
    ensures Settled(d', key)
  {
    var step :| Possible(g, d, step) && !step.LosesFile? && d' == Next(g, d, step);
  }

  /** Once its record is on disk a conversation is never summarized again, unless the state file is lost. */
  lemma RecordedIsNotRepeated(g: Setup, run: seq<Daily>, i: nat, j: nat, key: string, step: DailyStep)
    requires i <= j < |run| && forall k :: i <= k < j ==> SucceedsKeepingFile(g, run[k], run[k + 1])
    requires Settled(run[i], key) && Possible(g, run[j], step) && step.Summarizes?
    ensures run[j].runner.queue[0].key != key
  {
    forall d, d' | Settled(d, key) && SucceedsKeepingFile(g, d, d') ensures Settled(d', key) {
      SettledStays(g, d, d', key);
    }
    Runs.Along(run, (d, d') => SucceedsKeepingFile(g, d, d'), d => Settled(d, key), i, j);
  }

  /** Nothing is recorded before its `put` has returned. */
  lemma RecordedWasSpooled(g: Setup, run: seq<Daily>, k: nat, key: string)
    requires Run(g, run) && k < |run| && (key in run[k].file.live || key in run[k].file.disk)
    ensures SummaryKey(g, key) in run[k].proto.spool.returned
  {
    RunKeepsDaily(g, run, k);
  }

  /** And if that `put` returned with its entry on disk or delivered, the summary is pending or stored for good. */
  lemma RecordedIsKept(g: Setup, run: seq<Daily>, k: nat, key: string)
    requires Run(g, run) && k < |run| && KeyApart(g.hashes, run[k].proto, SummaryKey(g, key))
    requires SummaryKey(g, key) in run[k].synced
    ensures KeyKept(g.hashes, run[k].proto, SummaryKey(g, key))
  {
    RunKeepsDaily(g, run, k);
    var name := g.hashes.sha256(SummaryKey(g, key));
    assert SecureIn(g.hashes, run[k].proto, name);
    KeptMeansKeyKept(g.hashes, run[k].proto, SummaryKey(g, key));
  }

  // ---- how many summaries a key can get ------------------------------------------------------------

  /** The record stems from a summary of this conversation, whatever the model answered. */
  ghost predicate IsSummaryOf(g: Setup, d: Daily, id: string, group: Group) {
    && id in d.proto.server.store.raw && id in d.proto.server.store.origin
    && exists content, metadata, createdAt ::
         d.proto.server.store.origin[id].memory == SummaryPut(g, group, content, metadata, createdAt)
  }

  /** What the stored record of a summary says, whatever else went on. */
  lemma SummaryRecordSays(g: Setup, run: seq<Daily>, k: nat, id: string, group: Group)
    requires Run(g, run) && k < |run| && IsSummaryOf(g, run[k], id, group)
    ensures var core := run[k].proto.server.store.raw[id].core;
            && core.sourceAgent == "memorybridge-daily-summary" && core.sourceDevice == None && core.sessionId == group.session
            && core.role == "memory" && core.project == Some("MemoryBridge daily summaries")
            && exists summary :: core.content ==
                 "\U{3010}\U{6BCF}\U{65E5}\U{4F1A}\U{8BDD}\U{6458}\U{8981}\U{3011}" + g.day + "\U{FF5C}\U{6765}\U{6E90}\U{FF1A}"
                 + group.agent + "\U{FF5C}\U{6D88}\U{606F}\U{6570}\U{FF1A}" + Digits(group.messages) + "\n\n" + summary
    ensures var digest := g.hashes.sha256(group.key);
            run[k].proto.server.store.origin[id].memory.idempotencyKey
            == Some("daily-summary:" + g.day + ":" + if |digest| <= 32 then digest else digest[..32])
  {
    RunKeepsDaily(g, run, k);
    var st := run[k].proto.server.store;
    assert Faithful(g.hashes, id, st.raw[id], st.origin[id]);
    var summary, metadata, createdAt :| st.origin[id].memory == SummaryPut(g, group, summary, metadata, createdAt);
    SummarySays(g, group, summary, metadata, createdAt);
  }

  lemma SummarySays(g: Setup, group: Group, summary: string, metadata: map<string, string>, createdAt: int)
    ensures var (m, digest) := (SummaryPut(g, group, summary, metadata, createdAt), g.hashes.sha256(group.key));
            && m.content == "\U{3010}\U{6BCF}\U{65E5}\U{4F1A}\U{8BDD}\U{6458}\U{8981}\U{3011}" + g.day
                            + "\U{FF5C}\U{6765}\U{6E90}\U{FF1A}" + group.agent
                            + "\U{FF5C}\U{6D88}\U{606F}\U{6570}\U{FF1A}" + Digits(group.messages) + "\n\n" + summary
            && m.idempotencyKey == Some("daily-summary:" + g.day + ":" + if |digest| <= 32 then digest else digest[..32])
  {
    var digest := g.hashes.sha256(group.key);
    assert SummaryKey(g, group.key) == "daily-summary:" + g.day + ":" + if |digest| <= 32 then digest else digest[..32];
  }

  ghost predicate OneRecord(g: Setup, d: Daily, a: Group, b: Group) {
    forall i1, i2 :: IsSummaryOf(g, d, i1, a) && IsSummaryOf(g, d, i2, b) ==> i1 == i2
  }

  /** Whatever is cut short, repeated or forgotten, these conversations leave one record for a key, or none. */
  ghost predicate OnePerKey(g: Setup, groups: set<Group>) {
    forall run, a, b :: Run(g, run) && a in groups && b in groups && a.key == b.key ==> OneRecord(g, run[|run| - 1], a, b)
  }

  predicate SessionsCoincide(groups: set<Group>) {
    forall a, b :: a in groups && b in groups && a.key == b.key ==> a.session.GetOr("") == b.session.GetOr("")
  }

  function SummaryMaterial(g: Setup, group: Group): string {
    Material(SummaryPut(g, group, "", map[], 0))
  }

  function SummaryId(g: Setup, group: Group): string {
    DeterministicId(g.hashes, SummaryPut(g, group, "", map[], 0), "")
  }

  ghost predicate IdsApart(g: Setup, groups: set<Group>) {
    forall a, b :: a in groups && b in groups ==>
      NoClash(g.hashes.uuid5, ID_PREFIX + SummaryMaterial(g, a), ID_PREFIX + SummaryMaterial(g, b))
  }

  /** The session is part of the record's id but not of the key. */
  lemma SameMaterialSameSession(g: Setup, a: Group, b: Group)
    requires a.key == b.key && SummaryMaterial(g, a) == SummaryMaterial(g, b)
    ensures a.session.GetOr("") == b.session.GetOr("")
  {
    var front, back := SUMMARIZER + [SEPARATOR] + [SEPARATOR], [SEPARATOR] + SummaryKey(g, a.key);
    var x, y := a.session.GetOr(""), b.session.GetOr("");
    assert SummaryMaterial(g, a) == front + x + back && SummaryMaterial(g, b) == front + y + back;
    assert |x| == |y|;
    assert x == (front + x + back)[|front|..|front| + |x|];
    assert y == (front + y + back)[|front|..|front| + |y|];
  }

  lemma SameSessionOneRecord(g: Setup, run: seq<Daily>, a: Group, b: Group)
    requires Run(g, run) && a.key == b.key && a.session.GetOr("") == b.session.GetOr("")
    ensures OneRecord(g, run[|run| - 1], a, b)
  {
    RunKeepsDaily(g, run, |run| - 1);
    var d := run[|run| - 1];
    var st := d.proto.server.store;
    forall i1, i2 | IsSummaryOf(g, d, i1, a) && IsSummaryOf(g, d, i2, b) ensures i1 == i2 {
      assert Faithful(g.hashes, i1, st.raw[i1], st.origin[i1]) && Faithful(g.hashes, i2, st.raw[i2], st.origin[i2]);
      assert SameIdentity(st.origin[i1].memory, st.origin[i2].memory);
    }
  }

  lemma OtherSessionTwoRecords(g: Setup, groups: set<Group>, a: Group, b: Group)
    requires OnePerKey(g, groups) && IdsApart(g, groups) && a in groups && b in groups && a.key == b.key
    ensures a.session.GetOr("") == b.session.GetOr("")
  {
    if SummaryId(g, a) == SummaryId(g, b) {
      SameNameSameMaterial(SummaryPut(g, a, "", map[], 0), SummaryPut(g, b, "", map[], 0));
      SameMaterialSameSession(g, a, b);
    } else {
      var run := BothAreStored(g, a, b);
    }
  }

  /** At most one stored summary for each key, over all runs, exactly if conversations with the same key have the same session. */
  lemma OneSummaryPerKeyExactly(g: Setup, groups: set<Group>)
    requires IdsApart(g, groups)
    ensures OnePerKey(g, groups) <==> SessionsCoincide(groups)
  {
    if SessionsCoincide(groups) {
      forall run, a, b | Run(g, run) && a in groups && b in groups && a.key == b.key
        ensures OneRecord(g, run[|run| - 1], a, b)
      {
        SameSessionOneRecord(g, run, a, b);
      }
    }
    if OnePerKey(g, groups) {
      forall a, b | a in groups && b in groups && a.key == b.key ensures a.session.GetOr("") == b.session.GetOr("") {
        OtherSessionTwoRecords(g, groups, a, b);
      }
    }
  }

  // ---- a recorded summary that is lost -------------------------------------------------------------

  lemma Then(g: Setup, run: seq<Daily>, step: DailyStep) returns (longer: seq<Daily>)
    requires Run(g, run) && Possible(g, run[|run| - 1], step)
    ensures Run(g, longer) && longer[|longer| - 1] == Next(g, run[|run| - 1], step)
  {
    var n := |run|;
    longer := run + [Next(g, run[n - 1], step)];
    forall i | 0 <= i < |longer| - 1 ensures Succeeds(g, longer[i], longer[i + 1]) {
      if i < n - 1 {
        assert Succeeds(g, run[i], run[i + 1]);
      } else {
        assert Possible(g, longer[i], step) && longer[i + 1] == Next(g, longer[i], step);
      }
    }
  }

  ghost function Hook(st: SpoolStep): DailyStep {
    Elsewhere(Local(st), false)
  }

  /** The first run died between the rename and the directory fsync of its `put`. */
  ghost predicate CutShort(g: Setup, d: Daily, m: MemoryPut) {
    && m.Keyed()
    && d == START_DAILY.(proto := START.(spool := EMPTY_SPOOL.(
              pending := Directory(map[SpoolName(g.hashes, m) := Entry(Whole(m), true)], map[]), log := {m})))
  }

  /** Nothing is pending, delivered or recorded, and nobody runs. */
  ghost predicate Clear(d: Daily) {
    && d.runner.Asleep? && d.file == StateFile({}, {}) && d.proto.spool.hooks == map[] && d.proto.spool.daemon.Resting?
    && d.proto.spool.pending == Directory(map[], map[]) && d.proto.spool.sent == Directory(map[], map[])
  }

  /** A run has renamed its summary into pending and has not yet synced the directory. */
  ghost function Waiting(g: Setup, d: Daily, group: Group, content: string): Daily {
    var m := SummaryPut(g, group, content, map[], 0);
    d.(runner := Spooling({}, [group], 0),
       proto := d.proto.(spool := d.proto.spool.(
         hooks := map[0 := Placed(m)], pending := Directory(map[SpoolName(g.hashes, m) := Entry(Whole(m), true)], map[]),
         log := d.proto.spool.log + {m})))
  }

  lemma ReachPlaced(g: Setup, before: seq<Daily>, group: Group, content: string) returns (run: seq<Daily>)
    requires Run(g, before) && Clear(before[|before| - 1])
    ensures Run(g, run) && run[|run| - 1] == Waiting(g, before[|before| - 1], group, content)
  {
    var d := before[|before| - 1];
    run := Then(g, before, Wakes([group]));
    run := Then(g, run, Summarizes(0, content, map[], 0));
    run := Then(g, run, Hook(HookMissesPending(0)));
    run := Then(g, run, Hook(HookMissesReceipt(0)));
    assert run[|run| - 1].proto.spool.hooks == map[0 := Missing(SummaryPut(g, group, content, map[], 0))];
    run := ReachRenamed(g, run, d, group, content);
  }

  /** The `put` has found neither file nor receipt, and writes its file. */
  lemma ReachRenamed(g: Setup, before: seq<Daily>, d: Daily, group: Group, content: string) returns (run: seq<Daily>)
    requires Run(g, before) && Clear(d)
    requires var w, m := Waiting(g, d, group, content), SummaryPut(g, group, content, map[], 0);
             before[|before| - 1] == w.(proto := w.proto.(spool := w.proto.spool.(
                                        hooks := map[0 := Missing(m)], pending := Directory(map[], map[]))))
    ensures Run(g, run) && run[|run| - 1] == Waiting(g, d, group, content)
  {
    run := Then(g, before, Hook(HookWrites(0)));
    run := Then(g, run, Hook(HookFlushes(0)));
    assert run[|run| - 1].proto.spool.hooks == map[0 := Temporary(SummaryPut(g, group, content, map[], 0), true)];
    run := Then(g, run, Hook(HookRenames(0)));
    assert run[|run| - 1].proto.spool.hooks == map[0 := Placed(SummaryPut(g, group, content, map[], 0))];
  }

  /**
   A recorded summary that is lost: the second run finds the first one's file, its `put` returns without repeating
   the directory fsync, the record is written and synced, and the power fails.
   */
  lemma RecordedSummaryCanBeLost(g: Setup, group: Group, content: string) returns (run: seq<Daily>)
    ensures Run(g, run)
    ensures var last := run[|run| - 1];
            Settled(last, group.key) && !KeptIn(g.hashes, last.proto, g.hashes.sha256(SummaryKey(g, group.key)))
  {
    assert Run(g, [START_DAILY]);
    run := ReachPlaced(g, [START_DAILY], group, content);
    run := Then(g, run, Hook(HookDies(0)));
    var d1 := run[|run| - 1];
    assert CutShort(g, d1, SummaryPut(g, group, content, map[], 0));
    run := SecondRun(g, d1, group, content, run);
  }

  lemma SecondRun(g: Setup, d1: Daily, group: Group, content: string, before: seq<Daily>) returns (run: seq<Daily>)
    requires Run(g, before) && before[|before| - 1] == d1
    requires CutShort(g, d1, SummaryPut(g, group, content, map[], 0))
    ensures Run(g, run)
    ensures var last := run[|run| - 1];
            Settled(last, group.key) && !KeptIn(g.hashes, last.proto, g.hashes.sha256(SummaryKey(g, group.key)))
  {
    run := Then(g, before, Wakes([group]));
    run := Then(g, run, Summarizes(0, content, map[], 0));
    run := Then(g, run, Hook(HookFindsPending(0)));
    run := Then(g, run, Records);
    run := Then(g, run, SyncsFile);
    run := Then(g, run, Hook(PowerLoss({}, {})));
  }

  // ---- two summaries of one key --------------------------------------------------------------------

  ghost function Served(st: ServerStep): DailyStep {
    Elsewhere(Remote(st), false)
  }

  ghost function Stored(g: Setup, st: Store, m: MemoryPut, serial: int): Store
    requires m.Keyed()
  {
    var id := DeterministicId(g.hashes, m, "");
    Store(st.raw[id := FromPut(g.hashes, m, serial, 0)], st.origin[id := Origin(m, 0)], serial)
  }

  /** The daemon delivers the waiting summary, after a restart of the server. */
  lemma ReachStored(g: Setup, before: seq<Daily>, d: Daily, group: Group) returns (run: seq<Daily>, serial: int)
    requires Run(g, before) && Clear(d) && before[|before| - 1] == Waiting(g, d, group, "")
    requires SummaryId(g, group) !in d.proto.server.store.raw
    ensures Run(g, run)
    ensures var w, last := Waiting(g, d, group, ""), run[|run| - 1];
            && last.proto.server.store == Stored(g, d.proto.server.store, SummaryPut(g, group, "", map[], 0), serial)
            && last.file == w.file && last.proto.spool.pending == w.proto.spool.pending
            && last.proto.spool.sent == w.proto.spool.sent
  {
    var m := SummaryPut(g, group, "", map[], 0);
    var d0 := before[|before| - 1];
    var token := d0.proto.server.proc.nextToken;
    run := Then(g, before, Served(Restart));
    run := Then(g, run, Hook(DaemonReads(SpoolName(g.hashes, m))));
    run := Then(g, run, Elsewhere(DaemonPushes, false));
    run := Then(g, run, Served(Acquire(token)));
    run, serial := ReachWritten(g, run, m, token);
  }

  /** A new request at the head of the server's lock is written. */
  lemma ReachWritten(g: Setup, before: seq<Daily>, m: MemoryPut, token: nat) returns (run: seq<Daily>, serial: int)
    requires Run(g, before) && m.Keyed() && DeterministicId(g.hashes, m, "") !in before[|before| - 1].proto.server.store.raw
    requires var p := before[|before| - 1].proto.server.proc;
             p.lock == Held(token, Call(m, DeterministicId(g.hashes, m, "")), Lookup) && p.lastSeq.None?
    ensures Run(g, run)
    ensures var d, last := before[|before| - 1], run[|run| - 1];
            && last.proto.server.store == Stored(g, d.proto.server.store, m, serial)
            && last.file == d.file && last.proto.spool == d.proto.spool
  {
    run := Then(g, before, Served(Miss));
    run := Then(g, run, Served(LoadClock));
    run := Then(g, run, Served(Tick(0)));
    run := Then(g, run, Served(ClockStored));
    var d4 := run[|run| - 1];
    run := Then(g, run, Served(RawStored(0)));
    serial := d4.proto.server.proc.lock.point.serial;
  }

  /** One summary is delivered, and before its directory entry is synced or its key recorded the power fails. */
  lemma StoredAndForgotten(g: Setup, before: seq<Daily>, group: Group) returns (run: seq<Daily>, serial: int)
    requires Run(g, before) && Clear(before[|before| - 1])
    requires SummaryId(g, group) !in before[|before| - 1].proto.server.store.raw
    ensures Run(g, run) && Clear(run[|run| - 1])
    ensures run[|run| - 1].proto.server.store
            == Stored(g, before[|before| - 1].proto.server.store, SummaryPut(g, group, "", map[], 0), serial)
  {
    var d := before[|before| - 1];
    run := ReachPlaced(g, before, group, "");
    run, serial := ReachStored(g, run, d, group);
    run := Then(g, run, Hook(PowerLoss({}, {})));
  }

  /**
   Two conversations with one key and different sessions: the first summary reaches the server but neither its
   receipt nor the record of the run survives; the next run meets the other conversation first and its summary is
   stored as well.
   */
  lemma BothAreStored(g: Setup, a: Group, b: Group) returns (run: seq<Daily>)
    requires SummaryId(g, a) != SummaryId(g, b)
    ensures Run(g, run)
    ensures var d := run[|run| - 1];
            IsSummaryOf(g, d, SummaryId(g, a), a) && IsSummaryOf(g, d, SummaryId(g, b), b) && !OneRecord(g, d, a, b)
  {
    assert Run(g, [START_DAILY]);
    var first, s1 := StoredAndForgotten(g, [START_DAILY], a);
    var s2;
    run, s2 := StoredAndForgotten(g, first, b);
    var d := run[|run| - 1];
    var origin := d.proto.server.store.origin;
    assert origin[SummaryId(g, a)].memory == SummaryPut(g, a, "", map[], 0);
    assert origin[SummaryId(g, b)].memory == SummaryPut(g, b, "", map[], 0);
    assert IsSummaryOf(g, d, SummaryId(g, a), a) && IsSummaryOf(g, d, SummaryId(g, b), b);
  }
}
