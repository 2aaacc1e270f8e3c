/**
 The transcript jobs of the spool (memorybridge/spool.py) as a machine: hooks queue and refresh jobs while transcripts
 grow, any number of processes materialize them (`sync_once` runs in the daemon and from the command line), every one
 may die anywhere, and the power may fail.  `LocalSpool.put` is one step here: what its return means for a memory is
 the subject of `Guarantees`.
 */
module TranscriptMachine {
  import opened Basics
  import opened Records
  import opened LocalSpoolFiles
  import SpoolDaemon
  import Transcript
  import Runs

  /** Job files by name.  They are flushed before the rename, so a power loss leaves each as it was live or on disk. */
  datatype Directory = Directory(live: map<string, Job>, disk: map<string, Job>)

  /** A process that has read a job file, or that has read the transcript as well and has put `next` chunks of it. */
  datatype Worker = Loaded(name: string, job: Job) | Putting(name: string, job: Job, text: string, next: nat)

  datatype Reading = Reading(name: string, job: Job, text: string)

  /**
   The name of a job stands for its agent, session and resolved path, hence for one transcript.
   `put` and `whole` are history: the memories whose `put` returned, and the readings all of whose chunks were put.
   */
  datatype State = State(jobs: Directory, texts: map<string, string>, workers: map<nat, Worker>,
                         put: set<MemoryPut>, whole: set<Reading>)

  const START := State(Directory(map[], map[]), map[], map[], {}, {})

  datatype Setup = Setup(hashes: Hashes, fileName: string -> string)

  datatype Step =
    | Grows(name: string, more: string)
    | Queues(name: string, job: Job)
    | Syncs
    | Takes(task: nat, name: string)
    | Reads(task: nat)
    | Puts(task: nat)
    | Finishes(task: nat)
    | GivesUp(task: nat)
    | PowerLoss(kept: set<string>)

  function Chunks(text: string): seq<string> {
    Transcript.Chunks(text, SpoolDaemon.CHUNK_BYTES)
  }

  predicate Valid(g: Setup, w: Worker, k: nat)
    requires w.Putting? && k < |Chunks(w.text)|
  {
    SpoolDaemon.ValidChunk(g.hashes, w.job, g.fileName(w.name), Chunks(w.text), k)
  }

  function Memory(g: Setup, r: Reading, k: nat): MemoryPut
    requires k < |Chunks(r.text)|
  {
    SpoolDaemon.ChunkMemory(g.hashes, r.job, g.fileName(r.name), Chunks(r.text), k)
  }

  function ReadingOf(w: Worker): Reading
    requires w.Putting?
  {
    Reading(w.name, w.job, w.text)
  }

  /** The reading, once nothing of it is left to put. */
  function Completed(w: Worker): set<Reading>
    requires w.Putting?
  {
    if w.next == |Chunks(w.text)| then {ReadingOf(w)} else {}
  }

  predicate PuttingAt(s: State, t: nat) {
    t in s.workers && s.workers[t].Putting?
  }

  predicate Possible(g: Setup, s: State, step: Step) {
    match step
    case Takes(t, name) => t !in s.workers && name in s.jobs.live
    case Reads(t) => t in s.workers && s.workers[t].Loaded? && s.workers[t].name in s.texts
    case Puts(t) => PuttingAt(s, t) && s.workers[t].next < |Chunks(s.workers[t].text)| && Valid(g, s.workers[t], s.workers[t].next)
    case Finishes(t) =>
      PuttingAt(s, t) && s.workers[t].next == |Chunks(s.workers[t].text)| && s.workers[t].name in s.jobs.live
    case _ => true
  }

  /** `Finishes` removes the file that has the name now, whichever reference it holds. */
  function Next(g: Setup, s: State, step: Step): State
    requires Possible(g, s, step)
  {
    match step
    case Grows(name, more) => s.(texts := s.texts[name := TextOf(s, name) + more])
    case Queues(name, job) => s.(jobs := s.jobs.(live := s.jobs.live[name := job]))
    case Syncs => s.(jobs := s.jobs.(disk := s.jobs.live))
    case Takes(t, name) => s.(workers := s.workers[t := Loaded(name, s.jobs.live[name])])
    case Reads(t) =>
      var w := s.workers[t];
      var started := Putting(w.name, SpoolDaemon.Named(w.job), s.texts[w.name], 0);
      s.(workers := s.workers[t := started], whole := s.whole + Completed(started))
    case Puts(t) =>
      var w := s.workers[t];
      var w' := w.(next := w.next + 1);
      s.(workers := s.workers[t := w'], put := s.put + {Memory(g, ReadingOf(w), w.next)}, whole := s.whole + Completed(w'))
    case Finishes(t) =>
      var w := s.workers[t];
      s.(jobs := s.jobs.(live := s.jobs.live - {w.name}), workers := s.workers - {t})
    case GivesUp(t) => s.(workers := s.workers - {t})
    case PowerLoss(kept) =>
      var left := map n | n in s.jobs.live.Keys + s.jobs.disk.Keys && (if n in kept then n in s.jobs.live else n in s.jobs.disk) ::
                    if n in kept then s.jobs.live[n] else s.jobs.disk[n];
      s.(jobs := Directory(left, left), workers := map[])
  }

  function TextOf(s: State, name: string): string {
    if name in s.texts then s.texts[name] else ""
  }

  ghost predicate Succeeds(g: Setup, s: State, s': State) {
    exists step :: Possible(g, s, step) && s' == Next(g, s, step)
  }

  ghost predicate RunFrom(g: Setup, s: State, run: seq<State>) {
    run != [] && run[0] == s && forall k :: 0 <= k < |run| - 1 ==> Succeeds(g, run[k], run[k + 1])
  }

  // ---- what every step keeps -----------------------------------------------------------------------

  ghost predicate AllPut(g: Setup, s: State, r: Reading, n: nat) {
    forall k :: 0 <= k < n && k < |Chunks(r.text)| ==> Memory(g, r, k) in s.put
  }

  ghost predicate WorkerOk(g: Setup, s: State, w: Worker) {
    w.Putting? ==> w.next <= |Chunks(w.text)| && AllPut(g, s, ReadingOf(w), w.next) && Completed(w) <= s.whole
  }

  /** Processes put their chunks in order, and what counts as whole was put. */
  ghost predicate Inv(g: Setup, s: State) {
    && (forall t :: t in s.workers ==> WorkerOk(g, s, s.workers[t]))
    && forall r :: r in s.whole ==> AllPut(g, s, r, |Chunks(r.text)|)
  }

  /** What was put stays put, and a process of which nothing changed is as it was. */
  lemma OthersStayOk(g: Setup, s: State, s': State, w: Worker)
    requires s.put <= s'.put && s.whole <= s'.whole && WorkerOk(g, s, w)
    ensures WorkerOk(g, s', w)
  {
  }

  lemma WorkerStaysOk(g: Setup, s: State, step: Step, t: nat)
    requires Inv(g, s) && Possible(g, s, step) && t in Next(g, s, step).workers
    ensures WorkerOk(g, Next(g, s, step), Next(g, s, step).workers[t])
  {
    var s' := Next(g, s, step);
    if t in s.workers {
      assert WorkerOk(g, s, s.workers[t]);
      OthersStayOk(g, s, s', s.workers[t]);
    }
  }

  lemma NextKeepsInv(g: Setup, s: State, step: Step)
    requires Inv(g, s) && Possible(g, s, step)
    ensures Inv(g, Next(g, s, step))
  {
    var s' := Next(g, s, step);
    forall t | t in s'.workers ensures WorkerOk(g, s', s'.workers[t]) {
      WorkerStaysOk(g, s, step, t);
    }
    forall r | r in s'.whole ensures AllPut(g, s', r, |Chunks(r.text)|) {
      if r !in s.whole {
        assert WorkerOk(g, s', s'.workers[step.task]);
      }
    }
  }

  lemma RunKeepsInv(g: Setup, run: seq<State>, k: nat)
    requires RunFrom(g, START, run) && k < |run|
    ensures Inv(g, run[k])
  {
    forall s, s' | Inv(g, s) && Succeeds(g, s, s') ensures Inv(g, s') {
      var step :| Possible(g, s, step) && s' == Next(g, s, step);
      NextKeepsInv(g, s, step);
    }
    Runs.Along(run, (s, s') => Succeeds(g, s, s'), s => Inv(g, s), 0, k);
  }

  // ---- which transcripts are safe ------------------------------------------------------------------

  /** A reading that includes this text was put whole. */
  ghost predicate Covered(s: State, name: string, text: string) {
    exists r :: r in s.whole && r.name == name && text <= r.text
  }

  ghost predicate Held(s: State, name: string, text: string) {
    name in s.jobs.live || Covered(s, name, text)
  }

  /** This process read the transcript too early, and nothing keeps it from removing the job. */
  ghost predicate Stale(g: Setup, w: Worker, name: string, text: string) {
    && w.Putting? && w.name == name && !(text <= w.text) && w.next <= |Chunks(w.text)|
    && forall k :: w.next <= k < |Chunks(w.text)| ==> Valid(g, w, k)
  }

  ghost predicate Secured(g: Setup, s: State, name: string, text: string) {
    || Covered(s, name, text)
    || (name in s.jobs.live && name in s.jobs.disk && forall t :: t in s.workers ==> !Stale(g, s.workers[t], name, text))
  }

  ghost predicate Safe(g: Setup, s: State, name: string, text: string) {
    Inv(g, s) && text <= TextOf(s, name) && Secured(g, s, name, text)
  }

  lemma StaleBefore(g: Setup, s: State, step: Step, t: nat, name: string, text: string)
    requires Possible(g, s, step) && t in s.workers && t in Next(g, s, step).workers && text <= TextOf(s, name)
    ensures Stale(g, Next(g, s, step).workers[t], name, text) ==> Stale(g, s.workers[t], name, text)
  {
    var w, w' := s.workers[t], Next(g, s, step).workers[t];
    if step.Puts? && t == step.task && Stale(g, w', name, text) {
      forall k | w.next <= k < |Chunks(w.text)| ensures Valid(g, w, k) {
        assert k > w.next ==> Valid(g, w', k);
      }
    }
  }

  lemma NextKeepsSafe(g: Setup, s: State, step: Step, name: string, text: string)
    requires Safe(g, s, name, text) && Possible(g, s, step)
    ensures Safe(g, Next(g, s, step), name, text)
  {
    NextKeepsInv(g, s, step);
    var s' := Next(g, s, step);
    if Covered(s, name, text) {
      var r :| r in s.whole && r.name == name && text <= r.text;
      assert r in s'.whole;
    } else if step.Finishes? && s.workers[step.task].name == name {
      var w := s.workers[step.task];
      assert !Stale(g, w, name, text);
      assert WorkerOk(g, s, w) && ReadingOf(w) in s'.whole;
    } else {
      forall t | t in s'.workers ensures !Stale(g, s'.workers[t], name, text) {
        if t in s.workers {
          StaleBefore(g, s, step, t, name, text);
        }
      }
    }
  }

  lemma SafeForever(g: Setup, run: seq<State>, name: string, text: string)
    requires run != [] && RunFrom(g, run[0], run) && Safe(g, run[0], name, text)
    ensures Safe(g, run[|run| - 1], name, text)
  {
    forall s, s' | Safe(g, s, name, text) && Succeeds(g, s, s') ensures Safe(g, s', name, text) {
      var step :| Possible(g, s, step) && s' == Next(g, s, step);
      NextKeepsSafe(g, s, step, name, text);
    }
    Runs.Along(run, (s, s') => Succeeds(g, s, s'), s => Safe(g, s, name, text), 0, |run| - 1);
  }

  /** A power loss in which nothing that was not on disk survives. */
  lemma Blackout(g: Setup, s: State) returns (run: seq<State>)
    ensures RunFrom(g, s, run) && run[|run| - 1].whole == s.whole
    ensures forall n :: n in run[|run| - 1].jobs.live ==> n in s.jobs.disk
  {
    assert Possible(g, s, PowerLoss({}));
    run := [s, Next(g, s, PowerLoss({}))];
    assert Succeeds(g, run[0], run[1]);
  }

  lemma Before(g: Setup, s: State, step: Step, rest: seq<State>) returns (run: seq<State>)
    requires Possible(g, s, step) && RunFrom(g, Next(g, s, step), rest)
    ensures RunFrom(g, s, run) && run[|run| - 1] == rest[|rest| - 1]
  {
    run := [s] + rest;
    forall k | 0 <= k < |run| - 1 ensures Succeeds(g, run[k], run[k + 1]) {
      if k > 0 {
        assert Succeeds(g, rest[k - 1], rest[k]);
      } else {
        assert Possible(g, run[0], step) && run[1] == Next(g, s, step);
      }
    }
  }

  predicate IsChunkOf(g: Setup, m: MemoryPut, r: Reading) {
    exists k :: 0 <= k < |Chunks(r.text)| && m == Memory(g, r, k)
  }

  ghost predicate PutsOnly(g: Setup, s: State, s': State, r: Reading) {
    forall m :: m in s'.put ==> m in s.put || IsChunkOf(g, m, r)
  }

  lemma OnePutIsOfReading(g: Setup, s: State, t: nat, s'': State)
    requires Possible(g, s, Puts(t)) && PutsOnly(g, Next(g, s, Puts(t)), s'', ReadingOf(s.workers[t]))
    ensures PutsOnly(g, s, s'', ReadingOf(s.workers[t]))
  {
    var w := s.workers[t];
    assert IsChunkOf(g, Memory(g, ReadingOf(w), w.next), ReadingOf(w));
  }

  /** A process that read too early puts its remaining chunks and removes the job. */
  lemma {:induction false} StaleFinishes(g: Setup, s: State, t: nat, name: string, text: string) returns (run: seq<State>)
    requires t in s.workers && Stale(g, s.workers[t], name, text) && name in s.jobs.live && !Covered(s, name, text)
    ensures RunFrom(g, s, run) && !Held(run[|run| - 1], name, text)
    ensures PutsOnly(g, s, run[|run| - 1], ReadingOf(s.workers[t]))
    decreases |Chunks(s.workers[t].text)| - s.workers[t].next
  {
    var w := s.workers[t];
    var step := if w.next < |Chunks(w.text)| then Puts(t) else Finishes(t);
    var s' := Next(g, s, step);
    var rest := [s'];
    if step.Puts? {
      var w' := s'.workers[t];
      forall k | w'.next <= k < |Chunks(w.text)| ensures Valid(g, w', k) {
        assert Valid(g, w, k);
      }
      rest := StaleFinishes(g, s', t, name, text);
      OnePutIsOfReading(g, s, t, rest[|rest| - 1]);
    }
    run := Before(g, s, step, rest);
  }

  /**
   A queued job holds its transcript, as far as it was written, in every future exactly if the job is on disk and no
   process that read an earlier text can still finish and remove it, or the text was already put.
   */
  lemma HeldForeverExactly(g: Setup, s: State, name: string, text: string)
    requires Inv(g, s) && text <= TextOf(s, name)
    ensures (forall run :: RunFrom(g, s, run) ==> Held(run[|run| - 1], name, text)) <==> Secured(g, s, name, text)
  {
    if Secured(g, s, name, text) {
      forall run | RunFrom(g, s, run) ensures Held(run[|run| - 1], name, text) {
        SafeForever(g, run, name, text);
      }
    } else {
      var run := [s];
      if name in s.jobs.live && !Covered(s, name, text) {
        if name !in s.jobs.disk {
          run := Blackout(g, s);
        } else {
          var t :| t in s.workers && Stale(g, s.workers[t], name, text);
          run := StaleFinishes(g, s, t, name, text);
        }
      }
      assert RunFrom(g, s, run) && !Held(run[|run| - 1], name, text);
    }
  }

  /** Once its file was synced a job is in the directory, or all chunks of its transcript were put, whatever dies in between. */
  lemma QueuedOrPut(g: Setup, run: seq<State>, i: nat, j: nat, name: string)
    requires RunFrom(g, START, run) && i <= j < |run| && name in run[i].jobs.live && name in run[i].jobs.disk
    ensures name in run[j].jobs.live
            || exists r :: r in run[j].whole && r.name == name && AllPut(g, run[j], r, |Chunks(r.text)|)
  {
    var later := run[i..j + 1];
    forall k | 0 <= k < |later| - 1 ensures Succeeds(g, later[k], later[k + 1]) {
      assert Succeeds(g, run[i + k], run[i + k + 1]);
    }
    RunKeepsInv(g, run, i);
    SafeForever(g, later, name, "");
    RunKeepsInv(g, run, j);
  }

  // ---- a refresh that is lost ----------------------------------------------------------------------

  lemma Then(g: Setup, run: seq<State>, step: Step) returns (longer: seq<State>)
    requires RunFrom(g, START, run) && Possible(g, run[|run| - 1], step)
    ensures RunFrom(g, START, longer) && longer[|longer| - 1] == Next(g, run[|run| - 1], step)
  {
    var n := |run|;
    longer := run + [Next(g, run[n - 1], step)];
    forall k | 0 <= k < n ensures Succeeds(g, longer[k], longer[k + 1]) {
      if k < n - 1 {
        assert Succeeds(g, run[k], run[k + 1]);
      } else {
        assert Possible(g, longer[k], step) && longer[k + 1] == Next(g, longer[k], step);
      }
    }
  }

  /** Between its two references of one job a process has read the transcript, and then it grew. */
  ghost predicate RefreshedTooLate(s: State, name: string, job: Job, text: string, more: string) {
    && s.jobs == Directory(map[name := job], map[name := job]) && TextOf(s, name) == text + more
    && s.workers == map[0 := Putting(name, SpoolDaemon.Named(job), text, 0)] && s.put == {}
    && forall r :: r in s.whole ==> r.text == text
  }

  lemma ReachRead(g: Setup, name: string, job: Job, text: string) returns (run: seq<State>)
    ensures RunFrom(g, START, run) && RefreshedTooLate(run[|run| - 1], name, job, text, "")
  {
    run := Then(g, [START], Grows(name, text));
    run := Then(g, run, Queues(name, job));
    run := Then(g, run, Syncs);
    run := Then(g, run, Takes(0, name));
    assert "" + text == text && text + "" == text;
    run := Then(g, run, Reads(0));
  }

  lemma ReachRefreshed(g: Setup, name: string, job: Job, text: string, more: string) returns (run: seq<State>)
    ensures RunFrom(g, START, run) && RefreshedTooLate(run[|run| - 1], name, job, text, more)
  {
    run := ReachRead(g, name, job, text);
    assert text + "" == text;
    run := Then(g, run, Grows(name, more));
    run := Then(g, run, Queues(name, job));
    run := Then(g, run, Syncs);
    assert run[|run| - 1].jobs.live == map[name := job];
  }

  /**
   The daemon reads a transcript, more is written, a hook refreshes the job and syncs it, and the daemon removes the
   refreshed file as if it were the one it had read: no job is left, and only the chunks of the early text were put.
   */
  lemma RefreshCanBeLost(g: Setup, name: string, job: Job, text: string, more: string)
    returns (run: seq<State>, later: seq<State>)
    requires more != "" && forall k :: 0 <= k < |Chunks(text)| ==> Valid(g, Putting(name, SpoolDaemon.Named(job), text, 0), k)
    ensures RunFrom(g, START, run) && RefreshedTooLate(run[|run| - 1], name, job, text, more)
    ensures RunFrom(g, run[|run| - 1], later) && !Held(later[|later| - 1], name, text + more)
    ensures forall m :: m in later[|later| - 1].put ==> IsChunkOf(g, m, Reading(name, SpoolDaemon.Named(job), text))
  {
    run := ReachRefreshed(g, name, job, text, more);
    later := StaleFinishes(g, run[|run| - 1], 0, name, text + more);
  }
}
