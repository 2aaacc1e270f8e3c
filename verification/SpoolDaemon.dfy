/**
 The spool object itself: `put`, `mark_sent`, `quarantine`, the transcript jobs and `sync_once`
 (memorybridge/spool.py), each proved against its effect on the four directories.
 */
module SpoolDaemon {
  import opened Basics
  import opened Records
  import opened Sorting
  import opened LocalSpoolFiles
  import Json
  import Transcript

  const CHUNK_BYTES := 32 * 1024
  const MAX_JOBS := 8

  function EventName(h: Hashes, m: MemoryPut, nonce: string): string {
    h.sha256(if m.Keyed() then m.idempotencyKey.value else nonce) + ".json"
  }

  function Spooled(d: Dirs, name: string, m: MemoryPut, now: int): Dirs {
    if name in d.pending || name in d.sent then d else d.(pending := d.pending[name := File(Parsed(m), now)])
  }

  function TranscriptKey(h: Hashes, job: Job, fileName: string, index: nat, chunk: string): string {
    "transcript:" + job.agent + ":" + job.session.Shown() + ":" + fileName + ":" + Digits(index) + ":" + h.sha256(chunk)
  }

  /** What the request model demands of a chunk; validation raises otherwise. */
  predicate ValidChunk(h: Hashes, job: Job, fileName: string, chunks: seq<string>, index: nat)
    requires index < |chunks|
  {
    !job.device.NotText? && !job.session.NotText? && ChunkMemory(h, job, fileName, chunks, index).InBounds()
  }

  predicate AllValid(h: Hashes, job: Job, fileName: string, chunks: seq<string>) {
    forall k :: 0 <= k < |chunks| ==> ValidChunk(h, job, fileName, chunks, k)
  }

  function ChunkMemory(h: Hashes, job: Job, fileName: string, chunks: seq<string>, index: nat): (m: MemoryPut)
    requires index < |chunks|
  {
    MemoryPut(chunks[index], job.agent, job.device.AsOption(), job.session.AsOption(), "transcript", None,
              map["source_file" := fileName, "chunk_index" := Digits(index), "chunk_count" := Digits(|chunks|)],
              Some(TranscriptKey(h, job, fileName, index, chunks[index])), None)
  }

  function ChunkName(h: Hashes, job: Job, fileName: string, chunks: seq<string>, index: nat): string
    requires index < |chunks|
  {
    EventName(h, ChunkMemory(h, job, fileName, chunks, index), "")
  }

  /** The directories after some work, and whether an error that nothing catches ended it. */
  datatype Work = Work(dirs: Dirs, raised: bool)

  /** The chunks from `index` on, put one after the other until one is refused. */
  function SpooledChunks(h: Hashes, d: Dirs, job: Job, fileName: string, chunks: seq<string>, index: nat, now: int): Work
    requires index <= |chunks|
    decreases |chunks| - index
  {
    if index == |chunks| then Work(d, false)
    else if !ValidChunk(h, job, fileName, chunks, index) then Work(d, true)
    else SpooledChunks(h, Spooled(d, ChunkName(h, job, fileName, chunks, index),
                                  ChunkMemory(h, job, fileName, chunks, index), now),
                       job, fileName, chunks, index + 1, now)
  }

  datatype JobFate = Retain | Reject | Materialize(job: Job, text: string, fileName: string)

  /** An empty agent is as good as none. */
  function Named(job: Job): Job {
    if job.agent == "" then job.(agent := "unknown") else job
  }

  function Fate(d: Dirs, name: string, o: Outside): JobFate {
    match ContentOf(d.jobs, name)
    case Unreadable => Retain
    case TranscriptJob(job) =>
      if job.path == "" then Reject
      else (match o.source(job.path)
            case Text(text, fileName) => Materialize(Named(job), text, fileName)
            case _ => Retain)
    case _ => Reject
  }

  function RejectJob(d: Dirs, name: string, o: Outside): Dirs
    requires name in d.jobs
  {
    d.(jobs := d.jobs - {name},
       failed := d.failed[QuarantineName(d.failed, "transcript", name, o.nonce(name)) := d.jobs[name]])
  }

  function HandledJob(h: Hashes, d: Dirs, name: string, o: Outside): Work
    requires name in d.jobs
  {
    match Fate(d, name, o)
    case Retain => Work(d, false)
    case Reject => Work(RejectJob(d, name, o), false)
    case Materialize(job, text, fileName) =>
      var w := SpooledChunks(h, d, job, fileName, Transcript.Chunks(text, CHUNK_BYTES), 0, o.now);
      if w.raised then w else Work(w.dirs.(jobs := w.dirs.jobs - {name}), false)
  }

  function HandledJobs(h: Hashes, d: Dirs, queue: seq<string>, o: Outside): Work
    decreases |queue|
  {
    if queue == [] then Work(d, false)
    else
      var w := if queue[0] in d.jobs then HandledJob(h, d, queue[0], o) else Work(d, false);
      if w.raised then w else HandledJobs(h, w.dirs, queue[1..], o)
  }

  /** How many of the queued jobs a pass materializes and how many it quarantines. */
  function JobCounts(h: Hashes, d: Dirs, queue: seq<string>, o: Outside): (nat, nat)
    decreases |queue|
  {
    if queue == [] then (0, 0)
    else if queue[0] !in d.jobs then JobCounts(h, d, queue[1..], o)
    else if HandledJob(h, d, queue[0], o).raised then (0, 0)
    else
      var rest := JobCounts(h, HandledJob(h, d, queue[0], o).dirs, queue[1..], o);
      match Fate(d, queue[0], o)
      case Retain => rest
      case Reject => (rest.0, rest.1 + 1)
      case Materialize(_, _, _) => (rest.0 + 1, rest.1)
  }

  function First(queue: seq<string>, n: nat): seq<string> {
    queue[..Min(n, |queue|)]
  }

  /** The jobs that a pass looks at. */
  function JobQueue(d: Dirs, o: Outside): seq<string> {
    First(OldestFirst(d.jobs, o), MAX_JOBS)
  }

  /** One whole `sync_once`; an error in a transcript job ends it before anything is pushed. */
  function Synced(h: Hashes, d: Dirs, maxItems: nat, o: Outside): Pass {
    var w := HandledJobs(h, d, JobQueue(d, o), o);
    if w.raised then Pass(w.dirs, 0, 0, 0, true, [])
    else Drain(w.dirs, First(OldestFirst(w.dirs.pending, o), maxItems), o)
  }

  /** What is left of the whole pass when so many files were delivered and quarantined. */
  ghost predicate Continues(whole: Pass, delivered: nat, quarantined: nat, rest: Pass) {
    && whole.dirs == rest.dirs && whole.failed == rest.failed && whole.raised == rest.raised
    && whole.sent == delivered + rest.sent && whole.quarantined == quarantined + rest.quarantined
  }

  // ---- the object ----------------------------------------------------------------------------------

  class LocalSpool {
    var pending: Files
    var sent: Files
    var failed: Files
    var jobs: Files

    constructor ()
      ensures Contents() == Dirs(map[], map[], map[], map[])
    {
      pending, sent, failed, jobs := map[], map[], map[], map[];
    }

    ghost function Contents(): Dirs
      reads this
    {
      Dirs(pending, sent, failed, jobs)
    }

    method Put(h: Hashes, m: MemoryPut, nonce: string, now: int) returns (name: string)
      modifies this`pending
      ensures name == h.sha256(if m.Keyed() then m.idempotencyKey.value else nonce) + ".json"
      ensures Contents() == Spooled(old(Contents()), name, m, now)
      ensures pending == if name in old(pending) || name in sent then old(pending) else old(pending)[name := File(Parsed(m), now)]
      ensures name in pending || name in sent
    {
      name := EventName(h, m, nonce);
      if name in pending || name in sent {
        return;
      }
      pending := pending[name := File(Parsed(m), now)];
    }

    method QueueTranscript(h: Hashes, job: Job, resolved: string, now: int) returns (name: string)
      requires !job.session.NotText? && !job.device.NotText?
      modifies this`jobs
      ensures jobs == old(jobs)[name := File(TranscriptJob(job), now)]
      ensures name == h.sha256(job.agent + ":" + job.session.Shown() + ":" + resolved) + ".json"
    {
      name := h.sha256(job.agent + ":" + job.session.Shown() + ":" + resolved) + ".json";
      jobs := jobs[name := File(TranscriptJob(job), now)];
    }

    method Quarantine(name: string, o: Outside) returns (target: string)
      requires name in pending
      modifies this`pending, this`failed
      ensures Contents() == Condemn(old(Contents()), name, o)
      ensures target == QuarantineName(old(failed), "memory", name, o.nonce(name))
    {
      target := "memory" + "-" + name;
      if target in failed {
        target := "memory" + "-" + o.nonce(name) + "-" + name;
      }
      failed := failed[target := pending[name]];
      pending := pending - {name};
    }

    method MarkSent(name: string, o: Outside)
      requires name in pending
      modifies this`pending, this`sent
      ensures Contents() == Deliver(old(Contents()), name, o)
    {
      sent := sent[name := pending[name]];
      pending := pending - {name};
      var order := NewestFirst(sent, o);
      ghost var receipts, gone := sent, {};
      if |order| <= KEEP_RECEIPTS {
        return;
      }
      for i := KEEP_RECEIPTS to |order|
        invariant gone == Elements(order[KEEP_RECEIPTS..i])
        invariant sent == receipts - gone && pending == old(pending) - {name}
      {
        assert order[KEEP_RECEIPTS..i + 1] == order[KEEP_RECEIPTS..i] + [order[i]];
        gone := gone + {order[i]};
        sent := sent - {order[i]};
      }
      assert order[KEEP_RECEIPTS..|order|] == order[KEEP_RECEIPTS..];
    }

    /** The number of chunks, or an error from the first chunk that makes no valid request. */
    method SpoolTranscript(h: Hashes, job: Job, text: string, fileName: string, now: int) returns (count: nat, raised: bool)
      modifies this`pending
      ensures Work(Contents(), raised)
           == SpooledChunks(h, old(Contents()), job, fileName, Transcript.Chunks(text, CHUNK_BYTES), 0, now)
      ensures !raised ==> count == |Transcript.Chunks(text, CHUNK_BYTES)|
      ensures !raised ==> forall k :: 0 <= k < count ==>
                ChunkArrived(h, old(Contents()), Contents(), job, fileName, Transcript.Chunks(text, CHUNK_BYTES), 0, k)
    {
      var chunks := Transcript.MakeChunks(text, CHUNK_BYTES);
      for i := 0 to |chunks|
        invariant SpooledChunks(h, old(Contents()), job, fileName, chunks, 0, now)
                  == SpooledChunks(h, Contents(), job, fileName, chunks, i, now)
        invariant sent == old(sent) && failed == old(failed) && jobs == old(jobs)
      {
        if !ValidChunk(h, job, fileName, chunks, i) {
          return 0, true;
        }
        var _ := Put(h, ChunkMemory(h, job, fileName, chunks, i), "", now);
      }
      forall k | 0 <= k < |chunks| ensures ChunkArrived(h, old(Contents()), Contents(), job, fileName, chunks, 0, k) {
        ChunksArrive(h, old(Contents()), job, fileName, chunks, 0, now, k);
      }
      return |chunks|, false;
    }

    method MaterializeTranscriptJobs(h: Hashes, o: Outside) returns (materialized: nat, quarantined: nat, raised: bool)
      modifies this`pending, this`failed, this`jobs
      ensures Work(Contents(), raised) == HandledJobs(h, old(Contents()), JobQueue(old(Contents()), o), o)
      ensures !raised ==> (materialized, quarantined) == JobCounts(h, old(Contents()), JobQueue(old(Contents()), o), o)
    {
      materialized, quarantined, raised := 0, 0, false;
      var queue := JobQueue(Dirs(pending, sent, failed, jobs), o);
      for i := 0 to |queue|
        invariant HandledJobs(h, old(Contents()), queue, o) == HandledJobs(h, Contents(), queue[i..], o)
        invariant sent == old(sent) && !raised
        invariant CountsLeft(JobCounts(h, old(Contents()), queue, o), materialized, quarantined,
                             JobCounts(h, Contents(), queue[i..], o), HandledJobs(h, Contents(), queue[i..], o).raised)
      {
        var name := queue[i];
        assert queue[i..][1..] == queue[i + 1..];
        if name in jobs {
          match Fate(Dirs(pending, sent, failed, jobs), name, o)
          case Retain =>
          case Reject =>
            failed := failed[QuarantineName(failed, "transcript", name, o.nonce(name)) := jobs[name]];
            jobs := jobs - {name};
            quarantined := quarantined + 1;
          case Materialize(job, text, fileName) =>
            var _, refused := SpoolTranscript(h, job, text, fileName, o.now);
            if refused {
              raised := true;
              return;
            }
            jobs := jobs - {name};
            materialized := materialized + 1;
        }
      }
    }

    /** One turn of the delivery loop: false when the file stops the pass. */
    method SyncItem(name: string, o: Outside) returns (goesOn: bool, delivered: bool)
      modifies this`pending, this`sent, this`failed
      ensures goesOn == !Stops(old(pending), name, o)
      ensures goesOn ==> name in old(pending) && Contents() == Processed(old(Contents()), name, o)
                         && delivered == !Bad(old(pending)[name].content)
      ensures !goesOn ==> Contents() == old(Contents())
    {
      goesOn, delivered := true, false;
      match ContentOf(pending, name)
      case Unreadable => goesOn := false;
      case Undecodable => goesOn := false;
      case Parsed(m) =>
        if o.accepts(name) {
          MarkSent(name, o);
          delivered := true;
        } else {
          goesOn := false;
        }
      case _ =>
        var _ := Quarantine(name, o);
    }

    /** The delivery loop; `raised` reports the decoding error that nothing catches. */
    method SyncQueue(queue: seq<string>, o: Outside)
      returns (delivered: nat, refused: nat, quarantined: nat, raised: bool)
      modifies this`pending, this`sent, this`failed
      ensures Contents() == Drain(old(Contents()), queue, o).dirs
      ensures Pass(Contents(), delivered, refused, quarantined, raised, Drain(old(Contents()), queue, o).pushed)
              == Drain(old(Contents()), queue, o)
    {
      delivered, refused, quarantined, raised := 0, 0, 0, false;
      ghost var whole := Drain(Contents(), queue, o);
      assert queue[0..] == queue;
      for i := 0 to |queue|
        invariant jobs == old(jobs) && refused == 0 && !raised
        invariant Continues(whole, delivered, quarantined, Drain(Contents(), queue[i..], o))
      {
        var undecodable := ContentOf(pending, queue[i]).Undecodable?;
        var goesOn, wasDelivered := SyncItem(queue[i], o);
        if !goesOn {
          if undecodable { raised := true; } else { refused := 1; }
          return;
        }
        if wasDelivered { delivered := delivered + 1; } else { quarantined := quarantined + 1; }
      }
    }

    method SyncOnce(h: Hashes, maxItems: nat, o: Outside)
      returns (delivered: nat, refused: nat, quarantined: nat, raised: bool)
      modifies this
      ensures var p := Synced(h, old(Contents()), maxItems, o);
              Contents() == p.dirs && delivered == p.sent && refused == p.failed && quarantined == p.quarantined
              && raised == p.raised
    {
      var _, _, failing := MaterializeTranscriptJobs(h, o);
      if failing {
        return 0, 0, 0, true;
      }
      var queue := First(OldestFirst(pending, o), maxItems);
      delivered, refused, quarantined, raised := SyncQueue(queue, o);
    }
  }

  /** What the counters still miss, unless the rest of the pass raises. */
  ghost predicate CountsLeft(all: (nat, nat), materialized: nat, quarantined: nat, rest: (nat, nat), raises: bool) {
    !raises ==> all.0 == materialized + rest.0 && all.1 == quarantined + rest.1
  }

  // ---- what that means -----------------------------------------------------------------------------

  ghost predicate OnlyAddsPending(d: Dirs, d': Dirs) {
    && d'.sent == d.sent && d'.failed == d.failed && d'.jobs == d.jobs
    && forall n :: n in d.pending ==> n in d'.pending && d'.pending[n] == d.pending[n]
  }

  predicate OnItsWay(d: Dirs, name: string) {
    name in d.pending || name in d.sent
  }

  /** The file of a chunk, as spool.py:259-263 and 56-57 spell it. */
  function ChunkFile(h: Hashes, job: Job, fileName: string, chunks: seq<string>, k: nat): string
    requires k < |chunks|
  {
    h.sha256("transcript:" + job.agent + ":" + (if job.session.Given? then job.session.text else "") + ":" + fileName + ":"
             + Digits(k) + ":" + h.sha256(chunks[k])) + ".json"
  }

  /** Field by field, the memory of a chunk. */
  predicate SaysChunk(m: MemoryPut, job: Job, fileName: string, chunks: seq<string>, k: nat)
    requires k < |chunks|
  {
    && m.content == chunks[k] && m.role == "transcript" && m.project == None && m.createdAt == None
    && m.sourceAgent == job.agent
    && m.sourceDevice == (if job.device.Given? then Some(job.device.text) else None)
    && m.sessionId == (if job.session.Given? then Some(job.session.text) else None)
    && m.metadata == map["source_file" := fileName, "chunk_index" := Digits(k), "chunk_count" := Digits(|chunks|)]
  }

  /** The chunk is in pending under its own name. */
  predicate HoldsChunk(h: Hashes, d: Dirs, job: Job, fileName: string, chunks: seq<string>, k: nat)
    requires k < |chunks|
  {
    var name := ChunkFile(h, job, fileName, chunks, k);
    name in d.pending && d.pending[name].content.Parsed? && SaysChunk(d.pending[name].content.memory, job, fileName, chunks, k)
  }

  /** Another chunk from `first` on has the same name. */
  ghost predicate NameRecurs(h: Hashes, job: Job, fileName: string, chunks: seq<string>, first: nat, k: nat)
    requires k < |chunks|
  {
    exists i :: first <= i < |chunks| && i != k && ChunkFile(h, job, fileName, chunks, i) == ChunkFile(h, job, fileName, chunks, k)
  }

  /** Between two moments a chunk came into pending, unless its name was there, or names clash. */
  ghost predicate ChunkArrived(h: Hashes, d: Dirs, d': Dirs, job: Job, fileName: string, chunks: seq<string>, first: nat, k: nat)
    requires k < |chunks|
  {
    var name := ChunkFile(h, job, fileName, chunks, k);
    OnItsWay(d, name) || HoldsChunk(h, d', job, fileName, chunks, k) || NameRecurs(h, job, fileName, chunks, first, k)
  }

  lemma ChunkNameIs(h: Hashes, job: Job, fileName: string, chunks: seq<string>, k: nat)
    requires k < |chunks|
    ensures ChunkName(h, job, fileName, chunks, k) == ChunkFile(h, job, fileName, chunks, k)
    ensures SaysChunk(ChunkMemory(h, job, fileName, chunks, k), job, fileName, chunks, k)
  {
    var session := if job.session.Given? then job.session.text else "";
    assert TranscriptKey(h, job, fileName, k, chunks[k])
        == "transcript:" + job.agent + ":" + session + ":" + fileName + ":" + Digits(k) + ":" + h.sha256(chunks[k]);
  }

  lemma {:induction false} ChunksArrive(h: Hashes, d: Dirs, job: Job, fileName: string, chunks: seq<string>, index: nat, now: int,
                                        k: nat)
    requires index <= k < |chunks| && !SpooledChunks(h, d, job, fileName, chunks, index, now).raised
    ensures ChunkArrived(h, d, SpooledChunks(h, d, job, fileName, chunks, index, now).dirs, job, fileName, chunks, index, k)
    decreases |chunks| - index
  {
    var name := ChunkName(h, job, fileName, chunks, index);
    var d1 := Spooled(d, name, ChunkMemory(h, job, fileName, chunks, index), now);
    ChunkNameIs(h, job, fileName, chunks, index);
    if k == index {
      ChunksOnlyAdd(h, d1, job, fileName, chunks, index + 1, now);
    } else {
      ChunksArrive(h, d1, job, fileName, chunks, index + 1, now, k);
    }
  }

  /** What came into pending are chunks. */
  lemma {:induction false} OnlyChunksArrive(h: Hashes, d: Dirs, job: Job, fileName: string, chunks: seq<string>, index: nat,
                                            now: int, name: string)
    requires index <= |chunks| && OnItsWay(SpooledChunks(h, d, job, fileName, chunks, index, now).dirs, name)
    ensures OnItsWay(d, name) || exists k :: index <= k < |chunks| && name == ChunkFile(h, job, fileName, chunks, k)
    decreases |chunks| - index
  {
    if index < |chunks| && ValidChunk(h, job, fileName, chunks, index) {
      ChunkNameIs(h, job, fileName, chunks, index);
      var d1 := Spooled(d, ChunkName(h, job, fileName, chunks, index), ChunkMemory(h, job, fileName, chunks, index), now);
      OnlyChunksArrive(h, d1, job, fileName, chunks, index + 1, now, name);
    }
  }

  lemma {:induction false} ChunksOnlyAdd(h: Hashes, d: Dirs, job: Job, fileName: string, chunks: seq<string>, index: nat,
                                         now: int)
    requires index <= |chunks|
    ensures var w := SpooledChunks(h, d, job, fileName, chunks, index, now);
            OnlyAddsPending(d, w.dirs) && (Disjoint(d) ==> Disjoint(w.dirs))
    decreases |chunks| - index
  {
    if index < |chunks| && ValidChunk(h, job, fileName, chunks, index) {
      var d1 := Spooled(d, ChunkName(h, job, fileName, chunks, index), ChunkMemory(h, job, fileName, chunks, index), now);
      ChunksOnlyAdd(h, d1, job, fileName, chunks, index + 1, now);
    }
  }

  lemma {:induction false} InvalidChunkRaises(h: Hashes, d: Dirs, job: Job, fileName: string, chunks: seq<string>, index: nat,
                                              now: int)
    requires index <= |chunks|
    ensures SpooledChunks(h, d, job, fileName, chunks, index, now).raised
            <==> exists k :: index <= k < |chunks| && !ValidChunk(h, job, fileName, chunks, k)
    decreases |chunks| - index
  {
    if index < |chunks| && ValidChunk(h, job, fileName, chunks, index) {
      var d1 := Spooled(d, ChunkName(h, job, fileName, chunks, index), ChunkMemory(h, job, fileName, chunks, index), now);
      InvalidChunkRaises(h, d1, job, fileName, chunks, index + 1, now);
    }
  }

  lemma {:induction false} ChunksAreOnTheirWay(h: Hashes, d: Dirs, job: Job, fileName: string, chunks: seq<string>, index: nat,
                                               now: int)
    requires index <= |chunks| && !SpooledChunks(h, d, job, fileName, chunks, index, now).raised
    ensures var w := SpooledChunks(h, d, job, fileName, chunks, index, now);
            forall k :: index <= k < |chunks| ==> OnItsWay(w.dirs, ChunkName(h, job, fileName, chunks, k))
    decreases |chunks| - index
  {
    if index < |chunks| {
      var name := ChunkName(h, job, fileName, chunks, index);
      var d1 := Spooled(d, name, ChunkMemory(h, job, fileName, chunks, index), now);
      ChunksOnlyAdd(h, d1, job, fileName, chunks, index + 1, now);
      ChunksAreOnTheirWay(h, d1, job, fileName, chunks, index + 1, now);
      assert OnItsWay(d1, name);
    }
  }

  /** All chunks are spooled unless one is refused; nothing else changes. */
  lemma {:induction false} ChunksAreSpooled(h: Hashes, d: Dirs, job: Job, fileName: string, chunks: seq<string>, now: int)
    ensures var w := SpooledChunks(h, d, job, fileName, chunks, 0, now);
            && OnlyAddsPending(d, w.dirs) && (Disjoint(d) ==> Disjoint(w.dirs))
            && (w.raised <==> !AllValid(h, job, fileName, chunks))
            && (!w.raised ==> forall k :: 0 <= k < |chunks| ==> OnItsWay(w.dirs, ChunkName(h, job, fileName, chunks, k)))
  {
    ChunksOnlyAdd(h, d, job, fileName, chunks, 0, now);
    InvalidChunkRaises(h, d, job, fileName, chunks, 0, now);
    if !SpooledChunks(h, d, job, fileName, chunks, 0, now).raised {
      ChunksAreOnTheirWay(h, d, job, fileName, chunks, 0, now);
    }
  }

  lemma KeysDiffer(h: Hashes, job: Job, fileName: string, chunks: seq<string>, i: nat, k: nat)
    requires i < |chunks| && k < |chunks|
    requires TranscriptKey(h, job, fileName, i, chunks[i]) == TranscriptKey(h, job, fileName, k, chunks[k])
    ensures i == k
  {
    var front := "transcript:" + job.agent + ":" + job.session.Shown() + ":" + fileName + ":";
    var a, b := Digits(i) + ":" + h.sha256(chunks[i]), Digits(k) + ":" + h.sha256(chunks[k]);
    assert TranscriptKey(h, job, fileName, i, chunks[i]) == front + a;
    assert TranscriptKey(h, job, fileName, k, chunks[k]) == front + b;
    assert a == (front + a)[|front|..] && b == (front + b)[|front|..];
    SplitAt(':', Digits(i), h.sha256(chunks[i]), Digits(k), h.sha256(chunks[k]));
    Json.DigitsRead(i);
    Json.DigitsRead(k);
  }

  /** SHA-256 does not collide on the keys of these chunks. */
  ghost predicate KeysApart(h: Hashes, job: Job, fileName: string, chunks: seq<string>) {
    forall i, k :: 0 <= i < |chunks| && 0 <= k < |chunks| ==>
      NoClash(h.sha256, TranscriptKey(h, job, fileName, i, chunks[i]), TranscriptKey(h, job, fileName, k, chunks[k]))
  }

  lemma NoNameRecurs(h: Hashes, job: Job, fileName: string, chunks: seq<string>, k: nat)
    requires k < |chunks| && KeysApart(h, job, fileName, chunks)
    ensures !NameRecurs(h, job, fileName, chunks, 0, k)
  {
    forall i | 0 <= i < |chunks| && i != k ensures ChunkFile(h, job, fileName, chunks, i) != ChunkFile(h, job, fileName, chunks, k) {
      if ChunkFile(h, job, fileName, chunks, i) == ChunkFile(h, job, fileName, chunks, k) {
        ChunkNameIs(h, job, fileName, chunks, i);
        ChunkNameIs(h, job, fileName, chunks, k);
        var x, y := h.sha256(TranscriptKey(h, job, fileName, i, chunks[i])), h.sha256(TranscriptKey(h, job, fileName, k, chunks[k]));
        assert (x + ".json")[..|x|] == x && (y + ".json")[..|y|] == y;
        assert NoClash(h.sha256, TranscriptKey(h, job, fileName, i, chunks[i]), TranscriptKey(h, job, fileName, k, chunks[k]));
        KeysDiffer(h, job, fileName, chunks, i, k);
      }
    }
  }

  /** The contents of the chunk files, in order. */
  function SpooledTexts(h: Hashes, d: Dirs, job: Job, fileName: string, chunks: seq<string>, from: nat): seq<string>
    requires from <= |chunks|
    requires forall k :: 0 <= k < |chunks| ==> HoldsChunk(h, d, job, fileName, chunks, k)
    decreases |chunks| - from
  {
    if from == |chunks| then []
    else
      assert HoldsChunk(h, d, job, fileName, chunks, from);
      [d.pending[ChunkFile(h, job, fileName, chunks, from)].content.memory.content]
      + SpooledTexts(h, d, job, fileName, chunks, from + 1)
  }

  lemma {:induction false} SpooledTextsAre(h: Hashes, d: Dirs, job: Job, fileName: string, chunks: seq<string>, from: nat)
    requires from <= |chunks|
    requires forall k :: 0 <= k < |chunks| ==> HoldsChunk(h, d, job, fileName, chunks, k)
    ensures SpooledTexts(h, d, job, fileName, chunks, from) == chunks[from..]
    decreases |chunks| - from
  {
    if from < |chunks| {
      SpooledTextsAre(h, d, job, fileName, chunks, from + 1);
      assert HoldsChunk(h, d, job, fileName, chunks, from);
      assert chunks[from..] == [chunks[from]] + chunks[from + 1..];
    }
  }

  /** With all names new, the files that spooling a transcript leaves in pending join to its text. */
  lemma {:induction false} TranscriptIsSpooled(h: Hashes, d: Dirs, job: Job, text: string, fileName: string, now: int)
    requires var chunks := Transcript.Chunks(text, 32 * 1024);
             && AllValid(h, job, fileName, chunks) && KeysApart(h, job, fileName, chunks)
             && forall k :: 0 <= k < |chunks| ==> !OnItsWay(d, ChunkFile(h, job, fileName, chunks, k))
    ensures var (chunks, d') := (Transcript.Chunks(text, 32 * 1024),
                                 SpooledChunks(h, d, job, fileName, Transcript.Chunks(text, CHUNK_BYTES), 0, now).dirs);
            && (forall k :: 0 <= k < |chunks| ==> HoldsChunk(h, d', job, fileName, chunks, k))
            && Transcript.Join(SpooledTexts(h, d', job, fileName, chunks, 0)) == text
  {
    var chunks := Transcript.Chunks(text, CHUNK_BYTES);
    var w := SpooledChunks(h, d, job, fileName, chunks, 0, now);
    InvalidChunkRaises(h, d, job, fileName, chunks, 0, now);
    forall k | 0 <= k < |chunks| ensures HoldsChunk(h, w.dirs, job, fileName, chunks, k) {
      ChunksArrive(h, d, job, fileName, chunks, 0, now, k);
      NoNameRecurs(h, job, fileName, chunks, k);
    }
    SpooledTextsAre(h, w.dirs, job, fileName, chunks, 0);
    Transcript.ChunksPartitionText(text, CHUNK_BYTES);
    assert chunks[0..] == chunks;
  }

  /** Re-reading a grown transcript finds every chunk but the last under the same file name. */
  lemma GrownTranscriptReusesNames(h: Hashes, job: Job, fileName: string, text: string, more: string, k: nat)
    requires text != "" && k < |Transcript.Chunks(text, CHUNK_BYTES)| - 1
    ensures var a, b := Transcript.Chunks(text, CHUNK_BYTES), Transcript.Chunks(text + more, CHUNK_BYTES);
            k < |b| && ChunkName(h, job, fileName, a, k) == ChunkName(h, job, fileName, b, k)
  {
    Transcript.AppendKeepsChunks(text, more, CHUNK_BYTES);
    var a, b := Transcript.Chunks(text, CHUNK_BYTES), Transcript.Chunks(text + more, CHUNK_BYTES);
    assert a[..|a| - 1][k] == b[..|a| - 1][k];
  }

  /** This is the file of chunk `i` of what the job refers to. */
  ghost predicate IsChunkFile(h: Hashes, d: Dirs, name: string, i: nat, o: Outside, file: string) {
    name in d.jobs &&
    match Fate(d, name, o)
    case Materialize(job, text, fileName) =>
      var chunks := Transcript.Chunks(text, CHUNK_BYTES);
      i < |chunks| && file == ChunkFile(h, job, fileName, chunks, i)
    case _ => false
  }

  /** The file is also that of another chunk of this job or of another one in the queue. */
  ghost predicate FileRecurs(h: Hashes, d: Dirs, queue: seq<string>, name: string, k: nat, o: Outside, file: string) {
    exists other, i: nat :: other in queue && (other != name || i != k) && IsChunkFile(h, d, other, i, o, file)
  }

  /** Each chunk is spooled: it is there now, unless its name was taken before or recurs. */
  ghost predicate AllSpooled(h: Hashes, d: Dirs, d': Dirs, queue: seq<string>, name: string, job: Job, fileName: string,
                             chunks: seq<string>, o: Outside) {
    forall k :: 0 <= k < |chunks| ==>
      var file := ChunkFile(h, job, fileName, chunks, k);
      && OnItsWay(d', file)
      && (OnItsWay(d, file) || HoldsChunk(h, d', job, fileName, chunks, k) || FileRecurs(h, d, queue, name, k, o, file))
  }

  ghost predicate Retained(d: Dirs, d': Dirs, name: string)
    requires name in d.jobs
  {
    name in d'.jobs && d'.jobs[name] == d.jobs[name]
  }

  ghost predicate Rejected(d: Dirs, d': Dirs, name: string)
    requires name in d.jobs
  {
    name !in d'.jobs && exists f :: f in d'.failed && f !in d.failed && d'.failed[f] == d.jobs[name]
  }

  /**
   What becomes of a job: one that names no path, or is no job at all, is quarantined; one that cannot be read, or
   whose transcript cannot, is retained; otherwise all chunks of the transcript are spooled, under the agent `unknown`
   if the job names none.
   */
  ghost predicate JobSettled(h: Hashes, d: Dirs, d': Dirs, queue: seq<string>, name: string, o: Outside)
    requires name in d.jobs
  {
    match d.jobs[name].content
    case Unreadable => Retained(d, d', name)
    case TranscriptJob(job) =>
      if job.path == "" then Rejected(d, d', name)
      else if !o.source(job.path).Text? then Retained(d, d', name)
      else
        name !in d'.jobs
        && AllSpooled(h, d, d', queue, name, if job.agent == "" then job.(agent := "unknown") else job,
                      o.source(job.path).fileName, Transcript.Chunks(o.source(job.path).text, CHUNK_BYTES), o)
    case _ => Rejected(d, d', name)
  }

  /** Every spooled name that is new is a chunk's. */
  ghost predicate AddsChunksOf(h: Hashes, d: Dirs, d': Dirs, name: string, o: Outside) {
    forall file :: OnItsWay(d', file) ==> OnItsWay(d, file) || exists i: nat :: IsChunkFile(h, d, name, i, o, file)
  }

  /** From one moment to the next no spooled file and no quarantined file is touched, and no job is new. */
  ghost predicate JobsOnlyAdd(d: Dirs, d': Dirs) {
    && d'.sent == d.sent && (Disjoint(d) ==> Disjoint(d'))
    && (forall n :: n in d.pending ==> n in d'.pending && d'.pending[n] == d.pending[n])
    && (forall f :: f in d.failed ==> f in d'.failed && d'.failed[f] == d.failed[f])
    && (forall n :: n in d'.jobs ==> n in d.jobs)
  }

  /** The source can be read, but one of its chunks makes no valid request. */
  ghost predicate Raises(h: Hashes, d: Dirs, name: string, o: Outside) {
    name in d.jobs &&
    match Fate(d, name, o)
    case Materialize(job, text, fileName) => !AllValid(h, job, fileName, Transcript.Chunks(text, CHUNK_BYTES))
    case _ => false
  }

  lemma MaterializedSettles(h: Hashes, d: Dirs, name: string, o: Outside)
    requires name in d.jobs && Fate(d, name, o).Materialize? && !HandledJob(h, d, name, o).raised
    ensures JobSettled(h, d, HandledJob(h, d, name, o).dirs, [name], name, o)
  {
    var (job, text, fileName) := (Fate(d, name, o).job, Fate(d, name, o).text, Fate(d, name, o).fileName);
    var chunks := Transcript.Chunks(text, CHUNK_BYTES);
    var w := SpooledChunks(h, d, job, fileName, chunks, 0, o.now);
    ChunksAreSpooled(h, d, job, fileName, chunks, o.now);
    forall k | 0 <= k < |chunks|
      ensures var file := ChunkFile(h, job, fileName, chunks, k);
              && OnItsWay(w.dirs, file)
              && (OnItsWay(d, file) || HoldsChunk(h, w.dirs, job, fileName, chunks, k) || FileRecurs(h, d, [name], name, k, o, file))
    {
      ChunkNameIs(h, job, fileName, chunks, k);
      ChunksArrive(h, d, job, fileName, chunks, 0, o.now, k);
      if NameRecurs(h, job, fileName, chunks, 0, k) {
        var i :| 0 <= i < |chunks| && i != k && ChunkFile(h, job, fileName, chunks, i) == ChunkFile(h, job, fileName, chunks, k);
        assert IsChunkFile(h, d, name, i, o, ChunkFile(h, job, fileName, chunks, k));
      }
    }
  }

  lemma MaterializedAddsChunks(h: Hashes, d: Dirs, name: string, o: Outside)
    requires name in d.jobs
    ensures AddsChunksOf(h, d, HandledJob(h, d, name, o).dirs, name, o)
  {
    var d' := HandledJob(h, d, name, o).dirs;
    if Fate(d, name, o).Materialize? {
      var (job, text, fileName) := (Fate(d, name, o).job, Fate(d, name, o).text, Fate(d, name, o).fileName);
      var chunks := Transcript.Chunks(text, CHUNK_BYTES);
      forall file | OnItsWay(d', file) && !OnItsWay(d, file) ensures exists i: nat :: IsChunkFile(h, d, name, i, o, file) {
        OnlyChunksArrive(h, d, job, fileName, chunks, 0, o.now, file);
        var i :| 0 <= i < |chunks| && file == ChunkFile(h, job, fileName, chunks, i);
        assert IsChunkFile(h, d, name, i, o, file);
      }
    }
  }

  lemma HandledJobSettles(h: Hashes, d: Dirs, queue: seq<string>, o: Outside)
    requires queue != [] && Distinct(queue) && queue[0] in d.jobs && FreshNonces("transcript", d.failed, queue, o)
    ensures var w := HandledJob(h, d, queue[0], o);
            && JobsOnlyAdd(d, w.dirs) && (w.raised <==> Raises(h, d, queue[0], o))
            && (if w.raised then w.dirs.jobs == d.jobs else JobSettled(h, d, w.dirs, [queue[0]], queue[0], o))
            && (forall n :: n in d.jobs && n != queue[0] ==> n in w.dirs.jobs && w.dirs.jobs[n] == d.jobs[n])
            && FreshNonces("transcript", w.dirs.failed, queue[1..], o)
  {
    var name := queue[0];
    assert forall n :: n in queue[1..] ==> n in queue;
    match Fate(d, name, o)
    case Retain =>
    case Reject =>
      QuarantineIsFresh("transcript", d.failed, queue, o, d.jobs[name]);
      assert HandledJob(h, d, name, o).dirs.failed[QuarantineName(d.failed, "transcript", name, o.nonce(name))] == d.jobs[name];
    case Materialize(job, text, fileName) =>
      ChunksAreSpooled(h, d, job, fileName, Transcript.Chunks(text, CHUNK_BYTES), o.now);
      if !HandledJob(h, d, name, o).raised {
        MaterializedSettles(h, d, name, o);
      }
  }

  /** A chunk that is there stays there. */
  lemma ChunkStays(h: Hashes, d1: Dirs, d2: Dirs, job: Job, fileName: string, chunks: seq<string>, k: nat)
    requires k < |chunks| && JobsOnlyAdd(d1, d2)
    ensures HoldsChunk(h, d1, job, fileName, chunks, k) ==> HoldsChunk(h, d2, job, fileName, chunks, k)
    ensures var file := ChunkFile(h, job, fileName, chunks, k); OnItsWay(d1, file) ==> OnItsWay(d2, file)
  {
  }

  lemma RecursInMore(h: Hashes, d: Dirs, part: seq<string>, queue: seq<string>, name: string, k: nat, o: Outside, file: string)
    requires FileRecurs(h, d, part, name, k, o, file) && forall n :: n in part ==> n in queue
    ensures FileRecurs(h, d, queue, name, k, o, file)
  {
    var other, i: nat :| other in part && (other != name || i != k) && IsChunkFile(h, d, other, i, o, file);
    assert other in queue;
  }

  lemma SettledLater(h: Hashes, d: Dirs, d1: Dirs, d2: Dirs, part: seq<string>, queue: seq<string>, name: string, o: Outside)
    requires name in d.jobs && JobSettled(h, d, d1, part, name, o) && JobsOnlyAdd(d1, d2)
    requires name in d1.jobs ==> name in d2.jobs && d2.jobs[name] == d1.jobs[name]
    requires forall n :: n in part ==> n in queue
    ensures JobSettled(h, d, d2, queue, name, o)
  {
    if Fate(d, name, o).Materialize? {
      var (job, text, fileName) := (Fate(d, name, o).job, Fate(d, name, o).text, Fate(d, name, o).fileName);
      var chunks := Transcript.Chunks(text, CHUNK_BYTES);
      forall k | 0 <= k < |chunks|
        ensures var file := ChunkFile(h, job, fileName, chunks, k);
                && OnItsWay(d2, file)
                && (OnItsWay(d, file) || HoldsChunk(h, d2, job, fileName, chunks, k) || FileRecurs(h, d, queue, name, k, o, file))
      {
        var file := ChunkFile(h, job, fileName, chunks, k);
        ChunkStays(h, d1, d2, job, fileName, chunks, k);
        if FileRecurs(h, d, part, name, k, o, file) {
          RecursInMore(h, d, part, queue, name, k, o, file);
        }
      }
    }
  }

  lemma SettledBefore(h: Hashes, d: Dirs, d1: Dirs, d2: Dirs, queue: seq<string>, name: string, o: Outside)
    requires queue != [] && name in d.jobs && name in d1.jobs && name != queue[0]
    requires forall n :: n in d.jobs && n != queue[0] ==> n in d1.jobs && d1.jobs[n] == d.jobs[n]
    requires JobsOnlyAdd(d, d1) && AddsChunksOf(h, d, d1, queue[0], o) && queue[0] !in queue[1..]
    requires JobSettled(h, d1, d2, queue[1..], name, o)
    ensures JobSettled(h, d, d2, queue, name, o)
  {
    if Fate(d, name, o).Materialize? {
      var (job, text, fileName) := (Fate(d, name, o).job, Fate(d, name, o).text, Fate(d, name, o).fileName);
      var chunks := Transcript.Chunks(text, CHUNK_BYTES);
      forall k | 0 <= k < |chunks|
        ensures var file := ChunkFile(h, job, fileName, chunks, k);
                && OnItsWay(d2, file)
                && (OnItsWay(d, file) || HoldsChunk(h, d2, job, fileName, chunks, k) || FileRecurs(h, d, queue, name, k, o, file))
      {
        var file := ChunkFile(h, job, fileName, chunks, k);
        if OnItsWay(d1, file) && !OnItsWay(d, file) {
          var i: nat :| IsChunkFile(h, d, queue[0], i, o, file);
          assert queue[0] in queue;
        } else if FileRecurs(h, d1, queue[1..], name, k, o, file) {
          RecursBefore(h, d, d1, queue, name, k, o, file);
        }
      }
    }
  }

  lemma RecursBefore(h: Hashes, d: Dirs, d1: Dirs, queue: seq<string>, name: string, k: nat, o: Outside, file: string)
    requires queue != [] && queue[0] !in queue[1..] && FileRecurs(h, d1, queue[1..], name, k, o, file)
    requires JobsOnlyAdd(d, d1) && forall n :: n in d.jobs && n != queue[0] ==> n in d1.jobs && d1.jobs[n] == d.jobs[n]
    ensures FileRecurs(h, d, queue, name, k, o, file)
  {
    var other, i: nat :| other in queue[1..] && (other != name || i != k) && IsChunkFile(h, d1, other, i, o, file);
    assert other in queue && IsChunkFile(h, d, other, i, o, file);
  }

  /** Every job of the queue is settled, every other job is left alone. */
  ghost predicate AllSettled(h: Hashes, d: Dirs, d': Dirs, queue: seq<string>, o: Outside) {
    && (forall n :: n in queue ==> n in d.jobs && JobSettled(h, d, d', queue, n, o))
    && (forall n :: n in d.jobs && n !in queue ==> n in d'.jobs && d'.jobs[n] == d.jobs[n])
  }

  /** How far the pass comes: to the first job that raises. */
  ghost predicate Handles(h: Hashes, d: Dirs, w: Work, queue: seq<string>, k: nat, o: Outside) {
    && k <= |queue| && JobsOnlyAdd(d, w.dirs) && AllSettled(h, d, w.dirs, queue[..k], o)
    && (forall i :: 0 <= i < k ==> !Raises(h, d, queue[i], o))
    && (w.raised <==> k < |queue|) && (k < |queue| ==> Raises(h, d, queue[k], o))
  }

  lemma SameFate(h: Hashes, d: Dirs, d': Dirs, name: string, o: Outside)
    requires name in d.jobs && name in d'.jobs && d'.jobs[name] == d.jobs[name]
    ensures Raises(h, d, name, o) <==> Raises(h, d', name, o)
  {
  }

  lemma AllSettledExtends(h: Hashes, d: Dirs, d1: Dirs, d': Dirs, queue: seq<string>, o: Outside)
    requires queue != [] && Distinct(queue) && (forall n :: n in queue ==> n in d.jobs)
    requires JobsOnlyAdd(d, d1) && JobSettled(h, d, d1, [queue[0]], queue[0], o) && AddsChunksOf(h, d, d1, queue[0], o)
    requires forall n :: n in d.jobs && n != queue[0] ==> n in d1.jobs && d1.jobs[n] == d.jobs[n]
    requires JobsOnlyAdd(d1, d') && AllSettled(h, d1, d', queue[1..], o)
    ensures AllSettled(h, d, d', queue, o)
  {
    assert forall n :: n in queue[1..] ==> n in queue && n != queue[0];
    assert queue[0] !in queue[1..];
    SettledLater(h, d, d1, d', [queue[0]], queue, queue[0], o);
    forall n | n in queue[1..] ensures JobSettled(h, d, d', queue, n, o) {
      SettledBefore(h, d, d1, d', queue, n, o);
    }
    assert forall n :: n in queue <==> n == queue[0] || n in queue[1..];
  }

  lemma HandlesExtends(h: Hashes, d: Dirs, d1: Dirs, w: Work, queue: seq<string>, k: nat, o: Outside)
    requires queue != [] && Distinct(queue) && (forall n :: n in queue ==> n in d.jobs)
    requires JobsOnlyAdd(d, d1) && JobSettled(h, d, d1, [queue[0]], queue[0], o) && AddsChunksOf(h, d, d1, queue[0], o)
    requires !Raises(h, d, queue[0], o)
    requires forall n :: n in d.jobs && n != queue[0] ==> n in d1.jobs && d1.jobs[n] == d.jobs[n]
    requires Handles(h, d1, w, queue[1..], k, o)
    ensures Handles(h, d, w, queue, k + 1, o)
  {
    var head := queue[..k + 1];
    assert head[1..] == queue[1..][..k] && head[0] == queue[0];
    AllSettledExtends(h, d, d1, w.dirs, head, o);
    forall i | 0 < i < |queue| ensures Raises(h, d, queue[i], o) <==> Raises(h, d1, queue[1..][i - 1], o) {
      assert queue[1..][i - 1] == queue[i] && queue[i] in queue && queue[i] != queue[0];
      SameFate(h, d, d1, queue[i], o);
    }
  }

  /**
   The jobs up to the first that raises are settled: retained, quarantined, or materialized with all their chunks
   spooled.  That one and the jobs behind it stay queued, and nothing spooled or quarantined is overwritten.
   */
  lemma {:induction false} HandledJobsSettle(h: Hashes, d: Dirs, queue: seq<string>, o: Outside) returns (k: nat)
    requires Distinct(queue) && (forall n :: n in queue ==> n in d.jobs) && FreshNonces("transcript", d.failed, queue, o)
    ensures Handles(h, d, HandledJobs(h, d, queue, o), queue, k, o)
    decreases |queue|
  {
    k := 0;
    if queue != [] {
      var w := HandledJob(h, d, queue[0], o);
      HandledJobSettles(h, d, queue, o);
      if !w.raised {
        assert forall n :: n in queue[1..] ==> n in queue && n != queue[0];
        MaterializedAddsChunks(h, d, queue[0], o);
        var j := HandledJobsSettle(h, w.dirs, queue[1..], o);
        HandlesExtends(h, d, w.dirs, HandledJobs(h, w.dirs, queue[1..], o), queue, j, o);
        k := j + 1;
      }
    }
  }

  /** A pass takes as many items as allowed, or all, oldest first, and leaves none that is older. */
  lemma OldestComeFirst(files: Files, n: nat, o: Outside)
    requires Lists(o)
    ensures var queue := First(OldestFirst(files, o), n);
            && |queue| == (if |files| < n then |files| else n)
            && Distinct(queue) && (forall x :: x in queue ==> x in files)
            && (forall i, j :: 0 <= i < j < |queue| ==> Age(files, queue[i]) <= Age(files, queue[j]))
            && forall x, y :: x in queue && y in files && y !in queue ==> Age(files, x) <= Age(files, y)
  {
    ByAge(files, o);
    var all := OldestFirst(files, o);
    DistinctSize(all, files.Keys);
    forall x, y | x in First(all, n) && y in files && y !in First(all, n) ensures Age(files, x) <= Age(files, y) {
      var i, j := BeforeAndBehind(all, Min(n, |all|), x, y);
    }
  }

  /**
   A pass fails in a transcript job exactly if, among the eight oldest, there is one whose transcript can be read and
   has a chunk that makes no valid request; that job stays queued as it is.
   */
  lemma {:induction false} MaterializationRaisesExactly(h: Hashes, d: Dirs, o: Outside)
    requires Lists(o) && FreshNonces("transcript", d.failed, JobQueue(d, o), o)
    ensures |JobQueue(d, o)| == if |d.jobs| < 8 then |d.jobs| else 8
    ensures var w := HandledJobs(h, d, JobQueue(d, o), o);
            && (w.raised <==> exists name :: name in JobQueue(d, o) && Raises(h, d, name, o))
            && (w.raised ==> exists name :: name in JobQueue(d, o) && Raises(h, d, name, o)
                                            && name in w.dirs.jobs && w.dirs.jobs[name] == d.jobs[name])
  {
    OldestComeFirst(d.jobs, MAX_JOBS, o);
    var queue := JobQueue(d, o);
    var k := HandledJobsSettle(h, d, queue, o);
    if k < |queue| {
      assert queue[k] in queue;
      SplitDistinct(queue, k, queue[k]);
      assert queue[k..][0] == queue[k];
    }
  }

  /**
   One `sync_once`: the oldest jobs are settled first; unless one of them raises, the pending files are taken oldest
   first, valid ones are pushed in that order up to the first that stops the pass, and every file is conserved.
   */
  lemma {:induction false} SyncOnceConserves(h: Hashes, d: Dirs, maxItems: nat, o: Outside) returns (k: nat)
    requires Lists(o) && FreshNonces("transcript", d.failed, JobQueue(d, o), o)
    requires var d1 := HandledJobs(h, d, JobQueue(d, o), o).dirs;
             FreshNonces("memory", d1.failed, First(OldestFirst(d1.pending, o), maxItems), o)
    ensures var w, p := HandledJobs(h, d, JobQueue(d, o), o), Synced(h, d, maxItems, o);
            var queue := First(OldestFirst(w.dirs.pending, o), maxItems);
            && Handles(h, d, w, JobQueue(d, o), k, o)
            && if w.raised then p == Pass(w.dirs, 0, 0, 0, true, [])
               else && (forall i, j :: 0 <= i < j < |queue| ==> Age(w.dirs.pending, queue[i]) <= Age(w.dirs.pending, queue[j]))
                    && IsPrefixPass(w.dirs.pending, queue, p, o)
                    && Conserved(w.dirs, p.dirs, p.pushed, p.quarantined)
  {
    OldestComeFirst(d.jobs, MAX_JOBS, o);
    k := HandledJobsSettle(h, d, JobQueue(d, o), o);
    var d1 := HandledJobs(h, d, JobQueue(d, o), o).dirs;
    OldestComeFirst(d1.pending, maxItems, o);
    var queue := First(OldestFirst(d1.pending, o), maxItems);
    DrainIsPrefix(d1, queue, o);
    DrainConserves(d1, queue, o);
  }

  // ---- one transcript job that blocks the queue ----------------------------------------------------

  function Long(n: nat): string {
    seq(n, _ => 's')
  }

  /** As `queue_transcript` writes it for a session id of 257 characters. */
  const BAD_JOB := Job("codex", "/t/log.jsonl", Given(Long(257)), Missing)

  /** The only job; its transcript holds one line. */
  ghost predicate OnlyBadJob(d: Dirs, name: string, now: int, o: Outside) {
    d.jobs == map[name := File(TranscriptJob(BAD_JOB), now)] && o.source("/t/log.jsonl") == Text("x", "log.jsonl")
  }

  lemma BadJobRaises(h: Hashes, d: Dirs, name: string, now: int, o: Outside)
    requires OnlyBadJob(d, name, now, o)
    ensures HandledJob(h, d, name, o) == Work(d, true)
  {
    Transcript.ChunksPartitionText("x", CHUNK_BYTES);
    var chunks := Transcript.Chunks("x", CHUNK_BYTES);
    assert chunks != [];
    assert |ChunkMemory(h, BAD_JOB, "log.jsonl", chunks, 0).sessionId.GetOr("")| == 257;
    assert SpooledChunks(h, d, BAD_JOB, "log.jsonl", chunks, 0, o.now) == Work(d, true);
  }

  lemma OnlyOne(queue: seq<string>, name: string)
    requires queue != [] && Distinct(queue) && forall i :: 0 <= i < |queue| ==> queue[i] == name
    ensures queue == [name]
  {
    DistinctFits(queue, {name});
  }

  /**
   Such a job makes every pass raise before anything is pushed, whatever else is pending, and changes nothing: the
   daemon never delivers again until the job is removed by hand.
   */
  lemma OneBadJobBlocksAll(h: Hashes, d: Dirs, name: string, now: int, maxItems: nat, o: Outside)
    requires Lists(o) && OnlyBadJob(d, name, now, o)
    ensures Synced(h, d, maxItems, o) == Pass(d, 0, 0, 0, true, [])
  {
    OldestComeFirst(d.jobs, MAX_JOBS, o);
    var queue := JobQueue(d, o);
    ByAge(d.jobs, o);
    assert name in OldestFirst(d.jobs, o);
    assert forall n :: n in queue ==> n == name;
    assert forall i :: 0 <= i < |queue| ==> queue[i] in queue;
    OnlyOne(queue, name);
    BadJobRaises(h, d, name, now, o);
  }
}
