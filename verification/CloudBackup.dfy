/**
 A backup run for one collection (`backup_collection`, `prune_remote_snapshots` in
 scripts/memorybridge_cloud_backup.py) as a machine of single effects.  A file lock admits one run at a time; a run
 may be cut short anywhere, and every command may fail with or without having taken effect.
 */
module CloudBackup {
  import opened Basics
  import opened Sorting
  import opened Sidecar
  import Runs

  datatype FileName =
    | Snap(name: string)
    | Part(name: string)
    | Side(name: string)
    | SidePart(name: string)
    | Latest
    | LatestPart

  /** The fields of `latest.json` that name the snapshot and say what it should be. */
  datatype Pointer = Pointer(snapshot: string, qdrantChecksum: Option<string>, downloadSha: string, cloudSha: string,
                             reportedSize: Option<nat>, actualSize: nat)

  datatype Content = Data(bytes: string) | Line(text: string) | Doc(pointer: Pointer) | Scrap

  datatype File = File(content: Content, mtime: int)

  type Files = map<FileName, File>

  datatype Setup = Setup(sha: string -> string, keep: int)

  /** `REMOTE_KEEP`. */
  function Keep(g: Setup): nat {
    Max(1, g.keep)
  }

  datatype Stage =
    | Created          // Qdrant has the snapshot
    | Staged           // downloaded and checked
    | Cleared          // stale .part removed
    | Uploaded
    | Moved
    | Checked          // remote checksum equals the local one
    | SideUploaded
    | SideMoved
    | PointerUploaded
    | Published
    | Deleted          // Qdrant's own snapshot is gone
    | Rechecked
    | Pruning(targets: seq<string>, part: nat)

  /** The new snapshot as Qdrant announced it, and the bytes that were downloaded. */
  datatype Job = Job(name: string, checksum: Option<string>, size: Option<nat>, bytes: string, stage: Stage)

  /** `local` holds Qdrant's own snapshots; `used` is history: every name ever given. */
  datatype State = State(files: Files, local: set<string>, job: Option<Job>, used: set<string>, now: int)

  datatype Step =
    | Begins(name: string, checksum: Option<string>, size: Option<nat>)
    | Downloads(bytes: string)
    | Uploads(written: string)
    | Does
    | Removes(ok: bool, effect: bool)
    | Lists(listing: seq<string>)
    | Fails(effect: bool)
    | Tears
    | Dies
    | Ends

  predicate IsSnapshotName(n: string) {
    |n| >= 9 && n[|n| - 9..] == ".snapshot"
  }

  /** The snapshots in the remote directory, in any order. */
  ghost predicate Listing(files: Files, listing: seq<string>) {
    Distinct(listing) && forall n :: n in listing <==> Snap(n) in files && IsSnapshotName(n)
  }

  function MtimeOf(files: Files, n: string): int {
    if Snap(n) in files then files[Snap(n)].mtime else 0
  }

  /** The order of `(mtime, path)` pairs sorted in reverse. */
  predicate Newer(files: Files, a: string, b: string) {
    MtimeOf(files, a) > MtimeOf(files, b) || (MtimeOf(files, a) == MtimeOf(files, b) && StrLeq(b, a))
  }

  function NewestFirst(files: Files, listing: seq<string>): seq<string> {
    Sort(listing, (a, b) => Newer(files, a, b))
  }

  function Targets(g: Setup, files: Files, listing: seq<string>): seq<string> {
    var newest := NewestFirst(files, listing);
    if |newest| <= Keep(g) then [] else newest[Keep(g)..]
  }

  /** An empty checksum is as good as none. */
  predicate Given(checksum: Option<string>) {
    checksum.Some? && checksum.value != ""
  }

  /** The checks on the downloaded file. */
  predicate Accepts(g: Setup, job: Job, bytes: string) {
    && (Given(job.checksum) ==> g.sha(bytes) == Lower(job.checksum.value))
    && (job.size.Some? ==> |bytes| == job.size.value)
  }

  function PointerFor(g: Setup, job: Job): Pointer {
    Pointer(job.name, job.checksum, g.sha(job.bytes), g.sha(job.bytes), job.size, |job.bytes|)
  }

  /** The remote checksum is what was downloaded. */
  predicate RemoteMatches(g: Setup, files: Files, job: Job) {
    Snap(job.name) in files && files[Snap(job.name)].content.Data?
    && g.sha(files[Snap(job.name)].content.bytes) == g.sha(job.bytes)
  }

  predicate Doable(g: Setup, s: State) {
    s.job.Some? &&
    var (job, files) := (s.job.value, s.files);
    match job.stage
    case Uploaded => Part(job.name) in files
    case Moved => RemoteMatches(g, files, job)
    case Checked => true
    case SideUploaded => SidePart(job.name) in files
    case SideMoved => true
    case PointerUploaded => LatestPart in files
    case Published => true
    case Deleted => job.name !in s.local
    case _ => false
  }

  ghost predicate Possible(g: Setup, s: State, step: Step) {
    match step
    case Begins(n, _, _) => s.job.None? && n !in s.used && n !in s.local
    case Downloads(bytes) => s.job.Some? && s.job.value.stage.Created? && Accepts(g, s.job.value, bytes)
    case Uploads(_) => s.job.Some? && s.job.value.stage.Cleared?
    case Does => Doable(g, s)
    case Removes(ok, effect) =>
      && (ok ==> effect) && s.job.Some?
      && (s.job.value.stage.Staged? || (s.job.value.stage.Pruning? && s.job.value.stage.targets != []))
    case Lists(listing) => s.job.Some? && s.job.value.stage.Rechecked? && Listing(s.files, listing)
    case Fails(_) => Doable(g, s)
    case Tears => s.job.Some?
    case Dies => s.job.Some?
    case Ends => s.job.Some? && s.job.value.stage.Pruning? && s.job.value.stage.targets == []
  }

  function Write(files: Files, name: FileName, content: Content, now: int): Files {
    files[name := File(content, now)]
  }

  /** `mv -f`: the file keeps its mtime under the new name. */
  function Replace(files: Files, from: FileName, to: FileName): Files
    requires from in files
  {
    files[to := files[from]] - {from}
  }

  /** What the next command does to the remote directory. */
  function FilesAfter(g: Setup, s: State): Files
    requires Doable(g, s)
  {
    var (job, files) := (s.job.value, s.files);
    var n := job.name;
    match job.stage
    case Uploaded => Replace(files, Part(n), Snap(n))
    case Checked => Write(files, SidePart(n), Line(SidecarLine(g.sha(job.bytes), n)), s.now)
    case SideUploaded => Replace(files, SidePart(n), Side(n))
    case SideMoved => Write(files, LatestPart, Doc(PointerFor(g, job)), s.now)
    case PointerUploaded => Replace(files, LatestPart, Latest)
    case _ => files
  }

  function StageAfter(stage: Stage): Stage {
    match stage
    case Uploaded => Moved
    case Moved => Checked
    case Checked => SideUploaded
    case SideUploaded => SideMoved
    case SideMoved => PointerUploaded
    case PointerUploaded => Published
    case Published => Deleted
    case Deleted => Rechecked
    case _ => stage
  }

  function LocalAfter(s: State): set<string>
    requires s.job.Some?
  {
    if s.job.value.stage.Published? then s.local - {s.job.value.name} else s.local
  }

  /** The file that `rm -f` is asked to remove. */
  function Removal(job: Job): FileName {
    match job.stage
    case Pruning(targets, part) =>
      if targets == [] then Part(job.name)
      else if part == 0 then Snap(targets[0]) else if part == 1 then Side(targets[0]) else Part(targets[0])
    case _ => Part(job.name)
  }

  /** A snapshot whose removal is reported as failed is passed over; the other two removals are not looked at. */
  function StageAfterRemoval(stage: Stage, ok: bool): Stage {
    match stage
    case Pruning(targets, part) =>
      if targets == [] then stage
      else if part < 2 && (ok || part > 0) then Pruning(targets, part + 1)
      else Pruning(targets[1..], 0)
    case _ => Cleared
  }

  /** The temporary file being written, if any, may be left cut short. */
  function TornFile(job: Job): Option<FileName> {
    match job.stage
    case Cleared => Some(Part(job.name))
    case Checked => Some(SidePart(job.name))
    case SideMoved => Some(LatestPart)
    case _ => None
  }

  ghost function Next(g: Setup, s: State, step: Step): State
    requires Possible(g, s, step)
  {
    match step
    case Begins(n, checksum, size) =>
      s.(local := s.local + {n}, used := s.used + {n}, job := Some(Job(n, checksum, size, "", Created)))
    case Downloads(bytes) => s.(job := Some(s.job.value.(bytes := bytes, stage := Staged)))
    case Uploads(written) =>
      s.(files := Write(s.files, Part(s.job.value.name), Data(written), s.now), now := s.now + 1,
         job := Some(s.job.value.(stage := Uploaded)))
    case Does =>
      s.(files := FilesAfter(g, s), local := LocalAfter(s), now := s.now + 1,
         job := Some(s.job.value.(stage := StageAfter(s.job.value.stage))))
    case Removes(ok, effect) =>
      s.(files := if effect then s.files - {Removal(s.job.value)} else s.files,
         job := Some(s.job.value.(stage := StageAfterRemoval(s.job.value.stage, ok))))
    case Lists(listing) => s.(job := Some(s.job.value.(stage := Pruning(Targets(g, s.files, listing), 0))))
    case Fails(effect) =>
      if effect then s.(files := FilesAfter(g, s), local := LocalAfter(s), now := s.now + 1, job := None)
      else s.(job := None)
    case Tears =>
      if TornFile(s.job.value).Some?
      then s.(files := Write(s.files, TornFile(s.job.value).value, Scrap, s.now), now := s.now + 1, job := None)
      else s.(job := None)
    case Dies => s.(job := None)
    case Ends => s.(job := None)
  }

  // ---- what every step keeps -----------------------------------------------------------------------

  /** A snapshot with this digest, and the sidecar that says so. */
  predicate Stored(g: Setup, files: Files, n: string, digest: string) {
    && Snap(n) in files && files[Snap(n)].content.Data? && g.sha(files[Snap(n)].content.bytes) == digest
    && Side(n) in files && files[Side(n)].content == Line(SidecarLine(digest, n))
  }

  /** The digests that `latest.json` records are those of a stored snapshot, and of what Qdrant announced. */
  predicate PointerOk(g: Setup, files: Files, p: Pointer) {
    && Stored(g, files, p.snapshot, p.cloudSha) && p.downloadSha == p.cloudSha
    && (Given(p.qdrantChecksum) ==> Lower(p.qdrantChecksum.value) == p.cloudSha)
    && (p.reportedSize.Some? ==> p.reportedSize.value == p.actualSize)
  }

  predicate LatestOk(g: Setup, files: Files) {
    Latest in files ==> files[Latest].content.Doc? && PointerOk(g, files, files[Latest].content.pointer)
  }

  /** From the move on, the new snapshot is the newest. */
  ghost predicate IsNewest(files: Files, n: string) {
    Snap(n) in files && forall m :: Snap(m) in files && m != n ==> files[Snap(m)].mtime < files[Snap(n)].mtime
  }

  predicate PointsTo(files: Files, n: string) {
    Latest in files && files[Latest].content.Doc? && files[Latest].content.pointer.snapshot == n
  }

  ghost predicate StageOk(g: Setup, s: State, job: Job) {
    var (n, files, digest) := (job.name, s.files, g.sha(job.bytes));
    match job.stage
    case Created => Snap(n) !in files
    case Staged => Snap(n) !in files
    case Cleared => Snap(n) !in files
    case Uploaded =>
      && Snap(n) !in files && Part(n) in files && files[Part(n)].content.Data?
      && forall m :: Snap(m) in files ==> files[Snap(m)].mtime < files[Part(n)].mtime
    case Moved => IsNewest(files, n) && files[Snap(n)].content.Data?
    case Checked => IsNewest(files, n) && RemoteMatches(g, files, job)
    case SideUploaded =>
      IsNewest(files, n) && RemoteMatches(g, files, job) && SidePart(n) in files
      && files[SidePart(n)].content == Line(SidecarLine(digest, n))
    case SideMoved => IsNewest(files, n) && Stored(g, files, n, digest)
    case PointerUploaded =>
      IsNewest(files, n) && Stored(g, files, n, digest) && LatestPart in files
      && files[LatestPart].content == Doc(PointerFor(g, job))
    case Published => IsNewest(files, n) && PointsTo(files, n)
    case Deleted => IsNewest(files, n) && PointsTo(files, n) && n !in s.local
    case Rechecked => IsNewest(files, n) && PointsTo(files, n) && n !in s.local
    case Pruning(targets, _) => IsNewest(files, n) && PointsTo(files, n) && n !in targets && n !in s.local
  }

  predicate Unpublished(stage: Stage) {
    !(stage.Published? || stage.Deleted? || stage.Rechecked? || stage.Pruning?)
  }

  ghost predicate JobOk(g: Setup, s: State) {
    s.job.Some? ==>
      && s.job.value.name in s.used
      && (Unpublished(s.job.value.stage) ==> !PointsTo(s.files, s.job.value.name))
      && (!s.job.value.stage.Created? ==> Accepts(g, s.job.value, s.job.value.bytes))
      && StageOk(g, s, s.job.value)
  }

  ghost predicate NamesOk(s: State) {
    && (forall n :: Snap(n) in s.files ==> n in s.used)
    && forall f :: f in s.files ==> s.files[f].mtime < s.now
  }

  ghost predicate Inv(g: Setup, s: State) {
    LatestOk(g, s.files) && JobOk(g, s) && NamesOk(s)
  }

  /** The files that `latest.json` vouches for are as they were. */
  lemma LatestStays(g: Setup, files: Files, files': Files)
    requires LatestOk(g, files)
    requires Latest in files' ==> Latest in files && files'[Latest].content == files[Latest].content
    requires forall n :: PointsTo(files, n) && Snap(n) in files ==> Snap(n) in files' && files'[Snap(n)] == files[Snap(n)]
    requires forall n :: PointsTo(files, n) && Side(n) in files ==> Side(n) in files' && files'[Side(n)] == files[Side(n)]
    ensures LatestOk(g, files')
  {
    if Latest in files' {
      var n := files[Latest].content.pointer.snapshot;
      assert PointsTo(files, n) && Snap(n) in files && Side(n) in files;
    }
  }

  lemma DoesKeepsLatest(g: Setup, s: State)
    requires Inv(g, s) && Doable(g, s)
    ensures LatestOk(g, FilesAfter(g, s))
  {
    var job, files := s.job.value, s.files;
    if !job.stage.PointerUploaded? {
      LatestStays(g, files, FilesAfter(g, s));
    }
  }

  lemma DoesKeeps(g: Setup, s: State)
    requires Inv(g, s) && Doable(g, s)
    ensures Inv(g, Next(g, s, Does))
  {
    DoesKeepsLatest(g, s);
  }

  lemma UploadsKeeps(g: Setup, s: State, written: string)
    requires Inv(g, s) && Possible(g, s, Uploads(written))
    ensures Inv(g, Next(g, s, Uploads(written)))
  {
    LatestStays(g, s.files, Next(g, s, Uploads(written)).files);
  }

  lemma TearsKeeps(g: Setup, s: State)
    requires Inv(g, s) && Possible(g, s, Tears)
    ensures Inv(g, Next(g, s, Tears))
  {
    LatestStays(g, s.files, Next(g, s, Tears).files);
  }

  lemma RemovesKeeps(g: Setup, s: State, ok: bool, effect: bool)
    requires Inv(g, s) && Possible(g, s, Removes(ok, effect))
    ensures Inv(g, Next(g, s, Removes(ok, effect)))
  {
    var s' := Next(g, s, Removes(ok, effect));
    LatestStays(g, s.files, s'.files);
    assert PointsTo(s'.files, s.job.value.name) == PointsTo(s.files, s.job.value.name);
  }

  // Listing picks old snapshots.

  lemma NewerIsTotal(files: Files)
    ensures TotalPreorder((a, b) => Newer(files, a, b))
  {
    forall a, b ensures Newer(files, a, b) || Newer(files, b, a) {
      StrLeqTotal(a, b);
    }
    forall a, b, c | Newer(files, a, b) && Newer(files, b, c) ensures Newer(files, a, c) {
      if StrLeq(c, b) && StrLeq(b, a) {
        StrLeqTransitive(c, b, a);
      }
    }
  }

  lemma NewestFirstFacts(files: Files, listing: seq<string>)
    requires Listing(files, listing)
    ensures var newest := NewestFirst(files, listing);
            && |newest| == |listing| && Distinct(newest) && (forall n :: n in newest <==> n in listing)
            && forall i, j :: 0 <= i < j < |newest| ==> Newer(files, newest[i], newest[j])
  {
    var leq := (a, b) => Newer(files, a, b);
    NewerIsTotal(files);
    SortFacts(listing, leq);
    var newest := NewestFirst(files, listing);
    forall i, j | 0 <= i < j < |newest| ensures Newer(files, newest[i], newest[j]) {
      assert leq(newest[i], newest[j]);
    }
  }

  lemma OthersComeLater(files: Files, listing: seq<string>, n: string)
    requires Listing(files, listing) && IsNewest(files, n)
    ensures forall i :: 0 < i < |NewestFirst(files, listing)| ==> NewestFirst(files, listing)[i] != n
  {
    NewestFirstFacts(files, listing);
    var newest := NewestFirst(files, listing);
    forall i | 0 < i < |newest| ensures newest[i] != n {
      assert newest[0] in newest && Newer(files, newest[0], newest[i]) && newest[0] != newest[i];
    }
  }

  lemma TargetsAreOld(g: Setup, files: Files, listing: seq<string>, n: string)
    requires Listing(files, listing) && IsNewest(files, n)
    ensures n !in Targets(g, files, listing)
  {
    var t, newest := Targets(g, files, listing), NewestFirst(files, listing);
    OthersComeLater(files, listing, n);
    forall k | 0 <= k < |t| ensures t[k] != n {
      assert t[k] == newest[Keep(g) + k];
    }
  }

  lemma NextKeepsInv(g: Setup, s: State, step: Step)
    requires Inv(g, s) && Possible(g, s, step)
    ensures Inv(g, Next(g, s, step))
  {
    match step
    case Begins(n, checksum, size) =>
    case Downloads(bytes) =>
    case Uploads(written) => UploadsKeeps(g, s, written);
    case Does => DoesKeeps(g, s);
    case Removes(ok, effect) => RemovesKeeps(g, s, ok, effect);
    case Lists(listing) => TargetsAreOld(g, s.files, listing, s.job.value.name);
    case Fails(effect) =>
      DoesKeepsLatest(g, s);
    case Tears => TearsKeeps(g, s);
    case Dies =>
    case Ends =>
  }

  const EMPTY := State(map[], {}, None, {}, 0)

  ghost predicate Succeeds(g: Setup, s: State, s': State) {
    exists step :: Possible(g, s, step) && s' == Next(g, s, step)
  }

  ghost predicate Run(g: Setup, run: seq<State>) {
    run != [] && run[0] == EMPTY && forall k :: 0 <= k < |run| - 1 ==> Succeeds(g, run[k], run[k + 1])
  }

  lemma RunKeepsInv(g: Setup, run: seq<State>, k: nat)
    requires Run(g, run) && k < |run|
    ensures Inv(g, run[k])
  {
    forall s, s' | Inv(g, s) && Succeeds(g, s, s') ensures Inv(g, s') {
      var step :| Possible(g, s, step) && s' == Next(g, s, step);
      NextKeepsInv(g, s, step);
    }
    Runs.Along(run, (s, s') => Succeeds(g, s, s'), s => Inv(g, s), 0, k);
  }

  /**
   At every point of every sequence of runs, whatever was cut short or failed, `latest.json`, if it is there, names a
   snapshot that is there, has the recorded digest, and has the sidecar that says so.
   */
  lemma PointerIsAlwaysGood(g: Setup, run: seq<State>, k: nat)
    requires Run(g, run) && k < |run| && Latest in run[k].files
    ensures run[k].files[Latest].content.Doc? && PointerOk(g, run[k].files, run[k].files[Latest].content.pointer)
  {
    RunKeepsInv(g, run, k);
  }

  /** Once there is a `latest.json`, there always is one. */
  lemma PointerStays(g: Setup, run: seq<State>, i: nat, j: nat)
    requires Run(g, run) && i <= j < |run| && Latest in run[i].files
    ensures Latest in run[j].files
  {
    forall s: State, s' | Latest in s.files && Succeeds(g, s, s') ensures Latest in s'.files {
      var step :| Possible(g, s, step) && s' == Next(g, s, step);
    }
    Runs.Along(run, (s, s') => Succeeds(g, s, s'), (s: State) => Latest in s.files, i, j);
  }

  /** Qdrant's own snapshot is deleted only while `latest.json` names a stored copy of it with its announced checksum. */
  lemma DeletedOnlyOncePublished(g: Setup, run: seq<State>, k: nat, step: Step, n: string)
    requires Run(g, run) && k < |run| && Possible(g, run[k], step)
    requires n in run[k].local && n !in Next(g, run[k], step).local
    ensures PointsTo(run[k].files, n) && PointerOk(g, run[k].files, run[k].files[Latest].content.pointer)
  {
    RunKeepsInv(g, run, k);
    var s := run[k];
    assert s.job.Some? && s.job.value.stage.Published? && s.job.value.name == n;
  }

  /** No step takes away the snapshot or the sidecar that `latest.json` names. */
  lemma PointedIsNeverRemoved(g: Setup, run: seq<State>, k: nat, step: Step, n: string)
    requires Run(g, run) && k < |run| && Possible(g, run[k], step) && PointsTo(run[k].files, n)
    ensures Snap(n) in Next(g, run[k], step).files && Side(n) in Next(g, run[k], step).files
  {
    RunKeepsInv(g, run, k);
    var s := run[k];
    assert s.files[Latest].content.pointer.snapshot == n;
    assert Snap(n) in s.files && Side(n) in s.files;
  }
}
