/**
 Archives of a collection (memorybridge/snapshot.py): `create_archive`, `_prune`, `latest_manifest`,
 `verify_manifest` and `restore_latest` as a machine of single file operations.  Any number of archive runs may be
 under way, and each may stop between any two operations or in the middle of writing a temporary file.  The folder has
 a live view and the view on disk; what a power loss does to them is the subject of `ArchivePower`.
 */
module Archive {
  import opened Basics
  import opened Sorting
  import opened Json
  import opened Scan
  import opened Export
  import Fingerprint
  import Runs

  /** The files of one snapshot, by its name. */
  datatype FileName =
    | Snapshot(name: string)
    | SnapshotTmp(name: string)
    | JsonLines(name: string)
    | JsonLinesTmp(name: string)
    | Manifest(name: string)
    | ManifestTmp(name: string)

  datatype Record = Record(snapshotSha: string, linesSha: string, fingerprint: Fingerprint.Print)

  /** An image is what Qdrant packs a collection into; scrap is a file cut short. */
  datatype Content = Image(points: seq<Point>) | Text(text: string) | Doc(record: Record) | Scrap

  datatype File = File(content: Content, mtime: int, flushed: bool)

  type Files = map<FileName, File>

  /** The directory as it reads now, and as it was when last synced; a file is flushed in both or in neither. */
  datatype Folder = Folder(live: Files, disk: Files)

  /** Each rename is followed by an fsync of the directory, and of the file where that was not flushed before. */
  datatype Stage =
    | Downloading
    | Downloaded
    | SnapshotPlaced
    | Restorable
    | LinesWritten
    | LinesPlaced
    | Exported
    | ManifestWritten
    | ManifestPlaced
    | Published
    | Pruning(targets: seq<string>, part: nat)

  /** A run of `create_archive`: the snapshot it made and how far it has come. */
  datatype Job = Job(name: string, points: seq<Point>, stage: Stage)

  /** `instants` is history: what each snapshot was taken of; `condemned` what some run decided to prune. */
  datatype State = State(folder: Folder, collection: seq<Point>, jobs: map<nat, Job>, instants: map<string, seq<Point>>,
                         condemned: set<string>, now: int)

  datatype Setup = Setup(sha: Content -> string, digest: Digest, retention: int)

  function Keep(g: Setup): nat {
    Max(1, g.retention)
  }

  datatype Step =
    | Changes(points: seq<Point>)
    | Begins(job: nat, name: string)
    | Continues(job: nat)
    | Lists(job: nat, listing: seq<string>)
    | Tears(job: nat)
    | Skips(job: nat)
    | Dies(job: nat)
    | PowerLoss(kept: set<FileName>)

  // ---- reading the folder --------------------------------------------------------------------------

  /** What `glob("*.manifest.json")` returns, in any order. */
  ghost predicate Listing(files: Files, listing: seq<string>) {
    Distinct(listing) && forall n :: n in listing <==> Manifest(n) in files
  }

  function MtimeOf(files: Files, n: string): int {
    if Manifest(n) in files then files[Manifest(n)].mtime else 0
  }

  function NewestFirst(files: Files, listing: seq<string>): seq<string> {
    Sort(listing, (a, b) => MtimeOf(files, a) >= MtimeOf(files, b))
  }

  /** `verify_manifest`: both digests, and the fingerprint of the re-read export. */
  predicate Verifies(g: Setup, files: Files, n: string) {
    && Manifest(n) in files && files[Manifest(n)].content.Doc?
    && var r := files[Manifest(n)].content.record;
       && Snapshot(n) in files && g.sha(files[Snapshot(n)].content) == r.snapshotSha
       && JsonLines(n) in files && g.sha(files[JsonLines(n)].content) == r.linesSha
       && files[JsonLines(n)].content.Text?
       && match LineValues(FileLines(files[JsonLines(n)].content.text), g.digest)
          case Some(values) => Fingerprint.Of(values) == r.fingerprint
          case None => false
  }

  datatype Restored = Restored(points: seq<Point>) | NoArchive | NotVerified | Exists | Mismatch

  /** `restore_latest`: what the collection holds afterwards, or why nothing usable came of it. */
  function RestoreLatest(g: Setup, files: Files, listing: seq<string>, present: bool, force: bool): Restored {
    if listing == [] then NoArchive
    else
      var n := NewestFirst(files, listing)[0];
      if !Verifies(g, files, n) then NotVerified
      else if present && !force then Exists
      else if !files[Snapshot(n)].content.Image? then NotVerified
      else
        var points := files[Snapshot(n)].content.points;
        if PrintOf(points, g.digest) == files[Manifest(n)].content.record.fingerprint then Restored(points) else Mismatch
  }

  // ---- steps ---------------------------------------------------------------------------------------

  predicate UsablePoints(points: seq<Point>) {
    forall k :: 0 <= k < |points| ==> WellFormed(points[k].payload)
  }

  ghost predicate Possible(s: State, step: Step) {
    match step
    case Changes(points) => UsablePoints(points)
    case Begins(j, n) => j !in s.jobs && n !in s.instants
    case Continues(j) => j in s.jobs && Ready(s.folder.live, s.jobs[j])
    case Lists(j, listing) => j in s.jobs && s.jobs[j].stage.Published? && Listing(s.folder.live, listing)
    case Tears(j) => j in s.jobs
    case Skips(j) => j in s.jobs && s.jobs[j].stage.Pruning? && s.jobs[j].stage.targets != []
    case Dies(j) => j in s.jobs
    case PowerLoss(_) => true
  }

  /** The files the next operation needs are there; a run that misses one raises, which is `Dies`. */
  predicate Ready(files: Files, job: Job) {
    var n := job.name;
    match job.stage
    case Downloaded => SnapshotTmp(n) in files
    case Restorable => Snapshot(n) in files && files[Snapshot(n)].content.Image?
    case LinesWritten => JsonLinesTmp(n) in files
    case Exported => Snapshot(n) in files && JsonLines(n) in files && files[Snapshot(n)].content.Image?
    case ManifestWritten => ManifestTmp(n) in files
    case Published => false
    case Pruning(targets, _) => targets != []
    case _ => true
  }

  function Write(d: Folder, name: FileName, content: Content, now: int, flushed: bool): Folder {
    d.(live := d.live[name := File(content, now, flushed)])
  }

  /** `os.replace`: the file keeps its mtime under the new name. */
  function Replace(d: Folder, from: FileName, to: FileName): Folder
    requires from in d.live
  {
    d.(live := d.live[to := d.live[from]] - {from})
  }

  function Flush(d: Folder, name: FileName): Folder {
    if name in d.live then d.(live := d.live[name := d.live[name].(flushed := true)]) else d
  }

  function Sync(d: Folder): Folder {
    d.(disk := d.live)
  }

  function Unlink(d: Folder, name: FileName): Folder {
    d.(live := d.live - {name})
  }

  function PartOf(n: string, part: nat): FileName {
    if part == 0 then Snapshot(n) else if part == 1 then JsonLines(n) else Manifest(n)
  }

  function RecordIn(g: Setup, files: Files, n: string): Record
    requires Ready(files, Job(n, [], Exported))
  {
    Record(g.sha(files[Snapshot(n)].content), g.sha(files[JsonLines(n)].content),
           PrintOf(files[Snapshot(n)].content.points, g.digest))
  }

  function FolderAfter(g: Setup, d: Folder, job: Job, now: int): Folder
    requires Ready(d.live, job)
  {
    var n := job.name;
    match job.stage
    case Downloading => Write(d, SnapshotTmp(n), Image(job.points), now, true)
    case Downloaded => Replace(d, SnapshotTmp(n), Snapshot(n))
    case SnapshotPlaced => Sync(Flush(d, Snapshot(n)))
    case Restorable => Write(d, JsonLinesTmp(n), Text(Lines(d.live[Snapshot(n)].content.points)), now, false)
    case LinesWritten => Replace(d, JsonLinesTmp(n), JsonLines(n))
    case LinesPlaced => Sync(Flush(d, JsonLines(n)))
    case Exported => Write(d, ManifestTmp(n), Doc(RecordIn(g, d.live, n)), now, true)
    case ManifestWritten => Replace(d, ManifestTmp(n), Manifest(n))
    case ManifestPlaced => Sync(d)
    case Published => d
    case Pruning(targets, part) => if part < 3 then Unlink(d, PartOf(targets[0], part)) else Sync(d)
  }

  function StageAfter(stage: Stage): Stage
    requires stage.Pruning? ==> stage.targets != []
  {
    match stage
    case Downloading => Downloaded
    case Downloaded => SnapshotPlaced
    case SnapshotPlaced => Restorable
    case Restorable => LinesWritten
    case LinesWritten => LinesPlaced
    case LinesPlaced => Exported
    case Exported => ManifestWritten
    case ManifestWritten => ManifestPlaced
    case ManifestPlaced => Published
    case Published => Published
    case Pruning(targets, part) => if part < 3 then Pruning(targets, part + 1) else Pruning(targets[1..], 0)
  }

  function TmpOf(job: Job): FileName {
    match job.stage
    case Restorable => JsonLinesTmp(job.name)
    case Exported => ManifestTmp(job.name)
    case _ => SnapshotTmp(job.name)
  }

  /** The stages that write a temporary file. */
  predicate Writing(stage: Stage) {
    stage.Downloading? || stage.Restorable? || stage.Exported?
  }

  function Targets(g: Setup, files: Files, listing: seq<string>): seq<string> {
    var newest := NewestFirst(files, listing);
    if |newest| <= Keep(g) then [] else newest[Keep(g)..]
  }

  /** After a power loss the names in `kept` are as they were live, all others as they were on disk. */
  function AfterPowerLoss(d: Folder, kept: set<FileName>): Folder {
    var left := map f | f in d.live.Keys + d.disk.Keys && (if f in kept then f in d.live else f in d.disk) ::
                  Settle(if f in kept then d.live[f] else d.disk[f]);
    Folder(left, left)
  }

  function Settle(file: File): File {
    if file.flushed then file else File(Scrap, file.mtime, true)
  }

  ghost function Next(g: Setup, s: State, step: Step): State
    requires Possible(s, step)
  {
    match step
    case Changes(points) => s.(collection := points)
    case Begins(j, n) =>
      s.(jobs := s.jobs[j := Job(n, s.collection, Downloading)], instants := s.instants[n := s.collection])
    case Continues(j) =>
      var job := s.jobs[j];
      s.(folder := FolderAfter(g, s.folder, job, s.now), jobs := s.jobs[j := job.(stage := StageAfter(job.stage))],
         now := s.now + 1)
    case Lists(j, listing) =>
      var targets := Targets(g, s.folder.live, listing);
      s.(jobs := s.jobs[j := s.jobs[j].(stage := Pruning(targets, 0))],
         condemned := s.condemned + set n | n in targets)
    case Tears(j) =>
      var job := s.jobs[j];
      s.(folder := if Writing(job.stage) then Write(s.folder, TmpOf(job), Scrap, s.now, false) else s.folder,
         jobs := s.jobs - {j}, now := s.now + 1)
    case Skips(j) =>
      s.(jobs := s.jobs[j := s.jobs[j].(stage := Pruning(s.jobs[j].stage.targets[1..], 0))])
    case Dies(j) => s.(jobs := s.jobs - {j})
    case PowerLoss(kept) => s.(folder := AfterPowerLoss(s.folder, kept), jobs := map[])
  }

  // ---- what every step keeps -----------------------------------------------------------------------

  function At(files: Files, f: FileName): Option<File> {
    if f in files then Some(files[f]) else None
  }

  predicate Holds(files: Files, f: FileName, content: Content) {
    At(files, f).Some? && At(files, f).value.content == content
  }

  predicate Placed(d: Folder, f: FileName, content: Content) {
    Holds(d.live, f, content) && At(d.live, f).value.flushed
  }

  /** Out of the reach of a power loss. */
  predicate Durable(d: Folder, f: FileName, content: Content) {
    Placed(d, f, content) && At(d.disk, f) == At(d.live, f)
  }

  function RecordOf(g: Setup, points: seq<Point>): Record {
    Record(g.sha(Image(points)), g.sha(Text(Lines(points))), PrintOf(points, g.digest))
  }

  predicate Complete(g: Setup, d: Folder, n: string, points: seq<Point>) {
    && Durable(d, Snapshot(n), Image(points))
    && Durable(d, JsonLines(n), Text(Lines(points)))
    && Placed(d, Manifest(n), Doc(RecordOf(g, points)))
  }

  /** A run finds the files it wrote, as it wrote them, and what it has synced is durable. */
  predicate StageOk(g: Setup, d: Folder, job: Job) {
    var (n, image, lines) := (job.name, Image(job.points), Text(Lines(job.points)));
    match job.stage
    case Downloaded => Placed(d, SnapshotTmp(n), image)
    case SnapshotPlaced => Placed(d, Snapshot(n), image)
    case Restorable => Durable(d, Snapshot(n), image)
    case LinesWritten => Durable(d, Snapshot(n), image) && Holds(d.live, JsonLinesTmp(n), lines)
    case LinesPlaced => Durable(d, Snapshot(n), image) && Holds(d.live, JsonLines(n), lines)
    case Exported => Durable(d, Snapshot(n), image) && Durable(d, JsonLines(n), lines)
    case ManifestWritten =>
      && Durable(d, Snapshot(n), image) && Durable(d, JsonLines(n), lines)
      && Placed(d, ManifestTmp(n), Doc(RecordOf(g, job.points)))
    case _ => true
  }

  predicate Unpublished(stage: Stage) {
    !stage.ManifestPlaced? && !stage.Published? && !stage.Pruning?
  }

  predicate NoManifest(d: Folder, n: string) {
    At(d.live, Manifest(n)).None? && At(d.disk, Manifest(n)).None?
  }

  predicate JobOk(g: Setup, d: Folder, instants: map<string, seq<Point>>, condemned: set<string>, job: Job) {
    && job.name in instants && instants[job.name] == job.points
    && StageOk(g, d, job)
    && (Unpublished(job.stage) ==> job.name !in condemned && NoManifest(d, job.name))
    && (job.stage.Pruning? ==> forall k :: 0 <= k < |job.stage.targets| ==> job.stage.targets[k] in condemned)
  }

  ghost predicate JobsOk(g: Setup, s: State) {
    && (forall j :: j in s.jobs ==> JobOk(g, s.folder, s.instants, s.condemned, s.jobs[j]))
    && forall i, j :: i in s.jobs && j in s.jobs && s.jobs[i].name == s.jobs[j].name ==> i == j
  }

  ghost predicate NamesOk(d: Folder, instants: map<string, seq<Point>>, condemned: set<string>) {
    && (forall f :: At(d.live, f).Some? || At(d.disk, f).Some? ==> f.name in instants)
    && forall n :: n in condemned ==> n in instants
  }

  /** What was not condemned to pruning is complete, and the two views of a manifest agree. */
  predicate ArchiveOk(g: Setup, d: Folder, instants: map<string, seq<Point>>, condemned: set<string>, n: string) {
    && (At(d.live, Manifest(n)).Some? && At(d.disk, Manifest(n)).Some? ==> At(d.live, Manifest(n)) == At(d.disk, Manifest(n)))
    && (n !in condemned ==>
          && (At(d.disk, Manifest(n)).Some? ==> At(d.live, Manifest(n)).Some?)
          && (At(d.live, Manifest(n)).Some? ==> n in instants && Complete(g, d, n, instants[n])))
  }

  ghost predicate FolderOk(g: Setup, d: Folder, instants: map<string, seq<Point>>, condemned: set<string>) {
    NamesOk(d, instants, condemned) && forall n :: ArchiveOk(g, d, instants, condemned, n)
  }

  ghost predicate IsNewest(files: Files, n: string) {
    Manifest(n) in files && forall m :: Manifest(m) in files ==> files[Manifest(m)].mtime <= files[Manifest(n)].mtime
  }

  ghost predicate NewestOk(s: State) {
    forall n :: IsNewest(s.folder.live, n) ==> n !in s.condemned
  }

  predicate Has(d: Folder, f: FileName, t: int) {
    (f in d.live && d.live[f].mtime == t) || (f in d.disk && d.disk[f].mtime == t)
  }

  /** Every write has its own time, which its file keeps under each of its names. */
  ghost predicate TimesOk(d: Folder, now: int) {
    && (forall f, t :: Has(d, f, t) ==> t < now)
    && forall f, f', t :: Has(d, f, t) && Has(d, f', t) ==> f.name == f'.name
  }

  ghost predicate ImagesOk(s: State) {
    UsablePoints(s.collection) && forall n :: n in s.instants ==> UsablePoints(s.instants[n])
  }

  ghost predicate Inv(g: Setup, s: State) {
    JobsOk(g, s) && FolderOk(g, s.folder, s.instants, s.condemned) && NewestOk(s) && TimesOk(s.folder, s.now) && ImagesOk(s)
  }

  /** Another run's files are not touched, though they may be synced. */
  ghost predicate OnlyTouches(d: Folder, d': Folder, n: string) {
    forall f: FileName :: f.name != n ==>
      At(d'.live, f) == At(d.live, f) && (At(d'.disk, f) == At(d.disk, f) || At(d'.disk, f) == At(d.live, f))
  }

  /** A file of another name is where it was, and if it was durable it still is. */
  ghost predicate SameFile(d: Folder, d': Folder, f: FileName) {
    && At(d'.live, f) == At(d.live, f)
    && (At(d'.disk, f) == At(d.disk, f) || At(d'.disk, f) == At(d.live, f))
  }

  lemma FilesOf(d: Folder, d': Folder, n: string, m: string)
    requires OnlyTouches(d, d', n) && m != n
    ensures SameFile(d, d', Snapshot(m)) && SameFile(d, d', SnapshotTmp(m)) && SameFile(d, d', JsonLines(m))
    ensures SameFile(d, d', JsonLinesTmp(m)) && SameFile(d, d', Manifest(m)) && SameFile(d, d', ManifestTmp(m))
  {
    assert Snapshot(m).name == m && SnapshotTmp(m).name == m && JsonLines(m).name == m && JsonLinesTmp(m).name == m;
    assert Manifest(m).name == m && ManifestTmp(m).name == m;
  }

  lemma OthersStay(g: Setup, d: Folder, d': Folder, instants: map<string, seq<Point>>, condemned: set<string>,
                   n: string, job: Job)
    requires OnlyTouches(d, d', n) && job.name != n && JobOk(g, d, instants, condemned, job)
    ensures JobOk(g, d', instants, condemned, job)
  {
    FilesOf(d, d', n, job.name);
  }

  lemma OwnStageOk(g: Setup, d: Folder, job: Job, now: int)
    requires Ready(d.live, job) && StageOk(g, d, job) && Unpublished(job.stage)
    ensures StageOk(g, FolderAfter(g, d, job, now), job.(stage := StageAfter(job.stage)))
    ensures job.stage.ManifestWritten? ==> Complete(g, FolderAfter(g, d, job, now), job.name, job.points)
  {
  }

  lemma OwnFilesOnly(g: Setup, d: Folder, job: Job, now: int)
    requires Ready(d.live, job) && !job.stage.Pruning?
    ensures OnlyTouches(d, FolderAfter(g, d, job, now), job.name)
  {
  }

  lemma OwnManifest(g: Setup, d: Folder, job: Job, now: int)
    requires Ready(d.live, job) && Unpublished(job.stage) && NoManifest(d, job.name)
    ensures var d' := FolderAfter(g, d, job, now);
            if job.stage.ManifestWritten? then At(d'.live, Manifest(job.name)).Some? && At(d'.disk, Manifest(job.name)).None?
            else NoManifest(d', job.name)
  {
  }

  // Times.

  /** Each time there is was there before, for a file of the same name, or is the time of a write just made. */
  ghost predicate TimesStay(d: Folder, d': Folder, n: string, now: int) {
    forall f, t :: Has(d', f, t) ==> (f.name == n && t == now) || HadBefore(d, f.name, t)
  }

  ghost predicate HadBefore(d: Folder, name: string, t: int) {
    exists f: FileName :: f.name == name && Has(d, f, t)
  }

  lemma TimesStayOk(d: Folder, d': Folder, n: string, now: int)
    requires TimesOk(d, now) && TimesStay(d, d', n, now)
    ensures TimesOk(d', now + 1)
  {
    forall f, f', t | Has(d', f, t) && Has(d', f', t) ensures f.name == f'.name {
      assert t == now || (HadBefore(d, f.name, t) && HadBefore(d, f'.name, t));
    }
  }

  lemma WriteKeepsTimes(d: Folder, f: FileName, content: Content, now: int, flushed: bool)
    ensures TimesStay(d, Write(d, f, content, now, flushed), f.name, now)
  {
    var d' := Write(d, f, content, now, flushed);
    forall x, t | Has(d', x, t) ensures (x.name == f.name && t == now) || HadBefore(d, x.name, t) {
      assert Has(d, x, t) || (x == f && t == now);
    }
  }

  lemma ReplaceKeepsTimes(d: Folder, from: FileName, to: FileName, now: int)
    requires from in d.live && from.name == to.name
    ensures TimesStay(d, Replace(d, from, to), from.name, now)
  {
    var d' := Replace(d, from, to);
    forall x, t | Has(d', x, t) ensures (x.name == from.name && t == now) || HadBefore(d, x.name, t) {
      assert Has(d, x, t) || (x == to && Has(d, from, t));
    }
  }

  lemma ShrinkKeepsTimes(d: Folder, d': Folder, n: string, now: int)
    requires forall f, t :: Has(d', f, t) ==> Has(d, f, t)
    ensures TimesStay(d, d', n, now)
  {
    forall x, t | Has(d', x, t) ensures (x.name == n && t == now) || HadBefore(d, x.name, t) {
      assert Has(d, x, t);
    }
  }

  lemma FolderAfterKeepsTimes(g: Setup, d: Folder, job: Job, now: int)
    requires TimesOk(d, now) && Ready(d.live, job)
    ensures TimesOk(FolderAfter(g, d, job, now), now + 1)
  {
    var (n, d') := (job.name, FolderAfter(g, d, job, now));
    match job.stage
    case Downloading => WriteKeepsTimes(d, SnapshotTmp(n), Image(job.points), now, true);
    case Downloaded => ReplaceKeepsTimes(d, SnapshotTmp(n), Snapshot(n), now);
    case Restorable => WriteKeepsTimes(d, JsonLinesTmp(n), d'.live[JsonLinesTmp(n)].content, now, false);
    case LinesWritten => ReplaceKeepsTimes(d, JsonLinesTmp(n), JsonLines(n), now);
    case Exported => WriteKeepsTimes(d, ManifestTmp(n), d'.live[ManifestTmp(n)].content, now, true);
    case ManifestWritten => ReplaceKeepsTimes(d, ManifestTmp(n), Manifest(n), now);
    case _ => ShrinkKeepsTimes(d, d', n, now);
    TimesStayOk(d, d', n, now);
  }

  // The step of a run before its manifest is in place.

  lemma PublishKeepsNewest(s: State, d': Folder, n: string)
    requires NewestOk(s) && OnlyTouches(s.folder, d', n) && n !in s.condemned && NoManifest(s.folder, n)
    ensures NewestOk(s.(folder := d'))
  {
    forall m | IsNewest(d'.live, m) ensures m !in s.condemned {
      if m != n {
        forall k | Manifest(k) in s.folder.live
          ensures Manifest(m) in s.folder.live && s.folder.live[Manifest(k)].mtime <= s.folder.live[Manifest(m)].mtime
        {
          FilesOf(s.folder, d', n, k);
          FilesOf(s.folder, d', n, m);
        }
        FilesOf(s.folder, d', n, m);
        assert IsNewest(s.folder.live, m);
      }
    }
  }

  lemma TouchKeepsFolder(g: Setup, s: State, d': Folder, n: string)
    requires FolderOk(g, s.folder, s.instants, s.condemned) && OnlyTouches(s.folder, d', n)
    requires n in s.instants && ArchiveOk(g, d', s.instants, s.condemned, n)
    ensures FolderOk(g, d', s.instants, s.condemned)
  {
    forall f | At(d'.live, f).Some? || At(d'.disk, f).Some? ensures f.name in s.instants {
      assert f.name != n ==> At(s.folder.live, f).Some? || At(s.folder.disk, f).Some?;
    }
    forall m ensures ArchiveOk(g, d', s.instants, s.condemned, m) {
      if m != n {
        FilesOf(s.folder, d', n, m);
        assert ArchiveOk(g, s.folder, s.instants, s.condemned, m);
      }
    }
  }

  lemma TouchKeepsJobs(g: Setup, s: State, d': Folder, j: nat, job': Job)
    requires JobsOk(g, s) && j in s.jobs && OnlyTouches(s.folder, d', s.jobs[j].name)
    requires job'.name == s.jobs[j].name && JobOk(g, d', s.instants, s.condemned, job')
    ensures JobsOk(g, s.(folder := d', jobs := s.jobs[j := job']))
  {
    forall i | i in s.jobs && i != j ensures JobOk(g, d', s.instants, s.condemned, s.jobs[i]) {
      OthersStay(g, s.folder, d', s.instants, s.condemned, s.jobs[j].name, s.jobs[i]);
    }
  }

  lemma OwnStepKeeps(g: Setup, s: State, j: nat)
    requires Inv(g, s) && Possible(s, Continues(j)) && Unpublished(s.jobs[j].stage)
    ensures Inv(g, Next(g, s, Continues(j)))
  {
    var job := s.jobs[j];
    var d' := FolderAfter(g, s.folder, job, s.now);
    assert JobOk(g, s.folder, s.instants, s.condemned, job);
    OwnStageOk(g, s.folder, job, s.now);
    OwnFilesOnly(g, s.folder, job, s.now);
    OwnManifest(g, s.folder, job, s.now);
    FolderAfterKeepsTimes(g, s.folder, job, s.now);
    assert ArchiveOk(g, d', s.instants, s.condemned, job.name);
    TouchKeepsFolder(g, s, d', job.name);
    TouchKeepsJobs(g, s, d', j, job.(stage := StageAfter(job.stage)));
    PublishKeepsNewest(s, d', job.name);
  }

  // A directory fsync by itself changes no file.

  lemma SyncKeepsFolder(g: Setup, s: State)
    requires FolderOk(g, s.folder, s.instants, s.condemned)
    ensures FolderOk(g, Sync(s.folder), s.instants, s.condemned)
  {
    forall n ensures ArchiveOk(g, Sync(s.folder), s.instants, s.condemned, n) {
      assert ArchiveOk(g, s.folder, s.instants, s.condemned, n);
    }
  }

  lemma SyncKeepsJobs(g: Setup, s: State)
    requires JobsOk(g, s)
    ensures JobsOk(g, s.(folder := Sync(s.folder)))
  {
    forall i | i in s.jobs ensures JobOk(g, Sync(s.folder), s.instants, s.condemned, s.jobs[i]) {
      assert JobOk(g, s.folder, s.instants, s.condemned, s.jobs[i]);
    }
  }

  lemma SyncStepKeeps(g: Setup, s: State, j: nat)
    requires Inv(g, s) && Possible(s, Continues(j)) && FolderAfter(g, s.folder, s.jobs[j], s.now) == Sync(s.folder)
    requires !Unpublished(s.jobs[j].stage)
    ensures Inv(g, Next(g, s, Continues(j)))
  {
    var s' := Next(g, s, Continues(j));
    SyncKeepsFolder(g, s);
    SyncKeepsJobs(g, s);
    FolderAfterKeepsTimes(g, s.folder, s.jobs[j], s.now);
    forall i | i in s'.jobs ensures JobOk(g, s'.folder, s'.instants, s'.condemned, s'.jobs[i]) {
      assert JobOk(g, Sync(s.folder), s.instants, s.condemned, s.jobs[i]);
    }
  }

  // Pruning removes files of condemned names only.

  lemma RemovalTouches(d: Folder, f: FileName)
    ensures OnlyTouches(d, Unlink(d, f), f.name)
  {
  }

  lemma RemovalKeepsFolder(g: Setup, s: State, f: FileName)
    requires FolderOk(g, s.folder, s.instants, s.condemned) && f.name in s.condemned
    ensures FolderOk(g, Unlink(s.folder, f), s.instants, s.condemned)
  {
    RemovalTouches(s.folder, f);
    assert ArchiveOk(g, s.folder, s.instants, s.condemned, f.name);
    TouchKeepsFolder(g, s, Unlink(s.folder, f), f.name);
  }

  lemma RemovalKeepsJob(g: Setup, s: State, f: FileName, job: Job)
    requires f.name in s.condemned && JobOk(g, s.folder, s.instants, s.condemned, job)
    ensures JobOk(g, Unlink(s.folder, f), s.instants, s.condemned, job)
  {
    if job.name != f.name {
      RemovalTouches(s.folder, f);
      OthersStay(g, s.folder, Unlink(s.folder, f), s.instants, s.condemned, f.name, job);
    }
  }

  lemma NewestBeforeRemoval(files: Files, f: FileName, n: string)
    requires IsNewest(files - {f}, n)
    ensures IsNewest(files, n) || (f in files && f == Manifest(f.name) && IsNewest(files, f.name))
  {
    if f in files && f.Manifest? {
      assert f == Manifest(f.name);
      assert forall m :: Manifest(m) in files ==> m == f.name || Manifest(m) in files - {f};
    } else {
      assert forall m :: Manifest(m) in files ==> Manifest(m) in files - {f};
    }
  }

  lemma RemovalKeepsNewest(s: State, f: FileName)
    requires NewestOk(s) && f.name in s.condemned
    ensures NewestOk(s.(folder := Unlink(s.folder, f)))
  {
    forall n | IsNewest(s.folder.live - {f}, n) ensures n !in s.condemned {
      NewestBeforeRemoval(s.folder.live, f, n);
    }
  }

  lemma PruneStepKeeps(g: Setup, s: State, j: nat)
    requires Inv(g, s) && Possible(s, Continues(j)) && s.jobs[j].stage.Pruning? && s.jobs[j].stage.part < 3
    ensures Inv(g, Next(g, s, Continues(j)))
  {
    var job := s.jobs[j];
    var f := PartOf(job.stage.targets[0], job.stage.part);
    var s' := Next(g, s, Continues(j));
    assert JobOk(g, s.folder, s.instants, s.condemned, job);
    assert f.name == job.stage.targets[0] && f.name in s.condemned;
    assert s'.folder == Unlink(s.folder, f);
    RemovalKeepsFolder(g, s, f);
    RemovalKeepsNewest(s, f);
    FolderAfterKeepsTimes(g, s.folder, job, s.now);
    forall i | i in s'.jobs ensures JobOk(g, s'.folder, s'.instants, s'.condemned, s'.jobs[i]) {
      RemovalKeepsJob(g, s, f, s.jobs[i]);
    }
  }

  // Listing condemns all but the newest.

  lemma NewestFirstFacts(files: Files, listing: seq<string>)
    requires Listing(files, listing)
    requires TimesDiffer(files)
    ensures var newest := NewestFirst(files, listing);
            && |newest| == |listing| && Distinct(newest) && (forall n :: n in newest <==> Manifest(n) in files)
            && forall i, j :: 0 <= i < j < |newest| ==> files[Manifest(newest[i])].mtime > files[Manifest(newest[j])].mtime
  {
    var leq := (a, b) => MtimeOf(files, a) >= MtimeOf(files, b);
    assert TotalPreorder(leq);
    SortFacts(listing, leq);
    var newest := NewestFirst(files, listing);
    forall i, j | 0 <= i < j < |newest| ensures files[Manifest(newest[i])].mtime > files[Manifest(newest[j])].mtime {
      assert leq(newest[i], newest[j]) && newest[i] != newest[j] && newest[i] in newest && newest[j] in newest;
    }
  }

  lemma ManifestTimesDiffer(d: Folder, now: int)
    requires TimesOk(d, now)
    ensures TimesDiffer(d.live)
  {
    forall n, m | Manifest(n) in d.live && Manifest(m) in d.live && d.live[Manifest(n)].mtime == d.live[Manifest(m)].mtime
      ensures n == m
    {
      assert Has(d, Manifest(n), d.live[Manifest(n)].mtime) && Has(d, Manifest(m), d.live[Manifest(n)].mtime);
    }
  }

  lemma FirstIsNewer(files: Files, newest: seq<string>, i: nat)
    requires 0 < i < |newest| && forall n :: n in newest ==> Manifest(n) in files
    requires forall i, j :: 0 <= i < j < |newest| ==> files[Manifest(newest[i])].mtime > files[Manifest(newest[j])].mtime
    ensures Manifest(newest[i]) in files && !IsNewest(files, newest[i])
  {
    assert newest[0] in newest && newest[i] in newest;
  }

  lemma TargetIndex(g: Setup, files: Files, listing: seq<string>, n: string) returns (i: nat)
    requires n in Targets(g, files, listing)
    ensures var newest := NewestFirst(files, listing); 0 < Keep(g) <= i < |newest| && newest[i] == n
  {
    var t := Targets(g, files, listing);
    var k :| 0 <= k < |t| && t[k] == n;
    i := Keep(g) + k;
  }

  lemma TargetsAreOld(g: Setup, s: State, listing: seq<string>, n: string)
    requires TimesOk(s.folder, s.now) && Listing(s.folder.live, listing) && n in Targets(g, s.folder.live, listing)
    ensures Manifest(n) in s.folder.live && !IsNewest(s.folder.live, n)
  {
    ManifestTimesDiffer(s.folder, s.now);
    NewestFirstFacts(s.folder.live, listing);
    var newest := NewestFirst(s.folder.live, listing);
    var i := TargetIndex(g, s.folder.live, listing, n);
    FirstIsNewer(s.folder.live, newest, i);
  }

  lemma CondemnKeepsFolder(g: Setup, s: State, more: set<string>)
    requires FolderOk(g, s.folder, s.instants, s.condemned) && forall n :: n in more ==> n in s.instants
    ensures FolderOk(g, s.folder, s.instants, s.condemned + more)
  {
    forall n ensures ArchiveOk(g, s.folder, s.instants, s.condemned + more, n) {
      assert ArchiveOk(g, s.folder, s.instants, s.condemned, n);
    }
  }

  lemma ListKeeps(g: Setup, s: State, j: nat, listing: seq<string>)
    requires Inv(g, s) && Possible(s, Lists(j, listing))
    ensures Inv(g, Next(g, s, Lists(j, listing)))
  {
    var s' := Next(g, s, Lists(j, listing));
    var targets := Targets(g, s.folder.live, listing);
    forall n | n in targets
      ensures n in s.instants && At(s.folder.live, Manifest(n)).Some? && !IsNewest(s.folder.live, n)
    {
      TargetsAreOld(g, s, listing, n);
      assert At(s.folder.live, Manifest(n)).Some? && Manifest(n).name == n;
    }
    CondemnKeepsFolder(g, s, set n | n in targets);
    forall i | i in s'.jobs ensures JobOk(g, s'.folder, s'.instants, s'.condemned, s'.jobs[i]) {
      assert JobOk(g, s.folder, s.instants, s.condemned, s.jobs[i]);
    }
  }

  lemma TearKeeps(g: Setup, s: State, j: nat)
    requires Inv(g, s) && Possible(s, Tears(j)) && Writing(s.jobs[j].stage)
    ensures Inv(g, Next(g, s, Tears(j)))
  {
    var job, s' := s.jobs[j], Next(g, s, Tears(j));
    assert JobOk(g, s.folder, s.instants, s.condemned, job);
    assert OnlyTouches(s.folder, s'.folder, job.name);
    WriteKeepsTimes(s.folder, TmpOf(job), Scrap, s.now, false);
    TimesStayOk(s.folder, s'.folder, job.name, s.now);
    assert NoManifest(s'.folder, job.name);
    TouchKeepsFolder(g, s, s'.folder, job.name);
    PublishKeepsNewest(s, s'.folder, job.name);
    forall i | i in s'.jobs ensures JobOk(g, s'.folder, s'.instants, s'.condemned, s'.jobs[i]) {
      OthersStay(g, s.folder, s'.folder, s.instants, s.condemned, job.name, s.jobs[i]);
    }
  }

  lemma BeginKeeps(g: Setup, s: State, j: nat, n: string)
    requires Inv(g, s) && Possible(s, Begins(j, n))
    ensures Inv(g, Next(g, s, Begins(j, n)))
  {
    var s' := Next(g, s, Begins(j, n));
    assert Manifest(n).name == n;
    assert NoManifest(s.folder, n);
    forall i | i in s'.jobs ensures JobOk(g, s'.folder, s'.instants, s'.condemned, s'.jobs[i]) {
      if i != j {
        assert JobOk(g, s.folder, s.instants, s.condemned, s.jobs[i]);
      }
    }
    forall m ensures ArchiveOk(g, s'.folder, s'.instants, s'.condemned, m) {
      assert ArchiveOk(g, s.folder, s.instants, s.condemned, m);
    }
  }

  lemma NextKeepsInv(g: Setup, s: State, step: Step)
    requires Inv(g, s) && Possible(s, step) && !step.PowerLoss?
    ensures Inv(g, Next(g, s, step))
  {
    match step
    case Begins(j, n) => BeginKeeps(g, s, j, n);
    case Continues(j) => ContinueKeeps(g, s, j);
    case Lists(j, listing) => ListKeeps(g, s, j, listing);
    case Tears(j) => if Writing(s.jobs[j].stage) { TearKeeps(g, s, j); } else { LeaveKeeps(g, s, step); }
    case _ => LeaveKeeps(g, s, step);
  }

  lemma ContinueKeeps(g: Setup, s: State, j: nat)
    requires Inv(g, s) && Possible(s, Continues(j))
    ensures Inv(g, Next(g, s, Continues(j)))
  {
    var stage := s.jobs[j].stage;
    if Unpublished(stage) {
      OwnStepKeeps(g, s, j);
    } else if stage.Pruning? && stage.part < 3 {
      PruneStepKeeps(g, s, j);
    } else {
      SyncStepKeeps(g, s, j);
    }
  }

  /** The folder is as it was. */
  lemma LeaveKeeps(g: Setup, s: State, step: Step)
    requires Inv(g, s) && Possible(s, step)
    requires step.Changes? || step.Dies? || step.Skips? || (step.Tears? && !Writing(s.jobs[step.job].stage))
    ensures Inv(g, Next(g, s, step))
  {
    var s' := Next(g, s, step);
    forall i | i in s'.jobs ensures JobOk(g, s'.folder, s'.instants, s'.condemned, s'.jobs[i]) {
      assert JobOk(g, s.folder, s.instants, s.condemned, s.jobs[i]);
    }
    forall m ensures ArchiveOk(g, s'.folder, s'.instants, s'.condemned, m) {
      assert ArchiveOk(g, s.folder, s.instants, s.condemned, m);
    }
  }

  // ---- every reachable folder ----------------------------------------------------------------------

  const EMPTY := State(Folder(map[], map[]), [], map[], map[], {}, 0)

  ghost predicate Succeeds(g: Setup, s: State, s': State) {
    exists step :: Possible(s, step) && !step.PowerLoss? && s' == Next(g, s, step)
  }

  ghost predicate Run(g: Setup, run: seq<State>) {
    run != [] && run[0] == EMPTY && forall k :: 0 <= k < |run| - 1 ==> Succeeds(g, run[k], run[k + 1])
  }

  lemma RunKeepsInv(g: Setup, run: seq<State>, k: nat)
    requires Run(g, run) && k < |run|
    ensures Inv(g, run[k])
  {
    forall s, s' | Inv(g, s) && Succeeds(g, s, s') ensures Inv(g, s') {
      var step :| Possible(s, step) && !step.PowerLoss? && s' == Next(g, s, step);
      NextKeepsInv(g, s, step);
    }
    Runs.Along(run, (s, s') => Succeeds(g, s, s'), s => Inv(g, s), 0, k);
  }

  lemma CompleteVerifies(g: Setup, d: Folder, n: string, points: seq<Point>)
    requires Complete(g, d, n, points) && UsablePoints(points)
    ensures Verifies(g, d.live, n)
  {
    ExportReadsBack(points, g.digest);
  }

  lemma NewestIsComplete(g: Setup, s: State, listing: seq<string>)
    requires Inv(g, s) && Listing(s.folder.live, listing) && listing != []
    ensures var newest := NewestFirst(s.folder.live, listing);
            newest != [] && newest[0] in s.instants && Complete(g, s.folder, newest[0], s.instants[newest[0]])
            && UsablePoints(s.instants[newest[0]])
  {
    ManifestTimesDiffer(s.folder, s.now);
    NewestFirstFacts(s.folder.live, listing);
    var newest := NewestFirst(s.folder.live, listing);
    assert newest[0] in newest;
    forall m | Manifest(m) in s.folder.live
      ensures s.folder.live[Manifest(m)].mtime <= s.folder.live[Manifest(newest[0])].mtime
    {
      var i :| 0 <= i < |newest| && newest[i] == m;
    }
    assert IsNewest(s.folder.live, newest[0]);
    assert ArchiveOk(g, s.folder, s.instants, s.condemned, newest[0]);
  }

  /** The manifest that `latest_manifest` picks verifies, and a forced restore yields what its snapshot was taken of. */
  ghost predicate LatestIsGood(g: Setup, s: State) {
    forall listing, present :: Listing(s.folder.live, listing) && listing != [] ==> Restores(g, s, listing, present)
  }

  predicate Restores(g: Setup, s: State, listing: seq<string>, present: bool) {
    var newest := NewestFirst(s.folder.live, listing);
    && newest != [] && Verifies(g, s.folder.live, newest[0]) && newest[0] in s.instants
    && RestoreLatest(g, s.folder.live, listing, present, true) == Restored(s.instants[newest[0]])
  }

  lemma InvIsGood(g: Setup, s: State)
    requires Inv(g, s)
    ensures LatestIsGood(g, s)
  {
    forall listing, present: bool | Listing(s.folder.live, listing) && listing != []
      ensures Restores(g, s, listing, present)
    {
      NewestIsComplete(g, s, listing);
      var n := NewestFirst(s.folder.live, listing)[0];
      CompleteVerifies(g, s.folder, n, s.instants[n]);
    }
  }

  /**
   In every reachable folder, with any runs cut short anywhere, the manifest that `latest_manifest` picks verifies,
   and a forced restore yields exactly what its snapshot was taken of, without ever reporting a mismatch.
   */
  lemma LatestRestores(g: Setup, run: seq<State>, k: nat, listing: seq<string>, present: bool)
    requires Run(g, run) && k < |run| && Listing(run[k].folder.live, listing) && listing != []
    ensures var (files, newest) := (run[k].folder.live, NewestFirst(run[k].folder.live, listing));
            && newest != [] && Verifies(g, files, newest[0]) && newest[0] in run[k].instants
            && RestoreLatest(g, files, listing, present, true) == Restored(run[k].instants[newest[0]])
  {
    RunKeepsInv(g, run, k);
    InvIsGood(g, run[k]);
    assert Restores(g, run[k], listing, present);
  }

  /**
   A restore never replaces a collection unasked, and reports success only for points that have the fingerprint which
   the newest manifest records.
   */
  lemma RestoreIsCautious(g: Setup, files: Files, listing: seq<string>, present: bool, force: bool)
    requires Listing(files, listing) && RestoreLatest(g, files, listing, present, force).Restored?
    ensures present ==> force
    ensures listing != [] && NewestFirst(files, listing) != []
            && var (n, points) := (NewestFirst(files, listing)[0], RestoreLatest(g, files, listing, present, force).points);
               && Manifest(n) in files && files[Manifest(n)].content.Doc?
               && Snapshot(n) in files && files[Snapshot(n)].content == Image(points)
               && g.sha(Image(points)) == files[Manifest(n)].content.record.snapshotSha
               && PrintOf(points, g.digest) == files[Manifest(n)].content.record.fingerprint
  {
  }

  /** The check right after publication passes unless another run has condemned this archive meanwhile. */
  lemma FreshArchiveVerifies(g: Setup, run: seq<State>, k: nat, j: nat)
    requires Run(g, run) && k < |run| && j in run[k].jobs && run[k].jobs[j].stage.Published?
    requires Manifest(run[k].jobs[j].name) in run[k].folder.live && run[k].jobs[j].name !in run[k].condemned
    ensures Verifies(g, run[k].folder.live, run[k].jobs[j].name)
  {
    RunKeepsInv(g, run, k);
    var n := run[k].jobs[j].name;
    assert ArchiveOk(g, run[k].folder, run[k].instants, run[k].condemned, n) && At(run[k].folder.live, Manifest(n)).Some?;
    CompleteVerifies(g, run[k].folder, n, run[k].instants[n]);
  }

  /** A snapshot whose archive has not been condemned is kept as it was taken, for as long as its manifest is there. */
  lemma InstantsAreFixed(g: Setup, run: seq<State>, i: nat, j: nat, n: string)
    requires Run(g, run) && i <= j < |run| && n in run[i].instants
    ensures n in run[j].instants && run[j].instants[n] == run[i].instants[n]
  {
    var points := run[i].instants[n];
    forall s: State, s' | (n in s.instants && s.instants[n] == points) && Succeeds(g, s, s')
      ensures n in s'.instants && s'.instants[n] == points
    {
      var step :| Possible(s, step) && !step.PowerLoss? && s' == Next(g, s, step);
    }
    Runs.Along(run, (s, s') => Succeeds(g, s, s'), (s: State) => n in s.instants && s.instants[n] == points, i, j);
  }

  // ---- retention -----------------------------------------------------------------------------------

  function RemoveArchive(files: Files, n: string): Files {
    files - {Snapshot(n), JsonLines(n), Manifest(n)}
  }

  /** No file of `gone` is left, and every other file is as it was. */
  ghost predicate Removed(files: Files, files': Files, gone: seq<string>) {
    && (forall n :: n in gone ==> Snapshot(n) !in files' && JsonLines(n) !in files' && Manifest(n) !in files')
    && files'.Keys <= files.Keys
    && forall f :: f in files && (f.name in gone ==> f.SnapshotTmp? || f.JsonLinesTmp? || f.ManifestTmp?) ==>
         f in files' && files'[f] == files[f]
  }

  /** An undisturbed `_prune` leaves the newest archives, as many as are to be kept, and all of their files. */
  method Prune(g: Setup, files: Files, listing: seq<string>) returns (files': Files)
    requires Listing(files, listing)
    ensures var newest := NewestFirst(files, listing);
            && Removed(files, files', Targets(g, files, listing))
            && (TimesDiffer(files) ==> Listing(files', newest[..Min(Keep(g), |newest|)]))
    ensures TimesDiffer(files) ==> KeepsNewest(files, files', listing, if g.retention < 1 then 1 else g.retention)
  {
    files' := files;
    var targets := Targets(g, files, listing);
    for k := 0 to |targets|
      invariant Removed(files, files', targets[..k])
    {
      RemovedMore(files, files', targets, k);
      files' := RemoveArchive(files', targets[k]);
    }
    assert targets[..|targets|] == targets;
    if TimesDiffer(files) {
      KeptAreListed(g, files, files', listing);
      KeptAreNewest(g, files, listing);
      if targets == [] {
        NothingRemoved(files, files');
      }
    }
  }

  /** These are as many of the listed archives as are to be kept, or all, and each newer than any other. */
  ghost predicate AreNewest(files: Files, listing: seq<string>, keep: nat, kept: seq<string>) {
    && |kept| == (if |listing| < keep then |listing| else keep)
    && Distinct(kept) && (forall n :: n in kept ==> n in listing)
    && forall n, m :: n in kept && m in listing && m !in kept ==> MtimeOf(files, n) > MtimeOf(files, m)
  }

  lemma KeptAreNewest(g: Setup, files: Files, listing: seq<string>)
    requires Listing(files, listing) && TimesDiffer(files)
    ensures var newest, keep := NewestFirst(files, listing), if g.retention < 1 then 1 else g.retention;
            && AreNewest(files, listing, keep, newest[..Min(Keep(g), |newest|)])
            && (|listing| <= keep ==> Targets(g, files, listing) == [])
    ensures var newest := NewestFirst(files, listing);
            forall n :: n in Targets(g, files, listing) <==> n in listing && n !in newest[..Min(Keep(g), |newest|)]
  {
    var newest := NewestFirst(files, listing);
    NewestFirstFacts(files, listing);
    FirstAreNewest(files, listing, newest, Min(Keep(g), |newest|));
    assert newest[Min(Keep(g), |newest|)..] == Targets(g, files, listing);
  }

  lemma FirstAreNewest(files: Files, listing: seq<string>, newest: seq<string>, p: nat)
    requires p <= |newest| == |listing| && Distinct(newest) && (forall k :: k in newest <==> Manifest(k) in files)
    requires forall i, j :: 0 <= i < j < |newest| ==> files[Manifest(newest[i])].mtime > files[Manifest(newest[j])].mtime
    requires Listing(files, listing)
    ensures AreNewest(files, listing, p, newest[..p])
    ensures forall n :: n in newest[p..] <==> n in listing && n !in newest[..p]
  {
    forall n ensures n in newest[p..] <==> n in listing && n !in newest[..p] {
      SplitDistinct(newest, p, n);
    }
    forall n, m | n in newest[..p] && m in listing && m !in newest[..p] ensures MtimeOf(files, n) > MtimeOf(files, m) {
      KeptIsNewer(files, newest, p, n, m);
    }
  }

  lemma KeptIsNewer(files: Files, newest: seq<string>, p: nat, n: string, m: string)
    requires p <= |newest| && n in newest[..p] && m in newest && m !in newest[..p]
    requires forall k :: k in newest ==> Manifest(k) in files
    requires forall i, j :: 0 <= i < j < |newest| ==> files[Manifest(newest[i])].mtime > files[Manifest(newest[j])].mtime
    ensures MtimeOf(files, n) > MtimeOf(files, m)
  {
    var i, j := BeforeAndBehind(newest, p, n, m);
  }

  /** The newest archives, as many as are to be kept, are left; if none is too many, nothing changes. */
  ghost predicate KeepsNewest(files: Files, files': Files, listing: seq<string>, keep: nat) {
    && (|listing| <= keep ==> files' == files)
    && exists kept: seq<string> :: Listing(files', kept) && AreNewest(files, listing, keep, kept)
  }

  lemma NothingRemoved(files: Files, files': Files)
    requires Removed(files, files', [])
    ensures files' == files
  {
    assert files'.Keys == files.Keys;
  }

  /** A run condemns no archive while no more are listed than are to be kept, and otherwise only ones older than those. */
  lemma ListsSparesNewest(g: Setup, s: State, j: nat, listing: seq<string>)
    requires Inv(g, s) && Possible(s, Lists(j, listing))
    ensures var keep, condemned := (if g.retention < 1 then 1 else g.retention), Next(g, s, Lists(j, listing)).condemned;
            && (|listing| <= keep ==> condemned == s.condemned)
            && exists kept: seq<string> ::
                 AreNewest(s.folder.live, listing, keep, kept)
                 && condemned == s.condemned + set n | n in listing && n !in kept
  {
    ManifestTimesDiffer(s.folder, s.now);
    KeptAreNewest(g, s.folder.live, listing);
    var newest := NewestFirst(s.folder.live, listing);
    var kept := newest[..Min(Keep(g), |newest|)];
    assert Next(g, s, Lists(j, listing)).condemned == s.condemned + set n | n in listing && n !in kept;
  }

  ghost predicate TimesDiffer(files: Files) {
    forall n, m :: Manifest(n) in files && Manifest(m) in files && files[Manifest(n)].mtime == files[Manifest(m)].mtime ==> n == m
  }

  lemma RemovedMore(files: Files, files': Files, targets: seq<string>, k: nat)
    requires k < |targets| && Removed(files, files', targets[..k])
    ensures Removed(files, RemoveArchive(files', targets[k]), targets[..k + 1])
  {
    assert targets[..k + 1] == targets[..k] + [targets[k]];
  }

  lemma KeptAreListed(g: Setup, files: Files, files': Files, listing: seq<string>)
    requires Listing(files, listing) && TimesDiffer(files) && Removed(files, files', Targets(g, files, listing))
    ensures var newest := NewestFirst(files, listing); Listing(files', newest[..Min(Keep(g), |newest|)])
  {
    NewestFirstFacts(files, listing);
    var newest, targets := NewestFirst(files, listing), Targets(g, files, listing);
    var kept := newest[..Min(Keep(g), |newest|)];
    assert targets == newest[|kept|..];
    forall n ensures n in kept <==> Manifest(n) in files' {
      SplitDistinct(newest, |kept|, n);
      LeftInFolder(files, files', targets, n);
    }
  }

  lemma LeftInFolder(files: Files, files': Files, gone: seq<string>, n: string)
    requires Removed(files, files', gone)
    ensures Manifest(n) in files' <==> Manifest(n) in files && n !in gone
  {
    assert Manifest(n).name == n;
    assert Manifest(n) in files' ==> Manifest(n) in files'.Keys && Manifest(n) in files.Keys;
  }
}
