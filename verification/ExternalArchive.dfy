/**
 Checking a remote archive (`verify_external_archive` in memorybridge/deployment.py), and a backup run in which
 every command succeeds.  Tar structure, modes, schedule and age are not looked at.
 */
module ExternalArchive {
  import opened Basics
  import opened Sorting
  import opened Sidecar
  import opened CloudBackup

  datatype Problem =
    | InvalidPointer
    | LatestMissing
    | NoSnapshots
    | BadLatestSidecar
    | BadDigest
    | BadSize
    | BadSidecar(name: string)
    | OrphanSidecar(name: string)
    | CountMismatch

  /** The name, digest and size of the file that `latest.json` names; none while it cannot be read. */
  function BytesOf(files: Files, n: string): Option<string> {
    if Snap(n) in files && files[Snap(n)].content.Data? then Some(files[Snap(n)].content.bytes) else None
  }

  /** What the sidecar of a snapshot says; none when it is missing or malformed. */
  function SidecarOf(files: Files, n: string): Option<string> {
    if Side(n) in files && files[Side(n)].content.Line? then ReadSidecar(files[Side(n)].content.text, n) else None
  }

  /** A recorded digest is well formed, and that of the file if it can be read. */
  predicate DigestFits(g: Setup, value: Option<string>, bytes: Option<string>) {
    value.Some? && IsSha256(value.value) && (bytes.Some? ==> Lower(value.value) == g.sha(bytes.value))
  }

  predicate SizeFits(value: Option<nat>, bytes: Option<string>) {
    value.Some? && (bytes.Some? ==> value.value == |bytes.value|)
  }

  /** One line of the inventory: only hashed snapshots are compared with their sidecar. */
  predicate ItemFits(g: Setup, files: Files, n: string, hashed: bool) {
    && SidecarOf(files, n).Some?
    && (hashed ==> BytesOf(files, n).Some? && SidecarOf(files, n).value == g.sha(BytesOf(files, n).value))
  }

  /** The names with a sidecar, in any order. */
  ghost predicate SidecarListing(files: Files, listing: seq<string>) {
    Distinct(listing) && forall n :: n in listing <==> Side(n) in files && IsSnapshotName(n)
  }

  // ---- an archive nothing is wrong with ------------------------------------------------------------

  ghost predicate PointerSound(g: Setup, files: Files) {
    && Latest in files && files[Latest].content.Doc?
    && var p := files[Latest].content.pointer;
       BytesOf(files, p.snapshot).Some? &&
       var (bytes, digest) := (BytesOf(files, p.snapshot).value, g.sha(BytesOf(files, p.snapshot).value));
       && SidecarOf(files, p.snapshot) == Some(digest)
       && p.qdrantChecksum.Some? && IsSha256(p.qdrantChecksum.value) && Lower(p.qdrantChecksum.value) == digest
       && IsSha256(p.downloadSha) && Lower(p.downloadSha) == digest
       && IsSha256(p.cloudSha) && Lower(p.cloudSha) == digest
       && p.reportedSize == Some(|bytes|) && p.actualSize == |bytes|
  }

  /** Snapshots and sidecars pair up, and every sidecar that is compared tells its snapshot's digest. */
  ghost predicate InventorySound(g: Setup, files: Files, all: bool, latest: string) {
    && (exists n :: Snap(n) in files && IsSnapshotName(n))
    && (forall n :: IsSnapshotName(n) ==> (Snap(n) in files <==> Side(n) in files))
    && forall n :: IsSnapshotName(n) && Snap(n) in files ==>
         && SidecarOf(files, n).Some?
         && (all || n == latest ==> BytesOf(files, n).Some? && g.sha(BytesOf(files, n).value) == SidecarOf(files, n).value)
  }

  ghost predicate Sound(g: Setup, files: Files, all: bool) {
    PointerSound(g, files) && InventorySound(g, files, all, files[Latest].content.pointer.snapshot)
  }

  method CheckPointer(g: Setup, files: Files, p: Pointer) returns (problems: seq<Problem>)
    requires Latest in files && files[Latest].content == Doc(p)
    ensures problems == [] <==> PointerSound(g, files)
  {
    problems := [];
    var bytes := BytesOf(files, p.snapshot);
    if bytes.None? {
      problems := problems + [LatestMissing];
    } else if SidecarOf(files, p.snapshot) != Some(g.sha(bytes.value)) {
      problems := problems + [BadLatestSidecar];
    }
    if !DigestFits(g, p.qdrantChecksum, bytes) {
      problems := problems + [BadDigest];
    }
    if !DigestFits(g, Some(p.downloadSha), bytes) {
      problems := problems + [BadDigest];
    }
    if !DigestFits(g, Some(p.cloudSha), bytes) {
      problems := problems + [BadDigest];
    }
    if !SizeFits(p.reportedSize, bytes) {
      problems := problems + [BadSize];
    }
    if !SizeFits(Some(p.actualSize), bytes) {
      problems := problems + [BadSize];
    }
  }

  method CheckInventory(g: Setup, files: Files, snapshots: seq<string>, sidecars: seq<string>, all: bool, latest: string)
    returns (problems: seq<Problem>)
    requires Listing(files, snapshots) && SidecarListing(files, sidecars)
    ensures problems == [] <==> InventorySound(g, files, all, latest)
  {
    problems := if snapshots == [] then [NoSnapshots] else [];
    for k := 0 to |snapshots|
      invariant problems == [] <==>
                  snapshots != [] && forall i :: 0 <= i < k ==> ItemFits(g, files, snapshots[i], all || snapshots[i] == latest)
    {
      if !ItemFits(g, files, snapshots[k], all || snapshots[k] == latest) {
        problems := problems + [BadSidecar(snapshots[k])];
      }
    }
    for k := 0 to |sidecars|
      invariant problems == [] <==>
                  && snapshots != []
                  && (forall i :: 0 <= i < |snapshots| ==> ItemFits(g, files, snapshots[i], all || snapshots[i] == latest))
                  && forall i :: 0 <= i < k ==> sidecars[i] in snapshots
    {
      if sidecars[k] !in snapshots {
        problems := problems + [OrphanSidecar(sidecars[k])];
      }
    }
    if |snapshots| != |sidecars| {
      problems := problems + [CountMismatch];
    }
    SameNamesSameCount(snapshots, sidecars);
    InventoryOfListings(g, files, snapshots, sidecars, all, latest);
  }

  lemma InventoryOfListings(g: Setup, files: Files, snapshots: seq<string>, sidecars: seq<string>, all: bool, latest: string)
    requires Listing(files, snapshots) && SidecarListing(files, sidecars)
    ensures InventorySound(g, files, all, latest) <==>
              && snapshots != []
              && (forall i :: 0 <= i < |snapshots| ==> ItemFits(g, files, snapshots[i], all || snapshots[i] == latest))
              && forall i :: 0 <= i < |sidecars| ==> sidecars[i] in snapshots
  {
    if InventorySound(g, files, all, latest) {
      var n :| Snap(n) in files && IsSnapshotName(n);
      assert n in snapshots;
      assert forall i :: 0 <= i < |sidecars| ==> sidecars[i] in sidecars;
      assert forall i :: 0 <= i < |snapshots| ==> snapshots[i] in snapshots;
    } else if snapshots != [] {
      assert snapshots[0] in snapshots;
      var n :| IsSnapshotName(n) && ((Snap(n) in files && !ItemFits(g, files, n, all || n == latest))
                                     || (Snap(n) in files) != (Side(n) in files));
      assert n in snapshots || n in sidecars;
    }
  }

  lemma SameNamesSameCount(a: seq<string>, b: seq<string>)
    requires Distinct(a) && Distinct(b)
    ensures (forall i :: 0 <= i < |a| ==> a[i] in b) && (forall i :: 0 <= i < |b| ==> b[i] in a) ==> |a| == |b|
  {
    if (forall i :: 0 <= i < |a| ==> a[i] in b) && (forall i :: 0 <= i < |b| ==> b[i] in a) {
      DistinctFits(a, set x | x in b);
      DistinctFits(b, set x | x in a);
      SetOfSeq(a);
      SetOfSeq(b);
    }
  }

  lemma {:induction false} SetOfSeq(s: seq<string>)
    ensures |set x | x in s| <= |s|
  {
    if s != [] {
      SetOfSeq(s[1..]);
      assert (set x | x in s) == {s[0]} + set x | x in s[1..];
    }
  }

  /** The verifier finds nothing wrong exactly with sound archives. */
  method VerifyArchive(g: Setup, files: Files, snapshots: seq<string>, sidecars: seq<string>, all: bool)
    returns (problems: seq<Problem>)
    requires Listing(files, snapshots) && SidecarListing(files, sidecars)
    ensures problems == [] <==> Sound(g, files, all)
  {
    if Latest !in files || !files[Latest].content.Doc? {
      return [InvalidPointer];
    }
    var p := files[Latest].content.pointer;
    var pointer := CheckPointer(g, files, p);
    var inventory := CheckInventory(g, files, snapshots, sidecars, all, p.snapshot);
    problems := pointer + inventory;
  }

  // ---- a backup run that meets no failure ----------------------------------------------------------

  /** Every snapshot has its own sidecar, and the other way round. */
  ghost predicate Tidy(g: Setup, files: Files) {
    && (forall n :: IsSnapshotName(n) ==> (Snap(n) in files <==> Side(n) in files))
    && forall n :: IsSnapshotName(n) && Snap(n) in files ==>
         Plain(n) && BytesOf(files, n).Some? && Stored(g, files, n, g.sha(BytesOf(files, n).value))
  }

  ghost predicate DigestsAreHex(g: Setup) {
    forall bytes :: IsDigest(g.sha(bytes))
  }

  /** What the run has put in place before it prunes. */
  ghost predicate PublishedJob(g: Setup, files: Files, job: Job) {
    && Plain(job.name) && IsSnapshotName(job.name)
    && BytesOf(files, job.name) == Some(job.bytes) && Stored(g, files, job.name, g.sha(job.bytes))
    && Latest in files && files[Latest].content == Doc(PointerFor(g, job))
    && Given(job.checksum) && job.size.Some? && Accepts(g, job, job.bytes)
  }

  lemma TidyItemFits(g: Setup, files: Files, n: string)
    requires DigestsAreHex(g) && Tidy(g, files) && IsSnapshotName(n) && Snap(n) in files
    ensures ItemFits(g, files, n, true)
  {
    SidecarReadsBackExactly(g.sha(BytesOf(files, n).value), n);
  }

  lemma PublishedIsSound(g: Setup, files: Files, job: Job)
    requires DigestsAreHex(g) && Tidy(g, files) && PublishedJob(g, files, job)
    ensures Sound(g, files, true) && Sound(g, files, false)
  {
    assert IsDigest(g.sha(job.bytes));
    SidecarReadsBackExactly(g.sha(job.bytes), job.name);
    LowersToDigest(job.checksum.value);
    forall n | IsSnapshotName(n) && Snap(n) in files ensures ItemFits(g, files, n, true) {
      TidyItemFits(g, files, n);
    }
  }

  /** No file of `gone` is left, and every other file is as it was. */
  ghost predicate Removed(files: Files, files': Files, gone: seq<string>) {
    && (forall n :: n in gone ==> Snap(n) !in files' && Side(n) !in files' && Part(n) !in files')
    && (forall f :: f in files' ==> f in files && files'[f] == files[f])
    && (forall n :: n !in gone && Snap(n) in files ==> Snap(n) in files')
    && (forall n :: n !in gone && Side(n) in files ==> Side(n) in files')
    && (Latest in files ==> Latest in files')
  }

  /** As many snapshots are left as are to be kept, or all, none older than one that is gone. */
  ghost predicate KeepsNewest(files: Files, files': Files, keep: nat) {
    exists before: seq<string>, kept: seq<string> ::
      Listing(files, before) && Listing(files', kept) && AreNewest(files, before, keep, kept)
  }

  ghost predicate AreNewest(files: Files, before: seq<string>, keep: nat, kept: seq<string>) {
    && |kept| == (if |before| < keep then |before| else keep)
    && forall n, m :: n in kept && m in before && m !in kept ==> MtimeOf(files, n) >= MtimeOf(files, m)
  }

  lemma KeptIsNewer(files: Files, newest: seq<string>, p: nat, n: string, m: string)
    requires p <= |newest| && n in newest[..p] && m in newest && m !in newest[..p]
    requires forall i, j :: 0 <= i < j < |newest| ==> Newer(files, newest[i], newest[j])
    ensures MtimeOf(files, n) >= MtimeOf(files, m)
  {
    var i, j := BeforeAndBehind(newest, p, n, m);
    assert Newer(files, newest[i], newest[j]);
  }

  lemma PruningCounts(g: Setup, files: Files, files': Files, listing: seq<string>, kept: seq<string>)
    requires Listing(files, listing) && Removed(files, files', Targets(g, files, listing))
    requires kept == NewestFirst(files, listing)[..Min(Keep(g), |NewestFirst(files, listing)|)]
    ensures Listing(files', kept) && |kept| == Min(Keep(g), |listing|)
  {
    NewestFirstFacts(files, listing);
    var newest, targets := NewestFirst(files, listing), Targets(g, files, listing);
    assert newest == kept + targets;
    forall n ensures n in kept <==> Snap(n) in files' && IsSnapshotName(n) {
      assert n in newest <==> n in kept || n in targets;
    }
  }

  lemma PruningKeepsNewest(g: Setup, files: Files, files': Files, listing: seq<string>)
    requires Listing(files, listing) && Removed(files, files', Targets(g, files, listing))
    ensures KeepsNewest(files, files', if g.keep < 1 then 1 else g.keep)
  {
    var newest := NewestFirst(files, listing);
    var kept := newest[..Min(Keep(g), |newest|)];
    PruningCounts(g, files, files', listing, kept);
    KeptAreNewest(g, files, listing);
  }

  lemma KeptAreNewest(g: Setup, files: Files, listing: seq<string>)
    requires Listing(files, listing)
    ensures var newest := NewestFirst(files, listing);
            AreNewest(files, listing, if g.keep < 1 then 1 else g.keep, newest[..Min(Keep(g), |newest|)])
  {
    var newest := NewestFirst(files, listing);
    var kept := newest[..Min(Keep(g), |newest|)];
    NewestFirstFacts(files, listing);
    forall n, m | n in kept && m in listing && m !in kept ensures MtimeOf(files, n) >= MtimeOf(files, m) {
      KeptIsNewer(files, newest, |kept|, n, m);
    }
  }

  /** `name` has the new file; apart from its temporary name nothing else has changed. */
  ghost predicate Placed(files: Files, files': Files, part: FileName, name: FileName, file: File) {
    && name in files' && files'[name] == file
    && (forall f :: f in files' && f != name ==> f in files && files'[f] == files[f])
    && forall f :: f in files && f != part ==> f in files'
  }

  /** The three files of a backup, placed one after the other. */
  ghost predicate AllPlaced(g: Setup, before: Files, f1: Files, f2: Files, after: Files, job: Job, now: int) {
    var n := job.name;
    && Placed(before, f1, Part(n), Snap(n), File(Data(job.bytes), now))
    && Placed(f1, f2, SidePart(n), Side(n), File(Line(SidecarLine(g.sha(job.bytes), n)), now + 1))
    && Placed(f2, after, LatestPart, Latest, File(Doc(PointerFor(g, job)), now + 2))
  }

  lemma AllPlacedSuffices(g: Setup, before: Files, f1: Files, f2: Files, after: Files, job: Job, now: int)
    requires AllPlaced(g, before, f1, f2, after, job, now) && Plain(job.name) && IsSnapshotName(job.name)
    requires Given(job.checksum) && job.size.Some? && Accepts(g, job, job.bytes)
    requires Tidy(g, before) && forall f :: f in before ==> before[f].mtime < now
    ensures PublishedJob(g, after, job) && IsNewest(after, job.name) && Tidy(g, after)
    ensures forall f :: f in after ==> after[f].mtime < now + 3
  {
  }

  lemma StalePartIsNoMatter(g: Setup, files: Files, n: string)
    requires Tidy(g, files)
    ensures Tidy(g, files - {Part(n)})
  {
  }

  /** The remote directory of one collection and Qdrant's snapshots of it. */
  class RemoteArchive {
    const setup: Setup
    var files: Files
    var local: set<string>
    var now: int

    constructor (setup: Setup)
      ensures this.setup == setup && files == map[] && local == {}
    {
      this.setup := setup;
      files, local, now := map[], {}, 0;
    }

    ghost predicate Valid()
      reads this
    {
      DigestsAreHex(setup) && Tidy(setup, files) && forall f :: f in files ==> files[f].mtime < now
    }

    method ListSnapshots() returns (listing: seq<string>)
      ensures Listing(files, listing)
    {
      listing := [];
      var left := set f | f in files && f.Snap? && IsSnapshotName(f.name);
      while left != {}
        invariant Distinct(listing)
        invariant forall n :: n in listing ==> Snap(n) in files && IsSnapshotName(n) && Snap(n) !in left
        invariant forall n :: Snap(n) in files && IsSnapshotName(n) ==> n in listing || Snap(n) in left
        invariant forall f :: f in left ==> f in files && f.Snap? && IsSnapshotName(f.name)
        decreases left
      {
        var f :| f in left;
        assert f == Snap(f.name);
        listing, left := listing + [f.name], left - {f};
      }
    }

    method Put(name: FileName, content: Content)
      modifies this`files, this`now
      ensures files == Write(old(files), name, content, old(now)) && now == old(now) + 1
    {
      files := Write(files, name, content, now);
      now := now + 1;
    }

    method Move(from: FileName, to: FileName)
      requires from in files
      modifies this`files
      ensures files == Replace(old(files), from, to)
    {
      files := Replace(files, from, to);
    }

    /** Upload under a temporary name, then rename. */
    method Publish(part: FileName, name: FileName, content: Content)
      requires part != name
      modifies this`files, this`now
      ensures Placed(old(files), files, part, name, File(content, old(now))) && now == old(now) + 1
    {
      Put(part, content);
      Move(part, name);
    }

    method RemoveAll(gone: seq<string>)
      modifies this`files
      ensures Removed(old(files), files, gone)
    {
      ghost var before := files;
      for k := 0 to |gone|
        invariant Removed(before, files, gone[..k])
      {
        assert gone[..k + 1] == gone[..k] + [gone[k]];
        files := files - {Snap(gone[k]), Side(gone[k]), Part(gone[k])};
      }
      assert gone[..|gone|] == gone;
    }

    /** All but the newest snapshots go, each with its sidecar. */
    method Prune(ghost job: Job) returns (removed: seq<string>)
      requires Valid() && PublishedJob(setup, files, job) && IsNewest(files, job.name)
      modifies this`files
      ensures Valid() && PublishedJob(setup, files, job)
      ensures FewSnapshots() && KeepsNewest(old(files), files, if setup.keep < 1 then 1 else setup.keep)
    {
      ghost var before := files;
      var listing := ListSnapshots();
      removed := Targets(setup, files, listing);
      TargetsAreOld(setup, files, listing, job.name);
      RemoveAll(removed);
      PruningKeepsNewest(setup, before, files, listing);
    }

    ghost predicate FewSnapshots()
      reads this
    {
      exists kept :: Listing(files, kept) && |kept| <= if setup.keep < 1 then 1 else setup.keep
    }

    /** Snapshot, sidecar and `latest.json` are put in place, in this order. */
    method Store(job: Job)
      requires Valid() && Plain(job.name) && IsSnapshotName(job.name) && Snap(job.name) !in files
      requires Given(job.checksum) && job.size.Some? && Accepts(setup, job, job.bytes)
      modifies this`files, this`now
      ensures Valid() && PublishedJob(setup, files, job) && IsNewest(files, job.name)
    {
      var n := job.name;
      StalePartIsNoMatter(setup, files, n);
      files := files - {Part(n)};
      ghost var before, start := files, now;
      Publish(Part(n), Snap(n), Data(job.bytes));
      ghost var f1 := files;
      Publish(SidePart(n), Side(n), Line(SidecarLine(setup.sha(job.bytes), n)));
      ghost var f2 := files;
      Publish(LatestPart, Latest, Doc(PointerFor(setup, job)));
      AllPlacedSuffices(setup, before, f1, f2, files, job, start);
    }

    /**
     Every command succeeds and Qdrant reports checksum and size: afterwards the directory holds at most `Keep`
     snapshots, each with its sidecar, the verifier has nothing to report, and Qdrant's own copy is gone.  None when
     the download fails a check, and then nothing has changed.
     */
    method BackupCollection(job: Job) returns (removed: Option<seq<string>>)
      requires Valid() && Plain(job.name) && IsSnapshotName(job.name) && Snap(job.name) !in files
      requires Given(job.checksum) && job.size.Some?
      modifies this
      ensures Valid()
      ensures removed.None? <==> !Accepts(setup, job, job.bytes)
      ensures removed.None? ==> files == old(files) && local == old(local)
      ensures removed.Some? ==> Sound(setup, files, true) && PointsTo(files, job.name) && local == old(local) - {job.name}
      ensures removed.Some? ==> FewSnapshots()
    {
      if !Accepts(setup, job, job.bytes) {
        return None;
      }
      Store(job);
      local := local - {job.name};
      var gone := Prune(job);
      PublishedIsSound(setup, files, job);
      return Some(gone);
    }
  }
}
