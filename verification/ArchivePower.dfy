/**
 Archives and power losses.  A run of `create_archive` syncs its manifest before it prunes (memorybridge/snapshot.py),
 but it counts every manifest it sees, synced or not, towards the ones to keep.  With one run at a time that is safe;
 in general it is exactly if some manifest among those kept is on disk.
 */
module ArchivePower {
  import opened Basics
  import opened Sorting
  import Export
  import opened Archive
  import Runs

  function TimeOf(d: Folder, n: string): int {
    if At(d.live, Manifest(n)).Some? then At(d.live, Manifest(n)).value.mtime
    else if At(d.disk, Manifest(n)).Some? then At(d.disk, Manifest(n)).value.mtime
    else 0
  }

  /** Some view of the folder has this manifest. */
  predicate Shows(d: Folder, n: string) {
    At(d.live, Manifest(n)).Some? || At(d.disk, Manifest(n)).Some?
  }

  /** This manifest is on disk and nobody is about to prune it. */
  predicate Anchored(d: Folder, condemned: set<string>, n: string) {
    n !in condemned && At(d.live, Manifest(n)).Some? && At(d.disk, Manifest(n)) == At(d.live, Manifest(n))
  }

  ghost predicate Outlived(d: Folder, condemned: set<string>, c: string) {
    exists m :: Anchored(d, condemned, m) && TimeOf(d, c) < TimeOf(d, m)
  }

  /** Whatever is being pruned, a newer archive is there to stay. */
  ghost predicate Covered(d: Folder, condemned: set<string>) {
    forall c :: c in condemned && Shows(d, c) ==> Outlived(d, condemned, c)
  }

  ghost predicate Good(g: Setup, s: State) {
    Inv(g, s) && Covered(s.folder, s.condemned)
  }

  // ---- the power loss ------------------------------------------------------------------------------

  function Settled(e: Option<File>): Option<File> {
    if e.Some? then Some(Settle(e.value)) else None
  }

  lemma AtAfterLoss(d: Folder, kept: set<FileName>, f: FileName)
    ensures var d' := AfterPowerLoss(d, kept);
            d'.disk == d'.live && At(d'.live, f) == Settled(if f in kept then At(d.live, f) else At(d.disk, f))
  {
  }

  lemma LossKeepsDurable(d: Folder, kept: set<FileName>, f: FileName, content: Content)
    requires Durable(d, f, content)
    ensures Durable(AfterPowerLoss(d, kept), f, content)
  {
    AtAfterLoss(d, kept, f);
  }

  lemma LossKeepsArchive(g: Setup, s: State, kept: set<FileName>, n: string)
    requires ArchiveOk(g, s.folder, s.instants, s.condemned, n)
    ensures ArchiveOk(g, AfterPowerLoss(s.folder, kept), s.instants, s.condemned, n)
  {
    AtAfterLoss(s.folder, kept, Manifest(n));
    if n !in s.condemned && At(AfterPowerLoss(s.folder, kept).live, Manifest(n)).Some? {
      var points := s.instants[n];
      LossKeepsDurable(s.folder, kept, Snapshot(n), Image(points));
      LossKeepsDurable(s.folder, kept, JsonLines(n), Text(Export.Lines(points)));
    }
  }

  lemma LossKeepsFolder(g: Setup, s: State, kept: set<FileName>)
    requires FolderOk(g, s.folder, s.instants, s.condemned)
    ensures FolderOk(g, AfterPowerLoss(s.folder, kept), s.instants, s.condemned)
  {
    var d' := AfterPowerLoss(s.folder, kept);
    forall f | At(d'.live, f).Some? || At(d'.disk, f).Some? ensures f.name in s.instants {
      AtAfterLoss(s.folder, kept, f);
    }
    forall n ensures ArchiveOk(g, d', s.instants, s.condemned, n) {
      LossKeepsArchive(g, s, kept, n);
    }
  }

  lemma LossKeepsTimes(d: Folder, kept: set<FileName>, now: int)
    requires TimesOk(d, now)
    ensures TimesOk(AfterPowerLoss(d, kept), now)
  {
    var d' := AfterPowerLoss(d, kept);
    forall f, t | Has(d', f, t) ensures Has(d, f, t) {
      AtAfterLoss(d, kept, f);
    }
  }

  /** A manifest that is left was there, with the same time; an anchored one is left. */
  lemma ManifestAfterLoss(g: Setup, s: State, kept: set<FileName>, n: string)
    requires FolderOk(g, s.folder, s.instants, s.condemned)
    ensures var d' := AfterPowerLoss(s.folder, kept);
            && (Shows(d', n) ==> Shows(s.folder, n) && TimeOf(d', n) == TimeOf(s.folder, n))
            && (Anchored(s.folder, s.condemned, n) ==> Anchored(d', s.condemned, n))
  {
    assert ArchiveOk(g, s.folder, s.instants, s.condemned, n);
    AtAfterLoss(s.folder, kept, Manifest(n));
  }

  lemma LossKeepsCovered(g: Setup, s: State, kept: set<FileName>)
    requires FolderOk(g, s.folder, s.instants, s.condemned) && Covered(s.folder, s.condemned)
    ensures Covered(AfterPowerLoss(s.folder, kept), s.condemned)
  {
    var d' := AfterPowerLoss(s.folder, kept);
    forall c | c in s.condemned && Shows(d', c) ensures Outlived(d', s.condemned, c) {
      ManifestAfterLoss(g, s, kept, c);
      var m :| Anchored(s.folder, s.condemned, m) && TimeOf(s.folder, c) < TimeOf(s.folder, m);
      ManifestAfterLoss(g, s, kept, m);
    }
  }

  lemma CoveredIsNewestOk(s: State)
    requires Covered(s.folder, s.condemned)
    ensures NewestOk(s)
  {
    forall n | IsNewest(s.folder.live, n) ensures n !in s.condemned {
      if n in s.condemned {
        assert Shows(s.folder, n);
        var m :| Anchored(s.folder, s.condemned, m) && TimeOf(s.folder, n) < TimeOf(s.folder, m);
        NewerIsThere(s.folder, s.condemned, n, m);
      }
    }
  }

  lemma NewerIsThere(d: Folder, condemned: set<string>, n: string, m: string)
    requires Manifest(n) in d.live && Anchored(d, condemned, m) && TimeOf(d, n) < TimeOf(d, m)
    ensures !IsNewest(d.live, n)
  {
    assert Manifest(m) in d.live;
  }

  lemma LossKeepsGood(g: Setup, s: State, kept: set<FileName>)
    requires Good(g, s)
    ensures Good(g, Next(g, s, PowerLoss(kept)))
  {
    LossKeepsFolder(g, s, kept);
    LossKeepsTimes(s.folder, kept, s.now);
    LossKeepsCovered(g, s, kept);
    CoveredIsNewestOk(Next(g, s, PowerLoss(kept)));
  }

  // ---- steps other than listing --------------------------------------------------------------------

  /** Condemned manifests do not come back or change, and anchored ones stay. */
  ghost predicate ManifestsStay(d: Folder, d': Folder, condemned: set<string>) {
    && (forall c :: c in condemned && Shows(d', c) ==> Shows(d, c) && TimeOf(d', c) == TimeOf(d, c))
    && forall m :: Anchored(d, condemned, m) ==> Anchored(d', condemned, m) && TimeOf(d', m) == TimeOf(d, m)
  }

  lemma CoveredStays(d: Folder, d': Folder, condemned: set<string>)
    requires Covered(d, condemned) && ManifestsStay(d, d', condemned)
    ensures Covered(d', condemned)
  {
    forall c | c in condemned && Shows(d', c) ensures Outlived(d', condemned, c) {
      var m :| Anchored(d, condemned, m) && TimeOf(d, c) < TimeOf(d, m);
      assert Anchored(d', condemned, m);
    }
  }

  lemma TouchKeepsManifests(d: Folder, d': Folder, condemned: set<string>, n: string)
    requires OnlyTouches(d, d', n) && n !in condemned && NoManifest(d, n)
    ensures ManifestsStay(d, d', condemned)
  {
    forall m | m != n ensures SameFile(d, d', Manifest(m)) {
      FilesOf(d, d', n, m);
    }
  }

  lemma RemovalKeepsManifests(g: Setup, s: State, f: FileName)
    requires FolderOk(g, s.folder, s.instants, s.condemned) && f.name in s.condemned
    ensures ManifestsStay(s.folder, Unlink(s.folder, f), s.condemned)
  {
    var d' := Unlink(s.folder, f);
    forall n ensures n != f.name ==> SameFile(s.folder, d', Manifest(n)) {
      assert Manifest(n).name == n;
    }
    assert ArchiveOk(g, s.folder, s.instants, s.condemned, f.name);
  }

  lemma ContinueKeepsManifests(g: Setup, s: State, j: nat)
    requires Inv(g, s) && Possible(s, Continues(j))
    ensures ManifestsStay(s.folder, Next(g, s, Continues(j)).folder, s.condemned)
  {
    var job := s.jobs[j];
    assert JobOk(g, s.folder, s.instants, s.condemned, job);
    if Unpublished(job.stage) {
      OwnFilesOnly(g, s.folder, job, s.now);
      TouchKeepsManifests(s.folder, FolderAfter(g, s.folder, job, s.now), s.condemned, job.name);
    } else if job.stage.Pruning? && job.stage.part < 3 {
      var f := PartOf(job.stage.targets[0], job.stage.part);
      assert f.name == job.stage.targets[0];
      RemovalKeepsManifests(g, s, f);
    }
  }

  lemma TearKeepsManifests(g: Setup, s: State, j: nat)
    requires Inv(g, s) && Possible(s, Tears(j))
    ensures ManifestsStay(s.folder, Next(g, s, Tears(j)).folder, s.condemned)
  {
    var job := s.jobs[j];
    assert JobOk(g, s.folder, s.instants, s.condemned, job);
    if Writing(job.stage) {
      TouchKeepsManifests(s.folder, Next(g, s, Tears(j)).folder, s.condemned, job.name);
    }
  }

  lemma StepKeepsManifests(g: Setup, s: State, step: Step)
    requires Inv(g, s) && Possible(s, step) && !step.Lists? && !step.PowerLoss?
    ensures ManifestsStay(s.folder, Next(g, s, step).folder, s.condemned) && Next(g, s, step).condemned == s.condemned
  {
    match step
    case Continues(j) => ContinueKeepsManifests(g, s, j);
    case Tears(j) => TearKeepsManifests(g, s, j);
    case _ =>
  }

  // ---- listing -------------------------------------------------------------------------------------

  /** Nothing is to be pruned, or one of the manifests to be kept is on disk. */
  ghost predicate Guarded(g: Setup, s: State, listing: seq<string>) {
    var newest := NewestFirst(s.folder.live, listing);
    Targets(g, s.folder.live, listing) == []
    || exists i :: 0 <= i < |newest| && i < Keep(g) && At(s.folder.disk, Manifest(newest[i])).Some?
  }

  /** With the guard, an anchored manifest is among those kept. */
  lemma KeptAnchor(g: Setup, s: State, listing: seq<string>) returns (p: nat)
    requires Good(g, s) && Listing(s.folder.live, listing)
    requires Guarded(g, s, listing) && Targets(g, s.folder.live, listing) != []
    ensures var newest := NewestFirst(s.folder.live, listing);
            p < |newest| && p < Keep(g) && Anchored(s.folder, s.condemned, newest[p])
  {
    var d, newest := s.folder, NewestFirst(s.folder.live, listing);
    ManifestTimesDiffer(d, s.now);
    NewestFirstFacts(d.live, listing);
    var i :| 0 <= i < |newest| && i < Keep(g) && At(d.disk, Manifest(newest[i])).Some?;
    assert newest[i] in newest;
    assert ArchiveOk(g, d, s.instants, s.condemned, newest[i]);
    if newest[i] !in s.condemned {
      p := i;
    } else {
      assert Shows(d, newest[i]);
      var m :| Anchored(d, s.condemned, m) && TimeOf(d, newest[i]) < TimeOf(d, m);
      assert Manifest(m) in d.live;
      var q :| 0 <= q < |newest| && newest[q] == m;
      p := q;
    }
  }

  lemma KeptAnchorStays(g: Setup, s: State, listing: seq<string>, p: nat)
    requires Good(g, s) && Listing(s.folder.live, listing)
    requires var newest := NewestFirst(s.folder.live, listing);
             p < |newest| && p < Keep(g) && Anchored(s.folder, s.condemned, newest[p])
    ensures var (newest, targets) := (NewestFirst(s.folder.live, listing), Targets(g, s.folder.live, listing));
            && newest[p] !in targets
            && forall t :: t in targets ==> TimeOf(s.folder, t) < TimeOf(s.folder, newest[p])
  {
    var d, newest := s.folder, NewestFirst(s.folder.live, listing);
    ManifestTimesDiffer(d, s.now);
    NewestFirstFacts(d.live, listing);
    forall t | t in Targets(g, d.live, listing) ensures t != newest[p] && TimeOf(d, t) < TimeOf(d, newest[p]) {
      var i := TargetIndex(g, d.live, listing, t);
      assert newest[i] in newest && newest[p] in newest;
    }
  }

  lemma ListKeepsCovered(g: Setup, s: State, j: nat, listing: seq<string>)
    requires Good(g, s) && Possible(s, Lists(j, listing)) && Guarded(g, s, listing)
    ensures Covered(s.folder, Next(g, s, Lists(j, listing)).condemned)
  {
    var d, targets, condemned := s.folder, Targets(g, s.folder.live, listing), Next(g, s, Lists(j, listing)).condemned;
    if targets == [] {
      assert condemned == s.condemned;
    } else {
      var p := KeptAnchor(g, s, listing);
      KeptAnchorStays(g, s, listing, p);
      var a := NewestFirst(d.live, listing)[p];
      assert Anchored(d, condemned, a);
      forall c | c in condemned && Shows(d, c) ensures Outlived(d, condemned, c) {
        if c !in targets {
          var m :| Anchored(d, s.condemned, m) && TimeOf(d, c) < TimeOf(d, m);
          assert m in targets || Anchored(d, condemned, m);
        }
      }
    }
  }

  // ---- over whole runs -----------------------------------------------------------------------------

  ghost predicate SucceedsGuarded(g: Setup, s: State, s': State) {
    exists step :: Possible(s, step) && (step.Lists? ==> Guarded(g, s, step.listing)) && s' == Next(g, s, step)
  }

  ghost predicate GuardedRun(g: Setup, s: State, run: seq<State>) {
    run != [] && run[0] == s && forall k :: 0 <= k < |run| - 1 ==> SucceedsGuarded(g, run[k], run[k + 1])
  }

  lemma GuardedStepKeepsGood(g: Setup, s: State, step: Step)
    requires Good(g, s) && Possible(s, step) && (step.Lists? ==> Guarded(g, s, step.listing))
    ensures Good(g, Next(g, s, step))
  {
    if step.PowerLoss? {
      LossKeepsGood(g, s, step.kept);
    } else {
      NextKeepsInv(g, s, step);
      if step.Lists? {
        ListKeepsCovered(g, s, step.job, step.listing);
      } else {
        StepKeepsManifests(g, s, step);
        CoveredStays(s.folder, Next(g, s, step).folder, s.condemned);
      }
    }
  }

  lemma GuardedRunKeepsGood(g: Setup, s: State, run: seq<State>, k: nat)
    requires Good(g, s) && GuardedRun(g, s, run) && k < |run|
    ensures Good(g, run[k])
  {
    forall s, s' | Good(g, s) && SucceedsGuarded(g, s, s') ensures Good(g, s') {
      var step :| Possible(s, step) && (step.Lists? ==> Guarded(g, s, step.listing)) && s' == Next(g, s, step);
      GuardedStepKeepsGood(g, s, step);
    }
    Runs.Along(run, (s, s') => SucceedsGuarded(g, s, s'), s => Good(g, s), 0, k);
  }

  /** While every pruning is guarded, the latest archive restores after any crashes and power losses. */
  lemma LatestSurvivesPowerLoss(g: Setup, run: seq<State>, k: nat)
    requires GuardedRun(g, EMPTY, run) && k < |run|
    ensures LatestIsGood(g, run[k])
  {
    GuardedRunKeepsGood(g, EMPTY, run, k);
    InvIsGood(g, run[k]);
  }

  ghost predicate HasAnchor(s: State) {
    exists m :: Anchored(s.folder, s.condemned, m)
  }

  lemma GuardedStepKeepsAnchor(g: Setup, s: State, step: Step)
    requires Good(g, s) && HasAnchor(s) && Possible(s, step) && (step.Lists? ==> Guarded(g, s, step.listing))
    ensures HasAnchor(Next(g, s, step))
  {
    var s' := Next(g, s, step);
    var m :| Anchored(s.folder, s.condemned, m);
    if step.PowerLoss? {
      ManifestAfterLoss(g, s, step.kept, m);
      assert Anchored(s'.folder, s'.condemned, m);
    } else if !step.Lists? {
      StepKeepsManifests(g, s, step);
      assert Anchored(s'.folder, s'.condemned, m);
    } else if Targets(g, s.folder.live, step.listing) == [] {
      assert Anchored(s'.folder, s'.condemned, m);
    } else {
      var p := KeptAnchor(g, s, step.listing);
      KeptAnchorStays(g, s, step.listing, p);
      assert Anchored(s'.folder, s'.condemned, NewestFirst(s.folder.live, step.listing)[p]);
    }
  }

  /** And once a manifest that is not being pruned has reached the disk, there is always an archive to restore. */
  lemma ArchiveStays(g: Setup, run: seq<State>, i: nat, j: nat, n: string)
    requires GuardedRun(g, EMPTY, run) && i <= j < |run|
    requires n !in run[i].condemned && Manifest(n) in run[i].folder.disk
    ensures exists m :: Manifest(m) in run[j].folder.live && Manifest(m) in run[j].folder.disk && m !in run[j].condemned
  {
    GuardedRunKeepsGood(g, EMPTY, run, i);
    assert ArchiveOk(g, run[i].folder, run[i].instants, run[i].condemned, n) && At(run[i].folder.disk, Manifest(n)).Some?;
    assert Anchored(run[i].folder, run[i].condemned, n);
    forall s, s' | (Good(g, s) && HasAnchor(s)) && SucceedsGuarded(g, s, s') ensures Good(g, s') && HasAnchor(s') {
      var step :| Possible(s, step) && (step.Lists? ==> Guarded(g, s, step.listing)) && s' == Next(g, s, step);
      GuardedStepKeepsGood(g, s, step);
      GuardedStepKeepsAnchor(g, s, step);
    }
    Runs.Along(run, (s, s') => SucceedsGuarded(g, s, s'), s => Good(g, s) && HasAnchor(s), i, j);
    var m :| Anchored(run[j].folder, run[j].condemned, m);
    assert Manifest(m) in run[j].folder.live && Manifest(m) in run[j].folder.disk;
  }

  // ---- exactly when pruning is safe ----------------------------------------------------------------

  /** All but the manifests that were to be kept. */
  ghost function Remnant(g: Setup, d: Folder, listing: seq<string>): set<FileName> {
    var newest := NewestFirst(d.live, listing);
    d.live.Keys + d.disk.Keys - set i | 0 <= i < Min(Keep(g), |newest|) :: Manifest(newest[i])
  }

  /** The run that listed has removed the newest target's snapshot when the power fails. */
  ghost function Struck(g: Setup, d: Folder, listing: seq<string>): Folder
    requires Targets(g, d.live, listing) != []
  {
    AfterPowerLoss(Unlink(d, Snapshot(Targets(g, d.live, listing)[0])), Remnant(g, d, listing))
  }

  function First(s: seq<string>, n: nat): seq<string> {
    s[..Min(n, |s|)]
  }

  lemma InRemnant(g: Setup, s: State, listing: seq<string>, n: string)
    requires TimesOk(s.folder, s.now) && Listing(s.folder.live, listing)
    ensures Manifest(n) in Remnant(g, s.folder, listing)
            <==> (Manifest(n) in s.folder.live.Keys + s.folder.disk.Keys
                  && n !in First(NewestFirst(s.folder.live, listing), Keep(g)))
  {
    var newest := NewestFirst(s.folder.live, listing);
    var head := First(newest, Keep(g));
    if n in head {
      var i :| 0 <= i < |head| && head[i] == n;
      assert newest[i] == n;
    }
    if Manifest(n) in set i | 0 <= i < Min(Keep(g), |newest|) :: Manifest(newest[i]) {
      var i :| 0 <= i < Min(Keep(g), |newest|) && Manifest(n) == Manifest(newest[i]);
      assert head[i] == n;
    }
  }

  /** A manifest there is either among those to be kept, and then not on disk, or a target. */
  lemma KeptOrTarget(g: Setup, s: State, listing: seq<string>, n: string)
    requires Inv(g, s) && Listing(s.folder.live, listing) && !Guarded(g, s, listing)
    ensures var (head, targets) := (First(NewestFirst(s.folder.live, listing), Keep(g)), Targets(g, s.folder.live, listing));
            && (Manifest(n) in s.folder.live <==> n in head || n in targets)
            && (n in head ==> n !in targets && Manifest(n) !in s.folder.disk)
  {
    var d, newest, targets := s.folder, NewestFirst(s.folder.live, listing), Targets(g, s.folder.live, listing);
    var head := First(newest, Keep(g));
    ManifestTimesDiffer(d, s.now);
    NewestFirstFacts(d.live, listing);
    assert newest == head + targets;
    if n in head {
      var i :| 0 <= i < |head| && head[i] == n;
      assert newest[i] == n && At(d.disk, Manifest(n)).None?;
      SplitDistinct(newest, |head|, n);
    }
    assert n in newest <==> n in head || n in targets;
  }

  /** Without the guard only the targets are left to be listed, at the times they had. */
  lemma StruckManifest(g: Setup, s: State, listing: seq<string>, n: string)
    requires Inv(g, s) && Listing(s.folder.live, listing) && !Guarded(g, s, listing)
    ensures var (d', targets) := (Struck(g, s.folder, listing), Targets(g, s.folder.live, listing));
            && (n in targets <==> Manifest(n) in d'.live)
            && (n in targets ==> Manifest(n) in s.folder.live && d'.live[Manifest(n)].mtime == s.folder.live[Manifest(n)].mtime)
  {
    var d, targets := s.folder, Targets(g, s.folder.live, listing);
    KeptOrTarget(g, s, listing, n);
    InRemnant(g, s, listing, n);
    AtAfterLoss(Unlink(d, Snapshot(targets[0])), Remnant(g, d, listing), Manifest(n));
  }

  lemma StruckSnapshot(g: Setup, s: State, listing: seq<string>)
    requires Targets(g, s.folder.live, listing) != []
    ensures Snapshot(Targets(g, s.folder.live, listing)[0]) !in Struck(g, s.folder, listing).live
  {
    var d, t := s.folder, Snapshot(Targets(g, s.folder.live, listing)[0]);
    AtAfterLoss(Unlink(d, t), Remnant(g, d, listing), t);
  }

  lemma StruckTimesDiffer(g: Setup, s: State, listing: seq<string>)
    requires Inv(g, s) && Listing(s.folder.live, listing) && !Guarded(g, s, listing)
    ensures TimesDiffer(Struck(g, s.folder, listing).live)
  {
    ManifestTimesDiffer(s.folder, s.now);
    var d' := Struck(g, s.folder, listing);
    forall n, m | Manifest(n) in d'.live && Manifest(m) in d'.live && d'.live[Manifest(n)].mtime == d'.live[Manifest(m)].mtime
      ensures n == m
    {
      StruckManifest(g, s, listing, n);
      StruckManifest(g, s, listing, m);
    }
  }

  /** What is then picked is the newest target, and it has lost its snapshot. */
  lemma StruckIsBad(g: Setup, s: State, listing: seq<string>)
    requires Inv(g, s) && Listing(s.folder.live, listing) && !Guarded(g, s, listing)
    ensures var (d', targets) := (Struck(g, s.folder, listing), Targets(g, s.folder.live, listing));
            Listing(d'.live, targets) && targets != [] && NewestFirst(d'.live, targets) != []
            && !Verifies(g, d'.live, NewestFirst(d'.live, targets)[0])
  {
    var d, d', targets := s.folder, Struck(g, s.folder, listing), Targets(g, s.folder.live, listing);
    var newest := NewestFirst(d.live, listing);
    ManifestTimesDiffer(d, s.now);
    NewestFirstFacts(d.live, listing);
    forall n ensures n in targets <==> Manifest(n) in d'.live {
      StruckManifest(g, s, listing, n);
    }
    StruckTimesDiffer(g, s, listing);
    NewestFirstFacts(d'.live, targets);
    StruckSnapshot(g, s, listing);
    forall q | 0 <= q < |targets|
      ensures Manifest(targets[q]) in d'.live && d'.live[Manifest(targets[0])].mtime >= d'.live[Manifest(targets[q])].mtime
    {
      StruckManifest(g, s, listing, targets[0]);
      StruckManifest(g, s, listing, targets[q]);
      assert newest[Keep(g)] == targets[0] && newest[Keep(g) + q] == targets[q];
    }
    NewestComesFirst(d'.live, targets);
  }

  lemma NewestComesFirst(files: Files, listing: seq<string>)
    requires Listing(files, listing) && TimesDiffer(files) && listing != []
    requires forall q :: 0 <= q < |listing| ==> Manifest(listing[q]) in files
    requires forall q :: 0 <= q < |listing| ==> files[Manifest(listing[0])].mtime >= files[Manifest(listing[q])].mtime
    ensures NewestFirst(files, listing) != [] && NewestFirst(files, listing)[0] == listing[0]
  {
    NewestFirstFacts(files, listing);
    var newest := NewestFirst(files, listing);
    assert listing[0] in newest && newest[0] in newest;
    var p :| 0 <= p < |newest| && newest[p] == listing[0];
    assert newest[0] in listing;
    var q :| 0 <= q < |listing| && listing[q] == newest[0];
  }

  /** The run that listed goes on for one step, and the power fails. */
  lemma UnguardedFails(g: Setup, s: State, j: nat, listing: seq<string>) returns (run: seq<State>)
    requires Inv(g, s) && Possible(s, Lists(j, listing)) && !Guarded(g, s, listing)
    ensures GuardedRun(g, Next(g, s, Lists(j, listing)), run) && !LatestIsGood(g, run[|run| - 1])
  {
    var s1 := Next(g, s, Lists(j, listing));
    assert Possible(s1, Continues(j));
    var s2 := Next(g, s1, Continues(j));
    var loss := PowerLoss(Remnant(g, s.folder, listing));
    assert Possible(s2, loss);
    var s3 := Next(g, s2, loss);
    run := [s1, s2, s3];
    assert SucceedsGuarded(g, s1, s2) && SucceedsGuarded(g, s2, s3);
    assert s3.folder == Struck(g, s.folder, listing);
    StruckIsBad(g, s, listing);
    assert !Restores(g, s3, Targets(g, s.folder.live, listing), true);
  }

  /**
   Pruning after this listing is safe, whatever crashes and power losses follow, exactly if nothing is to be pruned or
   one of the manifests to be kept is on disk.
   */
  lemma PruningIsSafeExactly(g: Setup, s: State, j: nat, listing: seq<string>)
    requires Good(g, s) && Possible(s, Lists(j, listing))
    ensures (forall run :: GuardedRun(g, Next(g, s, Lists(j, listing)), run) ==> LatestIsGood(g, run[|run| - 1]))
            <==> Guarded(g, s, listing)
  {
    var s' := Next(g, s, Lists(j, listing));
    if Guarded(g, s, listing) {
      GuardedStepKeepsGood(g, s, Lists(j, listing));
      forall run | GuardedRun(g, s', run) ensures LatestIsGood(g, run[|run| - 1]) {
        GuardedRunKeepsGood(g, s', run, |run| - 1);
        InvIsGood(g, run[|run| - 1]);
      }
    } else {
      var run := UnguardedFails(g, s, j, listing);
    }
  }

  // ---- one run at a time ---------------------------------------------------------------------------

  ghost predicate OneJob(s: State) {
    forall i, j :: i in s.jobs && j in s.jobs ==> i == j
  }

  ghost predicate SucceedsAnyhow(g: Setup, s: State, s': State) {
    exists step :: Possible(s, step) && s' == Next(g, s, step)
  }

  ghost predicate AnyRun(g: Setup, run: seq<State>) {
    run != [] && run[0] == EMPTY && forall k :: 0 <= k < |run| - 1 ==> SucceedsAnyhow(g, run[k], run[k + 1])
  }

  /** When a run lists, its own fsync has just put every manifest on disk. */
  ghost predicate SyncedIfPublished(s: State) {
    forall j, n :: j in s.jobs && s.jobs[j].stage.Published? && Manifest(n) in s.folder.live ==> Manifest(n) in s.folder.disk
  }

  ghost predicate GoodAlone(g: Setup, s: State) {
    Good(g, s) && OneJob(s) && SyncedIfPublished(s)
  }

  lemma AloneIsGuarded(g: Setup, s: State, j: nat, listing: seq<string>)
    requires GoodAlone(g, s) && Possible(s, Lists(j, listing))
    ensures Guarded(g, s, listing)
  {
    var newest := NewestFirst(s.folder.live, listing);
    ManifestTimesDiffer(s.folder, s.now);
    NewestFirstFacts(s.folder.live, listing);
    if Targets(g, s.folder.live, listing) != [] {
      assert newest[0] in newest && Manifest(newest[0]) in s.folder.disk;
      assert At(s.folder.disk, Manifest(newest[0])).Some?;
    }
  }

  lemma AloneStays(g: Setup, s: State, step: Step)
    requires GoodAlone(g, s) && Possible(s, step) && OneJob(Next(g, s, step))
    ensures GoodAlone(g, Next(g, s, step))
  {
    if step.Lists? {
      AloneIsGuarded(g, s, step.job, step.listing);
    }
    GuardedStepKeepsGood(g, s, step);
  }

  /** With one run at a time no guard is needed: the latest archive restores after any crashes and power losses. */
  lemma OneRunAtATimeSurvives(g: Setup, run: seq<State>, k: nat)
    requires AnyRun(g, run) && k < |run| && forall i :: 0 <= i < |run| ==> OneJob(run[i])
    ensures LatestIsGood(g, run[k])
  {
    forall s, s' | GoodAlone(g, s) && SucceedsAnyhow(g, s, s') && OneJob(s') ensures GoodAlone(g, s') {
      var step :| Possible(s, step) && s' == Next(g, s, step);
      AloneStays(g, s, step);
    }
    Runs.Along(run, (s, s') => SucceedsAnyhow(g, s, s') && OneJob(s'), s => GoodAlone(g, s), 0, k);
    InvIsGood(g, run[k]);
  }

  // ---- two runs that lose everything ---------------------------------------------------------------

  lemma Then(g: Setup, run: seq<State>, step: Step) returns (longer: seq<State>)
    requires AnyRun(g, run) && Possible(run[|run| - 1], step)
    ensures AnyRun(g, longer) && longer[|longer| - 1] == Next(g, run[|run| - 1], step)
  {
    var n := |run|;
    longer := run + [Next(g, run[n - 1], step)];
    forall k | 0 <= k < n ensures SucceedsAnyhow(g, longer[k], longer[k + 1]) {
      if k < n - 1 {
        assert SucceedsAnyhow(g, run[k], run[k + 1]);
      } else {
        assert Possible(longer[k], step) && longer[k + 1] == Next(g, longer[k], step);
      }
    }
  }

  /** How many steps a run has to go until its manifest is written. */
  function ToGo(stage: Stage): nat {
    match stage
    case Downloading => 7
    case Downloaded => 6
    case SnapshotPlaced => 5
    case Restorable => 4
    case LinesWritten => 3
    case LinesPlaced => 2
    case Exported => 1
    case _ => 0
  }

  /** Nothing but this run has moved, and no manifest has come or gone. */
  ghost predicate OnlyMoved(s: State, s': State, j: nat) {
    && j in s.jobs && j in s'.jobs && s'.jobs == s.jobs[j := s'.jobs[j]] && s'.jobs[j].name == s.jobs[j].name
    && s'.instants == s.instants && s'.condemned == s.condemned && s'.now >= s.now
    && forall n :: At(s'.folder.live, Manifest(n)) == At(s.folder.live, Manifest(n))
  }

  lemma MoveIsPossible(g: Setup, d: Folder, job: Job)
    requires StageOk(g, d, job) && ToGo(job.stage) > 0
    ensures Ready(d.live, job) && Unpublished(job.stage)
    ensures var stage := StageAfter(job.stage); ToGo(stage) == ToGo(job.stage) - 1 && Unpublished(stage)
  {
  }

  lemma MoveKeepsManifests(g: Setup, d: Folder, job: Job, now: int, n: string)
    requires Ready(d.live, job) && Unpublished(job.stage) && NoManifest(d, job.name)
    requires n != job.name || !job.stage.ManifestWritten?
    ensures At(FolderAfter(g, d, job, now).live, Manifest(n)) == At(d.live, Manifest(n))
  {
    OwnFilesOnly(g, d, job, now);
    OwnManifest(g, d, job, now);
    if n != job.name {
      FilesOf(d, FolderAfter(g, d, job, now), job.name, n);
    }
  }

  lemma MoveKeepsOthers(g: Setup, s: State, j: nat)
    requires Possible(s, Continues(j)) && Unpublished(s.jobs[j].stage) && NoManifest(s.folder, s.jobs[j].name)
    requires !s.jobs[j].stage.ManifestWritten?
    ensures OnlyMoved(s, Next(g, s, Continues(j)), j)
  {
    forall n ensures At(Next(g, s, Continues(j)).folder.live, Manifest(n)) == At(s.folder.live, Manifest(n)) {
      MoveKeepsManifests(g, s.folder, s.jobs[j], s.now, n);
    }
  }

  ghost predicate TmpSince(d: Folder, n: string, t: int) {
    At(d.live, ManifestTmp(n)).Some? && At(d.live, ManifestTmp(n)).value.mtime >= t
  }

  lemma MovesOn(g: Setup, before: seq<State>, j: nat) returns (run: seq<State>)
    requires AnyRun(g, before) && Inv(g, before[|before| - 1])
    requires j in before[|before| - 1].jobs && ToGo(before[|before| - 1].jobs[j].stage) > 0
    ensures AnyRun(g, run)
    ensures var (s, s') := (before[|before| - 1], run[|run| - 1]);
            && Inv(g, s') && OnlyMoved(s, s', j) && ToGo(s'.jobs[j].stage) == ToGo(s.jobs[j].stage) - 1
            && Unpublished(s'.jobs[j].stage)
            && (s'.jobs[j].stage.ManifestWritten? ==> TmpSince(s'.folder, s.jobs[j].name, s.now))
  {
    var s := before[|before| - 1];
    assert JobOk(g, s.folder, s.instants, s.condemned, s.jobs[j]);
    MoveIsPossible(g, s.folder, s.jobs[j]);
    ContinueKeeps(g, s, j);
    MoveKeepsOthers(g, s, j);
    run := Then(g, before, Continues(j));
  }

  /** This run has come to the point where its manifest is written, at a time since `s`. */
  ghost predicate HasWritten(g: Setup, s: State, s': State, j: nat) {
    Inv(g, s') && OnlyMoved(s, s', j) && s'.jobs[j].stage.ManifestWritten? && TmpSince(s'.folder, s.jobs[j].name, s.now)
  }

  lemma WrittenFurther(g: Setup, s: State, s1: State, s2: State, j: nat)
    requires OnlyMoved(s, s1, j) && HasWritten(g, s1, s2, j)
    ensures HasWritten(g, s, s2, j)
  {
  }

  lemma {:induction false} WritesManifest(g: Setup, before: seq<State>, j: nat) returns (run: seq<State>)
    requires AnyRun(g, before) && Inv(g, before[|before| - 1])
    requires j in before[|before| - 1].jobs && ToGo(before[|before| - 1].jobs[j].stage) > 0
    ensures AnyRun(g, run) && HasWritten(g, before[|before| - 1], run[|run| - 1], j)
    decreases ToGo(before[|before| - 1].jobs[j].stage)
  {
    run := MovesOn(g, before, j);
    var s, s1 := before[|before| - 1], run[|run| - 1];
    if ToGo(s1.jobs[j].stage) > 0 {
      run := WritesManifest(g, run, j);
      WrittenFurther(g, s, s1, run[|run| - 1], j);
    } else {
      assert s1.jobs[j].stage.ManifestWritten?;
    }
  }

  /** The run `j` of snapshot `n` has begun since `s`, and its manifest is in place and not yet synced. */
  ghost predicate HasPlaced(s: State, s': State, j: nat, n: string) {
    && s'.instants.Keys == s.instants.Keys + {n} && s'.condemned == s.condemned
    && j in s'.jobs && s'.jobs == s.jobs[j := s'.jobs[j]] && s'.jobs[j].stage.ManifestPlaced?
    && (forall m :: m != n ==> At(s'.folder.live, Manifest(m)) == At(s.folder.live, Manifest(m)))
    && At(s'.folder.live, Manifest(n)).Some? && At(s'.folder.live, Manifest(n)).value.mtime >= s.now
    && At(s'.folder.disk, Manifest(n)).None?
  }

  lemma RenamePlaces(g: Setup, s: State, s1: State, j: nat, n: string)
    requires Inv(g, s1) && j in s1.jobs && s1.jobs[j].name == n && s1.jobs[j].stage.ManifestWritten?
    requires s1.instants.Keys == s.instants.Keys + {n} && s1.condemned == s.condemned && s1.jobs == s.jobs[j := s1.jobs[j]]
    requires TmpSince(s1.folder, n, s.now)
    requires forall m :: At(s1.folder.live, Manifest(m)) == At(s.folder.live, Manifest(m))
    ensures Possible(s1, Continues(j)) && HasPlaced(s, Next(g, s1, Continues(j)), j, n)
  {
    assert JobOk(g, s1.folder, s1.instants, s1.condemned, s1.jobs[j]);
    OwnManifest(g, s1.folder, s1.jobs[j], s1.now);
    forall m | m != n ensures At(Next(g, s1, Continues(j)).folder.live, Manifest(m)) == At(s1.folder.live, Manifest(m)) {
      MoveKeepsManifests(g, s1.folder, s1.jobs[j], s1.now, m);
    }
  }

  lemma Places(g: Setup, before: seq<State>, j: nat, n: string) returns (run: seq<State>)
    requires AnyRun(g, before) && Inv(g, before[|before| - 1])
    requires j !in before[|before| - 1].jobs && n !in before[|before| - 1].instants
    ensures AnyRun(g, run) && Inv(g, run[|run| - 1]) && HasPlaced(before[|before| - 1], run[|run| - 1], j, n)
  {
    var s := before[|before| - 1];
    BeginKeeps(g, s, j, n);
    run := Then(g, before, Begins(j, n));
    run := WritesManifest(g, run, j);
    WrittenIsRenamed(g, s, run[|run| - 1], j, n);
    run := Then(g, run, Continues(j));
  }

  lemma WrittenIsRenamed(g: Setup, s: State, s1: State, j: nat, n: string)
    requires Possible(s, Begins(j, n)) && HasWritten(g, Next(g, s, Begins(j, n)), s1, j)
    ensures Possible(s1, Continues(j)) && HasPlaced(s, Next(g, s1, Continues(j)), j, n) && Inv(g, Next(g, s1, Continues(j)))
  {
    RenamePlaces(g, s, s1, j, n);
    ContinueKeeps(g, s1, j);
  }

  /** The first run has published. */
  lemma FirstPublishes(g: Setup) returns (run: seq<State>)
    ensures AnyRun(g, run)
    ensures var s := run[|run| - 1];
            && Inv(g, s) && s.jobs.Keys == {0} && s.jobs[0].stage.Published? && s.instants.Keys == {"a"}
            && At(s.folder.live, Manifest("a")).Some? && TimeOf(s.folder, "a") < s.now
  {
    run := Places(g, [EMPTY], 0, "a");
    var s1 := run[|run| - 1];
    ContinueKeeps(g, s1, 0);
    run := Then(g, run, Continues(0));
    var s := run[|run| - 1];
    assert Has(s.folder, Manifest("a"), TimeOf(s.folder, "a"));
  }

  /** And the second has placed its manifest. */
  lemma TwoRuns(g: Setup) returns (run: seq<State>)
    ensures AnyRun(g, run)
    ensures var s := run[|run| - 1];
            && Inv(g, s) && 0 in s.jobs && s.jobs[0].stage.Published? && Listing(s.folder.live, ["a", "b"])
            && At(s.folder.disk, Manifest("b")).None? && TimeOf(s.folder, "a") < TimeOf(s.folder, "b")
  {
    run := FirstPublishes(g);
    run := Places(g, run, 1, "b");
    var s := run[|run| - 1];
    ListsTwo(g, s);
  }

  lemma ListsTwo(g: Setup, s: State)
    requires Inv(g, s) && s.instants.Keys == {"a", "b"}
    requires At(s.folder.live, Manifest("a")).Some? && At(s.folder.live, Manifest("b")).Some?
    ensures Listing(s.folder.live, ["a", "b"])
  {
    forall n ensures n in ["a", "b"] <==> Manifest(n) in s.folder.live {
      if Manifest(n) in s.folder.live {
        assert At(s.folder.live, Manifest(n)).Some? && Manifest(n).name == n;
        assert n in s.instants.Keys;
      }
    }
    assert ["a", "b"][0] == "a" && ["a", "b"][1] == "b" && "a"[0] != "b"[0];
  }

  /**
   Two runs that overlap, with one archive to be kept: the first counts the second's manifest, which is not on disk,
   prunes its own archive, and the power fails.  The archive then picked does not restore.
   */
  lemma OverlappingRunsCanLoseAll(g: Setup) returns (run: seq<State>)
    requires g.retention <= 1
    ensures AnyRun(g, run) && !LatestIsGood(g, run[|run| - 1])
  {
    run := TwoRuns(g);
    var s, listing := run[|run| - 1], ["a", "b"];
    ManifestTimesDiffer(s.folder, s.now);
    NewestFirstFacts(s.folder.live, listing);
    var newest := NewestFirst(s.folder.live, listing);
    assert listing[0] == "a" && "a" in newest && "b" in newest && newest[0] in newest && newest[1] in newest;
    assert newest[0] == "b";
    assert Targets(g, s.folder.live, listing) == newest[1..];
    var later := UnguardedFails(g, s, 0, listing);
    run := Then(g, run, Lists(0, listing));
    run := Joined(g, run, later);
  }

  lemma Joined(g: Setup, run: seq<State>, later: seq<State>) returns (longer: seq<State>)
    requires AnyRun(g, run) && GuardedRun(g, run[|run| - 1], later)
    ensures AnyRun(g, longer) && longer[|longer| - 1] == later[|later| - 1]
  {
    longer := run + later[1..];
    forall k | 0 <= k < |longer| - 1 ensures SucceedsAnyhow(g, longer[k], longer[k + 1]) {
      if k < |run| - 1 {
        assert SucceedsAnyhow(g, run[k], run[k + 1]);
      } else {
        var i := k - (|run| - 1);
        assert SucceedsGuarded(g, later[i], later[i + 1]);
        assert longer[k] == later[i] && longer[k + 1] == later[i + 1];
      }
    }
  }
}
