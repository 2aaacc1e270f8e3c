/**
 `LocalSpool` and the delivery loop of `sync_once` (memorybridge/spool.py), as one process sees its
 files.  What the outside decides is a parameter: the order in which a directory is listed, which pushes
 the server accepts, and the fresh uuid4 a clashing quarantine name receives.
 */
module LocalSpoolFiles {
  import opened Basics
  import opened Records
  import opened Sorting

  /** What reading and validating a spool file yields. */
  datatype Content =
    | Parsed(memory: MemoryPut)
    | TranscriptJob(job: Job)
    | Malformed(text: string)   // decodable, but not valid
    | Undecodable               // not UTF-8
    | Unreadable                // the read raises OSError

  /** A field that should be a string or absent; anything else the job file may hold is not text. */
  datatype JsonText = Missing | Given(text: string) | NotText {
    function Shown(): string {
      if Given? then text else ""
    }

    function AsOption(): Option<string> {
      if Given? then Some(text) else None
    }
  }

  datatype Job = Job(agent: string, path: string, session: JsonText, device: JsonText)

  /** A transcript: absent, present but failing to read, or its decoded text and file name. */
  datatype Source = Absent | Failing | Text(text: string, fileName: string)

  datatype File = File(content: Content, mtime: int)

  type Files = map<string, File>

  datatype Dirs = Dirs(pending: Files, sent: Files, failed: Files, jobs: Files)

  datatype Outside = Outside(
    list: set<string> -> seq<string>,
    accepts: string -> bool,
    nonce: string -> string,
    source: string -> Source,
    now: int)

  const KEEP_RECEIPTS := 1000

  ghost predicate Lists(o: Outside) {
    forall names: set<string> :: Distinct(o.list(names)) && forall n :: n in o.list(names) <==> n in names
  }

  function Age(files: Files, name: string): int {
    if name in files then files[name].mtime else 0
  }

  function OldestFirst(files: Files, o: Outside): seq<string> {
    Sort(o.list(files.Keys), (a, b) => Age(files, a) <= Age(files, b))
  }

  function NewestFirst(files: Files, o: Outside): seq<string> {
    Sort(o.list(files.Keys), (a, b) => Age(files, b) <= Age(files, a))
  }

  function Elements(s: seq<string>): set<string> {
    set n | n in s
  }

  /** The receipts that survive `mark_sent`: the newest thousand. */
  function Retained(sent: Files, o: Outside): Files {
    var order := NewestFirst(sent, o);
    if |order| <= KEEP_RECEIPTS then sent else sent - Elements(order[KEEP_RECEIPTS..])
  }

  function Deliver(d: Dirs, name: string, o: Outside): Dirs
    requires name in d.pending
  {
    d.(pending := d.pending - {name}, sent := Retained(d.sent[name := d.pending[name]], o))
  }

  function QuarantineName(failed: Files, prefix: string, name: string, nonce: string): string {
    var plain := prefix + "-" + name;
    if plain in failed then prefix + "-" + nonce + "-" + name else plain
  }

  function Condemn(d: Dirs, name: string, o: Outside): Dirs
    requires name in d.pending
  {
    d.(pending := d.pending - {name},
       failed := d.failed[QuarantineName(d.failed, "memory", name, o.nonce(name)) := d.pending[name]])
  }

  /** The result of a pass; `pushed` is history. */
  datatype Pass = Pass(dirs: Dirs, sent: nat, failed: nat, quarantined: nat, raised: bool, pushed: seq<string>)

  function ContentOf(files: Files, name: string): Content {
    if name in files then files[name].content else Unreadable
  }

  /** Decodable, but not what the directory holds. */
  predicate Bad(c: Content) {
    c.Malformed? || c.TranscriptJob?
  }

  /** A queued file that ends the pass, given the pending directory at its start. */
  predicate Stops(pending: Files, name: string, o: Outside) {
    var c := ContentOf(pending, name);
    c.Unreadable? || c.Undecodable? || (c.Parsed? && !o.accepts(name))
  }

  function Processed(d: Dirs, name: string, o: Outside): Dirs
    requires name in d.pending
  {
    if Bad(d.pending[name].content) then Condemn(d, name, o) else Deliver(d, name, o)
  }

  /** The delivery loop: one pass over the queue. */
  function Drain(d: Dirs, queue: seq<string>, o: Outside): Pass
    decreases |queue|
  {
    if queue == [] then Pass(d, 0, 0, 0, false, [])
    else if Stops(d.pending, queue[0], o) then
      if ContentOf(d.pending, queue[0]).Undecodable? then Pass(d, 0, 0, 0, true, []) else Pass(d, 0, 1, 0, false, [])
    else
      var rest := Drain(Processed(d, queue[0], o), queue[1..], o);
      if Bad(d.pending[queue[0]].content) then rest.(quarantined := rest.quarantined + 1)
      else rest.(sent := rest.sent + 1, pushed := [queue[0]] + rest.pushed)
  }

  /** How many queued files are processed: all before the first that stops the pass. */
  function Reach(pending: Files, queue: seq<string>, o: Outside): (k: nat)
    ensures k <= |queue|
    ensures forall i :: 0 <= i < k ==> !Stops(pending, queue[i], o)
    ensures k < |queue| ==> Stops(pending, queue[k], o)
  {
    if queue == [] || Stops(pending, queue[0], o) then 0 else 1 + Reach(pending, queue[1..], o)
  }

  function Valid(pending: Files, queue: seq<string>): seq<string> {
    if queue == [] then []
    else (if ContentOf(pending, queue[0]).Parsed? then [queue[0]] else []) + Valid(pending, queue[1..])
  }

  lemma {:induction false} SameQueue(p: Files, q: Files, queue: seq<string>, o: Outside)
    requires forall n :: n in queue ==> ContentOf(p, n) == ContentOf(q, n)
    ensures Reach(p, queue, o) == Reach(q, queue, o)
    ensures forall k :: 0 <= k <= |queue| ==> Valid(p, queue[..k]) == Valid(q, queue[..k])
  {
    if queue != [] {
      assert queue[0] in queue;
      SameQueue(p, q, queue[1..], o);
      forall k | 0 <= k <= |queue| ensures Valid(p, queue[..k]) == Valid(q, queue[..k]) {
        if k > 0 {
          assert queue[..k][1..] == queue[1..][..k - 1];
        }
      }
    }
  }

  /**
   The pass pushed exactly the valid files among the processed prefix, in queue order; malformed files did
   not stop it; it stopped only at an unreadable, undecodable or refused file, which stays where it is.
   */
  ghost predicate IsPrefixPass(pending: Files, queue: seq<string>, p: Pass, o: Outside) {
    var k := Reach(pending, queue, o);
    && p.pushed == Valid(pending, queue[..k])
    && p.dirs.pending == pending - Elements(queue[..k])
    && p.sent == |p.pushed| && p.sent + p.quarantined == k
    && p.failed + (if p.raised then 1 else 0) == (if k < |queue| then 1 else 0)
    && (p.raised <==> k < |queue| && ContentOf(pending, queue[k]).Undecodable?)
  }

  lemma {:induction false} DrainIsPrefix(d: Dirs, queue: seq<string>, o: Outside)
    requires Distinct(queue)
    ensures IsPrefixPass(d.pending, queue, Drain(d, queue, o), o)
    decreases |queue|
  {
    if queue == [] || Stops(d.pending, queue[0], o) {
      assert Elements(queue[..0]) == {};
    } else {
      var next, tail := Processed(d, queue[0], o), queue[1..];
      DrainIsPrefix(next, tail, o);
      PrefixPassExtends(d.pending, next.pending, queue, Drain(next, tail, o), Drain(d, queue, o), o);
    }
  }

  lemma PrefixPassExtends(p: Files, p': Files, queue: seq<string>, rest: Pass, whole: Pass, o: Outside)
    requires Distinct(queue) && queue != [] && !Stops(p, queue[0], o) && p' == p - {queue[0]}
    requires IsPrefixPass(p', queue[1..], rest, o)
    requires whole.dirs == rest.dirs && whole.failed == rest.failed && whole.raised == rest.raised
    requires if Bad(ContentOf(p, queue[0]))
             then whole.pushed == rest.pushed && whole.sent == rest.sent && whole.quarantined == rest.quarantined + 1
             else whole.pushed == [queue[0]] + rest.pushed && whole.sent == rest.sent + 1
                  && whole.quarantined == rest.quarantined
    ensures IsPrefixPass(p, queue, whole, o)
  {
    TailSeesSame(p, p', queue, o);
  }

  /** Taking the head of the queue out of pending changes nothing for the rest of the queue. */
  lemma {:induction false} TailSeesSame(p: Files, p': Files, queue: seq<string>, o: Outside)
    requires Distinct(queue) && queue != [] && !Stops(p, queue[0], o) && p' == p - {queue[0]}
    ensures var k, j := Reach(p, queue, o), Reach(p', queue[1..], o);
            && k == j + 1
            && Valid(p, queue[..k]) == Valid(p, [queue[0]]) + Valid(p', queue[1..][..j])
            && p - Elements(queue[..k]) == p' - Elements(queue[1..][..j])
            && (k < |queue| ==> ContentOf(p, queue[k]) == ContentOf(p', queue[1..][j]))
  {
    var tail, k := queue[1..], Reach(p, queue, o);
    forall n | n in tail ensures ContentOf(p, n) == ContentOf(p', n) {
      assert n != queue[0];
    }
    SameQueue(p, p', tail, o);
    TailOfPrefix(queue, k);
    if k < |queue| {
      assert queue[k] == tail[k - 1] && tail[k - 1] in tail;
    }
  }

  lemma TailOfPrefix(queue: seq<string>, k: nat)
    requires 1 <= k <= |queue|
    ensures queue[..k][1..] == queue[1..][..k - 1]
    ensures Elements(queue[..k]) == {queue[0]} + Elements(queue[1..][..k - 1])
  {
  }

  /**
   Nonces are of one length, pairwise different, and unused in any quarantine name there is or that this
   queue could receive without one.
   */
  ghost predicate FreshNonces(prefix: string, failed: Files, queue: seq<string>, o: Outside) {
    && (forall n, m :: n in queue && m in queue ==> |o.nonce(n)| == |o.nonce(m)|)
    && (forall n, m :: n in queue && m in queue && n != m ==> o.nonce(n) != o.nonce(m))
    && (forall n, f :: n in queue && f in failed ==> !(prefix + "-" + o.nonce(n) <= f))
    && (forall n, m :: n in queue && m in queue ==> !(prefix + "-" + o.nonce(n) <= prefix + "-" + m))
  }

  /** Quarantining the head of the queue overwrites nothing. */
  lemma QuarantineIsFresh(prefix: string, failed: Files, queue: seq<string>, o: Outside, file: File)
    requires queue != [] && Distinct(queue) && FreshNonces(prefix, failed, queue, o)
    ensures var target := QuarantineName(failed, prefix, queue[0], o.nonce(queue[0]));
            target !in failed && FreshNonces(prefix, failed[target := file], queue[1..], o)
  {
    var name := queue[0];
    var target := QuarantineName(failed, prefix, name, o.nonce(name));
    assert name in queue;
    if prefix + "-" + name in failed {
      assert target == prefix + "-" + o.nonce(name) + ("-" + name);
      assert prefix + "-" + o.nonce(name) <= target;
    }
    forall n | n in queue[1..] ensures !(prefix + "-" + o.nonce(n) <= target) {
      assert n in queue && n != name;
      NonceIsElsewhere(prefix, failed, queue, o, n);
    }
  }

  lemma NonceIsElsewhere(prefix: string, failed: Files, queue: seq<string>, o: Outside, n: string)
    requires queue != [] && FreshNonces(prefix, failed, queue, o) && queue[0] in queue && n in queue && n != queue[0]
    ensures !(prefix + "-" + o.nonce(n) <= QuarantineName(failed, prefix, queue[0], o.nonce(queue[0])))
  {
    var name := queue[0];
    var target := QuarantineName(failed, prefix, name, o.nonce(name));
    if prefix + "-" + name in failed && prefix + "-" + o.nonce(n) <= target {
      assert target == prefix + "-" + o.nonce(name) + ("-" + name);
      PrefixClash(prefix + "-", o.nonce(n), o.nonce(name), target);
    }
  }

  lemma PrefixClash(prefix: string, a: string, b: string, target: string)
    requires |a| == |b| && prefix + a <= target && prefix + b <= target
    ensures a == b
  {
    assert target[..|prefix| + |a|] == prefix + a;
    assert target[..|prefix| + |b|] == prefix + b;
    assert (prefix + a)[|prefix|..] == a && (prefix + b)[|prefix|..] == b;
  }

  /** No name is both pending and delivered, as `put` and `mark_sent` leave it. */
  ghost predicate Disjoint(d: Dirs) {
    forall n :: n in d.pending ==> n !in d.sent
  }

  ghost predicate NoneOlder(files: Files, mtime: int) {
    forall n :: n in files ==> mtime <= files[n].mtime
  }

  /** A receipt that is gone was pruned: there are a full thousand, and none is older than it was. */
  ghost predicate Pruned(d: Dirs, d': Dirs, name: string, file: File) {
    name !in d'.sent && 1000 <= |d'.sent| && (Disjoint(d) ==> NoneOlder(d'.sent, file.mtime))
  }

  ghost predicate Receipted(d': Dirs, name: string, file: File) {
    name in d'.sent && d'.sent[name] == file
  }

  ghost predicate Quarantined(d: Dirs, d': Dirs, file: File) {
    Bad(file.content) && exists f :: f in d'.failed && f !in d.failed && d'.failed[f] == file
  }

  /** This pending file went into quarantine. */
  ghost predicate WasBad(d: Dirs, d': Dirs, pushed: seq<string>, name: string, file: File) {
    name in d.pending && name !in d'.pending && name !in pushed && d.pending[name] == file && Bad(file.content)
  }

  /** Quarantine only grows, by one malformed pending file for each of `quarantined`; nothing in it is overwritten. */
  ghost predicate QuarantineConserved(d: Dirs, d': Dirs, pushed: seq<string>, quarantined: nat) {
    && (forall f :: f in d.failed ==> f in d'.failed && d'.failed[f] == d.failed[f])
    && |d'.failed| == |d.failed| + quarantined
    && forall f :: f in d'.failed && f !in d.failed ==> exists n :: WasBad(d, d', pushed, n, d'.failed[f])
  }

  /** A file stays in pending as it was, or was pushed and is valid, or is malformed and sits in quarantine. */
  ghost predicate PendingConserved(d: Dirs, d': Dirs, pushed: seq<string>) {
    && (forall n :: n in d'.pending ==> n in d.pending && d'.pending[n] == d.pending[n])
    && (forall n :: n in pushed ==> n in d.pending && n !in d'.pending && d.pending[n].content.Parsed?)
    && forall n :: n in d.pending && n !in d'.pending && n !in pushed ==> Quarantined(d, d', d.pending[n])
  }

  /** A pushed file, and a receipt that was there, is in sent as it was, or pruned; nothing else is in sent. */
  ghost predicate ReceiptsConserved(d: Dirs, d': Dirs, pushed: seq<string>) {
    && (forall n :: n in pushed && n in d.pending ==> Receipted(d', n, d.pending[n]) || Pruned(d, d', n, d.pending[n]))
    && (forall n :: n in d.sent && n !in pushed ==> Receipted(d', n, d.sent[n]) || Pruned(d, d', n, d.sent[n]))
    && (forall n :: n in d'.sent ==> n in d.sent || n in pushed)
  }

  /** What later deliveries keep: names stay apart, a full thousand stays full, and its oldest only gets newer. */
  ghost predicate PruningIsFinal(d: Dirs, d': Dirs) {
    && (Disjoint(d) ==> Disjoint(d'))
    && (KEEP_RECEIPTS <= |d.sent| ==> KEEP_RECEIPTS <= |d'.sent|)
    && forall t :: Disjoint(d) && KEEP_RECEIPTS <= |d.sent| && NoneOlder(d.sent, t) ==> NoneOlder(d'.sent, t)
  }

  /** Conservation between two moments: every file is in exactly one place afterwards. */
  ghost predicate Conserved(d: Dirs, d': Dirs, pushed: seq<string>, quarantined: nat) {
    && QuarantineConserved(d, d', pushed, quarantined) && PendingConserved(d, d', pushed)
    && ReceiptsConserved(d, d', pushed) && PruningIsFinal(d, d')
  }

  lemma QuarantineTransitive(a: Dirs, b: Dirs, c: Dirs, s: seq<string>, t: seq<string>, k: nat, l: nat)
    requires Conserved(a, b, s, k) && Conserved(b, c, t, l)
    ensures QuarantineConserved(a, c, s + t, k + l)
  {
    forall f | f in c.failed && f !in a.failed ensures exists n :: WasBad(a, c, s + t, n, c.failed[f]) {
      if f in b.failed {
        var n :| WasBad(a, b, s, n, b.failed[f]);
        assert WasBad(a, c, s + t, n, c.failed[f]);
      } else {
        var n :| WasBad(b, c, t, n, c.failed[f]);
        assert WasBad(a, c, s + t, n, c.failed[f]);
      }
    }
  }

  lemma PendingTransitive(a: Dirs, b: Dirs, c: Dirs, s: seq<string>, t: seq<string>, k: nat, l: nat)
    requires Conserved(a, b, s, k) && Conserved(b, c, t, l)
    ensures PendingConserved(a, c, s + t)
  {
    forall n | n in a.pending && n !in c.pending && n !in s + t ensures Quarantined(a, c, a.pending[n]) {
      if n in b.pending {
        var f :| f in c.failed && f !in b.failed && c.failed[f] == b.pending[n];
        assert f !in a.failed;
      } else {
        var f :| f in b.failed && f !in a.failed && b.failed[f] == a.pending[n];
        assert f in c.failed && c.failed[f] == a.pending[n];
      }
    }
  }

  lemma PrunedLater(a: Dirs, b: Dirs, c: Dirs, t: seq<string>, l: nat, name: string, file: File)
    requires PruningIsFinal(a, b) && Conserved(b, c, t, l) && name !in t
    requires Pruned(a, b, name, file) || (Receipted(b, name, file) && Pruned(b, c, name, file))
    ensures Pruned(a, c, name, file)
  {
  }

  lemma ReceiptsTransitive(a: Dirs, b: Dirs, c: Dirs, s: seq<string>, t: seq<string>, k: nat, l: nat)
    requires Conserved(a, b, s, k) && Conserved(b, c, t, l)
    ensures ReceiptsConserved(a, c, s + t)
  {
    forall n | n in s + t && n in a.pending ensures Receipted(c, n, a.pending[n]) || Pruned(a, c, n, a.pending[n]) {
      if n !in t {
        ReceiptStays(a, b, c, t, l, n, a.pending[n]);
      }
    }
    forall n | n in a.sent && n !in s + t ensures Receipted(c, n, a.sent[n]) || Pruned(a, c, n, a.sent[n]) {
      ReceiptStays(a, b, c, t, l, n, a.sent[n]);
    }
  }

  lemma ReceiptStays(a: Dirs, b: Dirs, c: Dirs, t: seq<string>, l: nat, n: string, file: File)
    requires PruningIsFinal(a, b) && Conserved(b, c, t, l) && n !in t
    requires Receipted(b, n, file) || Pruned(a, b, n, file)
    ensures Receipted(c, n, file) || Pruned(a, c, n, file)
  {
    if Pruned(a, b, n, file) || !Receipted(c, n, file) {
      PrunedLater(a, b, c, t, l, n, file);
    }
  }

  lemma ConservedTransitive(a: Dirs, b: Dirs, c: Dirs, s: seq<string>, t: seq<string>, k: nat, l: nat)
    requires Conserved(a, b, s, k) && Conserved(b, c, t, l)
    ensures Conserved(a, c, s + t, k + l)
  {
    QuarantineTransitive(a, b, c, s, t, k, l);
    PendingTransitive(a, b, c, s, t, k, l);
    ReceiptsTransitive(a, b, c, s, t, k, l);
  }

  lemma InsertedFresh(files: Files, name: string, file: File)
    requires name !in files
    ensures |files[name := file]| == |files| + 1
    ensures forall f :: f in files ==> f in files[name := file] && files[name := file][f] == files[f]
  {
    assert files[name := file].Keys == files.Keys + {name};
    assert |files[name := file]| == |files[name := file].Keys| && |files| == |files.Keys|;
  }

  lemma CondemnConserves(d: Dirs, name: string, o: Outside)
    requires name in d.pending && Bad(d.pending[name].content)
    requires QuarantineName(d.failed, "memory", name, o.nonce(name)) !in d.failed
    ensures Conserved(d, Condemn(d, name, o), [], 1)
  {
    var target, d' := QuarantineName(d.failed, "memory", name, o.nonce(name)), Condemn(d, name, o);
    InsertedFresh(d.failed, target, d.pending[name]);
    assert Quarantined(d, d', d.pending[name]) by {
      assert target in d'.failed && d'.failed[target] == d.pending[name];
    }
    assert WasBad(d, d', [], name, d'.failed[target]);
  }

  /** What `Retained` makes of the receipts when this one is added. */
  ghost predicate Delivered(sent: Files, name: string, file: File, r: Files) {
    && (forall n :: n in r ==> (n == name && r[n] == file) || (n != name && n in sent && r[n] == sent[n]))
    && (name !in r ==> |r| == KEEP_RECEIPTS && NoneOlder(r, file.mtime))
    && (forall n :: n in sent && n != name && n !in r ==> |r| == KEEP_RECEIPTS && NoneOlder(r, sent[n].mtime))
    && (KEEP_RECEIPTS <= |sent| ==> |r| == KEEP_RECEIPTS)
  }

  lemma DeliveredFrom(sent: Files, name: string, file: File, r: Files)
    requires NewestOf(sent[name := file], r)
    ensures Delivered(sent, name, file, r)
  {
    if name !in sent {
      InsertedFresh(sent, name, file);
    } else {
      assert sent[name := file].Keys == sent.Keys;
      assert |sent[name := file]| == |sent[name := file].Keys| && |sent| == |sent.Keys|;
    }
  }

  lemma DeliveredReceipts(sent: Files, name: string, file: File, o: Outside)
    requires Lists(o)
    ensures Delivered(sent, name, file, Retained(sent[name := file], o))
  {
    RetainedAreNewest(sent[name := file], o);
    DeliveredFrom(sent, name, file, Retained(sent[name := file], o));
  }

  /** A new receipt among a full thousand drops one that is no newer than any it keeps. */
  lemma OldestGetsNewer(sent: Files, name: string, file: File, o: Outside, t: int)
    requires Lists(o) && name !in sent && KEEP_RECEIPTS <= |sent| && NoneOlder(sent, t)
    ensures NoneOlder(Retained(sent[name := file], o), t)
  {
    var all, r := sent[name := file], Retained(sent[name := file], o);
    DeliveredReceipts(sent, name, file, o);
    InsertedFresh(sent, name, file);
    RetainedAreNewest(all, o);
    assert |all| == |all.Keys| && |r| == |r.Keys|;
    SomeoneMissing(all.Keys, r.Keys);
  }

  lemma SomeoneMissing(a: set<string>, b: set<string>)
    requires |b| < |a|
    ensures exists m :: m in a && m !in b
  {
    assert a == (a - b) + a * b && b == (b - a) + a * b;
    assert |a - b| > 0;
    var m :| m in a - b;
  }

  lemma DeliverIsFinal(d: Dirs, name: string, o: Outside)
    requires Lists(o) && name in d.pending
    ensures PruningIsFinal(d, Deliver(d, name, o))
  {
    var d' := Deliver(d, name, o);
    DeliveredReceipts(d.sent, name, d.pending[name], o);
    forall t | Disjoint(d) && KEEP_RECEIPTS <= |d.sent| && NoneOlder(d.sent, t) ensures NoneOlder(d'.sent, t) {
      OldestGetsNewer(d.sent, name, d.pending[name], o, t);
    }
  }

  lemma DeliverKeepsReceipts(d: Dirs, d': Dirs, name: string)
    requires name in d.pending && Delivered(d.sent, name, d.pending[name], d'.sent)
    ensures ReceiptsConserved(d, d', [name])
  {
  }

  lemma DeliverConserves(d: Dirs, name: string, o: Outside)
    requires Lists(o) && name in d.pending && d.pending[name].content.Parsed?
    ensures Conserved(d, Deliver(d, name, o), [name], 0)
  {
    DeliverIsFinal(d, name, o);
    DeliveredReceipts(d.sent, name, d.pending[name], o);
    DeliverKeepsReceipts(d, Deliver(d, name, o), name);
  }

  lemma ProcessedConserves(d: Dirs, queue: seq<string>, o: Outside)
    requires Lists(o) && queue != [] && Distinct(queue) && FreshNonces("memory", d.failed, queue, o)
    requires !Stops(d.pending, queue[0], o)
    ensures var bad := Bad(d.pending[queue[0]].content);
            Conserved(d, Processed(d, queue[0], o), if bad then [] else [queue[0]], if bad then 1 else 0)
    ensures FreshNonces("memory", Processed(d, queue[0], o).failed, queue[1..], o)
  {
    if Bad(d.pending[queue[0]].content) {
      QuarantineIsFresh("memory", d.failed, queue, o, d.pending[queue[0]]);
      CondemnConserves(d, queue[0], o);
    } else {
      DeliverConserves(d, queue[0], o);
      assert forall n :: n in queue[1..] ==> n in queue;
    }
  }

  lemma NothingConserves(d: Dirs)
    ensures Conserved(d, d, [], 0)
  {
  }

  /**
   A pass conserves every file: afterwards it is in pending, or pushed and in sent or pruned behind a thousand newer
   receipts, or malformed and in quarantine, and never in two of these.
   */
  lemma {:induction false} DrainConserves(d: Dirs, queue: seq<string>, o: Outside)
    requires Lists(o) && Distinct(queue) && FreshNonces("memory", d.failed, queue, o)
    ensures var p := Drain(d, queue, o); Conserved(d, p.dirs, p.pushed, p.quarantined)
    decreases |queue|
  {
    if queue == [] || Stops(d.pending, queue[0], o) {
      NothingConserves(d);
    } else {
      var next, head, bad := FirstIsProcessed(d, queue, o);
      DrainConserves(next, queue[1..], o);
      PassConserves(d, next, Drain(next, queue[1..], o), Drain(d, queue, o), head, bad);
    }
  }

  lemma FirstIsProcessed(d: Dirs, queue: seq<string>, o: Outside) returns (next: Dirs, head: seq<string>, bad: nat)
    requires Lists(o) && queue != [] && Distinct(queue) && FreshNonces("memory", d.failed, queue, o)
    requires !Stops(d.pending, queue[0], o)
    ensures Conserved(d, next, head, bad) && FreshNonces("memory", next.failed, queue[1..], o)
    ensures var (rest, whole) := (Drain(next, queue[1..], o), Drain(d, queue, o));
            whole.dirs == rest.dirs && whole.pushed == head + rest.pushed && whole.quarantined == bad + rest.quarantined
  {
    ProcessedConserves(d, queue, o);
    next := Processed(d, queue[0], o);
    if Bad(d.pending[queue[0]].content) {
      head, bad := [], 1;
    } else {
      head, bad := [queue[0]], 0;
    }
  }

  lemma PassConserves(d: Dirs, next: Dirs, rest: Pass, whole: Pass, head: seq<string>, quarantined: nat)
    requires Conserved(d, next, head, quarantined) && Conserved(next, rest.dirs, rest.pushed, rest.quarantined)
    requires whole.dirs == rest.dirs && whole.pushed == head + rest.pushed && whole.quarantined == quarantined + rest.quarantined
    ensures Conserved(d, whole.dirs, whole.pushed, whole.quarantined)
  {
    ConservedTransitive(d, next, rest.dirs, head, rest.pushed, quarantined, rest.quarantined);
  }

  /** With every push accepted and every file readable, one pass empties the queue, malformed files or not. */
  lemma {:induction false} HealthyPassDrains(d: Dirs, queue: seq<string>, o: Outside)
    requires Distinct(queue) && forall n :: n in queue ==> !Stops(d.pending, n, o)
    ensures var p := Drain(d, queue, o);
            p.pushed == Valid(d.pending, queue) && p.dirs.pending == d.pending - Elements(queue)
            && p.failed == 0 && !p.raised
  {
    DrainIsPrefix(d, queue, o);
    assert Reach(d.pending, queue, o) == |queue|;
    assert queue[..|queue|] == queue;
  }

  lemma ByAge(files: Files, o: Outside)
    requires Lists(o)
    ensures var q := OldestFirst(files, o);
            && Distinct(q) && (forall n :: n in q <==> n in files)
            && forall i, j :: 0 <= i < j < |q| ==> Age(files, q[i]) <= Age(files, q[j])
  {
    SortFacts(o.list(files.Keys), (a, b) => Age(files, a) <= Age(files, b));
  }

  /** A thousand receipts, or all if there are fewer, and none older than one that is left out. */
  ghost predicate NewestOf(sent: Files, r: Files) {
    && |r| == (if |sent| < 1000 then |sent| else 1000)
    && (forall n :: n in r ==> n in sent && r[n] == sent[n])
    && (|sent| <= 1000 ==> r == sent)
    && forall n, m :: n in r && m in sent && m !in r ==> sent[m].mtime <= sent[n].mtime
  }

  /** Pruning keeps at most a thousand receipts and never drops a newer one than it keeps. */
  lemma RetainedAreNewest(sent: Files, o: Outside)
    requires Lists(o)
    ensures NewestOf(sent, Retained(sent, o))
  {
    var order, leq := NewestFirst(sent, o), (a: string, b: string) => Age(sent, b) <= Age(sent, a);
    SortFacts(o.list(sent.Keys), leq);
    assert forall n :: n in order <==> n in sent.Keys;
    DistinctSize(order, sent.Keys);
    if |order| > KEEP_RECEIPTS {
      KeptArePrefix(sent, o, order);
      DistinctSize(order[..KEEP_RECEIPTS], Retained(sent, o).Keys);
      forall n, m | n in Retained(sent, o) && m in sent && m !in Retained(sent, o)
        ensures sent[m].mtime <= sent[n].mtime
      {
        KeptIsNewer(sent, order, n, m);
      }
    }
  }

  lemma KeptIsNewer(sent: Files, order: seq<string>, n: string, m: string)
    requires Sorted(order, (a, b) => Age(sent, b) <= Age(sent, a)) && KEEP_RECEIPTS < |order|
    requires n in sent && m in sent && n in order[..KEEP_RECEIPTS] && m in order[KEEP_RECEIPTS..]
    ensures sent[m].mtime <= sent[n].mtime
  {
    var leq := (a: string, b: string) => Age(sent, b) <= Age(sent, a);
    var i :| 0 <= i < KEEP_RECEIPTS && order[..KEEP_RECEIPTS][i] == n;
    var j :| 0 <= j < |order[KEEP_RECEIPTS..]| && order[KEEP_RECEIPTS..][j] == m;
    assert leq(order[i], order[KEEP_RECEIPTS + j]);
  }

  lemma KeptArePrefix(sent: Files, o: Outside, order: seq<string>)
    requires order == NewestFirst(sent, o) && |order| > KEEP_RECEIPTS && Distinct(order)
    requires forall n :: n in order <==> n in sent.Keys
    ensures Distinct(order[..KEEP_RECEIPTS])
    ensures forall n :: n in order[..KEEP_RECEIPTS] <==> n in Retained(sent, o).Keys
    ensures forall n :: n in sent && n !in Retained(sent, o) ==> n in order[KEEP_RECEIPTS..]
  {
    forall n ensures n in order[..KEEP_RECEIPTS] <==> n in sent.Keys && n !in order[KEEP_RECEIPTS..] {
      SplitDistinct(order, KEEP_RECEIPTS, n);
    }
  }

  lemma {:induction false} DistinctSize(s: seq<string>, names: set<string>)
    requires Distinct(s) && forall n :: n in s <==> n in names
    ensures |s| == |names|
  {
    if s == [] {
      assert names == {};
    } else {
      assert s == [s[0]] + s[1..];
      assert s[0] !in s[1..];
      DistinctSize(s[1..], names - {s[0]});
    }
  }
}
