/**
 The write request, the stored record and the identity that makes retries idempotent
 (memorybridge/models.py).  SHA-256 and uuid5 are parameters; where an argument needs
 them not to collide the lemma says on which texts.  Times are integers.
 */
module Records {
  import opened Basics

  datatype Hashes = Hashes(uuid5: string -> string, sha256: string -> string)

  /** What is asked of a hash: these two texts do not collide. */
  predicate NoClash(hash: string -> string, s: string, t: string) {
    hash(s) == hash(t) ==> s == t
  }

  datatype MemoryPut = MemoryPut(
    content: string,
    sourceAgent: string,
    sourceDevice: Option<string>,
    sessionId: Option<string>,
    role: string,
    project: Option<string>,
    metadata: map<string, string>,
    idempotencyKey: Option<string>,
    createdAt: Option<int>)
  {
    /** An empty key is as good as none: the source tests its truth value. */
    predicate Keyed() {
      idempotencyKey.Some? && idempotencyKey.value != ""
    }

    /** What the request model lets through. */
    predicate InBounds() {
      && content != "" && 1 <= |sourceAgent| <= MAX_AGENT && |sourceDevice.GetOr("")| <= MAX_DEVICE
      && |sessionId.GetOr("")| <= MAX_SESSION && |project.GetOr("")| <= MAX_PROJECT && |idempotencyKey.GetOr("")| <= MAX_KEY
    }
  }

  const MAX_AGENT := 80
  const MAX_DEVICE := 160
  const MAX_SESSION := 256
  const MAX_PROJECT := 256
  const MAX_KEY := 512

  const SEPARATOR: char := '\U{1F}'

  /** The four identity fields joined by the unit separator. */
  function Material(p: MemoryPut): string
    requires p.Keyed()
  {
    p.sourceAgent + [SEPARATOR] +
    (p.sourceDevice.GetOr("") + [SEPARATOR] +
    (p.sessionId.GetOr("") + [SEPARATOR] + p.idempotencyKey.value))
  }

  /** `nonce` is the fresh uuid4 that a request without a key receives. */
  function DeterministicId(h: Hashes, p: MemoryPut, nonce: string): string {
    if p.Keyed() then h.uuid5(ID_PREFIX + Material(p)) else nonce
  }

  /** A request without a key is its nonce; otherwise the id hashes the four fields, joined. */
  lemma IdIs(h: Hashes, p: MemoryPut, nonce: string)
    ensures DeterministicId(h, p, nonce)
            == if p.idempotencyKey.None? || p.idempotencyKey.value == "" then nonce
               else h.uuid5("memorybridge:" + p.sourceAgent + [SEPARATOR] + p.sourceDevice.GetOr("") + [SEPARATOR]
                            + p.sessionId.GetOr("") + [SEPARATOR] + p.idempotencyKey.value)
  {
    if p.Keyed() {
      assert ID_PREFIX + Material(p)
          == "memorybridge:" + p.sourceAgent + [SEPARATOR] + p.sourceDevice.GetOr("") + [SEPARATOR]
             + p.sessionId.GetOr("") + [SEPARATOR] + p.idempotencyKey.value;
    }
  }

  predicate SameIdentity(p: MemoryPut, q: MemoryPut)
    requires p.Keyed() && q.Keyed()
  {
    && p.sourceAgent == q.sourceAgent
    && p.sourceDevice.GetOr("") == q.sourceDevice.GetOr("")
    && p.sessionId.GetOr("") == q.sessionId.GetOr("")
    && p.idempotencyKey == q.idempotencyKey
  }

  /** No separator in the fields that precede the key. */
  predicate Separable(p: MemoryPut) {
    && SEPARATOR !in p.sourceAgent
    && SEPARATOR !in p.sourceDevice.GetOr("")
    && SEPARATOR !in p.sessionId.GetOr("")
  }

  const ID_PREFIX := "memorybridge:"

  lemma MaterialIdentifies(p: MemoryPut, q: MemoryPut)
    requires p.Keyed() && q.Keyed() && Separable(p) && Separable(q)
    ensures Material(p) == Material(q) <==> SameIdentity(p, q)
  {
    if Material(p) == Material(q) {
      SplitAt(SEPARATOR, p.sourceAgent,
        p.sourceDevice.GetOr("") + [SEPARATOR] + (p.sessionId.GetOr("") + [SEPARATOR] + p.idempotencyKey.value),
        q.sourceAgent,
        q.sourceDevice.GetOr("") + [SEPARATOR] + (q.sessionId.GetOr("") + [SEPARATOR] + q.idempotencyKey.value));
      SplitAt(SEPARATOR,
        p.sourceDevice.GetOr(""), p.sessionId.GetOr("") + [SEPARATOR] + p.idempotencyKey.value,
        q.sourceDevice.GetOr(""), q.sessionId.GetOr("") + [SEPARATOR] + q.idempotencyKey.value);
      SplitAt(SEPARATOR, p.sessionId.GetOr(""), p.idempotencyKey.value, q.sessionId.GetOr(""), q.idempotencyKey.value);
    }
  }

  /** Equal ids mean equal identity, so a stored record can only answer its own retries. */
  lemma IdIdentifies(h: Hashes, p: MemoryPut, q: MemoryPut, n1: string, n2: string)
    requires p.Keyed() && q.Keyed() && Separable(p) && Separable(q)
    requires NoClash(h.uuid5, ID_PREFIX + Material(p), ID_PREFIX + Material(q))
    ensures DeterministicId(h, p, n1) == DeterministicId(h, q, n2) <==> SameIdentity(p, q)
  {
    SameNameSameMaterial(p, q);
    MaterialIdentifies(p, q);
  }

  lemma SameNameSameMaterial(p: MemoryPut, q: MemoryPut)
    requires p.Keyed() && q.Keyed()
    ensures ID_PREFIX + Material(p) == ID_PREFIX + Material(q) <==> Material(p) == Material(q)
  {
    if ID_PREFIX + Material(p) == ID_PREFIX + Material(q) {
      assert Material(p) == (ID_PREFIX + Material(p))[|ID_PREFIX|..];
      assert Material(q) == (ID_PREFIX + Material(q))[|ID_PREFIX|..];
    }
  }

  // ---- exactly which requests their id identifies --------------------------------------------------

  /** The text before the first separator. */
  function Front(s: string): (r: string)
    ensures |r| <= |s| && r == s[..|r|] && SEPARATOR !in r
    ensures |r| < |s| ==> s[|r|] == SEPARATOR
  {
    if s == "" || s[0] == SEPARATOR then "" else [s[0]] + Front(s[1..])
  }

  /** The text behind it. */
  function Behind(s: string): string {
    if |Front(s)| < |s| then s[|Front(s)| + 1..] else ""
  }

  /** Splitting at the first separator leaves at least what follows any separator. */
  lemma FirstSplit(x: string, y: string) returns (w: string)
    ensures var s := x + [SEPARATOR] + y;
            s == Front(s) + [SEPARATOR] + Behind(s) && SEPARATOR !in Front(s) && Behind(s) == w + y
  {
    var s := x + [SEPARATOR] + y;
    var n := |Front(s)|;
    assert s[|x|] == SEPARATOR;
    forall i | 0 <= i < n ensures s[i] != SEPARATOR {
      assert Front(s)[i] == s[i] && Front(s)[i] in Front(s);
    }
    assert s[|x| + 1..] == y;
    w := s[n + 1..|x| + 1];
    assert s[n + 1..] == w + s[|x| + 1..];
  }

  /** The request with the same material whose fields end at the first three separators. */
  function Twin(p: MemoryPut): MemoryPut
    requires p.Keyed()
  {
    var m := Material(p);
    p.(sourceAgent := Front(m), sourceDevice := Some(Front(Behind(m))), sessionId := Some(Front(Behind(Behind(m)))),
       idempotencyKey := Some(Behind(Behind(Behind(m)))))
  }

  lemma TwinIsSeparable(p: MemoryPut)
    requires p.Keyed()
    ensures Twin(p).Keyed() && Separable(Twin(p)) && Material(Twin(p)) == Material(p)
  {
    var k := p.idempotencyKey.value;
    var d := p.sessionId.GetOr("") + [SEPARATOR] + k;
    var m := Material(p);
    assert m == p.sourceAgent + [SEPARATOR] + (p.sourceDevice.GetOr("") + [SEPARATOR] + d);
    var w1 := FirstSplit(p.sourceAgent, p.sourceDevice.GetOr("") + [SEPARATOR] + d);
    var t1 := Behind(m);
    assert t1 == w1 + p.sourceDevice.GetOr("") + [SEPARATOR] + d;
    var w2 := FirstSplit(w1 + p.sourceDevice.GetOr(""), d);
    var t2 := Behind(t1);
    assert t2 == w2 + p.sessionId.GetOr("") + [SEPARATOR] + k;
    var w3 := FirstSplit(w2 + p.sessionId.GetOr(""), k);
    assert m == Front(m) + [SEPARATOR] + t1 && t1 == Front(t1) + [SEPARATOR] + t2 && t2 == Front(t2) + [SEPARATOR] + Behind(t2);
  }

  /** The two ids are the same, and not because uuid5 collides. */
  predicate SameIdApart(h: Hashes, q: MemoryPut, p: MemoryPut)
    requires q.Keyed() && p.Keyed()
  {
    DeterministicId(h, q, "") == DeterministicId(h, p, "") && NoClash(h.uuid5, ID_PREFIX + Material(q), ID_PREFIX + Material(p))
  }

  lemma SameIdSameMaterial(h: Hashes, q: MemoryPut, p: MemoryPut)
    requires q.Keyed() && p.Keyed()
    ensures SameIdApart(h, q, p) <==> Material(q) == Material(p)
  {
    SameNameSameMaterial(q, p);
  }

  /** Short of a collision of uuid5, every valid separable request with the id of `p` is `p` again. */
  ghost predicate IdentifiedAmongSeparable(h: Hashes, p: MemoryPut)
    requires p.Keyed()
  {
    forall q: MemoryPut ::
      q.Keyed() && q.InBounds() && Separable(q) && SameIdApart(h, q, p) ==> SameIdentity(p, q)
  }

  /** That is so exactly if `p` is separable, or its twin has no agent or too long a key. */
  lemma IdentifiedAmongSeparableExactly(h: Hashes, p: MemoryPut)
    requires p.Keyed() && p.InBounds()
    ensures IdentifiedAmongSeparable(h, p) <==> Separable(p) || !Twin(p).InBounds()
  {
    var twin := Twin(p);
    TwinIsSeparable(p);
    forall q: MemoryPut | q.Keyed() && q.InBounds() && Separable(q) && SameIdApart(h, q, p)
      ensures SameIdentity(twin, q) && twin.InBounds()
    {
      SameIdSameMaterial(h, q, p);
      MaterialIdentifies(twin, q);
    }
    SameIdSameMaterial(h, twin, p);
    if Separable(p) {
      MaterialIdentifies(twin, p);
    }
  }

  // ---- and among all valid requests ----------------------------------------------------------------

  /** With separators at these places the text is the material of a valid request. */
  predicate ReadsAs(m: string, i: nat, j: nat, k: nat) {
    && i < j < k < |m| && m[i] == m[j] == m[k] == SEPARATOR
    && 1 <= i <= 80 && j - i - 1 <= 160 && k - j - 1 <= 256 && 1 <= |m| - k - 1 <= 512
  }

  ghost predicate OneReading(m: string) {
    forall i: nat, j: nat, k: nat, i': nat, j': nat, k': nat ::
      ReadsAs(m, i, j, k) && ReadsAs(m, i', j', k') ==> i == i' && j == j' && k == k'
  }

  function Request(p: MemoryPut, m: string, i: nat, j: nat, k: nat): MemoryPut
    requires ReadsAs(m, i, j, k)
  {
    p.(sourceAgent := m[..i], sourceDevice := Some(m[i + 1..j]), sessionId := Some(m[j + 1..k]),
       idempotencyKey := Some(m[k + 1..]))
  }

  lemma RequestReads(p: MemoryPut, m: string, i: nat, j: nat, k: nat)
    requires ReadsAs(m, i, j, k) && p.InBounds()
    ensures var q := Request(p, m, i, j, k); q.Keyed() && q.InBounds() && Material(q) == m
  {
    assert m[j + 1..] == m[j + 1..k] + [SEPARATOR] + m[k + 1..];
    assert m[i + 1..] == m[i + 1..j] + [SEPARATOR] + m[j + 1..];
    assert m == m[..i] + [SEPARATOR] + m[i + 1..];
  }

  /** Where the fields of a request end in its material. */
  function FieldEnds(p: MemoryPut): (nat, nat, nat) {
    var i := |p.sourceAgent|;
    var j := i + 1 + |p.sourceDevice.GetOr("")|;
    (i, j, j + 1 + |p.sessionId.GetOr("")|)
  }

  lemma MaterialReads(p: MemoryPut)
    requires p.Keyed() && p.InBounds()
    ensures var (i, j, k) := FieldEnds(p); var m := Material(p);
            && ReadsAs(m, i, j, k) && m[..i] == p.sourceAgent && m[i + 1..j] == p.sourceDevice.GetOr("")
            && m[j + 1..k] == p.sessionId.GetOr("") && m[k + 1..] == p.idempotencyKey.value
  {
    var (i, j, k) := FieldEnds(p);
    var m := Material(p);
    var d := p.sessionId.GetOr("") + [SEPARATOR] + p.idempotencyKey.value;
    var c := p.sourceDevice.GetOr("") + [SEPARATOR] + d;
    assert m == p.sourceAgent + [SEPARATOR] + c;
    assert m[i + 1..] == c && c[j - i..] == d;
    assert m[j + 1..] == d;
  }

  /** Short of a collision of uuid5, every valid request with the id of `p` is `p` again. */
  ghost predicate Identified(h: Hashes, p: MemoryPut)
    requires p.Keyed()
  {
    forall q: MemoryPut :: q.Keyed() && q.InBounds() && SameIdApart(h, q, p) ==> SameIdentity(p, q)
  }

  lemma SameEndsSameIdentity(p: MemoryPut, q: MemoryPut)
    requires p.Keyed() && p.InBounds() && q.Keyed() && q.InBounds() && Material(p) == Material(q)
    ensures SameIdentity(p, q) <==> FieldEnds(p) == FieldEnds(q)
  {
    MaterialReads(p);
    MaterialReads(q);
  }

  /** A valid request is identified by its id exactly if no other choice of three separators in its material is valid. */
  lemma IdentifiedExactly(h: Hashes, p: MemoryPut)
    requires p.Keyed() && p.InBounds()
    ensures Identified(h, p) <==> OneReading(Material(p))
  {
    var m := Material(p);
    MaterialReads(p);
    if OneReading(m) {
      forall q: MemoryPut | q.Keyed() && q.InBounds() && SameIdApart(h, q, p) ensures SameIdentity(p, q) {
        SameIdSameMaterial(h, q, p);
        MaterialReads(q);
        SameEndsSameIdentity(p, q);
      }
    }
    if Identified(h, p) {
      forall i: nat, j: nat, k: nat | ReadsAs(m, i, j, k) ensures (i, j, k) == FieldEnds(p) {
        OneReadingIfIdentified(h, p, i, j, k);
      }
    }
  }

  lemma OneReadingIfIdentified(h: Hashes, p: MemoryPut, i: nat, j: nat, k: nat)
    requires p.Keyed() && p.InBounds() && Identified(h, p) && ReadsAs(Material(p), i, j, k)
    ensures (i, j, k) == FieldEnds(p)
  {
    var q := Request(p, Material(p), i, j, k);
    RequestReads(p, Material(p), i, j, k);
    SameIdSameMaterial(h, q, p);
    SameEndsSameIdentity(p, q);
  }

  /** So a valid request without separators in its agent, device, session and key is. */
  lemma PlainIsIdentified(h: Hashes, p: MemoryPut)
    requires p.Keyed() && p.InBounds() && Separable(p) && SEPARATOR !in p.idempotencyKey.value
    ensures Identified(h, p)
  {
    MaterialReads(p);
    forall x: nat | x < |Material(p)|
      ensures Material(p)[x] != SEPARATOR || x == FieldEnds(p).0 || x == FieldEnds(p).1 || x == FieldEnds(p).2
    {
      SeparatorsOnly(p, x);
    }
    IdentifiedExactly(h, p);
  }

  lemma NotInSlice(m: string, low: nat, high: nat, x: nat)
    requires low <= x < high <= |m| && SEPARATOR !in m[low..high]
    ensures m[x] != SEPARATOR
  {
    assert m[low..high][x - low] == m[x];
  }

  lemma SeparatorsOnly(p: MemoryPut, x: nat)
    requires p.Keyed() && p.InBounds() && Separable(p) && SEPARATOR !in p.idempotencyKey.value && x < |Material(p)|
    ensures var (a, b, c) := FieldEnds(p); Material(p)[x] != SEPARATOR || x == a || x == b || x == c
  {
    var (a, b, c) := FieldEnds(p);
    var m := Material(p);
    MaterialReads(p);
    if x < a {
      NotInSlice(m, 0, a, x);
    } else if a < x < b {
      NotInSlice(m, a + 1, b, x);
    } else if b < x < c {
      NotInSlice(m, b + 1, c, x);
    } else if c < x {
      assert m[c + 1..] == m[c + 1..|m|];
      NotInSlice(m, c + 1, |m|, x);
    }
  }

  /** A concrete pair: two different keys share one id, whatever uuid5 is. */
  lemma IdsCanCollide(h: Hashes, nonce: string) returns (p: MemoryPut, q: MemoryPut)
    ensures p.Keyed() && q.Keyed() && !SameIdentity(p, q) && p.idempotencyKey != q.idempotencyKey
    ensures DeterministicId(h, p, nonce) == DeterministicId(h, q, nonce)
  {
    p := MemoryPut("x", "codex", None, Some("s" + [SEPARATOR]), "user", None, map[], Some("k"), None);
    q := p.(sessionId := Some("s"), idempotencyKey := Some([SEPARATOR] + "k"));
    assert "s" + [SEPARATOR] + [SEPARATOR] + "k" == "s" + [SEPARATOR] + ([SEPARATOR] + "k");
    assert Material(p) == Material(q);
  }

  datatype IndexStatus = Pending | Indexed(at: int, model: string, collection: string)

  /** The part of the stored payload that is written once.  The idempotency key itself is not stored. */
  datatype Core = Core(
    serial: int,
    content: string,
    sourceAgent: string,
    sourceDevice: Option<string>,
    sessionId: Option<string>,
    role: string,
    project: Option<string>,
    metadata: map<string, string>,
    createdAt: int,
    updatedAt: int,
    contentHash: string)

  /** A raw point: the written-once part and the index fields, which the worker fills in later. */
  datatype MemoryRecord = MemoryRecord(core: Core, index: IndexStatus) {
    function Serial(): int {
      core.serial
    }
  }

  function FromPut(h: Hashes, p: MemoryPut, serial: int, now: int): MemoryRecord {
    MemoryRecord(
      Core(serial, p.content, p.sourceAgent, p.sourceDevice, p.sessionId, p.role, p.project, p.metadata,
           p.createdAt.GetOr(now), now, h.sha256(p.content)),
      Pending)
  }

  /** Field by field, the written-once part is that of a request that was stored at `now`. */
  predicate Carries(h: Hashes, c: Core, p: MemoryPut, now: int) {
    && c.content == p.content && c.contentHash == h.sha256(p.content)
    && c.sourceAgent == p.sourceAgent && c.sourceDevice == p.sourceDevice && c.sessionId == p.sessionId
    && c.role == p.role && c.project == p.project && c.metadata == p.metadata
    && c.createdAt == (if p.createdAt.Some? then p.createdAt.value else now) && c.updatedAt == now
  }

  function NextTimeNs(last: int, clock: int): int {
    Max(clock, last + 1)
  }
}
