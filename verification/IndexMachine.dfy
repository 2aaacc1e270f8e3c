/**
 The derived vector index (`index_pending` in memorybridge/service.py, `fallback_generation` in
 memorybridge/config.py) beside the server's own steps.  Any number of indexing passes may be under way, for the
 same or for different embedding models; each may stop anywhere, and every call may fail with or without effect.
 */
module IndexMachine {
  import opened Basics
  import opened Records
  import opened ServerMachine
  import opened Json
  import Runs

  /** An embedding, by what it is an embedding of; its components are not looked at. */
  datatype Vector = Vector(model: string, text: string, dim: nat)

  datatype VectorPoint = VectorPoint(vector: Vector, record: MemoryRecord)

  /** A vector collection takes vectors of one dimension. */
  datatype Generation = Generation(dim: nat, points: map<string, VectorPoint>)

  type Vectors = map<string, Generation>

  datatype Job = Job(id: string, record: MemoryRecord)

  datatype At =
    | Waiting
    | Ensuring(vector: Vector)
    | Upserting(vector: Vector, at: int)
    | Marking(vector: Vector, at: int)

  /** A pass: the pending points it has read, as it read them, and where it stands with the first. */
  datatype Pass = Pass(model: string, todo: seq<Job>, at: At)

  datatype Index = Index(server: Server, vectors: Vectors, passes: map<nat, Pass>)

  /** What the passes are configured with: `dump` is the JSON text of a record without usable content. */
  datatype Setup = Setup(hashes: Hashes, base: string, dump: MemoryRecord -> string)

  function ExtractContent(g: Setup, r: MemoryRecord): string {
    if Blank(r.core.content) then (g.dump)(r) else r.core.content
  }

  function Take(s: string, n: nat): string {
    if |s| <= n then s else s[..n]
  }

  function FallbackGeneration(g: Setup, model: string, dim: nat): string {
    g.base + ("__" + (Take((g.hashes.sha256)(model), 10) + ("__" + Digits(dim))))
  }

  function Home(g: Setup, v: Vector): string {
    FallbackGeneration(g, v.model, v.dim)
  }

  datatype IndexStep =
    | Serves(step: ServerStep)
    | Starts(pass: nat, model: string)
    | Reads(pass: nat, id: string)
    | Embeds(pass: nat, dim: nat)
    | Creates(pass: nat, now: int)
    | Upserts(pass: nat)
    | Marks(pass: nat)
    | Fails(pass: nat, effect: bool)
    | Stops(pass: nat)

  predicate Possible(s: Index, step: IndexStep) {
    match step
    case Serves(st) => !st.MarkIndexed? && Enabled(s.server, st)
    case Starts(w, _) => w !in s.passes
    case Reads(w, id) => w in s.passes && s.passes[w].at.Waiting? && id in s.server.store.raw && s.server.store.raw[id].index.Pending?
    case Embeds(w, _) => w in s.passes && s.passes[w].at.Waiting? && s.passes[w].todo != []
    case Creates(w, _) => w in s.passes && s.passes[w].at.Ensuring? && s.passes[w].todo != []
    case Upserts(w) => w in s.passes && s.passes[w].at.Upserting? && s.passes[w].todo != []
    case Marks(w) => w in s.passes && s.passes[w].at.Marking? && s.passes[w].todo != []
    case Fails(w, _) => w in s.passes && s.passes[w].todo != []
    case Stops(w) => w in s.passes
  }

  // ---- the three writes ----------------------------------------------------------------------------

  /** `ensure_vector_collection`: an existing collection is left as it is. */
  function Created(vectors: Vectors, name: string, dim: nat): Vectors {
    if name in vectors then vectors else vectors[name := Generation(dim, map[])]
  }

  /** Qdrant refuses a vector of another dimension. */
  function Upserted(vectors: Vectors, name: string, id: string, p: VectorPoint): Vectors {
    if name in vectors && vectors[name].dim == p.vector.dim
    then vectors[name := vectors[name].(points := vectors[name].points[id := p])]
    else vectors
  }

  function StatusFor(g: Setup, v: Vector, at: int): IndexStatus {
    Indexed(at, v.model, Home(g, v))
  }

  function PointFor(g: Setup, job: Job, v: Vector, at: int): VectorPoint {
    VectorPoint(v, job.record.(index := StatusFor(g, v, at)))
  }

  function VectorsAfter(g: Setup, vectors: Vectors, p: Pass): Vectors
    requires p.todo != []
  {
    match p.at
    case Ensuring(v) => Created(vectors, Home(g, v), v.dim)
    case Upserting(v, at) => Upserted(vectors, Home(g, v), p.todo[0].id, PointFor(g, p.todo[0], v, at))
    case _ => vectors
  }

  function Marked(g: Setup, server: Server, p: Pass): Server
    requires p.todo != []
  {
    match p.at
    case Marking(v, at) => Serve(g.hashes, server, MarkIndexed(p.todo[0].id, StatusFor(g, v, at)))
    case _ => server
  }

  /** The upsert answers with an error when the dimension does not fit. */
  predicate Fits(g: Setup, vectors: Vectors, v: Vector) {
    Home(g, v) in vectors && vectors[Home(g, v)].dim == v.dim
  }

  function Dropped(p: Pass): Pass
    requires p.todo != []
  {
    p.(todo := p.todo[1..], at := Waiting)
  }

  function Next(g: Setup, s: Index, step: IndexStep): Index
    requires Possible(s, step)
  {
    match step
    case Serves(st) => s.(server := Serve(g.hashes, s.server, st))
    case Starts(w, model) => s.(passes := s.passes[w := Pass(model, [], Waiting)])
    case Reads(w, id) =>
      var p := s.passes[w];
      s.(passes := s.passes[w := p.(todo := p.todo + [Job(id, s.server.store.raw[id])])])
    case Embeds(w, dim) =>
      var p := s.passes[w];
      s.(passes := s.passes[w := p.(at := Ensuring(Vector(p.model, ExtractContent(g, p.todo[0].record), dim)))])
    case Creates(w, now) =>
      var p := s.passes[w];
      Index(s.server, VectorsAfter(g, s.vectors, p), s.passes[w := p.(at := Upserting(p.at.vector, now))])
    case Upserts(w) =>
      var p := s.passes[w];
      Index(s.server, VectorsAfter(g, s.vectors, p),
            s.passes[w := if Fits(g, s.vectors, p.at.vector) then p.(at := Marking(p.at.vector, p.at.at)) else Dropped(p)])
    case Marks(w) =>
      var p := s.passes[w];
      Index(Marked(g, s.server, p), s.vectors, s.passes[w := Dropped(p)])
    case Fails(w, effect) =>
      var p := s.passes[w];
      if effect then Index(Marked(g, s.server, p), VectorsAfter(g, s.vectors, p), s.passes[w := Dropped(p)])
      else s.(passes := s.passes[w := Dropped(p)])
    case Stops(w) => s.(passes := s.passes - {w})
  }

  // ---- agreement -----------------------------------------------------------------------------------

  /** The vector stands for the text of this record. */
  /** The text embedded is the content, or the dump of the pending record if that is blank. */
  predicate Represents(g: Setup, v: Vector, core: Core) {
    v.text == if Blank(core.content) then (g.dump)(MemoryRecord(core, Pending)) else core.content
  }

  ghost predicate PointOk(g: Setup, raw: map<string, MemoryRecord>, name: string, dim: nat, id: string, p: VectorPoint) {
    && id in raw && p.record.core == raw[id].core && Represents(g, p.vector, p.record.core)
    && p.vector.dim == dim && name == Home(g, p.vector)
    && p.record.index.Indexed? && p.record.index.model == p.vector.model && p.record.index.collection == name
  }

  ghost predicate VectorsOk(g: Setup, raw: map<string, MemoryRecord>, vectors: Vectors) {
    forall name, id :: name in vectors && id in vectors[name].points ==>
      PointOk(g, raw, name, vectors[name].dim, id, vectors[name].points[id])
  }

  predicate Present(vectors: Vectors, name: string, id: string) {
    name in vectors && id in vectors[name].points
  }

  /** A record marked indexed has its point, in a collection named after the model it was marked with. */
  ghost predicate StatusOk(g: Setup, vectors: Vectors, id: string, status: IndexStatus) {
    status.Indexed? ==>
      && Present(vectors, status.collection, id)
      && status.collection == FallbackGeneration(g, status.model, vectors[status.collection].dim)
  }

  ghost predicate RawOk(g: Setup, raw: map<string, MemoryRecord>, vectors: Vectors) {
    forall id :: id in raw ==> StatusOk(g, vectors, id, raw[id].index)
  }

  ghost predicate JobOk(raw: map<string, MemoryRecord>, job: Job) {
    job.id in raw && job.record.core == raw[job.id].core && job.record.index.Pending?
  }

  ghost predicate PassOk(g: Setup, raw: map<string, MemoryRecord>, vectors: Vectors, p: Pass) {
    && (forall k :: 0 <= k < |p.todo| ==> JobOk(raw, p.todo[k]))
    && (!p.at.Waiting? && p.todo != [] ==> Represents(g, p.at.vector, p.todo[0].record.core))
    && (p.at.Marking? && p.todo != [] ==> StatusOk(g, vectors, p.todo[0].id, StatusFor(g, p.at.vector, p.at.at)))
  }

  ghost predicate PassesOk(g: Setup, s: Index) {
    forall w :: w in s.passes ==> PassOk(g, s.server.store.raw, s.vectors, s.passes[w])
  }

  ghost predicate Inv(g: Setup, s: Index) {
    && ServerInv(g.hashes, s.server)
    && VectorsOk(g, s.server.store.raw, s.vectors)
    && RawOk(g, s.server.store.raw, s.vectors)
    && PassesOk(g, s)
  }

  const EMPTY_INDEX := Index(EMPTY_SERVER, map[], map[])

  lemma EmptyIndexInv(g: Setup)
    ensures Inv(g, EMPTY_INDEX)
  {
  }

  // ---- every step keeps it -------------------------------------------------------------------------

  /** Records keep their written-once part; a new or re-marked one carries a status the vectors back. */
  ghost predicate RawGrows(g: Setup, raw: map<string, MemoryRecord>, raw': map<string, MemoryRecord>, vectors: Vectors) {
    && (forall id :: id in raw ==> id in raw' && raw'[id].core == raw[id].core)
    && (forall id :: id in raw' ==> (id in raw && raw'[id] == raw[id]) || StatusOk(g, vectors, id, raw'[id].index))
  }

  ghost predicate VectorsGrow(vectors: Vectors, vectors': Vectors) {
    forall name :: name in vectors ==>
      name in vectors' && vectors'[name].dim == vectors[name].dim && vectors[name].points.Keys <= vectors'[name].points.Keys
  }

  lemma RawGrowsKeeps(g: Setup, raw: map<string, MemoryRecord>, raw': map<string, MemoryRecord>, vectors: Vectors)
    requires RawGrows(g, raw, raw', vectors) && VectorsOk(g, raw, vectors) && RawOk(g, raw, vectors)
    ensures VectorsOk(g, raw', vectors) && RawOk(g, raw', vectors)
    ensures forall p :: PassOk(g, raw, vectors, p) ==> PassOk(g, raw', vectors, p)
  {
    forall p | PassOk(g, raw, vectors, p) ensures PassOk(g, raw', vectors, p) {
      assert forall k :: 0 <= k < |p.todo| ==> JobOk(raw, p.todo[k]);
    }
  }

  lemma StatusStays(g: Setup, vectors: Vectors, vectors': Vectors, id: string, status: IndexStatus)
    requires VectorsGrow(vectors, vectors') && StatusOk(g, vectors, id, status)
    ensures StatusOk(g, vectors', id, status)
  {
  }

  lemma VectorsGrowKeeps(g: Setup, raw: map<string, MemoryRecord>, vectors: Vectors, vectors': Vectors)
    requires VectorsGrow(vectors, vectors') && RawOk(g, raw, vectors)
    ensures RawOk(g, raw, vectors')
    ensures forall p :: PassOk(g, raw, vectors, p) ==> PassOk(g, raw, vectors', p)
  {
    forall id | id in raw ensures StatusOk(g, vectors', id, raw[id].index) {
      StatusStays(g, vectors, vectors', id, raw[id].index);
    }
    forall p | PassOk(g, raw, vectors, p) ensures PassOk(g, raw, vectors', p) {
      if p.at.Marking? && p.todo != [] {
        StatusStays(g, vectors, vectors', p.todo[0].id, StatusFor(g, p.at.vector, p.at.at));
      }
    }
  }

  lemma ServerGrows(g: Setup, s: Server, step: ServerStep, vectors: Vectors)
    requires ServerInv(g.hashes, s) && Enabled(s, step) && !step.MarkIndexed?
    ensures RawGrows(g, s.store.raw, Serve(g.hashes, s, step).store.raw, vectors)
  {
    EffectIsOk(g.hashes, s, step);
  }

  lemma MarkGrows(g: Setup, s: Server, id: string, status: IndexStatus, vectors: Vectors)
    requires StatusOk(g, vectors, id, status)
    ensures RawGrows(g, s.store.raw, Serve(g.hashes, s, MarkIndexed(id, status)).store.raw, vectors)
  {
    assert Serve(g.hashes, s, MarkIndexed(id, status)).store == Apply(g.hashes, s.store, SetIndex(id, status));
  }

  lemma MarkedKeeps(g: Setup, s: Index, p: Pass)
    requires Inv(g, s) && PassOk(g, s.server.store.raw, s.vectors, p) && p.todo != []
    ensures Inv(g, s.(server := Marked(g, s.server, p)))
    ensures PassOk(g, Marked(g, s.server, p).store.raw, s.vectors, p)
  {
    if p.at.Marking? {
      MarkGrows(g, s.server, p.todo[0].id, StatusFor(g, p.at.vector, p.at.at), s.vectors);
      ServeKeepsInv(g.hashes, s.server, MarkIndexed(p.todo[0].id, StatusFor(g, p.at.vector, p.at.at)));
      RawGrowsKeeps(g, s.server.store.raw, Marked(g, s.server, p).store.raw, s.vectors);
    }
  }

  lemma CreatedKeeps(g: Setup, raw: map<string, MemoryRecord>, vectors: Vectors, name: string, dim: nat)
    requires VectorsOk(g, raw, vectors)
    ensures VectorsOk(g, raw, Created(vectors, name, dim)) && VectorsGrow(vectors, Created(vectors, name, dim))
  {
  }

  lemma UpsertedKeeps(g: Setup, raw: map<string, MemoryRecord>, vectors: Vectors, job: Job, v: Vector, at: int)
    requires VectorsOk(g, raw, vectors) && JobOk(raw, job) && Represents(g, v, job.record.core)
    ensures var vectors' := Upserted(vectors, Home(g, v), job.id, PointFor(g, job, v, at));
            && VectorsOk(g, raw, vectors') && VectorsGrow(vectors, vectors')
            && (Fits(g, vectors, v) ==> StatusOk(g, vectors', job.id, StatusFor(g, v, at)))
  {
    if Fits(g, vectors, v) {
      assert PointOk(g, raw, Home(g, v), v.dim, job.id, PointFor(g, job, v, at));
    }
  }

  lemma VectorsAfterKeeps(g: Setup, raw: map<string, MemoryRecord>, vectors: Vectors, p: Pass)
    requires VectorsOk(g, raw, vectors) && PassOk(g, raw, vectors, p) && p.todo != []
    ensures VectorsOk(g, raw, VectorsAfter(g, vectors, p)) && VectorsGrow(vectors, VectorsAfter(g, vectors, p))
  {
    assert JobOk(raw, p.todo[0]);
    match p.at
    case Ensuring(v) => CreatedKeeps(g, raw, vectors, Home(g, v), v.dim);
    case Upserting(v, at) => UpsertedKeeps(g, raw, vectors, p.todo[0], v, at);
    case _ =>
  }

  lemma VectorsAfterKeepsInv(g: Setup, s: Index, p: Pass)
    requires Inv(g, s) && PassOk(g, s.server.store.raw, s.vectors, p) && p.todo != []
    ensures Inv(g, s.(vectors := VectorsAfter(g, s.vectors, p)))
    ensures PassOk(g, s.server.store.raw, VectorsAfter(g, s.vectors, p), p)
  {
    VectorsAfterKeeps(g, s.server.store.raw, s.vectors, p);
    VectorsGrowKeeps(g, s.server.store.raw, s.vectors, VectorsAfter(g, s.vectors, p));
  }

  lemma PassChange(g: Setup, s: Index, w: nat, p: Pass)
    requires Inv(g, s) && PassOk(g, s.server.store.raw, s.vectors, p)
    ensures Inv(g, s.(passes := s.passes[w := p]))
  {
  }

  lemma DroppedIsOk(g: Setup, raw: map<string, MemoryRecord>, vectors: Vectors, p: Pass)
    requires PassOk(g, raw, vectors, p) && p.todo != []
    ensures PassOk(g, raw, vectors, Dropped(p))
  {
    assert forall k :: 0 <= k < |p.todo| - 1 ==> p.todo[1..][k] == p.todo[k + 1];
  }

  lemma ReadsKeeps(g: Setup, s: Index, w: nat, id: string)
    requires Inv(g, s) && Possible(s, Reads(w, id))
    ensures Inv(g, Next(g, s, Reads(w, id)))
  {
    var p := s.passes[w];
    var p' := p.(todo := p.todo + [Job(id, s.server.store.raw[id])]);
    assert PassOk(g, s.server.store.raw, s.vectors, p);
    PassChange(g, s, w, p');
  }

  lemma UpsertsKeeps(g: Setup, s: Index, w: nat)
    requires Inv(g, s) && Possible(s, Upserts(w))
    ensures Inv(g, Next(g, s, Upserts(w)))
  {
    var p, raw := s.passes[w], s.server.store.raw;
    assert JobOk(raw, p.todo[0]);
    var s1 := s.(vectors := VectorsAfter(g, s.vectors, p));
    VectorsAfterKeepsInv(g, s, p);
    if Fits(g, s.vectors, p.at.vector) {
      UpsertedKeeps(g, raw, s.vectors, p.todo[0], p.at.vector, p.at.at);
      PassChange(g, s1, w, p.(at := Marking(p.at.vector, p.at.at)));
    } else {
      DroppedIsOk(g, raw, s1.vectors, p);
      PassChange(g, s1, w, Dropped(p));
    }
  }

  lemma FailsKeeps(g: Setup, s: Index, w: nat, effect: bool)
    requires Inv(g, s) && Possible(s, Fails(w, effect))
    ensures Inv(g, Next(g, s, Fails(w, effect)))
  {
    var p := s.passes[w];
    if effect {
      var s1 := s.(server := Marked(g, s.server, p));
      MarkedKeeps(g, s, p);
      var s2 := s1.(vectors := VectorsAfter(g, s.vectors, p));
      VectorsAfterKeepsInv(g, s1, p);
      DroppedIsOk(g, s2.server.store.raw, s2.vectors, p);
      PassChange(g, s2, w, Dropped(p));
    } else {
      DroppedIsOk(g, s.server.store.raw, s.vectors, p);
      PassChange(g, s, w, Dropped(p));
    }
  }

  lemma NextKeepsInv(g: Setup, s: Index, step: IndexStep)
    requires Inv(g, s) && Possible(s, step)
    ensures Inv(g, Next(g, s, step))
  {
    match step
    case Serves(st) =>
      ServeKeepsInv(g.hashes, s.server, st);
      ServerGrows(g, s.server, st, s.vectors);
      RawGrowsKeeps(g, s.server.store.raw, Serve(g.hashes, s.server, st).store.raw, s.vectors);
    case Starts(w, model) => PassChange(g, s, w, Pass(model, [], Waiting));
    case Reads(w, id) => ReadsKeeps(g, s, w, id);
    case Embeds(w, dim) =>
      var p := s.passes[w];
      PassChange(g, s, w, p.(at := Ensuring(Vector(p.model, ExtractContent(g, p.todo[0].record), dim))));
    case Creates(w, now) =>
      var p := s.passes[w];
      VectorsAfterKeepsInv(g, s, p);
      PassChange(g, s.(vectors := VectorsAfter(g, s.vectors, p)), w, p.(at := Upserting(p.at.vector, now)));
    case Upserts(w) => UpsertsKeeps(g, s, w);
    case Marks(w) =>
      var p := s.passes[w];
      MarkedKeeps(g, s, p);
      DroppedIsOk(g, Marked(g, s.server, p).store.raw, s.vectors, p);
      PassChange(g, s.(server := Marked(g, s.server, p)), w, Dropped(p));
    case Fails(w, effect) => FailsKeeps(g, s, w, effect);
    case Stops(w) =>
  }

  // ---- over whole runs -----------------------------------------------------------------------------

  ghost predicate Succeeds(g: Setup, s: Index, s': Index) {
    exists step :: Possible(s, step) && s' == Next(g, s, step)
  }

  ghost predicate Run(g: Setup, run: seq<Index>) {
    run != [] && run[0] == EMPTY_INDEX && forall k :: 0 <= k < |run| - 1 ==> Succeeds(g, run[k], run[k + 1])
  }

  lemma RunKeepsInv(g: Setup, run: seq<Index>, k: nat)
    requires Run(g, run) && k < |run|
    ensures Inv(g, run[k])
  {
    EmptyIndexInv(g);
    forall s, s' | Inv(g, s) && Succeeds(g, s, s') ensures Inv(g, s') {
      var step :| Possible(s, step) && s' == Next(g, s, step);
      NextKeepsInv(g, s, step);
    }
    Runs.Along(run, (s, s') => Succeeds(g, s, s'), s => Inv(g, s), 0, k);
  }

  /**
   In every reachable state a raw record marked indexed has a vector point with its id and its written-once content
   in the very collection it names, embedded from its own text.
   */
  lemma IndexedRecordsAreFound(g: Setup, run: seq<Index>, k: nat, id: string)
    requires Run(g, run) && k < |run| && id in run[k].server.store.raw && run[k].server.store.raw[id].index.Indexed?
    ensures var (r, vectors) := (run[k].server.store.raw[id], run[k].vectors);
            && Present(vectors, r.index.collection, id)
            && vectors[r.index.collection].points[id].record.core == r.core
            && vectors[r.index.collection].points[id].vector.text
               == if Blank(r.core.content) then (g.dump)(MemoryRecord(r.core, Pending)) else r.core.content
  {
    RunKeepsInv(g, run, k);
    var r, vectors := run[k].server.store.raw[id], run[k].vectors;
    assert StatusOk(g, vectors, id, r.index);
    var name := r.index.collection;
    assert PointOk(g, run[k].server.store.raw, name, vectors[name].dim, id, vectors[name].points[id]);
  }

  /** Nothing in the index is invented: a hit is a raw record with the same content. */
  lemma HitsAreRawRecords(g: Setup, run: seq<Index>, k: nat, name: string, id: string)
    requires Run(g, run) && k < |run| && Present(run[k].vectors, name, id)
    ensures id in run[k].server.store.raw
    ensures run[k].vectors[name].points[id].record.core == run[k].server.store.raw[id].core
  {
    RunKeepsInv(g, run, k);
    assert PointOk(g, run[k].server.store.raw, name, run[k].vectors[name].dim, id, run[k].vectors[name].points[id]);
  }

  /** For these two models: SHA-256 as `hexdigest` writes it, without collision in the first ten digits. */
  predicate Separates(sha256: string -> string, m: string, m': string) {
    |sha256(m)| == 64 && |sha256(m')| == 64 && (Take(sha256(m), 10) == Take(sha256(m'), 10) ==> m == m')
  }

  lemma GenerationNames(g: Setup, m: string, d: nat, m': string, d': nat)
    requires Separates(g.hashes.sha256, m, m')
    ensures FallbackGeneration(g, m, d) == FallbackGeneration(g, m', d') <==> m == m' && d == d'
  {
    if FallbackGeneration(g, m, d) == FallbackGeneration(g, m', d') {
      var h, h' := Take((g.hashes.sha256)(m), 10), Take((g.hashes.sha256)(m'), 10);
      var t, t' := h + ("__" + Digits(d)), h' + ("__" + Digits(d'));
      assert FallbackGeneration(g, m, d)[|g.base| + 2..] == t;
      assert FallbackGeneration(g, m', d')[|g.base| + 2..] == t';
      assert t[..10] == h && t'[..10] == h';
      assert t[12..] == Digits(d) && t'[12..] == Digits(d');
      DigitsRead(d);
      DigitsRead(d');
    }
  }

  /** Each collection holds the vectors of one model in one dimension, and of no other collection's. */
  lemma GenerationsArePure(g: Setup, run: seq<Index>, k: nat, name: string, id: string, name': string, id': string)
    requires Run(g, run) && k < |run| && Present(run[k].vectors, name, id) && Present(run[k].vectors, name', id')
    requires Separates(g.hashes.sha256, run[k].vectors[name].points[id].vector.model,
                       run[k].vectors[name'].points[id'].vector.model)
    ensures var (v, v') := (run[k].vectors[name].points[id].vector, run[k].vectors[name'].points[id'].vector);
            name == name' <==> v.model == v'.model && v.dim == v'.dim
  {
    RunKeepsInv(g, run, k);
    var raw, vectors := run[k].server.store.raw, run[k].vectors;
    assert PointOk(g, raw, name, vectors[name].dim, id, vectors[name].points[id]);
    assert PointOk(g, raw, name', vectors[name'].dim, id', vectors[name'].points[id']);
    var v, v' := vectors[name].points[id].vector, vectors[name'].points[id'].vector;
    GenerationNames(g, v.model, v.dim, v'.model, v'.dim);
  }

  /** The model a record is marked with is the one its vector comes from. */
  lemma MarkedModelIsTheVectors(g: Setup, run: seq<Index>, k: nat, id: string)
    requires Run(g, run) && k < |run| && id in run[k].server.store.raw && run[k].server.store.raw[id].index.Indexed?
    requires var (index, vectors) := (run[k].server.store.raw[id].index, run[k].vectors);
             Present(vectors, index.collection, id) ==>
               Separates(g.hashes.sha256, vectors[index.collection].points[id].vector.model, index.model)
    ensures var (r, vectors) := (run[k].server.store.raw[id], run[k].vectors);
            Present(vectors, r.index.collection, id) && vectors[r.index.collection].points[id].vector.model == r.index.model
  {
    RunKeepsInv(g, run, k);
    var r, vectors := run[k].server.store.raw[id], run[k].vectors;
    assert StatusOk(g, vectors, id, r.index);
    var name := r.index.collection;
    assert PointOk(g, run[k].server.store.raw, name, vectors[name].dim, id, vectors[name].points[id]);
    var v := vectors[name].points[id].vector;
    GenerationNames(g, v.model, v.dim, r.index.model, vectors[name].dim);
  }

  ghost predicate StaysIndexed(raw: map<string, MemoryRecord>, raw': map<string, MemoryRecord>) {
    forall id :: id in raw && raw[id].index.Indexed? ==> id in raw' && raw'[id].index.Indexed?
  }

  lemma ServeStaysIndexed(h: Hashes, s: Server, step: ServerStep)
    requires ServerInv(h, s) && Enabled(s, step) && (step.MarkIndexed? ==> step.status.Indexed?)
    ensures StaysIndexed(s.store.raw, Serve(h, s, step).store.raw)
  {
    EffectIsOk(h, s, step);
  }

  lemma NextStaysIndexed(g: Setup, s: Index, step: IndexStep)
    requires Inv(g, s) && Possible(s, step)
    ensures StaysIndexed(s.server.store.raw, Next(g, s, step).server.store.raw)
  {
    match step
    case Serves(st) => ServeStaysIndexed(g.hashes, s.server, st);
    case Marks(w) => MarkedStaysIndexed(g, s.server, s.passes[w]);
    case Fails(w, effect) => MarkedStaysIndexed(g, s.server, s.passes[w]);
    case _ =>
  }

  lemma MarkedStaysIndexed(g: Setup, s: Server, p: Pass)
    requires ServerInv(g.hashes, s) && p.todo != []
    ensures StaysIndexed(s.store.raw, Marked(g, s, p).store.raw)
  {
    if p.at.Marking? {
      ServeStaysIndexed(g.hashes, s, MarkIndexed(p.todo[0].id, StatusFor(g, p.at.vector, p.at.at)));
    }
  }

  /** A record never goes back to pending, whatever fails: the backlog only grows by new puts. */
  lemma IndexedForever(g: Setup, run: seq<Index>, i: nat, j: nat)
    requires Run(g, run) && i <= j < |run|
    ensures StaysIndexed(run[i].server.store.raw, run[j].server.store.raw)
  {
    RunKeepsInv(g, run, i);
    var good := s => Inv(g, s) && StaysIndexed(run[i].server.store.raw, s.server.store.raw);
    forall s, s' | good(s) && Succeeds(g, s, s') ensures good(s') {
      var step :| Possible(s, step) && s' == Next(g, s, step);
      NextKeepsInv(g, s, step);
      NextStaysIndexed(g, s, step);
    }
    Runs.Along(run, (s, s') => Succeeds(g, s, s'), good, i, j);
  }
}
