/**
 Spool, server and cursor reader together: every interleaving of hook processes, the delivery daemon,
 other clients, the server's awaits, store failures, lost answers, restarts and power losses.
 */
module Protocol {
  import opened Basics
  import opened Records
  import opened ServerMachine
  import opened SpoolMachine

  /** A consumer of `memory_since`: its cursor and, as history, the ids it was given. */
  datatype Reader = Reader(cursor: int, seen: seq<string>)

  datatype State = State(spool: Spool, server: Server, reader: Reader)

  const START := State(EMPTY_SPOOL, EMPTY_SERVER, Reader(0, []))

  datatype Step =
    | Local(spoolStep: SpoolStep)
    | DaemonPushes
    | DaemonIsAnswered
    | Remote(serverStep: ServerStep)
    | Read(limit: nat, page: seq<string>)

  /** Present points in strictly ascending serial order, hence without repetition. */
  ghost predicate Ascending(raw: map<string, MemoryRecord>, ids: seq<string>) {
    && (forall i :: 0 <= i < |ids| ==> ids[i] in raw)
    && forall i, j :: 0 <= i < j < |ids| ==> raw[ids[i]].Serial() < raw[ids[j]].Serial()
  }

  /** Qdrant's ordered scroll: the first `n` points with a serial above `cursor`, ascending. */
  ghost predicate OrderedPage(raw: map<string, MemoryRecord>, cursor: int, n: nat, page: seq<string>) {
    && |page| <= n && Ascending(raw, page)
    && (forall i :: 0 <= i < |page| ==> cursor < raw[page[i]].Serial())
    && (forall id :: id in raw && cursor < raw[id].Serial() && id !in page ==>
          |page| == n && forall i :: 0 <= i < |page| ==> raw[page[i]].Serial() < raw[id].Serial())
  }

  function Shown(limit: nat, page: seq<string>): seq<string> {
    page[..Min(limit, |page|)]
  }

  function Head(raw: map<string, MemoryRecord>, cursor: int, items: seq<string>): int
    requires forall i :: 0 <= i < |items| ==> items[i] in raw
  {
    if items == [] then cursor else raw[items[|items| - 1]].Serial()
  }

  ghost predicate Possible(h: Hashes, s: State, step: Step) {
    match step
    case Local(st) => !st.DaemonCalls? && !st.DaemonHears? && SpoolEnabled(h, s.spool, st)
    case DaemonPushes => SpoolEnabled(h, s.spool, DaemonCalls(s.server.proc.nextToken))
    case DaemonIsAnswered =>
      SpoolEnabled(h, s.spool, DaemonHears) && s.spool.daemon.token in s.server.proc.answered
    case Remote(st) => Enabled(s.server, st)
    case Read(limit, page) => OrderedPage(s.server.store.raw, s.reader.cursor, limit + 1, page)
  }

  ghost function Next(h: Hashes, s: State, step: Step): State
    requires Possible(h, s, step)
  {
    match step
    case Local(st) => s.(spool := Advance(h, s.spool, st))
    case DaemonPushes =>
      State(Advance(h, s.spool, DaemonCalls(s.server.proc.nextToken)),
            Serve(h, s.server, Submit(s.spool.daemon.memory, "")), s.reader)
    case DaemonIsAnswered => s.(spool := Advance(h, s.spool, DaemonHears))
    case Remote(st) => s.(server := Serve(h, s.server, st))
    case Read(limit, page) =>
      var items := Shown(limit, page);
      s.(reader := Reader(Head(s.server.store.raw, s.reader.cursor, items), s.reader.seen + items))
  }

  ghost predicate Succeeds(h: Hashes, s: State, s': State) {
    exists step :: Possible(h, s, step) && s' == Next(h, s, step)
  }

  ghost predicate Run(h: Hashes, run: seq<State>) {
    && run != []
    && forall i :: 0 <= i < |run| - 1 ==> Succeeds(h, run[i], run[i + 1])
  }

  /** The token the daemon waits for belongs to the request it sent. */
  ghost predicate LinkOk(s: State) {
    s.spool.daemon.Calling? ==>
      var d, p := s.spool.daemon, s.server.proc;
      && d.token < p.nextToken
      && (d.token in p.waiting ==> p.waiting[d.token].memory == d.memory)
      && (p.lock.Held? && p.lock.token == d.token ==> p.lock.call.memory == d.memory)
      && (d.token in p.answered ==> p.answered[d.token].memory == d.memory)
  }

  /** The reader has been given exactly the records up to its cursor, once each, in serial order. */
  ghost predicate ReaderInv(raw: map<string, MemoryRecord>, r: Reader) {
    && Ascending(raw, r.seen)
    && (forall id :: id in raw ==> (id in r.seen <==> raw[id].Serial() <= r.cursor))
    && (r.cursor == 0 || exists id :: id in raw && raw[id].Serial() == r.cursor)
  }

  ghost predicate Inv(h: Hashes, s: State) {
    && SpoolInv(h, s.spool, s.server.store.raw.Keys)
    && ServerInv(h, s.server)
    && LinkOk(s)
    && ReaderInv(s.server.store.raw, s.reader)
  }

  lemma ReaderSurvivesWrites(h: Hashes, st: Store, st': Store, r: Reader)
    requires StoreInv(h, st) && StoreInv(h, st') && ReaderInv(st.raw, r)
    requires RawPreserved(st, st') && AppearsAbove(st, st')
    ensures ReaderInv(st'.raw, r)
  {
    assert forall i :: 0 <= i < |r.seen| ==> st'.raw[r.seen[i]].Serial() == st.raw[r.seen[i]].Serial();
    if r.cursor != 0 {
      var top :| top in st.raw && st.raw[top].Serial() == r.cursor;
      assert top in st'.raw && st'.raw[top].Serial() == r.cursor;
    }
    forall id | id in st'.raw ensures id in r.seen <==> st'.raw[id].Serial() <= r.cursor {
      if id !in st.raw {
        assert id !in r.seen;
        assert Below(st.raw, st'.raw[id].Serial());
      }
    }
  }

  /** After a non-empty read the cursor separates what was shown from what was not. */
  lemma ReadIsACut(raw: map<string, MemoryRecord>, r: Reader, limit: nat, page: seq<string>, id: string)
    requires ReaderInv(raw, r) && OrderedPage(raw, r.cursor, limit + 1, page)
    requires Shown(limit, page) != [] && id in raw && r.cursor < raw[id].Serial()
    ensures id in Shown(limit, page) <==> raw[id].Serial() <= Head(raw, r.cursor, Shown(limit, page))
  {
    var items := Shown(limit, page);
    var last := |items| - 1;
    assert items[last] == page[last];
    if id in page {
      var k :| 0 <= k < |page| && page[k] == id;
      if k <= last {
        assert items[k] == id;
      } else {
        assert raw[page[last]].Serial() < raw[id].Serial();
        assert forall i :: 0 <= i <= last ==> raw[items[i]].Serial() < raw[id].Serial();
      }
    }
  }

  lemma AscendingAppend(raw: map<string, MemoryRecord>, a: seq<string>, b: seq<string>, n: int)
    requires Ascending(raw, a) && Ascending(raw, b)
    requires forall i :: 0 <= i < |a| ==> raw[a[i]].Serial() <= n
    requires forall i :: 0 <= i < |b| ==> n < raw[b[i]].Serial()
    ensures Ascending(raw, a + b)
  {
  }

  lemma ShownIsAscending(raw: map<string, MemoryRecord>, cursor: int, limit: nat, page: seq<string>)
    requires OrderedPage(raw, cursor, limit + 1, page)
    ensures var items := Shown(limit, page);
            && Ascending(raw, items)
            && (forall i :: 0 <= i < |items| ==> cursor < raw[items[i]].Serial())
            && (items != [] ==> cursor < Head(raw, cursor, items) && items[|items| - 1] in raw)
  {
    var items := Shown(limit, page);
    assert forall i :: 0 <= i < |items| ==> items[i] == page[i];
  }

  lemma ReadKeepsCut(raw: map<string, MemoryRecord>, r: Reader, limit: nat, page: seq<string>, id: string)
    requires ReaderInv(raw, r) && OrderedPage(raw, r.cursor, limit + 1, page) && Shown(limit, page) != []
    requires id in raw
    ensures id in r.seen + Shown(limit, page) <==> raw[id].Serial() <= Head(raw, r.cursor, Shown(limit, page))
  {
    var items := Shown(limit, page);
    ShownIsAscending(raw, r.cursor, limit, page);
    if r.cursor < raw[id].Serial() {
      ReadIsACut(raw, r, limit, page, id);
      assert id !in r.seen;
    } else {
      assert id in r.seen;
    }
  }

  lemma ReadKeepsReader(raw: map<string, MemoryRecord>, r: Reader, limit: nat, page: seq<string>)
    requires ReaderInv(raw, r) && OrderedPage(raw, r.cursor, limit + 1, page)
    ensures var items := Shown(limit, page);
            ReaderInv(raw, Reader(Head(raw, r.cursor, items), r.seen + items))
  {
    var items := Shown(limit, page);
    if items == [] {
      assert r.seen + items == r.seen;
    } else {
      ShownIsAscending(raw, r.cursor, limit, page);
      forall id | id in raw ensures id in r.seen + items <==> raw[id].Serial() <= Head(raw, r.cursor, items) {
        ReadKeepsCut(raw, r, limit, page, id);
      }
      forall i | 0 <= i < |r.seen| ensures raw[r.seen[i]].Serial() <= r.cursor {
        assert r.seen[i] in r.seen;
      }
      AscendingAppend(raw, r.seen, items, r.cursor);
    }
  }

  lemma LocalKeepsInv(h: Hashes, s: State, step: Step)
    requires Inv(h, s) && Possible(h, s, step) && (step.Local? || step.DaemonIsAnswered?)
    ensures Inv(h, Next(h, s, step))
  {
    var st := if step.Local? then step.spoolStep else DaemonHears;
    AdvanceKeepsInv(h, s.spool, s.server.store.raw.Keys, st);
  }

  lemma PushKeepsInv(h: Hashes, s: State)
    requires Inv(h, s) && Possible(h, s, DaemonPushes)
    ensures Inv(h, Next(h, s, DaemonPushes))
  {
    AdvanceKeepsInv(h, s.spool, s.server.store.raw.Keys, DaemonCalls(s.server.proc.nextToken));
    ServeKeepsInv(h, s.server, Submit(s.spool.daemon.memory, ""));
  }

  lemma RemoteKeepsLink(h: Hashes, s: State, st: ServerStep)
    requires Inv(h, s) && Possible(h, s, Remote(st))
    ensures LinkOk(Next(h, s, Remote(st)))
  {
  }

  lemma RemoteKeepsInv(h: Hashes, s: State, st: ServerStep)
    requires Inv(h, s) && Possible(h, s, Remote(st))
    ensures Inv(h, Next(h, s, Remote(st)))
  {
    RemoteKeepsLink(h, s, st);
    ServeKeepsInv(h, s.server, st);
    var s' := Next(h, s, Remote(st));
    assert s.server.store.raw.Keys <= s'.server.store.raw.Keys;
    assert s.spool.(log := s.spool.log) == s.spool;
    SpoolInvMonotone(h, s.spool, s.server.store.raw.Keys, s.spool.log, s'.server.store.raw.Keys);
    ReaderSurvivesWrites(h, s.server.store, s'.server.store, s.reader);
  }

  lemma NextKeepsInv(h: Hashes, s: State, step: Step)
    requires Inv(h, s) && Possible(h, s, step)
    ensures Inv(h, Next(h, s, step))
  {
    match step
    case Local(_) => LocalKeepsInv(h, s, step);
    case DaemonIsAnswered => LocalKeepsInv(h, s, step);
    case DaemonPushes => PushKeepsInv(h, s);
    case Remote(st) => RemoteKeepsInv(h, s, st);
    case Read(limit, page) => ReadKeepsReader(s.server.store.raw, s.reader, limit, page);
  }
}
