/**
 Removing copies and grouping messages into conversations (`_dedupe_messages`, `group_messages`, `Conversation.key` in
 memorybridge/daily_summary.py).
 */
module Grouping {
  import opened Basics
  import opened Records
  import opened Sorting
  import opened Summaries

  /** SHA-256 of a message's text, and Python's `lower`. */
  datatype Setup = Setup(digest: string -> string, lower: string -> string)

  const FILE_REF := "codex-file:"
  const STORE_REF := "qdrant:"

  predicate FromFile(m: Message) {
    FILE_REF <= m.sourceRef
  }

  predicate FromStore(m: Message) {
    STORE_REF <= m.sourceRef
  }

  const ByTime := (a: Message, b: Message) =>
    a.timestamp < b.timestamp || (a.timestamp == b.timestamp && StrLeq(a.sourceRef, b.sourceRef))

  datatype Trace = Trace(role: string, digest: string)

  function TraceOf(g: Setup, m: Message): Trace {
    Trace(m.role, g.digest(m.content))
  }

  /** The traces of what Codex files hold. */
  function FileTraces(g: Setup, ms: seq<Message>): set<Trace> {
    set m | m in ms && FromFile(m) :: TraceOf(g, m)
  }

  /** The rest of the loop over the ordered messages. */
  function Keep(g: Setup, ordered: seq<Message>, files: set<Trace>, seen: set<string>): seq<Message> {
    if ordered == [] then []
    else
      var m := ordered[0];
      if m.sourceRef in seen || (FromStore(m) && TraceOf(g, m) in files) then Keep(g, ordered[1..], files, seen)
      else [m] + Keep(g, ordered[1..], files, seen + {m.sourceRef})
  }

  function Dedupe(g: Setup, ms: seq<Message>): seq<Message> {
    Keep(g, Sort(ms, ByTime), FileTraces(g, ms), {})
  }

  method DedupeMessages(g: Setup, ms: seq<Message>) returns (kept: seq<Message>)
    ensures kept == Dedupe(g, ms)
  {
    var ordered, files := Sort(ms, ByTime), FileTraces(g, ms);
    var seen: set<string> := {};
    kept := [];
    for k := 0 to |ordered|
      invariant kept + Keep(g, ordered[k..], files, seen) == Keep(g, ordered, files, {})
    {
      var m := ordered[k];
      assert ordered[k..][0] == m && ordered[k..][1..] == ordered[k + 1..];
      if m.sourceRef in seen {
        continue;
      }
      if FromStore(m) && TraceOf(g, m) in files {
        continue;
      }
      assert kept + ([m] + Keep(g, ordered[k + 1..], files, seen + {m.sourceRef}))
          == kept + [m] + Keep(g, ordered[k + 1..], files, seen + {m.sourceRef});
      seen, kept := seen + {m.sourceRef}, kept + [m];
    }
    assert kept + [] == kept;
  }

  // ---- what is kept --------------------------------------------------------------------------------

  ghost predicate RefsDetermine(ms: seq<Message>) {
    forall m, m' :: m in ms && m' in ms && m.sourceRef == m'.sourceRef ==> m == m'
  }

  ghost predicate RefsDistinct(ms: seq<Message>) {
    forall i, j :: 0 <= i < j < |ms| ==> ms[i].sourceRef != ms[j].sourceRef
  }

  /** A stored copy of a message that a Codex file in the list holds as well. */
  predicate IsCopy(g: Setup, m: Message, ms: seq<Message>) {
    FromStore(m) && TraceOf(g, m) in FileTraces(g, ms)
  }

  lemma ByTimeIsTotal()
    ensures TotalPreorder(ByTime)
  {
    forall a: Message, b: Message ensures ByTime(a, b) || ByTime(b, a) {
      StrLeqTotal(a.sourceRef, b.sourceRef);
    }
    forall a: Message, b: Message, c: Message | ByTime(a, b) && ByTime(b, c) ensures ByTime(a, c) {
      if a.timestamp == b.timestamp == c.timestamp {
        StrLeqTransitive(a.sourceRef, b.sourceRef, c.sourceRef);
      }
    }
  }

  lemma {:induction false} KeepTakes(g: Setup, ordered: seq<Message>, files: set<Trace>, seen: set<string>)
    ensures forall m :: m in Keep(g, ordered, files, seen) ==>
              m in ordered && m.sourceRef !in seen && !(FromStore(m) && TraceOf(g, m) in files)
  {
    if ordered != [] {
      var m := ordered[0];
      KeepTakes(g, ordered[1..], files, seen);
      KeepTakes(g, ordered[1..], files, seen + {m.sourceRef});
    }
  }

  lemma {:induction false} KeepOrders(g: Setup, ordered: seq<Message>, files: set<Trace>, seen: set<string>)
    requires Sorted(ordered, ByTime)
    ensures Sorted(Keep(g, ordered, files, seen), ByTime) && RefsDistinct(Keep(g, ordered, files, seen))
  {
    if ordered != [] {
      var m, tail := ordered[0], ordered[1..];
      if m.sourceRef in seen || (FromStore(m) && TraceOf(g, m) in files) {
        KeepOrders(g, tail, files, seen);
      } else {
        var seen' := seen + {m.sourceRef};
        KeepOrders(g, tail, files, seen');
        KeepTakes(g, tail, files, seen');
        forall x | x in Keep(g, tail, files, seen') ensures ByTime(m, x) {
          var i :| 0 <= i < |tail| && tail[i] == x;
          assert ByTime(ordered[0], ordered[i + 1]);
        }
      }
    }
  }

  lemma {:induction false} KeepsAll(g: Setup, ordered: seq<Message>, files: set<Trace>, seen: set<string>, m: Message)
    requires m in ordered && m.sourceRef !in seen && !(FromStore(m) && TraceOf(g, m) in files)
    requires forall m' :: m' in ordered && m'.sourceRef == m.sourceRef ==> m' == m
    ensures m in Keep(g, ordered, files, seen)
  {
    var first, tail := ordered[0], ordered[1..];
    if first != m {
      var drop := first.sourceRef in seen || (FromStore(first) && TraceOf(g, first) in files);
      KeepsAll(g, tail, files, if drop then seen else seen + {first.sourceRef}, m);
    }
  }

  /** Ordered by time, no ref twice, and exactly the messages that are no copies. */
  ghost predicate IsDeduped(g: Setup, ms: seq<Message>, kept: seq<Message>) {
    && Sorted(kept, ByTime) && RefsDistinct(kept)
    && forall m :: m in kept <==> m in ms && !IsCopy(g, m, ms)
  }

  lemma DedupeKeepsExactly(g: Setup, ms: seq<Message>)
    requires RefsDetermine(ms)
    ensures IsDeduped(g, ms, Dedupe(g, ms))
  {
    var ordered, files := Sort(ms, ByTime), FileTraces(g, ms);
    ByTimeIsTotal();
    SortFacts(ms, ByTime);
    KeepTakes(g, ordered, files, {});
    KeepOrders(g, ordered, files, {});
    forall m | m in ms && !IsCopy(g, m, ms) ensures m in Dedupe(g, ms) {
      KeepsAll(g, ordered, files, {}, m);
    }
  }

  /** There is only one such list. */
  lemma DedupedIsUnique(g: Setup, ms: seq<Message>, a: seq<Message>, b: seq<Message>)
    requires RefsDetermine(ms) && IsDeduped(g, ms, a) && IsDeduped(g, ms, b)
    ensures a == b
  {
    ByTimeIsTotal();
    forall x, y | x in a && y in a && ByTime(x, y) && ByTime(y, x) ensures x == y {
      StrLeqAntisymmetric(x.sourceRef, y.sourceRef);
    }
    SortedIsUnique(a, b, ByTime);
  }

  /** Neither the order of the messages nor repeats of them matter. */
  lemma DedupeIgnoresOrder(g: Setup, ms: seq<Message>, ms': seq<Message>)
    requires RefsDetermine(ms) && forall m :: m in ms <==> m in ms'
    ensures Dedupe(g, ms) == Dedupe(g, ms')
  {
    DedupeKeepsExactly(g, ms);
    DedupeKeepsExactly(g, ms');
    assert FileTraces(g, ms) == FileTraces(g, ms');
    DedupedIsUnique(g, ms, Dedupe(g, ms), Dedupe(g, ms'));
  }

  lemma FilesAreNoCopies(m: Message)
    requires FromFile(m)
    ensures !FromStore(m)
  {
    assert m.sourceRef[0] == 'c';
  }

  lemma KeptFilesAreTheSame(g: Setup, ms: seq<Message>)
    requires RefsDetermine(ms)
    ensures FileTraces(g, Dedupe(g, ms)) == FileTraces(g, ms)
  {
    DedupeKeepsExactly(g, ms);
    forall m | m in ms && FromFile(m) ensures m in Dedupe(g, ms) {
      FilesAreNoCopies(m);
    }
  }

  lemma DedupeIsIdempotent(g: Setup, ms: seq<Message>)
    requires RefsDetermine(ms)
    ensures Dedupe(g, Dedupe(g, ms)) == Dedupe(g, ms)
  {
    var kept := Dedupe(g, ms);
    DedupeKeepsExactly(g, ms);
    KeptFilesAreTheSame(g, ms);
    DedupeKeepsExactly(g, kept);
    DedupedIsUnique(g, kept, Dedupe(g, kept), kept);
  }

  /** No two of these texts collide. */
  ghost predicate TextsApart(g: Setup, ms: seq<Message>) {
    forall m, m' :: m in ms && m' in ms ==> NoClash(g.digest, m.content, m'.content)
  }

  /** A stored message is dropped exactly when a Codex file has one of the same role and text. */
  lemma CopiesAreDroppedExactly(g: Setup, ms: seq<Message>, m: Message)
    requires RefsDetermine(ms) && TextsApart(g, ms) && m in ms
    ensures m !in Dedupe(g, ms) <==>
              FromStore(m) && exists f :: f in ms && FromFile(f) && f.role == m.role && f.content == m.content
  {
    DedupeKeepsExactly(g, ms);
    if m !in Dedupe(g, ms) {
      var f :| f in ms && FromFile(f) && TraceOf(g, f) == TraceOf(g, m);
      assert NoClash(g.digest, f.content, m.content);
    } else if FromStore(m) {
      forall f | f in ms && FromFile(f) ensures !(f.role == m.role && f.content == m.content) {
        assert TraceOf(g, f) in FileTraces(g, ms);
      }
    }
  }

  /** So whatever was said by whom is still there. */
  lemma EveryTextSurvives(g: Setup, ms: seq<Message>, m: Message)
    requires RefsDetermine(ms) && TextsApart(g, ms) && m in ms
    ensures exists k :: k in Dedupe(g, ms) && k.role == m.role && k.content == m.content
  {
    CopiesAreDroppedExactly(g, ms, m);
    if m !in Dedupe(g, ms) {
      var f :| f in ms && FromFile(f) && f.role == m.role && f.content == m.content;
      FilesAreNoCopies(f);
      CopiesAreDroppedExactly(g, ms, f);
    }
  }

  // ---- grouping ------------------------------------------------------------------------------------

  /** A day in ISO form is the only thing known of it here. */
  type Day = string

  datatype Conversation = Conversation(sourceAgent: string, sessionId: Option<string>, day: Day, messages: seq<Message>)

  function SessionOr(session: Option<string>, default: string): string {
    if session.Some? && session.value != "" then session.value else default
  }

  /** `Conversation.key`. */
  function KeyOf(c: Conversation): string {
    c.day + (":" + (c.sourceAgent + (":" + SessionOr(c.sessionId, "day"))))
  }

  datatype GroupKey = GroupKey(agent: string, session: string)

  function GroupOf(g: Setup, day: Day, m: Message): GroupKey {
    GroupKey(g.lower(m.sourceAgent), SessionOr(m.sessionId, "day:" + day))
  }

  /** An entry of the dictionary of groups; a Python dictionary keeps its entries in order of insertion. */
  datatype Entry = Entry(key: GroupKey, group: Conversation)

  function AddTo(g: Setup, day: Day, entries: seq<Entry>, m: Message): seq<Entry> {
    var key := GroupOf(g, day, m);
    if entries == [] then [Entry(key, Conversation(key.agent, m.sessionId, day, [m]))]
    else if entries[0].key == key then
      [Entry(key, entries[0].group.(messages := entries[0].group.messages + [m]))] + entries[1..]
    else [entries[0]] + AddTo(g, day, entries[1..], m)
  }

  function Collect(g: Setup, day: Day, ms: seq<Message>): seq<Entry> {
    if ms == [] then [] else AddTo(g, day, Collect(g, day, ms[..|ms| - 1]), ms[|ms| - 1])
  }

  function Deduped(g: Setup, entries: seq<Entry>): (groups: seq<Conversation>)
    ensures |groups| == |entries|
    ensures forall k :: 0 <= k < |entries| ==>
              groups[k] == entries[k].group.(messages := Dedupe(g, entries[k].group.messages))
  {
    if entries == [] then []
    else [entries[0].group.(messages := Dedupe(g, entries[0].group.messages))] + Deduped(g, entries[1..])
  }

  const ByGroupKey := (a: Conversation, b: Conversation) => StrLeq(KeyOf(a), KeyOf(b))

  function Conversations(g: Setup, day: Day, ms: seq<Message>): seq<Conversation> {
    Sort(Deduped(g, Collect(g, day, ms)), ByGroupKey)
  }

  method GroupMessages(g: Setup, day: Day, ms: seq<Message>) returns (groups: seq<Conversation>)
    ensures groups == Conversations(g, day, ms)
  {
    var entries: seq<Entry> := [];
    for k := 0 to |ms|
      invariant entries == Collect(g, day, ms[..k])
    {
      assert ms[..k + 1][..k] == ms[..k] && ms[..k + 1][k] == ms[k];
      entries := AddTo(g, day, entries, ms[k]);
    }
    assert ms[..|ms|] == ms;
    var found: seq<Conversation> := [];
    for k := 0 to |entries|
      invariant found == Deduped(g, entries)[..k]
    {
      var kept := DedupeMessages(g, entries[k].group.messages);
      found := found + [entries[k].group.(messages := kept)];
    }
    assert found == Deduped(g, entries);
    groups := Sort(found, ByGroupKey);
  }

  // ---- what the groups are -------------------------------------------------------------------------

  function Select(g: Setup, day: Day, ms: seq<Message>, key: GroupKey): seq<Message> {
    if ms == [] then []
    else
      Select(g, day, ms[..|ms| - 1], key) + (if GroupOf(g, day, ms[|ms| - 1]) == key then [ms[|ms| - 1]] else [])
  }

  lemma {:induction false} SelectHas(g: Setup, day: Day, ms: seq<Message>, key: GroupKey, m: Message)
    ensures m in Select(g, day, ms, key) <==> m in ms && GroupOf(g, day, m) == key
  {
    if ms != [] {
      SelectHas(g, day, ms[..|ms| - 1], key, m);
      assert ms == ms[..|ms| - 1] + [ms[|ms| - 1]];
    }
  }

  /** A group has the session of the message that opened it. */
  function FirstSession(selected: seq<Message>): Option<string> {
    if selected == [] then None else selected[0].sessionId
  }

  ghost predicate EntryOk(g: Setup, day: Day, ms: seq<Message>, e: Entry) {
    var selected := Select(g, day, ms, e.key);
    && selected != [] && e.group == Conversation(e.key.agent, FirstSession(selected), day, selected)
    && exists m :: m in ms && GroupOf(g, day, m) == e.key
  }

  ghost predicate KeysDistinct(entries: seq<Entry>) {
    forall i, j :: 0 <= i < j < |entries| ==> entries[i].key != entries[j].key
  }

  lemma {:induction false} AddToAt(g: Setup, day: Day, entries: seq<Entry>, m: Message)
    requires KeysDistinct(entries)
    ensures var (entries', key) := (AddTo(g, day, entries, m), GroupOf(g, day, m));
            && KeysDistinct(entries')
            && |entries'| == |entries| + (if forall k :: 0 <= k < |entries| ==> entries[k].key != key then 1 else 0)
            && (forall k :: 0 <= k < |entries| ==>
                  entries'[k] == if entries[k].key == key
                                 then Entry(key, entries[k].group.(messages := entries[k].group.messages + [m]))
                                 else entries[k])
            && (|entries'| > |entries| ==> entries'[|entries|] == Entry(key, Conversation(key.agent, m.sessionId, day, [m])))
  {
    if entries != [] && entries[0].key != GroupOf(g, day, m) {
      var tail := entries[1..];
      AddToAt(g, day, tail, m);
      assert forall k :: 0 <= k < |tail| ==> tail[k] == entries[k + 1];
    }
  }

  ghost predicate HasKey(entries: seq<Entry>, key: GroupKey) {
    exists k :: 0 <= k < |entries| && entries[k].key == key
  }

  ghost predicate EntriesOk(g: Setup, day: Day, ms: seq<Message>, entries: seq<Entry>) {
    && KeysDistinct(entries)
    && (forall k :: 0 <= k < |entries| ==> EntryOk(g, day, ms, entries[k]))
    && forall m :: m in ms ==> HasKey(entries, GroupOf(g, day, m))
  }

  lemma OldEntryOk(g: Setup, day: Day, init: seq<Message>, m: Message, e: Entry)
    requires EntryOk(g, day, init, e)
    ensures var key := GroupOf(g, day, m);
            EntryOk(g, day, init + [m],
                    if e.key == key then Entry(key, e.group.(messages := e.group.messages + [m])) else e)
  {
  }

  lemma NewEntryOk(g: Setup, day: Day, init: seq<Message>, m: Message)
    requires forall x :: x in init ==> GroupOf(g, day, x) != GroupOf(g, day, m)
    ensures var key := GroupOf(g, day, m);
            EntryOk(g, day, init + [m], Entry(key, Conversation(key.agent, m.sessionId, day, [m])))
  {
    var ms := init + [m];
    assert ms[..|ms| - 1] == init && m in ms;
    SelectNone(g, day, init, GroupOf(g, day, m));
    assert [] + [m] == [m];
  }

  lemma {:induction false} AddToKeepsKeys(g: Setup, day: Day, entries: seq<Entry>, m: Message, key: GroupKey)
    requires KeysDistinct(entries)
    ensures HasKey(entries, key) || key == GroupOf(g, day, m) ==> HasKey(AddTo(g, day, entries, m), key)
  {
    AddToAt(g, day, entries, m);
    var entries' := AddTo(g, day, entries, m);
    if HasKey(entries, key) {
      var k :| 0 <= k < |entries| && entries[k].key == key;
      assert entries'[k].key == key;
    } else if key == GroupOf(g, day, m) {
      assert entries'[|entries|].key == key;
    }
  }

  lemma {:induction false} CollectStep(g: Setup, day: Day, init: seq<Message>, m: Message, entries: seq<Entry>)
    requires EntriesOk(g, day, init, entries)
    ensures EntriesOk(g, day, init + [m], AddTo(g, day, entries, m))
  {
    var entries' := AddTo(g, day, entries, m);
    AddToAt(g, day, entries, m);
    forall k | 0 <= k < |entries'| ensures EntryOk(g, day, init + [m], entries'[k]) {
      if k < |entries| {
        OldEntryOk(g, day, init, m, entries[k]);
      } else {
        NewEntryOk(g, day, init, m);
      }
    }
    forall x | x in init + [m] ensures HasKey(entries', GroupOf(g, day, x)) {
      AddToKeepsKeys(g, day, entries, m, GroupOf(g, day, x));
    }
  }

  /** The dictionary holds one entry for each group key that occurs, with the messages of that key in order. */
  lemma {:induction false} CollectIs(g: Setup, day: Day, ms: seq<Message>)
    ensures EntriesOk(g, day, ms, Collect(g, day, ms))
  {
    if ms != [] {
      var init, m := ms[..|ms| - 1], ms[|ms| - 1];
      assert ms == init + [m];
      CollectIs(g, day, init);
      CollectStep(g, day, init, m, Collect(g, day, init));
    }
  }

  lemma {:induction false} SelectNone(g: Setup, day: Day, ms: seq<Message>, key: GroupKey)
    requires forall x :: x in ms ==> GroupOf(g, day, x) != key
    ensures Select(g, day, ms, key) == []
  {
    if ms != [] {
      assert ms == ms[..|ms| - 1] + [ms[|ms| - 1]];
      SelectNone(g, day, ms[..|ms| - 1], key);
    }
  }

  // ---- the groups do not depend on the order of the messages ---------------------------------------

  /** What a group is: a key that occurs, its session, and its messages without copies. */
  ghost predicate IsGroup(g: Setup, day: Day, ms: seq<Message>, c: Conversation) {
    exists m :: m in ms && c == GroupWith(g, day, ms, GroupOf(g, day, m))
  }

  function GroupWith(g: Setup, day: Day, ms: seq<Message>, key: GroupKey): Conversation {
    Conversation(key.agent, FirstSession(Select(g, day, ms, key)), day, Dedupe(g, Select(g, day, ms, key)))
  }

  /** No two groups have the same `Conversation.key`. */
  ghost predicate GroupKeysDiffer(g: Setup, day: Day, ms: seq<Message>) {
    forall m, m' :: m in ms && m' in ms && GroupOf(g, day, m) != GroupOf(g, day, m') ==>
      KeyOf(GroupWith(g, day, ms, GroupOf(g, day, m))) != KeyOf(GroupWith(g, day, ms, GroupOf(g, day, m')))
  }

  lemma ByGroupKeyIsTotal()
    ensures TotalPreorder(ByGroupKey)
  {
    forall a: Conversation, b: Conversation ensures ByGroupKey(a, b) || ByGroupKey(b, a) {
      StrLeqTotal(KeyOf(a), KeyOf(b));
    }
    forall a: Conversation, b: Conversation, c: Conversation | ByGroupKey(a, b) && ByGroupKey(b, c) ensures ByGroupKey(a, c) {
      StrLeqTransitive(KeyOf(a), KeyOf(b), KeyOf(c));
    }
  }

  /** The dictionary's groups are exactly those, each once. */
  lemma {:induction false} DictionaryIs(g: Setup, day: Day, ms: seq<Message>)
    ensures var found := Deduped(g, Collect(g, day, ms));
            && (forall c :: c in found <==> IsGroup(g, day, ms, c))
            && (GroupKeysDiffer(g, day, ms) ==> Distinct(found) && forall c, d :: c in found && d in found && KeyOf(c) == KeyOf(d) ==> c == d)
  {
    var entries := Collect(g, day, ms);
    var found := Deduped(g, entries);
    CollectIs(g, day, ms);
    forall k | 0 <= k < |found| ensures found[k] == GroupWith(g, day, ms, entries[k].key) && IsGroup(g, day, ms, found[k]) {
      assert EntryOk(g, day, ms, entries[k]);
    }
    forall c | IsGroup(g, day, ms, c) ensures c in found {
      var m :| m in ms && c == GroupWith(g, day, ms, GroupOf(g, day, m));
      assert HasKey(entries, GroupOf(g, day, m));
      var k :| 0 <= k < |entries| && entries[k].key == GroupOf(g, day, m);
      assert found[k] == c;
    }
    if GroupKeysDiffer(g, day, ms) {
    }
  }

  lemma ConversationsAre(g: Setup, day: Day, ms: seq<Message>)
    ensures var groups := Conversations(g, day, ms);
            && Sorted(groups, ByGroupKey) && (forall c :: c in groups <==> IsGroup(g, day, ms, c))
            && (GroupKeysDiffer(g, day, ms) ==> Distinct(groups) && forall c, d :: c in groups && d in groups && KeyOf(c) == KeyOf(d) ==> c == d)
  {
    ByGroupKeyIsTotal();
    DictionaryIs(g, day, ms);
    SortFacts(Deduped(g, Collect(g, day, ms)), ByGroupKey);
  }

  /** Each group holds its agent's and session's messages and no other's; a message that is no copy is in its group. */
  lemma {:induction false} GroupsPartition(g: Setup, day: Day, ms: seq<Message>, m: Message, key: GroupKey)
    requires RefsDetermine(ms)
    ensures m in GroupWith(g, day, ms, key).messages <==>
              m in ms && GroupOf(g, day, m) == key && !IsCopy(g, m, Select(g, day, ms, key))
    ensures RefsDistinct(GroupWith(g, day, ms, key).messages)
  {
    SelectKeepsRefs(g, day, ms, key);
    DedupeKeepsExactly(g, Select(g, day, ms, key));
    SelectHas(g, day, ms, key, m);
  }

  lemma {:induction false} SelectKeepsRefs(g: Setup, day: Day, ms: seq<Message>, key: GroupKey)
    requires RefsDetermine(ms)
    ensures RefsDetermine(Select(g, day, ms, key))
  {
    forall m | m in Select(g, day, ms, key) ensures m in ms {
      SelectHas(g, day, ms, key, m);
    }
  }

  /** The messages of a group all have one session: no group mixes, say, empty and missing sessions. */
  ghost predicate SameSessions(g: Setup, day: Day, ms: seq<Message>) {
    forall m, m' :: m in ms && m' in ms && GroupOf(g, day, m) == GroupOf(g, day, m') ==> m.sessionId == m'.sessionId
  }

  lemma {:induction false} FirstSessionIs(g: Setup, day: Day, ms: seq<Message>, m: Message)
    requires m in ms
    ensures var selected := Select(g, day, ms, GroupOf(g, day, m));
            && selected != [] && selected[0] in ms && GroupOf(g, day, selected[0]) == GroupOf(g, day, m)
            && (SameSessions(g, day, ms) ==> FirstSession(selected) == m.sessionId)
  {
    var key := GroupOf(g, day, m);
    SelectHas(g, day, ms, key, m);
    SelectHas(g, day, ms, key, Select(g, day, ms, key)[0]);
  }

  lemma {:induction false} FirstSessionIgnoresOrder(g: Setup, day: Day, ms: seq<Message>, ms': seq<Message>, key: GroupKey)
    requires SameSessions(g, day, ms) && forall m :: m in ms <==> m in ms'
    ensures FirstSession(Select(g, day, ms, key)) == FirstSession(Select(g, day, ms', key))
  {
    var a, b := Select(g, day, ms, key), Select(g, day, ms', key);
    if a != [] {
      SelectHas(g, day, ms, key, a[0]);
      SelectHas(g, day, ms', key, a[0]);
      FirstSessionIs(g, day, ms', a[0]);
    }
    if b != [] {
      SelectHas(g, day, ms', key, b[0]);
      SelectHas(g, day, ms, key, b[0]);
      FirstSessionIs(g, day, ms, b[0]);
    }
  }

  lemma GroupWithIgnoresOrder(g: Setup, day: Day, ms: seq<Message>, ms': seq<Message>, key: GroupKey)
    requires RefsDetermine(ms) && SameSessions(g, day, ms) && forall m :: m in ms <==> m in ms'
    ensures GroupWith(g, day, ms, key) == GroupWith(g, day, ms', key)
  {
    FirstSessionIgnoresOrder(g, day, ms, ms', key);
    SelectKeepsRefs(g, day, ms, key);
    forall m ensures m in Select(g, day, ms, key) <==> m in Select(g, day, ms', key) {
      SelectHas(g, day, ms, key, m);
      SelectHas(g, day, ms', key, m);
    }
    DedupeIgnoresOrder(g, Select(g, day, ms, key), Select(g, day, ms', key));
  }

  /** The result does not depend on the order in which messages come in, nor on repeats. */
  lemma GroupingIgnoresOrder(g: Setup, day: Day, ms: seq<Message>, ms': seq<Message>)
    requires RefsDetermine(ms) && SameSessions(g, day, ms) && GroupKeysDiffer(g, day, ms)
    requires forall m :: m in ms <==> m in ms'
    ensures Conversations(g, day, ms) == Conversations(g, day, ms')
  {
    forall key ensures GroupWith(g, day, ms, key) == GroupWith(g, day, ms', key) {
      GroupWithIgnoresOrder(g, day, ms, ms', key);
    }
    assert GroupKeysDiffer(g, day, ms');
    ConversationsAre(g, day, ms);
    ConversationsAre(g, day, ms');
    ByGroupKeyIsTotal();
    var a, b := Conversations(g, day, ms), Conversations(g, day, ms');
    forall c, d | c in a && d in a && ByGroupKey(c, d) && ByGroupKey(d, c) ensures c == d {
      StrLeqAntisymmetric(KeyOf(c), KeyOf(d));
    }
    SortedIsUnique(a, b, ByGroupKey);
  }

  // ---- when keys coincide --------------------------------------------------------------------------

  /** Where the keys of a conversation come apart: no colon in an agent's name, and no session called `day`. */
  ghost predicate KeysReadable(g: Setup, ms: seq<Message>) {
    && (forall m :: m in ms ==> ':' !in g.lower(m.sourceAgent))
    && forall m :: m in ms && m.sessionId.Some? ==> m.sessionId.value != "day"
  }

  lemma ReadableKeysDiffer(g: Setup, day: Day, ms: seq<Message>)
    requires KeysReadable(g, ms)
    ensures GroupKeysDiffer(g, day, ms)
  {
    forall m, m' | m in ms && m' in ms && GroupOf(g, day, m) != GroupOf(g, day, m')
      ensures KeyOf(GroupWith(g, day, ms, GroupOf(g, day, m))) != KeyOf(GroupWith(g, day, ms, GroupOf(g, day, m')))
    {
      var k, k' := GroupOf(g, day, m), GroupOf(g, day, m');
      var c, c' := GroupWith(g, day, ms, k), GroupWith(g, day, ms, k');
      if KeyOf(c) == KeyOf(c') {
        var t, t' := k.agent + (":" + SessionOr(c.sessionId, "day")), k'.agent + (":" + SessionOr(c'.sessionId, "day"));
        assert KeyOf(c)[|day| + 1..] == t && KeyOf(c')[|day| + 1..] == t';
        assert t == k.agent + ":" + SessionOr(c.sessionId, "day") && t' == k'.agent + ":" + SessionOr(c'.sessionId, "day");
        SplitAt(':', k.agent, SessionOr(c.sessionId, "day"), k'.agent, SessionOr(c'.sessionId, "day"));
        SessionsShow(g, day, ms, m);
        SessionsShow(g, day, ms, m');
      }
    }
  }

  /** The last part of a readable key gives the session back. */
  lemma {:induction false} SessionsShow(g: Setup, day: Day, ms: seq<Message>, m: Message)
    requires KeysReadable(g, ms) && m in ms
    ensures var key := GroupOf(g, day, m); var shown := SessionOr(FirstSession(Select(g, day, ms, key)), "day");
            key.session == if shown == "day" then "day:" + day else shown
  {
    FirstSessionIs(g, day, ms, m);
  }

  lemma {:induction false} InsertedBeforeEquals<T>(x: T, s: seq<T>, leq: (T, T) -> bool) returns (i: nat)
    ensures i < |Insert(x, s, leq)| && Insert(x, s, leq)[i] == x
    ensures forall j :: 0 <= j < i ==> !leq(x, Insert(x, s, leq)[j])
  {
    if s == [] || leq(x, s[0]) {
      i := 0;
    } else {
      var k := InsertedBeforeEquals(x, s[1..], leq);
      i := k + 1;
    }
  }

  lemma {:induction false} FirstGroupStaysFirst(g: Setup, day: Day, m: Message, ms: seq<Message>)
    ensures var entries := Collect(g, day, [m] + ms); entries != [] && entries[0].key == GroupOf(g, day, m)
  {
    var all := [m] + ms;
    if ms == [] {
      assert all[..0] == [] && all[0] == m;
    } else {
      assert all[..|all| - 1] == [m] + ms[..|ms| - 1];
      FirstGroupStaysFirst(g, day, m, ms[..|ms| - 1]);
    }
  }

  /** With `m` read first, its group precedes every group of the same key. */
  lemma FirstReadIsFirstShown(g: Setup, day: Day, ms: seq<Message>, m: Message) returns (i: nat)
    requires m in ms
    ensures var all := [m] + ms; var shown := Conversations(g, day, all);
            && i < |shown| && shown[i] == GroupWith(g, day, all, GroupOf(g, day, m))
            && forall j :: 0 <= j < i ==> !ByGroupKey(shown[i], shown[j])
  {
    var all := [m] + ms;
    var entries := Collect(g, day, all);
    FirstGroupStaysFirst(g, day, m, ms);
    CollectIs(g, day, all);
    var found := Deduped(g, entries);
    i := InsertedBeforeEquals(found[0], Sort(found[1..], ByGroupKey), ByGroupKey);
  }

  ghost predicate SameMessages(ms: seq<Message>, ms': seq<Message>) {
    forall m :: m in ms <==> m in ms'
  }

  ghost predicate OrderImmaterial(g: Setup, day: Day, ms: seq<Message>) {
    forall ms' :: SameMessages(ms, ms') ==> Conversations(g, day, ms) == Conversations(g, day, ms')
  }

  lemma DedupeLeavesSome(g: Setup, ms: seq<Message>, m: Message) returns (k: Message)
    requires RefsDetermine(ms) && m in ms
    ensures k in Dedupe(g, ms)
  {
    DedupeKeepsExactly(g, ms);
    k := m;
    if IsCopy(g, m, ms) {
      k :| k in ms && FromFile(k);
      FilesAreNoCopies(k);
    }
  }

  /** A group is recognized by any message in it. */
  lemma GroupOfMember(g: Setup, day: Day, ms: seq<Message>, key: GroupKey, y: Message)
    requires RefsDetermine(ms) && y in GroupWith(g, day, ms, key).messages
    ensures GroupOf(g, day, y) == key
  {
    GroupsPartition(g, day, ms, y, key);
  }

  /** So two groups with the same messages have the same key. */
  lemma MessagesTellGroup(g: Setup, day: Day, ms: seq<Message>, m: Message, ms': seq<Message>, key: GroupKey)
    requires RefsDetermine(ms) && RefsDetermine(ms') && m in ms
    requires GroupWith(g, day, ms, GroupOf(g, day, m)).messages == GroupWith(g, day, ms', key).messages
    ensures key == GroupOf(g, day, m)
  {
    SelectKeepsRefs(g, day, ms, GroupOf(g, day, m));
    SelectHas(g, day, ms, GroupOf(g, day, m), m);
    var y := DedupeLeavesSome(g, Select(g, day, ms, GroupOf(g, day, m)), m);
    GroupOfMember(g, day, ms, GroupOf(g, day, m), y);
    GroupOfMember(g, day, ms', key, y);
  }

  lemma SharedKeyShowsOrder(g: Setup, day: Day, ms: seq<Message>, m: Message, m': Message)
    requires RefsDetermine(ms) && SameSessions(g, day, ms) && m in ms && m' in ms
    requires GroupOf(g, day, m) != GroupOf(g, day, m')
    requires KeyOf(GroupWith(g, day, ms, GroupOf(g, day, m))) == KeyOf(GroupWith(g, day, ms, GroupOf(g, day, m')))
    ensures Conversations(g, day, [m] + ms) != Conversations(g, day, [m'] + ms)
  {
    var c, c' := GroupWith(g, day, ms, GroupOf(g, day, m)), GroupWith(g, day, ms, GroupOf(g, day, m'));
    GroupWithIgnoresOrder(g, day, ms, [m] + ms, GroupOf(g, day, m));
    GroupWithIgnoresOrder(g, day, ms, [m'] + ms, GroupOf(g, day, m'));
    var i := FirstReadIsFirstShown(g, day, ms, m);
    var i' := FirstReadIsFirstShown(g, day, ms, m');
    StrLeqReflexive(KeyOf(c));
    assert ByGroupKey(c, c') && ByGroupKey(c', c);
    if c == c' {
      MessagesTellGroup(g, day, ms, m, ms, GroupOf(g, day, m'));
      assert false;
    }
  }

  lemma TwoOrdersTell(g: Setup, day: Day, ms: seq<Message>, a: seq<Message>, b: seq<Message>)
    requires SameMessages(ms, a) && SameMessages(ms, b) && Conversations(g, day, a) != Conversations(g, day, b)
    ensures !OrderImmaterial(g, day, ms)
  {
  }

  lemma SameWithFirst(ms: seq<Message>, m: Message)
    requires m in ms
    ensures SameMessages(ms, [m] + ms)
  {
  }

  lemma SharedKeyMatters(g: Setup, day: Day, ms: seq<Message>, m: Message, m': Message)
    requires RefsDetermine(ms) && SameSessions(g, day, ms) && m in ms && m' in ms
    requires GroupOf(g, day, m) != GroupOf(g, day, m')
    requires KeyOf(GroupWith(g, day, ms, GroupOf(g, day, m))) == KeyOf(GroupWith(g, day, ms, GroupOf(g, day, m')))
    ensures !OrderImmaterial(g, day, ms)
  {
    SharedKeyShowsOrder(g, day, ms, m, m');
    SameWithFirst(ms, m);
    SameWithFirst(ms, m');
    TwoOrdersTell(g, day, ms, [m] + ms, [m'] + ms);
  }

  // ---- when a group mixes sessions -----------------------------------------------------------------

  lemma {:induction false} FirstIsSelected(g: Setup, day: Day, m: Message, ms: seq<Message>)
    ensures var selected := Select(g, day, [m] + ms, GroupOf(g, day, m)); selected != [] && selected[0] == m
  {
    var all := [m] + ms;
    if ms == [] {
      assert all[..0] == [] && all[0] == m;
    } else {
      assert all[..|all| - 1] == [m] + ms[..|ms| - 1];
      FirstIsSelected(g, day, m, ms[..|ms| - 1]);
    }
  }

  /** The message read first decides the session of its group. */
  lemma OtherFirstOtherGroup(g: Setup, day: Day, ms: seq<Message>, m: Message, m': Message)
    requires RefsDetermine(ms) && m in ms && m' in ms
    requires GroupOf(g, day, m) == GroupOf(g, day, m') && m.sessionId != m'.sessionId
    ensures !IsGroup(g, day, [m'] + ms, GroupWith(g, day, [m] + ms, GroupOf(g, day, m)))
  {
    var key, all, all' := GroupOf(g, day, m), [m] + ms, [m'] + ms;
    var c := GroupWith(g, day, all, key);
    FirstIsSelected(g, day, m, ms);
    FirstIsSelected(g, day, m', ms);
    forall x | x in all' ensures c != GroupWith(g, day, all', GroupOf(g, day, x)) {
      if c.messages == GroupWith(g, day, all', GroupOf(g, day, x)).messages {
        MessagesTellGroup(g, day, all, m, all', GroupOf(g, day, x));
      }
    }
  }

  lemma MixedSessionsShowOrder(g: Setup, day: Day, ms: seq<Message>, m: Message, m': Message)
    requires RefsDetermine(ms) && m in ms && m' in ms
    requires GroupOf(g, day, m) == GroupOf(g, day, m') && m.sessionId != m'.sessionId
    ensures Conversations(g, day, [m] + ms) != Conversations(g, day, [m'] + ms)
  {
    var c := GroupWith(g, day, [m] + ms, GroupOf(g, day, m));
    OtherFirstOtherGroup(g, day, ms, m, m');
    ConversationsAre(g, day, [m] + ms);
    ConversationsAre(g, day, [m'] + ms);
    assert m in [m] + ms && IsGroup(g, day, [m] + ms, c);
    assert c in Conversations(g, day, [m] + ms) && c !in Conversations(g, day, [m'] + ms);
  }

  lemma MixedSessionsMatter(g: Setup, day: Day, ms: seq<Message>, m: Message, m': Message)
    requires RefsDetermine(ms) && m in ms && m' in ms
    requires GroupOf(g, day, m) == GroupOf(g, day, m') && m.sessionId != m'.sessionId
    ensures !OrderImmaterial(g, day, ms)
  {
    MixedSessionsShowOrder(g, day, ms, m, m');
    SameWithFirst(ms, m);
    SameWithFirst(ms, m');
    TwoOrdersTell(g, day, ms, [m] + ms, [m'] + ms);
  }

  /** The order of the messages is immaterial exactly if no group mixes sessions and no two groups have the same key. */
  lemma GroupingIgnoresOrderExactly(g: Setup, day: Day, ms: seq<Message>)
    requires RefsDetermine(ms)
    ensures OrderImmaterial(g, day, ms) <==> SameSessions(g, day, ms) && GroupKeysDiffer(g, day, ms)
  {
    if !SameSessions(g, day, ms) {
      var m, m' :| m in ms && m' in ms && GroupOf(g, day, m) == GroupOf(g, day, m') && m.sessionId != m'.sessionId;
      MixedSessionsMatter(g, day, ms, m, m');
    } else if GroupKeysDiffer(g, day, ms) {
      forall ms' | SameMessages(ms, ms') ensures Conversations(g, day, ms) == Conversations(g, day, ms') {
        GroupingIgnoresOrder(g, day, ms, ms');
      }
    } else {
      var m, m' :| && m in ms && m' in ms && GroupOf(g, day, m) != GroupOf(g, day, m')
                   && KeyOf(GroupWith(g, day, ms, GroupOf(g, day, m))) == KeyOf(GroupWith(g, day, ms, GroupOf(g, day, m')));
      SharedKeyMatters(g, day, ms, m, m');
    }
  }

  /** A session that is literally called `day` next to messages without a session is such a case. */
  lemma DayIsAmbiguous(g: Setup, day: Day, ms: seq<Message>, m: Message, m': Message)
    requires RefsDetermine(ms) && m in ms && m' in ms
    requires g.lower(m.sourceAgent) == g.lower(m'.sourceAgent) && m.sessionId == None && m'.sessionId == Some("day")
    ensures !OrderImmaterial(g, day, ms)
  {
    assert GroupOf(g, day, m').session == "day" && |"day:" + day| > |"day"|;
    assert GroupOf(g, day, m).session != "day";
    GroupingIgnoresOrderExactly(g, day, ms);
    if SameSessions(g, day, ms) {
      FirstSessionIs(g, day, ms, m);
      FirstSessionIs(g, day, ms, m');
      SharedKeyMatters(g, day, ms, m, m');
    }
  }
}
