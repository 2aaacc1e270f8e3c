/**
 Rendering a conversation into bounded chunks and reducing the partial summaries (`render_message_chunks` and the
 merge loop of `summarize_conversation` in memorybridge/daily_summary.py).  Redaction, the time stamp's text and the
 model's replies are parameters.
 */
module Summaries {
  import opened Basics
  import Json

  datatype Message = Message(timestamp: int, role: string, content: string, sourceAgent: string,
                             sessionId: Option<string>, sourceRef: string)

  function StripLeft(s: string): (r: string)
    ensures |r| <= |s|
  {
    if s != "" && IsSpace(s[0]) then StripLeft(s[1..]) else s
  }

  function StripRight(s: string): (r: string)
    ensures |r| <= |s|
  {
    if s != "" && IsSpace(s[|s| - 1]) then StripRight(s[..|s| - 1]) else s
  }

  function Strip(s: string): string {
    StripRight(StripLeft(s))
  }

  datatype Rendering = Rendering(stamp: int -> string, redact: string -> string)

  function Prefix(g: Rendering, m: Message): string {
    "[" + (g.stamp(m.timestamp) + ("] " + (m.role + ": ")))
  }

  function Body(g: Rendering, m: Message): string {
    Strip(g.redact(m.content))
  }

  function SegmentLimit(prefix: string, maxChars: int, maxMessageChars: int): nat {
    Max(1, Min(maxMessageChars, maxChars - |prefix|))
  }

  function Cut(s: string, n: int): string {
    if n < 0 then (if |s| + n < 0 then "" else s[..|s| + n]) else if |s| <= n then s else s[..n]
  }

  /** The blocks of one message from `start` on. */
  function BlocksFrom(prefix: string, body: string, limit: nat, maxChars: int, start: nat): seq<string>
    requires limit > 0
    decreases |body| - start
  {
    if start >= |body| then []
    else [Cut(prefix + Cut(body[start..], limit), maxChars)] + BlocksFrom(prefix, body, limit, maxChars, start + limit)
  }

  function BlocksOf(g: Rendering, m: Message, maxChars: int, maxMessageChars: int): seq<string> {
    BlocksFrom(Prefix(g, m), Body(g, m), SegmentLimit(Prefix(g, m), maxChars, maxMessageChars), maxChars, 0)
  }

  function Blocks(g: Rendering, ms: seq<Message>, maxChars: int, maxMessageChars: int): seq<string> {
    if ms == [] then []
    else Blocks(g, ms[..|ms| - 1], maxChars, maxMessageChars) + BlocksOf(g, ms[|ms| - 1], maxChars, maxMessageChars)
  }

  // ---- packing -------------------------------------------------------------------------------------

  /** The size that packing counts: each block with a separator. */
  function Size(group: seq<string>): nat {
    if group == [] then 0 else Size(group[..|group| - 1]) + |group[|group| - 1]| + 2
  }

  function Join(group: seq<string>): string {
    if group == [] then ""
    else if |group| == 1 then group[0]
    else Join(group[..|group| - 1]) + ("\n\n" + group[|group| - 1])
  }

  /** A block joins the last group if it fits there. */
  /** In a chunk the blocks stand one after the other, an empty line between them. */
  lemma {:induction false} JoinOfMore(group: seq<string>, block: string)
    ensures Join(group + [block]) == if group == [] then block else Join(group) + "\n\n" + block
  {
    assert (group + [block])[..|group|] == group && (group + [block])[|group|] == block;
    if group != [] {
      assert Join(group) + ("\n\n" + block) == Join(group) + "\n\n" + block;
    }
  }

  function AddBlock(groups: seq<seq<string>>, block: string, limit: int): seq<seq<string>> {
    if groups != [] && Size(groups[|groups| - 1]) + |block| + 2 <= limit
    then groups[..|groups| - 1] + [groups[|groups| - 1] + [block]]
    else groups + [[block]]
  }

  function Groups(blocks: seq<string>, limit: int): (groups: seq<seq<string>>)
    ensures groups == [] <==> blocks == []
  {
    if blocks == [] then [] else AddBlock(Groups(blocks[..|blocks| - 1], limit), blocks[|blocks| - 1], limit)
  }

  function JoinAll(groups: seq<seq<string>>): (chunks: seq<string>)
    ensures |chunks| == |groups| && forall k :: 0 <= k < |groups| ==> chunks[k] == Join(groups[k])
  {
    if groups == [] then [] else [Join(groups[0])] + JoinAll(groups[1..])
  }

  function Concat(groups: seq<seq<string>>): seq<string> {
    if groups == [] then [] else Concat(groups[..|groups| - 1]) + groups[|groups| - 1]
  }

  lemma {:induction false} JoinAllMore(groups: seq<seq<string>>, group: seq<string>)
    ensures JoinAll(groups + [group]) == JoinAll(groups) + [Join(group)]
  {
  }

  lemma {:induction false} JoinMore(group: seq<string>, block: string)
    requires group != []
    ensures Join(group + [block]) == Join(group) + ("\n\n" + block)
    ensures Size(group + [block]) == Size(group) + |block| + 2
  {
  }

  lemma SizeOfOne(block: string)
    ensures Size([block]) == |block| + 2 && Join([block]) == block
  {
  }

  lemma {:induction false} JoinedLength(group: seq<string>)
    requires group != []
    ensures |Join(group)| == Size(group) - 2
  {
    var init, last := group[..|group| - 1], group[|group| - 1];
    assert group == init + [last];
    if init == [] {
      SizeOfOne(last);
    } else {
      JoinedLength(init);
      JoinMore(init, last);
    }
  }

  /** The closed groups, and the one still open, which packing has reached after `k` blocks. */
  ghost predicate Packed(blocks: seq<string>, k: nat, limit: int, closed: seq<seq<string>>, current: seq<string>)
    requires k <= |blocks|
  {
    Groups(blocks[..k], limit) == if current == [] then closed else closed + [current]
  }

  lemma {:induction false} PacksOne(blocks: seq<string>, k: nat, limit: int, closed: seq<seq<string>>, current: seq<string>)
    requires k < |blocks| && Packed(blocks, k, limit, closed, current) && (current == [] ==> closed == [])
    ensures current != [] && Size(current) + |blocks[k]| + 2 > limit ==>
              Packed(blocks, k + 1, limit, closed + [current], [blocks[k]])
    ensures current == [] || Size(current) + |blocks[k]| + 2 <= limit ==>
              Packed(blocks, k + 1, limit, closed, current + [blocks[k]])
  {
    assert blocks[..k + 1][..k] == blocks[..k] && blocks[..k + 1][k] == blocks[k];
    if current != [] {
      var before := Groups(blocks[..k], limit);
      assert before[|before| - 1] == current && before[..|before| - 1] == closed;
    } else {
      assert [] + [blocks[k]] == [blocks[k]];
    }
  }

  /** The loop that both callers run: join blocks while they fit. */
  method Pack(blocks: seq<string>, limit: int) returns (chunks: seq<string>)
    ensures chunks == JoinAll(Groups(blocks, limit))
  {
    chunks := [];
    var current, size := [], 0;
    ghost var closed: seq<seq<string>> := [];
    for k := 0 to |blocks|
      invariant Packed(blocks, k, limit, closed, current) && (current == [] ==> closed == [])
      invariant size == Size(current) && chunks == JoinAll(closed)
    {
      var block := blocks[k];
      PacksOne(blocks, k, limit, closed, current);
      SizeOfOne(block);
      if current != [] && size + |block| + 2 > limit {
        JoinAllMore(closed, current);
        closed, chunks := closed + [current], chunks + [Join(current)];
        current, size := [], 0;
      }
      if current != [] {
        JoinMore(current, block);
      }
      assert [] + [block] == [block];
      current, size := current + [block], size + |block| + 2;
    }
    assert blocks[..|blocks|] == blocks;
    if current != [] {
      JoinAllMore(closed, current);
      chunks := chunks + [Join(current)];
    }
  }

  lemma RegroupBlocks(blocks: seq<string>, block: string, more: seq<string>)
    ensures blocks + ([block] + more) == blocks + [block] + more
  {
  }

  /** One message, cut into segments that each carry the prefix. */
  method RenderMessage(prefix: string, body: string, limit: nat, maxChars: int) returns (blocks: seq<string>)
    requires limit > 0
    ensures blocks == BlocksFrom(prefix, body, limit, maxChars, 0)
  {
    blocks := [];
    var start := 0;
    while start < |body|
      invariant blocks + BlocksFrom(prefix, body, limit, maxChars, start) == BlocksFrom(prefix, body, limit, maxChars, 0)
      decreases |body| - start
    {
      var block := Cut(prefix + Cut(body[start..], limit), maxChars);
      RegroupBlocks(blocks, block, BlocksFrom(prefix, body, limit, maxChars, start + limit));
      blocks := blocks + [block];
      start := start + limit;
    }
    assert blocks + [] == blocks;
  }

  method RenderMessageChunks(g: Rendering, ms: seq<Message>, maxChars: int, maxMessageChars: int)
    returns (chunks: seq<string>)
    ensures chunks == JoinAll(Groups(Blocks(g, ms, maxChars, maxMessageChars), maxChars))
  {
    var blocks: seq<string> := [];
    for i := 0 to |ms|
      invariant blocks == Blocks(g, ms[..i], maxChars, maxMessageChars)
    {
      var prefix := Prefix(g, ms[i]);
      var more := RenderMessage(prefix, Body(g, ms[i]), SegmentLimit(prefix, maxChars, maxMessageChars), maxChars);
      assert ms[..i + 1][..i] == ms[..i] && ms[..i + 1][i] == ms[i];
      blocks := blocks + more;
    }
    assert ms[..|ms|] == ms;
    chunks := Pack(blocks, maxChars);
  }

  // ---- what packing keeps --------------------------------------------------------------------------

  /** A group is one block, or fits. */
  predicate GroupFits(group: seq<string>, limit: int) {
    group != [] && (|group| == 1 || Size(group) <= limit)
  }

  ghost predicate AllFit(groups: seq<seq<string>>, limit: int) {
    forall k :: 0 <= k < |groups| ==> GroupFits(groups[k], limit)
  }

  lemma AddBlockFits(groups: seq<seq<string>>, block: string, limit: int)
    requires AllFit(groups, limit)
    ensures AllFit(AddBlock(groups, block, limit), limit)
  {
  }

  lemma {:induction false} AddBlockConcat(groups: seq<seq<string>>, block: string, limit: int)
    ensures Concat(AddBlock(groups, block, limit)) == Concat(groups) + [block]
  {
  }

  lemma {:induction false} GroupsFit(blocks: seq<string>, limit: int)
    ensures AllFit(Groups(blocks, limit), limit) && Concat(Groups(blocks, limit)) == blocks
  {
    if blocks != [] {
      var init, block := blocks[..|blocks| - 1], blocks[|blocks| - 1];
      GroupsFit(init, limit);
      AddBlockFits(Groups(init, limit), block, limit);
      AddBlockConcat(Groups(init, limit), block, limit);
      assert blocks == init + [block];
    }
  }

  lemma {:induction false} BlocksAreInGroups(groups: seq<seq<string>>, k: nat, b: string)
    requires k < |groups| && b in groups[k]
    ensures b in Concat(groups)
  {
    if k < |groups| - 1 {
      BlocksAreInGroups(groups[..|groups| - 1], k, b);
    }
  }

  lemma {:induction false} BlocksFromFit(prefix: string, body: string, limit: nat, maxChars: nat, start: nat, b: string)
    requires limit > 0 && b in BlocksFrom(prefix, body, limit, maxChars, start)
    ensures |b| <= maxChars
    decreases |body| - start
  {
    if b != BlocksFrom(prefix, body, limit, maxChars, start)[0] {
      BlocksFromFit(prefix, body, limit, maxChars, start + limit, b);
    }
  }

  lemma {:induction false} BlocksFit(g: Rendering, ms: seq<Message>, maxChars: nat, maxMessageChars: int, b: string)
    requires b in Blocks(g, ms, maxChars, maxMessageChars)
    ensures |b| <= maxChars
  {
    var init, m := ms[..|ms| - 1], ms[|ms| - 1];
    if b in Blocks(g, init, maxChars, maxMessageChars) {
      BlocksFit(g, init, maxChars, maxMessageChars, b);
    } else {
      BlocksFromFit(Prefix(g, m), Body(g, m), SegmentLimit(Prefix(g, m), maxChars, maxMessageChars), maxChars, 0, b);
    }
  }

  /** No chunk is longer than asked, separators included, and the chunks hold all blocks in order. */
  lemma {:induction false} ChunksAreBounded(g: Rendering, ms: seq<Message>, maxChars: nat, maxMessageChars: int)
    ensures var (blocks, groups) := (Blocks(g, ms, maxChars, maxMessageChars), Groups(Blocks(g, ms, maxChars, maxMessageChars), maxChars));
            && Concat(groups) == blocks
            && forall k :: 0 <= k < |groups| ==> |JoinAll(groups)[k]| <= maxChars
  {
    var blocks := Blocks(g, ms, maxChars, maxMessageChars);
    var groups := Groups(blocks, maxChars);
    GroupsFit(blocks, maxChars);
    forall k | 0 <= k < |groups| ensures |JoinAll(groups)[k]| <= maxChars {
      assert GroupFits(groups[k], maxChars);
      JoinedLength(groups[k]);
      if |groups[k]| == 1 {
        BlocksAreInGroups(groups, k, groups[k][0]);
        BlocksFit(g, ms, maxChars, maxMessageChars, groups[k][0]);
        SizeOfOne(groups[k][0]);
        assert groups[k] == [groups[k][0]];
      }
    }
  }

  // ---- what rendering keeps ------------------------------------------------------------------------

  /** The blocks without their prefixes, one after the other. */
  function Unprefixed(blocks: seq<string>, n: nat): string {
    if blocks == [] then "" else (if |blocks[0]| <= n then "" else blocks[0][n..]) + Unprefixed(blocks[1..], n)
  }

  lemma {:induction false} UnprefixedStep(prefix: string, segment: string, more: seq<string>)
    ensures Unprefixed([prefix + segment] + more, |prefix|) == segment + Unprefixed(more, |prefix|)
  {
  }

  lemma RoomyStep(prefix: string, body: string, limit: nat, maxChars: int, start: nat)
    requires limit > 0 && |prefix| + limit <= maxChars && start < |body|
    ensures BlocksFrom(prefix, body, limit, maxChars, start)
         == [prefix + Cut(body[start..], limit)] + BlocksFrom(prefix, body, limit, maxChars, start + limit)
    ensures Cut(body[start..], limit) == body[start..Min(start + limit, |body|)]
  {
  }

  lemma {:induction false} RoomyBlocksKeepText(prefix: string, body: string, limit: nat, maxChars: int, start: nat)
    requires limit > 0 && |prefix| + limit <= maxChars && start <= |body|
    ensures Unprefixed(BlocksFrom(prefix, body, limit, maxChars, start), |prefix|) == body[start..]
    decreases |body| - start
  {
    if start < |body| {
      var segment := Cut(body[start..], limit);
      RoomyStep(prefix, body, limit, maxChars, start);
      UnprefixedStep(prefix, segment, BlocksFrom(prefix, body, limit, maxChars, start + limit));
      if start + limit <= |body| {
        RoomyBlocksKeepText(prefix, body, limit, maxChars, start + limit);
        assert segment + body[start + limit..] == body[start..];
      } else {
        assert segment + "" == body[start..];
      }
    }
  }

  lemma {:induction false} TightBlocksKeepNothing(prefix: string, body: string, limit: nat, maxChars: nat, start: nat)
    requires limit > 0 && maxChars <= |prefix|
    ensures Unprefixed(BlocksFrom(prefix, body, limit, maxChars, start), |prefix|) == ""
    decreases |body| - start
  {
    if start < |body| {
      TightBlocksKeepNothing(prefix, body, limit, maxChars, start + limit);
      var blocks := BlocksFrom(prefix, body, limit, maxChars, start);
      assert blocks[1..] == BlocksFrom(prefix, body, limit, maxChars, start + limit);
    }
  }

  /** `t` is `s` without the space around it. */
  ghost predicate Strips(s: string, t: string) {
    exists i, j :: 0 <= i <= j <= |s| && IsMiddle(s, i, j, t)
  }

  ghost predicate IsMiddle(s: string, i: nat, j: nat, t: string)
    requires i <= j <= |s|
  {
    && t == s[i..j] && (forall k :: 0 <= k < i || j <= k < |s| ==> IsSpace(s[k]))
    && (i < j ==> !IsSpace(s[i]) && !IsSpace(s[j - 1]))
  }

  lemma {:induction false} StripLeftIs(s: string) returns (i: nat)
    ensures i <= |s| && StripLeft(s) == s[i..] && (forall k :: 0 <= k < i ==> IsSpace(s[k])) && (i < |s| ==> !IsSpace(s[i]))
  {
    i := 0;
    if s != "" && IsSpace(s[0]) {
      var n := StripLeftIs(s[1..]);
      i := n + 1;
      forall k | 0 <= k < i ensures IsSpace(s[k]) {
        assert k > 0 ==> s[k] == s[1..][k - 1];
      }
    }
  }

  lemma {:induction false} StripRightIs(s: string) returns (j: nat)
    ensures j <= |s| && StripRight(s) == s[..j] && (forall k :: j <= k < |s| ==> IsSpace(s[k])) && (0 < j ==> !IsSpace(s[j - 1]))
  {
    j := |s|;
    if s != "" && IsSpace(s[|s| - 1]) {
      j := StripRightIs(s[..|s| - 1]);
    }
  }

  lemma StripStrips(s: string)
    ensures Strips(s, Strip(s))
  {
    var i := StripLeftIs(s);
    var j := StripRightIs(s[i..]);
    assert s[i..][..j] == s[i..i + j];
    forall k | i + j <= k < |s| ensures IsSpace(s[k]) {
      assert s[i..][k - i] == s[k];
    }
    assert IsMiddle(s, i, i + j, Strip(s));
  }

  lemma StripsOnce(s: string, t: string, t': string)
    requires Strips(s, t) && Strips(s, t')
    ensures t == t'
  {
    var i, j :| 0 <= i <= j <= |s| && IsMiddle(s, i, j, t);
    var i', j' :| 0 <= i' <= j' <= |s| && IsMiddle(s, i', j', t');
  }

  lemma StripsToNothing(s: string)
    ensures Strips(s, "") <==> Blank(s)
  {
    if Blank(s) {
      assert IsMiddle(s, 0, 0, "");
    }
  }

  /** A block holds at most `maxMessageChars` characters of the text, or one. */
  lemma {:induction false} SegmentsAreShort(g: Rendering, m: Message, maxChars: nat, maxMessageChars: int, b: string)
    requires b in BlocksOf(g, m, maxChars, maxMessageChars)
    ensures |b| <= |Prefix(g, m)| + if maxMessageChars < 1 then 1 else maxMessageChars
  {
    ShortFrom(Prefix(g, m), Body(g, m), SegmentLimit(Prefix(g, m), maxChars, maxMessageChars), maxChars, 0, b);
  }

  lemma {:induction false} ShortFrom(prefix: string, body: string, limit: nat, maxChars: int, start: nat, b: string)
    requires limit > 0 && b in BlocksFrom(prefix, body, limit, maxChars, start)
    ensures |b| <= |prefix| + limit
    decreases |body| - start
  {
    if b != BlocksFrom(prefix, body, limit, maxChars, start)[0] {
      ShortFrom(prefix, body, limit, maxChars, start + limit, b);
    }
  }

  /** With room behind it every block of a message starts with the time, the role and a colon. */
  lemma {:induction false} BlocksCarryPrefix(g: Rendering, m: Message, maxChars: nat, maxMessageChars: int, b: string)
    requires |Prefix(g, m)| < maxChars && b in BlocksOf(g, m, maxChars, maxMessageChars)
    ensures "[" + g.stamp(m.timestamp) + "] " + m.role + ": " <= b
  {
    var prefix := Prefix(g, m);
    assert prefix == "[" + g.stamp(m.timestamp) + "] " + m.role + ": ";
    PrefixedFrom(prefix, Body(g, m), SegmentLimit(prefix, maxChars, maxMessageChars), maxChars, 0, b);
  }

  lemma {:induction false} PrefixedFrom(prefix: string, body: string, limit: nat, maxChars: int, start: nat, b: string)
    requires limit > 0 && |prefix| < maxChars && b in BlocksFrom(prefix, body, limit, maxChars, start)
    ensures prefix <= b
    decreases |body| - start
  {
    if b != BlocksFrom(prefix, body, limit, maxChars, start)[0] {
      PrefixedFrom(prefix, body, limit, maxChars, start + limit, b);
    }
  }

  /**
   A message's text, redacted and without the space around it, survives rendering exactly when that leaves nothing or
   a character fits behind its prefix.
   */
  lemma TextSurvivesExactly(g: Rendering, m: Message, maxChars: nat, maxMessageChars: int)
    ensures Strips(g.redact(m.content), Unprefixed(BlocksOf(g, m, maxChars, maxMessageChars), |Prefix(g, m)|))
            <==> Blank(g.redact(m.content)) || |Prefix(g, m)| < maxChars
  {
    var prefix, body := Prefix(g, m), Body(g, m);
    var limit := SegmentLimit(prefix, maxChars, maxMessageChars);
    StripStrips(g.redact(m.content));
    StripsToNothing(g.redact(m.content));
    if |prefix| < maxChars {
      RoomyBlocksKeepText(prefix, body, limit, maxChars, 0);
      assert body[0..] == body;
    } else {
      TightBlocksKeepNothing(prefix, body, limit, maxChars, 0);
    }
  }

  // ---- merging partial summaries -------------------------------------------------------------------

  /** The heading of a partial summary: four characters and its number. */
  function Label(index: nat): string {
    "\U{7247}\U{6BB5}\U{6458}\U{8981} " + (Digits(index) + ": ")
  }

  function Labelled(values: seq<string>): (blocks: seq<string>)
    ensures |blocks| == |values| && forall k :: 0 <= k < |values| ==> blocks[k] == Label(k + 1) + values[k]
  {
    if values == [] then []
    else Labelled(values[..|values| - 1]) + [Label(|values|) + values[|values| - 1]]
  }

  /** Headings tell the values apart by their number. */
  lemma LabelsDiffer(i: nat, j: nat)
    requires Label(i) == Label(j)
    ensures i == j
  {
    var a, b := Digits(i) + ": ", Digits(j) + ": ";
    assert a == Label(i)[5..] && b == Label(j)[5..];
    assert Digits(i) == a[..|a| - 2] && Digits(j) == b[..|b| - 2];
    Json.DigitsRead(i);
    Json.DigitsRead(j);
  }

  /** The model's answer to each call, by its number; none or a blank one makes the summary fail. */
  type Model = nat -> Option<string>

  /** The answers to `n` calls. */
  function Replies(model: Model, call: nat, n: nat): Option<seq<string>> {
    if n == 0 then Some([])
    else
      match (Replies(model, call, n - 1), model(call + n - 1))
      case (Some(before), Some(reply)) => if Blank(reply) then None else Some(before + [reply])
      case _ => None
  }

  lemma {:induction false} RepliesAre(model: Model, call: nat, n: nat)
    ensures var r := Replies(model, call, n);
            r.Some? ==> |r.value| == n && forall k :: 0 <= k < n ==> model(call + k) == Some(r.value[k])
  {
    if n > 0 {
      RepliesAre(model, call, n - 1);
    }
  }

  method AskAll(model: Model, call: nat, prompts: seq<string>) returns (replies: Option<seq<string>>)
    ensures replies == Replies(model, call, |prompts|)
  {
    var answers: seq<string> := [];
    for k := 0 to |prompts|
      invariant Replies(model, call, k) == Some(answers)
    {
      var reply := model(call + k);
      if reply.None? || Blank(reply.value) {
        MissingReply(model, call, |prompts|, k);
        return None;
      }
      answers := answers + [reply.value];
    }
    replies := Some(answers);
  }

  lemma {:induction false} MissingReply(model: Model, call: nat, n: nat, k: nat)
    requires k < n && (model(call + k).None? || Blank(model(call + k).value))
    ensures Replies(model, call, n).None?
  {
    if k < n - 1 {
      MissingReply(model, call, n - 1, k);
    }
  }

  datatype Outcome = Merged(values: seq<string>, calls: nat) | Failed | Unfinished(values: seq<string>, calls: nat)

  function Batches(values: seq<string>, limit: int): seq<seq<string>> {
    Groups(Labelled(values), limit)
  }

  /** How many batches a round makes of its values. */
  type Counter = seq<string> -> nat

  function Batcher(limit: int): Counter {
    values => |Batches(values, limit)|
  }

  /** The merge loop, cut off after `rounds` rounds. */
  function Merge(model: Model, batches: Counter, values: seq<string>, calls: nat, rounds: nat): Outcome
    decreases rounds
  {
    if |values| <= 1 || batches(values) == 1 then Merged(values, calls)
    else if rounds == 0 then Unfinished(values, calls)
    else
      match Replies(model, calls, batches(values))
      case None => Failed
      case Some(replies) => Merge(model, batches, replies, calls + batches(values), rounds - 1)
  }

  method PackLabelled(values: seq<string>, limit: int) returns (prompts: seq<string>)
    ensures prompts == JoinAll(Batches(values, limit)) && |prompts| == Batcher(limit)(values)
  {
    prompts := Pack(Labelled(values), limit);
  }

  /** One round: its prompts, and the answers if the loop goes on to ask for them. */
  method AskRound(model: Model, limit: int, values: seq<string>, calls: nat) returns (count: nat, replies: Option<seq<string>>)
    ensures count == |Batches(values, limit)|
    ensures count != 1 ==> replies == Replies(model, calls, count)
  {
    var prompts := PackLabelled(values, limit);
    count, replies := |prompts|, None;
    if count != 1 {
      replies := AskAll(model, calls, prompts);
    }
  }

  ghost predicate CountsAt(batches: Counter, limit: int, values: seq<string>) {
    batches(values) == |Batches(values, limit)|
  }

  ghost predicate CountsBatches(batches: Counter, limit: int) {
    forall values :: CountsAt(batches, limit, values)
  }

  /** The loop, from here on, comes to this outcome. */
  ghost predicate Leads(model: Model, batches: Counter, values: seq<string>, calls: nat, rounds: nat, outcome: Outcome) {
    outcome == Merge(model, batches, values, calls, rounds)
  }

  lemma {:induction false} LeadsOn(model: Model, batches: Counter, values: seq<string>, calls: nat, rounds: nat, outcome: Outcome)
    requires |values| > 1 && Leads(model, batches, values, calls, rounds, outcome)
    ensures var (count, replies) := (batches(values), Replies(model, calls, batches(values)));
            if count == 1 then outcome == Merged(values, calls)
            else if rounds == 0 then outcome == Unfinished(values, calls)
            else if replies.None? then outcome == Failed
            else Leads(model, batches, replies.value, calls + count, rounds - 1, outcome)
  {
  }

  /** Such a round leads on to the same outcome. */
  method MergeRound(model: Model, limit: int, ghost batches: Counter, values: seq<string>, calls: nat, ghost left: nat,
                    ghost whole: Outcome)
    returns (count: nat, replies: Option<seq<string>>)
    requires CountsAt(batches, limit, values) && |values| > 1 && Leads(model, batches, values, calls, left, whole)
    ensures count == 1 ==> whole == Merged(values, calls)
    ensures count != 1 && left == 0 ==> whole == Unfinished(values, calls)
    ensures count != 1 && left > 0 ==>
              if replies.None? then whole == Failed else Leads(model, batches, replies.value, calls + count, left - 1, whole)
  {
    LeadsOn(model, batches, values, calls, left, whole);
    count, replies := AskRound(model, limit, values, calls);
  }

  lemma LeadsToItself(model: Model, batches: Counter, values: seq<string>, calls: nat, rounds: nat, outcome: Outcome)
    requires |values| <= 1 && Leads(model, batches, values, calls, rounds, outcome)
    ensures outcome == Merged(values, calls)
  {
  }

  /** The loop comes to `whole`, whatever that is for the values it starts from. */
  method MergeLoop(model: Model, limit: int, ghost batches: Counter, partials: seq<string>, start: nat, rounds: nat,
                   ghost whole: Outcome)
    returns (outcome: Outcome)
    requires CountsBatches(batches, limit) && Leads(model, batches, partials, start, rounds, whole)
    ensures outcome == whole
  {
    var compact: seq<string>, calls: nat, left: nat := partials, start, rounds;
    while |compact| > 1
      invariant Leads(model, batches, compact, calls, left, whole)
      decreases left
    {
      assert CountsAt(batches, limit, compact);
      var count, replies := MergeRound(model, limit, batches, compact, calls, left, whole);
      if count == 1 {
        return Merged(compact, calls);
      }
      if left == 0 {
        return Unfinished(compact, calls);
      }
      if replies.None? {
        return Failed;
      }
      compact, calls, left := replies.value, calls + count, left - 1;
    }
    LeadsToItself(model, batches, compact, calls, left, whole);
    outcome := Merged(compact, calls);
  }

  // ---- when the loop ends --------------------------------------------------------------------------

  /** Some block fits together with the one after it. */
  predicate PairFits(blocks: seq<string>, limit: int) {
    exists k :: 0 <= k < |blocks| - 1 && |blocks[k]| + |blocks[k + 1]| + 4 <= limit
  }

  /** While no two neighbours fit, packing leaves every block alone. */
  ghost predicate Alone(groups: seq<seq<string>>, blocks: seq<string>) {
    |groups| == |blocks| && (blocks != [] ==> groups != [] && groups[|groups| - 1] == [blocks[|blocks| - 1]])
  }

  lemma AddBlockAlone(groups: seq<seq<string>>, init: seq<string>, block: string, limit: int)
    requires Alone(groups, init) && (groups == [] <==> init == [])
    ensures var after := AddBlock(groups, block, limit);
            if init != [] && |init[|init| - 1]| + |block| + 4 <= limit then |after| == |init| else Alone(after, init + [block])
  {
    if init != [] {
      SizeOfOne(init[|init| - 1]);
    }
  }

  /** Packing leaves fewer pieces than blocks exactly if two neighbours fit together. */
  lemma {:induction false} PackingShrinksExactly(blocks: seq<string>, limit: int)
    ensures if PairFits(blocks, limit) then |Groups(blocks, limit)| < |blocks| else Alone(Groups(blocks, limit), blocks)
  {
    if blocks != [] {
      var init, block := blocks[..|blocks| - 1], blocks[|blocks| - 1];
      assert blocks == init + [block];
      PackingShrinksExactly(init, limit);
      if PairFits(init, limit) {
        var k :| 0 <= k < |init| - 1 && |init[k]| + |init[k + 1]| + 4 <= limit;
        assert |blocks[k]| + |blocks[k + 1]| + 4 <= limit;
      } else {
        AddBlockAlone(Groups(init, limit), init, block, limit);
        if init != [] {
          PairFitsMore(blocks, limit);
        }
      }
    }
  }

  lemma PairFitsMore(blocks: seq<string>, limit: int)
    requires |blocks| > 1 && !PairFits(blocks[..|blocks| - 1], limit)
    ensures PairFits(blocks, limit) <==> |blocks[|blocks| - 2]| + |blocks[|blocks| - 1]| + 4 <= limit
  {
  }

  /** No more than half the limit, separator included. */
  predicate IsSmall(block: string, limit: int) {
    2 * (|block| + 2) <= limit
  }

  /** What packing `n` small blocks keeps: every group but the last holds two or more, and fits. */
  ghost predicate Halved(groups: seq<seq<string>>, n: nat, limit: int) {
    && 2 * |groups| <= n + 1
    && (groups != [] && |groups[|groups| - 1]| != 1 ==> 2 * |groups| <= n)
    && (groups != [] ==> Size(groups[|groups| - 1]) <= limit)
    && (groups != [] && |groups[|groups| - 1]| == 1 ==> 2 * Size(groups[|groups| - 1]) <= limit)
  }

  lemma HalvedMore(groups: seq<seq<string>>, n: nat, limit: int, block: string)
    requires Halved(groups, n, limit) && IsSmall(block, limit) && (groups == [] <==> n == 0)
    requires groups != [] ==> groups[|groups| - 1] != []
    ensures Halved(AddBlock(groups, block, limit), n + 1, limit)
  {
  }

  lemma {:induction false} SmallBlocksHalve(blocks: seq<string>, limit: int)
    requires forall k :: 0 <= k < |blocks| ==> IsSmall(blocks[k], limit)
    ensures Halved(Groups(blocks, limit), |blocks|, limit)
  {
    if blocks != [] {
      var init, block := blocks[..|blocks| - 1], blocks[|blocks| - 1];
      SmallBlocksHalve(init, limit);
      GroupsFit(init, limit);
      var before := Groups(init, limit);
      assert before != [] ==> GroupFits(before[|before| - 1], limit);
      assert IsSmall(block, limit);
      HalvedMore(before, |init|, limit, block);
    }
  }

  /** Every heading with every value makes a small block. */
  predicate AllSmall(values: seq<string>, limit: int, n: nat) {
    forall k, i :: 0 <= k < |values| && 1 <= i <= n ==> IsSmall(Label(i) + values[k], limit)
  }

  /** So do the model's replies. */
  ghost predicate RepliesSmall(model: Model, limit: int, n: nat) {
    forall call, i :: model(call).Some? && 1 <= i <= n ==> IsSmall(Label(i) + model(call).value, limit)
  }

  lemma RoundHalves(values: seq<string>, limit: int, n: nat)
    requires AllSmall(values, limit, n) && |values| <= n
    ensures 2 * |Batches(values, limit)| <= |values| + 1
  {
    SmallBlocksHalve(Labelled(values), limit);
  }

  /** No batch is over the limit unless one of its blocks alone is. */
  lemma {:induction false} BatchesFit(values: seq<string>, limit: int, k: nat)
    requires k < |Batches(values, limit)|
    requires forall i :: 0 <= i < |values| ==> |Label(i + 1) + values[i]| <= limit
    ensures |Join(Batches(values, limit)[k])| <= limit
    ensures Concat(Batches(values, limit)) == Labelled(values)
  {
    var blocks, groups := Labelled(values), Batches(values, limit);
    GroupsFit(blocks, limit);
    assert GroupFits(groups[k], limit);
    JoinedLength(groups[k]);
    if |groups[k]| == 1 {
      BlocksAreInGroups(groups, k, groups[k][0]);
      SizeOfOne(groups[k][0]);
      assert groups[k] == [groups[k][0]];
    }
  }

  ghost predicate EndsWithin(outcome: Outcome, calls: nat, count: nat) {
    && !outcome.Unfinished?
    && (outcome.Merged? ==> 0 < |outcome.values| && calls <= outcome.calls <= calls + 2 * Max(0, count - 2))
  }

  /** The calls of a round, and then those that fewer than half as many values take. */
  lemma RoundsAddUp(outcome: Outcome, calls: nat, batches: nat, count: nat)
    requires EndsWithin(outcome, calls + batches, batches) && 2 <= batches && 2 * batches <= count + 1
    ensures EndsWithin(outcome, calls, count)
  {
  }

  /** What ends the loop: lists of a kind that every round at least halves, and that the model's replies make again. */
  ghost predicate Shrinking(model: Model, batches: Counter, kind: seq<string> -> bool, n: nat) {
    && (forall values :: kind(values) && 0 < |values| <= n ==> 0 < batches(values) && 2 * batches(values) <= |values| + 1)
    && forall call, k :: Replies(model, call, k).Some? ==>
         |Replies(model, call, k).value| == k && kind(Replies(model, call, k).value)
  }

  lemma {:induction false} ShrinkingMergeEnds(model: Model, batches: Counter, kind: seq<string> -> bool, n: nat,
                                              values: seq<string>, calls: nat, rounds: nat)
    requires Shrinking(model, batches, kind, n) && kind(values) && 0 < |values| <= n && |values| <= rounds + 2
    ensures EndsWithin(Merge(model, batches, values, calls, rounds), calls, |values|)
    decreases rounds
  {
    var count := batches(values);
    if |values| > 1 && count != 1 {
      var replies := Replies(model, calls, count);
      if replies.Some? {
        ShrinkingMergeEnds(model, batches, kind, n, replies.value, calls + count, rounds - 1);
        RoundsAddUp(Merge(model, batches, replies.value, calls + count, rounds - 1), calls, count, |values|);
      }
    }
  }

  function Kind(limit: int, n: nat): seq<string> -> bool {
    values => AllSmall(values, limit, n)
  }

  lemma SmallRepliesShrink(model: Model, limit: int, n: nat)
    requires RepliesSmall(model, limit, n)
    ensures Shrinking(model, Batcher(limit), Kind(limit, n), n)
  {
    forall values | AllSmall(values, limit, n) && 0 < |values| <= n
      ensures 0 < Batcher(limit)(values) && 2 * Batcher(limit)(values) <= |values| + 1
    {
      RoundHalves(values, limit, n);
    }
    forall call, k | Replies(model, call, k).Some?
      ensures |Replies(model, call, k).value| == k && AllSmall(Replies(model, call, k).value, limit, n)
    {
      RepliesAre(model, call, k);
      RepliesAreSmall(model, limit, call, Replies(model, call, k).value, n);
    }
  }

  /**
   The loop ends when each partial summary, with its heading and separator, takes at most half of the limit: every
   round leaves fewer values, and the rounds together make fewer than twice as many calls as there were values.
   */
  lemma {:induction false} MergeEnds(model: Model, limit: int, values: seq<string>, calls: nat, rounds: nat, n: nat)
    requires RepliesSmall(model, limit, n)
    requires AllSmall(values, limit, n) && 0 < |values| <= n && |values| <= rounds + 2
    ensures EndsWithin(Merge(model, Batcher(limit), values, calls, rounds), calls, |values|)
  {
    SmallRepliesShrink(model, limit, n);
    ShrinkingMergeEnds(model, Batcher(limit), Kind(limit, n), n, values, calls, rounds);
  }

  lemma RepliesAreSmall(model: Model, limit: int, call: nat, replies: seq<string>, n: nat)
    requires RepliesSmall(model, limit, n) && forall k :: 0 <= k < |replies| ==> model(call + k) == Some(replies[k])
    ensures AllSmall(replies, limit, n)
  {
  }

  // ---- exactly when it ends for all replies of a length --------------------------------------------

  /** A round makes progress exactly if two neighbouring blocks fit together. */
  lemma {:induction false} RoundShrinksExactly(values: seq<string>, limit: int)
    ensures |Batches(values, limit)| < |values| <==> PairFits(Labelled(values), limit)
  {
    PackingShrinksExactly(Labelled(values), limit);
  }

  /** Two values of this length, with the first two headings and their separators, fit together. */
  predicate FirstPairFits(length: nat, limit: int) {
    |Label(1)| + |Label(2)| + 2 * length + 4 <= limit
  }

  predicate NoLonger(values: seq<string>, length: nat) {
    forall k :: 0 <= k < |values| ==> |values[k]| <= length
  }

  ghost predicate RepliesNoLonger(model: Model, length: nat) {
    forall call :: model(call).Some? ==> |model(call).value| <= length
  }

  ghost predicate Ends(model: Model, limit: int, values: seq<string>, calls: nat) {
    exists rounds :: !Merge(model, Batcher(limit), values, calls, rounds).Unfinished?
  }

  /** Whatever the model answers within this length, the loop ends. */
  ghost predicate AlwaysEnds(limit: int, length: nat) {
    forall model, values, calls :: RepliesNoLonger(model, length) && NoLonger(values, length) ==>
      Ends(model, limit, values, calls)
  }

  lemma FirstTwoJoin(values: seq<string>, length: nat, limit: int)
    requires FirstPairFits(length, limit) && NoLonger(values, length) && |values| > 1
    ensures Batcher(limit)(values) < |values|
  {
    var blocks := Labelled(values);
    assert |blocks[0]| + |blocks[0 + 1]| + 4 <= limit;
    RoundShrinksExactly(values, limit);
  }

  lemma {:induction false} ShortRepliesEnd(model: Model, batches: Counter, length: nat, values: seq<string>, calls: nat,
                                           rounds: nat)
    requires forall vs :: NoLonger(vs, length) && |vs| > 1 ==> batches(vs) < |vs|
    requires RepliesNoLonger(model, length) && NoLonger(values, length) && |values| <= rounds + 1
    ensures !Merge(model, batches, values, calls, rounds).Unfinished?
    decreases rounds
  {
    var count := batches(values);
    if |values| > 1 && count != 1 {
      RepliesAre(model, calls, count);
      var replies := Replies(model, calls, count);
      if replies.Some? {
        forall k | 0 <= k < count ensures |replies.value[k]| <= length {
          assert model(calls + k) == Some(replies.value[k]);
        }
        ShortRepliesEnd(model, batches, length, replies.value, calls + count, rounds - 1);
      }
    }
  }

  /** A text of this length without whitespace. */
  function Solid(length: nat): (s: string)
    ensures |s| == length && forall i :: 0 <= i < length ==> s[i] == 'x'
  {
    seq(length, _ => 'x')
  }

  /** The model that always answers with the same text. */
  function Constant(text: string): Model {
    _ => Some(text)
  }

  /** Values that never fit together, because of their length and their headings. */
  predicate TooLong(values: seq<string>, limit: int) {
    forall k :: 0 <= k < |values| ==> !FirstPairFits(|values[k]|, limit)
  }

  ghost predicate RepliesLong(model: Model, limit: int) {
    forall call :: model(call).Some? && !Blank(model(call).value) && !FirstPairFits(|model(call).value|, limit)
  }

  lemma LongValuesStay(values: seq<string>, limit: int)
    requires TooLong(values, limit)
    ensures Batcher(limit)(values) == |values|
  {
    var blocks := Labelled(values);
    PackingShrinksExactly(blocks, limit);
    forall k | 0 <= k < |blocks| - 1 ensures |blocks[k]| + |blocks[k + 1]| + 4 > limit {
      assert !FirstPairFits(|values[k]|, limit) && !FirstPairFits(|values[k + 1]|, limit);
      HeadingsGrow(k + 1);
      HeadingsGrow(k + 2);
    }
  }

  lemma HeadingsGrow(k: nat)
    requires k > 0
    ensures |Label(k)| >= |Label(1)| == |Label(2)|
  {
  }

  lemma {:induction false} EveryReplyComes(model: Model, limit: int, call: nat, n: nat)
    requires RepliesLong(model, limit)
    ensures Replies(model, call, n).Some?
  {
    if n > 0 {
      EveryReplyComes(model, limit, call, n - 1);
      assert model(call + n - 1).Some?;
    }
  }

  /** With replies so long that no two ever fit together, after any number of rounds all values are still there. */
  lemma {:induction false} LongRepliesNeverMerge(model: Model, limit: int, values: seq<string>, calls: nat, rounds: nat)
    requires RepliesLong(model, limit) && |values| > 1 && TooLong(values, limit)
    ensures var outcome := Merge(model, Batcher(limit), values, calls, rounds);
            outcome.Unfinished? && |outcome.values| == |values| && outcome.calls == calls + rounds * |values|
    decreases rounds
  {
    LongValuesStay(values, limit);
    if rounds > 0 {
      EveryReplyComes(model, limit, calls, |values|);
      RepliesAre(model, calls, |values|);
      var replies := Replies(model, calls, |values|).value;
      forall k | 0 <= k < |replies| ensures !FirstPairFits(|replies[k]|, limit) {
        assert model(calls + k) == Some(replies[k]);
      }
      LongRepliesNeverMerge(model, limit, replies, calls + |values|, rounds - 1);
      assert rounds * |values| == |values| + (rounds - 1) * |values|;
    }
  }

  lemma SolidIsLong(length: nat, limit: int)
    requires length > 0 && !FirstPairFits(length, limit)
    ensures RepliesLong(Constant(Solid(length)), limit) && TooLong([Solid(length), Solid(length)], limit)
  {
    assert !IsSpace(Solid(length)[0]);
  }

  /**
   For replies of up to `length` characters the loop always ends exactly if two values of that length fit together
   under the first two headings: then every round leaves fewer values, and otherwise two such values stay for ever.
   */
  lemma MergeEndsExactly(limit: int, length: nat)
    requires length > 0
    ensures AlwaysEnds(limit, length) <==> FirstPairFits(length, limit)
  {
    if FirstPairFits(length, limit) {
      forall vs | NoLonger(vs, length) && |vs| > 1 ensures Batcher(limit)(vs) < |vs| {
        FirstTwoJoin(vs, length, limit);
      }
      forall model, values, calls | RepliesNoLonger(model, length) && NoLonger(values, length)
        ensures Ends(model, limit, values, calls)
      {
        ShortRepliesEnd(model, Batcher(limit), length, values, calls, |values|);
      }
    } else {
      SolidIsLong(length, limit);
      StaysForEver(length, limit);
    }
  }

  lemma StaysForEver(length: nat, limit: int)
    requires length > 0 && !FirstPairFits(length, limit)
    ensures !AlwaysEnds(limit, length)
  {
    var model, values := Constant(Solid(length)), [Solid(length), Solid(length)];
    SolidIsLong(length, limit);
    assert RepliesNoLonger(model, length) && NoLonger(values, length);
    forall rounds ensures Merge(model, Batcher(limit), values, 0, rounds).Unfinished? {
      LongRepliesNeverMerge(model, limit, values, 0, rounds);
    }
    assert !Ends(model, limit, values, 0);
  }

  // ---- the whole summary ---------------------------------------------------------------------------

  const NOTHING := "\U{65E0}\U{5B9E}\U{8D28}\U{4FE1}\U{606F}\U{3002}"

  function MergeLimit(maxInputChars: int): int {
    Max(400, maxInputChars - 250)
  }

  /** The partial summaries, shortened, as they enter the first round. */
  function Compact(redact: string -> string, partials: seq<string>): seq<string> {
    if partials == [] then []
    else
      Compact(redact, partials[..|partials| - 1]) +
      (if Blank(partials[|partials| - 1]) then [] else [Cut(Strip(redact(partials[|partials| - 1])), 240)])
  }

  /** The summary and the number of calls it took; `Running` while `rounds` is too small. */
  datatype Summary = Done(text: string, calls: nat) | Raised | Running

  function FinalCall(model: Model, call: nat): Summary {
    if model(call).None? || Blank(model(call).value) then Raised else Done(model(call).value, call + 1)
  }

  /** What the partial summaries come to. */
  function MergedSummary(model: Model, outcome: Outcome): Summary {
    match outcome
    case Unfinished(_, _) => Running
    case Failed => Raised
    case Merged(_, calls) => FinalCall(model, calls)
  }

  /** The summary of a conversation of `n` chunks. */
  function SummaryOf(redact: string -> string, model: Model, n: nat, limit: int, rounds: nat): Summary {
    if n == 0 then Done(NOTHING, 0)
    else if n == 1 then FinalCall(model, 0)
    else
      match Replies(model, 0, n)
      case None => Raised
      case Some(partials) => MergedSummary(model, Merge(model, Batcher(limit), Compact(redact, partials), n, rounds))
  }

  function ChunkCount(g: Rendering, ms: seq<Message>, maxInputChars: int, maxMessageChars: int): nat {
    |Groups(Blocks(g, ms, maxInputChars, maxMessageChars), maxInputChars)|
  }

  // What a summary's calls were, said of the model alone.

  predicate Answers(model: Model, call: nat) {
    model(call).Some? && !Blank(model(call).value)
  }

  /** The calls before this one were all answered. */
  ghost predicate AnsweredBefore(model: Model, call: nat) {
    forall k :: 0 <= k < call ==> Answers(model, k)
  }

  /** All calls up to a first one were answered, and that one was not. */
  ghost predicate FailsSomewhere(model: Model) {
    exists call: nat :: AnsweredBefore(model, call) && !Answers(model, call)
  }

  lemma {:induction false} RepliesAnswered(model: Model, call: nat, n: nat)
    requires AnsweredBefore(model, call)
    ensures if Replies(model, call, n).Some? then AnsweredBefore(model, call + n) else FailsSomewhere(model)
  {
    if n > 0 {
      RepliesAnswered(model, call, n - 1);
      if Replies(model, call, n - 1).Some? && Replies(model, call, n).None? {
        assert !Answers(model, call + n - 1);
      }
    }
  }

  /** How many calls the merge rounds make until one batch is left. */
  function MergeCalls(model: Model, batches: Counter, values: seq<string>, calls: nat, rounds: nat): nat
    decreases rounds
  {
    if |values| <= 1 || batches(values) == 1 || rounds == 0 then 0
    else
      match Replies(model, calls, batches(values))
      case None => 0
      case Some(replies) => batches(values) + MergeCalls(model, batches, replies, calls + batches(values), rounds - 1)
  }

  lemma {:induction false} MergeAnswered(model: Model, batches: Counter, values: seq<string>, calls: nat, rounds: nat)
    requires AnsweredBefore(model, calls)
    ensures match Merge(model, batches, values, calls, rounds)
            case Merged(_, c) => AnsweredBefore(model, c) && c == calls + MergeCalls(model, batches, values, calls, rounds)
            case Failed => FailsSomewhere(model)
            case Unfinished(_, _) => true
    decreases rounds
  {
    if |values| > 1 && batches(values) != 1 && rounds > 0 {
      RepliesAnswered(model, calls, batches(values));
      if Replies(model, calls, batches(values)).Some? {
        MergeAnswered(model, batches, Replies(model, calls, batches(values)).value, calls + batches(values), rounds - 1);
      }
    }
  }

  /**
   A summary of `n` chunks is the answer to the last of its calls, all of which were answered: one for each chunk, one
   for each batch that was merged and a final one; a single chunk needs only that.  It fails only at an unanswered call.
   */
  ghost predicate SummaryFits(model: Model, n: nat, merges: nat, summary: Summary) {
    match summary
    case Done(text, calls) =>
      && calls == (if n <= 1 then n else n + merges + 1) && AnsweredBefore(model, calls)
      && (if n == 0 then text == "\U{65E0}\U{5B9E}\U{8D28}\U{4FE1}\U{606F}\U{3002}" else model(calls - 1) == Some(text))
    case Raised => FailsSomewhere(model)
    case Running => n > 1
  }

  /** The calls of the merge rounds for `n` partial summaries. */
  function MergesOf(redact: string -> string, model: Model, n: nat, limit: int, rounds: nat): nat {
    match Replies(model, 0, n)
    case None => 0
    case Some(partials) => MergeCalls(model, Batcher(limit), Compact(redact, partials), n, rounds)
  }

  lemma FinalAnswered(model: Model, call: nat)
    requires AnsweredBefore(model, call)
    ensures match FinalCall(model, call)
            case Done(text, calls) => calls == call + 1 && AnsweredBefore(model, calls) && model(call) == Some(text)
            case Raised => FailsSomewhere(model)
            case Running => false
  {
    assert FinalCall(model, call).Raised? ==> !Answers(model, call);
  }

  lemma {:induction false} MergedIsFit(model: Model, n: nat, batches: Counter, values: seq<string>, rounds: nat)
    requires n > 1 && AnsweredBefore(model, n)
    ensures SummaryFits(model, n, MergeCalls(model, batches, values, n, rounds),
                        MergedSummary(model, Merge(model, batches, values, n, rounds)))
  {
    MergeAnswered(model, batches, values, n, rounds);
    var outcome := Merge(model, batches, values, n, rounds);
    if outcome.Merged? {
      FinalAnswered(model, outcome.calls);
    }
  }

  lemma SummaryIsFit(redact: string -> string, model: Model, n: nat, limit: int, rounds: nat)
    ensures SummaryFits(model, n, MergesOf(redact, model, n, limit, rounds), SummaryOf(redact, model, n, limit, rounds))
  {
    if n == 1 {
      FinalAnswered(model, 0);
    } else if n > 1 {
      ManyAreFit(redact, model, n, Batcher(limit), rounds);
    }
  }

  lemma ManyAreFit(redact: string -> string, model: Model, n: nat, batches: Counter, rounds: nat)
    requires n > 1
    ensures match Replies(model, 0, n)
            case None => FailsSomewhere(model)
            case Some(partials) =>
              var values := Compact(redact, partials);
              SummaryFits(model, n, MergeCalls(model, batches, values, n, rounds),
                          MergedSummary(model, Merge(model, batches, values, n, rounds)))
  {
    RepliesAnswered(model, 0, n);
    if Replies(model, 0, n).Some? {
      MergedIsFit(model, n, batches, Compact(redact, Replies(model, 0, n).value), rounds);
    }
  }

  method Shorten(redact: string -> string, partials: seq<string>) returns (compact: seq<string>)
    ensures compact == Compact(redact, partials)
  {
    compact := [];
    for k := 0 to |partials|
      invariant compact == Compact(redact, partials[..k])
    {
      assert partials[..k + 1][..k] == partials[..k] && partials[..k + 1][k] == partials[k];
      compact := compact + if Blank(partials[k]) then [] else [Cut(Strip(redact(partials[k])), 240)];
    }
    assert partials[..|partials|] == partials;
  }

  /** Call number `k` is the model's answer to the k-th prompt, counted from 0. */
  method SummarizeConversation(g: Rendering, model: Model, ms: seq<Message>, maxInputChars: int, maxMessageChars: int,
                               rounds: nat)
    returns (summary: Summary)
    ensures summary == SummaryOf(g.redact, model, ChunkCount(g, ms, maxInputChars, maxMessageChars),
                                 MergeLimit(maxInputChars), rounds)
    ensures var n := ChunkCount(g, ms, maxInputChars, maxMessageChars);
            var limit := if maxInputChars < 650 then 400 else maxInputChars - 250;
            SummaryFits(model, n, MergesOf(g.redact, model, n, limit, rounds), summary)
  {
    SummaryIsFit(g.redact, model, ChunkCount(g, ms, maxInputChars, maxMessageChars), MergeLimit(maxInputChars), rounds);
    var chunks := RenderMessageChunks(g, ms, maxInputChars, maxMessageChars);
    if chunks == [] {
      return Done(NOTHING, 0);
    }
    if |chunks| == 1 {
      return FinalCall(model, 0);
    }
    var partials := AskAll(model, 0, chunks);
    if partials.None? {
      return Raised;
    }
    var compact := Shorten(g.redact, partials.value);
    ghost var batches := Batcher(MergeLimit(maxInputChars));
    ghost var whole := Merge(model, batches, compact, |chunks|, rounds);
    var merged := MergeLoop(model, MergeLimit(maxInputChars), batches, compact, |chunks|, rounds, whole);
    summary := MergedSummary(model, merged);
  }

  /** Partial summaries enter the first round redacted, without the space around them, and cut to 240 characters. */
  lemma {:induction false} CompactIs(model: Model, redact: string -> string, call: nat, n: nat, k: nat)
    requires Replies(model, call, n).Some? && k < n
    ensures var (partials, values) := (Replies(model, call, n).value, Compact(redact, Replies(model, call, n).value));
            && |values| == |partials| == n
            && exists t :: Strips(redact(partials[k]), t) && values[k] == if |t| <= 240 then t else t[..240]
  {
    CompactKeepsAll(model, redact, call, n);
    var partials := Replies(model, call, n).value;
    CompactKeepsAll(model, redact, call, n - 1);
    assert partials[..n - 1] == Replies(model, call, n - 1).value;
    if k < n - 1 {
      CompactIs(model, redact, call, n - 1, k);
    } else {
      StripStrips(redact(partials[k]));
    }
  }

  lemma {:induction false} CompactKeepsAll(model: Model, redact: string -> string, call: nat, n: nat)
    requires Replies(model, call, n).Some?
    ensures |Replies(model, call, n).value| == n && |Compact(redact, Replies(model, call, n).value)| == n
  {
    if n > 0 {
      CompactKeepsAll(model, redact, call, n - 1);
      var values := Replies(model, call, n).value;
      assert values[..n - 1] == Replies(model, call, n - 1).value;
    }
  }

  /** A conversation of `n` chunks whose partial summaries stay small takes at most 3n - 3 calls, and as many rounds as chunks are plenty. */
  lemma {:induction false} SummaryCallsAreLinear(model: Model, redact: string -> string, limit: int, n: nat)
    requires n > 1 && Replies(model, 0, n).Some? && RepliesSmall(model, limit, n)
    requires AllSmall(Compact(redact, Replies(model, 0, n).value), limit, n)
    ensures match SummaryOf(redact, model, n, limit, n)
            case Running => false
            case Raised => true
            case Done(_, calls) => calls <= 3 * n - 3
  {
    CompactKeepsAll(model, redact, 0, n);
    MergeEnds(model, limit, Compact(redact, Replies(model, 0, n).value), n, n, n);
  }

  // ---- a summary that never comes ------------------------------------------------------------------

  const PLAIN := Rendering(_ => "12:34:56", s => s)

  /** Its prefix takes seventeen characters. */
  const TALK := Message(0, "user", "ab", "codex", None, "r")

  const TALK_PREFIX := "[12:34:56] user: "

  lemma TalkPrefix()
    ensures Prefix(PLAIN, TALK) == TALK_PREFIX && |TALK_PREFIX| == 17 && Strip("ab") == "ab"
  {
  }

  lemma TalkMakesTwoChunks()
    ensures ChunkCount(PLAIN, [TALK], 18, 100) == 2
  {
    TalkPrefix();
    var first, second := TALK_PREFIX + "a", TALK_PREFIX + "b";
    BlocksOfTalk(first, second);
    var blocks := [first, second];
    assert blocks[..1] == [first] && [first][..0] == [];
    SizeOfOne(first);
    assert Groups([first], 18) == [[first]];
    assert Groups(blocks, 18) == [[first], [second]];
  }

  lemma BlocksOfTalk(first: string, second: string)
    requires first == TALK_PREFIX + "a" && second == TALK_PREFIX + "b"
    ensures Blocks(PLAIN, [TALK], 18, 100) == [first, second]
  {
    TalkPrefix();
    assert "ab"[0..] == "ab" && "ab"[1..] == "b" && Cut("ab", 1) == "a" && Cut("b", 1) == "b";
    assert Cut(first, 18) == first && Cut(second, 18) == second;
    assert BlocksFrom(TALK_PREFIX, "ab", 1, 18, 2) == [];
    assert BlocksFrom(TALK_PREFIX, "ab", 1, 18, 1) == [second] + BlocksFrom(TALK_PREFIX, "ab", 1, 18, 2);
    assert BlocksFrom(TALK_PREFIX, "ab", 1, 18, 0) == [first] + BlocksFrom(TALK_PREFIX, "ab", 1, 18, 1);
    assert [TALK][..0] == [] && Blocks(PLAIN, [], 18, 100) == [];
  }

  lemma {:induction false} StripKeepsSolid(s: string)
    requires forall i :: 0 <= i < |s| ==> !IsSpace(s[i])
    ensures Strip(s) == s && Cut(s, |s|) == s
  {
  }

  lemma TwoReplies(text: string)
    requires !Blank(text)
    ensures Replies(Constant(text), 0, 2) == Some([text, text])
  {
    assert Replies(Constant(text), 0, 0) == Some([]);
    assert Replies(Constant(text), 0, 1) == Some([] + [text]) && [] + [text] == [text];
    assert [text] + [text] == [text, text];
  }

  /**
   A conversation whose summary is still running after any number of rounds: every answer is 240 characters, the
   partial summaries and the merged ones never fit together, and each round asks the model as many times again.
   */
  lemma SummaryNeverComes(rounds: nat)
    ensures SummaryOf(PLAIN.redact, Constant(Solid(240)), ChunkCount(PLAIN, [TALK], 18, 100), MergeLimit(18), rounds) == Running
  {
    var text, model := Solid(240), Constant(Solid(240));
    TalkMakesTwoChunks();
    assert MergeLimit(18) == 400 && |Label(1)| == 8 && |Label(2)| == 8;
    SolidIsLong(240, 400);
    StripKeepsSolid(text);
    assert !Blank(text) by {
      assert !IsSpace(text[0]);
    }
    TwoReplies(text);
    assert Compact(PLAIN.redact, [text]) == [text];
    assert [text, text][..1] == [text];
    assert Compact(PLAIN.redact, [text, text]) == [text, text];
    LongRepliesNeverMerge(model, 400, [text, text], 2, rounds);
  }
}
