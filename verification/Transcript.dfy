/**
 Transcript chunking (`spool_transcript` in memorybridge/spool.py).  Texts are decoded text, so the size of a
 line is the length of its UTF-8 encoding.
 */
module Transcript {
  import opened Basics

  /** The line boundaries of Python's `str.splitlines`. */
  predicate IsBreak(c: char) {
    c in ['\n', '\r', '\U{B}', '\U{C}', '\U{1C}', '\U{1D}', '\U{1E}', '\U{85}', '\U{2028}', '\U{2029}']
  }

  /** The length of the first line, its terminator included. */
  function HeadLength(text: string): (n: nat)
    requires text != ""
    ensures 1 <= n <= |text|
  {
    if text[0] == '\r' && |text| > 1 && text[1] == '\n' then 2
    else if IsBreak(text[0]) || |text| == 1 then 1
    else 1 + HeadLength(text[1..])
  }

  function SplitLines(text: string): seq<string> {
    if text == "" then [] else [text[..HeadLength(text)]] + SplitLines(text[HeadLength(text)..])
  }

  function Join(parts: seq<string>): string {
    if parts == [] then "" else parts[0] + Join(parts[1..])
  }

  function Utf8Length(c: char): nat {
    if c as int < 0x80 then 1 else if c as int < 0x800 then 2 else if c as int < 0x1_0000 then 3 else 4
  }

  function Bytes(line: string): nat {
    if line == "" then 0 else Utf8Length(line[0]) + Bytes(line[1..])
  }

  function Size(lines: seq<string>): nat {
    if lines == [] then 0 else Bytes(lines[0]) + Size(lines[1..])
  }

  /** A chunk is within the limit unless it is one line that cannot be split. */
  predicate Fits(group: seq<string>, limit: nat) {
    |group| == 1 || (group != [] && Size(group) <= limit)
  }

  function Flatten(groups: seq<seq<string>>): seq<string> {
    if groups == [] then [] else groups[0] + Flatten(groups[1..])
  }

  ghost predicate IsPacking(groups: seq<seq<string>>, lines: seq<string>, limit: nat) {
    Flatten(groups) == lines && forall i :: 0 <= i < |groups| ==> Fits(groups[i], limit)
  }

  /** How far the chunk that holds `lines[..k]` grows. */
  function Grow(lines: seq<string>, k: nat, limit: nat): (n: nat)
    requires 1 <= k <= |lines|
    ensures k <= n <= |lines|
    decreases |lines| - k
  {
    if k < |lines| && Size(lines[..k]) + Bytes(lines[k]) <= limit then Grow(lines, k + 1, limit) else k
  }

  function Pack(lines: seq<string>, limit: nat): seq<seq<string>>
    decreases |lines|
  {
    if lines == [] then []
    else var n := Grow(lines, 1, limit); [lines[..n]] + Pack(lines[n..], limit)
  }

  function Joined(groups: seq<seq<string>>): seq<string> {
    if groups == [] then [] else [Join(groups[0])] + Joined(groups[1..])
  }

  /** The chunks of a text. */
  function Chunks(text: string, limit: nat): seq<string> {
    Joined(Pack(SplitLines(text), limit))
  }

  // ---- what a line and its size are ----------------------------------------------------------------

  /** A line holds no line break but the one it ends with, which may be `\r\n`; only the last one need not end with one. */
  predicate IsLine(line: string, last: bool) {
    var n := |line|;
    && n > 0
    && (last || IsBreak(line[n - 1]))
    && (forall i :: 0 <= i < n - 2 ==> !IsBreak(line[i]))
    && (n > 1 && IsBreak(line[n - 2]) ==> line[n - 2] == '\r' && line[n - 1] == '\n')
  }

  lemma {:induction false} HeadIsLine(text: string)
    requires text != ""
    ensures IsLine(text[..HeadLength(text)], HeadLength(text) == |text|)
    ensures HeadLength(text) < |text| && text[HeadLength(text) - 1] == '\r' ==> text[HeadLength(text)] != '\n'
  {
    var n := HeadLength(text);
    if !(text[0] == '\r' && |text| > 1 && text[1] == '\n') && !IsBreak(text[0]) && |text| > 1 {
      HeadIsLine(text[1..]);
      var m := HeadLength(text[1..]);
      assert text[..n] == [text[0]] + text[1..][..m];
      assert n < |text| ==> text[n] == text[1..][m] && text[n - 1] == text[1..][m - 1];
    } else {
      assert text[..n][0] == text[0];
    }
  }

  /** `splitlines` splits behind every line break and nowhere else. */
  lemma {:induction false} LinesAreLines(text: string, k: nat)
    requires k < |SplitLines(text)|
    ensures var lines := SplitLines(text);
            && IsLine(lines[k], k == |lines| - 1)
            && (k + 1 < |lines| && lines[k][|lines[k]| - 1] == '\r' ==> lines[k + 1] != "" && lines[k + 1][0] != '\n')
  {
    HeadIsLine(text);
    var n := HeadLength(text);
    var tail := SplitLines(text[n..]);
    assert tail == [] <==> n == |text|;
    if k > 0 {
      LinesAreLines(text[n..], k - 1);
      assert SplitLines(text)[k] == tail[k - 1];
    } else if tail != [] {
      assert tail[0] == text[n..][..HeadLength(text[n..])] && tail[0][0] == text[n];
    }
  }

  /** The bytes of a character in UTF-8. */
  function Utf8(c: char): seq<nat> {
    var n := c as int;
    if n < 0x80 then [n]
    else if n < 0x800 then [0xC0 + n / 0x40, 0x80 + n % 0x40]
    else if n < 0x1_0000 then [0xE0 + n / 0x1000, 0x80 + n / 0x40 % 0x40, 0x80 + n % 0x40]
    else [0xF0 + n / 0x4_0000, 0x80 + n / 0x1000 % 0x40, 0x80 + n / 0x40 % 0x40, 0x80 + n % 0x40]
  }

  function Encoded(s: string): seq<nat> {
    if s == "" then [] else Utf8(s[0]) + Encoded(s[1..])
  }

  /** The size of a text is that of its encoding. */
  lemma {:induction false} BytesAreEncoded(s: string)
    ensures Bytes(s) == |Encoded(s)|
  {
    if s != "" {
      BytesAreEncoded(s[1..]);
    }
  }

  // ---- the loop ------------------------------------------------------------------------------------

  lemma {:induction false} SizeOfSnoc(lines: seq<string>, line: string)
    ensures Size(lines + [line]) == Size(lines) + Bytes(line)
  {
    if lines != [] {
      SizeOfSnoc(lines[1..], line);
      assert (lines + [line])[1..] == lines[1..] + [line];
    }
  }

  /** `lines[a..i]` is the start of the chunk that begins at line `a`. */
  ghost predicate Filling(lines: seq<string>, a: nat, i: nat, limit: nat)
    requires a <= i <= |lines|
  {
    a < i ==> Grow(lines[a..], 1, limit) == Grow(lines[a..], i - a, limit)
  }

  lemma LineIsAdded(lines: seq<string>, a: nat, i: nat, limit: nat)
    requires a <= i < |lines| && Filling(lines, a, i, limit)
    requires a < i ==> Size(lines[a..i]) + Bytes(lines[i]) <= limit
    ensures Filling(lines, a, i + 1, limit)
  {
    assert lines[a..][..i - a] == lines[a..i];
    assert lines[a..][i - a] == lines[i];
  }

  lemma {:induction false} ChunkIsFull(lines: seq<string>, a: nat, i: nat, limit: nat)
    requires a < i <= |lines| && Filling(lines, a, i, limit)
    requires i < |lines| ==> Size(lines[a..i]) + Bytes(lines[i]) > limit
    ensures Pack(lines[a..], limit) == [lines[a..i]] + Pack(lines[i..], limit)
  {
    assert lines[a..][..i - a] == lines[a..i];
    assert i < |lines| ==> lines[a..][i - a] == lines[i];
    assert lines[a..][i - a..] == lines[i..];
  }

  /** The chunks made so far are those before line `a`, and `current` holds lines `a` to `i`. */
  ghost predicate Chunking(lines: seq<string>, limit: nat, chunks: seq<string>, current: seq<string>, a: nat, i: nat) {
    && a <= i <= |lines| && current == lines[a..i] && Filling(lines, a, i, limit)
    && Joined(Pack(lines, limit)) == chunks + Joined(Pack(lines[a..], limit))
  }

  lemma {:induction false} ChunkIsClosed(lines: seq<string>, limit: nat, chunks: seq<string>, current: seq<string>, a: nat, i: nat)
    requires Chunking(lines, limit, chunks, current, a, i) && current != []
    requires i < |lines| ==> Size(current) + Bytes(lines[i]) > limit
    ensures Chunking(lines, limit, chunks + [Join(current)], [], i, i)
  {
    ChunkIsFull(lines, a, i, limit);
    var rest := Pack(lines[i..], limit);
    assert ([current] + rest)[1..] == rest;
    assert Joined(Pack(lines[a..], limit)) == [Join(current)] + Joined(rest);
    assert chunks + ([Join(current)] + Joined(rest)) == (chunks + [Join(current)]) + Joined(rest);
  }

  lemma {:induction false} LineJoinsChunk(lines: seq<string>, limit: nat, chunks: seq<string>, current: seq<string>, a: nat, i: nat)
    requires Chunking(lines, limit, chunks, current, a, i) && i < |lines|
    requires current != [] ==> Size(current) + Bytes(lines[i]) <= limit
    ensures Chunking(lines, limit, chunks, current + [lines[i]], a, i + 1)
    ensures Size(current + [lines[i]]) == Size(current) + Bytes(lines[i])
  {
    SizeOfSnoc(current, lines[i]);
    LineIsAdded(lines, a, i, limit);
  }

  /** The chunking loop of `spool_transcript`, with its `current` and `size`. */
  method MakeChunks(text: string, limit: nat) returns (chunks: seq<string>)
    ensures chunks == Chunks(text, limit)
  {
    var lines := SplitLines(text);
    chunks := [];
    var current: seq<string>, size := [], 0;
    ghost var a := 0;
    assert lines[0..] == lines;
    for i := 0 to |lines|
      invariant Chunking(lines, limit, chunks, current, a, i)
      invariant size == Size(current)
      invariant i > 0 ==> current != []
    {
      var line := lines[i];
      var b := Bytes(line);
      if current != [] && size + b > limit {
        ChunkIsClosed(lines, limit, chunks, current, a, i);
        chunks := chunks + [Join(current)];
        current, size := [], 0;
        a := i;
      }
      LineJoinsChunk(lines, limit, chunks, current, a, i);
      current := current + [line];
      size := size + b;
    }
    if current != [] {
      ChunkIsClosed(lines, limit, chunks, current, a, |lines|);
      chunks := chunks + [Join(current)];
    }
  }

  // ---- nothing is lost -----------------------------------------------------------------------------

  lemma {:induction false} LinesJoinToText(text: string)
    ensures Join(SplitLines(text)) == text
    decreases |text|
  {
    if text != "" {
      LinesJoinToText(text[HeadLength(text)..]);
      assert text == text[..HeadLength(text)] + text[HeadLength(text)..];
    }
  }

  lemma {:induction false} JoinOfConcat(a: seq<string>, b: seq<string>)
    ensures Join(a + b) == Join(a) + Join(b)
  {
    if a == [] {
      assert a + b == b;
    } else {
      JoinOfConcat(a[1..], b);
      assert (a + b)[1..] == a[1..] + b && (a + b)[0] == a[0];
      assert a[0] + (Join(a[1..]) + Join(b)) == a[0] + Join(a[1..]) + Join(b);
    }
  }

  lemma {:induction false} JoinOfJoined(groups: seq<seq<string>>)
    ensures Join(Joined(groups)) == Join(Flatten(groups)) && |Joined(groups)| == |groups|
    ensures forall i :: 0 <= i < |groups| ==> Joined(groups)[i] == Join(groups[i])
  {
    if groups != [] {
      JoinOfJoined(groups[1..]);
      JoinOfConcat(groups[0], Flatten(groups[1..]));
    }
  }

  lemma {:induction false} GrowFits(lines: seq<string>, k: nat, limit: nat)
    requires 1 <= k <= |lines| && Fits(lines[..k], limit)
    ensures Fits(lines[..Grow(lines, k, limit)], limit)
    decreases |lines| - k
  {
    if k < |lines| && Size(lines[..k]) + Bytes(lines[k]) <= limit {
      SizeOfSnoc(lines[..k], lines[k]);
      assert lines[..k] + [lines[k]] == lines[..k + 1];
      GrowFits(lines, k + 1, limit);
    }
  }

  lemma {:induction false} PackIsPacking(lines: seq<string>, limit: nat)
    ensures IsPacking(Pack(lines, limit), lines, limit)
    decreases |lines|
  {
    if lines != [] {
      var n := Grow(lines, 1, limit);
      GrowFits(lines, 1, limit);
      PackIsPacking(lines[n..], limit);
      assert lines == lines[..n] + lines[n..];
      assert Pack(lines, limit)[1..] == Pack(lines[n..], limit);
    }
  }

  /** The chunks concatenate to the text, and each is within the limit or a single line. */
  lemma {:induction false} ChunksPartitionText(text: string, limit: nat)
    ensures Join(Chunks(text, limit)) == text
    ensures var groups := Pack(SplitLines(text), limit);
            |Chunks(text, limit)| == |groups|
            && forall i :: 0 <= i < |groups| ==>
                 Chunks(text, limit)[i] == Join(groups[i]) && Bytes(Chunks(text, limit)[i]) == Size(groups[i])
                 && Fits(groups[i], limit)
  {
    var groups := Pack(SplitLines(text), limit);
    PackIsPacking(SplitLines(text), limit);
    JoinOfJoined(groups);
    LinesJoinToText(text);
    forall i | 0 <= i < |groups| ensures Bytes(Join(groups[i])) == Size(groups[i]) {
      BytesOfJoin(groups[i]);
    }
  }

  lemma {:induction false} BytesOfConcat(a: string, b: string)
    ensures Bytes(a + b) == Bytes(a) + Bytes(b)
  {
    if a == "" {
      assert a + b == b;
    } else {
      BytesOfConcat(a[1..], b);
      assert (a + b)[1..] == a[1..] + b;
    }
  }

  lemma {:induction false} BytesOfJoin(lines: seq<string>)
    ensures Bytes(Join(lines)) == Size(lines)
  {
    if lines != [] {
      BytesOfJoin(lines[1..]);
      BytesOfConcat(lines[0], Join(lines[1..]));
    }
  }

  // ---- optimality ----------------------------------------------------------------------------------

  lemma {:induction false} SizeOfConcat(a: seq<string>, b: seq<string>)
    ensures Size(a + b) == Size(a) + Size(b)
  {
    if a == [] {
      assert a + b == b;
    } else {
      SizeOfConcat(a[1..], b);
      assert (a + b)[1..] == a[1..] + b;
    }
  }

  /** No chunk that fits reaches further than the greedy one. */
  lemma {:induction false} GrowIsFurthest(lines: seq<string>, k: nat, m: nat, limit: nat)
    requires 1 <= k <= m <= |lines| && Fits(lines[..m], limit)
    ensures m <= Grow(lines, k, limit)
    decreases m - k
  {
    if k < m {
      assert lines[..m] == lines[..k] + lines[k..m];
      SizeOfConcat(lines[..k], lines[k..m]);
      assert lines[k..m][0] == lines[k];
      GrowIsFurthest(lines, k + 1, m, limit);
    }
  }

  /** Leaving out leading lines never needs more chunks. */
  lemma {:induction false} DropFromPacking(groups: seq<seq<string>>, lines: seq<string>, k: nat, limit: nat)
    returns (rest: seq<seq<string>>)
    requires IsPacking(groups, lines, limit) && k <= |lines|
    ensures IsPacking(rest, lines[k..], limit) && |rest| <= |groups|
  {
    if k == 0 {
      rest := groups;
    } else if groups == [] {
      rest := [];
    } else {
      var first := groups[0];
      if |first| <= k {
        assert lines[|first|..] == Flatten(groups[1..]);
        rest := DropFromPacking(groups[1..], lines[|first|..], k - |first|, limit);
        assert lines[|first|..][k - |first|..] == lines[k..];
      } else {
        rest := [first[k..]] + groups[1..];
        assert first == first[..k] + first[k..];
        SizeOfConcat(first[..k], first[k..]);
        assert rest[1..] == groups[1..];
        assert Flatten(rest) == first[k..] + Flatten(groups[1..]) == lines[k..];
      }
    }
  }

  /** No contiguous packing of the lines under the size rule uses fewer chunks. */
  lemma {:induction false} PackIsOptimal(lines: seq<string>, groups: seq<seq<string>>, limit: nat)
    requires IsPacking(groups, lines, limit)
    ensures |Pack(lines, limit)| <= |groups|
    decreases |lines|
  {
    if lines != [] {
      assert groups != [];
      var m, n := |groups[0]|, Grow(lines, 1, limit);
      assert lines == groups[0] + Flatten(groups[1..]);
      assert lines[..m] == groups[0];
      GrowIsFurthest(lines, 1, m, limit);
      assert IsPacking(groups[1..], lines[m..], limit);
      var rest := DropFromPacking(groups[1..], lines[m..], n - m, limit);
      assert lines[m..][n - m..] == lines[n..];
      PackIsOptimal(lines[n..], rest, limit);
    }
  }

  // ---- stability under appending -------------------------------------------------------------------

  lemma {:induction false} HeadIsStable(text: string, more: string)
    requires text != "" && HeadLength(text) < |text|
    ensures HeadLength(text + more) == HeadLength(text)
  {
    assert (text + more)[1..] == text[1..] + more;
    if !IsBreak(text[0]) && |text| > 1 {
      HeadIsStable(text[1..], more);
    }
  }

  lemma {:induction false} HeadOnlyGrows(text: string, more: string)
    requires text != "" && HeadLength(text) == |text|
    ensures |text| <= HeadLength(text + more)
  {
    if |text| > 1 && !(text[0] == '\r' && text[1] == '\n') {
      assert (text + more)[1..] == text[1..] + more;
      HeadOnlyGrows(text[1..], more);
    }
  }

  /** Appending text changes at most the last line, and that line only grows. */
  lemma {:induction false} AppendKeepsLines(text: string, more: string)
    requires text != ""
    ensures var old', new' := SplitLines(text), SplitLines(text + more);
            var n := |old'| - 1;
            && n >= 0 && |new'| > n && new'[..n] == old'[..n] && old'[n] <= new'[n]
    decreases |text|
  {
    var h := HeadLength(text);
    if h < |text| {
      HeadIsStable(text, more);
      assert (text + more)[h..] == text[h..] + more;
      assert (text + more)[..h] == text[..h];
      AppendKeepsLines(text[h..], more);
      var a, b := SplitLines(text[h..]), SplitLines(text[h..] + more);
      assert SplitLines(text) == [text[..h]] + a && SplitLines(text + more) == [text[..h]] + b;
      assert ([text[..h]] + a)[..|a|] == [text[..h]] + a[..|a| - 1];
      assert ([text[..h]] + b)[..|a|] == [text[..h]] + b[..|a| - 1];
    } else {
      HeadOnlyGrows(text, more);
      assert text[h..] == "";
      assert SplitLines(text) == [text[..h]];
      assert text[..h] == (text + more)[..h];
    }
  }

  lemma {:induction false} GrowIsStable(a: seq<string>, b: seq<string>, k: nat, limit: nat)
    requires 1 <= k <= |a| <= |b| && a[..|a| - 1] == b[..|a| - 1]
    requires Bytes(a[|a| - 1]) <= Bytes(b[|a| - 1])
    requires k <= |a| - 1 && Grow(a, k, limit) < |a|
    ensures Grow(b, k, limit) == Grow(a, k, limit)
    decreases |a| - k
  {
    assert a[..k] == a[..|a| - 1][..k] == b[..|a| - 1][..k] == b[..k];
    assert k < |a| - 1 ==> a[k] == a[..|a| - 1][k] == b[..|a| - 1][k] == b[k];
    if Size(a[..k]) + Bytes(a[k]) <= limit {
      assert k + 1 <= |a| - 1 by {
        assert k + 1 <= Grow(a, k + 1, limit);
      }
      GrowIsStable(a, b, k + 1, limit);
    }
  }

  lemma {:induction false} PackIsStable(a: seq<string>, b: seq<string>, limit: nat)
    requires 1 <= |a| <= |b| && a[..|a| - 1] == b[..|a| - 1] && Bytes(a[|a| - 1]) <= Bytes(b[|a| - 1])
    ensures var p, q := Pack(a, limit), Pack(b, limit);
            1 <= |p| <= |q| && p[..|p| - 1] == q[..|p| - 1]
    decreases |a|
  {
    var n := Grow(a, 1, limit);
    if n < |a| {
      GrowIsStable(a, b, 1, limit);
      assert a[..n] == a[..|a| - 1][..n] == b[..|a| - 1][..n] == b[..n];
      assert a[n..][..|a| - n - 1] == a[..|a| - 1][n..] == b[..|a| - 1][n..] == b[n..][..|a| - n - 1];
      PackIsStable(a[n..], b[n..], limit);
      var p, q := Pack(a[n..], limit), Pack(b[n..], limit);
      assert ([a[..n]] + p)[..|p|] == [a[..n]] + p[..|p| - 1];
      assert ([b[..n]] + q)[..|p|] == [b[..n]] + q[..|p| - 1];
    } else {
      assert a[n..] == [];
    }
  }

  lemma {:induction false} JoinedOfPrefix(groups: seq<seq<string>>, n: nat)
    requires n <= |groups|
    ensures |Joined(groups)| == |groups| && Joined(groups)[..n] == Joined(groups[..n])
  {
    JoinOfJoined(groups);
    JoinOfJoined(groups[..n]);
  }

  /**
   Appending to a transcript leaves every chunk but the last unchanged at its index, so reading it again
   reuses the idempotency keys of those chunks.
   */
  lemma AppendKeepsChunks(text: string, more: string, limit: nat)
    requires text != ""
    ensures var p, q := Chunks(text, limit), Chunks(text + more, limit);
            1 <= |p| <= |q| && p[..|p| - 1] == q[..|p| - 1]
  {
    AppendKeepsLines(text, more);
    var a, b := SplitLines(text), SplitLines(text + more);
    var n := |a| - 1;
    assert b[n] == a[n] + b[n][|a[n]|..];
    BytesOfConcat(a[n], b[n][|a[n]|..]);
    PackIsStable(a, b, limit);
    var p, q := Pack(a, limit), Pack(b, limit);
    JoinedOfPrefix(p, |p| - 1);
    JoinedOfPrefix(q, |p| - 1);
  }
}
