/** The checksum line beside a snapshot: written by the backup script, read by `_read_sidecar` (memorybridge/deployment.py). */
module Sidecar {
  import opened Basics

  function SkipBlank(s: string): (r: string)
    ensures |r| <= |s| && (r != "" ==> !IsSpace(r[0]))
  {
    if s != "" && IsSpace(s[0]) then SkipBlank(s[1..]) else s
  }

  function WordLength(s: string): (n: nat)
    ensures n <= |s| && (s != "" && !IsSpace(s[0]) ==> n > 0)
  {
    if s == "" || IsSpace(s[0]) then 0 else 1 + WordLength(s[1..])
  }

  /** Python's `split()`: the words between runs of whitespace. */
  function Words(s: string): seq<string>
    decreases |s|
  {
    var t := SkipBlank(s);
    if t == "" then [] else [t[..WordLength(t)]] + Words(t[WordLength(t)..])
  }

  predicate IsHex(c: char) {
    '0' <= c <= '9' || 'a' <= c <= 'f' || 'A' <= c <= 'F'
  }

  /** 64 hexadecimal digits. */
  predicate IsSha256(s: string) {
    |s| == 64 && forall i :: 0 <= i < 64 ==> IsHex(s[i])
  }

  function LowerChar(c: char): char {
    if 'A' <= c <= 'Z' then c + ' ' else c
  }

  function Lower(s: string): string {
    if s == "" then "" else [LowerChar(s[0])] + Lower(s[1..])
  }

  function WithoutStars(s: string): string {
    if s != "" && s[0] == '*' then WithoutStars(s[1..]) else s
  }

  /** None when the source raises. */
  function ReadSidecar(text: string, name: string): Option<string> {
    var fields := Words(text);
    if |fields| < 2 || !IsSha256(fields[0]) || WithoutStars(fields[|fields| - 1]) != name then None
    else Some(Lower(fields[0]))
  }

  /**
   What is read is a digest in lower case, from a text of at least two words that starts with 64 hexadecimal digits and
   ends with the name.
   */
  lemma {:induction false} MalformedIsRefused(text: string, name: string)
    ensures ReadSidecar(text, name).Some? <==>
              && |Words(text)| >= 2 && |Words(text)[0]| == 64 && (forall i :: 0 <= i < 64 ==> IsHex(Words(text)[0][i]))
              && WithoutStars(Words(text)[|Words(text)| - 1]) == name
    ensures ReadSidecar(text, name).Some? ==> IsDigest(ReadSidecar(text, name).value)
  {
    if ReadSidecar(text, name).Some? {
      LowerIsDigest(Words(text)[0]);
    }
  }

  lemma {:induction false} LowerIsDigest(s: string)
    requires IsSha256(s)
    ensures IsDigest(Lower(s))
  {
    LowerAt(s);
    LowerAt(Lower(s));
    assert forall i :: 0 <= i < 64 ==> IsHex(s[i]);
    forall i | 0 <= i < 64 ensures IsHex(Lower(s)[i]) && Lower(Lower(s))[i] == Lower(s)[i] {
      assert Lower(s)[i] == LowerChar(s[i]);
    }
    assert Lower(Lower(s)) == Lower(s);
  }

  function SidecarLine(digest: string, name: string): string {
    digest + ("  " + (name + "\n"))
  }

  /** As `hexdigest` writes it. */
  predicate IsDigest(s: string) {
    IsSha256(s) && Lower(s) == s
  }

  lemma {:induction false} LowerAt(s: string)
    ensures |Lower(s)| == |s| && forall i :: 0 <= i < |s| ==> Lower(s)[i] == LowerChar(s[i])
  {
    if s != "" {
      LowerAt(s[1..]);
    }
  }

  /** A checksum that agrees with a digest up to case is well formed. */
  lemma {:induction false} LowersToDigest(s: string)
    requires IsDigest(Lower(s))
    ensures IsSha256(s)
  {
    LowerAt(s);
    forall i | 0 <= i < 64 ensures IsHex(s[i]) {
      assert IsHex(Lower(s)[i]);
    }
  }

  /** A name that survives the sidecar: no whitespace, and no star in front. */
  predicate Plain(name: string) {
    name != "" && name[0] != '*' && forall i :: 0 <= i < |name| ==> !IsSpace(name[i])
  }

  lemma {:induction false} WordEnds(word: string, rest: string)
    requires (forall i :: 0 <= i < |word| ==> !IsSpace(word[i])) && (rest == "" || IsSpace(rest[0]))
    ensures WordLength(word + rest) == |word|
  {
    if word == "" {
      assert word + rest == rest;
    } else {
      assert (word + rest)[1..] == word[1..] + rest;
      WordEnds(word[1..], rest);
    }
  }

  lemma {:induction false} WordsOf(word: string, rest: string)
    requires word != "" && (forall i :: 0 <= i < |word| ==> !IsSpace(word[i])) && (rest == "" || IsSpace(rest[0]))
    ensures Words(word + rest) == [word] + Words(rest)
  {
    var t := word + rest;
    WordEnds(word, rest);
    assert t[0] == word[0];
    assert t[..|word|] == word && t[|word|..] == rest;
  }

  lemma {:induction false} WordsAfterBlank(s: string)
    requires s != "" && IsSpace(s[0])
    ensures Words(s) == Words(s[1..])
  {
  }

  lemma {:induction false} WordsArePlain(s: string)
    ensures forall w :: w in Words(s) ==> w != "" && forall i :: 0 <= i < |w| ==> !IsSpace(w[i])
    decreases |s|
  {
    var t := SkipBlank(s);
    if t != "" {
      WordsArePlain(t[WordLength(t)..]);
      WordIsPlain(t);
    }
  }

  lemma {:induction false} WordIsPlain(s: string)
    ensures forall i :: 0 <= i < WordLength(s) ==> !IsSpace(s[i])
  {
    if s != "" && !IsSpace(s[0]) {
      WordIsPlain(s[1..]);
    }
  }

  lemma {:induction false} NoStarsLeft(s: string)
    ensures WithoutStars(s) != "" ==> WithoutStars(s)[0] != '*'
    ensures s != "" && s[0] != '*' ==> WithoutStars(s) == s
  {
    if s != "" && s[0] == '*' {
      NoStarsLeft(s[1..]);
    }
  }

  lemma {:induction false} StarsAreDropped(s: string)
    ensures |WithoutStars(s)| <= |s| && WithoutStars(s) == s[|s| - |WithoutStars(s)|..]
  {
    if s != "" && s[0] == '*' {
      StarsAreDropped(s[1..]);
    }
  }

  lemma {:induction false} LineWords(digest: string, name: string)
    requires IsSha256(digest)
    ensures Words(SidecarLine(digest, name)) == [digest] + Words(name + "\n")
  {
    var rest := "  " + (name + "\n");
    WordsOf(digest, rest);
    WordsAfterBlank(rest);
    assert rest[1..] == " " + (name + "\n");
    WordsAfterBlank(rest[1..]);
    assert rest[1..][1..] == name + "\n";
  }

  /** The sidecar that the backup writes reads back as the digest exactly when the snapshot's name is plain. */
  lemma SidecarReadsBackExactly(digest: string, name: string)
    requires IsDigest(digest)
    ensures SidecarLine(digest, name) == digest + "  " + name + "\n"
    ensures ReadSidecar(SidecarLine(digest, name), name) == (if Plain(name) then Some(digest) else None)
  {
    assert digest + "  " + name + "\n" == digest + ("  " + (name + "\n"));
    LineWords(digest, name);
    var tail := Words(name + "\n");
    if Plain(name) {
      WordsOf(name, "\n");
      assert Words("\n") == [];
      NoStarsLeft(name);
    } else if name == "" {
    } else if tail != [] {
      WordsArePlain(name + "\n");
      assert tail[|tail| - 1] in tail;
      StarlessIsPlain(tail[|tail| - 1]);
    }
  }

  lemma {:induction false} StarlessIsPlain(word: string)
    requires forall i :: 0 <= i < |word| ==> !IsSpace(word[i])
    ensures var w := WithoutStars(word); w == "" || Plain(w)
  {
    NoStarsLeft(word);
    StarsAreDropped(word);
  }
}
