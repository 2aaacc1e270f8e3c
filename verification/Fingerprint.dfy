/**
 The count/sum/xor fingerprint of a set of records (memorybridge/snapshot.py), over their 256-bit digests.
 */
module Fingerprint {
  import opened Basics
  import opened Sorting

  const MODULUS: nat := 0x1_0000000000000000_0000000000000000_0000000000000000_0000000000000000

  function Xor(a: nat, b: nat): nat {
    if a == 0 && b == 0 then 0 else 2 * Xor(a / 2, b / 2) + (if a % 2 == b % 2 then 0 else 1)
  }

  datatype Print = Print(count: nat, sum: nat, xor: nat)

  const EMPTY := Print(0, 0, 0)

  /** `_fingerprint_add`. */
  function Add(p: Print, value: nat): Print {
    Print(p.count + 1, (p.sum + value) % MODULUS, Xor(p.xor, value))
  }

  function Of(values: seq<nat>): Print {
    if values == [] then EMPTY else Add(Of(values[..|values| - 1]), values[|values| - 1])
  }

  lemma {:induction false} XorCommutes(a: nat, b: nat)
    ensures Xor(a, b) == Xor(b, a)
  {
    if a != 0 || b != 0 {
      XorCommutes(a / 2, b / 2);
    }
  }

  lemma {:induction false} XorAssociates(a: nat, b: nat, c: nat)
    ensures Xor(Xor(a, b), c) == Xor(a, Xor(b, c))
    decreases a + b + c
  {
    if a != 0 || b != 0 || c != 0 {
      XorAssociates(a / 2, b / 2, c / 2);
    }
  }

  function Power(k: nat): (r: nat)
    ensures r > 0
  {
    if k == 0 then 1 else 2 * Power(k - 1)
  }

  /** Binary digit `k`. */
  predicate HasBit(n: nat, k: nat) {
    if k == 0 then n % 2 == 1 else HasBit(n / 2, k - 1)
  }

  /** Exclusive or, digit by digit. */
  lemma {:induction false} XorBit(a: nat, b: nat, k: nat)
    ensures HasBit(Xor(a, b), k) <==> HasBit(a, k) != HasBit(b, k)
  {
    if k > 0 {
      XorBit(a / 2, b / 2, k - 1);
      if a == 0 && b == 0 {
        assert Xor(a / 2, b / 2) == 0;
      }
    } else if a != 0 || b != 0 {
      assert Xor(a, b) % 2 == if a % 2 == b % 2 then 0 else 1;
    }
  }

  function Sum(values: seq<nat>): nat {
    if values == [] then 0 else values[0] + Sum(values[1..])
  }

  function WithBit(values: seq<nat>, k: nat): nat {
    if values == [] then 0 else (if HasBit(values[0], k) then 1 else 0) + WithBit(values[1..], k)
  }

  lemma {:induction false} SumOfMore(values: seq<nat>, v: nat, k: nat)
    ensures Sum(values + [v]) == Sum(values) + v
    ensures WithBit(values + [v], k) == WithBit(values, k) + if HasBit(v, k) then 1 else 0
  {
    if values == [] {
      assert values + [v] == [v] && [v][1..] == [];
    } else {
      SumOfMore(values[1..], v, k);
      assert (values + [v])[1..] == values[1..] + [v];
    }
  }

  lemma {:induction false} SumIs(values: seq<nat>)
    ensures Of(values).count == |values| && Of(values).sum == Sum(values) % MODULUS
  {
    if values != [] {
      var n := |values| - 1;
      SumIs(values[..n]);
      SumOfMore(values[..n], values[n], 0);
      assert values == values[..n] + [values[n]];
      SumOfTwo(0, Sum(values[..n]), values[n]);
    }
  }

  lemma {:induction false} XorIs(values: seq<nat>, k: nat)
    ensures HasBit(Of(values).xor, k) <==> WithBit(values, k) % 2 == 1
  {
    if values == [] {
      NoBit(k);
    } else {
      var n := |values| - 1;
      XorIs(values[..n], k);
      SumOfMore(values[..n], values[n], k);
      assert values == values[..n] + [values[n]];
      XorBit(Of(values[..n]).xor, values[n], k);
    }
  }

  /** What the three numbers are: how many digests, their sum in 256 bits, and for each digit whether an odd number have it. */
  lemma {:induction false} PrintIs(values: seq<nat>, k: nat)
    ensures var p := Of(values);
            p.count == |values| && p.sum == Sum(values) % Power(256) && (HasBit(p.xor, k) <==> WithBit(values, k) % 2 == 1)
  {
    ModulusIs();
    SumIs(values);
    XorIs(values, k);
  }

  lemma {:induction false} NoBit(k: nat)
    ensures !HasBit(0, k)
  {
    if k > 0 {
      NoBit(k - 1);
    }
  }

  lemma ModulusIs()
    ensures Power(256) == MODULUS
  {
    assert Power(8) == 256;
    PowerDoubles(8, 256);
    PowerDoubles(16, 0x1_0000);
    PowerDoubles(32, 0x1_00000000);
    PowerDoubles(64, 0x1_0000000000000000);
    PowerDoubles(128, 0x1_0000000000000000_0000000000000000);
  }

  lemma {:induction false} PowerDoubles(k: nat, p: nat)
    requires Power(k) == p
    ensures Power(2 * k) == p * p
  {
    PowerOfSum(k, k);
  }

  lemma {:induction false} PowerOfSum(a: nat, b: nat)
    ensures Power(a + b) == Power(a) * Power(b)
  {
    if a > 0 {
      PowerOfSum(a - 1, b);
      assert Power(a + b) == 2 * Power(a - 1 + b);
    }
  }

  lemma SumOfTwo(s: nat, v: nat, w: nat)
    ensures ((s + v) % MODULUS + w) % MODULUS == (s + v + w) % MODULUS
  {
  }

  lemma AddsCommute(p: Print, v: nat, w: nat)
    ensures Add(Add(p, v), w) == Add(Add(p, w), v)
  {
    XorAssociates(p.xor, v, w);
    XorAssociates(p.xor, w, v);
    XorCommutes(v, w);
    SumOfTwo(p.sum, v, w);
    SumOfTwo(p.sum, w, v);
  }

  /** Taking out any one value and adding it last gives the same fingerprint. */
  lemma {:induction false} AnyValueLast(values: seq<nat>, i: nat)
    requires i < |values|
    ensures Of(values) == Add(Of(values[..i] + values[i + 1..]), values[i])
  {
    var n := |values| - 1;
    if i == n {
      assert values[..i] + values[i + 1..] == values[..n];
    } else {
      var init, rest := values[..n], values[..i] + values[i + 1..];
      AnyValueLast(init, i);
      assert init[..i] + init[i + 1..] == rest[..n - 1];
      assert rest[n - 1] == values[n];
      AddsCommute(Of(rest[..n - 1]), values[i], values[n]);
    }
  }

  /** A value of the multiset can be taken to be the last one added. */
  lemma SplitOff(values: seq<nat>, v: nat) returns (rest: seq<nat>)
    requires v in multiset(values)
    ensures multiset(rest) == multiset(values) - multiset{v} && |rest| == |values| - 1
    ensures Of(values) == Add(Of(rest), v)
  {
    var i :| 0 <= i < |values| && values[i] == v;
    rest := values[..i] + values[i + 1..];
    WithoutOne(values, i);
    AnyValueLast(values, i);
  }

  /** The fingerprint depends on the records alone, not on their order or on page boundaries. */
  lemma {:induction false} OrderIndependent(a: seq<nat>, b: seq<nat>)
    requires multiset(a) == multiset(b)
    ensures Of(a) == Of(b)
  {
    if a == [] {
      assert |b| == |multiset(b)| == 0;
    } else {
      var init, last := a[..|a| - 1], a[|a| - 1];
      assert a == init + [last];
      var rest := SplitOff(b, last);
      assert multiset(rest) == multiset(init);
      OrderIndependent(init, rest);
    }
  }

  lemma {:induction false} CountIsLength(values: seq<nat>)
    ensures Of(values).count == |values| && Of(values).sum < MODULUS
  {
    if values != [] {
      CountIsLength(values[..|values| - 1]);
    }
  }

  lemma AddsTellApart(p: Print, v: nat, w: nat)
    requires v < MODULUS && w < MODULUS && Add(p, v) == Add(p, w)
    ensures v == w
  {
  }

  /** `common` and one more record: the fingerprint tells which, because the sum is exact modulo 2^256. */
  lemma {:induction false} OneAlteredIsDetected(a: seq<nat>, b: seq<nat>, common: multiset<nat>, v: nat, w: nat)
    requires v < MODULUS && w < MODULUS
    requires multiset(a) == common + multiset{v} && multiset(b) == common + multiset{w}
    ensures Of(a) == Of(b) <==> v == w
  {
    if v == w {
      OrderIndependent(a, b);
    } else if Of(a) == Of(b) {
      var x := SplitOff(a, v);
      var y := SplitOff(b, w);
      assert multiset(x) == common && multiset(y) == common;
      OrderIndependent(x, y);
      AddsTellApart(Of(x), v, w);
    }
  }

  /** One record more or less changes the count. */
  lemma {:induction false} OneMoreIsDetected(a: seq<nat>, b: seq<nat>, v: nat)
    requires multiset(b) == multiset(a) + multiset{v}
    ensures Of(a) != Of(b)
  {
    CountIsLength(a);
    CountIsLength(b);
    assert |a| == |multiset(a)| && |b| == |multiset(b)|;
  }

  /** Two altered records can go unnoticed, so no more than one change is promised. */
  lemma TwoAlteredCanHide()
    ensures Of([0, 3]) == Of([1, 2]) && multiset([0, 3]) != multiset([1, 2])
  {
  }
}
