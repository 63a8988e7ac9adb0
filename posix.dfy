/**
 * `Posix.perms`: the permission set for a numeric file mode, as used when
 * restoring the modes of extracted tar entries.
 */
module Posix {

  /** `PosixFilePermission`, in the order of its `values()`. */
  datatype Permission =
    | OwnerRead | OwnerWrite | OwnerExecute
    | GroupRead | GroupWrite | GroupExecute
    | OthersRead | OthersWrite | OthersExecute

  const Values: seq<Permission> := [
    OwnerRead, OwnerWrite, OwnerExecute,
    GroupRead, GroupWrite, GroupExecute,
    OthersRead, OthersWrite, OthersExecute
  ]

  /** The position of `p` in `values()`. */
  function Ordinal(p: Permission): (i: nat)
    ensures i < |Values| && Values[i] == p
  {
    match p
    case OwnerRead => 0
    case OwnerWrite => 1
    case OwnerExecute => 2
    case GroupRead => 3
    case GroupWrite => 4
    case GroupExecute => 5
    case OthersRead => 6
    case OthersWrite => 7
    case OthersExecute => 8
  }

  function Pow2(n: nat): (r: nat)
    ensures r >= 1
  {
    if n == 0 then 1 else 2 * Pow2(n - 1)
  }

  /**
   * The mode after `i` executions of `intMode >>= 1`. Java's arithmetic
   * shift on an `int` is division by two rounded down, which is Dafny's `/`
   * for a positive divisor, also for negative modes.
   */
  function Shifted(mode: int, i: nat): int {
    if i == 0 then mode else Shifted(mode, i - 1) / 2
  }

  /** `(intMode & 1) == 1` after `i` shifts: bit `i` of the mode (two's complement). */
  predicate Bit(mode: int, i: nat) {
    Shifted(mode, i) % 2 == 1
  }

  /** The set after `n` iterations of the loop. */
  function PermsUpTo(mode: int, n: nat): set<Permission>
    requires n <= |Values|
  {
    if n == 0 then {}
    else PermsUpTo(mode, n - 1) + (if Bit(mode, n - 1) then {Values[|Values| - n]} else {})
  }

  /** What `perms(mode)` returns. */
  function PermsOf(mode: int): set<Permission> {
    PermsUpTo(mode, |Values|)
  }

  /** `perms`: nine rounds of test-the-low-bit, add, shift. */
  method Perms(intMode: int) returns (perms: set<Permission>)
    ensures perms == PermsOf(intMode)
    ensures forall i :: 0 <= i < |Values| ==> (Values[|Values| - i - 1] in perms <==> Bit(intMode, i))
  {
    perms := {};
    var mode := intMode;
    for i := 0 to |Values|
      invariant mode == Shifted(intMode, i)
      invariant perms == PermsUpTo(intMode, i)
    {
      if mode % 2 == 1 {
        perms := perms + {Values[|Values| - i - 1]};
      }
      mode := mode / 2;
    }
    forall i | 0 <= i < |Values|
      ensures Values[|Values| - i - 1] in perms <==> Bit(intMode, i)
    {
      PermsOfHas(intMode, Values[|Values| - i - 1]);
    }
  }

  /** Membership after `n` rounds: the permission's bit was among the first `n` and set. */
  lemma {:induction false} PermsUpToHas(mode: int, n: nat, p: Permission)
    requires n <= |Values|
    ensures p in PermsUpTo(mode, n) <==> |Values| - 1 - Ordinal(p) < n && Bit(mode, |Values| - 1 - Ordinal(p))
  {
    if n > 0 {
      PermsUpToHas(mode, n - 1, p);
      var k := |Values| - n;
      OrdinalOfValue(k);
      assert Values[k] == p <==> k == Ordinal(p);
    }
  }

  /** Bit `i` of the mode is set exactly when `values()[8 - i]` is in the result. */
  lemma PermsOfHas(mode: int, p: Permission)
    ensures p in PermsOf(mode) <==> Bit(mode, |Values| - 1 - Ordinal(p))
  {
    PermsUpToHas(mode, |Values|, p);
  }

  lemma {:induction false} ShiftedOfMasked(mode: int, i: nat)
    requires i <= 9
    ensures Shifted(mode, i) == Pow2(9 - i) * (mode / 512) + Shifted(mode % 512, i)
  {
    if i == 0 {
      assert Pow2(9) == 512;
    } else {
      ShiftedOfMasked(mode, i - 1);
      var x := Pow2(9 - i) * (mode / 512);
      assert Pow2(9 - (i - 1)) * (mode / 512) == 2 * x;
      var y := Shifted(mode % 512, i - 1);
      assert (2 * x + y) / 2 == x + y / 2;
    }
  }

  /** Only the low nine bits matter: `perms(m) == perms(m & 0777)`. */
  lemma PermsLowBits(mode: int)
    ensures PermsOf(mode) == PermsOf(mode % 512)
  {
    forall p: Permission
      ensures p in PermsOf(mode) <==> p in PermsOf(mode % 512)
    {
      PermsOfHas(mode, p);
      PermsOfHas(mode % 512, p);
      BitLow(mode, |Values| - 1 - Ordinal(p));
    }
  }

  /** Bits 0 to 8 of a mode are those of the mode modulo 01000. */
  lemma BitLow(mode: int, i: nat)
    requires i < 9
    ensures Bit(mode, i) == Bit(mode % 512, i)
  {
    ShiftedOfMasked(mode, i);
    var x := Pow2(8 - i) * (mode / 512);
    assert Pow2(9 - i) * (mode / 512) == 2 * x;
    Parity(x, Shifted(mode % 512, i));
  }

  lemma Parity(x: int, y: int)
    ensures (2 * x + y) % 2 == y % 2
  {
  }

  lemma PermsOfZero()
    ensures PermsOf(0) == {}
  {
    forall p: Permission ensures p !in PermsOf(0) {
      PermsOfHas(0, p);
      ShiftedZero(|Values| - 1 - Ordinal(p));
    }
  }

  lemma {:induction false} ShiftedZero(i: nat)
    ensures Shifted(0, i) == 0
  {
    if i > 0 {
      ShiftedZero(i - 1);
    }
  }

  /** Mode 0777 gives all nine permissions. */
  lemma PermsOfAll()
    ensures forall p: Permission :: p in PermsOf(511)
  {
    forall p: Permission ensures p in PermsOf(511) {
      PermsOfHas(511, p);
      BitFull(|Values| - 1 - Ordinal(p));
    }
  }

  lemma BitFull(i: nat)
    requires i < 9
    ensures Bit(511, i)
  {
    ShiftedFull(i);
    var q := Pow2(8 - i);
    assert Pow2(9 - i) == 2 * q;
    assert (2 * q - 1) % 2 == 1;
  }

  lemma {:induction false} ShiftedFull(i: nat)
    requires i < 9
    ensures Shifted(511, i) == Pow2(9 - i) - 1
  {
    if i > 0 {
      ShiftedFull(i - 1);
      assert Pow2(9 - (i - 1)) == 2 * Pow2(9 - i);
    } else {
      assert Pow2(9) == 512;
    }
  }

  /** The number of set bits among the low `n`. */
  function BitCount(mode: int, n: nat): nat {
    if n == 0 then 0 else BitCount(mode, n - 1) + (if Bit(mode, n - 1) then 1 else 0)
  }

  /** The result has one permission per set bit among the low nine. */
  lemma {:induction false} PermsUpToSize(mode: int, n: nat)
    requires n <= |Values|
    ensures |PermsUpTo(mode, n)| == BitCount(mode, n)
  {
    if n > 0 {
      PermsUpToSize(mode, n - 1);
      var before := PermsUpTo(mode, n - 1);
      var p := Values[|Values| - n];
      PermsUpToFresh(mode, n);
      AddFresh(before, p);
    }
  }

  /** Round `n` considers a permission that earlier rounds never added. */
  lemma PermsUpToFresh(mode: int, n: nat)
    requires 0 < n <= |Values|
    ensures Values[|Values| - n] !in PermsUpTo(mode, n - 1)
  {
    OrdinalOfValue(|Values| - n);
    PermsUpToHas(mode, n - 1, Values[|Values| - n]);
  }

  /** `values()[i].ordinal() == i` */
  lemma OrdinalOfValue(i: nat)
    requires i < |Values|
    ensures Ordinal(Values[i]) == i
  {
  }

  lemma AddFresh<T>(s: set<T>, x: T)
    requires x !in s
    ensures |s + {x}| == |s| + 1
  {
  }

  lemma PermsOfSize(mode: int)
    ensures |PermsOf(mode)| == BitCount(mode, 9)
  {
    PermsUpToSize(mode, 9);
  }

  /** More bits set, more permissions. */
  lemma PermsMonotone(a: int, b: int)
    requires forall i :: 0 <= i < 9 ==> Bit(a, i) ==> Bit(b, i)
    ensures PermsOf(a) <= PermsOf(b)
  {
    forall p | p in PermsOf(a) ensures p in PermsOf(b) {
      PermsOfHas(a, p);
      PermsOfHas(b, p);
    }
  }

  lemma {:induction false} ShiftedHalf(mode: int, i: nat)
    ensures Shifted(mode, i + 1) == Shifted(mode / 2, i)
  {
    if i > 0 {
      ShiftedHalf(mode, i - 1);
    }
  }

  /** Below `2^n`, a number is fixed by its low `n` bits. */
  lemma {:induction false} BitsDetermine(a: int, b: int, n: nat)
    requires 0 <= a < Pow2(n) && 0 <= b < Pow2(n)
    requires forall i :: 0 <= i < n ==> Bit(a, i) == Bit(b, i)
    ensures a == b
  {
    if n > 0 {
      forall i | 0 <= i < n - 1 ensures Bit(a / 2, i) == Bit(b / 2, i) {
        ShiftedHalf(a, i);
        ShiftedHalf(b, i);
        assert Bit(a, i + 1) == Bit(b, i + 1);
      }
      BitsDetermine(a / 2, b / 2, n - 1);
      assert Bit(a, 0) == Bit(b, 0);
    }
  }

  /** Different modes in 0..0777 give different permission sets. */
  lemma PermsInjective(a: int, b: int)
    requires 0 <= a < 512 && 0 <= b < 512
    requires PermsOf(a) == PermsOf(b)
    ensures a == b
  {
    forall i | 0 <= i < 9 ensures Bit(a, i) == Bit(b, i) {
      var p := Values[|Values| - 1 - i];
      OrdinalOfValue(|Values| - 1 - i);
      PermsOfHas(a, p);
      PermsOfHas(b, p);
    }
    assert Pow2(9) == 512;
    BitsDetermine(a, b, 9);
  }

  /** Mode 0755: owner rwx, group r-x, others r-x. */
  lemma PermsExample()
    ensures PermsOf(493) == {OwnerRead, OwnerWrite, OwnerExecute, GroupRead, GroupExecute, OthersRead, OthersExecute}
  {
    assert Shifted(493, 1) == 246 && Shifted(493, 2) == 123 && Shifted(493, 3) == 61;
    assert Shifted(493, 4) == 30 && Shifted(493, 5) == 15 && Shifted(493, 6) == 7;
    assert Shifted(493, 7) == 3 && Shifted(493, 8) == 1;
    forall p: Permission
      ensures p in PermsOf(493) <==> p in {OwnerRead, OwnerWrite, OwnerExecute, GroupRead, GroupExecute, OthersRead, OthersExecute}
    {
      PermsOfHas(493, p);
    }
  }
}
