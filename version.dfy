/**
 * `Version.java`: a version string held as its list of digit and non-digit
 * runs. The increments rewrite the 1st, 2nd and 3rd numeric runs in place, as
 * items 6-8 of Semantic Versioning 2.0.0 ask: a minor bump resets the patch
 * number, a major bump resets minor and patch.
 */
module Versions {
  import opened Digits
  import opened Tokens

  /** `semver(k)`: the list index of the (k+1)-th numeric token, or -1. */
  function NumericIndex(ts: seq<string>, k: nat): (index: int)
    ensures -1 <= index < |ts|
    ensures index == -1 <==> |NumericPositions(ts)| <= k
    ensures index >= 0 ==> IsNumeric(ts[index]) && index == NumericPositions(ts)[k]
  {
    var ps := NumericPositions(ts);
    if k < |ps| then ps[k] else -1
  }

  /** `increment`: the value of a digit run plus one, in plain decimal. */
  function Increment(t: string): (r: string)
    requires IsNumeric(t)
    ensures IsNumeric(r) && Value(r) == Value(t) + 1
  {
    Decimal(Value(t) + 1)
  }

  /** `list.set(semver(k), increment(list.get(semver(k))))`, a no-op where the run is missing. */
  function Bump(ts: seq<string>, k: nat): seq<string> {
    var i := NumericIndex(ts, k);
    if i == -1 then ts else ts[i := Increment(ts[i])]
  }

  /** `list.set(semver(k), "0")`, a no-op where the run is missing. */
  function Zero(ts: seq<string>, k: nat): seq<string> {
    var i := NumericIndex(ts, k);
    if i == -1 then ts else ts[i := "0"]
  }

  /*
   * The token lists the three increments leave behind. Where the source
   * throws part-way, the steps before the throw have already been applied;
   * every later step would throw too, and here it changes nothing.
   */

  function PatchBumped(ts: seq<string>): seq<string> {
    Bump(ts, 2)
  }

  function MinorBumped(ts: seq<string>): seq<string> {
    Zero(Bump(ts, 1), 2)
  }

  function MajorBumped(ts: seq<string>): seq<string> {
    Zero(Zero(Bump(ts, 0), 1), 2)
  }

  /** `release(r)`: the 4th numeric run replaced by `r`, when there is one. */
  function Released(ts: seq<string>, r: string): seq<string> {
    var i := NumericIndex(ts, 3);
    if i == -1 then ts else ts[i := r]
  }

  /** Bumping or zeroing a run keeps every run where it was. */
  lemma BumpKeepsPositions(ts: seq<string>, k: nat)
    ensures NumericPositions(Bump(ts, k)) == NumericPositions(ts)
    ensures NumericPositions(Zero(ts, k)) == NumericPositions(ts)
  {
    var i := NumericIndex(ts, k);
    if i != -1 {
      NumericPositionsReplace(ts, i, Increment(ts[i]));
      assert IsNumeric("0");
      NumericPositionsReplace(ts, i, "0");
    }
  }

  /** Where the (k+1)-th numeric run exists, Bump and Zero rewrite exactly it. */
  lemma BumpAt(ts: seq<string>, k: nat)
    requires k < |NumericPositions(ts)|
    ensures var i := NumericPositions(ts)[k];
      && Bump(ts, k) == ts[i := Increment(ts[i])]
      && Zero(ts, k) == ts[i := "0"]
      && NumericPositions(Bump(ts, k)) == NumericPositions(ts)
      && NumericPositions(Zero(ts, k)) == NumericPositions(ts)
  {
    BumpKeepsPositions(ts, k);
  }

  /**
   * `incrementPatch`: the 3rd numeric run goes up by one; the number of runs
   * and every other run stay as they were.
   */
  lemma PatchBumpedSpec(ts: seq<string>)
    requires |NumericPositions(ts)| >= 3
    ensures |PatchBumped(ts)| == |ts|
    ensures NumericPositions(PatchBumped(ts)) == NumericPositions(ts)
    ensures var r, i := PatchBumped(ts), NumericPositions(ts)[2];
      IsNumeric(r[i]) && Value(r[i]) == Value(ts[i]) + 1
    ensures var r, i := PatchBumped(ts), NumericPositions(ts)[2];
      forall j :: 0 <= j < |ts| && j != i ==> r[j] == ts[j]
  {
    BumpAt(ts, 2);
  }

  /**
   * `incrementMinor`: the 2nd numeric run goes up by one, the 3rd becomes
   * "0", nothing else changes.
   */
  lemma MinorBumpedSpec(ts: seq<string>)
    requires |NumericPositions(ts)| >= 3
    ensures |MinorBumped(ts)| == |ts|
    ensures NumericPositions(MinorBumped(ts)) == NumericPositions(ts)
    ensures var r, p := MinorBumped(ts), NumericPositions(ts);
      IsNumeric(r[p[1]]) && Value(r[p[1]]) == Value(ts[p[1]]) + 1 && r[p[2]] == "0"
    ensures var r, p := MinorBumped(ts), NumericPositions(ts);
      forall j :: 0 <= j < |ts| && j != p[1] && j != p[2] ==> r[j] == ts[j]
  {
    var p := NumericPositions(ts);
    MinorBumpedIs(ts);
    assert p[1] < p[2];
  }

  /** The two steps of `incrementMinor`, each at its run. */
  lemma MinorBumpedIs(ts: seq<string>)
    requires |NumericPositions(ts)| >= 3
    ensures var p := NumericPositions(ts);
      MinorBumped(ts) == ts[p[1] := Increment(ts[p[1]])][p[2] := "0"]
    ensures NumericPositions(MinorBumped(ts)) == NumericPositions(ts)
  {
    BumpAt(ts, 1);
    BumpAt(Bump(ts, 1), 2);
  }

  /**
   * `incrementMajor`: the 1st numeric run goes up by one, the 2nd and 3rd
   * become "0", nothing else changes.
   */
  lemma MajorBumpedSpec(ts: seq<string>)
    requires |NumericPositions(ts)| >= 3
    ensures |MajorBumped(ts)| == |ts|
    ensures NumericPositions(MajorBumped(ts)) == NumericPositions(ts)
    ensures var r, p := MajorBumped(ts), NumericPositions(ts);
      IsNumeric(r[p[0]]) && Value(r[p[0]]) == Value(ts[p[0]]) + 1 && r[p[1]] == "0" && r[p[2]] == "0"
    ensures var r, p := MajorBumped(ts), NumericPositions(ts);
      forall j :: 0 <= j < |ts| && j != p[0] && j != p[1] && j != p[2] ==> r[j] == ts[j]
  {
    var p := NumericPositions(ts);
    MajorBumpedIs(ts);
    assert p[0] < p[1] < p[2];
  }

  /** The three steps of `incrementMajor`, each at its run. */
  lemma MajorBumpedIs(ts: seq<string>)
    requires |NumericPositions(ts)| >= 3
    ensures var p := NumericPositions(ts);
      MajorBumped(ts) == ts[p[0] := Increment(ts[p[0]])][p[1] := "0"][p[2] := "0"]
    ensures NumericPositions(MajorBumped(ts)) == NumericPositions(ts)
  {
    BumpAt(ts, 0);
    var b := Bump(ts, 0);
    BumpAt(b, 1);
    BumpAt(Zero(b, 1), 2);
  }

  /**
   * `incrementMajor` on a version with fewer than three numeric runs: the
   * runs before the missing one have been rewritten, the rest is untouched.
   */
  lemma MajorBumpedPartial(ts: seq<string>)
    requires |NumericPositions(ts)| < 3
    ensures var r, p := MajorBumped(ts), NumericPositions(ts);
      && NumericPositions(r) == p
      && (|p| == 0 ==> r == ts)
      && (|p| == 1 ==> r == ts[p[0] := Increment(ts[p[0]])])
      && (|p| == 2 ==> r == ts[p[0] := Increment(ts[p[0]])][p[1] := "0"])
  {
    BumpKeepsPositions(ts, 0);
    BumpKeepsPositions(Bump(ts, 0), 1);
    BumpKeepsPositions(Zero(Bump(ts, 0), 1), 2);
  }

  /** The bumps keep a well-formed token list well formed, so rendering round-trips. */
  lemma BumpWellFormed(ts: seq<string>, k: nat)
    requires WellFormed(ts)
    ensures WellFormed(Bump(ts, k)) && WellFormed(Zero(ts, k))
  {
    var i := NumericIndex(ts, k);
    if i != -1 {
      var inc := Increment(ts[i]);
      assert Uniform(inc);
      var z := "0";
      assert IsNumeric(z) && Uniform(z);
      var b, zz := ts[i := inc], ts[i := z];
      forall j | 0 <= j < |b| ensures Uniform(b[j]) && Uniform(zz[j]) {
      }
      forall j | 0 <= j < |b| - 1
        ensures IsNumeric(b[j]) != IsNumeric(b[j + 1])
        ensures IsNumeric(zz[j]) != IsNumeric(zz[j + 1])
      {
        assert IsNumeric(ts[j]) != IsNumeric(ts[j + 1]);
      }
    }
  }

  lemma MajorBumpedWellFormed(ts: seq<string>)
    requires WellFormed(ts)
    ensures WellFormed(MajorBumped(ts)) && WellFormed(MinorBumped(ts)) && WellFormed(PatchBumped(ts))
  {
    BumpWellFormed(ts, 0);
    BumpWellFormed(Bump(ts, 0), 1);
    BumpWellFormed(Zero(Bump(ts, 0), 1), 2);
    BumpWellFormed(ts, 1);
    BumpWellFormed(Bump(ts, 1), 2);
    BumpWellFormed(ts, 2);
  }

  /** The `Version` object: its token list, rewritten in place by the increments. */
  class Version {
    var list: seq<string>

    /** `new Version(s)`: the maximal runs of `s`. */
    constructor (version: string)
      ensures list == Runs(version)
      ensures WellFormed(list) && Concat(list) == version
    {
      var tokens := Scan(version);
      list := tokens;
      RunsWellFormed(version);
      ConcatRuns(version);
    }

    /** `render()`: the runs joined back together. */
    function Render(): (r: string)
      reads this
      ensures WellFormed(list) ==> Runs(r) == list
    {
      if WellFormed(list) then RunsOfConcat(list); Concat(list) else Concat(list)
    }

    /** The loop behind `semver(k)`. */
    method Semver(k: nat) returns (index: int)
      ensures index == NumericIndex(list, k)
    {
      var i := 0;
      var remaining: int := k;
      while i < |list|
        invariant 0 <= i <= |list|
        invariant remaining == k - |NumericPositions(list[..i])| >= 0
      {
        assert list[..i + 1][..i] == list[..i];
        if IsNumeric(list[i]) {
          remaining := remaining - 1;
          if remaining == -1 {
            NumericPositionsPrefix(list, i + 1);
            return i;
          }
        }
        i := i + 1;
      }
      assert list[..i] == list;
      return -1;
    }

    method IncrementMajor() returns (ok: bool)
      modifies this
      ensures ok <==> |NumericPositions(old(list))| >= 3
      ensures list == MajorBumped(old(list))
    {
      BumpKeepsPositions(list, 0);
      BumpKeepsPositions(Bump(list, 0), 1);
      var i := Semver(0);
      if i == -1 {
        return false;
      }
      list := list[i := Increment(list[i])];
      i := Semver(1);
      if i == -1 {
        return false;
      }
      list := list[i := "0"];
      i := Semver(2);
      if i == -1 {
        return false;
      }
      list := list[i := "0"];
      return true;
    }

    method IncrementMinor() returns (ok: bool)
      modifies this
      ensures ok <==> |NumericPositions(old(list))| >= 3
      ensures list == MinorBumped(old(list))
    {
      BumpKeepsPositions(list, 1);
      var i := Semver(1);
      if i == -1 {
        return false;
      }
      list := list[i := Increment(list[i])];
      i := Semver(2);
      if i == -1 {
        return false;
      }
      list := list[i := "0"];
      return true;
    }

    method IncrementPatch() returns (ok: bool)
      modifies this
      ensures ok <==> |NumericPositions(old(list))| >= 3
      ensures list == PatchBumped(old(list))
    {
      var i := Semver(2);
      if i == -1 {
        return false;
      }
      list := list[i := Increment(list[i])];
      return true;
    }

    method Release(release: string) returns (ok: bool)
      modifies this
      ensures ok <==> |NumericPositions(old(list))| >= 4
      ensures list == Released(old(list), release)
    {
      var i := Semver(3);
      if i == -1 {
        return false;
      }
      list := list[i := release];
      return true;
    }

    /** `build(s)` ignores its argument and hands back the same object. */
    method Build(build: string) returns (v: Version)
      ensures v == this && list == old(list)
    {
      v := this;
    }
  }

  /** A plain `a.b.c` of three digit runs splits into three numeric runs and two dots. */
  lemma PlainRuns(a: string, b: string, c: string)
    requires IsNumeric(a) && IsNumeric(b) && IsNumeric(c)
    ensures Runs(a + "." + b + "." + c) == [a, ".", b, ".", c]
    ensures NumericPositions([a, ".", b, ".", c]) == [0, 2, 4]
  {
    assert NoDigits(".") && !IsNumeric(".") by { assert !IsDigit("."[0]); }
    var ts := [a, ".", b, ".", c];
    assert Runs(a + "." + b + "." + c) == ts by {
      assert WellFormed(ts);
      Concat5(a, ".", b, ".", c);
      RunsOfConcat(ts);
    }
    PlainPositions(ts);
  }

  /** Where the numbers sit in `a`, `.`, `b`, `.`, `c`. */
  lemma PlainPositions(ts: seq<string>)
    requires |ts| == 5 && IsNumeric(ts[0]) && IsNumeric(ts[2]) && IsNumeric(ts[4])
    requires !IsNumeric(ts[1]) && !IsNumeric(ts[3])
    ensures NumericPositions(ts) == [0, 2, 4]
  {
    assert NumericPositions(ts[..1]) == [0] by { assert ts[..1][..0] == []; }
    assert NumericPositions(ts[..2]) == [0] by { assert ts[..2][..1] == ts[..1]; }
    assert NumericPositions(ts[..3]) == [0, 2] by { assert ts[..3][..2] == ts[..2]; }
    assert NumericPositions(ts[..4]) == [0, 2] by { assert ts[..4][..3] == ts[..3]; }
    assert ts[..5] == ts;
  }

  /** On a plain `a.b.c`, the major bump gives `a+1.0.0`. */
  lemma MajorBumpedPlain(a: string, b: string, c: string)
    requires IsNumeric(a) && IsNumeric(b) && IsNumeric(c)
    ensures MajorBumped([a, ".", b, ".", c]) == [Increment(a), ".", "0", ".", "0"]
  {
    PlainRuns(a, b, c);
    MajorBumpedIs([a, ".", b, ".", c]);
  }

  /** "0.9.1" splits into three numeric runs and two dots. */
  lemma RunsExample()
    ensures Runs("0.9.1") == ["0", ".", "9", ".", "1"]
  {
    PlainRuns("0", "9", "1");
    assert "0" + "." + "9" + "." + "1" == "0.9.1";
  }

  lemma MajorBumpedExampleTokens()
    ensures MajorBumped(["0", ".", "9", ".", "1"]) == ["1", ".", "0", ".", "0"]
  {
    MajorBumpedPlain("0", "9", "1");
    assert Value("0") == 0 by { assert "0"[..0] == []; }
  }

  /** The documented use: "0.9.1" with its major bumped renders as "1.0.0". */
  lemma MajorBumpExample()
    ensures Concat(MajorBumped(Runs("0.9.1"))) == "1.0.0"
  {
    RunsExample();
    MajorBumpedExampleTokens();
    RenderExample();
  }

  lemma RenderExample()
    ensures Concat(["1", ".", "0", ".", "0"]) == "1.0.0"
  {
    Concat5("1", ".", "0", ".", "0");
    assert "1" + "." + "0" + "." + "0" == "1.0.0";
  }

  /** Leading zeros do not survive an increment: "007" becomes "8". */
  lemma IncrementDropsLeadingZeros()
    ensures Increment("007") == "8"
  {
    assert "007"[..2] == "00" && "00"[..1] == "0" && "0"[..0] == [];
    assert Value("007") == 7;
  }
}
