/**
 * The tokeniser behind `Pattern.compile("[0-9]+|[^0-9]+")` with a
 * `while (m.find())` loop: the input split into its maximal digit and
 * non-digit runs, left to right.
 */
module Tokens {
  import opened Digits

  /** Every token is a non-empty run of one character class. */
  predicate Uniform(t: string) {
    |t| > 0 && (AllDigits(t) || NoDigits(t))
  }

  /**
   * What the tokeniser's output looks like: uniform tokens, and neighbours
   * of different classes (otherwise the match would have been longer).
   */
  predicate WellFormed(ts: seq<string>) {
    && (forall i :: 0 <= i < |ts| ==> Uniform(ts[i]))
    && (forall i :: 0 <= i < |ts| - 1 ==> IsNumeric(ts[i]) != IsNumeric(ts[i + 1]))
  }

  function Concat(ts: seq<string>): string {
    if ts == [] then [] else ts[0] + Concat(ts[1..])
  }

  /** Gluing five tokens. */
  lemma Concat5(a: string, b: string, c: string, d: string, e: string)
    ensures Concat([a, b, c, d, e]) == a + b + c + d + e
  {
    var ts := [a, b, c, d, e];
    assert Concat(ts[4..]) == e by { assert ts[4..][1..] == []; }
    assert Concat(ts[3..]) == d + e by { assert ts[3..][1..] == ts[4..]; }
    assert Concat(ts[2..]) == c + d + e by { assert ts[2..][1..] == ts[3..]; }
    assert Concat(ts[1..]) == b + c + d + e by { assert ts[1..][1..] == ts[2..]; }
  }

  /** Length of the maximal run of `s[0]`'s class at the start of `s`. */
  function RunLength(s: string): (k: nat)
    requires |s| > 0
    ensures 1 <= k <= |s|
  {
    if |s| == 1 || IsDigit(s[1]) != IsDigit(s[0]) then 1 else 1 + RunLength(s[1..])
  }

  /** The run is maximal: one class throughout, and the next character (if any) of the other. */
  lemma {:induction false} RunLengthMaximal(s: string)
    requires |s| > 0
    ensures forall i :: 0 <= i < RunLength(s) ==> IsDigit(s[i]) == IsDigit(s[0])
    ensures RunLength(s) < |s| ==> IsDigit(s[RunLength(s)]) != IsDigit(s[0])
  {
    if |s| > 1 && IsDigit(s[1]) == IsDigit(s[0]) {
      RunLengthMaximal(s[1..]);
    }
  }

  /** The tokens the matcher finds in `s`. */
  function Runs(s: string): seq<string>
    decreases |s|
  {
    if s == [] then [] else var k := RunLength(s); [s[..k]] + Runs(s[k..])
  }

  /** A prefix of one class that the next character ends is the run. */
  lemma {:induction false} RunLengthIs(s: string, k: nat)
    requires 1 <= k <= |s|
    requires forall i :: 0 <= i < k ==> IsDigit(s[i]) == IsDigit(s[0])
    requires k < |s| ==> IsDigit(s[k]) != IsDigit(s[0])
    ensures RunLength(s) == k
  {
    if k > 1 {
      RunLengthIs(s[1..], k - 1);
    }
  }

  /** Gluing the tokens back together gives the input. */
  lemma {:induction false} ConcatRuns(s: string)
    ensures Concat(Runs(s)) == s
    decreases |s|
  {
    if s != [] {
      var k := RunLength(s);
      var head, tail := s[..k], s[k..];
      assert Runs(s) == [head] + Runs(tail);
      ConcatRuns(tail);
      ConcatCons(head, Runs(tail));
      assert s == head + tail;
    }
  }

  lemma ConcatCons(head: string, rest: seq<string>)
    ensures Concat([head] + rest) == head + Concat(rest)
  {
    assert ([head] + rest)[1..] == rest;
  }

  lemma {:induction false} RunsWellFormed(s: string)
    ensures WellFormed(Runs(s))
    decreases |s|
  {
    if s != [] {
      var k := RunLength(s);
      RunLengthMaximal(s);
      RunsWellFormed(s[k..]);
      var rest := Runs(s[k..]);
      assert Runs(s) == [s[..k]] + rest;
      assert Uniform(s[..k]) by {
        if IsDigit(s[0]) { assert AllDigits(s[..k]); } else { assert NoDigits(s[..k]); }
      }
      if rest != [] {
        assert rest[0] == s[k..][..RunLength(s[k..])];
        assert rest[0][0] == s[k];
        assert IsNumeric(s[..k]) == IsDigit(s[0]);
        assert IsNumeric(rest[0]) == IsDigit(s[k]);
      }
    }
  }

  /** Well-formed tokens are exactly what the tokeniser finds in their concatenation. */
  lemma {:induction false} RunsOfConcat(ts: seq<string>)
    requires WellFormed(ts)
    ensures Runs(Concat(ts)) == ts
  {
    if ts != [] {
      var t, rest := ts[0], ts[1..];
      assert WellFormed(rest);
      RunsOfConcat(rest);
      var s := Concat(ts);
      assert s == t + Concat(rest);
      assert forall i :: 0 <= i < |t| ==> s[i] == t[i];
      assert IsDigit(t[0]) == IsNumeric(t);
      if rest != [] {
        assert Concat(rest) == rest[0] + Concat(rest[1..]);
        assert s[|t|] == rest[0][0];
        assert IsDigit(rest[0][0]) == IsNumeric(rest[0]);
      }
      RunLengthIs(s, |t|);
      assert s[..|t|] == t;
      assert s[|t|..] == Concat(rest);
    }
  }

  /** One step of the matcher: the run starting at `i` ends at `j`. */
  lemma RunsStep(s: string, i: nat, j: nat)
    requires i < j <= |s|
    requires forall m :: i <= m < j ==> IsDigit(s[m]) == IsDigit(s[i])
    requires j < |s| ==> IsDigit(s[j]) != IsDigit(s[i])
    ensures Runs(s[i..]) == [s[i..j]] + Runs(s[j..])
  {
    RunLengthIs(s[i..], j - i);
    assert s[i..][..j - i] == s[i..j];
    assert s[i..][j - i..] == s[j..];
  }

  /** A uniform token followed by text of the other class (or nothing) is the first run. */
  lemma RunsCons(s: string, x: string, t: string)
    requires s == x + t
    requires Uniform(x) && (t == [] || IsDigit(t[0]) != IsDigit(x[0]))
    ensures Runs(s) == [x] + Runs(t)
  {
    assert forall m :: 0 <= m < |x| ==> s[m] == x[m];
    assert |x| < |s| ==> s[|x|] == t[0];
    RunsStep(s, 0, |x|);
    assert s[0..] == s && s[..|x|] == x && s[|x|..] == t;
  }

  /** Two uniform tokens of alternating classes in front of `t` are its first two runs. */
  lemma RunsCons2(x: string, y: string, t: string)
    requires Uniform(x) && Uniform(y) && IsDigit(x[0]) != IsDigit(y[0])
    requires t == [] || IsDigit(t[0]) != IsDigit(y[0])
    ensures Runs(x + y + t) == [x, y] + Runs(t)
  {
    var u, s := y + t, x + y + t;
    RunsCons(u, y, t);
    assert u[0] == y[0];
    assert s == x + u by { SeqAssoc(x, y, t); }
    RunsCons(s, x, u);
    var r := Runs(t);
    assert [x] + ([y] + r) == [x, y] + r by { SeqAssoc([x], [y], r); }
  }

  /** Concatenation is associative. */
  lemma SeqAssoc<T>(a: seq<T>, b: seq<T>, c: seq<T>)
    ensures a + b + c == a + (b + c)
  {
  }

  /** The matcher loop: one maximal run per iteration. */
  method Scan(s: string) returns (tokens: seq<string>)
    ensures tokens == Runs(s)
  {
    tokens := [];
    var i := 0;
    while i < |s|
      invariant 0 <= i <= |s|
      invariant tokens + Runs(s[i..]) == Runs(s)
    {
      var j := i + 1;
      while j < |s| && IsDigit(s[j]) == IsDigit(s[i])
        invariant i < j <= |s|
        invariant forall m :: i <= m < j ==> IsDigit(s[m]) == IsDigit(s[i])
      {
        j := j + 1;
      }
      RunsStep(s, i, j);
      SeqAssoc(tokens, [s[i..j]], Runs(s[j..]));
      tokens := tokens + [s[i..j]];
      i := j;
    }
    assert Runs(s[i..]) == [];
  }

  /** Indices of the all-digit tokens, in increasing order. */
  function NumericPositions(ts: seq<string>): (ps: seq<nat>)
    ensures forall j :: 0 <= j < |ps| ==> ps[j] < |ts| && IsNumeric(ts[ps[j]])
    ensures forall j, l :: 0 <= j < l < |ps| ==> ps[j] < ps[l]
  {
    if ts == [] then []
    else
      var n := |ts| - 1;
      var init := NumericPositions(ts[..n]);
      assert forall i :: 0 <= i < n ==> ts[..n][i] == ts[i];
      init + (if IsNumeric(ts[n]) then [n] else [])
  }

  /** No numeric token is missed. */
  lemma {:induction false} NumericPositionsComplete(ts: seq<string>, i: nat)
    requires i < |ts| && IsNumeric(ts[i])
    ensures i in NumericPositions(ts)
  {
    var n := |ts| - 1;
    if i < n {
      assert ts[..n][i] == ts[i];
      NumericPositionsComplete(ts[..n], i);
    }
  }

  /** The numeric positions of a prefix are a prefix of the numeric positions. */
  lemma {:induction false} NumericPositionsPrefix(ts: seq<string>, k: nat)
    requires k <= |ts|
    ensures NumericPositions(ts[..k]) <= NumericPositions(ts)
    decreases |ts| - k
  {
    if k < |ts| {
      NumericPositionsPrefix(ts, k + 1);
      assert ts[..k + 1][..k] == ts[..k];
    } else {
      assert ts[..k] == ts;
    }
  }

  /**
   * Replacing numeric tokens by numeric tokens leaves the numeric positions
   * where they were.
   */
  lemma {:induction false} NumericPositionsReplace(ts: seq<string>, i: nat, v: string)
    requires i < |ts| && IsNumeric(ts[i]) && IsNumeric(v)
    ensures NumericPositions(ts[i := v]) == NumericPositions(ts)
  {
    var us := ts[i := v];
    if i < |ts| - 1 {
      var n := |ts| - 1;
      assert us[..n] == ts[..n][i := v];
      NumericPositionsReplace(ts[..n], i, v);
    } else {
      assert us[..|us| - 1] == ts[..|ts| - 1];
    }
  }

  /** The digit runs of the tokens, in order: what `search("[0-9]+", s)` finds. */
  function NumericTokens(ts: seq<string>): (ns: seq<string>)
    ensures forall j :: 0 <= j < |ns| ==> IsNumeric(ns[j])
    ensures |ns| == |NumericPositions(ts)|
  {
    if ts == [] then []
    else NumericTokens(ts[..|ts| - 1]) + (if IsNumeric(ts[|ts| - 1]) then [ts[|ts| - 1]] else [])
  }

  /** The j-th digit run is the token at the j-th numeric position. */
  lemma {:induction false} NumericTokensAt(ts: seq<string>, j: nat)
    requires j < |NumericTokens(ts)|
    ensures NumericTokens(ts)[j] == ts[NumericPositions(ts)[j]]
  {
    var n := |ts| - 1;
    var init := ts[..n];
    if j < |NumericTokens(init)| {
      NumericTokensAt(init, j);
      assert NumericPositions(ts)[j] == NumericPositions(init)[j];
      assert init[NumericPositions(init)[j]] == ts[NumericPositions(init)[j]];
    } else {
      assert NumericPositions(ts)[j] == n;
    }
  }

  /** The digit runs of two token lists, one after the other. */
  lemma {:induction false} NumericTokensAppend(a: seq<string>, b: seq<string>)
    ensures NumericTokens(a + b) == NumericTokens(a) + NumericTokens(b)
    decreases |b|
  {
    if b == [] {
      assert a + b == a;
    } else {
      var n := |b| - 1;
      assert (a + b)[..|a + b| - 1] == a + b[..n];
      NumericTokensAppend(a, b[..n]);
    }
  }
}
