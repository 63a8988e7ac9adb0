/**
 * `HumanComparator.java`: strings compared run by run, digit runs by their
 * numeric value ("file2" before "file10"), other runs as Java strings.
 */
module HumanComparator {
  import opened Digits
  import opened Tokens

  /**
   * The objects `list` produces: a digit run becomes a `BigInteger`,
   * anything else stays a `String`. No third kind exists, so the `throw` for
   * an object of another class cannot be reached.
   */
  datatype Atom = Text(text: string) | Number(value: nat)

  function ToAtom(t: string): Atom
    requires Uniform(t)
  {
    if IsNumeric(t) then Number(Value(t)) else Text(t)
  }

  /** What `list(input)` returns. */
  function Atoms(input: string): (atoms: seq<Atom>)
    ensures |atoms| == |Runs(input)|
  {
    RunsWellFormed(input);
    var ts := Runs(input);
    seq(|ts|, i requires 0 <= i < |ts| => ToAtom(ts[i]))
  }

  /** `list`: the matcher loop, each run converted as it is found. */
  method List(input: string) returns (atoms: seq<Atom>)
    ensures atoms == Atoms(input)
    ensures forall i :: 0 <= i < |atoms| ==>
      (if IsNumeric(Runs(input)[i]) then atoms[i] == Number(Value(Runs(input)[i])) else atoms[i] == Text(Runs(input)[i]))
  {
    var ts := Scan(input);
    RunsWellFormed(input);
    atoms := [];
    for i := 0 to |ts|
      invariant atoms == Atoms(input)[..i]
    {
      var atom := ts[i];
      if IsNumeric(atom) {
        atoms := atoms + [Number(Value(atom))];
      } else {
        atoms := atoms + [Text(atom)];
      }
    }
  }

  /** `String.compareTo`: first differing character's code difference, else length difference. */
  function CompareText(a: string, b: string): int {
    if a == [] || b == [] then |a| - |b|
    else if a[0] != b[0] then (a[0] as int) - (b[0] as int)
    else CompareText(a[1..], b[1..])
  }

  /** The element comparator: numbers before text, like with like. */
  function CompareAtoms(a: Atom, b: Atom): int {
    match (a, b)
    case (Text(s), Text(t)) => CompareText(s, t)
    case (Text(_), Number(_)) => 1
    case (Number(m), Number(n)) => if m < n then -1 else if m == n then 0 else 1
    case (Number(_), Text(_)) => -1
  }

  /** Guava's `Comparators.lexicographical`: first non-zero element comparison, else shorter first. */
  function Lexicographical(xs: seq<Atom>, ys: seq<Atom>): int {
    if xs == [] && ys == [] then 0
    else if xs == [] then -1
    else if ys == [] then 1
    else
      var c := CompareAtoms(xs[0], ys[0]);
      if c != 0 then c else Lexicographical(xs[1..], ys[1..])
  }

  /** `compare(lhs, rhs)` */
  function Compare(lhs: string, rhs: string): int {
    Lexicographical(Atoms(lhs), Atoms(rhs))
  }

  lemma {:induction false} CompareTextZero(a: string, b: string)
    ensures CompareText(a, b) == 0 <==> a == b
  {
    if a != [] && b != [] && a[0] == b[0] {
      CompareTextZero(a[1..], b[1..]);
      if a[1..] == b[1..] {
        assert a == [a[0]] + a[1..] && b == [b[0]] + b[1..];
      }
    }
  }

  lemma {:induction false} CompareTextAntisymmetric(a: string, b: string)
    ensures CompareText(a, b) == -CompareText(b, a)
  {
    if a != [] && b != [] && a[0] == b[0] {
      CompareTextAntisymmetric(a[1..], b[1..]);
    }
  }

  lemma {:induction false} CompareTextTransitive(a: string, b: string, c: string)
    requires CompareText(a, b) < 0 && CompareText(b, c) < 0
    ensures CompareText(a, c) < 0
  {
    if a != [] && b != [] && c != [] && a[0] == b[0] && b[0] == c[0] {
      CompareTextTransitive(a[1..], b[1..], c[1..]);
    }
  }

  lemma CompareAtomsZero(a: Atom, b: Atom)
    ensures CompareAtoms(a, b) == 0 <==> a == b
  {
    if a.Text? && b.Text? {
      CompareTextZero(a.text, b.text);
    }
  }

  lemma CompareAtomsAntisymmetric(a: Atom, b: Atom)
    ensures CompareAtoms(a, b) == -CompareAtoms(b, a)
  {
    if a.Text? && b.Text? {
      CompareTextAntisymmetric(a.text, b.text);
    }
  }

  lemma CompareAtomsTransitive(a: Atom, b: Atom, c: Atom)
    requires CompareAtoms(a, b) < 0 && CompareAtoms(b, c) < 0
    ensures CompareAtoms(a, c) < 0
  {
    if a.Text? && b.Text? && c.Text? {
      CompareTextTransitive(a.text, b.text, c.text);
    }
  }

  lemma {:induction false} LexicographicalReflexive(xs: seq<Atom>)
    ensures Lexicographical(xs, xs) == 0
  {
    if xs != [] {
      CompareAtomsZero(xs[0], xs[0]);
      LexicographicalReflexive(xs[1..]);
    }
  }

  lemma {:induction false} LexicographicalAntisymmetric(xs: seq<Atom>, ys: seq<Atom>)
    ensures Lexicographical(xs, ys) == -Lexicographical(ys, xs)
  {
    if xs != [] && ys != [] {
      CompareAtomsAntisymmetric(xs[0], ys[0]);
      LexicographicalAntisymmetric(xs[1..], ys[1..]);
    }
  }

  lemma {:induction false} LexicographicalTransitive(xs: seq<Atom>, ys: seq<Atom>, zs: seq<Atom>)
    requires Lexicographical(xs, ys) <= 0 && Lexicographical(ys, zs) <= 0
    ensures Lexicographical(xs, zs) <= 0
  {
    if xs != [] && ys != [] && zs != [] {
      var c1, c2 := CompareAtoms(xs[0], ys[0]), CompareAtoms(ys[0], zs[0]);
      CompareAtomsZero(xs[0], ys[0]);
      CompareAtomsZero(ys[0], zs[0]);
      if c1 == 0 && c2 == 0 {
        LexicographicalTransitive(xs[1..], ys[1..], zs[1..]);
      } else if c1 < 0 && c2 < 0 {
        CompareAtomsTransitive(xs[0], ys[0], zs[0]);
      }
    }
  }

  /** The comparison at the first position where the atom lists differ decides. */
  lemma {:induction false} LexicographicalFirstDifference(xs: seq<Atom>, ys: seq<Atom>, k: nat)
    requires k < |xs| && k < |ys| && xs[..k] == ys[..k]
    requires CompareAtoms(xs[k], ys[k]) != 0
    ensures Lexicographical(xs, ys) == CompareAtoms(xs[k], ys[k])
  {
    if k > 0 {
      assert xs[0] == xs[..k][0] && ys[0] == ys[..k][0];
      CompareAtomsZero(xs[0], ys[0]);
      assert xs[1..][..k - 1] == xs[..k][1..];
      assert ys[1..][..k - 1] == ys[..k][1..];
      LexicographicalFirstDifference(xs[1..], ys[1..], k - 1);
    }
  }

  /** A proper prefix sorts first. */
  lemma {:induction false} LexicographicalPrefix(xs: seq<Atom>, ys: seq<Atom>)
    requires |xs| < |ys| && ys[..|xs|] == xs
    ensures Lexicographical(xs, ys) == -1
  {
    if xs != [] {
      CompareAtomsZero(xs[0], ys[0]);
      assert ys[1..][..|xs| - 1] == xs[1..];
      LexicographicalPrefix(xs[1..], ys[1..]);
    }
  }

  /** `compare(s, s) == 0` */
  lemma CompareReflexive(s: string)
    ensures Compare(s, s) == 0
  {
    LexicographicalReflexive(Atoms(s));
  }

  /** `compare(a, b) == -compare(b, a)`, so in particular the signs are opposite. */
  lemma CompareAntisymmetric(a: string, b: string)
    ensures Compare(a, b) == -Compare(b, a)
  {
    LexicographicalAntisymmetric(Atoms(a), Atoms(b));
  }

  /** The `Comparator` contract's transitivity. */
  lemma CompareTransitive(a: string, b: string, c: string)
    requires Compare(a, b) <= 0 && Compare(b, c) <= 0
    ensures Compare(a, c) <= 0
  {
    LexicographicalTransitive(Atoms(a), Atoms(b), Atoms(c));
  }

  /** At the first differing run, a number sorts before text. */
  lemma NumberBeforeText(a: string, b: string, k: nat)
    requires k < |Atoms(a)| && k < |Atoms(b)| && Atoms(a)[..k] == Atoms(b)[..k]
    requires Atoms(a)[k].Number? && Atoms(b)[k].Text?
    ensures Compare(a, b) < 0
  {
    LexicographicalFirstDifference(Atoms(a), Atoms(b), k);
  }

  /** When one string's runs are a proper prefix of the other's, the shorter sorts first. */
  lemma ShorterFirst(a: string, b: string)
    requires |Atoms(a)| < |Atoms(b)| && Atoms(b)[..|Atoms(a)|] == Atoms(a)
    ensures Compare(a, b) == -1
  {
    LexicographicalPrefix(Atoms(a), Atoms(b));
  }

  /** The empty string sorts below every non-empty string. */
  lemma EmptyFirst(s: string)
    requires s != []
    ensures Compare([], s) < 0
  {
    assert Atoms([]) == [];
    assert Runs(s) != [];
    LexicographicalPrefix([], Atoms(s));
  }

  /**
   * The same text followed by two digit runs compares like the runs' values:
   * "file2" before "file10", and "v01" equal to "v1".
   */
  lemma DigitRunsByValue(prefix: string, x: string, y: string)
    requires |prefix| > 0 && NoDigits(prefix) && IsNumeric(x) && IsNumeric(y)
    ensures Value(x) < Value(y) ==> Compare(prefix + x, prefix + y) < 0
    ensures Value(x) == Value(y) ==> Compare(prefix + x, prefix + y) == 0
    ensures Value(x) > Value(y) ==> Compare(prefix + x, prefix + y) > 0
  {
    TwoRuns(prefix, x);
    TwoRuns(prefix, y);
    CompareTextZero(prefix, prefix);
    var xs, ys := Atoms(prefix + x), Atoms(prefix + y);
    assert xs == [Text(prefix), Number(Value(x))];
    assert ys == [Text(prefix), Number(Value(y))];
    if Value(x) == Value(y) {
      assert xs == ys;
      LexicographicalReflexive(xs);
    } else {
      assert xs[..1] == ys[..1];
      LexicographicalFirstDifference(xs, ys, 1);
    }
  }

  lemma TwoRuns(prefix: string, x: string)
    requires |prefix| > 0 && NoDigits(prefix) && IsNumeric(x)
    ensures Runs(prefix + x) == [prefix, x]
  {
    var ts := [prefix, x];
    assert !IsNumeric(prefix) by { assert !IsDigit(prefix[0]); }
    assert WellFormed(ts);
    assert Concat(ts) == prefix + x by {
      assert ts[1..] == [x] && [x][1..] == [];
      assert Concat([x]) == x + Concat([]);
    }
    RunsOfConcat(ts);
  }

  /** "file2" sorts before "file10". */
  lemma FileExample()
    ensures Compare("file2", "file10") < 0
  {
    assert Value("10") == 10 by { assert "10"[..1] == "1" && "1"[..0] == []; }
    assert Value("2") == 2 by { assert "2"[..0] == []; }
    DigitRunsByValue("file", "2", "10");
    assert "file" + "2" == "file2" && "file" + "10" == "file10";
  }

  /** Runs differing only in leading zeros compare equal: "v01" and "v1". */
  lemma LeadingZerosExample()
    ensures Compare("v01", "v1") == 0
  {
    assert Value("01") == 1 by { assert "01"[..1] == "0" && "0"[..0] == []; }
    assert Value("1") == 1 by { assert "1"[..0] == []; }
    DigitRunsByValue("v", "01", "1");
    assert "v" + "01" == "v01" && "v" + "1" == "v1";
  }
}
