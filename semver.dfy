/**
 * The package-private `Version` class inside `Main.java`: the five capture
 * groups of a Semantic Versioning 2.0.0 match, kept as text.
 */
module SemVer {
  import opened Wrappers
  import opened Digits
  import opened Tokens
  import Versions

  /** Absent groups (`null` in the source) are `None`. */
  datatype Version = Version(major: string, minor: string, patch: string, pre: Option<string>, build: Option<string>)

  /** `render()`: the build part is appended only inside the pre-release branch. */
  function Render(v: Version): (r: string)
    ensures v.pre.None? ==> r == v.major + "." + v.minor + "." + v.patch
    ensures v.pre.Some? && v.build.None? ==> r == v.major + "." + v.minor + "." + v.patch + "-" + v.pre.value
    ensures v.pre.Some? && v.build.Some? ==>
      r == v.major + "." + v.minor + "." + v.patch + "-" + v.pre.value + "+" + v.build.value
  {
    var core := v.major + "." + v.minor + "." + v.patch;
    match v.pre
    case None => core
    case Some(p) =>
      match v.build
      case None => core + "-" + p
      case Some(b) => core + "-" + p + "+" + b
  }

  /**
   * `incrementMajor()`: major plus one, minor and patch "0", and no
   * pre-release or build part (the three-argument constructor sets them to
   * `null`).
   */
  function IncrementMajor(v: Version): (r: Version)
    requires IsNumeric(v.major)
    ensures IsNumeric(r.major) && Value(r.major) == Value(v.major) + 1
    ensures r.minor == "0" && r.patch == "0" && r.pre.None? && r.build.None?
  {
    Version(Decimal(Value(v.major) + 1), "0", "0", None, None)
  }

  /** A build part without a pre-release part is dropped when rendering. */
  lemma BuildDroppedWithoutPre(v: Version, b: string)
    requires v.pre.None?
    ensures Render(v.(build := Some(b))) == Render(v.(build := None))
  {
  }

  /**
   * Both `Version` classes agree: on a plain `major.minor.patch` version the
   * run-list `incrementMajor` renders what this one does.
   */
  lemma IncrementMajorAgrees(v: Version)
    requires IsNumeric(v.major) && IsNumeric(v.minor) && IsNumeric(v.patch) && v.pre.None?
    ensures Concat(Versions.MajorBumped(Runs(Render(v)))) == Render(IncrementMajor(v))
  {
    var a, b, c := v.major, v.minor, v.patch;
    assert Runs(Render(v)) == [a, ".", b, ".", c] by {
      Versions.PlainRuns(a, b, c);
    }
    assert Versions.MajorBumped([a, ".", b, ".", c]) == [Versions.Increment(a), ".", "0", ".", "0"] by {
      Versions.MajorBumpedPlain(a, b, c);
    }
    Concat5(Versions.Increment(a), ".", "0", ".", "0");
  }
}
