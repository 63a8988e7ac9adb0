/**
 * `BuildTag.java`: a branch name and a build number, rendered as the tag
 * name `xbuild-<branch>-<number>`.
 */
module BuildTag {
  import opened Wrappers
  import opened Digits

  /** Both fields are final: a value. */
  datatype BuildTag = BuildTag(branch: string, number: string)

  const Prefix: string := "xbuild-"

  /** `new BuildTag(branch, number)`: the number kept as its decimal text. */
  function Make(branch: string, number: int): (t: BuildTag)
    ensures t.branch == branch
    ensures ParseInt(t.number) == Some(number)
  {
    ParseIntString(number);
    BuildTag(branch, IntString(number))
  }

  /** `renderTag()` */
  function RenderTag(t: BuildTag): (r: string)
    ensures |r| == 8 + |t.branch| + |t.number|
    ensures r[..|Prefix|] == Prefix
  {
    Prefix + t.branch + "-" + t.number
  }

  /** The index of the last `c` in `s`, if any. */
  function LastIndexOf(s: string, c: char): (r: Option<nat>)
    ensures r.None? <==> c !in s
    ensures r.Some? ==> r.value < |s| && s[r.value] == c && c !in s[r.value + 1..]
  {
    if s == [] then None
    else if s[|s| - 1] == c then Some(|s| - 1)
    else
      var r := LastIndexOf(s[..|s| - 1], c);
      assert forall i :: 0 <= i < |s| - 1 ==> s[..|s| - 1][i] == s[i];
      if r.Some? then
        assert s[r.value + 1..] == s[..|s| - 1][r.value + 1..] + [s[|s| - 1]];
        r
      else r
  }

  /**
   * The inverse the source leaves as a stub: branch and number back from a
   * tag name, splitting at the last `-`.
   */
  function ParseTag(tag: string): Option<(string, nat)> {
    if |tag| < |Prefix| || tag[..|Prefix|] != Prefix then None
    else
      match LastIndexOf(tag, '-')
      case None => None
      case Some(k) =>
        if k < |Prefix| || !IsNumeric(tag[k + 1..]) then None
        else Some((tag[|Prefix|..k], Value(tag[k + 1..])))
  }

  /** The number of a rendered tag is what follows the last `-`, all digits. */
  lemma TagSuffix(branch: string, number: nat)
    ensures var r := RenderTag(Make(branch, number));
      && LastIndexOf(r, '-') == Some(|r| - |Decimal(number)| - 1)
      && r[|r| - |Decimal(number)|..] == Decimal(number)
  {
    var d := Decimal(number);
    var r := RenderTag(Make(branch, number));
    var k := |r| - |d| - 1;
    assert r == (Prefix + branch + "-") + d;
    assert r[k] == '-';
    assert r[k + 1..] == d;
    LastIndexOfIs(r, '-', k);
  }

  /** An occurrence with none after it is the last one. */
  lemma LastIndexOfIs(s: string, c: char, k: nat)
    requires k < |s| && s[k] == c && c !in s[k + 1..]
    ensures LastIndexOf(s, c) == Some(k)
  {
    var j := LastIndexOf(s, c).value;
    assert s[j] == c;
  }

  /** Branch and number can be recovered from a tag with a non-negative number. */
  lemma ParseRenderTag(branch: string, number: nat)
    ensures ParseTag(RenderTag(Make(branch, number))) == Some((branch, number))
  {
    TagSuffix(branch, number);
    var r := RenderTag(Make(branch, number));
    var d := Decimal(number);
    var k := |r| - |d| - 1;
    assert r == Prefix + branch + "-" + d;
    assert r[..|Prefix|] == Prefix;
    assert r[|Prefix|..k] == branch;
  }
}
