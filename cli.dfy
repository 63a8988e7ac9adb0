/**
 * What both entry points read besides the repository: the parsed command
 * line, the files next to the working directory, and the steps they take
 * (scripts to run, a tag to create and push).
 */
module Cli {
  import opened Wrappers
  import opened Digits

  /** `ApplicationArguments`: `--name=value` options and the remaining arguments, in order. */
  datatype Args = Args(options: map<string, seq<string>>, nonOptionArgs: seq<string>)

  datatype Kind = RegularFile | Directory

  /** The entries `new File(path)` finds, relative to the working directory. */
  type FileSystem = map<string, Kind>

  /** Which `File` test an argument must pass to be run as a deploy script. */
  datatype Check = Exists | IsRegularFile

  predicate Passes(fs: FileSystem, path: string, check: Check) {
    path in fs && (check == IsRegularFile ==> fs[path] == RegularFile)
  }

  /**
   * What the run does besides computing: a script started in the extracted
   * tree with the `XBUILD_*` environment, a tag created on `target`, a ref
   * pushed.
   */
  datatype Step = Run(command: string) | Tag(name: string, target: string) | Push(remote: string, refSpec: string)

  /** `xbuildfile` if present, else the legacy `.xbuild`, else nothing. */
  function BuildScript(fs: FileSystem): (steps: seq<Step>)
    ensures |steps| <= 1
    ensures |steps| == 1 <==> "xbuildfile" in fs || ".xbuild" in fs
    ensures |steps| == 1 ==> steps[0] == Run(if "xbuildfile" in fs then "./xbuildfile" else "./.xbuild")
  {
    if "xbuildfile" in fs then [Run("./xbuildfile")]
    else if ".xbuild" in fs then [Run("./.xbuild")]
    else []
  }

  /** The deploy scripts: `./arg` for each argument passing the check, in argument order. */
  function Deploys(fs: FileSystem, args: seq<string>, check: Check): seq<Step> {
    if args == [] then []
    else
      var init := args[..|args| - 1];
      var last := args[|args| - 1];
      Deploys(fs, init, check) + (if Passes(fs, last, check) then [Run("./" + last)] else [])
  }

  /** A deploy step is run exactly for the arguments that pass the check. */
  lemma {:induction false} DeploysHas(fs: FileSystem, args: seq<string>, check: Check, step: Step)
    ensures step in Deploys(fs, args, check) <==>
      exists i :: 0 <= i < |args| && Passes(fs, args[i], check) && step == Run("./" + args[i])
  {
    if args != [] {
      var init := args[..|args| - 1];
      DeploysHas(fs, init, check, step);
      assert forall i :: 0 <= i < |init| ==> init[i] == args[i];
      if exists i :: 0 <= i < |args| && Passes(fs, args[i], check) && step == Run("./" + args[i]) {
        var i :| 0 <= i < |args| && Passes(fs, args[i], check) && step == Run("./" + args[i]);
        if i < |init| {
          assert init[i] == args[i];
        }
      }
    }
  }

  /** Arguments are run in their order: the steps of a prefix come first. */
  lemma {:induction false} DeploysPrefix(fs: FileSystem, args: seq<string>, check: Check, k: nat)
    requires k <= |args|
    ensures Deploys(fs, args[..k], check) <= Deploys(fs, args, check)
    decreases |args| - k
  {
    if k < |args| {
      DeploysPrefix(fs, args, check, k + 1);
      assert args[..k + 1][..k] == args[..k];
    } else {
      assert args[..k] == args;
    }
  }

  /** Every deploy step runs a script. */
  lemma {:induction false} DeploysRun(fs: FileSystem, args: seq<string>, check: Check)
    ensures forall step :: step in Deploys(fs, args, check) ==> step.Run?
  {
    forall step | step in Deploys(fs, args, check) ensures step.Run? {
      DeploysHas(fs, args, check, step);
    }
  }

  /** `args[i]` is all digits and no later argument is. */
  predicate IsLastNumeric(args: seq<string>, i: int) {
    0 <= i < |args| && IsNumeric(args[i]) && forall j :: i < j < |args| ==> !IsNumeric(args[j])
  }

  /** The last all-digit argument, the one a `[0-9]+` loop leaves its variables at. */
  function LastNumeric(args: seq<string>): (r: Option<string>)
    ensures r.None? <==> forall i :: 0 <= i < |args| ==> !IsNumeric(args[i])
    ensures r.Some? ==> exists i :: IsLastNumeric(args, i) && args[i] == r.value
  {
    if args == [] then None
    else if IsNumeric(args[|args| - 1]) then Some(args[|args| - 1])
    else
      var init := args[..|args| - 1];
      var r := LastNumeric(init);
      assert forall i :: 0 <= i < |init| ==> init[i] == args[i];
      if r.Some? then
        var i :| IsLastNumeric(init, i) && init[i] == r.value;
        assert IsLastNumeric(args, i);
        r
      else r
  }

  /** One more round of the argument loop. */
  lemma LastNumericStep(args: seq<string>, i: nat)
    requires i < |args|
    ensures LastNumeric(args[..i + 1]) == if IsNumeric(args[i]) then Some(args[i]) else LastNumeric(args[..i])
  {
    assert args[..i + 1][..i] == args[..i];
  }

  /** There is only one last all-digit argument, and `LastNumeric` finds it. */
  lemma {:induction false} LastNumericIs(args: seq<string>, i: int)
    requires IsLastNumeric(args, i)
    ensures LastNumeric(args) == Some(args[i])
  {
    var n := |args| - 1;
    if i < n {
      assert !IsNumeric(args[n]);
      var init := args[..n];
      assert init[i] == args[i];
      assert forall j :: i < j < |init| ==> init[j] == args[j];
      LastNumericIs(init, i);
    }
  }
}
