/**
 * `MainTwo.java`: build numbers counted along the first-parent chain of the
 * remote-tracking branch. The tip is build N (the chain's length), its root
 * build 1; build n is the commit with n commits in its first-parent history,
 * as `git rev-list --count --first-parent` would report.
 */
module MainTwo {
  import opened Wrappers
  import opened Digits
  import opened Git
  import opened Cli

  datatype Error = NoRemote | UnresolvedRef(ref: string) | BadCommitNumber

  /** Where the repository comes from: a fresh clone, or a local directory found from `--git-dir`. */
  datatype Source = Clone(uri: string) | Local(gitDir: Option<string>)

  /** The outcome of a run: the build number, the commit built, its environment and the steps taken. */
  datatype Build = Build(number: int, commit: CommitId, env: map<string, string>, steps: seq<Step>)

  /** `gitDir(args)`: the first `--git-dir` value, if any. */
  function GitDir(args: Args): (dir: Option<string>)
    ensures dir.Some? <==> "git-dir" in args.options && args.options["git-dir"] != []
    ensures dir.Some? ==> dir.value == args.options["git-dir"][0]
  {
    if "git-dir" in args.options && args.options["git-dir"] != [] then Some(args.options["git-dir"][0])
    else None
  }

  /**
   * `createGit(args)`: any argument with an `@` makes it a clone, and the
   * clone's URI is the first argument, whichever one held the `@`.
   */
  method CreateGit(args: Args) returns (source: Source)
    ensures source.Clone? <==> exists i :: 0 <= i < |args.nonOptionArgs| && '@' in args.nonOptionArgs[i]
    ensures source.Clone? ==> source.uri == args.nonOptionArgs[0]
    ensures source.Local? ==> source.gitDir == GitDir(args)
  {
    var nonOptionArgs := args.nonOptionArgs;
    for i := 0 to |nonOptionArgs|
      invariant forall j :: 0 <= j < i ==> '@' !in nonOptionArgs[j]
    {
      if '@' in nonOptionArgs[i] {
        return Clone(nonOptionArgs[0]);
      }
    }
    return Local(GitDir(args));
  }

  /** A sequence as the map from each position to its element. */
  function Indexed(s: seq<CommitId>): (m: map<int, CommitId>)
    ensures |m| == |s|
    ensures forall k :: k in m <==> 0 <= k < |s|
    ensures forall k :: 0 <= k < |s| ==> m[k] == s[k]
  {
    if s == [] then map[]
    else
      var n := |s| - 1;
      var init := Indexed(s[..n]);
      assert n !in init;
      init[n := s[n]]
  }

  /** One iteration of the walk: store the commit at `count`, then follow its first parent, if any. */
  lemma WalkStep(repo: Repo, tip: CommitId, count: nat)
    requires FirstParentsClosed(repo) && tip in repo
    requires count < |FirstParentChain(repo, tip)|
    ensures var chain := FirstParentChain(repo, tip);
      && Indexed(chain[..count])[count := chain[count]] == Indexed(chain[..count + 1])
      && (repo[chain[count]].parents == [] <==> count + 1 == |chain|)
      && (count + 1 < |chain| ==> repo[chain[count]].parents[0] == chain[count + 1])
  {
    ChainStep(repo, tip, count);
    IndexedStep(FirstParentChain(repo, tip), count);
  }

  lemma IndexedStep(s: seq<CommitId>, n: nat)
    requires n < |s|
    ensures Indexed(s[..n])[n := s[n]] == Indexed(s[..n + 1])
  {
    assert s[..n + 1][..n] == s[..n];
  }

  /** The `RevWalk` loop: chain position `count` stored under key `count`, tip at 0. */
  method Walk(repo: Repo, tip: CommitId) returns (commits: map<int, CommitId>)
    requires FirstParentsClosed(repo) && tip in repo
    ensures commits == Indexed(FirstParentChain(repo, tip))
  {
    ghost var chain := FirstParentChain(repo, tip);
    commits := map[];
    var count := 0;
    var head: Option<CommitId> := Some(tip);
    while head.Some?
      invariant 0 <= count <= |chain|
      invariant head.Some? ==> count < |chain| && head.value == chain[count]
      invariant head.None? ==> count == |chain|
      invariant commits == Indexed(chain[..count])
      decreases |chain| - count
    {
      WalkStep(repo, tip, count);
      commits := commits[count := head.value];
      count := count + 1;
      var parents := repo[head.value].parents;
      if parents != [] {
        head := Some(parents[0]);
      } else {
        head := None;
      }
    }
    assert chain[..count] == chain;
  }

  /** The commit build `n` names: `commits.get(N - n)`, present exactly for `1 <= n <= N`. */
  function Numbered(chain: seq<CommitId>, n: int): (commit: Option<CommitId>)
    ensures commit.Some? <==> 1 <= n <= |chain|
  {
    if 1 <= n <= |chain| then Some(chain[|chain| - n]) else None
  }

  /**
   * Number and commit after the argument loop: "bad commit number" when an
   * all-digit argument names no build, else the last such argument's build,
   * else the tip as build N.
   */
  function Resolve(chain: seq<CommitId>, args: seq<string>): Result<(int, CommitId), Error>
    requires |chain| > 0
  {
    if exists i :: 0 <= i < |args| && IsNumeric(args[i]) && Numbered(chain, Value(args[i])).None? then
      Err(BadCommitNumber)
    else
      match LastNumeric(args)
      case None => Ok((|chain|, chain[0]))
      case Some(a) => Ok((Value(a), Numbered(chain, Value(a)).value))
  }

  /** `MainTwo.run`'s default number and commit, then its `[0-9]+` argument loop. */
  method ResolveNumber(commits: map<int, CommitId>, ghost chain: seq<CommitId>, args: seq<string>)
    returns (r: Result<(int, CommitId), Error>)
    requires |chain| > 0 && commits == Indexed(chain)
    ensures r == Resolve(chain, args)
  {
    // the tree map's first key is 0
    var number := |commits| - 0;
    var commit := commits[|commits| - number];
    assert args[..0] == [];
    for i := 0 to |args|
      invariant ResolveLoop(chain, args[..i]) == Ok((number, commit))
    {
      assert args[..i + 1][..i] == args[..i];
      if IsNumeric(args[i]) {
        number := Value(args[i]);
        IndexedNumbered(commits, chain, number);
        if |commits| - number !in commits {
          ResolveLoopIs(chain, args[..i + 1]);
          ResolveStops(chain, args, i + 1);
          return Err(BadCommitNumber);
        }
        commit := commits[|commits| - number];
      }
    }
    assert args[..|args|] == args;
    ResolveLoopIs(chain, args);
    return Ok((number, commit));
  }

  /**
   * The argument loop round by round: a non-numeric argument changes
   * nothing, a numeric one names a build or stops the loop.
   */
  function ResolveLoop(chain: seq<CommitId>, args: seq<string>): Result<(int, CommitId), Error>
    requires |chain| > 0
  {
    if args == [] then Ok((|chain|, chain[0]))
    else
      match ResolveLoop(chain, args[..|args| - 1])
      case Err(e) => Err(e)
      case Ok(previous) =>
        var arg := args[|args| - 1];
        if !IsNumeric(arg) then Ok(previous)
        else if Numbered(chain, Value(arg)).None? then Err(BadCommitNumber)
        else Ok((Value(arg), Numbered(chain, Value(arg)).value))
  }

  /** The loop computes exactly what `Resolve` states. */
  lemma {:induction false} ResolveLoopIs(chain: seq<CommitId>, args: seq<string>)
    requires |chain| > 0
    ensures ResolveLoop(chain, args) == Resolve(chain, args)
  {
    if args == [] {
      assert LastNumeric(args).None?;
    } else {
      var n := |args| - 1;
      ResolveLoopIs(chain, args[..n]);
      assert args[..n + 1] == args;
      if Resolve(chain, args[..n]).Ok? {
        ResolveStep(chain, args, n);
      } else {
        ResolveStops(chain, args, n);
      }
    }
  }

  /** `commits.get(N - n)` is build `n`, and null exactly where there is none. */
  lemma IndexedNumbered(commits: map<int, CommitId>, chain: seq<CommitId>, n: int)
    requires commits == Indexed(chain)
    ensures |commits| - n in commits <==> Numbered(chain, n).Some?
    ensures |commits| - n in commits ==> commits[|commits| - n] == Numbered(chain, n).value
  {
  }

  /** One more round of the argument loop, from a prefix that resolved. */
  lemma ResolveStep(chain: seq<CommitId>, args: seq<string>, i: nat)
    requires |chain| > 0 && i < |args| && Resolve(chain, args[..i]).Ok?
    ensures Resolve(chain, args[..i + 1]) ==
      if !IsNumeric(args[i]) then Resolve(chain, args[..i])
      else if Numbered(chain, Value(args[i])).None? then Err(BadCommitNumber)
      else Ok((Value(args[i]), Numbered(chain, Value(args[i])).value))
  {
    LastNumericStep(args, i);
    var a, b := args[..i], args[..i + 1];
    assert forall j :: 0 <= j < i ==> b[j] == a[j];
    assert b[i] == args[i];
  }

  /** Once an argument names no build, the whole loop fails. */
  lemma ResolveStops(chain: seq<CommitId>, args: seq<string>, k: nat)
    requires |chain| > 0 && k <= |args| && Resolve(chain, args[..k]).Err?
    ensures Resolve(chain, args) == Err(BadCommitNumber)
  {
    var a := args[..k];
    var j :| 0 <= j < |a| && IsNumeric(a[j]) && Numbered(chain, Value(a[j])).None?;
    assert a[j] == args[j];
  }

  /** The environment block of `MainTwo.run`: the six `XBUILD_*` variables, put one by one. */
  method Environment(branch: string, info: Commit, number: int) returns (env: map<string, string>)
    ensures env == Env(branch, info, number)
  {
    env := map[];
    env := env["XBUILD" := "1"];
    env := env["XBUILD_BRANCH" := branch];
    env := env["XBUILD_COMMIT" := info.abbrev];
    env := env["XBUILD_COMMITTIME" := info.commitTime];
    env := env["XBUILD_DATETIME" := info.commitTime];
    env := env["XBUILD_NUMBER" := IntString(number)];
  }

  /** The deploy loop of `MainTwo.run`: `./arg` for every argument that exists and is a regular file. */
  method DeployScripts(fs: FileSystem, args: seq<string>) returns (steps: seq<Step>)
    ensures steps == Deploys(fs, args, IsRegularFile)
  {
    steps := [];
    for i := 0 to |args|
      invariant steps == Deploys(fs, args[..i], IsRegularFile)
    {
      assert args[..i + 1][..i] == args[..i];
      if args[i] in fs {
        if fs[args[i]] == RegularFile {
          steps := steps + [Run("./" + args[i])];
        }
      }
    }
    assert args[..|args|] == args;
  }

  /**
   * The environment a build of `info` as number `number` runs with: exactly
   * six keys, `XBUILD_DATETIME` a legacy copy of `XBUILD_COMMITTIME`, and the
   * number as decimal text that reads back as the number.
   */
  function Env(branch: string, info: Commit, number: int): (env: map<string, string>)
    ensures env.Keys == {"XBUILD", "XBUILD_BRANCH", "XBUILD_COMMIT", "XBUILD_COMMITTIME", "XBUILD_DATETIME", "XBUILD_NUMBER"}
    ensures env["XBUILD"] == "1"
    ensures env["XBUILD_BRANCH"] == branch && env["XBUILD_COMMIT"] == info.abbrev
    ensures env["XBUILD_COMMITTIME"] == info.commitTime && env["XBUILD_DATETIME"] == env["XBUILD_COMMITTIME"]
    ensures ParseInt(env["XBUILD_NUMBER"]) == Some(number)
  {
    ParseIntString(number);
    map[
      "XBUILD" := "1", "XBUILD_BRANCH" := branch, "XBUILD_COMMIT" := info.abbrev,
      "XBUILD_COMMITTIME" := info.commitTime, "XBUILD_DATETIME" := info.commitTime,
      "XBUILD_NUMBER" := IntString(number)]
  }

  /** `refs/remotes/<remote>/<branch>`, the ref the walk starts from. */
  function RemoteRef(remote: string, branch: string): string {
    "refs/remotes/" + remote + "/" + branch
  }

  /**
   * The whole of `run` with the repository as data: the first remote name
   * (`getRemoteNames().iterator().next()`), the checked-out branch and the
   * refs that `findRef` resolves.
   */
  function Planned(repo: Repo, remotes: seq<string>, branch: string, refs: map<string, CommitId>,
                   args: Args, fs: FileSystem): Result<Build, Error>
    requires FirstParentsClosed(repo) && forall r :: r in refs ==> refs[r] in repo
  {
    if remotes == [] then Err(NoRemote)
    else
      var revision := RemoteRef(remotes[0], branch);
      if revision !in refs then Err(UnresolvedRef(revision))
      else
        var chain := FirstParentChain(repo, refs[revision]);
        match Resolve(chain, args.nonOptionArgs)
        case Err(e) => Err(e)
        case Ok((number, commit)) =>
          Ok(Build(number, commit, Env(branch, repo[commit], number),
                   BuildScript(fs) + Deploys(fs, args.nonOptionArgs, IsRegularFile)))
  }

  /** `run(args)`, archive extraction and process starts aside. */
  method RunBuild(repo: Repo, remotes: seq<string>, branch: string, refs: map<string, CommitId>,
                  args: Args, fs: FileSystem) returns (r: Result<Build, Error>)
    requires FirstParentsClosed(repo) && forall r :: r in refs ==> refs[r] in repo
    ensures r == Planned(repo, remotes, branch, refs, args, fs)
  {
    if remotes == [] {
      return Err(NoRemote);
    }
    var remote := remotes[0];
    var revision := RemoteRef(remote, branch);
    if revision !in refs {
      return Err(UnresolvedRef(revision));
    }
    ghost var chain := FirstParentChain(repo, refs[revision]);
    var commits := Walk(repo, refs[revision]);
    var resolved := ResolveNumber(commits, chain, args.nonOptionArgs);
    if resolved.Err? {
      return Err(resolved.error);
    }
    var number, commit := resolved.value.0, resolved.value.1;
    PlannedOk(repo, remotes, branch, refs, args, fs, number, commit);
    var env := Environment(branch, repo[commit], number);
    var steps := BuildScript(fs);
    var deploys := DeployScripts(fs, args.nonOptionArgs);
    steps := steps + deploys;
    return Ok(Build(number, commit, env, steps));
  }

  /** A resolved number and commit are built with their environment and scripts. */
  lemma PlannedOk(repo: Repo, remotes: seq<string>, branch: string, refs: map<string, CommitId>,
                  args: Args, fs: FileSystem, number: int, commit: CommitId)
    requires FirstParentsClosed(repo) && forall r :: r in refs ==> refs[r] in repo
    requires remotes != [] && RemoteRef(remotes[0], branch) in refs
    requires Resolve(FirstParentChain(repo, refs[RemoteRef(remotes[0], branch)]), args.nonOptionArgs) == Ok((number, commit))
    ensures commit in repo
    ensures Planned(repo, remotes, branch, refs, args, fs) ==
      Ok(Build(number, commit, Env(branch, repo[commit], number),
               BuildScript(fs) + Deploys(fs, args.nonOptionArgs, IsRegularFile)))
  {
  }

  /**
   * Build `n` is the commit whose own first-parent history has exactly `n`
   * commits: the count `git rev-list --count --first-parent` gives.
   */
  lemma NumberedHistory(repo: Repo, tip: CommitId, n: int)
    requires FirstParentsClosed(repo) && tip in repo
    requires 1 <= n <= |FirstParentChain(repo, tip)|
    ensures var chain := FirstParentChain(repo, tip);
      |FirstParentChain(repo, Numbered(chain, n).value)| == n
  {
    var chain := FirstParentChain(repo, tip);
    ChainSuffix(repo, tip, |chain| - n);
  }

  /** Build N is the tip and build 1 the root of the first-parent chain. */
  lemma NumberedEnds(repo: Repo, tip: CommitId)
    requires FirstParentsClosed(repo) && tip in repo
    ensures var chain := FirstParentChain(repo, tip);
      && Numbered(chain, |chain|) == Some(tip)
      && Numbered(chain, 1).Some? && repo[Numbered(chain, 1).value].parents == []
  {
  }

  /** On a chain without repeats, different valid numbers name different commits. */
  lemma NumberedDistinct(chain: seq<CommitId>, m: int, n: int)
    requires forall j, k :: 0 <= j < k < |chain| ==> chain[j] != chain[k]
    requires 1 <= m < n <= |chain|
    ensures Numbered(chain, m) != Numbered(chain, n)
  {
    var j, k := |chain| - n, |chain| - m;
    assert chain[j] != chain[k];
  }

  /** Different valid numbers name different commits of a branch. */
  lemma NumberedInjective(repo: Repo, tip: CommitId, m: int, n: int)
    requires FirstParentsClosed(repo) && tip in repo
    requires 1 <= m < n <= |FirstParentChain(repo, tip)|
    ensures Numbered(FirstParentChain(repo, tip), m) != Numbered(FirstParentChain(repo, tip), n)
  {
    ChainDistinct(repo, tip);
    NumberedDistinct(FirstParentChain(repo, tip), m, n);
  }

  /**
   * A successful run builds the commit whose first-parent history counts
   * its number, and that commit is on the branch's first-parent chain.
   */
  lemma PlannedNumberCounts(repo: Repo, remotes: seq<string>, branch: string, refs: map<string, CommitId>,
                            args: Args, fs: FileSystem)
    requires FirstParentsClosed(repo) && forall r :: r in refs ==> refs[r] in repo
    requires Planned(repo, remotes, branch, refs, args, fs).Ok?
    ensures var b := Planned(repo, remotes, branch, refs, args, fs).value;
      var tip := refs[RemoteRef(remotes[0], branch)];
      && b.commit in FirstParentChain(repo, tip)
      && |FirstParentChain(repo, b.commit)| == b.number
  {
    var tip := refs[RemoteRef(remotes[0], branch)];
    var chain := FirstParentChain(repo, tip);
    var b := Planned(repo, remotes, branch, refs, args, fs).value;
    assert b.commit == Numbered(chain, b.number).value;
    NumberedHistory(repo, tip, b.number);
  }

  /** Without an all-digit argument the tip is built, as number N. */
  lemma PlannedDefault(repo: Repo, remotes: seq<string>, branch: string, refs: map<string, CommitId>,
                       args: Args, fs: FileSystem)
    requires FirstParentsClosed(repo) && forall r :: r in refs ==> refs[r] in repo
    requires remotes != [] && RemoteRef(remotes[0], branch) in refs
    requires forall i :: 0 <= i < |args.nonOptionArgs| ==> !IsNumeric(args.nonOptionArgs[i])
    ensures var tip := refs[RemoteRef(remotes[0], branch)];
      Planned(repo, remotes, branch, refs, args, fs).Ok?
      && Planned(repo, remotes, branch, refs, args, fs).value.number == |FirstParentChain(repo, tip)|
      && Planned(repo, remotes, branch, refs, args, fs).value.commit == tip
  {
    assert LastNumeric(args.nonOptionArgs).None?;
  }

  /**
   * "bad commit number": resolution fails exactly when some all-digit
   * argument lies outside 1..N; otherwise the last one decides number and
   * commit.
   */
  lemma ResolveNumericArgs(chain: seq<CommitId>, args: seq<string>, i: int)
    requires |chain| > 0 && IsLastNumeric(args, i)
    ensures Resolve(chain, args) == Err(BadCommitNumber) <==>
      exists j :: 0 <= j < |args| && IsNumeric(args[j]) && !(1 <= Value(args[j]) <= |chain|)
    ensures Resolve(chain, args).Ok? ==>
      Resolve(chain, args).value == (Value(args[i]), chain[|chain| - Value(args[i])])
  {
    LastNumericIs(args, i);
  }

  /** The run's number and commit are what resolution gives along the branch's chain. */
  lemma PlannedResolves(repo: Repo, remotes: seq<string>, branch: string, refs: map<string, CommitId>,
                        args: Args, fs: FileSystem)
    requires FirstParentsClosed(repo) && forall r :: r in refs ==> refs[r] in repo
    requires remotes != [] && RemoteRef(remotes[0], branch) in refs
    ensures var r, chain := Planned(repo, remotes, branch, refs, args, fs),
                            FirstParentChain(repo, refs[RemoteRef(remotes[0], branch)]);
      && (r.Err? <==> Resolve(chain, args.nonOptionArgs).Err?)
      && (r.Err? ==> r.error == BadCommitNumber)
      && (r.Ok? ==> (r.value.number, r.value.commit) == Resolve(chain, args.nonOptionArgs).value)
  {
  }

  /**
   * Script order: at most one build script, `xbuildfile` before `.xbuild`,
   * then exactly the arguments that are regular files, in argument order.
   */
  lemma PlannedSteps(repo: Repo, remotes: seq<string>, branch: string, refs: map<string, CommitId>,
                     args: Args, fs: FileSystem, step: Step)
    requires FirstParentsClosed(repo) && forall r :: r in refs ==> refs[r] in repo
    requires Planned(repo, remotes, branch, refs, args, fs).Ok?
    ensures var steps, k := Planned(repo, remotes, branch, refs, args, fs).value.steps, |BuildScript(fs)|;
      && k <= 1 && k <= |steps|
      && steps[..k] == BuildScript(fs)
      && (step in steps[k..] <==>
          exists i :: 0 <= i < |args.nonOptionArgs| && Passes(fs, args.nonOptionArgs[i], IsRegularFile) &&
                      step == Run("./" + args.nonOptionArgs[i]))
  {
    var steps := Planned(repo, remotes, branch, refs, args, fs).value.steps;
    var k := |BuildScript(fs)|;
    assert steps[k..] == Deploys(fs, args.nonOptionArgs, IsRegularFile);
    DeploysHas(fs, args.nonOptionArgs, IsRegularFile, step);
  }
}
