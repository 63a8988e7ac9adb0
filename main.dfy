/**
 * `Main.java`'s `run`: the older, tag-based numbering. Build numbers are
 * read from the tags whose name contains `xbuild`; a run without arguments
 * builds `remote/branch` as the next number and tags it
 * `xbuild-<number>-<branch>`, a run with a number rebuilds that tag.
 */
module Main {
  import opened Wrappers
  import opened Digits
  import opened Tokens
  import opened Cli

  datatype Error = NoRemote | NoSuchElement | NoDiff | BadXbuildNumber | UnresolvedRevision(revision: string)

  /** What `resolve(revision + "^{commit}")` finds: the abbreviation and the commit time, as opaque text. */
  datatype CommitInfo = CommitInfo(abbrev: string, commitTime: string)

  /** The outcome of a run: the build number, the revision built, its environment and the steps taken. */
  datatype Build = Build(number: int, revision: string, env: map<string, string>, steps: seq<Step>)

  /** `search(regex, input)` with `[0-9]+`: the matcher's finds, one per loop round. */
  method Search(input: string) returns (list: seq<string>)
    ensures list == NumericTokens(Runs(input))
  {
    var tokens := Scan(input);
    list := [];
    for i := 0 to |tokens|
      invariant list == NumericTokens(tokens[..i])
    {
      assert tokens[..i + 1][..i] == tokens[..i];
      if IsNumeric(tokens[i]) {
        list := list + [tokens[i]];
      }
    }
    assert tokens[..|tokens|] == tokens;
  }

  /** The first digit run of `s`, the one `search(...).iterator().next()` returns. */
  function FirstDigitRun(s: string): (r: Option<string>)
    ensures r.None? <==> NoDigits(s)
    ensures r.Some? ==> exists i :: IsFirstNumeric(Runs(s), i) && Runs(s)[i] == r.value
  {
    var ns := NumericTokens(Runs(s));
    NoDigitRuns(s);
    if ns == [] then None
    else
      FirstNumericPosition(Runs(s));
      NumericTokensAt(Runs(s), 0);
      Some(ns[0])
  }

  /** `ts[i]` is all digits and no token before it is. */
  predicate IsFirstNumeric(ts: seq<string>, i: int) {
    0 <= i < |ts| && IsNumeric(ts[i]) && forall j :: 0 <= j < i ==> !IsNumeric(ts[j])
  }

  lemma FirstNumericPosition(ts: seq<string>)
    requires NumericPositions(ts) != []
    ensures IsFirstNumeric(ts, NumericPositions(ts)[0])
  {
    var p := NumericPositions(ts);
    forall j | 0 <= j < p[0] ensures !IsNumeric(ts[j]) {
      NumericPositionsFirst(ts, j);
    }
  }

  /** A string has a digit run exactly when it has a digit. */
  lemma NoDigitRuns(s: string)
    ensures NumericTokens(Runs(s)) == [] <==> NoDigits(s)
  {
    var ts := Runs(s);
    RunsWellFormed(s);
    ConcatRuns(s);
    if NumericTokens(ts) == [] {
      forall i | 0 <= i < |ts| ensures NoDigits(ts[i]) {
        if IsNumeric(ts[i]) {
          NumericPositionsComplete(ts, i);
        }
      }
      ConcatNoDigits(ts);
    } else {
      var p := NumericPositions(ts)[0];
      ConcatHasDigit(ts, p);
    }
  }

  lemma {:induction false} ConcatNoDigits(ts: seq<string>)
    requires forall i :: 0 <= i < |ts| ==> NoDigits(ts[i])
    ensures NoDigits(Concat(ts))
  {
    if ts != [] {
      ConcatNoDigits(ts[1..]);
    }
  }

  lemma {:induction false} ConcatHasDigit(ts: seq<string>, p: nat)
    requires p < |ts| && IsNumeric(ts[p])
    ensures !NoDigits(Concat(ts))
  {
    if p == 0 {
      assert Concat(ts)[0] == ts[0][0];
    } else {
      ConcatHasDigit(ts[1..], p - 1);
      var c := Concat(ts[1..]);
      var i :| 0 <= i < |c| && IsDigit(c[i]);
      assert Concat(ts)[|ts[0]| + i] == c[i];
    }
  }

  predicate OccursAt(s: string, sub: string, i: int) {
    0 <= i <= |s| - |sub| && s[i..i + |sub|] == sub
  }

  /** `s.contains(sub)` */
  predicate Contains(s: string, sub: string) {
    exists i :: 0 <= i <= |s| - |sub| && OccursAt(s, sub, i)
  }

  /**
   * The number a tag ref contributes: none unless its name contains
   * `xbuild`; then its first digit run, read as a number.
   */
  function TagNumber(ref: string): Option<nat> {
    if Contains(ref, "xbuild") && !NoDigits(ref) then Some(Value(FirstDigitRun(ref).value)) else None
  }

  /** An `xbuild` ref without any digit: `iterator().next()` throws on the empty match list. */
  predicate Numberless(ref: string) {
    Contains(ref, "xbuild") && NoDigits(ref)
  }

  /** The tag map after the loop over `refs`, or the error that ended it. */
  function TagNumbers(refs: seq<string>): Result<map<nat, string>, Error> {
    if refs == [] then Ok(map[])
    else
      var ref := refs[|refs| - 1];
      match TagNumbers(refs[..|refs| - 1])
      case Err(e) => Err(e)
      case Ok(tags) =>
        if Numberless(ref) then Err(NoSuchElement)
        else
          match TagNumber(ref)
          case None => Ok(tags)
          case Some(n) => Ok(tags[n := ref])
  }

  /** The tag loop of `Main.run`: fill `allTags` from the tag refs, in order. */
  method CollectTags(refs: seq<string>) returns (r: Result<map<nat, string>, Error>)
    ensures r == TagNumbers(refs)
  {
    var allTags: map<nat, string> := map[];
    for i := 0 to |refs|
      invariant TagNumbers(refs[..i]) == Ok(allTags)
    {
      assert refs[..i + 1][..i] == refs[..i];
      var ref := refs[i];
      assert refs[..i + 1] == refs[..i] + [ref];
      if Contains(ref, "xbuild") {
        var found := Search(ref);
        NoDigitRuns(ref);
        if found == [] {
          assert TagNumbers(refs[..i + 1]) == Err(NoSuchElement);
          TagNumbersStops(refs, i + 1);
          return Err(NoSuchElement);
        }
        assert TagNumber(ref) == Some(Value(found[0]));
        allTags := allTags[Value(found[0]) := ref];
      } else {
        assert TagNumber(ref) == None;
      }
    }
    assert refs[..|refs|] == refs;
    return Ok(allTags);
  }

  /** No numeric token comes before the first numeric position. */
  lemma NumericPositionsFirst(ts: seq<string>, j: nat)
    requires j < |ts|
    ensures IsNumeric(ts[j]) ==> NumericPositions(ts) != [] && NumericPositions(ts)[0] <= j
  {
    if IsNumeric(ts[j]) {
      NumericPositionsComplete(ts, j);
      var p := NumericPositions(ts);
      var l :| 0 <= l < |p| && p[l] == j;
      assert p[0] <= p[l];
    }
  }

  /** Once the loop has thrown, later refs do not matter. */
  lemma {:induction false} TagNumbersStops(refs: seq<string>, k: nat)
    requires k <= |refs| && TagNumbers(refs[..k]).Err?
    ensures TagNumbers(refs) == TagNumbers(refs[..k])
    decreases |refs| - k
  {
    if k < |refs| {
      assert refs[..k + 1][..k] == refs[..k];
      TagNumbersStops(refs, k + 1);
    } else {
      assert refs[..k] == refs;
    }
  }

  /** The loop throws exactly when some `xbuild` ref has no digit. */
  lemma {:induction false} TagNumbersFails(refs: seq<string>)
    ensures TagNumbers(refs).Err? <==> exists i :: 0 <= i < |refs| && Numberless(refs[i])
    ensures TagNumbers(refs).Err? ==> TagNumbers(refs).error == NoSuchElement
  {
    if refs != [] {
      var init := refs[..|refs| - 1];
      TagNumbersFails(init);
      assert forall i :: 0 <= i < |init| ==> init[i] == refs[i];
    }
  }

  /** The map's keys are exactly the numbers the refs carry. */
  lemma {:induction false} TagNumbersKeys(refs: seq<string>, n: nat)
    requires TagNumbers(refs).Ok?
    ensures n in TagNumbers(refs).value <==> exists i :: 0 <= i < |refs| && TagNumber(refs[i]) == Some(n)
  {
    if refs != [] {
      var init := refs[..|refs| - 1];
      TagNumbersKeys(init, n);
      assert forall i :: 0 <= i < |init| ==> init[i] == refs[i];
    }
  }

  /** `refs[i]` carries `n` and no later ref does. */
  predicate IsLastTagged(refs: seq<string>, i: int, n: nat) {
    0 <= i < |refs| && TagNumber(refs[i]) == Some(n) &&
    forall j :: i < j < |refs| ==> TagNumber(refs[j]) != Some(n)
  }

  /** A number maps to the last ref carrying it: later refs overwrite earlier ones. */
  lemma {:induction false} TagNumbersLast(refs: seq<string>, n: nat)
    requires TagNumbers(refs).Ok? && n in TagNumbers(refs).value
    ensures exists i :: IsLastTagged(refs, i, n) && TagNumbers(refs).value[n] == refs[i]
  {
    var init, last := refs[..|refs| - 1], refs[|refs| - 1];
    if TagNumber(last) == Some(n) {
      assert IsLastTagged(refs, |refs| - 1, n);
    } else {
      TagNumbersLast(init, n);
      var i :| IsLastTagged(init, i, n) && TagNumbers(init).value[n] == init[i];
      assert init[i] == refs[i];
      LastTaggedExtend(refs, i, n);
    }
  }

  /** A ref not carrying `n` appended after the last one that does keeps it the last. */
  lemma LastTaggedExtend(refs: seq<string>, i: int, n: nat)
    requires |refs| > 0 && IsLastTagged(refs[..|refs| - 1], i, n)
    requires TagNumber(refs[|refs| - 1]) != Some(n)
    ensures IsLastTagged(refs, i, n)
  {
    var init := refs[..|refs| - 1];
    assert init[i] == refs[i];
    forall j | i < j < |refs|
      ensures TagNumber(refs[j]) != Some(n)
    {
      if j < |init| {
        assert init[j] == refs[j];
      }
    }
  }

  /** The largest key of a non-empty set. */
  ghost function MaxKey(keys: set<nat>): (m: nat)
    requires keys != {}
    ensures m in keys && forall k :: k in keys ==> k <= m
  {
    var k :| k in keys;
    if keys == {k} then
      assert forall j :: j in keys ==> j == k;
      k
    else
      var rest := MaxKey(keys - {k});
      assert forall j :: j in keys ==> j == k || j in keys - {k};
      if k < rest then rest else k
  }

  /** The latest build number: the largest tag number, or 0 without `xbuild` tags. */
  ghost function Latest(tags: map<nat, string>): (latest: nat)
    ensures tags == map[] ==> latest == 0
    ensures tags != map[] ==> latest in tags && forall k :: k in tags ==> k <= latest
  {
    if tags.Keys == {} then 0 else MaxKey(tags.Keys)
  }

  /** `Iterables.getLast(allTags.keySet())` on the sorted map: its largest key. */
  method LatestNumber(tags: map<nat, string>) returns (number: nat)
    requires tags != map[]
    ensures number == Latest(tags)
  {
    number := 0;
    var keys := tags.Keys;
    ghost var visited: set<nat> := {};
    while keys != {}
      invariant keys + visited == tags.Keys && keys !! visited
      invariant forall k :: k in visited ==> k <= number
      invariant visited != {} ==> number in tags
      invariant visited == {} ==> number == 0
      decreases keys
    {
      var k :| k in keys;
      if k > number {
        number := k;
      }
      keys := keys - {k};
      visited := visited + {k};
    }
    assert visited == tags.Keys;
    assert number in tags && Latest(tags) in tags;
    assert number <= Latest(tags) && Latest(tags) <= number;
  }

  /**
   * Number and revision after the argument loop: "bad xbuild number" when
   * an all-digit argument names no tag, else the last such argument's tag,
   * else what the loop started from.
   */
  function ResolveTags(tags: map<nat, string>, args: seq<string>, number: int, revision: string)
    : Result<(int, string), Error>
  {
    if exists i :: 0 <= i < |args| && IsNumeric(args[i]) && Value(args[i]) !in tags then Err(BadXbuildNumber)
    else
      match LastNumeric(args)
      case None => Ok((number, revision))
      case Some(a) => Ok((Value(a), tags[Value(a)]))
  }

  /** The argument loop of `Main.run`: each all-digit argument picks its tag's number and ref. */
  method ResolveArgs(tags: map<nat, string>, args: seq<string>, number0: int, revision0: string)
    returns (r: Result<(int, string), Error>)
    ensures r == ResolveTags(tags, args, number0, revision0)
  {
    var number, revision := number0, revision0;
    for i := 0 to |args|
      invariant forall j :: 0 <= j < i && IsNumeric(args[j]) ==> Value(args[j]) in tags
      invariant LastNumeric(args[..i]).None? ==> number == number0 && revision == revision0
      invariant LastNumeric(args[..i]).Some? ==>
        number == Value(LastNumeric(args[..i]).value) && number in tags && revision == tags[number]
    {
      LastNumericStep(args, i);
      if IsNumeric(args[i]) {
        number := Value(args[i]);
        if number !in tags {
          return Err(BadXbuildNumber);
        }
        revision := tags[number];
      }
    }
    assert args[..|args|] == args;
    return Ok((number, revision));
  }

  /**
   * The environment of a tag-numbered build: five keys, the number as
   * decimal text that reads back as the number, and no `XBUILD_DATETIME`.
   */
  function Env(branch: string, info: CommitInfo, number: int): (env: map<string, string>)
    ensures env.Keys == {"XBUILD", "XBUILD_BRANCH", "XBUILD_NUMBER", "XBUILD_COMMIT", "XBUILD_COMMITTIME"}
    ensures "XBUILD_DATETIME" !in env
    ensures env["XBUILD"] == "1" && env["XBUILD_BRANCH"] == branch
    ensures env["XBUILD_COMMIT"] == info.abbrev && env["XBUILD_COMMITTIME"] == info.commitTime
    ensures ParseInt(env["XBUILD_NUMBER"]) == Some(number)
  {
    ParseIntString(number);
    map[
      "XBUILD" := "1", "XBUILD_BRANCH" := branch, "XBUILD_NUMBER" := IntString(number),
      "XBUILD_COMMIT" := info.abbrev, "XBUILD_COMMITTIME" := info.commitTime]
  }

  /** The environment block of `Main.run`: the variables put one by one. */
  method Environment(branch: string, info: CommitInfo, number: int) returns (env: map<string, string>)
    ensures env == Env(branch, info, number)
  {
    env := map[];
    env := env["XBUILD" := "1"];
    env := env["XBUILD_BRANCH" := branch];
    env := env["XBUILD_NUMBER" := IntString(number)];
    env := env["XBUILD_COMMIT" := info.abbrev];
    env := env["XBUILD_COMMITTIME" := info.commitTime];
  }

  /** The deploy loop of `Main.run`: `./arg` for every argument that exists, file or not. */
  method DeployScripts(fs: FileSystem, args: seq<string>) returns (steps: seq<Step>)
    ensures steps == Deploys(fs, args, Exists)
  {
    steps := [];
    for i := 0 to |args|
      invariant steps == Deploys(fs, args[..i], Exists)
    {
      assert args[..i + 1][..i] == args[..i];
      if args[i] in fs {
        steps := steps + [Run("./" + args[i])];
      }
    }
    assert args[..|args|] == args;
  }

  /** The tag name `Main.run` formats: `xbuild-<number>-<branch>`, number first. */
  function TagName(number: int, branch: string): string {
    "xbuild-" + IntString(number) + "-" + branch
  }

  /**
   * What `git tag` points a new tag at when no object id is given: the local
   * `HEAD`, not the `remote/branch` revision that was built.
   */
  const Head := "HEAD"

  /** The ref `git tag` creates for a tag name, which is what gets pushed. */
  function TagRef(name: string): string {
    "refs/tags/" + name
  }

  /**
   * The number before the argument loop. With no arguments it is the next
   * number, gated by the last tag, then by the revision's tree resolving,
   * then by a non-empty diff.
   */
  ghost function Start(tags: map<nat, string>, resolve: map<string, CommitInfo>, diff: (string, string) -> nat,
                       args: seq<string>, revision: string): Result<int, Error>
  {
    if args != [] then Ok(Latest(tags))
    else if tags == map[] then Err(NoSuchElement)
    else if revision !in resolve then Err(UnresolvedRevision(revision))
    else if diff(tags[Latest(tags)], revision) == 0 then Err(NoDiff)
    else Ok(Latest(tags) + 1)
  }

  /** The build script, then the tag and its push on the no-argument path, then the deploy scripts. */
  function Steps(fs: FileSystem, args: seq<string>, remote: string, tag: string): seq<Step> {
    BuildScript(fs) + (if args == [] then [Tag(tag, Head), Push(remote, TagRef(tag))] else []) + Deploys(fs, args, Exists)
  }

  /**
   * The whole of `run` with the repository as data: the first remote name,
   * the checked-out branch, the tag refs in the order the ref database lists
   * them, what `resolve` finds for a revision, and the number of entries
   * `git diff` reports between two trees.
   */
  ghost function Planned(remotes: seq<string>, branch: string, refs: seq<string>, resolve: map<string, CommitInfo>,
                         diff: (string, string) -> nat, args: Args, fs: FileSystem): Result<Build, Error>
  {
    if remotes == [] then Err(NoRemote)
    else
      var remote := remotes[0];
      var revision := remote + "/" + branch;
      match TagNumbers(refs)
      case Err(e) => Err(e)
      case Ok(tags) =>
        match Start(tags, resolve, diff, args.nonOptionArgs, revision)
        case Err(e) => Err(e)
        case Ok(start) =>
          match ResolveTags(tags, args.nonOptionArgs, start, revision)
          case Err(e) => Err(e)
          case Ok((number, rev)) =>
            if rev !in resolve then Err(UnresolvedRevision(rev))
            else
              Ok(Build(number, rev, Env(branch, resolve[rev], number),
                       Steps(fs, args.nonOptionArgs, remote, TagName(number, branch))))
  }

  /** `run(args)`, archive extraction, git writes and process starts aside. */
  method RunBuild(remotes: seq<string>, branch: string, refs: seq<string>, resolve: map<string, CommitInfo>,
                  diff: (string, string) -> nat, args: Args, fs: FileSystem) returns (r: Result<Build, Error>)
    ensures r == Planned(remotes, branch, refs, resolve, diff, args, fs)
  {
    if remotes == [] {
      return Err(NoRemote);
    }
    var remote := remotes[0];
    var number := 0;
    var revision := remote + "/" + branch;
    var collected := CollectTags(refs);
    if collected.Err? {
      return Err(collected.error);
    }
    var allTags := collected.value;
    if |allTags| > 0 {
      number := LatestNumber(allTags);
    }
    assert number == Latest(allTags);
    var nonOptionArgs := args.nonOptionArgs;
    if |nonOptionArgs| == 0 {
      var latest := number;
      number := number + 1;
      if |allTags| == 0 {
        assert Start(allTags, resolve, diff, nonOptionArgs, revision) == Err(NoSuchElement);
        return Err(NoSuchElement);
      }
      var lastTag := allTags[latest];
      if revision !in resolve {
        assert Start(allTags, resolve, diff, nonOptionArgs, revision) == Err(UnresolvedRevision(revision));
        return Err(UnresolvedRevision(revision));
      }
      if diff(lastTag, revision) == 0 {
        assert Start(allTags, resolve, diff, nonOptionArgs, revision) == Err(NoDiff);
        return Err(NoDiff);
      }
    }
    assert Start(allTags, resolve, diff, nonOptionArgs, revision) == Ok(number);
    var resolved := ResolveArgs(allTags, nonOptionArgs, number, revision);
    if resolved.Err? {
      return Err(resolved.error);
    }
    var (n, rev) := resolved.value;
    number, revision := n, rev;
    if revision !in resolve {
      return Err(UnresolvedRevision(revision));
    }
    var env := Environment(branch, resolve[revision], number);
    var tagging: seq<Step> := [];
    if |nonOptionArgs| == 0 {
      var tag := TagName(number, branch);
      tagging := [Tag(tag, Head), Push(remote, TagRef(tag))];
    }
    var deploys := DeployScripts(fs, nonOptionArgs);
    var steps := BuildScript(fs) + tagging + deploys;
    assert steps == Steps(fs, nonOptionArgs, remote, TagName(number, branch));
    return Ok(Build(number, revision, env, steps));
  }

  /** Text without digits, then a digit run, then something starting with a non-digit. */
  lemma RunsTextNumber(p: string, d: string, rest: string)
    requires |p| > 0 && NoDigits(p) && IsNumeric(d) && (rest == [] || !IsDigit(rest[0]))
    ensures Runs(p + d + rest) == [p, d] + Runs(rest)
  {
    assert !IsDigit(p[0]) && IsDigit(d[0]);
    RunsCons2(p, d, rest);
  }

  /** ... and its first digit run is that digit run. */
  lemma FirstDigitRunAfterText(p: string, d: string, rest: string)
    requires |p| > 0 && NoDigits(p) && IsNumeric(d) && (rest == [] || !IsDigit(rest[0]))
    ensures FirstDigitRun(p + d + rest) == Some(d)
  {
    RunsTextNumber(p, d, rest);
    NumericTokensAppend([p, d], Runs(rest));
    assert [p, d][..1] == [p] && [p][..0] == [];
    assert !IsNumeric(p) by { assert !IsDigit(p[0]); }
    assert NumericTokens([p, d]) == [d];
  }

  /**
   * The tag a run pushes is read back as its number: its ref contains
   * `xbuild` and its first digit run is the number, whatever the branch.
   */
  lemma TagReadBack(number: nat, branch: string)
    ensures TagNumber(TagRef(TagName(number, branch))) == Some(number)
  {
    var p, d, rest := "refs/tags/xbuild-", Decimal(number), "-" + branch;
    var s := TagRef(TagName(number, branch));
    TagRefParts(number, branch);
    assert s == p + d + rest;
    assert FirstDigitRun(s) == Some(d) by {
      assert NoDigits(p);
      FirstDigitRunAfterText(p, d, rest);
    }
    assert Contains(s, "xbuild") by {
      ContainsXbuild(d, rest);
    }
    assert !NoDigits(s) by {
      assert s[|p|] == d[0];
    }
  }

  /** A pushed tag's ref: the fixed text, the number's digits, then `-` and the branch. */
  lemma TagRefParts(number: nat, branch: string)
    ensures TagRef(TagName(number, branch)) == "refs/tags/xbuild-" + Decimal(number) + ("-" + branch)
  {
  }

  lemma ContainsXbuild(d: string, rest: string)
    ensures Contains("refs/tags/xbuild-" + d + rest, "xbuild")
  {
    var s := "refs/tags/xbuild-" + d + rest;
    assert s[10..16] == "xbuild";
    assert OccursAt(s, "xbuild", 10);
  }

  /**
   * The next run sees the tag this one pushed: appended to the refs, it maps
   * the new number to the new ref, and that number is then the latest.
   */
  lemma NextTagIsLatest(refs: seq<string>, branch: string)
    requires TagNumbers(refs).Ok?
    ensures var tags := TagNumbers(refs).value;
      var n := Latest(tags) + 1;
      var ref := TagRef(TagName(n, branch));
      && TagNumbers(refs + [ref]) == Ok(tags[n := ref])
      && Latest(tags[n := ref]) == n
  {
    var tags := TagNumbers(refs).value;
    var n := Latest(tags) + 1;
    var ref := TagRef(TagName(n, branch));
    TagReadBack(n, branch);
    TagNumbersAppend(refs, ref, n);
    LatestAbove(tags, n, ref);
  }

  /** One more ref carrying a number adds that number. */
  lemma TagNumbersAppend(refs: seq<string>, ref: string, n: nat)
    requires TagNumbers(refs).Ok? && TagNumber(ref) == Some(n)
    ensures TagNumbers(refs + [ref]) == Ok(TagNumbers(refs).value[n := ref])
  {
    assert (refs + [ref])[..|refs|] == refs;
    assert !Numberless(ref);
  }

  /** A key above every key is the new maximum. */
  lemma LatestAbove(tags: map<nat, string>, n: nat, ref: string)
    requires n > Latest(tags)
    ensures Latest(tags[n := ref]) == n
  {
    var next := tags[n := ref];
    assert n in next;
    assert Latest(next) in next;
    assert Latest(next) <= n;
  }

  /**
   * Without arguments: no `xbuild` tag fails at `getLast`, a `remote/branch`
   * whose tree does not resolve fails before the diff, an empty diff fails
   * with "no diff", and otherwise `remote/branch` is built exactly when
   * it resolves, as the latest number plus one, and `HEAD` is tagged with a
   * tag that carries that number.
   */
  lemma PlannedNoArgs(remotes: seq<string>, branch: string, refs: seq<string>, resolve: map<string, CommitInfo>,
                      diff: (string, string) -> nat, args: Args, fs: FileSystem)
    requires remotes != [] && args.nonOptionArgs == [] && TagNumbers(refs).Ok?
    ensures var tags, r, revision := TagNumbers(refs).value, Planned(remotes, branch, refs, resolve, diff, args, fs),
                                     remotes[0] + "/" + branch;
      && (tags == map[] ==> r == Err(NoSuchElement))
      && (tags != map[] && revision !in resolve ==> r == Err(UnresolvedRevision(revision)))
      && (tags != map[] && revision in resolve && diff(tags[Latest(tags)], revision) == 0 ==> r == Err(NoDiff))
      && (tags != map[] && diff(tags[Latest(tags)], revision) != 0 ==> (r.Ok? <==> revision in resolve))
      && (r.Ok? ==> r.value.number == Latest(tags) + 1 && r.value.revision == revision)
      && (r.Ok? ==> var tag := TagName(r.value.number, branch);
            r.value.steps == BuildScript(fs) + [Tag(tag, Head), Push(remotes[0], TagRef(tag))] &&
            TagNumber(TagRef(tag)) == Some(r.value.number))
  {
    var r := Planned(remotes, branch, refs, resolve, diff, args, fs);
    if r.Ok? {
      TagReadBack(r.value.number, branch);
    }
  }

  /**
   * With arguments nothing is tagged or pushed, only scripts run; without an
   * all-digit argument `remote/branch` is built under the latest number, not
   * the next one.
   */
  lemma PlannedWithArgs(remotes: seq<string>, branch: string, refs: seq<string>, resolve: map<string, CommitInfo>,
                        diff: (string, string) -> nat, args: Args, fs: FileSystem)
    requires remotes != [] && args.nonOptionArgs != [] && TagNumbers(refs).Ok?
    ensures var r := Planned(remotes, branch, refs, resolve, diff, args, fs);
      r.Ok? ==> forall step :: step in r.value.steps ==> step.Run?
    ensures var a, r := args.nonOptionArgs, Planned(remotes, branch, refs, resolve, diff, args, fs);
      (forall i :: 0 <= i < |a| ==> !IsNumeric(a[i])) ==>
        && (r.Ok? <==> remotes[0] + "/" + branch in resolve)
        && (r.Ok? ==> r.value.number == Latest(TagNumbers(refs).value) && r.value.revision == remotes[0] + "/" + branch)
  {
    var r := Planned(remotes, branch, refs, resolve, diff, args, fs);
    DeploysRun(fs, args.nonOptionArgs, Exists);
    if r.Ok? {
      forall step | step in r.value.steps ensures step.Run? {
        assert step in BuildScript(fs) || step in Deploys(fs, args.nonOptionArgs, Exists);
      }
    }
  }

  /**
   * "bad xbuild number": the run fails exactly when an all-digit argument
   * names no tag; otherwise the last one sets the number and builds its tag.
   */
  lemma PlannedNumericArgs(remotes: seq<string>, branch: string, refs: seq<string>, resolve: map<string, CommitInfo>,
                           diff: (string, string) -> nat, args: Args, fs: FileSystem, i: int)
    requires remotes != [] && TagNumbers(refs).Ok? && IsLastNumeric(args.nonOptionArgs, i)
    ensures var a, tags, r := args.nonOptionArgs, TagNumbers(refs).value,
                              Planned(remotes, branch, refs, resolve, diff, args, fs);
      && (r == Err(BadXbuildNumber) <==> exists j :: 0 <= j < |a| && IsNumeric(a[j]) && Value(a[j]) !in tags)
      && (r.Ok? ==> r.value.number == Value(a[i]) && r.value.revision == tags[Value(a[i])])
  {
    LastNumericIs(args.nonOptionArgs, i);
  }
}
