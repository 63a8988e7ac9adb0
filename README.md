# xbuild, modelled in Dafny

xbuild is a small build runner that works from a git checkout. It works out
a **build number** for the commit it is going to build. It then builds that
commit's environment (`XBUILD`, `XBUILD_BRANCH`, `XBUILD_NUMBER`,
`XBUILD_COMMIT`, `XBUILD_COMMITTIME`, and in the newer entry point also
`XBUILD_DATETIME`), runs `xbuildfile` (or the legacy `.xbuild`), and runs any
deploy scripts named on the command line. It has two entry points:

- `MainTwo.run` numbers builds along the **first-parent chain** of
  `refs/remotes/<remote>/<branch>`. The tip is build N and the root commit is
  build 1. A numeric argument picks build `n`, which must lie in `1..N`.
- `Main.run` is the older, **tag-based** scheme. The number is read from the
  first digit run of every tag ref whose name contains `xbuild`. A run without
  arguments builds `remote/branch` as the latest number plus one, provided the
  tree differs from the last tag. It then creates and pushes the tag
  `xbuild-<number>-<branch>`. A numeric argument rebuilds the tag it names.

Four small utilities sit around the entry points:

- `Version.java` splits a version string into its maximal digit and
  non-digit runs and bumps the major, minor or patch run in place.
- `HumanComparator.java` is a natural-order string comparator, so "file2"
  sorts before "file10".
- `BuildTag.java` renders tag names.
- `Posix.perms` decodes a numeric file mode into a permission set.

The project has one module per concern:

| module | file | models |
|---|---|---|
| `Wrappers` | wrappers.dfy | `Option`, `Result` |
| `Digits` | digits.dfy | `[0-9]+`, the value `parseInt`/`BigInteger` read, the text `""+n` writes |
| `Tokens` | tokens.dfy | the matcher loop over `[0-9]+` or `[^0-9]+` runs, shared by `Version`, `HumanComparator` and `search` |
| `Versions` | version.dfy | `Version.java`, as a class whose `list` field the increments rewrite |
| `SemVer` | semver.dfy | the package-private `Version` class inside `Main.java` |
| `HumanComparator` | humancomparator.dfy | `HumanComparator.java` |
| `BuildTag` | buildtag.dfy | `BuildTag.java` |
| `Posix` | posix.dfy | `Posix.perms` |
| `Git` | git.dfy | commits, parents and the first-parent chain |
| `Cli` | cli.dfy | parsed arguments, the files present, the steps a run takes |
| `MainTwo` | maintwo.dfy | `MainTwo.gitDir`, `createGit` and `run` |
| `Main` | main.dfy | `Main.run` and `search` |

The entry points are methods (`MainTwo.RunBuild`, `Main.RunBuild`) with the
source's loops. Each is proved equal to a specification function (`Planned`).
The lemmas then state what the source promises about that function.

JGit is replaced by data:

- the repository is a map from commit id to commit (its parents, a
  generation number, the 7-character abbreviation and the commit time);
- the tag refs are a sequence of names;
- `resolve` is a map from revision to commit information;
- `git diff` is a function giving the number of entries;
- the files next to the working directory are a map to regular file or directory.

Creating a tag, pushing it and starting a script become `Step` values, in
the order the source performs them.

Points where the source's behaviour is easy to misread:

- `MainTwo.java` clones only when some argument contains `@`
  (`MainTwo.java:62`). An argument with a colon and no `@`, such as a
  plain `host:path` location, opens a local repository instead.
- With no `xbuild` tag at all, the tag-based no-argument path fails at
  `Iterables.getLast`. It does not skip the diff check.
- `Main.java` names tags `xbuild-<number>-<branch>`. `BuildTag.java` puts the
  branch first.

## Model

| member | source | states |
|---|---|---|
| Digits.Decimal | src/main/java/xbuild/Version.java:90-92 | the decimal text of `n` is all digits, reads back as `n`, and has no leading zero |
| Digits.ParseIntString | src/main/java/xbuild/MainTwo.java:161 | `Integer.parseInt(""+n) == n` for every integer, negatives included |
| Tokens.Scan | src/main/java/xbuild/Version.java:27-31 | the `while (m.find())` loop yields exactly the maximal runs `Runs(s)` |
| Tokens.RunLengthMaximal | src/main/java/xbuild/Version.java:94 | each run has a single character class, and the character after it has the other class |
| Tokens.RunsWellFormed | src/main/java/xbuild/Version.java:94 | every token is non-empty and of one class, and neighbours alternate between digit and non-digit |
| Tokens.ConcatRuns | src/main/java/xbuild/Version.java:52-53 | joining the runs gives back the input: `render(new Version(s)) == s` |
| Tokens.RunsOfConcat | src/main/java/xbuild/Version.java:52-53 | re-scanning the join of well-formed tokens gives the same tokens, so `new Version(v.render())` has v's list |
| Tokens.RunsStep | src/main/java/xbuild/Version.java:29-30 | one `find()` returns the maximal run at the current position and continues after it |
| Tokens.NumericPositions | src/main/java/xbuild/Version.java:15-25 | the indices of the all-digit tokens, strictly increasing |
| Tokens.NumericPositionsComplete | src/main/java/xbuild/Version.java:19 | no all-digit token is missing from the positions |
| Tokens.NumericPositionsReplace | src/main/java/xbuild/Version.java:64-66 | writing a digit run over a digit run leaves every position where it was |
| Tokens.NumericTokens | src/main/java/xbuild/Main.java:296-302 | the digit runs in order, one for each numeric position |
| Tokens.NumericTokensAt | src/main/java/xbuild/Main.java:296-302 | the j-th digit run found is the token at the j-th numeric position |
| Tokens.NumericTokensAppend | src/main/java/xbuild/Main.java:299-300 | the digit runs of two token lists concatenate |
| Versions.NumericIndex | src/main/java/xbuild/Version.java:15-25 | `semver(k)` is the index of the (k+1)-th all-digit token, and -1 exactly when there are k or fewer |
| Versions.Increment | src/main/java/xbuild/Version.java:90-92 | the result is all digits with value one more than the input |
| Versions.BumpKeepsPositions | src/main/java/xbuild/Version.java:64-77 | bumping or zeroing a run keeps every numeric position |
| Versions.PatchBumpedSpec | src/main/java/xbuild/Version.java:76-79 | only the 3rd numeric run changes, to its value plus one; the length and every other token are kept |
| Versions.MinorBumpedSpec | src/main/java/xbuild/Version.java:70-74 | the 2nd numeric run goes up by one and the 3rd becomes "0"; every other token is kept |
| Versions.MajorBumpedSpec | src/main/java/xbuild/Version.java:63-68 | the 1st numeric run goes up by one and the 2nd and 3rd become "0"; every other token is kept |
| Versions.MinorBumpedIs | src/main/java/xbuild/Version.java:71-72 | the minor bump is the two `list.set` calls, each at its own run |
| Versions.MajorBumpedIs | src/main/java/xbuild/Version.java:64-66 | the major bump is the three `list.set` calls, each at its own run |
| Versions.MajorBumpedPartial | src/main/java/xbuild/Version.java:63-68 | with fewer than three numeric runs, the sets before the failing one have already happened and the rest of the list is untouched |
| Versions.BumpWellFormed | src/main/java/xbuild/Version.java:64-77 | a bump or a zeroing keeps the list in tokeniser shape |
| Versions.MajorBumpedWellFormed | src/main/java/xbuild/Version.java:63-79 | all three increments keep the list in tokeniser shape, so rendering and re-parsing round-trip |
| Versions.Version.constructor | src/main/java/xbuild/Version.java:27-31 | `list` is the maximal runs of the input, well formed, and joining it gives the input |
| Versions.Version.Render | src/main/java/xbuild/Version.java:52-53 | for a well-formed list, re-tokenising the rendered string gives the list back |
| Versions.Version.Semver | src/main/java/xbuild/Version.java:15-25 | the counting loop returns `NumericIndex(list, k)` |
| Versions.Version.IncrementMajor | src/main/java/xbuild/Version.java:63-68 | succeeds iff there are three numeric runs; the new list is `MajorBumped` of the old one |
| Versions.Version.IncrementMinor | src/main/java/xbuild/Version.java:70-74 | succeeds iff there are three numeric runs; the new list is `MinorBumped` of the old one |
| Versions.Version.IncrementPatch | src/main/java/xbuild/Version.java:76-79 | succeeds iff there are three numeric runs; the new list is `PatchBumped` of the old one |
| Versions.Version.Release | src/main/java/xbuild/Version.java:81-84 | succeeds iff there is a 4th numeric run, which is replaced by the argument |
| Versions.Version.Build | src/main/java/xbuild/Version.java:86-88 | returns the same object and changes nothing |
| Versions.PlainRuns | src/main/java/xbuild/Version.java:94 | `a.b.c` with digit runs a, b, c tokenises as `[a, ".", b, ".", c]`, with numbers at 0, 2, 4 |
| Versions.MajorBumpedPlain | src/main/java/xbuild/Version.java:63-68 | the major bump of `a.b.c` is `a+1 . 0 . 0` |
| Versions.MajorBumpExample | src/main/java/xbuild/Version.java:98-100 | "0.9.1" with its major bumped renders as "1.0.0" |
| Versions.IncrementDropsLeadingZeros | src/main/java/xbuild/Version.java:90-92 | `increment("007") == "8"` |
| SemVer.Render | src/main/java/xbuild/Main.java:54-62 | `major.minor.patch`, then `-pre` if present, then `+build` only when pre is present |
| SemVer.IncrementMajor | src/main/java/xbuild/Main.java:64-69 | major goes up by one, minor and patch become "0", pre-release and build are absent |
| SemVer.BuildDroppedWithoutPre | src/main/java/xbuild/Main.java:56-60 | without a pre-release, a build part does not change the rendering |
| SemVer.IncrementMajorAgrees | src/main/java/xbuild/Main.java:64-69 | on a plain `a.b.c`, the run-list `incrementMajor` and this one render the same string |
| HumanComparator.Atoms | src/main/java/xbuild/HumanComparator.java:31-42 | one atom per maximal run of the input |
| HumanComparator.List | src/main/java/xbuild/HumanComparator.java:31-42 | each digit run becomes a number with its value and every other run stays text; only these two kinds exist, so the throw at line 26 cannot be reached |
| HumanComparator.CompareTextZero | src/main/java/xbuild/HumanComparator.java:19 | `String.compareTo` is zero iff the strings are equal |
| HumanComparator.CompareTextAntisymmetric | src/main/java/xbuild/HumanComparator.java:19 | `a.compareTo(b) == -b.compareTo(a)` |
| HumanComparator.CompareTextTransitive | src/main/java/xbuild/HumanComparator.java:19 | `compareTo` is transitive on negatives |
| HumanComparator.CompareAtomsZero | src/main/java/xbuild/HumanComparator.java:16-26 | the element comparator is zero iff the atoms are equal |
| HumanComparator.CompareAtomsAntisymmetric | src/main/java/xbuild/HumanComparator.java:16-26 | swapping the arguments of the element comparator negates it |
| HumanComparator.CompareAtomsTransitive | src/main/java/xbuild/HumanComparator.java:16-26 | the element comparator is transitive on negatives |
| HumanComparator.LexicographicalReflexive | src/main/java/xbuild/HumanComparator.java:13-28 | a list compares equal to itself |
| HumanComparator.LexicographicalAntisymmetric | src/main/java/xbuild/HumanComparator.java:13-28 | swapping the lists negates the result |
| HumanComparator.LexicographicalTransitive | src/main/java/xbuild/HumanComparator.java:13-28 | `<= 0` is transitive |
| HumanComparator.LexicographicalFirstDifference | src/main/java/xbuild/HumanComparator.java:13-28 | the element comparison at the first differing position decides |
| HumanComparator.LexicographicalPrefix | src/main/java/xbuild/HumanComparator.java:13-28 | a proper prefix sorts first, with result -1 |
| HumanComparator.CompareReflexive | src/main/java/xbuild/HumanComparator.java:11-29 | `compare(s, s) == 0` |
| HumanComparator.CompareAntisymmetric | src/main/java/xbuild/HumanComparator.java:11-29 | `compare(a, b) == -compare(b, a)`, so the signs are opposite |
| HumanComparator.CompareTransitive | src/main/java/xbuild/HumanComparator.java:11-29 | `compare(a,b) <= 0` and `compare(b,c) <= 0` give `compare(a,c) <= 0` |
| HumanComparator.NumberBeforeText | src/main/java/xbuild/HumanComparator.java:16-25 | at the first differing run, a number sorts before text |
| HumanComparator.ShorterFirst | src/main/java/xbuild/HumanComparator.java:13-28 | when one string's runs are a proper prefix of the other's, the shorter string sorts first |
| HumanComparator.EmptyFirst | src/main/java/xbuild/HumanComparator.java:13-28 | the empty string sorts below every non-empty string |
| HumanComparator.DigitRunsByValue | src/main/java/xbuild/HumanComparator.java:21-25 | the same text followed by digit runs compares as the runs' values: less, equal or greater |
| HumanComparator.FileExample | src/main/java/xbuild/HumanComparator.java:21-25 | "file2" sorts before "file10" |
| HumanComparator.LeadingZerosExample | src/main/java/xbuild/HumanComparator.java:36-37 | "v01" and "v1" compare equal |
| BuildTag.Make | src/main/java/xbuild/BuildTag.java:11-14 | the branch is kept and the number is decimal text that parses back to the `int` |
| BuildTag.RenderTag | src/main/java/xbuild/BuildTag.java:23-25 | the tag starts with `xbuild-` and is 8 characters longer than branch and number together |
| BuildTag.LastIndexOf | src/main/java/xbuild/BuildTag.java:16-21 | the last occurrence of a character, or none exactly when it does not occur |
| BuildTag.TagSuffix | src/main/java/xbuild/BuildTag.java:23-25 | for a non-negative number, the last `-` of the tag comes just before the number's digits |
| BuildTag.ParseRenderTag | src/main/java/xbuild/BuildTag.java:16-21 | branch and number are recovered from any rendered tag with a non-negative number |
| Posix.Perms | src/main/java/xbuild/Posix.java:39-47 | for `i` in 0..8, `values()[8-i]` is in the result iff bit `i` of the mode is set |
| Posix.PermsUpToHas | src/main/java/xbuild/Posix.java:41-45 | after `n` rounds, a permission is present iff its bit is among the first `n` and set |
| Posix.PermsOfHas | src/main/java/xbuild/Posix.java:39-47 | a permission is in `perms(m)` iff its bit is set |
| Posix.PermsLowBits | src/main/java/xbuild/Posix.java:41-45 | `perms(m) == perms(m & 0777)` |
| Posix.PermsOfZero | src/main/java/xbuild/Posix.java:39-47 | `perms(0)` is empty |
| Posix.PermsOfAll | src/main/java/xbuild/Posix.java:39-47 | `perms(0777)` holds all nine permissions |
| Posix.PermsUpToSize | src/main/java/xbuild/Posix.java:42-43 | after `n` rounds, the set has one element per set bit among the low `n` |
| Posix.PermsUpToFresh | src/main/java/xbuild/Posix.java:42-43 | each round tests a permission that no earlier round could have added |
| Posix.PermsOfSize | src/main/java/xbuild/Posix.java:42-43 | the result's size is the number of set bits among the low nine |
| Posix.PermsMonotone | src/main/java/xbuild/Posix.java:42-43 | more low bits set gives a superset |
| Posix.BitsDetermine | src/main/java/xbuild/Posix.java:42-44 | below `2^n`, a number is fixed by its low `n` bits |
| Posix.PermsInjective | src/main/java/xbuild/Posix.java:39-47 | different modes in 0..0777 give different sets |
| Posix.PermsExample | src/main/java/xbuild/Posix.java:39-47 | 0755 gives owner rwx, group r-x and others r-x |
| Git.FirstParentChain | src/main/java/xbuild/MainTwo.java:109-121 | starts at the tip, each element's first parent is the next, and it ends at a parentless commit |
| Git.ChainStep | src/main/java/xbuild/MainTwo.java:114-119 | a chain commit has parents exactly when it is not the last, and its first parent is the next element |
| Git.ChainSuffix | src/main/java/xbuild/MainTwo.java:109-121 | the chain from any of its commits is the rest of the chain |
| Git.ChainGenerations | src/main/java/xbuild/MainTwo.java:109-121 | generation numbers fall strictly along the chain |
| Git.ChainDistinct | src/main/java/xbuild/MainTwo.java:109-121 | no commit appears twice on a first-parent chain |
| Cli.BuildScript | src/main/java/xbuild/MainTwo.java:185-188 | at most one build script, `./xbuildfile` when that file exists, else `./.xbuild` |
| Cli.DeploysHas | src/main/java/xbuild/MainTwo.java:191-197 | a deploy step is run iff its argument passes the file test |
| Cli.DeploysPrefix | src/main/java/xbuild/Main.java:236-239 | deploy steps follow argument order |
| Cli.DeploysRun | src/main/java/xbuild/Main.java:236-239 | every deploy step runs a script |
| Cli.LastNumeric | src/main/java/xbuild/MainTwo.java:141-146 | none exactly when no argument is all digits; otherwise it is the last all-digit argument |
| Cli.LastNumericIs | src/main/java/xbuild/MainTwo.java:141-146 | the last all-digit argument is unique and it is what the loop ends on |
| Cli.LastNumericStep | src/main/java/xbuild/MainTwo.java:141-146 | one more argument makes it the last all-digit argument when it is all digits, and leaves the answer unchanged otherwise |
| MainTwo.GitDir | src/main/java/xbuild/MainTwo.java:49-56 | the first `--git-dir` value, or none when there is no value |
| MainTwo.CreateGit | src/main/java/xbuild/MainTwo.java:58-84 | clones iff some argument contains `@`, with the first argument as the URI; otherwise opens the `--git-dir` directory |
| MainTwo.Indexed | src/main/java/xbuild/MainTwo.java:105 | a sequence as a map with keys `0..N-1` holding its elements |
| MainTwo.WalkStep | src/main/java/xbuild/MainTwo.java:113-119 | one round stores the commit at `count` and moves to its first parent, stopping at the last commit |
| MainTwo.Walk | src/main/java/xbuild/MainTwo.java:105-121 | `commits` has keys `0..N-1` and holds the first-parent chain, with the tip at key 0 |
| MainTwo.Numbered | src/main/java/xbuild/MainTwo.java:137 | build `n` names a commit exactly when `1 <= n <= N` |
| MainTwo.ResolveNumber | src/main/java/xbuild/MainTwo.java:136-146 | the default and the argument loop give `Resolve(chain, args)` |
| MainTwo.ResolveLoopIs | src/main/java/xbuild/MainTwo.java:136-146 | the loop run argument by argument (the tip as number N to start, a new number and commit per all-digit argument in range, "bad commit number" from the first out of range on) gives exactly `Resolve` |
| MainTwo.ResolveStep | src/main/java/xbuild/MainTwo.java:142-145 | after a successful prefix, one more argument either keeps the result, picks its number and commit, or fails with "bad commit number" |
| MainTwo.ResolveStops | src/main/java/xbuild/MainTwo.java:144 | once a prefix of the arguments fails, the whole argument list fails with "bad commit number" |
| MainTwo.IndexedNumbered | src/main/java/xbuild/MainTwo.java:137 | `commits.get(size - n)` is non-null exactly when build `n` names a commit, and then it is that commit |
| MainTwo.PlannedOk | src/main/java/xbuild/MainTwo.java:136-161 | when resolution gives a number and commit, the commit is in the repository and the run builds exactly that commit under that number |
| MainTwo.Environment | src/main/java/xbuild/MainTwo.java:155-161 | the `put` calls build `Env(branch, commit, number)` |
| MainTwo.Env | src/main/java/xbuild/MainTwo.java:155-161 | exactly six keys; `XBUILD` is "1", `XBUILD_DATETIME` equals `XBUILD_COMMITTIME`, and `XBUILD_NUMBER` parses back to the number |
| MainTwo.DeployScripts | src/main/java/xbuild/MainTwo.java:191-197 | `./arg` for each argument that exists and is a regular file, in order |
| MainTwo.RunBuild | src/main/java/xbuild/MainTwo.java:87-197 | the run's outcome is `Planned`: no remote, unresolved ref, bad commit number, or the build |
| MainTwo.NumberedHistory | src/main/java/xbuild/MainTwo.java:136-137 | build `n` is the commit whose own first-parent history has exactly `n` commits |
| MainTwo.NumberedEnds | src/main/java/xbuild/MainTwo.java:136-137 | build N is the tip and build 1 is a root |
| MainTwo.NumberedDistinct | src/main/java/xbuild/MainTwo.java:137 | on a chain without repeats, different valid numbers name different commits |
| MainTwo.NumberedInjective | src/main/java/xbuild/MainTwo.java:144 | different valid numbers name different commits of the branch |
| MainTwo.PlannedNumberCounts | src/main/java/xbuild/MainTwo.java:136-146 | the built commit is on the branch's chain, and its history length is the build number |
| MainTwo.PlannedDefault | src/main/java/xbuild/MainTwo.java:136-137 | without an all-digit argument, the tip is built as number N |
| MainTwo.ResolveNumericArgs | src/main/java/xbuild/MainTwo.java:141-146 | fails iff some all-digit argument is outside `1..N`; otherwise the last one picks number and commit |
| MainTwo.PlannedResolves | src/main/java/xbuild/MainTwo.java:136-146 | the run fails only with "bad commit number", and otherwise builds what resolution gives |
| MainTwo.PlannedSteps | src/main/java/xbuild/MainTwo.java:185-197 | at most one build script comes first, then exactly the arguments that are regular files |
| Main.Search | src/main/java/xbuild/Main.java:296-302 | `search("[0-9]+", s)` returns the maximal digit runs of `s`, left to right |
| Main.FirstDigitRun | src/main/java/xbuild/Main.java:152 | none exactly when `s` has no digit; otherwise it is the first digit run |
| Main.NoDigitRuns | src/main/java/xbuild/Main.java:152 | the search finds nothing iff the string has no digit |
| Main.CollectTags | src/main/java/xbuild/Main.java:146-155 | the tag loop gives `TagNumbers(refs)`, or the error that ends it |
| Main.TagNumbersStops | src/main/java/xbuild/Main.java:148-155 | once the loop has thrown, later refs do not matter |
| Main.TagNumbersFails | src/main/java/xbuild/Main.java:148-155 | the loop throws `NoSuchElementException` iff some `xbuild` ref has no digit |
| Main.TagNumbersKeys | src/main/java/xbuild/Main.java:148-155 | the keys are exactly the numbers the refs carry |
| Main.TagNumbersLast | src/main/java/xbuild/Main.java:153 | a number maps to the last ref carrying it |
| Main.LastTaggedExtend | src/main/java/xbuild/Main.java:150-153 | appending a ref that does not carry `n` keeps the last ref carrying `n` the last |
| Main.MaxKey | src/main/java/xbuild/Main.java:157 | the largest element of a non-empty set |
| Main.Latest | src/main/java/xbuild/Main.java:141-157 | the largest tag number, or 0 without `xbuild` tags |
| Main.LatestNumber | src/main/java/xbuild/Main.java:156-157 | `getLast(keySet())` of the sorted map is `Latest` |
| Main.ResolveArgs | src/main/java/xbuild/Main.java:178-183 | the argument loop gives `ResolveTags` |
| Main.Env | src/main/java/xbuild/Main.java:190-195 | exactly five keys and no `XBUILD_DATETIME`; `XBUILD_NUMBER` parses back to the number |
| Main.Environment | src/main/java/xbuild/Main.java:190-195 | the `put` calls build `Env(branch, commit, number)` |
| Main.DeployScripts | src/main/java/xbuild/Main.java:236-239 | `./arg` for each argument that exists, file or directory, in order |
| Main.RunBuild | src/main/java/xbuild/Main.java:102-239 | the run's outcome is `Planned`: every error path in the source's order (no remote, a tag ref without digits, no tag, an unresolvable `remote/branch` tree before the diff, no diff, a bad `xbuild` number, an unresolvable commit), or the build with its steps, the tag created on `HEAD` (no object id is set) rather than on the built revision |
| Main.RunsTextNumber | src/main/java/xbuild/Main.java:152 | text, then digits, then a non-digit: the first two runs are the text and the digits |
| Main.FirstDigitRunAfterText | src/main/java/xbuild/Main.java:152 | that digit run is the first one |
| Main.TagReadBack | src/main/java/xbuild/Main.java:225-228 | the ref of the tag a run creates contains `xbuild` and reads back as its number, whatever the branch |
| Main.ContainsXbuild | src/main/java/xbuild/Main.java:150 | a `refs/tags/xbuild-...` name contains `xbuild` |
| Main.NextTagIsLatest | src/main/java/xbuild/Main.java:146-157 | appending the pushed tag after the existing refs maps the new number to it, and that number becomes the latest |
| Main.TagNumbersAppend | src/main/java/xbuild/Main.java:150-153 | one more numbered ref adds its number |
| Main.LatestAbove | src/main/java/xbuild/Main.java:157 | a key above every key is the new latest |
| Main.PlannedNoArgs | src/main/java/xbuild/Main.java:160-230 | no `xbuild` tag fails at `getLast`; a `remote/branch` whose tree does not resolve fails before the diff; a resolving revision with an empty diff fails with "no diff"; with a non-empty diff the run succeeds exactly when `remote/branch` resolves, and then it is built as latest + 1, and `HEAD` is tagged and pushed with a tag that reads back as that number |
| Main.PlannedWithArgs | src/main/java/xbuild/Main.java:178-183 | with arguments only scripts run; with no all-digit one, `remote/branch` is built under the latest number |
| Main.PlannedNumericArgs | src/main/java/xbuild/Main.java:178-183 | fails with "bad xbuild number" iff an all-digit argument names no tag; otherwise the last one sets number and revision |

## Left out

- JGit I/O is replaced by data: repository discovery, `getRemoteNames`,
  `getBranch`, `findRef`, `resolve`, `parseCommit`, `diff`, `archive`, `tag`,
  `push` and `cloneRepository`. The repository is a map of commits, the refs
  are a map or a name sequence, and the diff is an entry-count function. Tag
  and push become `Step` values.
- `getRemoteNames()` is a set whose iteration order the model does not know.
  The first remote is taken as the first element of a sequence.
- The model assumes every ref points into the repository and every first
  parent is present (`FirstParentsClosed`). A repository that breaks this
  makes JGit throw, and that failure is not modelled.
- Commit generation numbers are an added field. They exist only to make the
  first-parent walk finite. The source's walk ends because git histories are
  acyclic.
- `resolve(rev + "^{commit}")` and `"^{tree}"` are keyed by the bare
  revision. A revision that does not resolve fails as `UnresolvedRevision`
  rather than as a `NullPointerException`. On the no-argument path of
  `Main.run` that happens at the `"^{tree}"` lookup of `remote/branch`,
  before the diff. Otherwise it happens at the `"^{commit}"` lookup of the
  revision that is built.
- Main.Planned: the `diff` function is total. A last tag whose tree cannot be
  resolved is not a separate failure.
- Main.Planned: `++number` is on a Java `int`. After a tag numbered
  2147483647 the source wraps to -2147483648 and tags
  `xbuild--2147483648-<branch>`. The model gives 2147483648.
- `untar`, the archive stream and `Files.setPosixFilePermissions` are file
  I/O. Only the `Posix.perms` mapping they use is modelled.
- Process execution is left out: `Posix.run`, `Main.run(Path, ...)` and
  `Exec.java`. So are the exit-code checks. Scripts are `Run` steps, and the
  model stops at the planned step list.
- Logging (`LogHelper`), Spring Boot start-up, `BuildProperties`, the `main`
  methods and `ArchiveFormats.registerAll` are plumbing and are not modelled.
- `Instant.ofEpochSecond(...).toString()` and `abbreviate(7)` are library
  formatting. They are opaque strings carried by each commit.
- The `Version(String)` constructor of the class inside `Main.java` runs a
  SemVer 2.0.0 regex `find`, which is not modelled. `SemVer.Version` holds the
  five groups it would capture.
- Versions.Increment: Java's `int` range is not modelled. A run above
  2147483647 throws `NumberFormatException` in the source, and
  `Integer.MAX_VALUE + 1` wraps. The model counts without bound.
- Main.TagNumber: `Integer.parseInt` of an out-of-range digit run throws in
  the source. The model reads any digit run.
- MainTwo.Resolve: `Integer.parseInt` of an out-of-range argument throws in
  the source. The model reads any all-digit argument.
- Main.ResolveTags: `Integer.parseInt` of an out-of-range argument throws
  in the source. The model reads any all-digit argument.
- Versions.Version.IncrementMajor: the source throws
  `IndexOutOfBoundsException` when a numeric run is missing. The method
  returns `false` instead of throwing, after the same partial update. It
  returns an ok flag rather than `this`, and the same holds for
  `IncrementMinor`, `IncrementPatch` and `Release`.
- Versions.Version.Build: the argument is ignored, as in the source. Chaining
  (`return this`) is stated as `v == this`.
- HumanComparator.CompareText: `String.compareTo` works on UTF-16 code units.
  The model compares Dafny characters by code point, which differs only
  outside the Basic Multilingual Plane.
- BuildTag.ParseTag: the source leaves this inverse as a commented-out stub.
  It exists only in the model, to state that rendering loses nothing.
- BuildTag.java's private `search` is never called and is not modelled
  separately. It is the same loop as `Main.Search`.
- Within one run, a `BuildTag` value never changes: both fields are final, so
  repeated `renderTag()` calls give the same string. The model gets this for
  free, because `RenderTag` is a function of a datatype value.
