/**
 * The part of a git repository the build numbering reads: commits with their
 * parent lists, the 7-character abbreviation and the commit time (both kept
 * as opaque text), and the first-parent walk from a branch tip.
 */
module Git {
  type CommitId = string

  /**
   * `generation` is git's commit-graph generation number: larger than that of
   * every parent. It is what makes the first-parent walk finite.
   */
  datatype Commit = Commit(parents: seq<CommitId>, generation: nat, abbrev: string, commitTime: string)

  type Repo = map<CommitId, Commit>

  /** Every first parent is itself in the repository, one generation or more down. */
  predicate FirstParentsClosed(repo: Repo) {
    forall id :: id in repo && repo[id].parents != [] ==>
      repo[id].parents[0] in repo && repo[repo[id].parents[0]].generation < repo[id].generation
  }

  /** `parent` is `child`'s first parent. */
  predicate FirstParentOf(repo: Repo, child: CommitId, parent: CommitId) {
    child in repo && repo[child].parents != [] && repo[child].parents[0] == parent
  }

  /** `git rev-list --first-parent tip`: the tip, its first parent, and so on down to a root. */
  function FirstParentChain(repo: Repo, tip: CommitId): (chain: seq<CommitId>)
    requires FirstParentsClosed(repo) && tip in repo
    ensures |chain| >= 1 && chain[0] == tip
    ensures forall k :: 0 <= k < |chain| ==> chain[k] in repo
    ensures forall k :: 0 <= k < |chain| - 1 ==> FirstParentOf(repo, chain[k], chain[k + 1])
    ensures repo[chain[|chain| - 1]].parents == []
    decreases repo[tip].generation
  {
    var parents := repo[tip].parents;
    if parents == [] then [tip] else [tip] + FirstParentChain(repo, parents[0])
  }

  /** One step of the walk: a commit on the chain has a first parent exactly when it is not the last. */
  lemma ChainStep(repo: Repo, tip: CommitId, k: nat)
    requires FirstParentsClosed(repo) && tip in repo
    requires k < |FirstParentChain(repo, tip)|
    ensures var chain := FirstParentChain(repo, tip);
      && (repo[chain[k]].parents == [] <==> k == |chain| - 1)
      && (k < |chain| - 1 ==> repo[chain[k]].parents[0] == chain[k + 1])
  {
    var chain := FirstParentChain(repo, tip);
    if k < |chain| - 1 {
      assert FirstParentOf(repo, chain[k], chain[k + 1]);
    }
  }

  /** The chain from any commit on it is the rest of the chain. */
  lemma {:induction false} ChainSuffix(repo: Repo, tip: CommitId, k: nat)
    requires FirstParentsClosed(repo) && tip in repo
    requires k < |FirstParentChain(repo, tip)|
    ensures var chain := FirstParentChain(repo, tip);
      FirstParentChain(repo, chain[k]) == chain[k..]
    decreases k
  {
    var chain := FirstParentChain(repo, tip);
    if k > 0 {
      var parent := repo[tip].parents[0];
      var rest := FirstParentChain(repo, parent);
      assert chain == [tip] + rest;
      ChainSuffix(repo, parent, k - 1);
      assert chain[k] == rest[k - 1];
      assert chain[k..] == rest[k - 1..];
    }
  }

  /** Generations fall strictly along the chain. */
  lemma {:induction false} ChainGenerations(repo: Repo, tip: CommitId, j: nat, k: nat)
    requires FirstParentsClosed(repo) && tip in repo
    requires j < k < |FirstParentChain(repo, tip)|
    ensures var chain := FirstParentChain(repo, tip);
      repo[chain[k]].generation < repo[chain[j]].generation
    decreases k - j
  {
    var chain := FirstParentChain(repo, tip);
    assert repo[chain[j + 1]].generation < repo[chain[j]].generation;
    if j + 1 < k {
      ChainGenerations(repo, tip, j + 1, k);
    }
  }

  /** No commit appears twice on a first-parent chain. */
  lemma ChainDistinct(repo: Repo, tip: CommitId)
    requires FirstParentsClosed(repo) && tip in repo
    ensures var chain := FirstParentChain(repo, tip);
      forall j, k :: 0 <= j < k < |chain| ==> chain[j] != chain[k]
  {
    var chain := FirstParentChain(repo, tip);
    forall j, k | 0 <= j < k < |chain| ensures chain[j] != chain[k] {
      ChainGenerations(repo, tip, j, k);
    }
  }
}
