/** Worked runs of the resolver on small, concrete histories. */
module Scenarios {
  import opened Results
  import opened Infrastructure
  import RevList
  import ProperBase
  import BranchName
  import Action

  /** A clone where `shaB` exists, `shaA` does not, and the only commit after
      `shaB` is `shaC`, whose subject matches every pattern. */
  function ReleaseRepository(): (repository: Repository) {
    Repository("shaH", "shaP", _ => "shaM", _ => "shaC shaB", (_, _) => true, sha => sha == "shaB")
  }

  /** A history whose successful push runs are `shaA` then `shaB`. */
  function TwoRunHistory(): (runHistory: RunHistory) {
    RunHistory((_, _, _, _) => Returned("wf"), (_, _, _, _) => Returned(["shaA", "shaB"]))
  }

  /** `"shaC shaB"` is one line: `shaC` with the single parent `shaB`. */
  lemma ReleaseLine()
    ensures RevList.Lines("shaC shaB") == ["shaC shaB"]
    ensures RevList.Tokens("shaC shaB") == ["shaC", "shaB"]
  {
    assert "shaC shaB" == "shaC" + " " + "shaB";
    RevList.OneParentLine("shaC", "shaB");
  }

  /** The adjustment moves `shaB` to its release child `shaC`. */
  lemma AdjustmentMovesToReleaseChild()
    ensures ProperBase.ProperBaseCommit(ReleaseRepository(), "shaB", "^chore").value == "shaC"
  {
    ReleaseLine();
    assert RevList.ListsAsParent("shaC shaB", "shaB");
  }

  /** On raw text the scan can name a commit as its own child: the line
      `x x` lists `x` as a parent of `x`. Git never prints such a line, which
      is why the child differs from the parent only under `NoSelfParent`. */
  lemma SelfParentLineNamesItself()
    ensures RevList.EarliestChild("x x", "x") == Some("x")
  {
    assert "x x" == "x" + " " + "x";
    RevList.OneParentLine("x", "x");
    assert RevList.ListsAsParent("x x", "x");
  }

  /** On the main branch the first existing run SHA, `shaB`, is the base as
      it is, although the adjustment would have moved it to `shaC`. */
  lemma MainBranchSkipsAdjustment()
    ensures Action.BaseSha(ReleaseRepository(), TwoRunHistory(), 7, "o", "r", "main", "main", "^chore").value
            == Ok("shaB")
  {
    var found := Action.ExistingCommit(ReleaseRepository(), ["shaA", "shaB"]);
    assert ["shaA", "shaB"][1] == "shaB";
    assert found.value == Some("shaB");
  }

  /** On another branch the fork point `shaM`, which has no child in the
      rev-list text, is the base. */
  lemma FeatureBranchTakesForkPoint()
    ensures Action.BaseSha(ReleaseRepository(), TwoRunHistory(), 7, "o", "r", "main", "feature/x", "^chore").value
            == Ok("shaM")
  {
    ReleaseLine();
    assert !RevList.ListsAsParent("shaC shaB", "shaM");
  }

  /** With no successful run on record the main branch falls back to
      `HEAD~1`, after the two warnings, and does not fail. */
  lemma EmptyHistoryFallsBack(repository: Repository, runHistory: RunHistory, runId: int,
                              owner: string, repo: string, main: string, id: string)
    requires runHistory.workflowIdOfRun(runId, owner, repo, main) == Returned(id)
    requires runHistory.successfulPushShas(id, owner, repo, main) == Returned([])
    ensures var t := Action.BaseSha(repository, runHistory, runId, owner, repo, main, main, "");
      && t.value == Ok(repository.headParent)
      && t.events == [GetRun(runId, owner, repo, main), ListRuns(id, owner, repo, main)]
                     + Action.FallbackWarnings(main) + [RevParseHeadParent]
  {
    assert Action.ExistingCommit(repository, []).events == [];
  }

  /** A ref without the heads prefix fails the run before git or GitHub is
      asked anything, with a message that echoes the ref. */
  lemma MalformedRefFails(repository: Repository, runHistory: RunHistory)
    ensures Action.RunOutcome(repository, runHistory, BranchName.GetCurrentBranchName(Some("not-a-ref")), "main", "", 7, "o", "r")
            == Traced(Action.Failed("Invalid current branch ref format: not-a-ref"), [])
  {
    assert |BranchName.HeadsPrefix| == 11;
    assert !BranchName.IsBranchRef("not-a-ref");
    assert BranchName.InvalidRefMessage + "not-a-ref" == "Invalid current branch ref format: not-a-ref";
  }
}
