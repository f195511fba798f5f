/** The action's entry point and the base resolver (`src/main.ts`): read the
    branch, pick the main-branch or the feature-branch strategy, and either
    write the `base` and `head` outputs or mark the run failed. Each step is
    a function of the oracle answers, returning its result together with the
    events it causes, and a method that asks the oracle and is proved to do
    exactly that. */
module Action {
  import opened Results
  import opened Search
  import opened Infrastructure
  import BranchName
  import ProperBase
  import RevList

  const UnknownErrorMessage: string := "Unknown error"
  const NoSuccessfulRunWarning: string := "WARNING: Unable to find a successful workflow run on 'origin/"
  const DefaultingWarning: string := "We are therefore defaulting to use HEAD~1 on 'origin/"

  /** One existence probe per SHA, in order. */
  function CatFiles(shas: seq<string>): (probes: seq<Event>)
    ensures |probes| == |shas| && forall i :: 0 <= i < |shas| ==> probes[i] == CatFile(shas[i])
  {
    seq(|shas|, i requires 0 <= i < |shas| => CatFile(shas[i]))
  }

  /** The two warnings printed before falling back to `HEAD~1`. */
  function FallbackWarnings(mainBranchName: string): (warnings: seq<Event>)
    ensures |warnings| == 2 && warnings[0].Warning? && warnings[1].Warning?
    ensures warnings[0].message == NoSuccessfulRunWarning + mainBranchName + "'"
    ensures warnings[1].message == DefaultingWarning + mainBranchName + "'"
  {
    [ Warning(NoSuccessfulRunWarning + mainBranchName + "'"),
      Warning(DefaultingWarning + mainBranchName + "'") ]
  }

  /** The events of the run-history lookup: GitHub requests and existence probes. */
  predicate IsLookupEvent(e: Event) {
    e.GetRun? || e.ListRuns? || e.CatFile?
  }

  /** The message of a caught exception: an `Error`'s own message, else
      "Unknown error". */
  function ErrorMessageOf(thrown: Thrown): (message: string)
    ensures thrown.ErrorInstance? ==> message == thrown.message
    ensures thrown.NonErrorValue? ==> message == UnknownErrorMessage
  {
    match thrown
    case ErrorInstance(message) => message
    case NonErrorValue => UnknownErrorMessage
  }

  // ---------------------------------------------------------------- findExistingCommit

  /** The first listed SHA present in the local clone, probing the list in
      order and stopping at the first hit. */
  function ExistingCommit(repository: Repository, shas: seq<string>): (t: Traced<Option<string>>)
    ensures t.value.Some? <==> exists i :: 0 <= i < |shas| && repository.hasObject(shas[i])
    ensures t.value.Some? ==>
              exists i :: && 0 <= i < |shas| && shas[i] == t.value.value && repository.hasObject(shas[i])
                          && forall j :: 0 <= j < i ==> !repository.hasObject(shas[j])
    ensures t.value.Some? ==> t.value.value in shas && repository.hasObject(t.value.value)
    ensures |t.events| <= |shas| && t.events == CatFiles(shas[..|t.events|])
    ensures t.value.Some? ==> |t.events| >= 1 && t.value.value == shas[|t.events| - 1]
    ensures t.value.Some? ==> forall j :: 0 <= j < |t.events| - 1 ==> !repository.hasObject(shas[j])
    ensures t.value.None? ==> |t.events| == |shas|
  {
    var k := FirstIndex(shas, repository.hasObject);
    if k < |shas| then Traced(Some(shas[k]), CatFiles(shas[..k + 1]))
    else
      assert shas[..|shas|] == shas;
      Traced(None, CatFiles(shas))
  }

  /** `findExistingCommit(shas)`. */
  method FindExistingCommit(infra: Infrastructure, shas: seq<string>) returns (found: Option<string>)
    modifies infra`events
    ensures var t := ExistingCommit(infra.repository, shas);
      found == t.value && infra.events == old(infra.events) + t.events
  {
    for i := 0 to |shas|
      invariant infra.events == old(infra.events) + CatFiles(shas[..i])
      invariant forall j :: 0 <= j < i ==> !infra.repository.hasObject(shas[j])
    {
      var present := infra.CommitExists(shas[i]);
      assert CatFiles(shas[..i + 1]) == CatFiles(shas[..i]) + [CatFile(shas[i])];
      if present {
        assert FirstIndex(shas, infra.repository.hasObject) == i;
        return Some(shas[i]);
      }
    }
    assert shas[..|shas|] == shas;
    assert FirstIndex(shas, infra.repository.hasObject) == |shas|;
    found := None;
  }

  // ---------------------------------------------------------------- getWorkflowId

  /** The workflow id: the one given when it is a non-empty string, else the
      one GitHub reports for the run, found with one request. */
  function WorkflowId(runHistory: RunHistory, workflowId: Option<string>, runId: int,
                      owner: string, repo: string, branch: string): (t: Traced<Response<string>>)
    ensures t.events == [] <==> workflowId.Some? && workflowId.value != ""
    ensures t.events == [] ==> t.value == Returned(workflowId.value)
    ensures t.events != [] ==>
              && t.events == [GetRun(runId, owner, repo, branch)]
              && t.value == runHistory.workflowIdOfRun(runId, owner, repo, branch)
  {
    if workflowId.Some? && workflowId.value != "" then Traced(Returned(workflowId.value), [])
    else Traced(runHistory.workflowIdOfRun(runId, owner, repo, branch), [GetRun(runId, owner, repo, branch)])
  }

  /** `getWorkflowId(octokit, workflowId, runId, owner, repo, branch)`. */
  method GetWorkflowId(infra: Infrastructure, workflowId: Option<string>, runId: int,
                       owner: string, repo: string, branch: string) returns (r: Response<string>)
    modifies infra`events
    ensures var t := WorkflowId(infra.runHistory, workflowId, runId, owner, repo, branch);
      r == t.value && infra.events == old(infra.events) + t.events
  {
    if workflowId.Some? && workflowId.value != "" {
      return Returned(workflowId.value);
    }
    r := infra.RequestWorkflowIdOfRun(runId, owner, repo, branch);
  }

  // ---------------------------------------------------------------- findSuccessfulCommit

  /** The first SHA of a successful push run of this workflow on `branch`
      that exists locally; a thrown request is passed on. */
  function SuccessfulCommit(repository: Repository, runHistory: RunHistory, workflowId: Option<string>,
                            runId: int, owner: string, repo: string, branch: string)
    : (t: Traced<Response<Option<string>>>)
    ensures var w := WorkflowId(runHistory, workflowId, runId, owner, repo, branch);
      && w.events <= t.events
      && (w.value.Threw? ==> t == Traced(Threw(w.value.thrown), w.events))
      && (w.value.Returned? ==>
            var listed := runHistory.successfulPushShas(w.value.value, owner, repo, branch);
            && |t.events| > |w.events|
            && t.events[|w.events|] == ListRuns(w.value.value, owner, repo, branch)
            && (listed.Threw? ==>
                  t == Traced(Threw(listed.thrown), w.events + [ListRuns(w.value.value, owner, repo, branch)]))
            && (listed.Returned? ==>
                  var found := ExistingCommit(repository, listed.value);
                  t == Traced(Returned(found.value), w.events + [ListRuns(w.value.value, owner, repo, branch)] + found.events)))
    ensures t.value.Returned? && t.value.value.Some? ==> repository.hasObject(t.value.value.value)
    ensures forall e :: e in t.events ==> IsLookupEvent(e)
  {
    var w := WorkflowId(runHistory, workflowId, runId, owner, repo, branch);
    match w.value
    case Threw(thrown) => Traced(Threw(thrown), w.events)
    case Returned(finalWorkflowId) =>
      var asked := w.events + [ListRuns(finalWorkflowId, owner, repo, branch)];
      match runHistory.successfulPushShas(finalWorkflowId, owner, repo, branch)
      case Threw(thrown) => Traced(Threw(thrown), asked)
      case Returned(shas) =>
        var found := ExistingCommit(repository, shas);
        assert forall e :: e in found.events ==> e.CatFile?;
        Traced(Returned(found.value), asked + found.events)
  }

  /** `findSuccessfulCommit(workflowId, runId, owner, repo, branch)`. */
  method FindSuccessfulCommit(infra: Infrastructure, workflowId: Option<string>, runId: int,
                              owner: string, repo: string, branch: string)
    returns (r: Response<Option<string>>)
    modifies infra`events
    ensures var t := SuccessfulCommit(infra.repository, infra.runHistory, workflowId, runId, owner, repo, branch);
      r == t.value && infra.events == old(infra.events) + t.events
  {
    ghost var before := infra.events;
    var finalWorkflowId := GetWorkflowId(infra, workflowId, runId, owner, repo, branch);
    if finalWorkflowId.Threw? {
      return Threw(finalWorkflowId.thrown);
    }
    ghost var asked := WorkflowId(infra.runHistory, workflowId, runId, owner, repo, branch).events
                       + [ListRuns(finalWorkflowId.value, owner, repo, branch)];
    var runsResult := infra.RequestWorkflowRunCommitShas(finalWorkflowId.value, owner, repo, branch);
    AppendIsAssociative(before, WorkflowId(infra.runHistory, workflowId, runId, owner, repo, branch).events,
                        [ListRuns(finalWorkflowId.value, owner, repo, branch)]);
    if runsResult.Threw? {
      return Threw(runsResult.thrown);
    }
    var found := FindExistingCommit(infra, runsResult.value);
    AppendIsAssociative(before, asked, ExistingCommit(infra.repository, runsResult.value).events);
    r := Returned(found);
  }

  // ---------------------------------------------------------------- findLastSuccessfulCommitSha

  /** The run-history lookup with exceptions turned into error messages. The
      caller passes no workflow id, so the run's metadata is always fetched
      first. */
  function LastSuccessfulCommitSha(repository: Repository, runHistory: RunHistory,
                                   runId: int, owner: string, repo: string, branch: string)
    : (t: Traced<ResultOrError<Option<string>>>)
    ensures var s := SuccessfulCommit(repository, runHistory, None, runId, owner, repo, branch);
      && t.events == s.events
      && (s.value.Returned? ==> t.value == Ok(s.value.value))
      && (s.value.Threw? ==> t.value == Err(ErrorMessageOf(s.value.thrown)))
    ensures |t.events| >= 1 && t.events[0] == GetRun(runId, owner, repo, branch)
    ensures t.value.Ok? && t.value.value.Some? ==> repository.hasObject(t.value.value.value)
    ensures forall e :: e in t.events ==> IsLookupEvent(e)
  {
    var s := SuccessfulCommit(repository, runHistory, None, runId, owner, repo, branch);
    match s.value
    case Returned(sha) => Traced(Ok(sha), s.events)
    case Threw(thrown) => Traced(Err(ErrorMessageOf(thrown)), s.events)
  }

  /** `findLastSuccessfulCommitSha(runId, owner, repo, branch)`. */
  method FindLastSuccessfulCommitSha(infra: Infrastructure, runId: int, owner: string, repo: string, branch: string)
    returns (r: ResultOrError<Option<string>>)
    modifies infra`events
    ensures var t := LastSuccessfulCommitSha(infra.repository, infra.runHistory, runId, owner, repo, branch);
      r == t.value && infra.events == old(infra.events) + t.events
  {
    var sha := FindSuccessfulCommit(infra, None, runId, owner, repo, branch);
    match sha
    case Returned(value) =>
      r := Ok(value);
    case Threw(thrown) =>
      r := Err(ErrorMessageOf(thrown));
  }

  // ---------------------------------------------------------------- findBaseShaForMainBranch

  /** The main-branch strategy: a lookup error is returned as it is; a found
      SHA is returned as it is, without the version-bump adjustment; when
      nothing usable is found, two warnings and `HEAD~1`. */
  function BaseShaForMainBranch(repository: Repository, runHistory: RunHistory,
                                runId: int, owner: string, repo: string, mainBranchName: string)
    : (t: Traced<ResultOrError<string>>)
    ensures var last := LastSuccessfulCommitSha(repository, runHistory, runId, owner, repo, mainBranchName);
      && last.events <= t.events
      && (last.value.Err? ==> t == Traced(Err(last.value.message), last.events))
      && (last.value.Ok? && last.value.value.Some? && last.value.value.value != "" ==>
            t == Traced(Ok(last.value.value.value), last.events))
      && (last.value.Ok? && (last.value.value.None? || last.value.value.value == "") ==>
            t == Traced(Ok(repository.headParent),
                        last.events + FallbackWarnings(mainBranchName) + [RevParseHeadParent]))
    ensures t.value.Err? <==>
              LastSuccessfulCommitSha(repository, runHistory, runId, owner, repo, mainBranchName).value.Err?
    ensures t.value.Ok? ==> t.value.value == repository.headParent || repository.hasObject(t.value.value)
    ensures forall e :: e in t.events ==> !e.MergeBase? && !e.RevList? && !e.LogSubject?
  {
    var last := LastSuccessfulCommitSha(repository, runHistory, runId, owner, repo, mainBranchName);
    match last.value
    case Err(message) => Traced(Err(message), last.events)
    case Ok(sha) =>
      if sha.Some? && sha.value != "" then Traced(Ok(sha.value), last.events)
      else
        var fallback := last.events + FallbackWarnings(mainBranchName) + [RevParseHeadParent];
        assert forall e :: e in fallback ==> e in last.events || e.Warning? || e.RevParseHeadParent?;
        Traced(Ok(repository.headParent), fallback)
  }

  /** `findBaseShaForMainBranch(runId, owner, repo, mainBranchName)`. */
  method FindBaseShaForMainBranch(infra: Infrastructure, runId: int, owner: string, repo: string,
                                  mainBranchName: string) returns (r: ResultOrError<string>)
    modifies infra`events
    ensures var t := BaseShaForMainBranch(infra.repository, infra.runHistory, runId, owner, repo, mainBranchName);
      r == t.value && infra.events == old(infra.events) + t.events
  {
    var lastSuccessfulCommitResult := FindLastSuccessfulCommitSha(infra, runId, owner, repo, mainBranchName);
    if lastSuccessfulCommitResult.Err? {
      return Err(lastSuccessfulCommitResult.message);
    }
    var sha := lastSuccessfulCommitResult.value;
    if sha.Some? && sha.value != "" {
      return Ok(sha.value);
    }
    infra.Warn(NoSuccessfulRunWarning + mainBranchName + "'");
    infra.Warn(DefaultingWarning + mainBranchName + "'");
    var previousCommit := infra.GetHeadPreviousCommitSha();
    r := Ok(previousCommit);
  }

  // ---------------------------------------------------------------- findBaseSha

  /** The base resolver: on the main branch (exact name equality) the
      main-branch strategy; elsewhere the merge-base of `origin/<main>` and
      HEAD after one version-bump adjustment, which cannot fail and asks
      nothing of GitHub. */
  function BaseSha(repository: Repository, runHistory: RunHistory, runId: int, owner: string, repo: string,
                   mainBranchName: string, currentBranchName: string, matcher: string)
    : (t: Traced<ResultOrError<string>>)
    ensures currentBranchName == mainBranchName ==>
              t == BaseShaForMainBranch(repository, runHistory, runId, owner, repo, mainBranchName)
    ensures currentBranchName == mainBranchName ==>
              forall e :: e in t.events ==> !e.MergeBase? && !e.RevList? && !e.LogSubject?
    ensures currentBranchName != mainBranchName ==>
              var forkPoint := repository.mergeBaseWith(mainBranchName);
              && t.value == Ok(ProperBase.ProperBaseCommit(repository, forkPoint, matcher).value)
              && (t.value.value == forkPoint ||
                  Some(t.value.value) == RevList.EarliestChild(repository.revListOutput(forkPoint), forkPoint))
              && t.events == [MergeBase(mainBranchName)] + ProperBase.ProperBaseCommit(repository, forkPoint, matcher).events
    ensures currentBranchName != mainBranchName ==> forall e :: e in t.events ==> !IsGithubRequest(e)
  {
    if currentBranchName == mainBranchName then
      BaseShaForMainBranch(repository, runHistory, runId, owner, repo, mainBranchName)
    else
      var forkPoint := repository.mergeBaseWith(mainBranchName);
      var proper := ProperBase.ProperBaseCommit(repository, forkPoint, matcher);
      Traced(Ok(proper.value), [MergeBase(mainBranchName)] + proper.events)
  }

  /** `findBaseSha(runId, owner, repo, mainBranchName, currentBranchName, matcher)`. */
  method FindBaseSha(infra: Infrastructure, runId: int, owner: string, repo: string,
                     mainBranchName: string, currentBranchName: string, matcher: string)
    returns (r: ResultOrError<string>)
    modifies infra`events
    ensures var t := BaseSha(infra.repository, infra.runHistory, runId, owner, repo,
                             mainBranchName, currentBranchName, matcher);
      r == t.value && infra.events == old(infra.events) + t.events
  {
    if currentBranchName == mainBranchName {
      r := FindBaseShaForMainBranch(infra, runId, owner, repo, mainBranchName);
    } else {
      var sha := infra.GetHeadToMainBranchCommonAncestorSha(mainBranchName);
      var properSha := ProperBase.GetProperBaseCommit(infra, sha, matcher);
      r := Ok(properSha);
    }
  }

  // ---------------------------------------------------------------- run

  /** How a run ends: marked failed with a message, or with both outputs. */
  datatype Outcome = Failed(message: string) | Succeeded(base: string, head: string)

  /** The whole run, given the outcome of reading the branch name: a bad ref
      fails before anything is asked; otherwise HEAD is read, the base
      resolved, and a resolution error fails the run. */
  function RunOutcome(repository: Repository, runHistory: RunHistory, branch: ResultOrError<string>,
                      mainBranchName: string, matcher: string, runId: int, owner: string, repo: string)
    : (t: Traced<Outcome>)
    ensures branch.Err? ==> t == Traced(Failed(branch.message), [])
    ensures branch.Ok? ==>
              var base := BaseSha(repository, runHistory, runId, owner, repo, mainBranchName, branch.value, matcher);
              && t.events == [RevParseHead] + base.events
              && (base.value.Err? ==> t.value == Failed(base.value.message))
              && (base.value.Ok? ==> t.value == Succeeded(base.value.value, repository.head))
    ensures t.value.Succeeded? ==> t.value.head == repository.head
    ensures branch.Ok? && branch.value != mainBranchName ==> t.value.Succeeded?
  {
    match branch
    case Err(message) => Traced(Failed(message), [])
    case Ok(current) =>
      var base := BaseSha(repository, runHistory, runId, owner, repo, mainBranchName, current, matcher);
      match base.value
      case Err(message) => Traced(Failed(message), [RevParseHead] + base.events)
      case Ok(sha) => Traced(Succeeded(sha, repository.head), [RevParseHead] + base.events)
  }

  /** `run()`, with the Actions context, the two inputs and `GITHUB_REF` as
      parameters: it either marks the run failed and writes no output, or
      writes `base` and then `head`, never both. */
  method Run(infra: Infrastructure, ref: Option<string>, mainBranchName: string, matcher: string,
             runId: int, owner: string, repo: string)
    modifies infra`events, infra`outputs, infra`failures
    ensures var t := RunOutcome(infra.repository, infra.runHistory, BranchName.GetCurrentBranchName(ref),
                                mainBranchName, matcher, runId, owner, repo);
      && infra.events == old(infra.events) + t.events
      && (t.value.Failed? ==>
            infra.failures == old(infra.failures) + [t.value.message] && infra.outputs == old(infra.outputs))
      && (t.value.Succeeded? ==>
            && infra.outputs == old(infra.outputs) + [Output("base", t.value.base), Output("head", t.value.head)]
            && infra.failures == old(infra.failures))
  {
    var currentBranchNameResult := BranchName.GetCurrentBranchName(ref);
    ghost var t := RunOutcome(infra.repository, infra.runHistory, currentBranchNameResult,
                              mainBranchName, matcher, runId, owner, repo);
    if currentBranchNameResult.Err? {
      infra.SetFailed(currentBranchNameResult.message);
      return;
    }
    var currentBranchName := currentBranchNameResult.value;
    var headSha := infra.GetHeadCommitSha();
    ghost var base := BaseSha(infra.repository, infra.runHistory, runId, owner, repo,
                              mainBranchName, currentBranchName, matcher);
    AppendIsAssociative(old(infra.events), [RevParseHead], base.events);
    var baseShaResult := FindBaseSha(infra, runId, owner, repo, mainBranchName, currentBranchName, matcher);
    if baseShaResult.Err? {
      infra.SetFailed(baseShaResult.message);
      return;
    }
    var baseSha := baseShaResult.value;
    infra.SetOutput("base", baseSha);
    infra.SetOutput("head", headSha);
    AppendIsAssociative(old(infra.outputs), [Output("base", baseSha)], [Output("head", headSha)]);
  }
}
