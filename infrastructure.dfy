/** Everything the action asks of the outside world: the local git clone,
    GitHub's run history, and the Actions runtime that receives outputs,
    failures and warnings. Answers come from two records of functions, so
    that the resolution logic is deterministic given them; a ghost log
    records every question asked, in order. */
module Infrastructure {
  import opened Results
  import RevList

  /** What a rejected request threw: an `Error` with its message, or some
      other value. */
  datatype Thrown = ErrorInstance(message: string) | NonErrorValue

  /** The settled value of a request's promise. */
  datatype Response<+T> = Returned(value: T) | Threw(thrown: Thrown)

  /** The answers of the local clone, each the trimmed output of one git
      command. */
  datatype Repository = Repository(
    head: string,                         // git rev-parse HEAD
    headParent: string,                   // git rev-parse HEAD~1
    mergeBaseWith: string -> string,      // git merge-base origin/<main> HEAD
    revListOutput: string -> string,      // git rev-list --reverse --parents HEAD ^<sha>
    summaryMatches: (string, string) -> bool,  // subject of <sha> matches the pattern
    hasObject: string -> bool)            // git cat-file -e <sha> succeeds

  /** The answers of GitHub's REST API. */
  datatype RunHistory = RunHistory(
    // GET /repos/<owner>/<repo>/actions/runs/<runId>, its workflow id
    workflowIdOfRun: (int, string, string, string) -> Response<string>,
    // GET /repos/<owner>/<repo>/actions/workflows/<id>/runs for successful
    // pushes on a branch, the head SHAs of the runs in response order
    successfulPushShas: (string, string, string, string) -> Response<seq<string>>)

  /** One question asked of the outside world, or one warning emitted. */
  datatype Event =
    | RevParseHead
    | RevParseHeadParent
    | MergeBase(mainBranch: string)
    | RevList(sha: string)
    | LogSubject(sha: string, matcher: string)
    | CatFile(sha: string)
    | GetRun(runId: int, owner: string, repo: string, branch: string)
    | ListRuns(workflowId: string, owner: string, repo: string, branch: string)
    | Warning(message: string)

  /** A request to GitHub's REST API. */
  predicate IsGithubRequest(e: Event) {
    e.GetRun? || e.ListRuns?
  }

  /** A result together with the events that producing it caused. */
  datatype Traced<+T> = Traced(value: T, events: seq<Event>)

  /** `(a + b) + c == a + (b + c)`. Dafny knows this; it is not a result
      about the action but a hint that the methods which chain several
      logged steps call once per step, so that their proofs stay small. */
  lemma AppendIsAssociative<T>(a: seq<T>, b: seq<T>, c: seq<T>)
    ensures a + b + c == a + (b + c)
  {
  }

  /** One `setOutput(name, value)`. */
  datatype Output = Output(name: string, value: string)

  class Infrastructure {
    const repository: Repository
    const runHistory: RunHistory
    ghost var events: seq<Event>
    var outputs: seq<Output>
    var failures: seq<string>

    constructor (repository: Repository, runHistory: RunHistory)
      ensures this.repository == repository && this.runHistory == runHistory
      ensures events == [] && outputs == [] && failures == []
    {
      this.repository := repository;
      this.runHistory := runHistory;
      events := [];
      outputs := [];
      failures := [];
    }

    /** `getHeadCommitSha`. */
    method GetHeadCommitSha() returns (sha: string)
      modifies this`events
      ensures sha == repository.head
      ensures events == old(events) + [RevParseHead]
    {
      events := events + [RevParseHead];
      sha := repository.head;
    }

    /** `getHeadPreviousCommitSha`. */
    method GetHeadPreviousCommitSha() returns (sha: string)
      modifies this`events
      ensures sha == repository.headParent
      ensures events == old(events) + [RevParseHeadParent]
    {
      events := events + [RevParseHeadParent];
      sha := repository.headParent;
    }

    /** `getHeadToMainBranchCommonAncestorSha`. */
    method GetHeadToMainBranchCommonAncestorSha(mainBranchName: string) returns (sha: string)
      modifies this`events
      ensures sha == repository.mergeBaseWith(mainBranchName)
      ensures events == old(events) + [MergeBase(mainBranchName)]
    {
      events := events + [MergeBase(mainBranchName)];
      sha := repository.mergeBaseWith(mainBranchName);
    }

    /** `getEarliestChildShaOfCommit`: one rev-list call, then the scan of
        its lines. */
    method GetEarliestChildShaOfCommit(parentSha: string) returns (child: Option<string>)
      modifies this`events
      ensures child == RevList.EarliestChild(repository.revListOutput(parentSha), parentSha)
      ensures events == old(events) + [RevList(parentSha)]
    {
      events := events + [RevList(parentSha)];
      var output := repository.revListOutput(parentSha);
      child := RevList.ScanRevList(output, parentSha);
    }

    /** `isCommitSummaryMatch` (`isVersionBumpCommit`). */
    method IsCommitSummaryMatch(sha: string, summaryMatcher: string) returns (matches: bool)
      modifies this`events
      ensures matches == repository.summaryMatches(sha, summaryMatcher)
      ensures events == old(events) + [LogSubject(sha, summaryMatcher)]
    {
      events := events + [LogSubject(sha, summaryMatcher)];
      matches := repository.summaryMatches(sha, summaryMatcher);
    }

    /** `commitExists`: a failed `cat-file` is `false`, never an exception. */
    method CommitExists(sha: string) returns (present: bool)
      modifies this`events
      ensures present == repository.hasObject(sha)
      ensures events == old(events) + [CatFile(sha)]
    {
      events := events + [CatFile(sha)];
      present := repository.hasObject(sha);
    }

    /** The request for the run's own metadata. */
    method RequestWorkflowIdOfRun(runId: int, owner: string, repo: string, branch: string)
      returns (r: Response<string>)
      modifies this`events
      ensures r == runHistory.workflowIdOfRun(runId, owner, repo, branch)
      ensures events == old(events) + [GetRun(runId, owner, repo, branch)]
    {
      events := events + [GetRun(runId, owner, repo, branch)];
      r := runHistory.workflowIdOfRun(runId, owner, repo, branch);
    }

    /** The request for the successful push runs of a workflow. */
    method RequestWorkflowRunCommitShas(workflowId: string, owner: string, repo: string, branch: string)
      returns (r: Response<seq<string>>)
      modifies this`events
      ensures r == runHistory.successfulPushShas(workflowId, owner, repo, branch)
      ensures events == old(events) + [ListRuns(workflowId, owner, repo, branch)]
    {
      events := events + [ListRuns(workflowId, owner, repo, branch)];
      r := runHistory.successfulPushShas(workflowId, owner, repo, branch);
    }

    /** `core.warning(message)`. */
    method Warn(message: string)
      modifies this`events
      ensures events == old(events) + [Warning(message)]
    {
      events := events + [Warning(message)];
    }

    /** `core.setOutput(name, value)`. */
    method SetOutput(name: string, value: string)
      modifies this`outputs
      ensures outputs == old(outputs) + [Output(name, value)]
    {
      outputs := outputs + [Output(name, value)];
    }

    /** `core.setFailed(message)`. */
    method SetFailed(message: string)
      modifies this`failures
      ensures failures == old(failures) + [message]
    {
      failures := failures + [message];
    }
  }
}
