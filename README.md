# Base-commit resolution of calculate-nx-affected-head-base

A Dafny model of the core of a GitHub Action that computes the `base` and
`head` commits for `nx affected`. `head` is the current `HEAD`. How `base` is
found depends on the branch:

- **On the main branch**, `base` is the head SHA of a successful push run of
  the same workflow that still exists in the local clone: the first such SHA
  in the order GitHub returns the runs. When
  there is none, two warnings are printed and `base` is `HEAD~1`.
- **On any other branch**, `base` is the merge-base of `origin/<main>` and
  `HEAD`. When that commit's earliest child is a version-bump commit (its
  subject matches a user-given pattern), `base` moves to that child.

Git, GitHub's REST API and the Actions runtime are oracles:

- a `Repository` record answers the git commands;
- a `RunHistory` record answers the two REST requests. Each answer is a value
  or a thrown exception.

The `Infrastructure` class holds both records. It keeps a ghost log with one
`Event` per question asked and per warning, in the order they happen, and it
records the outputs and failures the action reports.

Every step of `src/main.ts` is modelled twice:

- a function computes the step's result together with the events it causes
  (`Traced<T>`), and states in its contract what the source promises;
- a method performs the step against the oracle. It is proved to return
  that function's value and to append exactly those events to the log.

Modules:

- `Results`: the `ResultOrErrorMessage` shape and `T | undefined`.
- `JsString`: `String.prototype.split` with a one-character separator, which
  keeps empty pieces, and its inverse `join`.
- `Search`: the first-match search behind the action's `for … return` loops.
- `BranchName`: the ref parser together with the exact semantics of the
  regular expression `^refs\/heads\/(.+)$`.
- `RevList`: the earliest-child scan of `git rev-list --reverse --parents`
  output.
- `Infrastructure`: the oracles, the event log and the output state.
- `ProperBase`: the version-bump adjustment.
- `Action`: `src/main.ts`.
- `Scenarios`: worked runs on concrete histories.

Several pieces of source exist in two copies, and each pair is modelled by
one member:

- `getCurrentBranchName` in `src/utils.ts` and in
  `src/utils/get-current-branch-name.ts`. The two are identical.
- The rev-list loop in `src/infrastructure/git-api.ts` and in
  `src/get-version-bump-commit-if-next.ts`. They differ only in the name of
  the parent SHA (`parentSha` or `sha`).
- `getProperBaseCommit` in `src/utils/get-proper-base-commit.ts` and in
  `src/get-version-bump-commit-if-next.ts`. The first receives an
  `infrastructure` object and asks its git API and logger. The second runs
  the git commands through its own helpers and logs with `core.debug`. Given
  the same git answers, they make the same decisions.

Each such member's table row cites one copy and names the other.

The debug messages of `getProperBaseCommit`
(`src/get-version-bump-commit-if-next.ts:11,17`,
`src/utils/get-proper-base-commit.ts:12,18`) call its input the commit "for
which this workflow was last successfully run", which is the SHA found on the
main branch. Yet `src/main.ts:95-97` returns that SHA unadjusted, and only
the feature-branch path (`src/main.ts:65-71`) adjusts. The model follows the
code, and `Scenarios.MainBranchSkipsAdjustment` shows the difference on a
concrete history.

## Model

| member | source | states |
|---|---|---|
| BranchName.GetCurrentBranchName | src/utils/get-current-branch-name.ts:5-25 | An absent or empty ref gives the "Missing current branch ref" error. Any other ref the pattern rejects gives "Invalid current branch ref format: " followed by the ref itself. The result is `Ok` exactly when the ref is `refs/heads/` followed by a non-empty name free of line terminators, and then prefix + name is the ref. The copy in `src/utils.ts:18-40`, which `src/main.ts` imports, is the same code. |
| BranchName.DotRunEnd | src/utils/get-current-branch-name.ts:3 | The greedy `.` run of the pattern stops at the first line terminator (`\n`, `\r`, U+2028, U+2029) or at the end of the text, and every character before that point is matched. |
| BranchName.MatchRefRegex | src/utils/get-current-branch-name.ts:15 | The pattern matches exactly the refs that are `refs/heads/` followed by a non-empty name free of line terminators, and the capture group is the whole text after the prefix. |
| BranchName.DotRunEndIsFirstIndex | src/utils/get-current-branch-name.ts:3 | The `.` run ends at the first line terminator after its start, the same first-match search as elsewhere. |
| BranchName.BranchRefRoundTrip | src/utils/get-current-branch-name.ts:3-24 | For every non-empty name without line terminators, parsing `refs/heads/<name>` gives back exactly `Ok(name)`, for both copies of the parser. |
| JsString.IndexOf | src/infrastructure/git-api.ts:47 | The position of the first separator, or the length when there is none; no earlier character is the separator. |
| JsString.Split | src/infrastructure/git-api.ts:47 | `split(sep)` always gives at least one piece, and empty text gives the single empty piece. What the pieces are is stated by the lemmas below: joined back they give the text, none holds the separator, and the text is one piece exactly when it holds no separator. |
| JsString.SplitWithoutSeparator | src/infrastructure/git-api.ts:47 | The split is the single piece `[s]` exactly when `s` holds no separator. |
| JsString.IndexOfIsFirstIndex | src/infrastructure/git-api.ts:47 | Finding the separator is the same first-match search as the action's loops. |
| JsString.SplitPiecesLackSeparator | src/infrastructure/git-api.ts:47-49 | No piece of `split(sep)` contains the separator. |
| JsString.SplitFirstPieceIsPrefix | src/infrastructure/git-api.ts:49 | The first piece of a split, the child token, is a prefix of the line. |
| JsString.JoinSplit | src/infrastructure/git-api.ts:47-49 | Joining the pieces of `split(sep)` with `sep` gives back the original text, so the split loses nothing, empty pieces included. |
| JsString.SplitJoin | src/infrastructure/git-api.ts:47-49 | Splitting the join of separator-free pieces gives back exactly those pieces. |
| JsString.JoinAppend | src/infrastructure/git-api.ts:47 | Joining two lists of pieces equals joining each list and putting one separator between the results. |
| JsString.SplitConcat | src/infrastructure/git-api.ts:47 | Splitting `a + sep + b` gives the pieces of `a` followed by the pieces of `b`. |
| Search.FirstIndex | src/main.ts:208-213 | The index of the first element satisfying the test, or the length when none does; nothing before it satisfies the test. |
| Search.FirstIndexAppend | src/main.ts:208-211 | Elements appended after a match do not move the first match. |
| RevList.Lines | src/infrastructure/git-api.ts:47 | Splitting the rev-list output on `\n` always gives at least one line, and empty output gives the single empty line `""`. |
| RevList.Tokens | src/infrastructure/git-api.ts:49 | Splitting a line on `' '` always gives at least one token, the child, and that token is a prefix of the line. |
| RevList.ListsAsParent | src/infrastructure/git-api.ts:50 | A definition: true exactly when some token after the first equals the SHA. The first token, the child, is never compared. |
| RevList.OneParentLine | src/infrastructure/git-api.ts:47-49 | For SHAs free of spaces and newlines, the text `child parent` is one line whose tokens are exactly `child` and `parent`. |
| RevList.ChildOfLines | src/infrastructure/git-api.ts:48-54 | The result is defined exactly when some line lists the SHA among its parents. It is then the first token of such a line, and no earlier line lists the SHA. |
| RevList.EarliestChild | src/infrastructure/git-api.ts:44-54 | A child exists exactly when some line of the output lists the SHA after its first token. The child is the first token of the first such line, a prefix of that line, and free of spaces. Empty output gives no child. When no line lists its own commit as a parent, the child differs from the SHA. |
| RevList.ScanRevList | src/infrastructure/git-api.ts:47-54 | The loop over the lines with early return computes `EarliestChild`. Its twin in `getEarliestChildOfCommit` (`src/get-version-bump-commit-if-next.ts:51-58`) is the same loop, so the two scans agree on every output. |
| RevList.LaterLinesDoNotMatter | src/infrastructure/git-api.ts:48-52 | Lines appended after a matching line do not change the child found. |
| RevList.EarliestChildIgnoresNewerCommits | src/infrastructure/git-api.ts:44-54 | Output appended after the earliest child's line (newer commits, because the listing runs oldest first) does not change the earliest child. |
| Infrastructure.Infrastructure.GetHeadCommitSha | src/infrastructure/git-api.ts:18-20 | Returns the clone's `HEAD` and logs one `rev-parse HEAD`. |
| Infrastructure.Infrastructure.GetHeadPreviousCommitSha | src/infrastructure/git-api.ts:22-24 | Returns `HEAD~1` and logs one `rev-parse HEAD~1`. |
| Infrastructure.Infrastructure.GetHeadToMainBranchCommonAncestorSha | src/infrastructure/git-api.ts:26-32 | Returns the merge-base with `origin/<main>` and logs one `merge-base`. |
| Infrastructure.Infrastructure.GetEarliestChildShaOfCommit | src/infrastructure/git-api.ts:34-55 | One rev-list call is logged, and its output is scanned to give `EarliestChild`. |
| Infrastructure.Infrastructure.IsCommitSummaryMatch | src/infrastructure/git-api.ts:57-67 | Returns the oracle's verdict on the subject of the commit and logs one `git log`. `isVersionBumpCommit` (`src/get-version-bump-commit-if-next.ts:61-71`) asks the same question. |
| Infrastructure.Infrastructure.CommitExists | src/infrastructure/git-api.ts:69-76 | A boolean, true exactly when the object exists, never an exception; logs one `cat-file`. The copy `commitExists` in `src/main.ts:216-223` is the same. |
| Infrastructure.Infrastructure.RequestWorkflowIdOfRun | src/infrastructure/github-api.ts:26-43 | The response (workflow id or thrown exception) for the run, logging one `GET …/actions/runs/<runId>`. |
| Infrastructure.Infrastructure.RequestWorkflowRunCommitShas | src/infrastructure/github-api.ts:45-66 | The head SHAs of the successful push runs in response order, or the thrown exception, logging one `GET …/workflows/<id>/runs`. |
| Infrastructure.Infrastructure.Warn | src/main.ts:99-104 | `core.warning` appends one warning event with the message. |
| Infrastructure.Infrastructure.SetOutput | src/main.ts:49-50 | `core.setOutput` appends one output; nothing else changes. |
| Infrastructure.Infrastructure.SetFailed | src/main.ts:25 | `core.setFailed` appends one failure message; nothing else changes. |
| ProperBase.ProperBaseCommit | src/utils/get-proper-base-commit.ts:3-37 | The result is the input SHA or its earliest child. With no child, or an empty one, it is the input SHA after one rev-list. Otherwise exactly one subject check is made, on the earliest child only: a match gives the child and a mismatch the input SHA. It never fails, and it asks only rev-list and log questions. The copy in `src/get-version-bump-commit-if-next.ts:4-36`, which runs the commands itself, makes the same decisions. |
| ProperBase.GetProperBaseCommit | src/get-version-bump-commit-if-next.ts:4-36 | Asks the oracle in that order and returns `ProperBaseCommit`'s value with its events. It serves for both copies. |
| ProperBase.OnlyEarliestChildMatters | src/utils/get-proper-base-commit.ts:21-24 | Newer commits and the pattern's verdict on any commit but the earliest child leave the result and the questions asked unchanged. |
| Action.CatFiles | src/main.ts:208-209 | A definition: one existence probe per listed SHA, in list order. |
| Action.ExistingCommit | src/main.ts:205-214 | A SHA is found exactly when some listed SHA exists, so an empty list finds nothing. A found SHA is in the list, exists, and every earlier SHA does not. Probing stops right after the hit: the probes are the listed SHAs in order up to and including the first existing one, or all of them when none exists. |
| Action.FindExistingCommit | src/main.ts:205-214 | The loop with early return computes `ExistingCommit`, probe for probe. |
| Action.WorkflowId | src/main.ts:180-203 | A non-empty given id is used without a request. Otherwise exactly one run-metadata request is made, and its response, value or exception, is the result. |
| Action.GetWorkflowId | src/main.ts:180-203 | Computes `WorkflowId` against the oracle. |
| Action.SuccessfulCommit | src/main.ts:139-178 | The workflow-id lookup comes first, and its exception is passed on. Then exactly one runs request follows. If it throws, the exception is passed on and nothing more is asked. Otherwise the result and the remaining events are exactly those of `ExistingCommit` on the returned list, and any SHA found exists in the clone. Only GitHub requests and existence probes happen. |
| Action.FindSuccessfulCommit | src/main.ts:139-178 | Computes `SuccessfulCommit` against the oracle. |
| Action.ErrorMessageOf | src/main.ts:131-132 | A definition: a caught `Error` gives its own message; any other thrown value gives "Unknown error". |
| Action.LastSuccessfulCommitSha | src/main.ts:113-137 | No workflow id is passed, so the first event is always the run-metadata request. A returned SHA becomes `Ok`. An exception becomes `Err` with the `Error`'s message, or "Unknown error" for a non-Error value. |
| Action.FindLastSuccessfulCommitSha | src/main.ts:113-137 | Computes `LastSuccessfulCommitSha` against the oracle. |
| Action.FallbackWarnings | src/main.ts:99-104 | A definition: exactly two warnings, in order, with the texts of the source, each naming `origin/<main>`. |
| Action.BaseShaForMainBranch | src/main.ts:78-111 | A lookup error is returned unchanged, and it is the only way to fail. A found non-empty SHA is returned as it is, with no adjustment. Otherwise the two fallback warnings and `rev-parse HEAD~1` follow, and the result is `Ok(HEAD~1)`. A successful result is `HEAD~1` or an existing commit. No merge-base, rev-list or subject check is made. |
| Action.FindBaseShaForMainBranch | src/main.ts:78-111 | Computes `BaseShaForMainBranch` against the oracle, warnings included. |
| Action.BaseSha | src/main.ts:53-76 | Exact equality with the main branch name selects the main-branch strategy, with no merge-base or adjustment. Any other name gives `Ok` of the adjusted merge-base (for a valid pattern), which is the merge-base or its earliest child. That path starts with one merge-base and never sends a GitHub request. |
| Action.FindBaseSha | src/main.ts:53-76 | Computes `BaseSha` against the oracle. |
| Action.RunOutcome | src/main.ts:15-51 | A bad ref fails with the parser's message before any question is asked. Otherwise `HEAD` is read, then the base is resolved; a resolution error fails the run, and success carries the base and `HEAD`. A branch other than the main branch always succeeds, given a valid version-bump pattern (see "## Left out"). |
| Action.Run | src/main.ts:15-51 | Either exactly one failure is recorded and no output written, or `base` then `head` are written and no failure recorded, never both. The log grows by exactly `RunOutcome`'s events. |
| Scenarios.AdjustmentMovesToReleaseChild | src/utils/get-proper-base-commit.ts:21-30 | On a clone whose only commit after `shaB` is a matching `shaC`, the adjustment of `shaB` gives `shaC`. |
| Scenarios.MainBranchSkipsAdjustment | src/main.ts:95-97 | On the same clone, with runs `shaA` (missing) and `shaB`, the main branch resolves to `shaB`, not its release child. |
| Scenarios.FeatureBranchTakesForkPoint | src/main.ts:64-75 | A feature branch whose fork point has no child in the listing resolves to the fork point. |
| Scenarios.EmptyHistoryFallsBack | src/main.ts:98-110 | An empty run list on the main branch gives `Ok(HEAD~1)`, with the exact questions and warnings in order. |
| Scenarios.MalformedRefFails | src/main.ts:22-27 | `GITHUB_REF = "not-a-ref"` fails the run with "Invalid current branch ref format: not-a-ref" and asks nothing. |
| Scenarios.SelfParentLineNamesItself | src/infrastructure/git-api.ts:49-51 | On the raw text `x x` the scan names `x` as the child of `x`. |
| Scenarios.ReleaseLine | src/infrastructure/git-api.ts:47-49 | The text `shaC shaB` is one line with tokens `shaC` and `shaB`. |

## Left out

- Network transport: Octokit (`new Octokit()` and the two `request` calls) is replaced by the `RunHistory` record. Each request returns a value or throws; a throw from the constructor itself is not modelled separately.
- The REST response shapes: `runs.map(r => r.head_sha)` and `data.workflow_id` are already applied in the oracle's answers. The workflow id is modelled as a string, as the code types it.
- The Actions runtime: `github.context` and `core.getInput` become parameters of `Run`. `setOutput` and `setFailed` append to the `outputs` and `failures` fields.
- The `setOutputs` key loop of `src/infrastructure/github-actions-api.ts` is not part of this model.
- Logging: `core.debug`, `core.error` and the logger of `src/infrastructure/logger.ts` have no bearing on any result and are not modelled. `core.warning` is modelled, as a `Warning` event.
- Subprocesses: `execSync` and `.trim()` are replaced by the `Repository` record. Its strings are the trimmed answers of the clone. A git command outside a `try` that fails would reject `run()`'s promise; the model treats those commands (rev-parse, merge-base, rev-list, log) as always answering.
- The user-given version-bump pattern: matching it against a commit subject is an uninterpreted predicate of the oracle, because a general regular-expression engine is out of scope. The fixed branch-ref pattern is modelled exactly.
- `async`/`await`: the action has no concurrency, and every step is sequential in the model.
- Strings: JavaScript strings are sequences of UTF-16 code units, and Dafny's `string` is a sequence of Unicode scalar values. The code splits only at ASCII characters and compares whole strings, so the difference does not show in any result the model states.
- Infrastructure.Infrastructure.IsCommitSummaryMatch: the answer is always a boolean. In the source, `summary.match(matcher)` compiles the user's pattern, and an invalid pattern (such as `(`) throws a `SyntaxError`. No `try` surrounds that call on the feature-branch path, so such a pattern would reject `run()`'s promise with neither outputs nor `setFailed`. That throw is not modelled. `Action.RunOutcome`'s clause "a branch other than the main branch always succeeds" assumes a valid pattern, or a fork point without a non-empty earliest child.
- RevList.EarliestChild: "the child differs from the SHA" is proved only for listings in which no line names its own commit as a parent. Git never prints such a line. `Scenarios.SelfParentLineNamesItself` shows that on arbitrary text the claim fails.
- The wiring in `src/infrastructure/infrastructure.ts` and the interface declarations in `src/types.ts` and `src/types/types.ts` become the `Infrastructure` class and the `Results` datatypes.
