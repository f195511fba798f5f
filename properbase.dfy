/** The version-bump adjustment of a candidate base commit
    (`getProperBaseCommit`; `src/utils/get-proper-base-commit.ts` asks the
    git API, `src/get-version-bump-commit-if-next.ts` runs the same commands
    itself, with the same decisions). */
module ProperBase {
  import opened Results
  import opened Infrastructure
  import RevList

  /** The base to compare against, given the candidate `sha`: its earliest
      child when that child's subject matches `matcher`, else `sha`. Only
      the earliest child is looked at, and at most once. */
  function ProperBaseCommit(repository: Repository, sha: string, matcher: string): (t: Traced<string>)
    ensures var child := RevList.EarliestChild(repository.revListOutput(sha), sha);
      && (t.value == sha || Some(t.value) == child)
      && (child.None? || child == Some("") ==> t.value == sha && t.events == [RevList(sha)])
      && (child.Some? && child.value != "" ==>
            && t.events == [RevList(sha), LogSubject(child.value, matcher)]
            && (repository.summaryMatches(child.value, matcher) ==> t.value == child.value)
            && (!repository.summaryMatches(child.value, matcher) ==> t.value == sha))
    ensures forall e :: e in t.events ==> e.RevList? || e.LogSubject?
  {
    var child := RevList.EarliestChild(repository.revListOutput(sha), sha);
    var ask := [RevList(sha)];
    if child.None? || child.value == "" then
      Traced(sha, ask)
    else
      var asked := ask + [LogSubject(child.value, matcher)];
      if repository.summaryMatches(child.value, matcher) then Traced(child.value, asked)
      else Traced(sha, asked)
  }

  /** Only the earliest child decides: commits the rev-list prints after it,
      and what the pattern says of any other commit, change nothing. */
  lemma OnlyEarliestChildMatters(r1: Repository, r2: Repository, sha: string, matcher: string, more: string)
    requires RevList.EarliestChild(r1.revListOutput(sha), sha).Some?
    requires r2.revListOutput(sha) == r1.revListOutput(sha) + "\n" + more
    requires var c := RevList.EarliestChild(r1.revListOutput(sha), sha).value;
      r2.summaryMatches(c, matcher) == r1.summaryMatches(c, matcher)
    ensures ProperBaseCommit(r2, sha, matcher) == ProperBaseCommit(r1, sha, matcher)
  {
    RevList.EarliestChildIgnoresNewerCommits(r1.revListOutput(sha), more, sha);
  }

  /** `getProperBaseCommit(sha, versionBumpSummaryMatcher)`. */
  method GetProperBaseCommit(infra: Infrastructure, sha: string, versionBumpSummaryMatcher: string)
    returns (base: string)
    modifies infra`events
    ensures var t := ProperBaseCommit(infra.repository, sha, versionBumpSummaryMatcher);
      base == t.value && infra.events == old(infra.events) + t.events
  {
    var earliestChildSha := infra.GetEarliestChildShaOfCommit(sha);
    if earliestChildSha.None? || earliestChildSha.value == "" {
      return sha;
    }
    var isCommitVersionBump := infra.IsCommitSummaryMatch(earliestChildSha.value, versionBumpSummaryMatcher);
    if isCommitVersionBump {
      base := earliestChildSha.value;
    } else {
      base := sha;
    }
  }
}
