/** Reading the current branch name out of the `GITHUB_REF` environment
    value (`getCurrentBranchName`; `src/utils.ts` and
    `src/utils/get-current-branch-name.ts` hold the same code, so one
    function serves both). */
module BranchName {
  import opened Results
  import opened Search

  const MissingRefMessage: string := "Missing current branch ref (should be present in 'env.GITHUB_REF')"
  const InvalidRefMessage: string := "Invalid current branch ref format: "
  const HeadsPrefix: string := "refs/heads/"

  /** The characters JavaScript's `.` does not match (no `s` flag). */
  predicate IsLineTerminator(c: char) {
    c == '\n' || c == '\r' || c == '\U{2028}' || c == '\U{2029}'
  }

  /** Where a greedy run of `.` that starts at `i` stops. */
  function DotRunEnd(s: string, i: nat): (j: nat)
    requires i <= |s|
    ensures i <= j <= |s|
    ensures forall k :: i <= k < j ==> !IsLineTerminator(s[k])
    ensures j < |s| ==> IsLineTerminator(s[j])
    decreases |s| - i
  {
    if i == |s| || IsLineTerminator(s[i]) then i else DotRunEnd(s, i + 1)
  }

  /** The `.` run is the first-match search for a line terminator in the rest
      of the text. */
  lemma DotRunEndIsFirstIndex(s: string, i: nat)
    requires i <= |s|
    ensures DotRunEnd(s, i) == i + FirstIndex(s[i..], IsLineTerminator)
  {
  }

  /** The capture group of `s.match(/^refs\/heads\/(.+)$/)`, or `None` when
      there is no match: the literal prefix at the start, a greedy `.+`, and
      `$`, which without the `m` flag holds only at the end of the input (so
      giving back characters of the run never helps). */
  function MatchRefRegex(s: string): (m: Option<string>)
    ensures m.Some? <==> IsBranchRef(s)
    ensures m.Some? ==> m.value == s[|HeadsPrefix|..] && m.value != ""
  {
    var n := |HeadsPrefix|;
    if |s| >= n && s[..n] == HeadsPrefix then
      var end := DotRunEnd(s, n);
      if n < end == |s| then Some(s[n..]) else None
    else None
  }

  /** The refs the pattern accepts: the heads prefix followed by a non-empty
      name free of line terminators. */
  ghost predicate IsBranchRef(ref: string) {
    && |ref| > |HeadsPrefix|
    && ref[..|HeadsPrefix|] == HeadsPrefix
    && forall i :: |HeadsPrefix| <= i < |ref| ==> !IsLineTerminator(ref[i])
  }

  /** `getCurrentBranchName(currentBranchRef)`: an absent or empty ref and a
      ref that does not match the pattern are errors; otherwise the name after
      the prefix, unmodified. */
  function GetCurrentBranchName(ref: Option<string>): (r: ResultOrError<string>)
    ensures ref.None? || ref == Some("") ==> r == Err(MissingRefMessage)
    ensures ref.Some? && ref.value != "" && !IsBranchRef(ref.value) ==>
              r == Err(InvalidRefMessage + ref.value)
    ensures r.Ok? <==> ref.Some? && IsBranchRef(ref.value)
    ensures r.Ok? ==> HeadsPrefix + r.value == ref.value && r.value != ""
    ensures r.Ok? ==> forall i :: 0 <= i < |r.value| ==> !IsLineTerminator(r.value[i])
  {
    if ref.None? || ref.value == "" then
      Err(MissingRefMessage)
    else
      var m := MatchRefRegex(ref.value);
      if m.None? || m.value == "" then Err(InvalidRefMessage + ref.value)
      else
        assert HeadsPrefix + m.value == ref.value by {
          assert ref.value == ref.value[..|HeadsPrefix|] + ref.value[|HeadsPrefix|..];
        }
        Ok(m.value)
  }

  /** Every non-empty name without line terminators survives the trip
      through `refs/heads/<name>`. */
  lemma BranchRefRoundTrip(name: string)
    requires name != ""
    requires forall i :: 0 <= i < |name| ==> !IsLineTerminator(name[i])
    ensures GetCurrentBranchName(Some(HeadsPrefix + name)) == Ok(name)
  {
    var ref := HeadsPrefix + name;
    assert ref[..|HeadsPrefix|] == HeadsPrefix;
    assert forall i :: |HeadsPrefix| <= i < |ref| ==> ref[i] == name[i - |HeadsPrefix|];
    var r := GetCurrentBranchName(Some(ref));
    assert r.Ok?;
    assert ref[|HeadsPrefix|..] == name;
    assert (HeadsPrefix + r.value)[|HeadsPrefix|..] == r.value;
  }
}
