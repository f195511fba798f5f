/** Finding the earliest child of a commit in the text printed by
    `git rev-list --reverse --parents HEAD ^<sha>`: one line per commit,
    oldest first, each line the commit followed by its parents, separated by
    single spaces. */
module RevList {
  import opened Results
  import opened JsString
  import opened Search

  /** `output.split('\n')`. */
  function Lines(output: string): (lines: seq<string>)
    ensures |lines| >= 1
    ensures output == "" ==> lines == [""]
  {
    Split(output, '\n')
  }

  /** `line.split(' ')`: the child first, then its parents. */
  function Tokens(line: string): (tokens: seq<string>)
    ensures |tokens| >= 1 && tokens[0] <= line
  {
    SplitFirstPieceIsPrefix(line, ' ');
    Split(line, ' ')
  }

  /** Whether `sha` is among the parents of the line, `parents.some(p => p === sha)`;
      the line's first token is never compared. */
  function ListsAsParent(line: string, sha: string): (listed: bool)
    ensures listed <==> exists i :: 1 <= i < |Tokens(line)| && Tokens(line)[i] == sha
  {
    sha in Tokens(line)[1..]
  }

  /** The whole output of `git rev-list --parents` for one commit with one
      parent, `"<child> <parent>"`, is one line whose tokens are the two SHAs. */
  lemma OneParentLine(child: string, parent: string)
    requires ' ' !in child && ' ' !in parent && '\n' !in child && '\n' !in parent
    ensures Lines(child + " " + parent) == [child + " " + parent]
    ensures Tokens(child + " " + parent) == [child, parent]
  {
    var line := child + " " + parent;
    assert '\n' !in line;
    JsString.SplitJoin([line], '\n');
    assert JsString.Join([child, parent], ' ') == line by {
      assert [child, parent][1..] == [parent];
    }
    JsString.SplitJoin([child, parent], ' ');
  }

  /** The first token of the first line that lists `sha` as a parent. */
  function ChildOfLines(lines: seq<string>, sha: string): (child: Option<string>)
    ensures child.Some? <==> exists i :: 0 <= i < |lines| && ListsAsParent(lines[i], sha)
    ensures child.Some? ==>
              exists i :: && 0 <= i < |lines| && ListsAsParent(lines[i], sha)
                          && child.value == Tokens(lines[i])[0]
                          && forall j :: 0 <= j < i ==> !ListsAsParent(lines[j], sha)
  {
    var k := FirstIndex(lines, line => ListsAsParent(line, sha));
    if k < |lines| then Some(Tokens(lines[k])[0]) else None
  }

  /** What git never prints: a line that lists its own commit among its parents. */
  ghost predicate NoSelfParent(lines: seq<string>) {
    forall i :: 0 <= i < |lines| ==> Tokens(lines[i])[0] !in Tokens(lines[i])[1..]
  }

  /** The earliest child of `sha` according to the rev-list text `output`. */
  function EarliestChild(output: string, sha: string): (child: Option<string>)
    ensures child.Some? <==> exists i :: 0 <= i < |Lines(output)| && ListsAsParent(Lines(output)[i], sha)
    ensures child.Some? ==>
              exists i :: && 0 <= i < |Lines(output)| && ListsAsParent(Lines(output)[i], sha)
                          && child.value == Tokens(Lines(output)[i])[0]
                          && child.value <= Lines(output)[i]
                          && forall j :: 0 <= j < i ==> !ListsAsParent(Lines(output)[j], sha)
    ensures child.Some? ==> ' ' !in child.value
    ensures output == "" ==> child == None
    ensures NoSelfParent(Lines(output)) && child.Some? ==> child.value != sha
  {
    var lines := Lines(output);
    assert output == "" ==> lines == [""] && Tokens(lines[0]) == [""];
    var child := ChildOfLines(lines, sha);
    if child.Some? then
      var k := FirstIndex(lines, line => ListsAsParent(line, sha));
      SplitPiecesLackSeparator(lines[k], ' ');
      SplitFirstPieceIsPrefix(lines[k], ' ');
      child
    else child
  }

  /** Commits listed after the earliest child (newer ones) do not change it. */
  lemma LaterLinesDoNotMatter(lines: seq<string>, more: seq<string>, sha: string)
    requires ChildOfLines(lines, sha).Some?
    ensures ChildOfLines(lines + more, sha) == ChildOfLines(lines, sha)
  {
    var p := line => ListsAsParent(line, sha);
    FirstIndexAppend(lines, more, p);
    var k := FirstIndex(lines, p);
    assert (lines + more)[k] == lines[k];
  }

  /** More output after the line of the earliest child (newer commits) does
      not change it. */
  lemma EarliestChildIgnoresNewerCommits(output: string, more: string, sha: string)
    requires EarliestChild(output, sha).Some?
    ensures EarliestChild(output + "\n" + more, sha) == EarliestChild(output, sha)
  {
    SplitConcat(output, more, '\n');
    LaterLinesDoNotMatter(Lines(output), Lines(more), sha);
  }

  /** The loop of `getEarliestChildShaOfCommit` (and of its twin
      `getEarliestChildOfCommit`) over the lines of the rev-list output. */
  method ScanRevList(output: string, sha: string) returns (child: Option<string>)
    ensures child == EarliestChild(output, sha)
  {
    var lines := Split(output, '\n');
    ghost var p := line => ListsAsParent(line, sha);
    for i := 0 to |lines|
      invariant forall j :: 0 <= j < i ==> !ListsAsParent(lines[j], sha)
    {
      var tokens := Split(lines[i], ' ');
      var parents := tokens[1..];
      if sha in parents {
        assert p(lines[i]);
        assert FirstIndex(lines, p) == i;
        child := Some(tokens[0]);
        return;
      }
    }
    assert FirstIndex(lines, p) == |lines|;
    child := None;
  }
}
