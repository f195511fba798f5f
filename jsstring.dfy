/** JavaScript's `String.prototype.split` with a one-character separator, and
    its inverse `Array.prototype.join`. */
module JsString {
  import opened Search

  /** `s.indexOf(sep)`, with `|s|` for JavaScript's `-1`. */
  function IndexOf(s: string, sep: char): (k: nat)
    ensures k <= |s|
    ensures forall j :: 0 <= j < k ==> s[j] != sep
    ensures k < |s| ==> s[k] == sep
  {
    if s == [] || s[0] == sep then 0 else 1 + IndexOf(s[1..], sep)
  }

  /** `IndexOf` is the first-match search for the separator. */
  lemma IndexOfIsFirstIndex(s: string, sep: char)
    ensures IndexOf(s, sep) == FirstIndex(s, c => c == sep)
  {
  }

  /** `s.split(sep)`: the text up to the first separator, then the pieces of
      what follows it. There is always at least one piece, and empty pieces
      are kept (`"".split(sep)` is `[""]`, `"a" + sep` gives `["a", ""]`). */
  function Split(s: string, sep: char): (parts: seq<string>)
    ensures |parts| >= 1
    ensures s == [] ==> parts == [[]]
    decreases |s|
  {
    var k := IndexOf(s, sep);
    if k == |s| then [s] else [s[..k]] + Split(s[k + 1..], sep)
  }

  /** No piece holds the separator. */
  lemma {:induction false} SplitPiecesLackSeparator(s: string, sep: char)
    ensures forall i :: 0 <= i < |Split(s, sep)| ==> sep !in Split(s, sep)[i]
    decreases |s|
  {
    var k := IndexOf(s, sep);
    var parts := Split(s, sep);
    if k < |s| {
      var rest := s[k + 1..];
      SplitPiecesLackSeparator(rest, sep);
      assert parts == [s[..k]] + Split(rest, sep);
      assert forall i :: 1 <= i < |parts| ==> parts[i] == Split(rest, sep)[i - 1];
      assert sep !in s[..k];
    } else {
      assert parts == [s];
    }
  }

  /** The text is one piece exactly when it holds no separator. */
  lemma SplitWithoutSeparator(s: string, sep: char)
    ensures |Split(s, sep)| == 1 <==> sep !in s
    ensures sep !in s ==> Split(s, sep) == [s]
  {
    var k := IndexOf(s, sep);
    if k < |s| {
      assert |Split(s, sep)| == 1 + |Split(s[k + 1..], sep)|;
      assert s[k] == sep;
    } else {
      assert Split(s, sep) == [s];
    }
  }

  /** The first piece is a prefix of the text. */
  lemma SplitFirstPieceIsPrefix(s: string, sep: char)
    ensures Split(s, sep)[0] <= s
  {
  }

  /** `parts.join(sep)`. */
  function Join(parts: seq<string>, sep: char): (s: string)
    requires |parts| >= 1
  {
    if |parts| == 1 then parts[0] else parts[0] + [sep] + Join(parts[1..], sep)
  }

  /** Joining the pieces back with the separator gives the original text. */
  lemma {:induction false} JoinSplit(s: string, sep: char)
    ensures Join(Split(s, sep), sep) == s
    decreases |s|
  {
    var k := IndexOf(s, sep);
    if k < |s| {
      var rest := s[k + 1..];
      var parts := Split(s, sep);
      assert Join(parts, sep) == s[..k] + [sep] + Join(Split(rest, sep), sep) by {
        assert parts == [s[..k]] + Split(rest, sep);
        assert parts[1..] == Split(rest, sep);
      }
      JoinSplit(rest, sep);
      assert s == s[..k] + [sep] + rest;
    }
  }

  /** The first separator of `p + [sep] + rest`, when `p` holds none, is the
      one after `p`. */
  lemma FirstSeparatorAfter(p: string, rest: string, sep: char)
    requires sep !in p
    ensures IndexOf(p + [sep] + rest, sep) == |p|
  {
    var s := p + [sep] + rest;
    assert s[|p|] == sep;
    assert forall j :: 0 <= j < |p| ==> s[j] == p[j];
  }

  /** Pieces that hold no separator come back unchanged from splitting their
      join: `Split` and `Join` are inverse to each other. */
  lemma {:induction false} SplitJoin(parts: seq<string>, sep: char)
    requires |parts| >= 1
    requires forall i :: 0 <= i < |parts| ==> sep !in parts[i]
    ensures Split(Join(parts, sep), sep) == parts
  {
    var p := parts[0];
    if |parts| == 1 {
      assert IndexOf(p, sep) == |p|;
    } else {
      var tail := Join(parts[1..], sep);
      SplitJoin(parts[1..], sep);
      FirstSeparatorAfter(p, tail, sep);
      var s := p + [sep] + tail;
      assert s[..|p|] == p && s[|p| + 1..] == tail;
      assert parts == [p] + parts[1..];
    }
  }

  /** Joining two lists of pieces is joining their joins. */
  lemma {:induction false} JoinAppend(x: seq<string>, y: seq<string>, sep: char)
    requires |x| >= 1 && |y| >= 1
    ensures Join(x + y, sep) == Join(x, sep) + [sep] + Join(y, sep)
  {
    assert (x + y)[0] == x[0];
    if |x| == 1 {
      assert (x + y)[1..] == y;
    } else {
      JoinAppend(x[1..], y, sep);
      assert (x + y)[1..] == x[1..] + y;
    }
  }

  /** Splitting two texts joined by the separator gives the pieces of the
      first followed by the pieces of the second. */
  lemma SplitConcat(a: string, b: string, sep: char)
    ensures Split(a + [sep] + b, sep) == Split(a, sep) + Split(b, sep)
  {
    var x, y := Split(a, sep), Split(b, sep);
    assert Join(x + y, sep) == a + [sep] + b by {
      JoinSplit(a, sep);
      JoinSplit(b, sep);
      JoinAppend(x, y, sep);
    }
    assert forall i :: 0 <= i < |x + y| ==> sep !in (x + y)[i] by {
      SplitPiecesLackSeparator(a, sep);
      SplitPiecesLackSeparator(b, sep);
      assert forall i :: 0 <= i < |x + y| ==> (x + y)[i] == if i < |x| then x[i] else y[i - |x|];
    }
    SplitJoin(x + y, sep);
  }
}
