/** The first-match linear search behind every `for (const x of xs) { if (…)
    return …; }` loop of the action. */
module Search {

  /** The index of the first element of `s` satisfying `p`, or `|s|` when no
      element does. */
  function FirstIndex<T>(s: seq<T>, p: T -> bool): (k: nat)
    ensures k <= |s|
    ensures forall j :: 0 <= j < k ==> !p(s[j])
    ensures k < |s| ==> p(s[k])
  {
    if s == [] then 0 else if p(s[0]) then 0 else 1 + FirstIndex(s[1..], p)
  }

  /** Elements appended after a match do not move the first match. */
  lemma {:induction false} FirstIndexAppend<T>(s: seq<T>, more: seq<T>, p: T -> bool)
    requires FirstIndex(s, p) < |s|
    ensures FirstIndex(s + more, p) == FirstIndex(s, p)
  {
    if !p(s[0]) {
      assert (s + more)[1..] == s[1..] + more;
      FirstIndexAppend(s[1..], more, p);
    }
  }
}
