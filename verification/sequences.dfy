/** Operations of `java.util.List` shared by the demos. */
module Sequences {

  /** `i` is the position of the first element satisfying `matches`. */
  ghost predicate IsFirstMatch<T>(s: seq<T>, matches: T -> bool, i: int) {
    0 <= i < |s| && matches(s[i]) && forall j | 0 <= j < i :: !matches(s[j])
  }

  /** `List.remove(Object)`: drops the first element that matches and keeps
      the order of the rest; leaves the list alone when nothing matches. */
  function RemoveFirst<T>(s: seq<T>, matches: T -> bool): (r: seq<T>)
    ensures (forall i | 0 <= i < |s| :: !matches(s[i])) ==> r == s
    ensures forall i | IsFirstMatch(s, matches, i) :: r == s[..i] + s[i + 1..]
  {
    if s == [] then []
    else if matches(s[0]) then s[1..]
    else
      var rest := RemoveFirst(s[1..], matches);
      assert forall i | IsFirstMatch(s, matches, i) :: IsFirstMatch(s[1..], matches, i - 1);
      [s[0]] + rest
  }

  /** Removal shortens the list by one exactly when some element matches. */
  lemma RemoveFirstLength<T>(s: seq<T>, matches: T -> bool, i: int)
    requires IsFirstMatch(s, matches, i)
    ensures |RemoveFirst(s, matches)| == |s| - 1
    ensures multiset(RemoveFirst(s, matches)) + multiset{s[i]} == multiset(s)
  {
    assert s == s[..i] + [s[i]] + s[i + 1..];
  }
}
