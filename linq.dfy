/** The sequence queries the layers above use. */
module Linq {
  import opened Wrappers

  /** `s.FirstOrDefault(matches)`: the first element that matches, or null. */
  function FirstOrDefault<T>(s: seq<T>, matches: T -> bool): (r: Option<T>)
    ensures r.None? <==> forall i | 0 <= i < |s| :: !matches(s[i])
    ensures r.Some? ==> exists i | 0 <= i < |s| :: s[i] == r.value && matches(s[i]) && forall j | 0 <= j < i :: !matches(s[j])
  {
    if s == [] then None
    else if matches(s[0]) then Some(s[0])
    else
      var r := FirstOrDefault(s[1..], matches);
      assert r.Some? ==> exists i | 0 <= i < |s[1..]| :: s[1..][i] == r.value && matches(s[1..][i])
                                                        && forall j | 0 <= j < i :: !matches(s[1..][j]);
      assert forall i | 0 <= i < |s[1..]| :: s[1..][i] == s[i + 1];
      r
  }

  /** Appending an element changes the first match only when there was none. */
  lemma {:induction false} FirstOrDefaultAppend<T>(s: seq<T>, x: T, matches: T -> bool)
    ensures FirstOrDefault(s + [x], matches) == if FirstOrDefault(s, matches).Some? then FirstOrDefault(s, matches)
                                                else if matches(x) then Some(x) else None
  {
    if s == [] {
      assert s + [x] == [x];
      assert [x][1..] == [];
    } else {
      assert (s + [x])[1..] == s[1..] + [x];
      FirstOrDefaultAppend(s[1..], x, matches);
    }
  }
}
