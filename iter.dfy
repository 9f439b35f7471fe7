/** The two searches of Rust's `Iterator` that the modelled code uses on slices:
    `position` (index of the first match) and `find` (first matching element). Both
    stop at the first element that satisfies the predicate. */
module Iter {
  import opened Base

  /** `s.iter().position(p)`. */
  function Position<T>(s: seq<T>, p: T -> bool): (r: Option<nat>)
    ensures r.Some? ==> r.value < |s| && p(s[r.value])
    ensures r.Some? ==> forall j :: 0 <= j < r.value ==> !p(s[j])
    ensures r.None? <==> forall j :: 0 <= j < |s| ==> !p(s[j])
  {
    if s == [] then None
    else if p(s[0]) then Some(0)
    else match Position(s[1..], p)
      case None => None
      case Some(k) => Some(k + 1)
  }

  /** `s.iter().find(p)`: the element at `Position(s, p)`. */
  function Find<T>(s: seq<T>, p: T -> bool): (r: Option<T>)
    ensures r.Some? <==> exists j :: 0 <= j < |s| && p(s[j])
    ensures r.Some? ==> exists j :: 0 <= j < |s| && s[j] == r.value && p(s[j]) &&
                                    forall k :: 0 <= k < j ==> !p(s[k])
  {
    match Position(s, p)
    case None => None
    case Some(k) => Some(s[k])
  }

  /** Whether the first match depends only on which elements occur: a search whose
      predicate leaves at most one candidate value gives the same answer on any two
      sequences with the same elements. */
  lemma {:induction false} FindUniqueCandidate<T>(s: seq<T>, t: seq<T>, p: T -> bool, v: T)
    requires forall x :: p(x) ==> x == v
    requires forall x :: x in s <==> x in t
    ensures Find(s, p) == Find(t, p)
  {
    FoundInBoth(s, t, p);
    FoundInBoth(t, s, p);
  }

  lemma FoundInBoth<T>(s: seq<T>, t: seq<T>, p: T -> bool)
    requires forall x :: x in s ==> x in t
    ensures Find(s, p).Some? ==> Find(t, p).Some?
  {
    if Find(s, p).Some? {
      var j :| 0 <= j < |s| && p(s[j]);
      assert s[j] in t;
    }
  }

  /** `s.iter().find(check)` where the predicate itself may panic: the checks run in
      order until one holds; a panicking check ends the search with its panic. */
  function TryPosition<T>(s: seq<T>, check: T -> Result<bool>): (r: Result<Option<nat>>)
    ensures r.Ok? && r.value.Some? ==>
              var i := r.value.value;
              i < |s| && check(s[i]) == Ok(true) && forall j :: 0 <= j < i ==> check(s[j]) == Ok(false)
    ensures r == Ok(None) <==> forall j :: 0 <= j < |s| ==> check(s[j]) == Ok(false)
    ensures r.Panicked? ==> exists i :: 0 <= i < |s| && check(s[i]) == Panicked(r.panic) &&
                                        forall j :: 0 <= j < i ==> check(s[j]) == Ok(false)
  {
    if s == [] then Ok(None)
    else match check(s[0])
      case Panicked(p) => Panicked(p)
      case Ok(found) =>
        if found then Ok(Some(0))
        else
          var rest := TryPosition(s[1..], check);
          assert forall j :: 1 <= j < |s| ==> s[1..][j - 1] == s[j];
          match rest
          case Panicked(p) => Panicked(p)
          case Ok(None) => Ok(None)
          case Ok(Some(k)) => Ok(Some(k + 1))
  }

  /** Elements after the first match are never checked: appending to `s` does not
      change a search that already succeeds on `s`. */
  lemma {:induction false} TryPositionPrefix<T>(s: seq<T>, t: seq<T>, check: T -> Result<bool>)
    requires TryPosition(s, check).Ok? && TryPosition(s, check).value.Some?
    ensures TryPosition(s + t, check) == TryPosition(s, check)
  {
    if check(s[0]) != Ok(true) {
      assert (s + t)[1..] == s[1..] + t;
      TryPositionPrefix(s[1..], t, check);
    }
  }
}
