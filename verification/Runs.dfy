/** Reachability over any step relation, what follows for properties that every step keeps, and counting steps. */
module Runs {
  /** Consecutive states, each a step from the one before. */
  ghost predicate IsPath<S(!new)>(path: seq<S>, next: (S, S) -> bool) {
    path != [] && forall k: nat :: k + 1 < |path| ==> next(path[k], path[k + 1])
  }

  ghost predicate Leads<S(!new)>(path: seq<S>, next: (S, S) -> bool, from: S, later: S) {
    IsPath(path, next) && path[0] == from && path[|path| - 1] == later
  }

  ghost predicate Reaches<S(!new)>(next: (S, S) -> bool, from: S, later: S) {
    exists path: seq<S> :: Leads(path, next, from, later)
  }

  lemma ReachesItself<S(!new)>(next: (S, S) -> bool, from: S)
    ensures Reaches(next, from, from)
  {
    assert Leads([from], next, from, from);
  }

  lemma ReachesNext<S(!new)>(next: (S, S) -> bool, from: S, later: S, end: S)
    requires Reaches(next, from, later) && next(later, end)
    ensures Reaches(next, from, end)
  {
    var path: seq<S> :| Leads(path, next, from, later);
    var longer := path + [end];
    forall k: nat | k + 1 < |longer| ensures next(longer[k], longer[k + 1]) {
      if k + 1 < |path| {
        assert longer[k] == path[k] && longer[k + 1] == path[k + 1];
      }
    }
    assert Leads(longer, next, from, end);
  }

  lemma {:induction false} KeptAlongPath<S(!new)>(path: seq<S>, next: (S, S) -> bool, kept: S -> bool, k: nat)
    requires IsPath(path, next) && kept(path[0]) && k < |path|
    requires forall a: S, b: S :: kept(a) && next(a, b) ==> kept(b)
    ensures kept(path[k])
  {
    if k > 0 {
      KeptAlongPath(path, next, kept, k - 1);
      assert next(path[k - 1], path[k - 1 + 1]);
    }
  }

  /** What holds now and is kept by every step holds at every state that can be reached. */
  lemma KeptForever<S(!new)>(next: (S, S) -> bool, kept: S -> bool, from: S, later: S)
    requires Reaches(next, from, later) && kept(from)
    requires forall a: S, b: S :: kept(a) && next(a, b) ==> kept(b)
    ensures kept(later)
  {
    var path: seq<S> :| Leads(path, next, from, later);
    KeptAlongPath(path, next, kept, |path| - 1);
  }

  /** How many elements satisfy `p`. */
  ghost function Count<T(!new)>(s: seq<T>, p: T -> bool): nat {
    if s == [] then 0 else Count(s[..|s| - 1], p) + if p(s[|s| - 1]) then 1 else 0
  }

  lemma CountNext<T(!new)>(s: seq<T>, k: nat, p: T -> bool)
    requires k < |s|
    ensures Count(s[..k + 1], p) == Count(s[..k], p) + if p(s[k]) then 1 else 0
  {
    assert s[..k + 1][..k] == s[..k];
  }
}
