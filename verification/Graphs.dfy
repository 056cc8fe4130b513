/** Walks along the edges of a finite graph, and the work list that finds what they reach. */
module Graphs {

  ghost predicate Walk<T>(edges: set<(T, T)>, p: seq<T>) {
    p != [] && forall i :: 0 < i < |p| ==> (p[i - 1], p[i]) in edges
  }

  ghost predicate WalkBetween<T>(edges: set<(T, T)>, p: seq<T>, a: T, b: T) {
    Walk(edges, p) && p[0] == a && p[|p| - 1] == b
  }

  /** A walk of any length, none included. */
  ghost predicate Reaches<T(!new)>(edges: set<(T, T)>, a: T, b: T) {
    exists p :: WalkBetween(edges, p, a, b)
  }

  ghost predicate Acyclic<T(!new)>(edges: set<(T, T)>) {
    forall a, b :: (a, b) in edges ==> !Reaches(edges, b, a)
  }

  lemma ReachesSelf<T(!new)>(edges: set<(T, T)>, a: T)
    ensures Reaches(edges, a, a)
  {
    assert WalkBetween(edges, [a], a, a);
  }

  lemma ReachesAcross<T(!new)>(edges: set<(T, T)>, a: T, b: T)
    requires (a, b) in edges
    ensures Reaches(edges, a, b)
  {
    assert WalkBetween(edges, [a, b], a, b);
  }

  lemma ReachesOn<T(!new)>(edges: set<(T, T)>, a: T, b: T, c: T)
    requires Reaches(edges, a, b) && Reaches(edges, b, c)
    ensures Reaches(edges, a, c)
  {
    var p :| WalkBetween(edges, p, a, b);
    var q :| WalkBetween(edges, q, b, c);
    var r := p + q[1..];
    forall i | 0 < i < |r| ensures (r[i - 1], r[i]) in edges {
      if i >= |p| { assert r[i] == q[i - |p| + 1] && r[i - 1] == q[i - |p|]; }
    }
    assert WalkBetween(edges, r, a, c);
  }

  lemma ReachesMore<T(!new)>(edges: set<(T, T)>, more: set<(T, T)>, a: T, b: T)
    requires edges <= more && Reaches(edges, a, b)
    ensures Reaches(more, a, b)
  {
    var p :| WalkBetween(edges, p, a, b);
    assert WalkBetween(more, p, a, b);
  }

  /** What a closed set holds, it holds with everything reached. */
  lemma ClosedReaches<T(!new)>(edges: set<(T, T)>, s: set<T>, a: T, b: T)
    requires a in s && Reaches(edges, a, b)
    requires forall x, y :: (x, y) in edges && x in s ==> y in s
    ensures b in s
  {
    var p :| WalkBetween(edges, p, a, b);
    var i := 1;
    while i < |p|
      invariant 1 <= i <= |p|
      invariant p[i - 1] in s
    {
      assert (p[i - 1], p[i]) in edges;
      i := i + 1;
    }
  }

  /** A walk either stays on the old edges or crosses a new one. */
  lemma NewEdgeOnWalk<T(!new)>(edges: set<(T, T)>, more: set<(T, T)>, p: seq<T>, a: T, b: T)
    requires WalkBetween(more, p, a, b)
    ensures Reaches(edges, a, b)
      || exists x, y :: (x, y) in more - edges && Reaches(more, a, x) && Reaches(more, y, b)
  {
    if i :| 0 < i < |p| && (p[i - 1], p[i]) !in edges {
      assert WalkBetween(more, p[..i], a, p[i - 1]);
      assert WalkBetween(more, p[i..], p[i], b) by {
        forall j | 0 < j < |p[i..]| ensures (p[i..][j - 1], p[i..][j]) in more {
          assert (p[i + j - 1], p[i + j]) in more;
        }
      }
      assert (p[i - 1], p[i]) in more - edges;
    } else {
      assert WalkBetween(edges, p, a, b);
    }
  }

  /** Checking only the new edges is enough. */
  lemma AcyclicGrown<T(!new)>(edges: set<(T, T)>, more: set<(T, T)>)
    requires Acyclic(edges) && edges <= more
    requires forall a, b :: (a, b) in more - edges ==> !Reaches(more, b, a)
    ensures Acyclic(more)
  {
    forall a, b | (a, b) in edges && Reaches(more, b, a) ensures false {
      var p :| WalkBetween(more, p, b, a);
      NewEdgeOnWalk(edges, more, p, b, a);
      var x, y :| (x, y) in more - edges && Reaches(more, b, x) && Reaches(more, y, a);
      ReachesAcross(more, a, b);
      ReachesOn(more, y, a, b);
      ReachesOn(more, y, b, x);
    }
  }

  lemma AcyclicPart<T(!new)>(edges: set<(T, T)>, part: set<(T, T)>)
    requires Acyclic(edges) && part <= edges
    ensures Acyclic(part)
  {
    forall a, b | (a, b) in part && Reaches(part, b, a) ensures false {
      ReachesMore(part, edges, b, a);
    }
  }

  function Next<T(==, !new)>(edges: set<(T, T)>, x: T): (r: set<T>)
    ensures forall y :: y in r <==> (x, y) in edges
  {
    var r := set e | e in edges && e.0 == x :: e.1;
    assert forall y :: (x, y) in edges ==> (x, y).1 in r;
    r
  }

  ghost function Targets<T>(edges: set<(T, T)>): set<T> { set e | e in edges :: e.1 }

  lemma NextIsTarget<T(!new)>(edges: set<(T, T)>, x: T)
    ensures Next(edges, x) <= Targets(edges)
  {
    forall y | y in Next(edges, x) ensures y in Targets(edges) { assert (x, y) in edges && (x, y).1 == y; }
  }

  ghost predicate ReachedFrom<T(!new)>(edges: set<(T, T)>, starts: set<T>, b: T) {
    exists a :: a in starts && Reaches(edges, a, b)
  }

  lemma StartReached<T(!new)>(edges: set<(T, T)>, starts: set<T>, a: T)
    requires a in starts
    ensures ReachedFrom(edges, starts, a)
  {
    ReachesSelf(edges, a);
  }

  lemma NextReached<T(!new)>(edges: set<(T, T)>, starts: set<T>, x: T, y: T)
    requires ReachedFrom(edges, starts, x) && (x, y) in edges
    ensures ReachedFrom(edges, starts, y)
  {
    var a :| a in starts && Reaches(edges, a, x);
    ReachesAcross(edges, x, y);
    ReachesOn(edges, a, x, y);
  }

  /** Everything reached from some starting points, found with a work list. */
  method Reached<T(!new, ==)>(edges: set<(T, T)>, starts: set<T>) returns (found: set<T>)
    ensures forall b :: b in found <==> ReachedFrom(edges, starts, b)
  {
    hide *;
    found := starts;
    var open := starts;
    forall a | a in starts ensures ReachedFrom(edges, starts, a) { StartReached(edges, starts, a); }
    while open != {}
      invariant starts <= found && open <= found
      invariant forall b :: b in found ==> ReachedFrom(edges, starts, b)
      invariant forall x, y :: (x, y) in edges && x in found - open ==> y in found
      invariant found <= starts + Targets(edges)
      decreases starts + Targets(edges) - found, open
    {
      var x :| x in open;
      var next := Next(edges, x) - found;
      NextIsTarget(edges, x);
      forall y | y in next ensures ReachedFrom(edges, starts, y) { NextReached(edges, starts, x, y); }
      found, open := found + next, open - {x} + next;
    }
    ClosedIsAll(edges, starts, found);
  }

  lemma ClosedIsAll<T(!new)>(edges: set<(T, T)>, starts: set<T>, found: set<T>)
    requires starts <= found && forall x, y :: (x, y) in edges && x in found ==> y in found
    ensures forall b :: ReachedFrom(edges, starts, b) ==> b in found
  {
    forall a, b | a in starts && Reaches(edges, a, b) ensures b in found { ClosedReaches(edges, found, a, b); }
  }
}
