/**
 Which projects a global memory traces back to (`traced_projects`): a work list over recorded
 sources, cyclic or not, with a cache per memory that never changes the answer.
 */
module TracedProjects {
  import opened Basics
  import opened Graphs
  import opened Kernel

  /** The versions of each stored memory, with their sources. */
  type History = map<Id, map<int, seq<Ref>>>

  function CitedBy(history: map<int, seq<Ref>>, version: int): seq<Ref> { if version in history then history[version] else [] }

  /** A reference whose sources are followed: of a global memory that is still there. */
  predicate Followed(owner: map<Id, Id>, global: Id, store: History, r: Ref) {
    r.memory in owner && owner[r.memory] == global && r.memory in store
  }

  /** From a followed version to each version it cites. */
  ghost function Trail(owner: map<Id, Id>, global: Id, store: History): set<(Ref, Ref)> {
    set m, v, r | m in store && v in store[m] && Followed(owner, global, store, Ref(m, v)) && r in store[m][v] :: (Ref(m, v), r)
  }

  lemma TrailIs(owner: map<Id, Id>, global: Id, store: History, a: Ref, b: Ref)
    ensures (a, b) in Trail(owner, global, store) <==>
              Followed(owner, global, store, a) && b in CitedBy(store[a.memory], a.version)
  {
    assert a == Ref(a.memory, a.version);
  }

  /** A reference to a memory that is gone. */
  predicate Lost(owner: map<Id, Id>, global: Id, store: History, r: Ref) {
    r.memory !in owner || (owner[r.memory] == global && r.memory !in store)
  }

  /** The answer, without a work list or a cache. */
  ghost predicate Answers(owner: map<Id, Id>, global: Id, store: History, starts: set<Ref>, answer: Option<set<Id>>) {
    var trail := Trail(owner, global, store);
    match answer
    case None => exists r :: ReachedFrom(trail, starts, r) && Lost(owner, global, store, r)
    case Some(found) =>
      && (forall r :: ReachedFrom(trail, starts, r) ==> !Lost(owner, global, store, r))
      && forall p :: p in found <==> exists r: Ref :: ReachedFrom(trail, starts, r) && r.memory in owner && owner[r.memory] == p && p != global
  }

  /** Everything reached is seen or still open. */
  ghost predicate UnderWay(trail: set<(Ref, Ref)>, starts: set<Ref>, seen: set<Ref>, open: set<Ref>) {
    && (forall r :: r in seen + open ==> ReachedFrom(trail, starts, r))
    && seen + open <= starts + Targets(trail) && starts <= seen + open
    && forall a, b :: (a, b) in trail && a in seen ==> b in seen + open
  }

  /** Nothing seen is lost, and `found` is the ordinary projects among it. */
  ghost predicate Noted(owner: map<Id, Id>, global: Id, store: History, seen: set<Ref>, found: set<Id>) {
    && (forall r :: r in seen ==> !Lost(owner, global, store, r))
    && forall p :: p in found <==> exists r: Ref :: r in seen && r.memory in owner && owner[r.memory] == p && p != global
  }

  function Open(stack: seq<Ref>): set<Ref> { set r | r in stack }

  lemma OpenJoined(stack: seq<Ref>, more: seq<Ref>)
    ensures Open(stack + more) == Open(stack) + Open(more)
  {
  }

  lemma Popped(stack: seq<Ref>)
    requires stack != []
    ensures Open(stack) == Open(stack[..|stack| - 1]) + {stack[|stack| - 1]}
  {
    assert stack == stack[..|stack| - 1] + [stack[|stack| - 1]];
  }

  lemma Started(trail: set<(Ref, Ref)>, starts: set<Ref>)
    ensures UnderWay(trail, starts, {}, starts)
  {
    forall r | r in starts ensures ReachedFrom(trail, starts, r) { StartReached(trail, starts, r); }
  }

  lemma Taken(trail: set<(Ref, Ref)>, starts: set<Ref>, seen: set<Ref>, open: set<Ref>, r: Ref, next: set<Ref>)
    requires UnderWay(trail, starts, seen, open + {r}) && forall b :: (r, b) in trail <==> b in next
    ensures UnderWay(trail, starts, seen + {r}, open + next) && ReachedFrom(trail, starts, r)
  {
    assert r in seen + (open + {r});
    forall b | b in next ensures ReachedFrom(trail, starts, b) && b in Targets(trail) {
      NextReached(trail, starts, r, b);
      NextIsTarget(trail, r);
    }
    hide ReachedFrom;
    hide Targets;
  }

  lemma ReachedOpen(trail: set<(Ref, Ref)>, starts: set<Ref>, seen: set<Ref>, open: set<Ref>, r: Ref)
    requires UnderWay(trail, starts, seen, open + {r})
    ensures ReachedFrom(trail, starts, r) && r in starts + Targets(trail)
    ensures r in seen ==> UnderWay(trail, starts, seen, open)
  {
    assert r in seen + (open + {r});
    if r in seen { assert seen + (open + {r}) == seen + open; }
    hide ReachedFrom;
    hide Targets;
  }

  /** `traced_projects`. */
  method Traced(owner: map<Id, Id>, global: Id, store: History, refs: seq<Ref>) returns (answer: Option<set<Id>>)
    ensures Answers(owner, global, store, Open(refs), answer)
  {
    hide *;
    ghost var trail, starts := Trail(owner, global, store), Open(refs);
    var found: set<Id> := {};
    var seen: set<Ref> := {};
    var history: History := map[];
    var stack := refs;
    Started(trail, starts);
    NothingNoted(owner, global, store);
    while stack != []
      invariant UnderWay(trail, starts, seen, Open(stack)) && Noted(owner, global, store, seen, found)
      invariant forall m :: m in history ==> m in store && history[m] == store[m]
      decreases starts + Targets(trail) - seen, |stack|
    {
      var ref := stack[|stack| - 1];
      Popped(stack);
      stack := stack[..|stack| - 1];
      ReachedOpen(trail, starts, seen, Open(stack), ref);
      if ref in seen { continue; }
      if ref.memory !in owner {
        LostAnswer(owner, global, store, starts, ref);
        return None;
      }
      if owner[ref.memory] != global {
        OrdinaryNoted(owner, global, store, seen, found, ref);
        Taken(trail, starts, seen, Open(stack), ref, {});
        assert Open(stack) + {} == Open(stack);
        seen, found := seen + {ref}, found + {owner[ref.memory]};
        continue;
      }
      if ref.memory !in history {
        if ref.memory !in store {
          LostAnswer(owner, global, store, starts, ref);
          return None;
        }
        history := history[ref.memory := store[ref.memory]];
      }
      var cited := CitedBy(history[ref.memory], ref.version);
      GlobalNoted(owner, global, store, seen, found, ref);
      Taken(trail, starts, seen, Open(stack), ref, Open(cited));
      OpenJoined(stack, cited);
      seen := seen + {ref};
      stack := stack + cited;
    }
    Finished(owner, global, store, starts, seen, found);
    return Some(found);
  }

  lemma NothingNoted(owner: map<Id, Id>, global: Id, store: History)
    ensures Noted(owner, global, store, {}, {})
  {
  }

  lemma OrdinaryNoted(owner: map<Id, Id>, global: Id, store: History, seen: set<Ref>, found: set<Id>, r: Ref)
    requires Noted(owner, global, store, seen, found) && r.memory in owner && owner[r.memory] != global
    ensures Noted(owner, global, store, seen + {r}, found + {owner[r.memory]})
    ensures forall b :: (r, b) !in Trail(owner, global, store)
  {
    forall b ensures (r, b) !in Trail(owner, global, store) { TrailIs(owner, global, store, r, b); }
    hide Trail;
    forall p ensures p in found + {owner[r.memory]} <==>
                       exists q: Ref :: q in seen + {r} && q.memory in owner && owner[q.memory] == p && p != global
    {
      if p == owner[r.memory] { assert r in seen + {r} && owner[r.memory] == p; }
    }
  }

  lemma GlobalNoted(owner: map<Id, Id>, global: Id, store: History, seen: set<Ref>, found: set<Id>, r: Ref)
    requires Noted(owner, global, store, seen, found) && r.memory in owner && owner[r.memory] == global && r.memory in store
    ensures Noted(owner, global, store, seen + {r}, found)
    ensures forall b :: (r, b) in Trail(owner, global, store) <==> b in Open(CitedBy(store[r.memory], r.version))
  {
    forall b ensures (r, b) in Trail(owner, global, store) <==> b in Open(CitedBy(store[r.memory], r.version)) {
      TrailIs(owner, global, store, r, b);
    }
    hide Trail;
  }

  lemma Finished(owner: map<Id, Id>, global: Id, store: History, starts: set<Ref>, seen: set<Ref>, found: set<Id>)
    requires UnderWay(Trail(owner, global, store), starts, seen, Open([])) && Noted(owner, global, store, seen, found)
    ensures Answers(owner, global, store, starts, Some(found))
  {
    var trail := Trail(owner, global, store);
    assert seen + Open([]) == seen;
    ClosedIsAll(trail, starts, seen);
    hide Trail;
    hide ReachedFrom;
    hide Lost;
  }

  lemma LostAnswer(owner: map<Id, Id>, global: Id, store: History, starts: set<Ref>, r: Ref)
    requires ReachedFrom(Trail(owner, global, store), starts, r)
    requires r.memory !in owner || (owner[r.memory] == global && r.memory !in store)
    ensures Answers(owner, global, store, starts, None)
  {
    hide Trail;
    hide ReachedFrom;
  }
}
