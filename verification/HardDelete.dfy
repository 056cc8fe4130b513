/**
 Hard delete: the plan is the least set of memories that can go together, and taking it
 leaves a store without dangling citations, in which exactly the changes that touched a
 member can no longer be undone.
 */
module HardDelete {
  import opened Basics
  import opened Graphs
  import opened Kernel
  import opened KernelInvariant

  /** Nothing outside cites anything inside. */
  ghost predicate Closed(t: Tables, s: set<Id>) {
    forall k, r :: k in t.versions && r in t.versions[k].state.sources && r.memory in s ==> k.memory in s
  }

  /** Every memory from which citations lead to the target. */
  ghost function Members(t: Tables, target: Id): set<Id> {
    set m | m in t.rows && Reaches(Edges(t), m, target)
  }

  /** Every source row that cites a member. */
  function CitationsOf(t: Tables, members: set<Id>): set<(Ref, Ref)> {
    set k, r | k in t.versions && r in t.versions[k].state.sources && r.memory in members :: (k, r)
  }

  ghost function PlanOf(t: Tables, target: Id): Plan {
    Plan(target, Members(t, target), CitationsOf(t, Members(t, target)))
  }

  /** The memories with their current versions, which is what a confirmation names. */
  function Expected(t: Tables, members: set<Id>): set<(Id, int)> {
    set m | m in members && m in t.rows :: (m, t.rows[m].version)
  }

  function StoredSteps(steps: seq<Step>, gone: set<Id>): (r: seq<Step>)
    ensures |r| <= |steps| && (|r| == |steps| <==> forall s :: s in steps ==> s.memory !in gone)
    ensures forall s :: s in r <==> s in steps && s.memory !in gone
  {
    if steps == [] then []
    else
      assert steps == [steps[0]] + steps[1..];
      if steps[0].memory in gone then StoredSteps(steps[1..], gone)
      else [steps[0]] + StoredSteps(steps[1..], gone)
  }

  /** The rows of the members go, with their versions and steps; the changes stay. */
  function Removed(t: Tables, gone: set<Id>): Tables {
    Tables(t.projects,
           map m | m in t.rows && m !in gone :: t.rows[m],
           map k | k in t.versions && k.memory !in gone :: t.versions[k],
           map c | c in t.changes :: t.changes[c].(steps := StoredSteps(t.changes[c].steps, gone)))
  }

  /** `hard_delete`; `hash` stands for the digest of the confirmed pairs. */
  ghost function Delete(t: Tables, target: Id, expected: Option<set<(Id, int)>>, code: Option<string>,
                        hash: set<(Id, int)> -> string): Result<Tables, Error>
  {
    if target !in t.rows then Err(MemoryNotFound(target))
    else
      var members := Members(t, target);
      var pairs := Expected(t, members);
      if (expected.Some? && expected.value != pairs) || (code.Some? && code.value != hash(pairs)) then
        Err(PlanChanged(PlanOf(t, target)))
      else Ok(Removed(t, members))
  }

  // ---- the plan ------------------------------------------------------------------------

  /** The plan holds the target, is closed, and is within every closed set that holds the target. */
  lemma {:induction false} PlanIsLeast(t: Tables, target: Id)
    requires Sound(t) && target in t.rows
    ensures target in Members(t, target) && Closed(t, Members(t, target))
    ensures forall s :: target in s && Closed(t, s) ==> Members(t, target) <= s
  {
    ReachesSelf(Edges(t), target);
    forall k, r | k in t.versions && r in t.versions[k].state.sources && r.memory in Members(t, target)
      ensures k.memory in Members(t, target)
    {
      assert (k.memory, r.memory) in Edges(t);
      ReachesAcross(Edges(t), k.memory, r.memory);
      ReachesOn(Edges(t), k.memory, r.memory, target);
    }
    forall s, m | target in s && Closed(t, s) && m in Members(t, target) ensures m in s {
      ClosedBackwards(t, s, m, target);
    }
  }

  lemma ClosedBackwards(t: Tables, s: set<Id>, m: Id, target: Id)
    requires target in s && Closed(t, s) && Reaches(Edges(t), m, target)
    ensures m in s
  {
    var p :| WalkBetween(Edges(t), p, m, target);
    var i := |p| - 1;
    while i > 0
      invariant 0 <= i < |p| && p[i] in s
    {
      assert (p[i - 1], p[i]) in Edges(t);
      i := i - 1;
    }
  }

  /** Any set that holds the target and can be taken without a dangling citation holds the plan. */
  lemma NoSmallerPlan(t: Tables, target: Id, gone: set<Id>)
    requires Sound(t) && target in t.rows && target in gone
    ensures SourcesOk(Removed(t, gone)) <==> Closed(t, gone)
    ensures SourcesOk(Removed(t, gone)) ==> Members(t, target) <= gone
  {
    var t' := Removed(t, gone);
    if SourcesOk(t') {
      forall k, r | k in t.versions && r in t.versions[k].state.sources && r.memory in gone ensures k.memory in gone {
        CitesWhatStays(t, gone, k, r);
      }
    }
    if Closed(t, gone) { RemovedSources(t, gone); }
    PlanIsLeast(t, target);
  }

  lemma CitesWhatStays(t: Tables, gone: set<Id>, k: Ref, r: Ref)
    requires SourcesOk(Removed(t, gone)) && k in t.versions && r in t.versions[k].state.sources
    ensures k.memory in gone || r.memory !in gone
  {
    var t' := Removed(t, gone);
    assert k.memory !in gone ==> k in t'.versions && CitesOk(t', t.versions[k].state);
  }

  // ---- the deletion --------------------------------------------------------------------

  lemma RemovedSources(t: Tables, gone: set<Id>)
    requires SourcesOk(t) && Closed(t, gone)
    ensures SourcesOk(Removed(t, gone))
  {
    var t' := Removed(t, gone);
    forall k | k in t'.versions ensures CitesOk(t', t'.versions[k].state) {
      assert CitesOk(t, t.versions[k].state);
    }
  }

  lemma RemovedRows(t: Tables, gone: set<Id>)
    requires RowsOk(t)
    ensures RowsOk(Removed(t, gone))
  {
    var t' := Removed(t, gone);
    forall m | m in t'.rows ensures RowOk(t', m) { assert RowOk(t, m); }
  }

  lemma RemovedChanges(t: Tables, gone: set<Id>)
    requires ChangesOk(t)
    ensures ChangesOk(Removed(t, gone))
  {
    var t' := Removed(t, gone);
    forall c | c in t'.changes ensures ChangeOk(t', t'.changes[c]) {
      assert ChangeOk(t, t.changes[c]);
      StoredOnce(t.changes[c].steps, gone);
      forall s | s in t'.changes[c].steps ensures StepOk(t', s) { assert StepOk(t, s); }
    }
  }

  lemma StoredOnce(steps: seq<Step>, gone: set<Id>)
    requires !TwiceTouched(steps)
    ensures !TwiceTouched(StoredSteps(steps, gone))
  {
    if steps != [] {
      var rest, stored := steps[1..], StoredSteps(steps[1..], gone);
      assert steps == [steps[0]] + rest;
      TwiceInFront(steps[0], rest);
      TwiceInFront(steps[0], stored);
      StoredOnce(rest, gone);
    }
  }

  lemma TwiceInFront(s: Step, rest: seq<Step>)
    ensures TwiceTouched([s] + rest) <==> Touches(rest, s.memory) || TwiceTouched(rest)
  {
    var steps := [s] + rest;
    assert forall i :: 0 < i < |steps| ==> steps[i] == rest[i - 1];
    if Touches(rest, s.memory) {
      var i :| 0 <= i < |rest| && rest[i].memory == s.memory;
      assert steps[0].memory == steps[i + 1].memory;
    }
    if TwiceTouched(rest) {
      var i, j :| 0 <= i < j < |rest| && rest[i].memory == rest[j].memory;
      assert steps[i + 1].memory == steps[j + 1].memory;
    }
    if TwiceTouched(steps) && !Touches(rest, s.memory) {
      var i, j :| 0 <= i < j < |steps| && steps[i].memory == steps[j].memory;
      assert rest[j - 1] in rest && steps[j] == rest[j - 1];
      assert rest[i - 1].memory == rest[j - 1].memory;
    }
  }

  lemma RemovedEdges(t: Tables, gone: set<Id>)
    ensures Edges(Removed(t, gone)) <= Edges(t)
  {
    var t' := Removed(t, gone);
    forall x, y | (x, y) in Edges(t') ensures (x, y) in Edges(t) {
      EdgeIs(t', x, y);
      var k, r :| k in t'.versions && r in t'.versions[k].state.sources && k.memory == x && r.memory == y;
      assert k in t.versions && r in t.versions[k].state.sources;
    }
  }

  /**
   A hard delete happens exactly when the plan is the confirmed one. It takes the members
   with all their versions and leaves every other row and version as it was; the invariant
   holds, so no citation dangles; and the changes that can no longer be undone are those
   that already could not and those that touched a member.
   */
  lemma {:induction false} DeleteIsExact(t: Tables, target: Id, expected: Option<set<(Id, int)>>, code: Option<string>,
                                         hash: set<(Id, int)> -> string)
    requires Inv(t)
    ensures var r, members := Delete(t, target, expected, code, hash), Members(t, target);
            && (r.Ok? <==> target in t.rows && (expected.Some? ==> expected.value == Expected(t, members))
                           && (code.Some? ==> code.value == hash(Expected(t, members))))
            && (r.Ok? ==>
                  && Inv(r.value)
                  && (forall m :: m in r.value.rows <==> m in t.rows && m !in members)
                  && (forall m :: m in r.value.rows ==> r.value.rows[m] == t.rows[m])
                  && (forall k :: k in r.value.versions <==> k in t.versions && k.memory !in members)
                  && (forall k :: k in r.value.versions ==> r.value.versions[k] == t.versions[k])
                  && (forall c :: c in r.value.changes <==> c in t.changes)
                  && (forall c :: c in t.changes ==>
                        (|r.value.changes[c].steps| < r.value.changes[c].stepCount
                         <==> |t.changes[c].steps| < t.changes[c].stepCount || exists s :: s in t.changes[c].steps && s.memory in members)))
  {
    if target in t.rows {
      var members := Members(t, target);
      PlanIsLeast(t, target);
      RemovedSources(t, members);
      RemovedRows(t, members);
      RemovedChanges(t, members);
      RemovedEdges(t, members);
      AcyclicPart(Edges(t), Edges(Removed(t, members)));
      RemovedKeys(t, members);
      forall c | c in t.changes ensures |t.changes[c].steps| <= t.changes[c].stepCount { assert ChangeOk(t, t.changes[c]); }
    }
    hide Members;
    hide ChangesOk;
    hide RowsOk;
    hide KeysOk;
    hide SourcesOk;
    hide Edges;
    hide Acyclic;
  }

  /** What is confirmed is each member with its version; what a refusal shows is the plan and every citation that is why. */
  lemma RefusedShown(t: Tables, target: Id, expected: Option<set<(Id, int)>>, code: Option<string>, hash: set<(Id, int)> -> string)
    ensures var r, members := Delete(t, target, expected, code, hash), Members(t, target);
            && (forall m: Id, n: int :: (m, n) in Expected(t, members) <==> m in members && m in t.rows && n == t.rows[m].version)
            && (r.Err? ==> if target !in t.rows then r.error == MemoryNotFound(target)
                           else r.error.PlanChanged? && r.error.plan.target == target && r.error.plan.members == members
                                && forall k, v :: (k, v) in r.error.plan.citations <==> k in t.versions && v in SourcesOf(t, k) && v.memory in members)
  {
    hide Members;
    CitationsAre(t, Members(t, target));
  }

  lemma CitationsAre(t: Tables, members: set<Id>)
    ensures forall k, v :: (k, v) in CitationsOf(t, members) <==> k in t.versions && v in SourcesOf(t, k) && v.memory in members
  {
  }

  lemma RemovedKeys(t: Tables, gone: set<Id>)
    requires KeysOk(t)
    ensures KeysOk(Removed(t, gone))
  {
  }
}
