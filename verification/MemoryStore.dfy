/**
 The store as an object over its tables, and what holds over every run of its entry points.
 The methods follow the code's loops; a refused call leaves the tables as they were.
 */
module MemoryStore {
  import opened Basics
  import opened Graphs
  import opened Kernel
  import opened KernelInvariant
  import opened KernelUndo
  import opened KernelContents
  import opened KernelAgent
  import opened HardDelete

  class Store {
    var projects: map<Id, bool>
    var rows: map<Id, Row>
    var versions: map<Ref, Version>
    var changes: map<Id, Change>

    constructor ()
      ensures Contents() == Tables(map[], map[], map[], map[])
    {
      projects, rows, versions, changes := map[], map[], map[], map[];
    }

    function Contents(): Tables
      reads this
    {
      Tables(projects, rows, versions, changes)
    }

    method Commit(t: Tables)
      modifies this
      ensures Contents() == t
    {
      projects, rows, versions, changes := t.projects, t.rows, t.versions, t.changes;
    }

    /** `apply`: carried out exactly where every operation may be, each writing the version it asks for. */
    method Apply(ops: seq<Op>, c: Call) returns (r: Result<Change, Error>)
      modifies this
      ensures var spec := ApplyOps(old(Contents()), ops, None, c, None);
              && (spec.Ok? ==> Contents() == spec.value.0 && r == Ok(spec.value.1))
              && (spec.Err? ==> Contents() == old(Contents()) && r == Err(spec.error))
      ensures Inv(old(Contents())) ==>
                && (r.Ok? <==> Acceptable(old(Contents()), ops, None, c))
                && (r.Ok? ==> Inv(Contents()) && Recorded(old(Contents()), Contents(), ops, c, r.value, None))
                && (r.Err? && AllApart(ops, c) ==> Justified(old(Contents()), ops, None, c, r.error))
    {
      hide Inv, Acceptable, Recorded, AllApart, Justified, ApplyOps;
      if Inv(Contents()) { ChangeDecides(Contents(), ops, None, c, None); }
      var applied := ChangeOf(Contents(), ops, None, c, None);
      match applied
      case Err(e) => r := Err(e);
      case Ok((t, change)) =>
        Commit(t);
        r := Ok(change);
    }

    /** `undo`: refused for a change that is not there, has lost a step or was followed by another, and for nothing else but the policy. */
    method UndoChange(changeId: Id, c: Call) returns (r: Result<Change, Error>)
      modifies this
      ensures var spec := Undo(old(Contents()), changeId, c);
              && (spec.Ok? ==> Contents() == spec.value.0 && r == Ok(spec.value.1))
              && (spec.Err? ==> Contents() == old(Contents()) && r == Err(spec.error))
      ensures Inv(old(Contents())) ==>
                && (KernelUndo.Standing(old(Contents()), changeId) ==> Undoable(old(Contents()), old(changes)[changeId].steps))
                && Decided(old(Contents()), changeId, c, r)
                && (r.Ok? ==> AllBack(old(Contents()), Contents(), old(changes)[changeId].steps, r.value.steps, |old(changes)[changeId].steps|))
    {
      hide Inv, Undo, ApplyOps, Moved, Decided, AllBack, Undoable, KernelUndo.Standing;
      if Inv(Contents()) {
        UndoDecides(Contents(), changeId, c);
        DecidedAlike(Contents(), changeId, c, Undo(Contents(), changeId, c));
        UndoneBack(Contents(), changeId, c);
      }
      UndoParts(Contents(), changeId, c);
      var t := Contents();
      if changeId !in t.changes { return Err(UndoRefused(NotFound)); }
      var change := t.changes[changeId];
      if |change.steps| < change.stepCount { return Err(UndoRefused(HardDeleted)); }
      if Moved(t, change) != {} { return Err(UndoRefused(Changed(Moved(t, change)))); }
      var applied := ChangeOf(t, Inverses(change.steps), None, c, Some(changeId));
      match applied
      case Err(e) => r := Err(e);
      case Ok((t', undo)) =>
        Commit(t');
        r := Ok(undo);
    }

    /** `write`. */
    method AgentWrite(op: Op, rw: ReadWriteSet, c: Call) returns (r: Result<Row, Error>)
      modifies this
      ensures var spec := Write(old(Contents()), op, rw, c);
              && (spec.Ok? ==> Contents() == spec.value.0 && r == Ok(spec.value.1))
              && (spec.Err? ==> Contents() == old(Contents()) && r == Err(spec.error))
      ensures Inv(old(Contents())) && Sendable(old(Contents()), op, c) ==>
                && (r.Err? ==> Contents() == old(Contents()))
                && Answers(old(Contents()), op, rw, c, if r.Ok? then Ok((Contents(), r.value)) else Err(r.error))
    {
      hide Inv, Sendable, Answers, ApplyOps;
      if Inv(Contents()) && Sendable(Contents(), op, c) { KernelAgent.AgentWrite(Contents(), op, rw, c); }
      if op.Restore? || (op.Create? && op.cites != []) || (op.Update? && op.newCites.Some?) { return Err(BadValue); }
      var t := Contents();
      var applied := ChangeOf(t, [op], Some(rw), c, None);
      var outcome: Result<(Tables, Row), Error>;
      match applied {
        case Ok((t', change)) =>
          outcome := WithRow(t', if change.steps == [] then c.newId(0) else change.steps[0].memory);
        case Err(e) =>
          outcome := if e.BatchConflict? && e.reason.SameState? && !op.Create? then WithRow(t, op.memory) else Err(e);
      }
      match outcome
      case Err(e) => r := Err(e);
      case Ok((t', row)) =>
        Commit(t');
        r := Ok(row);
    }

    /** `plan_hard_delete`: the frontier's referrers join the plan until none is new. */
    method PlanHardDelete(target: Id) returns (r: Result<Plan, Error>)
      requires Sound(Contents())
      ensures r == if target in rows then Ok(PlanOf(Contents(), target)) else Err(MemoryNotFound(target))
    {
      if target !in rows { return Err(MemoryNotFound(target)); }
      var plan := FindPlan(Contents(), target);
      r := Ok(plan);
    }

    /** `hard_delete`: the plan is computed again and must be the confirmed one. */
    method HardDelete(target: Id, expected: Option<set<(Id, int)>>, code: Option<string>, hash: set<(Id, int)> -> string)
      returns (r: Result<set<Id>, Error>)
      requires Sound(Contents())
      modifies this
      ensures var spec := Delete(old(Contents()), target, expected, code, hash);
              && (spec.Ok? ==> Contents() == spec.value && r == Ok(Members(old(Contents()), target)))
              && (spec.Err? ==> Contents() == old(Contents()) && r == Err(spec.error))
    {
      var planned := PlanHardDelete(target);
      match planned
      case Err(e) => r := Err(e);
      case Ok(plan) =>
        var pairs := Expected(Contents(), plan.members);
        if (expected.Some? && expected.value != pairs) || (code.Some? && code.value != hash(pairs)) {
          r := Err(PlanChanged(plan));
        } else {
          Commit(Removed(Contents(), plan.members));
          r := Ok(plan.members);
        }
    }

    /** `touch_read`: the later of the two times stays; a memory that is deleted or not there is left alone. */
    method Touch(id: Id, at: Time)
      modifies this
      ensures Contents() == TouchRead(old(Contents()), id, at)
      ensures projects == old(projects) && versions == old(versions) && changes == old(changes)
      ensures if id !in old(rows) || old(rows)[id].deletedAt.Some? then rows == old(rows)
              else
                && id in rows && rows == old(rows)[id := old(rows)[id].(lastRead := rows[id].lastRead)]
                && rows[id].lastRead.Some? && rows[id].lastRead.value >= at
                && (old(rows)[id].lastRead.Some? ==> rows[id].lastRead.value >= old(rows)[id].lastRead.value)
                && (rows[id].lastRead == Some(at) || rows[id].lastRead == old(rows)[id].lastRead)
    {
      Commit(TouchRead(Contents(), id, at));
    }
  }

  /** `apply_ops`, on a working copy. */
  method ChangeOf(t: Tables, ops: seq<Op>, rw: Option<ReadWriteSet>, c: Call, undoes: Option<Id>)
    returns (r: Result<(Tables, Change), Error>)
    ensures r == ApplyOps(t, ops, rw, c, undoes)
  {
    hide Applied;
    hide LoopingFrom;
    hide Kernel.Valid;
    var id := c.newId(0);
    if !Kernel.Valid(c, ops) { return Err(BadValue); }
    if id in t.changes { return Err(IdCollision(id)); }
    var applied := ApplyEach(Batch(t, id, map[], []), ops, rw, c);
    match applied
    case Err(e) => r := Err(e);
    case Ok((b, steps)) =>
      var loop := RefuseCycles(b.tables, b.cited);
      if loop.Some? { return Err(BatchConflict(loop.value.0, Some(loop.value.1.memory), Cycle)); }
      if TwiceTouched(steps) { return Err(StorageFailure); }
      var change := Change(c.now, c.changedBy, c.changedVia, |ops|, undoes, steps);
      r := Ok((b.tables.(changes := t.changes[id := change]), change));
  }

  /** The operations one after the other, up to the first refusal. */
  method ApplyEach(start: Batch, ops: seq<Op>, rw: Option<ReadWriteSet>, c: Call) returns (r: Result<(Batch, seq<Step>), Error>)
    ensures r == Applied(start, c, rw, ops, |ops|)
  {
    hide ApplyOne;
    var b, steps := start, [];
    var index := 0;
    while index < |ops|
      invariant 0 <= index <= |ops|
      invariant Applied(start, c, rw, ops, index) == Ok((b, steps))
    {
      match ApplyOne(b, c, rw, index, ops[index])
      case Err(e) =>
        FirstRefusal(start, c, rw, ops, index + 1, |ops|);
        return Err(e);
      case Ok((next, step)) =>
        b, steps := next, steps + [step];
        index := index + 1;
    }
    r := Ok((b, steps));
  }

  lemma FirstRefusal(b: Batch, c: Call, rw: Option<ReadWriteSet>, ops: seq<Op>, n: nat, m: nat)
    requires n <= m <= |ops| && Applied(b, c, rw, ops, n).Err?
    ensures Applied(b, c, rw, ops, m) == Err(Applied(b, c, rw, ops, n).error)
  {
    hide ApplyOne;
    if n < m { FirstRefusal(b, c, rw, ops, n, m - 1); }
  }

  /** `_refuse_cycles`: from the sources of each new version, does a walk come back? */
  method RefuseCycles(t: Tables, cited: seq<(nat, Ref)>) returns (loop: Option<(nat, Ref)>)
    ensures loop == LoopingFrom(t, cited)
  {
    var i := 0;
    assert cited[0..] == cited;
    while i < |cited|
      invariant 0 <= i <= |cited|
      invariant LoopingFrom(t, cited) == LoopingFrom(t, cited[i..])
    {
      var k := cited[i].1;
      var starts := set r | r in SourcesOf(t, k) :: r.memory;
      var reached := Reached(Edges(t), starts);
      LoopsIff(t, k, starts);
      assert cited[i..][0] == cited[i] && cited[i..][1..] == cited[i + 1..];
      hide Loops;
      hide Edges;
      if k.memory in reached { return Some(cited[i]); }
      i := i + 1;
    }
    return None;
  }

  lemma LoopsIff(t: Tables, k: Ref, starts: set<Id>)
    requires starts == set r | r in SourcesOf(t, k) :: r.memory
    ensures Loops(t, k) <==> ReachedFrom(Edges(t), starts, k.memory)
  {
    hide Edges;
    if Loops(t, k) {
      var r :| r in SourcesOf(t, k) && Reaches(Edges(t), r.memory, k.memory);
      assert r.memory in starts;
    }
  }

  // ---- the plan's loop -----------------------------------------------------------------

  /** The loop of `_plan`. */
  method FindPlan(t: Tables, target: Id) returns (plan: Plan)
    requires Sound(t) && target in t.rows
    ensures plan == PlanOf(t, target)
  {
    hide *;
    PlanIsLeast(t, target);
    FirstMember(t, target);
    var members, frontier := {target}, {target};
    var citations: set<(Ref, Ref)> := {};
    while frontier != {}
      invariant target in members && frontier <= members && members <= Members(t, target)
      invariant citations == CitationsOf(t, members - frontier)
      invariant Referrers(citations) <= members
      decreases Members(t, target) - members, frontier
    {
      var cited :| cited in frontier;
      var found := CitationsOf(t, {cited});
      var joining := Referrers(found) - members;
      FoundMembers(t, target, cited);
      CitationsMore(t, members - frontier, cited);
      ReferrersMore(citations, found);
      assert members + joining - (frontier - {cited} + joining) == members - frontier + {cited};
      citations := citations + found;
      members, frontier := members + joining, frontier - {cited} + joining;
    }
    assert members - frontier == members;
    PlanComplete(t, members);
    plan := Plan(target, members, citations);
    PlanIs(t, target);
    assert Closed(t, members);
  }

  lemma PlanIs(t: Tables, target: Id)
    ensures PlanOf(t, target) == Plan(target, Members(t, target), CitationsOf(t, Members(t, target)))
  {
  }

  function Referrers(citations: set<(Ref, Ref)>): set<Id> { set c | c in citations :: c.0.memory }

  lemma FirstMember(t: Tables, target: Id)
    ensures Referrers({}) == {} && CitationsOf(t, {target} - {target}) == {}
  {
  }

  lemma CitationsMore(t: Tables, s: set<Id>, cited: Id)
    ensures CitationsOf(t, s + {cited}) == CitationsOf(t, s) + CitationsOf(t, {cited})
  {
  }

  lemma ReferrersMore(a: set<(Ref, Ref)>, b: set<(Ref, Ref)>)
    ensures Referrers(a + b) == Referrers(a) + Referrers(b)
  {
  }

  lemma FoundMembers(t: Tables, target: Id, cited: Id)
    requires cited in Members(t, target) && Closed(t, Members(t, target))
    ensures Referrers(CitationsOf(t, {cited})) <= Members(t, target)
  {
    hide Members;
  }

  lemma PlanComplete(t: Tables, members: set<Id>)
    requires Referrers(CitationsOf(t, members)) <= members
    ensures Closed(t, members)
  {
    forall k, r | k in t.versions && r in t.versions[k].state.sources && r.memory in members ensures k.memory in members {
      assert (k, r) in CitationsOf(t, members) && (k, r).0.memory == k.memory;
    }
  }
}
