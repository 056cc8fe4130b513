/**
 What holds over every run of the store, and what the agent path can do and learn.
 */
module KernelRuns {
  import opened Basics
  import opened Graphs
  import opened Kernel
  import opened KernelInvariant
  import opened KernelUndo
  import opened HardDelete

  datatype Event =
    | AddProject(id: Id, isGlobal: bool)
    | Applying(ops: seq<Op>, call: Call)
    | Undoing(change: Id, call: Call)
    | AgentWriting(op: Op, rw: ReadWriteSet, call: Call)
    | HardDeleting(target: Id, expected: Option<set<(Id, int)>>, code: Option<string>, hash: set<(Id, int)> -> string)
    | Reading(memory: Id, at: Time)

  function Landed<T>(t: Tables, r: Result<(Tables, T), Error>): Tables { if r.Ok? then r.value.0 else t }

  /** The tables after one call, refused or not. */
  ghost function After(t: Tables, e: Event): Tables {
    match e
    case AddProject(id, isGlobal) => if id in t.projects then t else t.(projects := t.projects[id := isGlobal])
    case Applying(ops, c) => Landed(t, ApplyOps(t, ops, None, c, None))
    case Undoing(change, c) => Landed(t, Undo(t, change, c))
    case AgentWriting(op, rw, c) => Landed(t, Write(t, op, rw, c))
    case HardDeleting(target, expected, code, hash) =>
      var r := Delete(t, target, expected, code, hash); if r.Ok? then r.value else t
    case Reading(id, at) => TouchRead(t, id, at)
  }

  ghost function Run(t: Tables, events: seq<Event>): Tables
    decreases |events|
  {
    if events == [] then t else After(Run(t, events[..|events| - 1]), events[|events| - 1])
  }

  /** Rows alike in all the invariant speaks of. */
  ghost predicate Alike(t: Tables, t': Tables) {
    && t'.versions == t.versions && t'.changes == t.changes
    && (forall p :: p in t.projects ==> p in t'.projects)
    && (forall m :: m in t'.rows <==> m in t.rows)
    && forall m :: m in t.rows ==>
         && t'.rows[m].version == t.rows[m].version && t'.rows[m].project == t.rows[m].project
         && RowState(t'.rows[m], []) == RowState(t.rows[m], [])
  }

  lemma AlikeRows(t: Tables, t': Tables)
    requires Alike(t, t') && RowsOk(t)
    ensures RowsOk(t')
  {
    forall m | m in t'.rows ensures RowOk(t', m) {
      assert RowOk(t, m);
      assert RowState(t'.rows[m], []) == RowState(t.rows[m], []);
    }
  }

  lemma AlikeSources(t: Tables, t': Tables)
    requires Alike(t, t') && SourcesOk(t)
    ensures SourcesOk(t')
  {
    forall k | k in t'.versions ensures CitesOk(t', t'.versions[k].state) { assert CitesOk(t, t.versions[k].state); }
  }

  lemma AlikeChanges(t: Tables, t': Tables)
    requires Alike(t, t') && ChangesOk(t)
    ensures ChangesOk(t')
  {
    forall c | c in t'.changes ensures ChangeOk(t', t'.changes[c]) { ChangeDespite(t, t', t.changes[c]); }
  }

  lemma AlikeKeeps(t: Tables, t': Tables)
    requires Inv(t) && Alike(t, t')
    ensures Inv(t')
  {
    AlikeRows(t, t');
    AlikeSources(t, t');
    AlikeChanges(t, t');
    assert Edges(t') == Edges(t);
    hide RowsOk;
    hide SourcesOk;
    hide ChangesOk;
    hide Acyclic;
  }

  lemma UndoKeeps(t: Tables, changeId: Id, c: Call)
    requires Inv(t)
    ensures Undo(t, changeId, c).Ok? ==> Inv(Undo(t, changeId, c).value.0)
  {
    if changeId in t.changes { ApplyKeeps(t, Inverses(t.changes[changeId].steps), None, c, Some(changeId)); }
    hide Inv;
    hide ApplyOps;
  }

  lemma WriteKeeps(t: Tables, op: Op, rw: ReadWriteSet, c: Call)
    requires Inv(t)
    ensures Write(t, op, rw, c).Ok? ==> Inv(Write(t, op, rw, c).value.0)
  {
    ApplyKeeps(t, [op], Some(rw), c, None);
    hide Inv;
    hide ApplyOps;
  }

  lemma UneventfulAlike(t: Tables, e: Event)
    requires e.AddProject? || e.Reading?
    ensures Alike(t, After(t, e))
  {
  }

  lemma AfterIs(t: Tables, e: Event)
    ensures e.Applying? ==> After(t, e) == Landed(t, ApplyOps(t, e.ops, None, e.call, None))
    ensures e.Undoing? ==> After(t, e) == Landed(t, Undo(t, e.change, e.call))
    ensures e.AgentWriting? ==> After(t, e) == Landed(t, Write(t, e.op, e.rw, e.call))
    ensures e.HardDeleting? ==> var r := Delete(t, e.target, e.expected, e.code, e.hash);
                                After(t, e) == if r.Ok? then r.value else t
  {
    hide ApplyOps;
    hide Undo;
    hide Write;
    hide Delete;
  }

  lemma LandedIs<T>(t: Tables, r: Result<(Tables, T), Error>)
    ensures Landed(t, r) == if r.Ok? then r.value.0 else t
  {
  }

  lemma {:induction false} AfterKeeps(t: Tables, e: Event)
    requires Inv(t)
    ensures Inv(After(t, e))
  {
    hide *;
    AfterIs(t, e);
    match e
    case AddProject(_, _) => UneventfulAlike(t, e); AlikeKeeps(t, After(t, e));
    case Reading(_, _) => UneventfulAlike(t, e); AlikeKeeps(t, After(t, e));
    case Applying(ops, c) => ApplyKeeps(t, ops, None, c, None); LandedIs(t, ApplyOps(t, ops, None, c, None));
    case Undoing(change, c) => UndoKeeps(t, change, c); LandedIs(t, Undo(t, change, c));
    case AgentWriting(op, rw, c) => WriteKeeps(t, op, rw, c); LandedIs(t, Write(t, op, rw, c));
    case HardDeleting(target, expected, code, hash) => DeleteIsExact(t, target, expected, code, hash);
  }

  lemma {:induction false} RunKeeps(t: Tables, events: seq<Event>)
    requires Inv(t)
    ensures Inv(Run(t, events))
    decreases |events|
  {
    hide Inv;
    hide After;
    if events != [] {
      RunKeeps(t, events[..|events| - 1]);
      AfterKeeps(Run(t, events[..|events| - 1]), events[|events| - 1]);
    }
  }

  const EMPTY: Tables := Tables(map[], map[], map[], map[])

  lemma EmptyInv()
    ensures Inv(EMPTY)
  {
    assert Edges(EMPTY) == {};
  }

  /** Each version of the walk cites the next. */
  ghost predicate Citing(t: Tables, p: seq<Ref>) {
    p != [] && p[0] in t.versions && forall i :: 0 < i < |p| ==> p[i] in SourcesOf(t, p[i - 1])
  }

  /** Citations never dangle, never gain trust or sharing, and never lead back. */
  lemma {:induction false} CitingDescends(t: Tables, p: seq<Ref>)
    requires Inv(t) && Citing(t, p)
    ensures p[|p| - 1] in t.versions && Below(t.versions[p[0]].state, t.versions[p[|p| - 1]].state)
    ensures |p| > 1 ==> p[0].memory != p[|p| - 1].memory
    ensures Reaches(Edges(t), p[0].memory, p[|p| - 1].memory)
    decreases |p|
  {
    if |p| == 1 {
      ReachesSelf(Edges(t), p[0].memory);
    } else {
      var rest := p[1..];
      var a, b, z := p[0], p[1], p[|p| - 1];
      FirstCite(t, a, b);
      assert forall i :: 0 < i < |rest| ==> rest[i] == p[i + 1] && rest[i - 1] == p[i];
      CitingDescends(t, rest);
      assert rest[|rest| - 1] == z;
      ReachesAcross(Edges(t), a.memory, b.memory);
      ReachesOn(Edges(t), a.memory, b.memory, z.memory);
      NeverBack(t, a.memory, b.memory, z.memory);
      hide *;
      BelowOn(t.versions[a].state, t.versions[b].state, t.versions[z].state);
    }
  }

  lemma BelowOn(a: State, b: State, c: State)
    requires Below(a, b) && Below(b, c)
    ensures Below(a, c)
  {
  }

  lemma NeverBack(t: Tables, a: Id, b: Id, z: Id)
    requires Inv(t) && (a, b) in Edges(t) && Reaches(Edges(t), b, z)
    ensures a != z
  {
    hide Edges;
  }

  lemma FirstCite(t: Tables, a: Ref, b: Ref)
    requires Inv(t) && a in t.versions && b in SourcesOf(t, a)
    ensures b in t.versions && Below(t.versions[a].state, t.versions[b].state) && (a.memory, b.memory) in Edges(t)
  {
    assert CitesOk(t, t.versions[a].state);
    EdgeIs(t, a.memory, b.memory);
  }

  /**
   In every store that any run of calls leaves: the versions of a memory are 1 to n and its
   row is version n; every walk of citations ends at a stored version that is trusted and
   shared at least as much as its start, and that belongs to another memory.
   */
  lemma {:induction false} EveryRun(events: seq<Event>)
    ensures var t := Run(EMPTY, events);
            && (forall k: Ref :: k in t.versions <==> k.memory in t.rows && 1 <= k.version <= t.rows[k.memory].version)
            && (forall m: Id :: m in t.rows ==>
                  && Ref(m, t.rows[m].version) in t.versions
                  && StateOf(t, m, t.rows[m]) == t.versions[Ref(m, t.rows[m].version)].state)
            && (forall p: seq<Ref> :: Citing(t, p) ==>
                  && p[|p| - 1] in t.versions && Below(t.versions[p[0]].state, t.versions[p[|p| - 1]].state)
                  && (|p| > 1 ==> p[0].memory != p[|p| - 1].memory))
  {
    EmptyInv();
    RunKeeps(EMPTY, events);
    var t := Run(EMPTY, events);
    forall p: seq<Ref> | Citing(t, p)
      ensures p[|p| - 1] in t.versions && Below(t.versions[p[0]].state, t.versions[p[|p| - 1]].state)
              && (|p| > 1 ==> p[0].memory != p[|p| - 1].memory)
    {
      CitingDescends(t, p);
    }
    InvSound(t);
    hide Inv;
    hide Run;
    forall m | m in t.rows ensures Ref(m, t.rows[m].version) in t.versions
                                   && StateOf(t, m, t.rows[m]) == t.versions[Ref(m, t.rows[m].version)].state
    {
      assert RowOk(t, m);
    }
  }
}
