/**
 Undo is total and inverse: past its three checks only the content policy can refuse it, it
 gives every touched memory back the state from before the change, and undoing the undo
 gives back the state after it.
 */
module KernelUndo {
  import opened Basics
  import opened Graphs
  import opened Kernel
  import opened KernelInvariant

  /** Deleted if the change created the memory, else the recorded state from before it. */
  function StateBefore(t: Tables, s: Step): State
    requires Ref(s.memory, s.after) in t.versions && (s.before.Some? ==> Ref(s.memory, s.before.value) in t.versions)
  {
    if s.before.None? then t.versions[Ref(s.memory, s.after)].state.(deleted := true)
    else t.versions[Ref(s.memory, s.before.value)].state
  }

  predicate Refuses(c: Call, s: State) { c.check(s.description, s.body).Some? }

  /** The step an inverse makes. */
  predicate Reverses(made: Step, s: Step) {
    made.memory == s.memory && made.op != Created && made.before == Some(s.after) && made.after == s.after + 1
  }

  /** A memory of a step, at the version the step left it. */
  ghost predicate Ready(t: Tables, s: Step) {
    Sound(t) && StepOk(t, s) && s.memory in t.rows && t.rows[s.memory].version == s.after
  }

  lemma ReadyParts(t: Tables, s: Step)
    requires Ready(t, s)
    ensures Ref(s.memory, s.after) in t.versions && (s.before.Some? ==> Ref(s.memory, s.before.value) in t.versions)
    ensures s.memory in t.rows && Joined(t, s.memory, true) == Some(t.rows[s.memory]) && t.rows[s.memory].version == s.after
    ensures StateOf(t, s.memory, t.rows[s.memory]) == t.versions[Ref(s.memory, s.after)].state != StateBefore(t, s)
    ensures CitesOk(t, StateBefore(t, s))
    ensures s.op.Created? <==> s.before.None?
    ensures s.op.Created? ==> t.rows[s.memory].deletedAt.None?
  {
    assert RowOk(t, s.memory);
    assert CitesOk(t, t.versions[Ref(s.memory, s.after)].state);
  }

  lemma RestorePasses(b: Batch, c: Call, index: nat, s: Step, row: Row)
    requires Joined(b.tables, s.memory, true) == Some(row) && row.version == s.after && s.before.Some? && !s.op.Created?
    requires Ref(s.memory, s.before.value) in b.tables.versions
    requires CitesOk(b.tables, b.tables.versions[Ref(s.memory, s.before.value)].state)
    ensures ApplyOne(b, c, None, index, Inverse(s))
         == WriteVersion(b, c, index, Restored, s.memory, row, StateOf(b.tables, s.memory, row),
                         b.tables.versions[Ref(s.memory, s.before.value)].state)
  {
    hide WriteVersion;
    hide StateOf;
    hide Joined;
  }

  lemma DeletePasses(b: Batch, c: Call, index: nat, s: Step, row: Row)
    requires Joined(b.tables, s.memory, true) == Some(row) && row.version == s.after && s.op.Created? && row.deletedAt.None?
    ensures var before := StateOf(b.tables, s.memory, row);
            ApplyOne(b, c, None, index, Inverse(s))
            == WriteVersion(b, c, index, SoftDeleted, s.memory, row, before, before.(deleted := true))
  {
    hide WriteVersion;
    hide StateOf;
    hide Joined;
  }

  function InverseName(s: Step): OpName { if s.op.Created? then SoftDeleted else Restored }

  /** Nothing but the policy stands between an inverse and its new version. */
  lemma InverseWrites(b: Batch, c: Call, index: nat, s: Step)
    requires Ready(b.tables, s)
    ensures Ref(s.memory, s.after) in b.tables.versions && (s.before.Some? ==> Ref(s.memory, s.before.value) in b.tables.versions)
    ensures s.memory in b.tables.rows
    ensures var row := b.tables.rows[s.memory];
            && StateOf(b.tables, s.memory, row) != StateBefore(b.tables, s) && CitesOk(b.tables, StateBefore(b.tables, s))
            && ApplyOne(b, c, None, index, Inverse(s))
               == WriteVersion(b, c, index, InverseName(s), s.memory, row, StateOf(b.tables, s.memory, row), StateBefore(b.tables, s))
  {
    ReadyParts(b.tables, s);
    var row := b.tables.rows[s.memory];
    if s.op.Created? { DeletePasses(b, c, index, s, row); } else { RestorePasses(b, c, index, s, row); }
    hide ApplyOne;
    hide WriteVersion;
    hide Ready;
    hide CitesOk;
    hide Joined;
  }

  /** The new version of an inverse. */
  ghost predicate Gives(b: Batch, b': Batch, index: nat, s: Step, state: State, row: Row, was: Option<(int, bool)>) {
    && row.version == s.after + 1 && RowState(row, state.sources) == state && b' == Put(b, index, s.memory, row, state, was)
  }

  lemma InverseApplied(b: Batch, c: Call, index: nat, s: Step) returns (row: Row, was: Option<(int, bool)>)
    requires Ready(b.tables, s)
    ensures Ref(s.memory, s.after) in b.tables.versions && (s.before.Some? ==> Ref(s.memory, s.before.value) in b.tables.versions)
    ensures var state, r := StateBefore(b.tables, s), ApplyOne(b, c, None, index, Inverse(s));
            if Refuses(c, state) then r == Err(ContentRejected(c.check(state.description, state.body).value, Some(s.memory)))
            else r.Ok? && Reverses(r.value.1, s) && Gives(b, r.value.0, index, s, state, row, was)
  {
    ReadyParts(b.tables, s);
    InverseWrites(b, c, index, s);
    var current := b.tables.rows[s.memory];
    var before, state := StateOf(b.tables, s.memory, current), StateBefore(b.tables, s);
    row, was := current, Some((current.version, before.deleted));
    WriteOutcome(b, c, index, InverseName(s), s.memory, current, before, state);
    if !Refuses(c, state) {
      var step: Step;
      row, step := WriteParts(b, c, index, InverseName(s), s.memory, current, before, state);
    }
    hide WriteVersion;
    hide ApplyOne;
    hide Ready;
    hide CitesOk;
    hide Refuses;
    hide Put;
  }

  lemma WriteOutcome(b: Batch, c: Call, index: nat, op: OpName, id: Id, row: Row, before: State, after: State)
    requires before != after
    ensures Refuses(c, after) ==>
      c.check(after.description, after.body).Some?
      && WriteVersion(b, c, index, op, id, row, before, after)
         == Err(ContentRejected(c.check(after.description, after.body).value, Some(id)))
    ensures !Refuses(c, after) ==> WriteVersion(b, c, index, op, id, row, before, after).Ok?
  {
  }

  // ---- all the inverses ----------------------------------------------------------------

  /** A change none of whose memories moved since. */
  ghost predicate Undoable(t: Tables, steps: seq<Step>) {
    && steps != [] && !TwiceTouched(steps) && forall s :: s in steps ==> Ready(t, s)
  }

  /** What the policy refuses among the states from before. */
  ghost predicate PolicyRefuses(t: Tables, c: Call, s: Step)
    requires Ready(t, s)
  {
    ReadyParts(t, s);
    Refuses(c, StateBefore(t, s))
  }

  /** The state from before is the current one. */
  ghost predicate GivenBack(t: Tables, t': Tables, s: Step)
    requires Ready(t, s)
  {
    ReadyParts(t, s);
    && s.memory in t'.rows && t'.rows[s.memory].version == s.after + 1
    && Ref(s.memory, s.after + 1) in t'.versions && t'.versions[Ref(s.memory, s.after + 1)].state == StateBefore(t, s)
  }

  ghost predicate AllBack(t: Tables, t': Tables, steps: seq<Step>, made: seq<Step>, n: nat)
    requires Undoable(t, steps) && n <= |steps|
  {
    |made| == n && forall j :: 0 <= j < n ==> Reverses(made[j], steps[j]) && GivenBack(t, t', steps[j])
  }

  ghost predicate OnlyThese(b: Batch, steps: seq<Step>, n: nat)
    requires n <= |steps|
  {
    forall id :: id in b.before ==> exists j :: 0 <= j < n && steps[j].memory == id
  }

  ghost predicate Undone(t: Tables, b: Batch, steps: seq<Step>, made: seq<Step>, n: nat)
    requires Undoable(t, steps) && n <= |steps|
  {
    UnderWay(t, b) && Edges(b.tables) == Edges(t) && AllBack(t, b.tables, steps, made, n) && OnlyThese(b, steps, n)
  }

  lemma EdgesKept(t: Tables, id: Id, row: Row, v: Version, k: Ref)
    requires Ref(id, row.version) !in t.versions
    requires k in t.versions && k.memory == id && v.state.sources == t.versions[k].state.sources
    ensures Edges(Inserted(t, id, row, v)) == Edges(t)
  {
    var t' := Inserted(t, id, row, v);
    var new_ := Ref(id, row.version);
    forall x, y ensures (x, y) in Edges(t') <==> (x, y) in Edges(t) {
      EdgeIs(t, x, y);
      EdgeIs(t', x, y);
      if (x, y) in Edges(t) {
        var j, r :| j in t.versions && r in t.versions[j].state.sources && j.memory == x && r.memory == y;
        assert j in t'.versions && t'.versions[j] == t.versions[j];
      }
      if (x, y) in Edges(t') {
        var j, r :| j in t'.versions && r in t'.versions[j].state.sources && j.memory == x && r.memory == y;
        var i := if j == new_ then k else j;
        assert i in t.versions && r in t.versions[i].state.sources && i.memory == x;
      }
    }
  }

  lemma StillReady(t: Tables, b: Batch, steps: seq<Step>, made: seq<Step>, n: nat)
    requires Undoable(t, steps) && n < |steps| && Undone(t, b, steps, made, n)
    ensures Ready(b.tables, steps[n]) && steps[n].memory !in b.before
    ensures Ref(steps[n].memory, steps[n].after) in b.tables.versions
    ensures steps[n].before.Some? ==> Ref(steps[n].memory, steps[n].before.value) in b.tables.versions
    ensures Ready(t, steps[n]) && (ReadyParts(t, steps[n]); StateBefore(b.tables, steps[n]) == StateBefore(t, steps[n]))
  {
    var s := steps[n];
    assert s in steps && Ready(t, s);
    UndoneParts(t, b, steps, made, n);
    UnderWayParts(t, b);
    ExtendsKept(t, b.tables);
    NotYet(t, b, steps, made, n);
    hide *;
    StaysReady(t, b, s);
  }

  lemma NotYet(t: Tables, b: Batch, steps: seq<Step>, made: seq<Step>, n: nat)
    requires Undoable(t, steps) && n < |steps| && OnlyThese(b, steps, n)
    ensures steps[n].memory !in b.before
  {
    assert forall j :: 0 <= j < n ==> steps[j].memory != steps[n].memory;
  }

  lemma StaysReady(t: Tables, b: Batch, s: Step)
    requires Ready(t, s) && Sound(b.tables) && Kept(t, b.tables) && BeforeOk(t, b) && s.memory !in b.before
    ensures Ready(b.tables, s)
    ensures (ReadyParts(t, s); ReadyParts(b.tables, s); StateBefore(b.tables, s) == StateBefore(t, s))
  {
    StepKept(t, b.tables, s);
    assert b.tables.rows[s.memory] == t.rows[s.memory];
    hide Sound;
  }

  lemma BackKept(t: Tables, b: Batch, b': Batch, index: nat, s: Step, state: State, row: Row, was: Option<(int, bool)>, r: Step)
    requires Ready(t, r) && GivenBack(t, b.tables, r) && Gives(b, b', index, s, state, row, was) && r.memory != s.memory
    ensures GivenBack(t, b'.tables, r)
  {
  }

  lemma BackNow(t: Tables, b: Batch, b': Batch, index: nat, s: Step, state: State, row: Row, was: Option<(int, bool)>)
    requires Ready(t, s) && (ReadyParts(t, s); state == StateBefore(t, s)) && Gives(b, b', index, s, state, row, was)
    ensures GivenBack(t, b'.tables, s)
  {
  }

  lemma SourcesFrom(t: Tables, s: Step) returns (k: Ref)
    requires Ready(t, s)
    ensures k in t.versions && k.memory == s.memory
    ensures (ReadyParts(t, s); StateBefore(t, s).sources == t.versions[k].state.sources)
  {
    ReadyParts(t, s);
    k := if s.before.None? then Ref(s.memory, s.after) else Ref(s.memory, s.before.value);
  }

  lemma {:induction false} OneUndone(t: Tables, b: Batch, c: Call, steps: seq<Step>, made: seq<Step>, n: nat)
    requires Undoable(t, steps) && n < |steps| && Undone(t, b, steps, made, n) && Ready(t, steps[n])
    ensures var r := ApplyOne(b, c, None, n, Inverse(steps[n]));
            if PolicyRefuses(t, c, steps[n]) then RefusedBy(t, c, steps[n], r)
            else r.Ok? && Undone(t, r.value.0, steps, made + [r.value.1], n + 1)
  {
    hide *;
    var s := steps[n];
    StillReady(t, b, steps, made, n);
    ReadyParts(t, s);
    var row, was := InverseApplied(b, c, n, s);
    var r := ApplyOne(b, c, None, n, Inverse(s));
    PolicyIs(t, c, s, r);
    if !PolicyRefuses(t, c, s) {
      UndoneParts(t, b, steps, made, n);
      OneKeeps(t, b, c, None, n, Inverse(s));
      UndoneNext(t, b, r.value.0, steps, made, r.value.1, n, row, was);
    }
  }

  lemma PolicyIs<T>(t: Tables, c: Call, s: Step, r: Result<T, Error>)
    requires Ready(t, s)
    ensures (ReadyParts(t, s);
             var state := StateBefore(t, s);
             && (PolicyRefuses(t, c, s) <==> Refuses(c, state))
             && (Refuses(c, state) ==> c.check(state.description, state.body).Some?)
             && (Refuses(c, state) && r == Err(ContentRejected(c.check(state.description, state.body).value, Some(s.memory))) ==>
                   RefusedBy(t, c, s, r)))
  {
    ReadyParts(t, s);
  }

  lemma UndoneNext(t: Tables, b: Batch, b': Batch, steps: seq<Step>, made: seq<Step>, step: Step, n: nat,
                   row: Row, was: Option<(int, bool)>)
    requires Undoable(t, steps) && n < |steps| && Undone(t, b, steps, made, n) && Ready(t, steps[n]) && Ready(b.tables, steps[n])
    requires Advanced(t, b, Ok((b', step))) && Reverses(step, steps[n])
    requires (ReadyParts(t, steps[n]); Gives(b, b', n, steps[n], StateBefore(t, steps[n]), row, was))
    requires (ReadyParts(b.tables, steps[n]); ReadyParts(t, steps[n]); StateBefore(b.tables, steps[n]) == StateBefore(t, steps[n]))
    ensures Undone(t, b', steps, made + [step], n + 1)
  {
    hide *;
    var s := steps[n];
    ReadyParts(t, s);
    var state := StateBefore(t, s);
    UndoneParts(t, b, steps, made, n);
    AdvancedParts(t, b, b', step);
    NextEdges(t, b, b', n, s, state, row, was);
    NextBack(t, b, b', steps, made, step, n, state, row, was);
    NextBefore(b, b', steps, n, state, row, was);
    UndoneIs(t, b', steps, made + [step], n + 1);
  }

  lemma UndoneParts(t: Tables, b: Batch, steps: seq<Step>, made: seq<Step>, n: nat)
    requires Undoable(t, steps) && n <= |steps| && Undone(t, b, steps, made, n)
    ensures UnderWay(t, b) && Edges(b.tables) == Edges(t) && AllBack(t, b.tables, steps, made, n) && OnlyThese(b, steps, n)
  {
    hide *;
    UndoneUnfolds(t, b, steps, made, n);
  }

  lemma UndoneIs(t: Tables, b: Batch, steps: seq<Step>, made: seq<Step>, n: nat)
    requires Undoable(t, steps) && n <= |steps|
    requires UnderWay(t, b) && Edges(b.tables) == Edges(t) && AllBack(t, b.tables, steps, made, n) && OnlyThese(b, steps, n)
    ensures Undone(t, b, steps, made, n)
  {
    UndoneUnfolds(t, b, steps, made, n);
    hide *;
  }

  lemma UndoneUnfolds(t: Tables, b: Batch, steps: seq<Step>, made: seq<Step>, n: nat)
    requires Undoable(t, steps) && n <= |steps|
    ensures Undone(t, b, steps, made, n) <==>
      UnderWay(t, b) && Edges(b.tables) == Edges(t) && AllBack(t, b.tables, steps, made, n) && OnlyThese(b, steps, n)
  {
    hide UnderWay;
    hide Edges;
    hide AllBack;
    hide OnlyThese;
    hide Undoable;
  }

  lemma AdvancedParts(t: Tables, b: Batch, b': Batch, step: Step)
    requires Advanced(t, b, Ok((b', step)))
    ensures UnderWay(t, b') && StepOk(b'.tables, step) && Kept(b.tables, b'.tables)
  {
    hide UnderWay;
    hide StepOk;
    hide Kept;
  }

  lemma NextBack(t: Tables, b: Batch, b': Batch, steps: seq<Step>, made: seq<Step>, step: Step, n: nat,
                 state: State, row: Row, was: Option<(int, bool)>)
    requires Undoable(t, steps) && n < |steps| && AllBack(t, b.tables, steps, made, n) && Reverses(step, steps[n])
    requires Ready(t, steps[n]) && (ReadyParts(t, steps[n]); state == StateBefore(t, steps[n]))
    requires Gives(b, b', n, steps[n], state, row, was)
    ensures AllBack(t, b'.tables, steps, made + [step], n + 1)
  {
    hide Gives;
    hide GivenBack;
    hide Ready;
    BackNow(t, b, b', n, steps[n], state, row, was);
    forall j | 0 <= j < n ensures GivenBack(t, b'.tables, steps[j]) {
      assert steps[j].memory != steps[n].memory;
      BackKept(t, b, b', n, steps[n], state, row, was, steps[j]);
    }
  }

  lemma NextBefore(b: Batch, b': Batch, steps: seq<Step>, n: nat, state: State, row: Row, was: Option<(int, bool)>)
    requires n < |steps| && OnlyThese(b, steps, n) && Gives(b, b', n, steps[n], state, row, was)
    ensures OnlyThese(b', steps, n + 1)
  {
    forall id | id in b'.before ensures exists j :: 0 <= j < n + 1 && steps[j].memory == id {
      if id != steps[n].memory {
        assert id in b.before;
        var j :| 0 <= j < n && steps[j].memory == id;
        assert steps[j].memory == id;
      }
    }
  }

  lemma NextEdges(t: Tables, b: Batch, b': Batch, index: nat, s: Step, state: State, row: Row, was: Option<(int, bool)>)
    requires Ready(b.tables, s) && (ReadyParts(b.tables, s); state == StateBefore(b.tables, s)) && Gives(b, b', index, s, state, row, was)
    ensures Edges(b'.tables) == Edges(b.tables)
  {
    var k := SourcesFrom(b.tables, s);
    FreshKey(b, s);
    EdgesKept(b.tables, s.memory, row, Version(state, b.changeId), k);
    assert b'.tables == Inserted(b.tables, s.memory, row, Version(state, b.changeId));
    hide Edges;
    hide Ready;
  }

  lemma FreshKey(b: Batch, s: Step)
    requires Ready(b.tables, s)
    ensures Ref(s.memory, s.after + 1) !in b.tables.versions
  {
  }

  ghost predicate RefusedBy<T>(t: Tables, c: Call, s: Step, r: Result<T, Error>)
    requires Ready(t, s)
  {
    ReadyParts(t, s);
    var state := StateBefore(t, s);
    Refuses(c, state) && r == Err(ContentRejected(c.check(state.description, state.body).value, Some(s.memory)))
  }

  // ---- the whole undo ------------------------------------------------------------------

  ghost predicate RefusedIn(t: Tables, c: Call, steps: seq<Step>, n: nat)
    requires Undoable(t, steps) && n <= |steps|
  {
    exists j :: 0 <= j < n && PolicyRefuses(t, c, steps[j])
  }

  lemma {:induction false} AllUndone(t: Tables, id: Id, c: Call, steps: seq<Step>, n: nat)
    requires Inv(t) && Undoable(t, steps) && n <= |steps|
    ensures var r := Applied(Batch(t, id, map[], []), c, None, Inverses(steps), n);
            if RefusedIn(t, c, steps, n) then exists j :: 0 <= j < n && RefusedBy(t, c, steps[j], r)
            else r.Ok? && Undone(t, r.value.0, steps, r.value.1, n)
  {
    hide *;
    var b0, ops := Batch(t, id, map[], []), Inverses(steps);
    if n == 0 {
      NothingUndone(t, id, c, steps);
    } else {
      AllUndone(t, id, c, steps, n - 1);
      var before, r := Applied(b0, c, None, ops, n - 1), Applied(b0, c, None, ops, n);
      AppliedNext(b0, c, ops, n);
      RefusedNext(t, c, steps, n);
      if RefusedIn(t, c, steps, n - 1) {
        var j :| 0 <= j < n - 1 && RefusedBy(t, c, steps[j], before);
        RefusedIsErr(t, c, steps[j], before);
        SameRefusal(t, c, steps[j], before, r);
      } else {
        var (b, made) := before.value;
        OneUndone(t, b, c, steps, made, n - 1);
        if PolicyRefuses(t, c, steps[n - 1]) {
          var one := ApplyOne(b, c, None, n - 1, ops[n - 1]);
          RefusedIsErr(t, c, steps[n - 1], one);
          SameRefusal(t, c, steps[n - 1], one, r);
        }
      }
    }
  }

  lemma SameRefusal<T, U>(t: Tables, c: Call, s: Step, r: Result<T, Error>, r': Result<U, Error>)
    requires Ready(t, s) && RefusedBy(t, c, s, r) && r'.Err? && r.Err? && r'.error == r.error
    ensures RefusedBy(t, c, s, r')
  {
  }

  lemma RefusedNext(t: Tables, c: Call, steps: seq<Step>, n: nat)
    requires Undoable(t, steps) && 0 < n <= |steps|
    ensures Ready(t, steps[n - 1])
    ensures RefusedIn(t, c, steps, n) <==> RefusedIn(t, c, steps, n - 1) || PolicyRefuses(t, c, steps[n - 1])
    ensures forall j :: 0 <= j < n ==> Ready(t, steps[j])
  {
    assert forall j :: 0 <= j < n ==> steps[j] in steps;
    hide Ready;
    hide PolicyRefuses;
    if RefusedIn(t, c, steps, n) {
      var j :| 0 <= j < n && PolicyRefuses(t, c, steps[j]);
      if j < n - 1 { assert RefusedIn(t, c, steps, n - 1); }
    }
    if RefusedIn(t, c, steps, n - 1) {
      var j :| 0 <= j < n - 1 && PolicyRefuses(t, c, steps[j]);
      assert PolicyRefuses(t, c, steps[j]);
    }
  }

  lemma AppliedNext(b: Batch, c: Call, ops: seq<Op>, n: nat)
    requires 0 < n <= |ops|
    ensures var before, r := Applied(b, c, None, ops, n - 1), Applied(b, c, None, ops, n);
            && (before.Err? ==> r.Err? && r.error == before.error)
            && (before.Ok? ==>
                  var one := ApplyOne(before.value.0, c, None, n - 1, ops[n - 1]);
                  && (one.Err? ==> r.Err? && r.error == one.error)
                  && (one.Ok? ==> r == Ok((one.value.0, before.value.1 + [one.value.1]))))
  {
    hide ApplyOne;
  }

  lemma NothingUndone(t: Tables, id: Id, c: Call, steps: seq<Step>)
    requires Inv(t) && Undoable(t, steps)
    ensures Applied(Batch(t, id, map[], []), c, None, Inverses(steps), 0) == Ok((Batch(t, id, map[], []), []))
    ensures !RefusedIn(t, c, steps, 0) && Undone(t, Batch(t, id, map[], []), steps, [], 0)
  {
    StartUnderWay(t, id);
    hide UnderWay;
    hide Edges;
  }

  /** Without a new edge there is no new cycle. */
  lemma NoLoops(t: Tables, b: Batch)
    requires UnderWay(t, b) && Acyclic(Edges(t)) && Edges(b.tables) == Edges(t)
    ensures LoopingFrom(b.tables, b.cited).None?
  {
    LoopingFromIs(b.tables, b.cited);
    forall i | 0 <= i < |b.cited| ensures !Loops(b.tables, b.cited[i].1) {
      if Loops(b.tables, b.cited[i].1) { LoopIsCycle(b.tables, b.cited[i].1); }
    }
  }

  lemma LoopIsCycle(t: Tables, k: Ref)
    requires k in t.versions && Loops(t, k)
    ensures !Acyclic(Edges(t))
  {
    var r :| r in SourcesOf(t, k) && Reaches(Edges(t), r.memory, k.memory);
    EdgeIs(t, k.memory, r.memory);
    assert (k.memory, r.memory) in Edges(t);
  }

  lemma InversesValid(c: Call, steps: seq<Step>)
    requires steps != [] && !TwiceTouched(steps) && 1 <= |c.changedBy| <= 32 && (c.changedVia.Some? ==> 1 <= |c.changedVia.value| <= 64)
    ensures Valid(c, Inverses(steps))
  {
    assert forall j :: 0 <= j < |steps| ==> Inverses(steps)[j].memory == steps[j].memory;
  }

  lemma MadeOnce(t: Tables, t': Tables, steps: seq<Step>, made: seq<Step>)
    requires Undoable(t, steps) && AllBack(t, t', steps, made, |steps|)
    ensures !TwiceTouched(made)
  {
    assert forall j :: 0 <= j < |steps| ==> made[j].memory == steps[j].memory;
    hide Undoable;
    hide GivenBack;
  }

  /** A change the three checks of `undo` let through. */
  ghost predicate Admitted(t: Tables, changeId: Id, c: Call) {
    && changeId in t.changes && |t.changes[changeId].steps| == t.changes[changeId].stepCount
    && Moved(t, t.changes[changeId]) == {}
    && c.newId(0) !in t.changes && 1 <= |c.changedBy| <= 32 && (c.changedVia.Some? ==> 1 <= |c.changedVia.value| <= 64)
  }

  lemma AdmittedReady(t: Tables, changeId: Id, c: Call)
    requires Inv(t) && changeId in t.changes && Admitted(t, changeId, c)
    ensures Undoable(t, t.changes[changeId].steps)
    ensures Undo(t, changeId, c) == ApplyOps(t, Inverses(t.changes[changeId].steps), None, c, Some(changeId))
  {
    var change := t.changes[changeId];
    assert ChangeOk(t, change);
    assert forall s :: s in change.steps && (s.memory !in t.rows || t.rows[s.memory].version != s.after) ==> s.memory in Moved(t, change);
    hide ApplyOps;
    hide Sound;
    hide StepOk;
  }

  /**
   Past its checks an undo is refused exactly when the policy refuses one of the states from
   before the change, by that rule and memory; no conflict is possible. Otherwise every
   touched memory has the whole state from before the change as its next version.
   */
  lemma {:induction false} UndoIsInverse(t: Tables, changeId: Id, c: Call)
    requires Inv(t) && changeId in t.changes && Admitted(t, changeId, c)
    ensures Undoable(t, t.changes[changeId].steps)
    ensures var steps, r := t.changes[changeId].steps, Undo(t, changeId, c);
            if RefusedIn(t, c, steps, |steps|) then exists j :: 0 <= j < |steps| && RefusedBy(t, c, steps[j], r)
            else r.Ok? && Inv(r.value.0) && ChangedBy(t, r.value.0, c.newId(0), r.value.1)
                 && r.value.1.undoes == Some(changeId) && AllBack(t, r.value.0, steps, r.value.1.steps, |steps|)
  {
    hide *;
    var steps, id := t.changes[changeId].steps, c.newId(0);
    AdmittedReady(t, changeId, c);
    var ops := Inverses(steps);
    AdmittedValid(t, changeId, c);
    AllUndone(t, id, c, steps, |steps|);
    ReadyAll(t, steps);
    ApplyKeeps(t, ops, None, c, Some(changeId));
    var applied := Applied(Batch(t, id, map[], []), c, None, ops, |ops|);
    if RefusedIn(t, c, steps, |steps|) {
      var j :| 0 <= j < |steps| && RefusedBy(t, c, steps[j], applied);
      ApplyRefused(t, ops, c, Some(changeId));
      RefusedIsErr(t, c, steps[j], applied);
      SameRefusal(t, c, steps[j], applied, Undo(t, changeId, c));
    } else {
      var (b, made) := applied.value;
      UndoneParts(t, b, steps, made, |steps|);
      AcyclicOf(t);
      NoLoops(t, b);
      MadeOnce(t, b.tables, steps, made);
      ApplyAccepted(t, ops, c, Some(changeId));
      BackDespite(t, b.tables, Undo(t, changeId, c).value.0, steps, made, |steps|);
    }
  }

  predicate MovedSince(t: Tables, s: Step) { s.memory !in t.rows || t.rows[s.memory].version != s.after }

  predicate KnownCaller(c: Call) { 1 <= |c.changedBy| <= 32 && (c.changedVia.Some? ==> 1 <= |c.changedVia.value| <= 64) }

  /** Neither taken apart by a hard delete nor followed by another change of its memories. */
  ghost predicate Standing(t: Tables, changeId: Id) {
    && changeId in t.changes && |t.changes[changeId].steps| >= t.changes[changeId].stepCount
    && forall s :: s in t.changes[changeId].steps ==> !MovedSince(t, s)
  }

  /** Each refusal of an undo, and the undo itself, exactly when; nothing is undone in part. */
  ghost predicate Decided<T>(t: Tables, changeId: Id, c: Call, r: Result<T, Error>)
    requires Standing(t, changeId) ==> Undoable(t, t.changes[changeId].steps)
  {
    && (r == Err(UndoRefused(NotFound)) <==> changeId !in t.changes)
    && (r == Err(UndoRefused(HardDeleted)) <==> changeId in t.changes && |t.changes[changeId].steps| < t.changes[changeId].stepCount)
    && (r.Err? && r.error.UndoRefused? && r.error.why.Changed? <==>
          changeId in t.changes && |t.changes[changeId].steps| >= t.changes[changeId].stepCount
          && exists s :: s in t.changes[changeId].steps && MovedSince(t, s))
    && (r.Err? && r.error.UndoRefused? && r.error.why.Changed? ==>
          forall m :: m in r.error.why.moved <==> exists s :: s in t.changes[changeId].steps && s.memory == m && MovedSince(t, s))
    && (r.Ok? <==>
          && Standing(t, changeId) && KnownCaller(c) && c.newId(0) !in t.changes
          && !RefusedIn(t, c, t.changes[changeId].steps, |t.changes[changeId].steps|))
  }

  lemma {:induction false} UndoDecides(t: Tables, changeId: Id, c: Call)
    requires Inv(t)
    ensures Standing(t, changeId) ==> Undoable(t, t.changes[changeId].steps)
    ensures Decided(t, changeId, c, Undo(t, changeId, c))
  {
    hide *;
    UndoParts(t, changeId, c);
    StandingIs(t, changeId);
    if changeId in t.changes {
      MovedParts(t, t.changes[changeId]);
      if |t.changes[changeId].steps| >= t.changes[changeId].stepCount && Moved(t, t.changes[changeId]) == {} {
        StandingReady(t, changeId);
        UndoneCall(t, changeId, c);
        if KnownCaller(c) && c.newId(0) !in t.changes {
          AdmittedIs(t, changeId, c);
          UndoIsInverse(t, changeId, c);
          if RefusedIn(t, c, t.changes[changeId].steps, |t.changes[changeId].steps|) {
            ReadyAll(t, t.changes[changeId].steps);
            var j :| 0 <= j < |t.changes[changeId].steps| && RefusedBy(t, c, t.changes[changeId].steps[j], Undo(t, changeId, c));
            RefusedIsErr(t, c, t.changes[changeId].steps[j], Undo(t, changeId, c));
          }
        }
      }
    }
    DecidedIs(t, changeId, c, Undo(t, changeId, c));
  }

  lemma DecidedIs<T>(t: Tables, changeId: Id, c: Call, r: Result<T, Error>)
    requires Standing(t, changeId) ==> Undoable(t, t.changes[changeId].steps)
    requires if changeId !in t.changes then r == Err(UndoRefused(NotFound))
             else
               var change := t.changes[changeId];
               if |change.steps| < change.stepCount then r == Err(UndoRefused(HardDeleted))
               else if Moved(t, change) != {} then r == Err(UndoRefused(Changed(Moved(t, change))))
               else
                 && Standing(t, changeId) && (r.Err? ==> !r.error.UndoRefused?)
                 && (r.Ok? <==> KnownCaller(c) && c.newId(0) !in t.changes && !RefusedIn(t, c, change.steps, |change.steps|))
    ensures Decided(t, changeId, c, r)
  {
    StandingIs(t, changeId);
    if changeId in t.changes { MovedParts(t, t.changes[changeId]); }
    hide Standing, Undoable, Moved, MovedSince, KnownCaller, RefusedIn;
  }

  lemma UndoParts(t: Tables, changeId: Id, c: Call)
    ensures var r := Undo(t, changeId, c);
            if changeId !in t.changes then r == Err(UndoRefused(NotFound))
            else
              var change := t.changes[changeId];
              if |change.steps| < change.stepCount then r == Err(UndoRefused(HardDeleted))
              else if Moved(t, change) != {} then r == Err(UndoRefused(Changed(Moved(t, change))))
              else r == ApplyOps(t, Inverses(change.steps), None, c, Some(changeId))
  {
    hide ApplyOps, Moved;
  }

  lemma MovedParts(t: Tables, change: Change)
    ensures Moved(t, change) == {} <==> forall s :: s in change.steps ==> !MovedSince(t, s)
    ensures forall m :: m in Moved(t, change) <==> exists s :: s in change.steps && s.memory == m && MovedSince(t, s)
  {
    forall s | s in change.steps && MovedSince(t, s) ensures s.memory in Moved(t, change) {}
  }

  lemma StandingIs(t: Tables, changeId: Id)
    ensures Standing(t, changeId) <==>
      && changeId in t.changes && |t.changes[changeId].steps| >= t.changes[changeId].stepCount
      && forall s :: s in t.changes[changeId].steps ==> !MovedSince(t, s)
  {
  }

  lemma StandingReady(t: Tables, changeId: Id)
    requires Inv(t) && Standing(t, changeId)
    ensures Undoable(t, t.changes[changeId].steps)
  {
    assert ChangeOk(t, t.changes[changeId]);
    hide Sound, KernelInvariant.StepOk, Acyclic, Edges;
  }

  lemma AdmittedIs(t: Tables, changeId: Id, c: Call)
    requires Inv(t) && Standing(t, changeId) && KnownCaller(c) && c.newId(0) !in t.changes && Moved(t, t.changes[changeId]) == {}
    ensures Admitted(t, changeId, c)
  {
    assert ChangeOk(t, t.changes[changeId]);
    hide Sound, KernelInvariant.StepOk, Acyclic, Edges, Moved;
  }

  /** An undo by a caller the store does not take, or under an id that is taken. */
  lemma UndoneCall(t: Tables, changeId: Id, c: Call)
    requires changeId in t.changes
    ensures var r := ApplyOps(t, Inverses(t.changes[changeId].steps), None, c, Some(changeId));
            && (!KnownCaller(c) ==> r == Err(BadValue))
            && (KnownCaller(c) && c.newId(0) in t.changes ==> r == Err(BadValue) || r == Err(IdCollision(c.newId(0))))
  {
    hide Applied, LoopingFrom, TwiceTouched, TwiceNamed;
  }

  lemma AcyclicOf(t: Tables)
    requires Inv(t)
    ensures Acyclic(Edges(t))
  {
  }

  lemma RefusedIsErr<T>(t: Tables, c: Call, s: Step, r: Result<T, Error>)
    requires Ready(t, s) && RefusedBy(t, c, s, r)
    ensures r.Err? && r.error.ContentRejected?
  {
  }

  lemma AdmittedValid(t: Tables, changeId: Id, c: Call)
    requires changeId in t.changes && Admitted(t, changeId, c) && Undoable(t, t.changes[changeId].steps)
    ensures Valid(c, Inverses(t.changes[changeId].steps)) && c.newId(0) !in t.changes
  {
    InversesValid(c, t.changes[changeId].steps);
    hide Valid;
  }

  lemma ApplyRefused(t: Tables, ops: seq<Op>, c: Call, undoes: Option<Id>)
    requires Valid(c, ops) && c.newId(0) !in t.changes
    ensures var applied, r := Applied(Batch(t, c.newId(0), map[], []), c, None, ops, |ops|), ApplyOps(t, ops, None, c, undoes);
            applied.Err? ==> r.Err? && r.error == applied.error
  {
    hide Applied;
    hide Valid;
    hide LoopingFrom;
  }

  lemma ApplyAccepted(t: Tables, ops: seq<Op>, c: Call, undoes: Option<Id>)
    requires Valid(c, ops) && c.newId(0) !in t.changes
    requires Applied(Batch(t, c.newId(0), map[], []), c, None, ops, |ops|).Ok?
    requires var (b, steps) := Applied(Batch(t, c.newId(0), map[], []), c, None, ops, |ops|).value;
             LoopingFrom(b.tables, b.cited).None? && !TwiceTouched(steps)
    ensures var (b, steps) := Applied(Batch(t, c.newId(0), map[], []), c, None, ops, |ops|).value;
            var r := ApplyOps(t, ops, None, c, undoes);
            && r.Ok? && r.value.1.undoes == undoes && r.value.1.steps == steps
            && r.value.0.rows == b.tables.rows && r.value.0.versions == b.tables.versions
  {
    hide Applied;
    hide Valid;
    hide LoopingFrom;
  }

  lemma BackDespite(t: Tables, t': Tables, t'': Tables, steps: seq<Step>, made: seq<Step>, n: nat)
    requires Undoable(t, steps) && n <= |steps| && AllBack(t, t', steps, made, n)
    requires t''.rows == t'.rows && t''.versions == t'.versions
    ensures AllBack(t, t'', steps, made, n)
  {
    hide Undoable;
  }

  lemma WhenUndone(t: Tables, changeId: Id, c: Call)
    requires Inv(t) && changeId in t.changes && Admitted(t, changeId, c) && Undo(t, changeId, c).Ok?
    ensures Undoable(t, t.changes[changeId].steps)
    ensures var steps, r := t.changes[changeId].steps, Undo(t, changeId, c);
            && Inv(r.value.0) && ChangedBy(t, r.value.0, c.newId(0), r.value.1)
            && AllBack(t, r.value.0, steps, r.value.1.steps, |steps|)
  {
    hide *;
    UndoIsInverse(t, changeId, c);
    var steps := t.changes[changeId].steps;
    ReadyAll(t, steps);
    if RefusedIn(t, c, steps, |steps|) {
      var j :| 0 <= j < |steps| && RefusedBy(t, c, steps[j], Undo(t, changeId, c));
      RefusedIsErr(t, c, steps[j], Undo(t, changeId, c));
    }
  }

  /** An undo that goes through gives every touched memory its state back. */
  lemma UndoneBack(t: Tables, changeId: Id, c: Call)
    requires Inv(t)
    ensures Undo(t, changeId, c).Ok? ==>
              && changeId in t.changes && Undoable(t, t.changes[changeId].steps)
              && var steps, r := t.changes[changeId].steps, Undo(t, changeId, c).value;
                 AllBack(t, r.0, steps, r.1.steps, |steps|)
  {
    hide *;
    if Undo(t, changeId, c).Ok? {
      UndoDecides(t, changeId, c);
      DecidedOk(t, changeId, c, Undo(t, changeId, c));
      StandingIs(t, changeId);
      MovedParts(t, t.changes[changeId]);
      AdmittedIs(t, changeId, c);
      WhenUndone(t, changeId, c);
    }
  }

  /** What is decided is the answer, not the tables that come with it. */
  lemma DecidedAlike(t: Tables, changeId: Id, c: Call, r: Result<(Tables, Change), Error>)
    requires Standing(t, changeId) ==> Undoable(t, t.changes[changeId].steps)
    requires Decided(t, changeId, c, r)
    ensures forall answer: Result<Change, Error> ::
              (if r.Ok? then answer == Ok(r.value.1) else answer == Err(r.error)) ==> Decided(t, changeId, c, answer)
  {
    hide Standing, Undoable, MovedSince, KnownCaller, RefusedIn;
  }

  lemma DecidedOk<T>(t: Tables, changeId: Id, c: Call, r: Result<T, Error>)
    requires Standing(t, changeId) ==> Undoable(t, t.changes[changeId].steps)
    requires Decided(t, changeId, c, r) && r.Ok?
    ensures Standing(t, changeId) && KnownCaller(c) && c.newId(0) !in t.changes
  {
    hide Standing, Undoable, MovedSince, KnownCaller, RefusedIn;
  }

  lemma WhenRefused(t: Tables, changeId: Id, c: Call)
    requires Inv(t) && changeId in t.changes && Admitted(t, changeId, c) && Undo(t, changeId, c).Err?
    ensures Undo(t, changeId, c).error.ContentRejected?
  {
    hide *;
    UndoIsInverse(t, changeId, c);
    var steps := t.changes[changeId].steps;
    ReadyAll(t, steps);
    var j :| 0 <= j < |steps| && RefusedBy(t, c, steps[j], Undo(t, changeId, c));
    RefusedIsErr(t, c, steps[j], Undo(t, changeId, c));
  }

  lemma ReadyAll(t: Tables, steps: seq<Step>)
    requires Undoable(t, steps)
    ensures forall j :: 0 <= j < |steps| ==> Ready(t, steps[j])
  {
    hide Ready;
  }

  lemma UndoAdmitted(t: Tables, t1: Tables, id: Id, steps: seq<Step>, undo: Change, c': Call)
    requires Undoable(t, steps) && AllBack(t, t1, steps, undo.steps, |steps|) && ChangedBy(t, t1, id, undo)
    requires c'.newId(0) !in t1.changes && 1 <= |c'.changedBy| <= 32 && (c'.changedVia.Some? ==> 1 <= |c'.changedVia.value| <= 64)
    ensures id in t1.changes && Admitted(t1, id, c') && t1.changes[id] == undo && |undo.steps| == |steps|
  {
    forall s | s in undo.steps ensures s.memory in t1.rows && t1.rows[s.memory].version == s.after {
      var j :| 0 <= j < |undo.steps| && undo.steps[j] == s;
      assert GivenBack(t, t1, steps[j]);
    }
    hide Undoable;
    hide GivenBack;
    hide Extends;
  }

  lemma BackAgain(t: Tables, t1: Tables, t2: Tables, steps: seq<Step>, made: seq<Step>, redone: seq<Step>, j: nat)
    requires Undoable(t, steps) && AllBack(t, t1, steps, made, |steps|) && Extends(t, t1)
    requires Undoable(t1, made) && AllBack(t1, t2, made, redone, |made|) && Sound(t2) && j < |steps|
    ensures var m := steps[j].memory;
            m in t.rows && m in t2.rows && StateOf(t2, m, t2.rows[m]) == StateOf(t, m, t.rows[m])
  {
    var s, back := steps[j], made[j];
    assert s in steps && back in made;
    ReadyParts(t, s);
    ReadyParts(t1, back);
    assert Reverses(back, s) && GivenBack(t1, t2, back);
    assert t1.versions[Ref(s.memory, s.after)] == t.versions[Ref(s.memory, s.after)];
    assert RowOk(t2, s.memory);
    hide Ready;
    hide CitesOk;
    hide Joined;
    hide KeysOk;
    hide SourcesOk;
  }

  /** Undoing an undo is admitted, and gives back the state after the change. */
  lemma {:induction false} UndoTwice(t: Tables, changeId: Id, c: Call, c': Call)
    requires Inv(t) && changeId in t.changes && Admitted(t, changeId, c) && Undo(t, changeId, c).Ok?
    requires c'.newId(0) !in Undo(t, changeId, c).value.0.changes
    requires 1 <= |c'.changedBy| <= 32 && (c'.changedVia.Some? ==> 1 <= |c'.changedVia.value| <= 64)
    ensures var t1 := Undo(t, changeId, c).value.0;
            var r := Undo(t1, c.newId(0), c');
            && Admitted(t1, c.newId(0), c')
            && (r.Err? ==> r.error.ContentRejected?)
            && (r.Ok? ==> forall s :: s in t.changes[changeId].steps ==>
                  && s.memory in t.rows && s.memory in r.value.0.rows
                  && StateOf(r.value.0, s.memory, r.value.0.rows[s.memory]) == StateOf(t, s.memory, t.rows[s.memory]))
  {
    hide *;
    var steps := t.changes[changeId].steps;
    var (t1, undo) := Undo(t, changeId, c).value;
    WhenUndone(t, changeId, c);
    UndoAdmitted(t, t1, c.newId(0), steps, undo, c');
    var r := Undo(t1, c.newId(0), c');
    if r.Ok? {
      WhenUndone(t1, c.newId(0), c');
      ChangedByParts(t, t1, c.newId(0), undo);
      InvSound(r.value.0);
      forall s | s in steps
        ensures s.memory in t.rows && s.memory in r.value.0.rows
                && StateOf(r.value.0, s.memory, r.value.0.rows[s.memory]) == StateOf(t, s.memory, t.rows[s.memory])
      {
        var j :| 0 <= j < |steps| && steps[j] == s;
        BackAgain(t, t1, r.value.0, steps, undo.steps, r.value.1.steps, j);
      }
    } else {
      WhenRefused(t1, c.newId(0), c');
    }
  }

  lemma ChangedByParts(t: Tables, t': Tables, id: Id, change: Change)
    requires ChangedBy(t, t', id, change)
    ensures Extends(t, t') && id in t'.changes && t'.changes[id] == change
  {
    hide Extends;
  }

  lemma InvSound(t: Tables)
    requires Inv(t)
    ensures Sound(t)
  {
    hide Sound;
  }
}
