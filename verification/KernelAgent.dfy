/**
 The agent path: it writes in its own project only, never meets a batch conflict except a
 read that came in between, and cannot tell a memory it may not read from one that is not
 there. `AgentWrite` puts this together for whole calls, refused ones and writes of nothing
 at all included, one operation a call.
 */
module KernelAgent {
  import opened Basics
  import opened Graphs
  import opened Kernel
  import opened KernelContents
  import opened KernelInvariant
  import opened KernelUndo
  import opened PyText

  /** What an agent may send, from a caller the store knows, with ids that are free. */
  ghost predicate Sendable(t: Tables, op: Op, c: Call) {
    && !op.Restore? && (op.Create? ==> op.cites == []) && (op.Update? ==> op.newCites.None?)
    && Valid(c, [op]) && c.newId(0) !in t.changes
  }

  function Start(t: Tables, c: Call): Batch { Batch(t, c.newId(0), map[], []) }

  lemma OneOperation(t: Tables, op: Op, rw: ReadWriteSet, c: Call)
    requires Sendable(t, op, c)
    ensures var one, all := ApplyOne(Start(t, c), c, Some(rw), 0, op), Applied(Start(t, c), c, Some(rw), [op], 1);
            if one.Err? then all == Err(one.error) else all == Ok((one.value.0, [one.value.1]))
  {
    hide ApplyOne;
    assert Applied(Start(t, c), c, Some(rw), [op], 0) == Ok((Start(t, c), []));
    assert forall s: Step :: [] + [s] == [s];
  }

  /** The edges an agent's operation leaves are those that were there. */
  lemma AgentEdges(t: Tables, op: Op, rw: ReadWriteSet, c: Call)
    requires Inv(t) && Sendable(t, op, c) && ApplyOne(Start(t, c), c, Some(rw), 0, op).Ok?
    ensures Edges(ApplyOne(Start(t, c), c, Some(rw), 0, op).value.0.tables) == Edges(t)
  {
    var b := Start(t, c);
    match op
    case Create(_, _, _, _, _, _, _) =>
      var sources, row := CreateParts(b, c, Some(rw), 0, op);
      FreeKey(t, c.newId(1));
      NewEdges(t, c.newId(1), row, Version(RowState(row, sources), b.changeId));
    case Update(_, _, _, _, _) =>
      var row, before, after := UpdateParts(b, c, Some(rw), 0, op);
      var next, step := WriteParts(b, c, 0, Updated, op.memory, row, before, after);
      LaterEdges(t, op.memory, next, Version(after, b.changeId));
    case SoftDelete(_, _, _) =>
      var row, before := SoftDeleteParts(b, c, Some(rw), 0, op);
      var after := before.(deleted := true);
      var next, step := WriteParts(b, c, 0, SoftDeleted, op.memory, row, before, after);
      LaterEdges(t, op.memory, next, Version(after, b.changeId));
    hide Edges;
    hide Inv;
    hide WriteVersion;
    hide Target;
    hide Derived;
    hide StateOf;
  }

  lemma FreeKey(t: Tables, id: Id)
    requires Inv(t) && id !in t.rows
    ensures Ref(id, 1) !in t.versions
  {
  }

  lemma NewEdges(t: Tables, id: Id, row: Row, v: Version)
    requires Ref(id, row.version) !in t.versions && v.state.sources == []
    ensures Edges(Inserted(t, id, row, v)) == Edges(t)
  {
    var t' := Inserted(t, id, row, v);
    forall x, y ensures (x, y) in Edges(t') <==> (x, y) in Edges(t) {
      EdgeIs(t, x, y);
      EdgeIs(t', x, y);
      if (x, y) in Edges(t) {
        var k, r :| k in t.versions && r in t.versions[k].state.sources && k.memory == x && r.memory == y;
        assert t'.versions[k] == t.versions[k];
      }
    }
  }

  lemma LaterEdges(t: Tables, id: Id, row: Row, v: Version)
    requires Inv(t) && id in t.rows && row.version == t.rows[id].version + 1
    requires v.state.sources == StateOf(t, id, t.rows[id]).sources
    ensures Edges(Inserted(t, id, row, v)) == Edges(t)
  {
    assert RowOk(t, id);
    EdgesKept(t, id, row, v, Ref(id, t.rows[id].version));
    hide Edges;
  }

  // ---- refusals ------------------------------------------------------------------------

  /** What the agent path answers: of the batch conflicts only the last two. */
  predicate AgentError(e: Error, op: Op) {
    match e
    case BatchConflict(_, _, reason) => !op.Create? && (reason.SameState? || (reason.ReadSince? && op.SoftDelete? && op.unreadSince.Some?))
    case ProjectUnavailable => op.Create?
    case IdCollision(_) => op.Create?
    case MemoryNotFound(m) => !op.Create? && m == op.memory
    case VersionConflict(m) => !op.Create? && m == op.memory
    case GlobalReadOnly => true
    case ContentRejected(_, _) => true
    case _ => false
  }

  lemma TargetAnswers(t: Tables, rw: ReadWriteSet, index: nat, op: Op, allowDeleted: bool)
    requires !op.Create?
    ensures var r := Target(t, Some(rw), index, op.memory, op.expected, allowDeleted);
            if r.Err? then AgentError(r.error, op)
            else op.memory in t.rows && r.value == t.rows[op.memory] && Kernel.Joined(t, op.memory, true) == Some(r.value)
                 && rw.Writable(r.value.project) && r.value.project in t.projects && !t.projects[r.value.project]
  {
  }

  lemma WriteAnswers(b: Batch, c: Call, index: nat, name: OpName, op: Op, row: Row, before: State, after: State)
    requires !op.Create?
    ensures var r := WriteVersion(b, c, index, name, op.memory, row, before, after); r.Err? ==> AgentError(r.error, op)
  {
  }

  lemma UpdateAnswers(t: Tables, op: Op, rw: ReadWriteSet, c: Call)
    requires Inv(t) && op.Update? && op.newCites.None?
    ensures var r := ApplyUpdate(Start(t, c), c, Some(rw), 0, op); r.Err? ==> AgentError(r.error, op)
  {
    TargetAnswers(t, rw, 0, op, false);
    if Target(t, Some(rw), 0, op.memory, op.expected, false).Ok? {
      InvSound(t);
      var row := t.rows[op.memory];
      var before := StateOf(t, op.memory, row);
      CurrentCites(t, op.memory);
      DerivedIsLowest(t, 0, Some(op.memory), before.trust, before.sync, before.sources);
      forall after ensures var r := WriteVersion(Start(t, c), c, 0, Updated, op.memory, row, before, after); r.Err? ==> AgentError(r.error, op) {
        WriteAnswers(Start(t, c), c, 0, Updated, op, row, before, after);
      }
    }
    hide Target;
    hide WriteVersion;
    hide Derived;
    hide StateOf;
    hide Inv;
    hide AgentError;
  }

  lemma SoftDeleteAnswers(t: Tables, op: Op, rw: ReadWriteSet, c: Call)
    requires op.SoftDelete?
    ensures var r := ApplySoftDelete(Start(t, c), c, Some(rw), 0, op); r.Err? ==> AgentError(r.error, op)
  {
    TargetAnswers(t, rw, 0, op, false);
    hide Target;
    if op.memory in t.rows {
      var row := t.rows[op.memory];
      var before := StateOf(t, op.memory, row);
      WriteAnswers(Start(t, c), c, 0, SoftDeleted, op, row, before, before.(deleted := true));
    }
    hide WriteVersion;
    hide StateOf;
  }

  lemma CreateAnswers(t: Tables, op: Op, rw: ReadWriteSet, c: Call)
    requires op.Create? && op.cites == []
    ensures var r := ApplyCreate(Start(t, c), c, Some(rw), 0, op); r.Err? ==> AgentError(r.error, op)
  {
    assert Admit(Start(t, c), 0, None, [], Some(op.cites)) == Ok([]);
    hide Admit;
    hide Strip;
  }

  lemma OneAnswers(t: Tables, op: Op, rw: ReadWriteSet, c: Call)
    requires Inv(t) && Sendable(t, op, c)
    ensures var r := ApplyOne(Start(t, c), c, Some(rw), 0, op); r.Err? ==> AgentError(r.error, op)
  {
    match op
    case Create(_, _, _, _, _, _, _) => CreateAnswers(t, op, rw, c);
    case Update(_, _, _, _, _) => UpdateAnswers(t, op, rw, c);
    case SoftDelete(_, _, _) => SoftDeleteAnswers(t, op, rw, c);
    hide ApplyCreate;
    hide ApplyUpdate;
    hide ApplySoftDelete;
    hide AgentError;
    hide Inv;
  }

  // ---- what a write does ---------------------------------------------------------------

  /** An agent's operation is never turned down for its citations. */
  lemma {:induction false} AgentApplied(t: Tables, op: Op, rw: ReadWriteSet, c: Call)
    requires Inv(t) && Sendable(t, op, c)
    ensures var one, r := ApplyOne(Start(t, c), c, Some(rw), 0, op), ApplyOps(t, [op], Some(rw), c, None);
            && (one.Err? ==> r == Err(one.error))
            && (one.Ok? ==>
                  && r.Ok? && r.value.1.steps == [one.value.1]
                  && r.value.0.rows == one.value.0.tables.rows && r.value.0.projects == one.value.0.tables.projects)
  {
    hide *;
    OneOperation(t, op, rw, c);
    SendableParts(t, op, c);
    var one := ApplyOne(Start(t, c), c, Some(rw), 0, op);
    if one.Ok? {
      InvSound(t);
      AcyclicOf(t);
      StartUnderWay(t, c.newId(0));
      StartIs(t, c);
      OneKeeps(t, Start(t, c), c, Some(rw), 0, op);
      AdvancedParts(t, Start(t, c), one.value.0, one.value.1);
      AgentEdges(t, op, rw, c);
      NoLoops(t, one.value.0);
    }
    CommittedOne(t, op, rw, c);
  }

  lemma StartIs(t: Tables, c: Call)
    ensures Start(t, c) == Batch(t, c.newId(0), map[], []) && Start(t, c).tables == t
  {
  }

  lemma SendableParts(t: Tables, op: Op, c: Call)
    requires Sendable(t, op, c)
    ensures Valid(c, [op]) && c.newId(0) !in t.changes && !op.Restore?
  {
    hide Valid;
  }

  lemma CommittedOne(t: Tables, op: Op, rw: ReadWriteSet, c: Call)
    requires Valid(c, [op]) && c.newId(0) !in t.changes
    requires var one, all := ApplyOne(Start(t, c), c, Some(rw), 0, op), Applied(Start(t, c), c, Some(rw), [op], 1);
             if one.Err? then all == Err(one.error)
             else all == Ok((one.value.0, [one.value.1])) && LoopingFrom(one.value.0.tables, one.value.0.cited).None?
    ensures var one, r := ApplyOne(Start(t, c), c, Some(rw), 0, op), ApplyOps(t, [op], Some(rw), c, None);
            && (one.Err? ==> r == Err(one.error))
            && (one.Ok? ==>
                  && r.Ok? && r.value.1.steps == [one.value.1]
                  && r.value.0.rows == one.value.0.tables.rows && r.value.0.projects == one.value.0.tables.projects)
  {
    hide ApplyOne;
    hide Applied;
    hide Valid;
    hide LoopingFrom;
  }

  /** The memory an agent's operation touches is in a project it may write, which is not the global one. */
  ghost predicate Mine(t: Tables, t': Tables, rw: ReadWriteSet, id: Id) {
    && id in t'.rows && Kernel.Joined(t', id, true) == Some(t'.rows[id])
    && rw.Writable(t'.rows[id].project) && t'.rows[id].project in t.projects && !t.projects[t'.rows[id].project]
  }

  lemma AgentTouches(t: Tables, op: Op, rw: ReadWriteSet, c: Call)
    requires Inv(t) && Sendable(t, op, c) && ApplyOne(Start(t, c), c, Some(rw), 0, op).Ok?
    ensures var (b, step) := ApplyOne(Start(t, c), c, Some(rw), 0, op).value; Mine(t, b.tables, rw, step.memory)
    ensures var (b, step) := ApplyOne(Start(t, c), c, Some(rw), 0, op).value; !op.Create? ==> step.memory == op.memory
  {
    var b := Start(t, c);
    match op
    case Create(_, _, _, _, _, _, _) =>
      var sources, row := CreateParts(b, c, Some(rw), 0, op);
      Authorized(t, Some(rw), op.project);
    case Update(_, _, _, _, _) =>
      var row, before, after := UpdateParts(b, c, Some(rw), 0, op);
      var next, step := WriteParts(b, c, 0, Updated, op.memory, row, before, after);
      TargetAnswers(t, rw, 0, op, false);
    case SoftDelete(_, _, _) =>
      var row, before := SoftDeleteParts(b, c, Some(rw), 0, op);
      var next, step := WriteParts(b, c, 0, SoftDeleted, op.memory, row, before, before.(deleted := true));
      TargetAnswers(t, rw, 0, op, false);
    hide Inv;
    hide WriteVersion;
    hide Target;
    hide Derived;
    hide StateOf;
    hide Admit;
    hide AuthorizeCreate;
  }

  /** Every row that a change of an agent moved or made is one it may write. */
  ghost predicate OnlyMine(t: Tables, t': Tables, rw: ReadWriteSet) {
    forall id :: id in t'.rows && (id !in t.rows || t'.rows[id] != t.rows[id]) ==> Mine(t, t', rw, id)
  }

  lemma MineCommitted(t: Tables, t1: Tables, t': Tables, rw: ReadWriteSet, id: Id)
    requires Mine(t, t1, rw, id) && t'.rows == t1.rows && t'.projects == t1.projects
    ensures Mine(t, t', rw, id)
  {
  }

  lemma TouchedOnly(t: Tables, t': Tables, changeId: Id, change: Change, step: Step, rw: ReadWriteSet)
    requires ChangedBy(t, t', changeId, change) && change.steps == [step] && Mine(t, t', rw, step.memory)
    ensures OnlyMine(t, t', rw)
  {
    hide Extends;
    hide Mine;
  }

  lemma Accepted(t: Tables, op: Op, rw: ReadWriteSet, c: Call, step: Step)
    requires Sendable(t, op, c) && ApplyOps(t, [op], Some(rw), c, None).Ok?
    requires var (t', change) := ApplyOps(t, [op], Some(rw), c, None).value;
             change.steps == [step] && Mine(t, t', rw, step.memory)
    ensures var t', r := ApplyOps(t, [op], Some(rw), c, None).value.0, Write(t, op, rw, c);
            step.memory in t'.rows && r == Ok((t', t'.rows[step.memory]))
  {
    hide ApplyOps;
    hide Valid;
  }

  lemma SameStateTarget(t: Tables, op: Op, rw: ReadWriteSet, c: Call)
    requires Sendable(t, op, c) && ApplyOne(Start(t, c), c, Some(rw), 0, op).Err?
    requires var e := ApplyOne(Start(t, c), c, Some(rw), 0, op).error; e.BatchConflict? && e.reason.SameState? && AgentError(e, op)
    ensures !op.Create? && Mine(t, t, rw, op.memory)
  {
    TargetAnswers(t, rw, 0, op, false);
    TargetNeverSame(t, rw, 0, op);
    hide Target;
    hide WriteVersion;
    hide Derived;
    hide StateOf;
    hide ApplyCreate;
    hide Admit;
    hide Valid;
  }

  lemma TargetNeverSame(t: Tables, rw: ReadWriteSet, index: nat, op: Op)
    requires !op.Create?
    ensures var r := Target(t, Some(rw), index, op.memory, op.expected, false); r.Err? ==> !r.error.BatchConflict?
  {
  }

  lemma Unchanged(t: Tables, op: Op, rw: ReadWriteSet, c: Call)
    requires Sendable(t, op, c) && !op.Create? && Mine(t, t, rw, op.memory)
    requires var r := ApplyOps(t, [op], Some(rw), c, None); r.Err? && r.error.BatchConflict? && r.error.reason.SameState?
    ensures op.memory in t.rows && Write(t, op, rw, c) == Ok((t, t.rows[op.memory]))
    ensures Extends(t, t) && OnlyMine(t, t, rw)
  {
    hide ApplyOps;
    hide Valid;
  }

  lemma TurnedDown(t: Tables, op: Op, rw: ReadWriteSet, c: Call)
    requires Sendable(t, op, c)
    requires var r := ApplyOps(t, [op], Some(rw), c, None); r.Err? && !(r.error.BatchConflict? && r.error.reason.SameState?)
    ensures Write(t, op, rw, c) == Err(ApplyOps(t, [op], Some(rw), c, None).error)
  {
    hide ApplyOps;
    hide Valid;
  }

  /** A memory that is absent, deleted or of a project the caller may not read: one answer for all. */
  lemma {:induction false} HiddenIsAbsent(t: Tables, op: Op, rw: ReadWriteSet, c: Call)
    requires Sendable(t, op, c) && !op.Create?
    requires op.memory !in t.rows || t.rows[op.memory].deletedAt.Some? || !rw.Readable(t.rows[op.memory].project)
    ensures Write(t, op, rw, c) == Err(MemoryNotFound(op.memory))
  {
    hide *;
    OneOperation(t, op, rw, c);
    SendableParts(t, op, c);
    HiddenTarget(t, op, rw, c);
    CommittedOne(t, op, rw, c);
    TurnedDown(t, op, rw, c);
  }

  lemma HiddenTarget(t: Tables, op: Op, rw: ReadWriteSet, c: Call)
    requires !op.Create? && !op.Restore?
    requires op.memory !in t.rows || t.rows[op.memory].deletedAt.Some? || !rw.Readable(t.rows[op.memory].project)
    ensures ApplyOne(Start(t, c), c, Some(rw), 0, op) == Err(MemoryNotFound(op.memory))
  {
    assert Target(t, Some(rw), 0, op.memory, op.expected, false) == Err(MemoryNotFound(op.memory));
    hide Target;
    hide WriteVersion;
    hide Derived;
    hide Admit;
  }

  lemma NothingAsked(t: Tables, op: Op, c: Call)
    requires Sendable(t, op, c)
    ensures AskedEdges([op], c) == {} && AllApart([op], c) && Edges(t) + {} == Edges(t)
    ensures Asked(op).None? || Asked(op) == Some([])
  {
    hide Edges, Valid;
    assert [op][0] == op;
    assert forall j, r: Ref :: 0 <= j < |[op]| && Asked([op][j]).Some? ==> r !in Asked([op][j]).value;
  }

  /** An agent's operation is carried out exactly where it may be, on the store as it is. */
  lemma AgentAccepted(t: Tables, op: Op, rw: ReadWriteSet, c: Call)
    requires Inv(t) && Sendable(t, op, c)
    ensures ApplyOps(t, [op], Some(rw), c, None).Ok? <==> Accepts(t, op, Some(rw), c, 0)
  {
    hide *;
    ChangeIff(t, [op], Some(rw), c, None);
    AcceptableIs(t, [op], Some(rw), c);
    SendableParts(t, op, c);
    NothingAsked(t, op, c);
    AcyclicOf(t);
    assert (forall j :: 0 <= j < |[op]| ==> Accepts(t, [op][j], Some(rw), c, j)) <==> Accepts(t, [op][0], Some(rw), c, 0);
  }

  /** It asks for the state the memory is in. */
  ghost predicate SameAgain(t: Tables, op: Op, rw: ReadWriteSet) {
    MayChange(t, Some(rw), op) && Unread(t, op) && WasThere(t, op) && Records(t, op, Was(t, op))
  }

  lemma SameRefused(t: Tables, op: Op, rw: ReadWriteSet, c: Call, e: Error)
    requires Sendable(t, op, c) && RefusedFor(t, op, Some(rw), c, 0, e)
    ensures e.BatchConflict? && e.reason.SameState? <==> SameAgain(t, op, rw)
  {
    if SameAgain(t, op, rw) {
      forall s | Records(t, op, s) ensures s == Was(t, op) { RecordsOne(t, op, s, Was(t, op)); }
      if op.Restore? { RestoreRecorded(t, op); }
    }
    hide Records, Was, CitesTwice, EarlierCites, CurrentAt, Valid;
  }

  lemma NoCycleOfOne(t: Tables, op: Op, c: Call)
    requires Inv(t) && Sendable(t, op, c)
    ensures !OnCycle(t, [op], c, 0)
  {
    NothingAsked(t, op, c);
    AcyclicOf(t);
    hide Edges, Valid, Inv, AskedEdges, Reaches, Sendable;
    var edges := Edges(t) + AskedEdges([op], c);
    assert edges == Edges(t);
    forall y | (Touched([op][0], c, 0), y) in edges ensures !Reaches(edges, y, Touched([op][0], c, 0)) {
      assert !Reaches(Edges(t), y, Touched([op][0], c, 0));
    }
  }

  /** Any refusal of an agent's operation holds of it, on the store as it is. */
  lemma AgentRefused(t: Tables, op: Op, rw: ReadWriteSet, c: Call)
    requires Inv(t) && Sendable(t, op, c) && ApplyOps(t, [op], Some(rw), c, None).Err?
    ensures RefusedFor(t, op, Some(rw), c, 0, ApplyOps(t, [op], Some(rw), c, None).error)
  {
    hide *;
    ChangeRefused(t, [op], Some(rw), c, None) by { NothingAsked(t, op, c); }
    NoCycleOfOne(t, op, c);
    OnlyRefusal(t, op, rw, c, ApplyOps(t, [op], Some(rw), c, None).error);
  }

  lemma OnlyRefusal(t: Tables, op: Op, rw: ReadWriteSet, c: Call, e: Error)
    requires Sendable(t, op, c) && Justified(t, [op], Some(rw), c, e) && !OnCycle(t, [op], c, 0)
    ensures RefusedFor(t, op, Some(rw), c, 0, e)
  {
    hide RefusedFor, OnCycle, Accepts, Valid;
  }

  /**
   An agent is answered only as an agent may be, and truly. A write goes through exactly where the operation
   may be carried out or asks for the state there is; it then writes the one version it asks for, or nothing;
   nothing outside the caller's own project has moved, history is kept, and the memory returned is the stored
   one, of that project.
   */
  ghost predicate Answers(t: Tables, op: Op, rw: ReadWriteSet, c: Call, r: Result<(Tables, Row), Error>) {
    && (r.Ok? <==> Accepts(t, op, Some(rw), c, 0) || SameAgain(t, op, rw))
    && (r.Err? ==> AgentError(r.error, op) && RefusedFor(t, op, Some(rw), c, 0, r.error)
                   && !(r.error.BatchConflict? && r.error.reason.SameState?))
    && (r.Ok? ==>
          && Extends(t, r.value.0) && OnlyMine(t, r.value.0, rw)
          && (if Accepts(t, op, Some(rw), c, 0) then Wrote(t, r.value.0, op, c, 0, StepFor(op, c, 0)) else r.value.0 == t)
          && var id := Touched(op, c, 0); Mine(t, r.value.0, rw, id) && r.value.0.rows[id] == r.value.1)
  }

  lemma {:induction false} AgentWrite(t: Tables, op: Op, rw: ReadWriteSet, c: Call)
    requires Inv(t) && Sendable(t, op, c)
    ensures Answers(t, op, rw, c, Write(t, op, rw, c))
  {
    hide *;
    AnswersIs(t, op, rw, c, Write(t, op, rw, c));
    AgentApplied(t, op, rw, c);
    OneAnswers(t, op, rw, c);
    AgentAccepted(t, op, rw, c);
    var one, all := ApplyOne(Start(t, c), c, Some(rw), 0, op), ApplyOps(t, [op], Some(rw), c, None);
    if one.Ok? {
      AgentTouches(t, op, rw, c);
      ApplyKeeps(t, [op], Some(rw), c, None);
      ChangeRecords(t, [op], Some(rw), c, None);
      RecordedIs(t, all.value.0, [op], c, all.value.1, None);
      assert Wrote(t, all.value.0, [op][0], c, 0, all.value.1.steps[0]);
      WroteRecords(t, all.value.0, op, c, 0, one.value.1);
      WroteStep(t, all.value.0, op, c, 0, one.value.1);
      ChangedByParts(t, all.value.0, c.newId(0), all.value.1);
      MineCommitted(t, one.value.0.tables, all.value.0, rw, one.value.1.memory);
      TouchedOnly(t, all.value.0, c.newId(0), all.value.1, one.value.1, rw);
      Accepted(t, op, rw, c, one.value.1);
    } else {
      AgentRefused(t, op, rw, c);
      SameRefused(t, op, rw, c, all.error);
      if one.error.BatchConflict? && one.error.reason.SameState? {
        SameStateTarget(t, op, rw, c);
        Unchanged(t, op, rw, c);
        TouchedIs(op, c, 0);
      } else {
        TurnedDown(t, op, rw, c);
      }
    }
  }

  lemma TouchedIs(op: Op, c: Call, index: nat)
    ensures Touched(op, c, index) == if op.Create? then c.newId(index + 1) else op.memory
  {
  }

  lemma WroteStep(t: Tables, t': Tables, op: Op, c: Call, index: nat, step: Step)
    requires Wrote(t, t', op, c, index, step)
    ensures step == StepFor(op, c, index)
  {
    hide Records, NewRow;
  }

  lemma AnswersIs(t: Tables, op: Op, rw: ReadWriteSet, c: Call, r: Result<(Tables, Row), Error>)
    ensures r.Err? ==>
      (Answers(t, op, rw, c, r) <==>
         && !Accepts(t, op, Some(rw), c, 0) && !SameAgain(t, op, rw) && AgentError(r.error, op) && RefusedFor(t, op, Some(rw), c, 0, r.error)
         && !(r.error.BatchConflict? && r.error.reason.SameState?))
    ensures r.Ok? ==>
      (Answers(t, op, rw, c, r) <==>
         && (Accepts(t, op, Some(rw), c, 0) || SameAgain(t, op, rw)) && Extends(t, r.value.0) && OnlyMine(t, r.value.0, rw)
         && (if Accepts(t, op, Some(rw), c, 0) then Wrote(t, r.value.0, op, c, 0, StepFor(op, c, 0)) else r.value.0 == t)
         && Mine(t, r.value.0, rw, Touched(op, c, 0)) && r.value.0.rows[Touched(op, c, 0)] == r.value.1)
  {
    hide Accepts, SameAgain, AgentError, RefusedFor, Extends, OnlyMine, Wrote;
  }
}
