/**
 A change lands on a memory only at the version it expects, and from then on that version is past:
 the row of a memory only moves forward, whatever others do, as long as its id is not drawn again.
 `ChangeLands` is about one committed change, `RunIsForward` about any run of the store's calls.
 */
module KernelVersions {
  import opened Basics
  import opened Kernel
  import opened KernelInvariant
  import opened KernelRuns
  import opened HardDelete

  /** No id drawn by the call is `m`: ids are random and never come back. */
  ghost predicate Spares(c: Call, m: Id) { forall i :: c.newId(i) != m }

  /** What one operation does to the row of `m`. */
  ghost predicate Lands(rows: map<Id, Row>, rows': map<Id, Row>, op: Op, m: Id) {
    if !op.Create? && op.memory == m then
      m in rows && rows[m].version == op.expected && m in rows' && rows'[m].version == op.expected + 1
    else (m in rows' <==> m in rows) && (m in rows ==> rows'[m] == rows[m])
  }

  lemma WrittenLands(b: Batch, c: Call, index: nat, name: OpName, op: Op, row: Row, before: State, after: State, m: Id)
    requires !op.Create? && op.memory in b.tables.rows && row == b.tables.rows[op.memory] && row.version == op.expected
    requires WriteVersion(b, c, index, name, op.memory, row, before, after).Ok?
    ensures Lands(b.tables.rows, WriteVersion(b, c, index, name, op.memory, row, before, after).value.0.tables.rows, op, m)
  {
    var next, step := WriteParts(b, c, index, name, op.memory, row, before, after);
  }

  lemma UpdateLands(b: Batch, c: Call, rw: Option<ReadWriteSet>, index: nat, op: Op, m: Id)
    requires op.Update? && ApplyUpdate(b, c, rw, index, op).Ok?
    ensures Lands(b.tables.rows, ApplyUpdate(b, c, rw, index, op).value.0.tables.rows, op, m)
  {
    hide *;
    var row, before, after := UpdateParts(b, c, rw, index, op);
    TargetIs(b.tables, rw, index, op.memory, op.expected, false);
    WrittenLands(b, c, index, Updated, op, row, before, after, m);
  }

  lemma SoftDeleteLands(b: Batch, c: Call, rw: Option<ReadWriteSet>, index: nat, op: Op, m: Id)
    requires op.SoftDelete? && ApplySoftDelete(b, c, rw, index, op).Ok?
    ensures Lands(b.tables.rows, ApplySoftDelete(b, c, rw, index, op).value.0.tables.rows, op, m)
  {
    hide *;
    var row, before := SoftDeleteParts(b, c, rw, index, op);
    TargetIs(b.tables, rw, index, op.memory, op.expected, false);
    WrittenLands(b, c, index, SoftDeleted, op, row, before, before.(deleted := true), m);
  }

  lemma RestoreLands(b: Batch, c: Call, rw: Option<ReadWriteSet>, index: nat, op: Op, m: Id)
    requires op.Restore? && ApplyRestore(b, c, rw, index, op).Ok?
    ensures Lands(b.tables.rows, ApplyRestore(b, c, rw, index, op).value.0.tables.rows, op, m)
  {
    hide *;
    var row, after := RestoreParts(b, c, rw, index, op);
    TargetIs(b.tables, rw, index, op.memory, op.expected, true);
    WrittenLands(b, c, index, Restored, op, row, StateOf(b.tables, op.memory, row), after, m);
  }

  lemma CreateLands(b: Batch, c: Call, rw: Option<ReadWriteSet>, index: nat, op: Op, m: Id)
    requires op.Create? && ApplyCreate(b, c, rw, index, op).Ok? && Spares(c, m)
    ensures Lands(b.tables.rows, ApplyCreate(b, c, rw, index, op).value.0.tables.rows, op, m)
  {
    hide AuthorizeCreate, Admit, OwnOrDerived;
    assert c.newId(index + 1) != m;
  }

  lemma OneLands(b: Batch, c: Call, rw: Option<ReadWriteSet>, index: nat, op: Op, m: Id)
    requires ApplyOne(b, c, rw, index, op).Ok? && Spares(c, m)
    ensures Lands(b.tables.rows, ApplyOne(b, c, rw, index, op).value.0.tables.rows, op, m)
  {
    hide ApplyCreate, ApplyUpdate, ApplySoftDelete, ApplyRestore, Lands, Spares;
    match op
    case Create(_, _, _, _, _, _, _) => CreateLands(b, c, rw, index, op, m);
    case Update(_, _, _, _, _) => UpdateLands(b, c, rw, index, op, m);
    case SoftDelete(_, _, _) => SoftDeleteLands(b, c, rw, index, op, m);
    case Restore(_, _, _) => RestoreLands(b, c, rw, index, op, m);
  }

  /** The operation of the change that names `m`. */
  ghost predicate Names(ops: seq<Op>, j: int, m: Id) {
    0 <= j < |ops| && !ops[j].Create? && ops[j].memory == m
  }

  /** What the first `n` operations do to the row of `m`. */
  ghost predicate AllLand(rows: map<Id, Row>, rows': map<Id, Row>, ops: seq<Op>, n: nat, m: Id) {
    && (forall j :: Names(ops, j, m) && j < n ==>
          m in rows && rows[m].version == ops[j].expected && m in rows' && rows'[m].version == ops[j].expected + 1)
    && ((forall j :: Names(ops, j, m) ==> j >= n) ==> (m in rows' <==> m in rows) && (m in rows ==> rows'[m] == rows[m]))
  }

  lemma {:induction false} AppliedLands(b: Batch, c: Call, rw: Option<ReadWriteSet>, ops: seq<Op>, n: nat, m: Id)
    requires n <= |ops| && !TwiceNamed(ops) && Spares(c, m) && Applied(b, c, rw, ops, n).Ok?
    ensures AllLand(b.tables.rows, Applied(b, c, rw, ops, n).value.0.tables.rows, ops, n, m)
    decreases n
  {
    hide *;
    if n == 0 {
      NothingLands(b, c, rw, ops, m);
    } else {
      var b1, steps, b2, step := AppliedStep(b, c, rw, ops, n);
      AppliedLands(b, c, rw, ops, n - 1, m);
      OneLands(b1, c, rw, n - 1, ops[n - 1], m);
      AllLandNext(b.tables.rows, b1.tables.rows, b2.tables.rows, ops, n, m);
    }
  }

  lemma NothingLands(b: Batch, c: Call, rw: Option<ReadWriteSet>, ops: seq<Op>, m: Id)
    ensures Applied(b, c, rw, ops, 0) == Ok((b, [])) && AllLand(b.tables.rows, b.tables.rows, ops, 0, m)
  {
    forall j | Names(ops, j, m) ensures j >= 0 {}
  }

  lemma AllLandNext(rows: map<Id, Row>, rows1: map<Id, Row>, rows2: map<Id, Row>, ops: seq<Op>, n: nat, m: Id)
    requires 0 < n <= |ops| && !TwiceNamed(ops)
    requires AllLand(rows, rows1, ops, n - 1, m) && Lands(rows1, rows2, ops[n - 1], m)
    ensures AllLand(rows, rows2, ops, n, m)
  {
    if Names(ops, n - 1, m) {
      forall j | Names(ops, j, m) ensures j == n - 1 { assert j == n - 1 || TwiceNamed(ops); }
    }
  }

  lemma ValidNamesOnce(c: Call, ops: seq<Op>)
    requires Kernel.Valid(c, ops)
    ensures !TwiceNamed(ops)
  {
  }

  /** A change that commits found every memory it names at the version expected, and moved it on by one. */
  lemma ChangeLands(t: Tables, ops: seq<Op>, rw: Option<ReadWriteSet>, c: Call, undoes: Option<Id>, m: Id)
    requires Spares(c, m) && ApplyOps(t, ops, rw, c, undoes).Ok?
    ensures AllLand(t.rows, ApplyOps(t, ops, rw, c, undoes).value.0.rows, ops, |ops|, m)
  {
    ValidNamesOnce(c, ops);
    AppliedLands(Batch(t, c.newId(0), map[], []), c, rw, ops, |ops|, m);
    hide Applied, AllLand, Spares, LoopingFrom, TwiceTouched, Kernel.Valid;
  }

  /** The row of `m` is gone, or has not gone back. */
  ghost predicate Forward(rows: map<Id, Row>, rows': map<Id, Row>, m: Id) {
    m in rows' ==> m in rows && rows'[m].version >= rows[m].version
  }

  lemma LandingIsForward(rows: map<Id, Row>, rows': map<Id, Row>, ops: seq<Op>, m: Id)
    requires AllLand(rows, rows', ops, |ops|, m)
    ensures Forward(rows, rows', m)
  {
    if j :| Names(ops, j, m) && j < |ops| {
    } else {
      assert forall j :: Names(ops, j, m) ==> j >= |ops|;
    }
  }

  lemma ChangeIsForward(t: Tables, ops: seq<Op>, rw: Option<ReadWriteSet>, c: Call, undoes: Option<Id>, m: Id)
    requires Spares(c, m)
    ensures var r := ApplyOps(t, ops, rw, c, undoes); r.Ok? ==> Forward(t.rows, r.value.0.rows, m)
  {
    hide *;
    var r := ApplyOps(t, ops, rw, c, undoes);
    if r.Ok? {
      ChangeLands(t, ops, rw, c, undoes, m);
      LandingIsForward(t.rows, r.value.0.rows, ops, m);
    }
  }

  /** An event whose calls do not draw the id. */
  ghost predicate EventSpares(e: Event, m: Id) {
    match e
    case Applying(_, c) => Spares(c, m)
    case Undoing(_, c) => Spares(c, m)
    case AgentWriting(_, _, c) => Spares(c, m)
    case _ => true
  }

  lemma UndoIsForward(t: Tables, e: Event, m: Id)
    requires e.Undoing? && Spares(e.call, m)
    ensures Forward(t.rows, After(t, e).rows, m)
  {
    if e.change in t.changes { ChangeIsForward(t, Inverses(t.changes[e.change].steps), None, e.call, Some(e.change), m); }
    hide ApplyOps, Spares;
  }

  lemma WriteIsForward(t: Tables, e: Event, m: Id)
    requires e.AgentWriting? && Spares(e.call, m)
    ensures Forward(t.rows, After(t, e).rows, m)
  {
    ChangeIsForward(t, [e.op], Some(e.rw), e.call, None, m);
    hide ApplyOps, Spares;
  }

  lemma DeleteIsForward(t: Tables, e: Event, m: Id)
    requires e.HardDeleting?
    ensures Forward(t.rows, After(t, e).rows, m)
  {
    hide Members, Expected;
  }

  lemma EventIsForward(t: Tables, e: Event, m: Id)
    requires EventSpares(e, m)
    ensures Forward(t.rows, After(t, e).rows, m)
  {
    match e
    case Applying(ops, c) =>
      ChangeIsForward(t, ops, None, c, None, m);
      hide ApplyOps, Spares;
    case Undoing(_, _) => UndoIsForward(t, e, m);
    case AgentWriting(_, _, _) => WriteIsForward(t, e, m);
    case HardDeleting(_, _, _, _) => DeleteIsForward(t, e, m);
    case AddProject(_, _) =>
    case Reading(_, _) =>
  }

  lemma {:induction false} RunIsForward(t: Tables, events: seq<Event>, m: Id)
    requires forall e :: e in events ==> EventSpares(e, m)
    ensures Forward(t.rows, Run(t, events).rows, m)
    decreases |events|
  {
    hide After, EventSpares;
    if events != [] {
      var before, e := events[..|events| - 1], events[|events| - 1];
      assert e in events;
      RunIsForward(t, before, m);
      EventIsForward(Run(t, before), e, m);
    }
  }
}
