/**
 The versioned memory store: what one write transaction does to its tables. A change is a
 batch of operations applied one after the other to a working copy, checked for citation
 cycles at the end, and committed whole or not at all.
 */
module Kernel {
  import opened Basics
  import opened PyText
  import opened Graphs

  /** Ids are fixed-width text; the number stands for its place in text order. */
  datatype Id = Id(n: nat)

  /** Fixed-width timestamps, ordered like numbers. */
  type Time = int

  datatype Kind = UserKind | Feedback | ProjectKind | Reference

  datatype Trust = UntrustedDerived | Agent | User

  /** One cited version of a memory. */
  datatype Ref = Ref(memory: Id, version: int)

  /** Everything one version records. */
  datatype State = State(kind: Kind, trust: Trust, sync: bool, description: string, body: string,
                         deleted: bool, sources: seq<Ref>)

  datatype Row = Row(project: Id, harness: string, method_: string, version: int, kind: Kind, trust: Trust,
                     sync: bool, description: string, body: string, updated: Time,
                     deletedAt: Option<Time>, lastRead: Option<Time>)

  datatype Version = Version(state: State, change: Id)

  datatype OpName = Created | Updated | SoftDeleted | Restored

  datatype Op =
    | Create(project: Id, kind: Kind, description: string, body: string, cites: seq<Ref>, trust: Trust, sync: bool)
    | Update(memory: Id, expected: int, newDescription: Option<string>, newBody: Option<string>, newCites: Option<seq<Ref>>)
    | SoftDelete(memory: Id, expected: int, unreadSince: Option<Time>)
    | Restore(memory: Id, expected: int, toVersion: int)

  datatype Step = Step(step: nat, memory: Id, op: OpName, before: Option<int>, after: int)

  /** `steps` are the steps still stored. */
  datatype Change = Change(at: Time, changedBy: string, changedVia: Option<string>, stepCount: nat,
                           undoes: Option<Id>, steps: seq<Step>)

  /** The tables: the flag of a project says that it is the global one. */
  datatype Tables = Tables(projects: map<Id, bool>, rows: map<Id, Row>, versions: map<Ref, Version>, changes: map<Id, Change>)

  datatype ReadWriteSet = ReadWriteSet(project: Option<Id>, globalProject: Option<Id>) {
    predicate Readable(p: Id) { project == Some(p) || globalProject == Some(p) }

    predicate Writable(p: Id) { project == Some(p) && project != globalProject }
  }

  datatype Reason = Missing | StaleVersion | Deleted | SameState | ReadSince | Source | Cycle

  /** What a hard delete takes, and the citations that are why. */
  datatype Plan = Plan(target: Id, members: set<Id>, citations: set<(Ref, Ref)>)

  datatype UndoReason = NotFound | HardDeleted | Changed(moved: set<Id>)

  datatype Error =
    | BadValue
    | IdCollision(id: Id)
    | BatchConflict(index: nat, of: Option<Id>, reason: Reason)
    | ContentRejected(rule: string, rejected: Option<Id>)
    | ProjectNotFound(project: Id)
    | ProjectUnavailable
    | GlobalReadOnly
    | MemoryNotFound(memory: Id)
    | VersionConflict(memory: Id)
    | UndoRefused(why: UndoReason)
    | PlanChanged(plan: Plan)
    | StorageFailure

  /** Who calls, what the content policy says, the clock, and the ids drawn: the change's is `newId(0)`. */
  datatype Call = Call(changedBy: string, changedVia: Option<string>, check: (string, string) -> Option<string>,
                       now: Time, newId: nat -> Id)

  /** One change being written: `before` is what each memory was before it, `cited` the new versions with sources. */
  datatype Batch = Batch(tables: Tables, changeId: Id, before: map<Id, Option<(int, bool)>>, cited: seq<(nat, Ref)>)

  // ---- reading -------------------------------------------------------------------------

  function SourcesOf(t: Tables, k: Ref): seq<Ref> {
    if k in t.versions then t.versions[k].state.sources else []
  }

  function StateOf(t: Tables, id: Id, row: Row): State {
    RowState(row, SourcesOf(t, Ref(id, row.version)))
  }

  function RowState(row: Row, sources: seq<Ref>): State {
    State(row.kind, row.trust, row.sync, row.description, row.body, row.deletedAt.Some?, sources)
  }

  /** `_joined`: the row of a memory whose project is there. */
  function Joined(t: Tables, id: Id, includeDeleted: bool): Option<Row> {
    if id in t.rows && t.rows[id].project in t.projects && (includeDeleted || t.rows[id].deletedAt.None?)
    then Some(t.rows[id])
    else None
  }

  // ---- one operation -------------------------------------------------------------------

  /** `_writable`. */
  function Writable(t: Tables, id: Id, rw: ReadWriteSet): Result<Row, Error> {
    match Joined(t, id, false)
    case None => Err(MemoryNotFound(id))
    case Some(row) =>
      if !rw.Readable(row.project) then Err(MemoryNotFound(id))
      else if rw.globalProject == Some(row.project) then Err(GlobalReadOnly)
      else if row.project in t.projects && t.projects[row.project] then Err(GlobalReadOnly)
      else if !rw.Writable(row.project) then Err(MemoryNotFound(id))
      else Ok(row)
  }

  /** `_target`. */
  function Target(t: Tables, rw: Option<ReadWriteSet>, index: nat, id: Id, expected: int, allowDeleted: bool): Result<Row, Error> {
    match rw
    case Some(set_) =>
      (match Writable(t, id, set_)
       case Err(e) => Err(e)
       case Ok(row) => if row.version != expected then Err(VersionConflict(id)) else Ok(row))
    case None =>
      match Joined(t, id, true)
      case None => Err(BatchConflict(index, Some(id), Missing))
      case Some(row) =>
        if row.version != expected then Err(BatchConflict(index, Some(id), StaleVersion))
        else if row.deletedAt.Some? && !allowDeleted then Err(BatchConflict(index, Some(id), Deleted))
        else Ok(row)
  }

  function Insert(r: Ref, rs: seq<Ref>): (sorted: seq<Ref>)
    ensures multiset(sorted) == multiset([r] + rs)
  {
    if rs == [] || r.memory.n <= rs[0].memory.n then [r] + rs
    else
      assert [r] + rs == [r, rs[0]] + rs[1..];
      [rs[0]] + Insert(r, rs[1..])
  }

  /** Sorted by the cited memory. */
  function Sorted(rs: seq<Ref>): (sorted: seq<Ref>)
    ensures multiset(sorted) == multiset(rs)
  {
    if rs == [] then []
    else
      assert rs == [rs[0]] + rs[1..];
      Insert(rs[0], Sorted(rs[1..]))
  }

  predicate CitesTwice(rs: seq<Ref>) {
    exists i, j :: 0 <= i < j < |rs| && rs[i].memory == rs[j].memory
  }

  /** `_pre_batch`: a memory's version and whether it was deleted, before the change. */
  function PreBatch(b: Batch, id: Id): Option<(int, bool)> {
    if id in b.before then b.before[id]
    else if id in b.tables.rows then Some((b.tables.rows[id].version, b.tables.rows[id].deletedAt.Some?))
    else None
  }

  /** `_admit`: a new citation is of a memory's current version, not deleted, as it stood before the change. */
  function Admit(b: Batch, index: nat, id: Option<Id>, current: seq<Ref>, requested: Option<seq<Ref>>): Result<seq<Ref>, Error> {
    match requested
    case None => Ok(current)
    case Some(rs) =>
      var refs := Sorted(rs);
      if CitesTwice(refs) then Err(BadValue) else AdmitEach(b, index, id, current, refs)
  }

  function AdmitEach(b: Batch, index: nat, id: Option<Id>, current: seq<Ref>, refs: seq<Ref>): Result<seq<Ref>, Error> {
    if refs == [] then Ok([])
    else if id == Some(refs[0].memory) then Err(BatchConflict(index, id, Cycle))
    else if refs[0] !in current && PreBatch(b, refs[0].memory) != Some((refs[0].version, false)) then
      Err(BatchConflict(index, id, Source))
    else
      match AdmitEach(b, index, id, current, refs[1..])
      case Err(e) => Err(e)
      case Ok(rest) => Ok([refs[0]] + rest)
  }

  function Rank(t: Trust): nat { match t case UntrustedDerived => 0 case Agent => 1 case User => 2 }

  /** `_derived`: the lowest trust of all, and sync only when all sync. */
  function Derived(t: Tables, index: nat, id: Option<Id>, trust: Trust, sync: bool, refs: seq<Ref>): Result<(Trust, bool), Error>
    decreases refs
  {
    if refs == [] then Ok((trust, sync))
    else if refs[0] !in t.versions then Err(BatchConflict(index, id, Source))
    else
      var cited := t.versions[refs[0]].state;
      Derived(t, index, id, if Rank(cited.trust) < Rank(trust) then cited.trust else trust, sync && cited.sync, refs[1..])
  }

  /** `now_strictly_after`. */
  function Later(now: Time, previous: Time): Time { if now > previous then now else previous + 1 }

  function InsertVersion(b: Batch, index: nat, k: Ref, state: State): Batch {
    b.(tables := b.tables.(versions := b.tables.versions[k := Version(state, b.changeId)]),
       cited := b.cited + (if state.sources == [] then [] else [(index, k)]))
  }

  /** `_write_version`: the next version of `row` in state `after`. */
  function WriteVersion(b: Batch, c: Call, index: nat, op: OpName, id: Id, row: Row, before: State, after: State): Result<(Batch, Step), Error> {
    if after == before then Err(BatchConflict(index, Some(id), SameState))
    else
      match c.check(after.description, after.body)
      case Some(rule) => Err(ContentRejected(rule, Some(id)))
      case None =>
        var updated := Later(c.now, row.updated);
        var next := row.(kind := after.kind, trust := after.trust, sync := after.sync, description := after.description,
                         body := after.body, updated := updated, version := row.version + 1,
                         deletedAt := if after.deleted then Some(updated) else None);
        var noted := if id in b.before then b.before else b.before[id := Some((row.version, before.deleted))];
        var b1 := b.(tables := b.tables.(rows := b.tables.rows[id := next]), before := noted);
        Ok((InsertVersion(b1, index, Ref(id, next.version), after), Step(index + 1, id, op, Some(row.version), next.version)))
  }

  function AuthorizeCreate(t: Tables, rw: Option<ReadWriteSet>, p: Id): Option<Error> {
    match rw
    case None => if p in t.projects then None else Some(ProjectNotFound(p))
    case Some(set_) =>
      if set_.globalProject == Some(p) then Some(GlobalReadOnly)
      else if !set_.Writable(p) then Some(ProjectUnavailable)
      else if p !in t.projects then Some(ProjectUnavailable)
      else if t.projects[p] then Some(GlobalReadOnly)
      else None
  }

  /** With sources, trust and sync come from them alone. */
  function OwnOrDerived(t: Tables, index: nat, op: Op, sources: seq<Ref>): Result<(Trust, bool), Error>
    requires op.Create?
  {
    if sources == [] then Ok((op.trust, op.sync)) else Derived(t, index, None, User, true, sources)
  }

  function ApplyCreate(b: Batch, c: Call, rw: Option<ReadWriteSet>, index: nat, op: Op): Result<(Batch, Step), Error>
    requires op.Create?
  {
    var refused := AuthorizeCreate(b.tables, rw, op.project);
    if refused.Some? then Err(refused.value)
    else
      match Admit(b, index, None, [], Some(op.cites))
      case Err(e) => Err(e)
      case Ok(sources) =>
        match OwnOrDerived(b.tables, index, op, sources)
        case Err(e) => Err(e)
        case Ok((trust, sync)) =>
          var id := c.newId(index + 1);
          var row := Row(op.project, if c.changedVia.Some? then c.changedVia.value else "unknown", c.changedBy, 1, op.kind,
                         trust, sync, Strip(op.description), Strip(op.body), c.now, None, None);
          match c.check(row.description, row.body)
          case Some(rule) => Err(ContentRejected(rule, None))
          case None =>
            if id in b.tables.rows then Err(IdCollision(id))
            else
              var b1 := b.(tables := b.tables.(rows := b.tables.rows[id := row]), before := b.before[id := None]);
              Ok((InsertVersion(b1, index, Ref(id, 1), RowState(row, sources)), Step(index + 1, id, Created, None, 1)))
  }

  function ApplyUpdate(b: Batch, c: Call, rw: Option<ReadWriteSet>, index: nat, op: Op): Result<(Batch, Step), Error>
    requires op.Update?
  {
    match Target(b.tables, rw, index, op.memory, op.expected, false)
    case Err(e) => Err(e)
    case Ok(row) =>
      var before := StateOf(b.tables, op.memory, row);
      match Admit(b, index, Some(op.memory), before.sources, op.newCites)
      case Err(e) => Err(e)
      case Ok(sources) =>
        match Derived(b.tables, index, Some(op.memory), before.trust, before.sync, sources)
        case Err(e) => Err(e)
        case Ok((trust, sync)) =>
          var after := before.(trust := trust, sync := sync, sources := sources,
                               description := if op.newDescription.None? then before.description else Strip(op.newDescription.value),
                               body := if op.newBody.None? then before.body else Strip(op.newBody.value));
          WriteVersion(b, c, index, Updated, op.memory, row, before, after)
  }

  function ApplySoftDelete(b: Batch, c: Call, rw: Option<ReadWriteSet>, index: nat, op: Op): Result<(Batch, Step), Error>
    requires op.SoftDelete?
  {
    match Target(b.tables, rw, index, op.memory, op.expected, false)
    case Err(e) => Err(e)
    case Ok(row) =>
      if op.unreadSince.Some? && row.lastRead.Some? && row.lastRead.value >= op.unreadSince.value then
        Err(BatchConflict(index, Some(op.memory), ReadSince))
      else
        var before := StateOf(b.tables, op.memory, row);
        WriteVersion(b, c, index, SoftDeleted, op.memory, row, before, before.(deleted := true))
  }

  function ApplyRestore(b: Batch, c: Call, rw: Option<ReadWriteSet>, index: nat, op: Op): Result<(Batch, Step), Error>
    requires op.Restore?
  {
    match Target(b.tables, rw, index, op.memory, op.expected, true)
    case Err(e) => Err(e)
    case Ok(row) =>
      var k := Ref(op.memory, op.toVersion);
      if k !in b.tables.versions then Err(BatchConflict(index, Some(op.memory), Missing))
      else
        var after := b.tables.versions[k].state;
        if exists r :: r in after.sources && r !in b.tables.versions then Err(BatchConflict(index, Some(op.memory), Source))
        else WriteVersion(b, c, index, Restored, op.memory, row, StateOf(b.tables, op.memory, row), after)
  }

  function ApplyOne(b: Batch, c: Call, rw: Option<ReadWriteSet>, index: nat, op: Op): Result<(Batch, Step), Error> {
    match op
    case Create(_, _, _, _, _, _, _) => ApplyCreate(b, c, rw, index, op)
    case Update(_, _, _, _, _) => ApplyUpdate(b, c, rw, index, op)
    case SoftDelete(_, _, _) => ApplySoftDelete(b, c, rw, index, op)
    case Restore(_, _, _) => ApplyRestore(b, c, rw, index, op)
  }

  // ---- one change ----------------------------------------------------------------------

  /** The first `n` operations of a change, or the first refusal. */
  function Applied(b: Batch, c: Call, rw: Option<ReadWriteSet>, ops: seq<Op>, n: nat): Result<(Batch, seq<Step>), Error>
    requires n <= |ops|
  {
    if n == 0 then Ok((b, []))
    else
      match Applied(b, c, rw, ops, n - 1)
      case Err(e) => Err(e)
      case Ok((b1, steps)) =>
        match ApplyOne(b1, c, rw, n - 1, ops[n - 1])
        case Err(e) => Err(e)
        case Ok((b2, step)) => Ok((b2, steps + [step]))
  }

  predicate TwiceNamed(ops: seq<Op>) {
    exists i, j :: 0 <= i < j < |ops| && !ops[i].Create? && !ops[j].Create? && ops[i].memory == ops[j].memory
  }

  predicate TwiceTouched(steps: seq<Step>) {
    exists i, j :: 0 <= i < j < |steps| && steps[i].memory == steps[j].memory
  }

  function Valid(c: Call, ops: seq<Op>): bool {
    ops != [] && 1 <= |c.changedBy| <= 32 && (c.changedVia.Some? ==> 1 <= |c.changedVia.value| <= 64) && !TwiceNamed(ops)
  }

  /** From the citing memory to the cited one, over the source rows of all versions. */
  function Edges(t: Tables): set<(Id, Id)> {
    set k, r | k in t.versions && r in t.versions[k].state.sources :: (k.memory, r.memory)
  }

  /** The walk `_refuse_cycles` looks for. */
  ghost predicate Loops(t: Tables, k: Ref) {
    exists r :: r in SourcesOf(t, k) && Reaches(Edges(t), r.memory, k.memory)
  }

  /** The first of the new versions whose sources lead back to its memory. */
  ghost function LoopingFrom(t: Tables, cited: seq<(nat, Ref)>): Option<(nat, Ref)> {
    if cited == [] then None
    else if Loops(t, cited[0].1) then Some(cited[0])
    else LoopingFrom(t, cited[1..])
  }

  /** `apply_ops`: the tables after the change and the change, or the refusal. */
  ghost function ApplyOps(t: Tables, ops: seq<Op>, rw: Option<ReadWriteSet>, c: Call, undoes: Option<Id>): Result<(Tables, Change), Error> {
    var id := c.newId(0);
    if !Valid(c, ops) then Err(BadValue)
    else if id in t.changes then Err(IdCollision(id))
    else
      match Applied(Batch(t, id, map[], []), c, rw, ops, |ops|)
      case Err(e) => Err(e)
      case Ok((b, steps)) =>
        var loop := LoopingFrom(b.tables, b.cited);
        if loop.Some? then Err(BatchConflict(loop.value.0, Some(loop.value.1.memory), Cycle))
        else if TwiceTouched(steps) then Err(StorageFailure)
        else
          var change := Change(c.now, c.changedBy, c.changedVia, |ops|, undoes, steps);
          Ok((b.tables.(changes := t.changes[id := change]), change))
  }

  /** `undo`: the inverse of every step as one new change. */
  ghost function Undo(t: Tables, changeId: Id, c: Call): Result<(Tables, Change), Error> {
    if changeId !in t.changes then Err(UndoRefused(NotFound))
    else
      var change := t.changes[changeId];
      if |change.steps| < change.stepCount then Err(UndoRefused(HardDeleted))
      else if Moved(t, change) != {} then Err(UndoRefused(Changed(Moved(t, change))))
      else ApplyOps(t, Inverses(change.steps), None, c, Some(changeId))
  }

  function Moved(t: Tables, change: Change): set<Id> {
    set s | s in change.steps && (s.memory !in t.rows || t.rows[s.memory].version != s.after) :: s.memory
  }

  function Inverse(s: Step): Op {
    if s.op.Created? then SoftDelete(s.memory, s.after, None)
    else Restore(s.memory, s.after, if s.before.Some? then s.before.value else 0)
  }

  function Inverses(steps: seq<Step>): (ops: seq<Op>)
    ensures |ops| == |steps| && forall i :: 0 <= i < |ops| ==> ops[i] == Inverse(steps[i])
  {
    if steps == [] then [] else [Inverse(steps[0])] + Inverses(steps[1..])
  }

  /** `write`: one agent operation; a result equal to the current state writes nothing. */
  ghost function Write(t: Tables, op: Op, rw: ReadWriteSet, c: Call): Result<(Tables, Row), Error> {
    if op.Restore? || (op.Create? && op.cites != []) || (op.Update? && op.newCites.Some?) then Err(BadValue)
    else
      match ApplyOps(t, [op], Some(rw), c, None)
      case Ok((t', change)) => WithRow(t', if change.steps == [] then c.newId(0) else change.steps[0].memory)
      case Err(e) =>
        if e.BatchConflict? && e.reason.SameState? && !op.Create? then WithRow(t, op.memory) else Err(e)
  }

  function WithRow(t: Tables, id: Id): Result<(Tables, Row), Error> {
    match Joined(t, id, true)
    case None => Err(StorageFailure)
    case Some(row) => Ok((t, row))
  }

  /** `touch_read`, its high-water mark. */
  function TouchRead(t: Tables, id: Id, at: Time): Tables {
    if id in t.rows && t.rows[id].deletedAt.None? then
      var row := t.rows[id];
      t.(rows := t.rows[id := row.(lastRead := Some(if row.lastRead.Some? && row.lastRead.value > at then row.lastRead.value else at))])
    else t
  }
}
