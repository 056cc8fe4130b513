/**
 What every transaction of the store keeps: versions 1 to n with the row equal to version
 n, a citation graph without cycles or dangling ends, and trust that never exceeds what is
 cited. History only grows, and a change moves only the memories of its steps. The proof
 follows the code: one lemma for each operation on a batch that is under way (`UnderWay`),
 one for the batch (`AppliedKeeps`), one for the cycle check at its end (`NoLoopNoCycle`),
 and `ApplyKeeps` for the change that is committed.
 */
module KernelInvariant {
  import opened Basics
  import opened Graphs
  import opened Kernel
  import opened PyText

  ghost predicate KeysOk(t: Tables) {
    forall k: Ref :: k in t.versions <==> k.memory in t.rows && 1 <= k.version <= t.rows[k.memory].version
  }

  ghost predicate RowOk(t: Tables, id: Id)
    requires id in t.rows
  {
    var row := t.rows[id];
    && row.project in t.projects && row.version >= 1 && Ref(id, row.version) in t.versions
    && StateOf(t, id, row) == t.versions[Ref(id, row.version)].state
  }

  ghost predicate RowsOk(t: Tables) { forall id :: id in t.rows ==> RowOk(t, id) }

  /** No more trusted and no more shared than what it cites. */
  predicate Below(s: State, cited: State) { Rank(s.trust) <= Rank(cited.trust) && (s.sync ==> cited.sync) }

  ghost predicate CitesOk(t: Tables, s: State) {
    forall r :: r in s.sources ==> r in t.versions && Below(s, t.versions[r].state)
  }

  ghost predicate SourcesOk(t: Tables) {
    forall k :: k in t.versions ==> CitesOk(t, t.versions[k].state)
  }

  ghost predicate Sound(t: Tables) { KeysOk(t) && RowsOk(t) && SourcesOk(t) }

  /** A step of a change, as long as its memory is there. */
  ghost predicate StepOk(t: Tables, s: Step) {
    && Ref(s.memory, s.after) in t.versions
    && (s.op.Created? <==> s.before.None?)
    && (s.before.None? ==> s.after == 1 && !t.versions[Ref(s.memory, 1)].state.deleted)
    && (s.before.Some? ==>
          && s.before.value == s.after - 1 && Ref(s.memory, s.after - 1) in t.versions
          && t.versions[Ref(s.memory, s.after - 1)].state != t.versions[Ref(s.memory, s.after)].state)
  }

  ghost predicate ChangeOk(t: Tables, c: Change) {
    && |c.steps| <= c.stepCount && 1 <= c.stepCount && !TwiceTouched(c.steps)
    && forall s :: s in c.steps ==> StepOk(t, s)
  }

  ghost predicate ChangesOk(t: Tables) { forall id :: id in t.changes ==> ChangeOk(t, t.changes[id]) }

  ghost predicate Inv(t: Tables) { Sound(t) && Acyclic(Edges(t)) && ChangesOk(t) }

  /** Projects, recorded versions, and where a memory belongs and came from never change. */
  ghost predicate Extends(t0: Tables, t: Tables) {
    && t.projects == t0.projects
    && (forall k :: k in t0.versions ==> k in t.versions && t.versions[k] == t0.versions[k])
    && forall id :: id in t0.rows ==>
         && id in t.rows && t.rows[id].version >= t0.rows[id].version && t.rows[id].project == t0.rows[id].project
         && t.rows[id].harness == t0.rows[id].harness && t.rows[id].method_ == t0.rows[id].method_
  }

  /** `before` is what the memories written so far were. */
  ghost predicate BeforeOk(t0: Tables, b: Batch) {
    && (forall id :: id in b.before ==> id in b.tables.rows && b.before[id] == WasAt(t0, id))
    && (forall id :: id !in b.before ==> (id in b.tables.rows <==> id in t0.rows))
    && (forall id :: id !in b.before && id in t0.rows ==> b.tables.rows[id] == t0.rows[id])
  }

  /** `cited` is the new versions with sources. */
  ghost predicate CitedOk(t0: Tables, b: Batch) {
    && (forall k :: k in b.tables.versions && k !in t0.versions && b.tables.versions[k].state.sources != [] ==> Noted(b.cited, k))
    && (forall i :: 0 <= i < |b.cited| ==> b.cited[i].1 in b.tables.versions && b.cited[i].1 !in t0.versions)
  }

  /** A batch on its way, started from `t0`. */
  ghost predicate UnderWay(t0: Tables, b: Batch) {
    Sound(b.tables) && Extends(t0, b.tables) && b.tables.changes == t0.changes && BeforeOk(t0, b) && CitedOk(t0, b)
  }

  function WasAt(t: Tables, id: Id): Option<(int, bool)> {
    if id in t.rows then Some((t.rows[id].version, t.rows[id].deletedAt.Some?)) else None
  }

  ghost predicate Noted(cited: seq<(nat, Ref)>, k: Ref) { exists i :: 0 <= i < |cited| && cited[i].1 == k }

  // ---- one operation -------------------------------------------------------------------

  /** The row that follows and the version that records it. */
  ghost predicate Follows(t: Tables, id: Id, row: Row, state: State) {
    && state == RowState(row, state.sources) && row.project in t.projects && CitesOk(t, state)
    && if id in t.rows then
         && row.version == t.rows[id].version + 1 && row.project == t.rows[id].project
         && row.harness == t.rows[id].harness && row.method_ == t.rows[id].method_
       else row.version == 1
  }

  function Put(b: Batch, index: nat, id: Id, row: Row, state: State, was: Option<(int, bool)>): Batch {
    var noted := if id in b.before then b.before else b.before[id := was];
    InsertVersion(b.(tables := b.tables.(rows := b.tables.rows[id := row]), before := noted), index, Ref(id, row.version), state)
  }

  function Inserted(t: Tables, id: Id, row: Row, v: Version): Tables {
    t.(rows := t.rows[id := row], versions := t.versions[Ref(id, row.version) := v])
  }

  lemma InsertedKeys(t: Tables, id: Id, row: Row, v: Version)
    requires KeysOk(t) && if id in t.rows then row.version == t.rows[id].version + 1 && t.rows[id].version >= 1 else row.version == 1
    ensures KeysOk(Inserted(t, id, row, v)) && Ref(id, row.version) !in t.versions
  {
    var t' := Inserted(t, id, row, v);
    forall k: Ref ensures k in t'.versions <==> k.memory in t'.rows && 1 <= k.version <= t'.rows[k.memory].version {
      assert k in t'.versions <==> k == Ref(id, row.version) || k in t.versions;
    }
  }

  lemma InsertedRows(t: Tables, id: Id, row: Row, v: Version)
    requires RowsOk(t) && Ref(id, row.version) !in t.versions && v.state == RowState(row, v.state.sources)
    requires row.project in t.projects && row.version >= 1
    ensures RowsOk(Inserted(t, id, row, v))
  {
    var t' := Inserted(t, id, row, v);
    forall m | m in t'.rows ensures RowOk(t', m) {
      if m != id {
        assert RowOk(t, m);
        assert Ref(m, t.rows[m].version) != Ref(id, row.version);
      }
    }
  }

  lemma InsertedSources(t: Tables, id: Id, row: Row, v: Version)
    requires SourcesOk(t) && Ref(id, row.version) !in t.versions && CitesOk(t, v.state)
    ensures SourcesOk(Inserted(t, id, row, v))
  {
    var t' := Inserted(t, id, row, v);
    forall j | j in t'.versions ensures CitesOk(t', t'.versions[j].state) {
      assert CitesOk(t, t'.versions[j].state);
      CitesMore(t, t', t'.versions[j].state);
    }
  }

  lemma CitesMore(t: Tables, t': Tables, s: State)
    requires CitesOk(t, s) && forall k :: k in t.versions ==> k in t'.versions && t'.versions[k] == t.versions[k]
    ensures CitesOk(t', s)
  {
  }

  lemma PutSound(b: Batch, index: nat, id: Id, row: Row, state: State, was: Option<(int, bool)>)
    requires Sound(b.tables) && Follows(b.tables, id, row, state)
    ensures Put(b, index, id, row, state, was).tables == Inserted(b.tables, id, row, Version(state, b.changeId))
    ensures Sound(Inserted(b.tables, id, row, Version(state, b.changeId))) && Ref(id, row.version) !in b.tables.versions
  {
    var v := Version(state, b.changeId);
    if id in b.tables.rows { assert RowOk(b.tables, id); }
    hide RowsOk;
    hide KeysOk;
    hide SourcesOk;
    hide RowOk;
    InsertedKeys(b.tables, id, row, v);
    InsertedRows(b.tables, id, row, v);
    InsertedSources(b.tables, id, row, v);
  }

  lemma InsertedExtends(t0: Tables, t: Tables, id: Id, row: Row, state: State, v: Version)
    requires Extends(t0, t) && Follows(t, id, row, state) && Ref(id, row.version) !in t.versions
    ensures Extends(t0, Inserted(t, id, row, v))
  {
  }

  lemma CitedPut(t0: Tables, b: Batch, index: nat, id: Id, row: Row, state: State, was: Option<(int, bool)>)
    requires CitedOk(t0, b) && Ref(id, row.version) !in b.tables.versions && Ref(id, row.version) !in t0.versions
    ensures CitedOk(t0, Put(b, index, id, row, state, was))
  {
    var b' := Put(b, index, id, row, state, was);
    var k := Ref(id, row.version);
    forall j | j in b'.tables.versions && j !in t0.versions && b'.tables.versions[j].state.sources != []
      ensures Noted(b'.cited, j)
    {
      if j == k {
        assert b'.cited[|b.cited|].1 == k;
      } else {
        assert Noted(b.cited, j);
        var i :| 0 <= i < |b.cited| && b.cited[i].1 == j;
        assert b'.cited[i].1 == j;
      }
    }
  }

  lemma BeforePut(t0: Tables, b: Batch, index: nat, id: Id, row: Row, state: State, was: Option<(int, bool)>)
    requires BeforeOk(t0, b) && (id !in b.before ==> was == WasAt(t0, id))
    ensures BeforeOk(t0, Put(b, index, id, row, state, was))
  {
    hide WasAt;
  }

  lemma PutKeeps(t0: Tables, b: Batch, index: nat, id: Id, row: Row, state: State, was: Option<(int, bool)>)
    requires UnderWay(t0, b) && Follows(b.tables, id, row, state)
    requires id !in b.before ==> was == WasAt(t0, id)
    ensures UnderWay(t0, Put(b, index, id, row, state, was))
  {
    UnderWayParts(t0, b);
    PutSound(b, index, id, row, state, was);
    InsertedExtends(t0, b.tables, id, row, state, Version(state, b.changeId));
    BeforePut(t0, b, index, id, row, state, was);
    hide *;
    CitedPut(t0, b, index, id, row, state, was);
    UnderWayIs(t0, b, index, id, row, state, was);
  }

  lemma UnderWayParts(t0: Tables, b: Batch)
    requires UnderWay(t0, b)
    ensures Sound(b.tables) && Extends(t0, b.tables) && BeforeOk(t0, b) && CitedOk(t0, b)
    ensures forall k :: k in t0.versions ==> k in b.tables.versions
  {
  }

  lemma UnderWayIs(t0: Tables, b: Batch, index: nat, id: Id, row: Row, state: State, was: Option<(int, bool)>)
    requires UnderWay(t0, b)
    requires var t' := Inserted(b.tables, id, row, Version(state, b.changeId));
             t' == Put(b, index, id, row, state, was).tables && Sound(t') && Extends(t0, t')
    requires BeforeOk(t0, Put(b, index, id, row, state, was)) && CitedOk(t0, Put(b, index, id, row, state, was))
    ensures UnderWay(t0, Put(b, index, id, row, state, was))
  {
    hide Sound;
    hide Extends;
    hide BeforeOk;
    hide CitedOk;
  }

  /** The derived pair is the greatest that everything cited, and what it started from, allows. */
  lemma {:induction false} DerivedIsLowest(t: Tables, index: nat, id: Option<Id>, trust: Trust, sync: bool, refs: seq<Ref>)
    ensures Derived(t, index, id, trust, sync, refs).Err? <==> exists r :: r in refs && r !in t.versions
    ensures Derived(t, index, id, trust, sync, refs).Ok? ==>
      var (low, all) := Derived(t, index, id, trust, sync, refs).value;
      && Rank(low) <= Rank(trust) && (forall r :: r in refs ==> Rank(low) <= Rank(t.versions[r].state.trust))
      && (low == trust || exists r :: r in refs && low == t.versions[r].state.trust)
      && (all <==> sync && forall r :: r in refs ==> t.versions[r].state.sync)
    decreases refs
  {
    if refs != [] {
      var r, rest := refs[0], refs[1..];
      assert refs == [r] + rest;
      if r in t.versions {
        var cited := t.versions[r].state;
        DerivedIsLowest(t, index, id, if Rank(cited.trust) < Rank(trust) then cited.trust else trust, sync && cited.sync, rest);
      }
    }
  }

  lemma DerivedIsBelow(t: Tables, index: nat, id: Option<Id>, trust: Trust, sync: bool, refs: seq<Ref>, s: State)
    requires Derived(t, index, id, trust, sync, refs) == Ok((s.trust, s.sync)) && s.sources == refs
    ensures CitesOk(t, s)
  {
    DerivedIsLowest(t, index, id, trust, sync, refs);
  }

  /** What an operation leaves: the batch still sound, and its step true of the tables. */
  ghost predicate Advanced(t0: Tables, b: Batch, r: Result<(Batch, Step), Error>) {
    r.Ok? ==>
      && UnderWay(t0, r.value.0) && StepOk(r.value.0.tables, r.value.1) && Kept(b.tables, r.value.0.tables)
      && forall id :: id in r.value.0.before ==> id in b.before || id == r.value.1.memory
  }

  /** Recorded versions stay as they are. */
  ghost predicate Kept(t: Tables, t': Tables) {
    forall k :: k in t.versions ==> k in t'.versions && t'.versions[k] == t.versions[k]
  }

  /** The step a written version makes. */
  predicate Steps(t: Tables, s: Step, id: Id, row: Row, state: State) {
    && s.memory == id && s.after == row.version
    && if id in t.rows then s.op != Created && s.before == Some(t.rows[id].version) && state != StateOf(t, id, t.rows[id])
       else s.op == Created && s.before == None && !state.deleted
  }

  lemma PutAdvances(t0: Tables, b: Batch, index: nat, id: Id, row: Row, state: State, was: Option<(int, bool)>, step: Step)
    requires UnderWay(t0, b) && Follows(b.tables, id, row, state) && Steps(b.tables, step, id, row, state)
    requires id !in b.before ==> was == WasAt(t0, id)
    ensures Advanced(t0, b, Ok((Put(b, index, id, row, state, was), step)))
  {
    UnderWayParts(t0, b);
    PutSound(b, index, id, row, state, was);
    PutKeeps(t0, b, index, id, row, state, was);
    StepInserted(b.tables, id, row, Version(state, b.changeId), step);
    KeptInserted(b.tables, id, row, Version(state, b.changeId));
    NotedInBefore(b, index, id, row, state, was);
    StepsMemory(b.tables, step, id, row, state);
    hide *;
    AdvancedIs(t0, b, Put(b, index, id, row, state, was), step);
  }

  lemma AdvancedIs(t0: Tables, b: Batch, b': Batch, step: Step)
    requires UnderWay(t0, b') && StepOk(b'.tables, step) && Kept(b.tables, b'.tables)
    requires forall id :: id in b'.before ==> id in b.before || id == step.memory
    ensures Advanced(t0, b, Ok((b', step)))
  {
  }

  lemma StepsMemory(t: Tables, step: Step, id: Id, row: Row, state: State)
    requires Steps(t, step, id, row, state)
    ensures step.memory == id
  {
  }

  lemma NotedInBefore(b: Batch, index: nat, id: Id, row: Row, state: State, was: Option<(int, bool)>)
    ensures forall m :: m in Put(b, index, id, row, state, was).before ==> m in b.before || m == id
  {
  }

  lemma KeptInserted(t: Tables, id: Id, row: Row, v: Version)
    requires Ref(id, row.version) !in t.versions
    ensures Kept(t, Inserted(t, id, row, v))
  {
  }

  lemma StepInserted(t: Tables, id: Id, row: Row, v: Version, step: Step)
    requires Sound(t) && Follows(t, id, row, v.state) && Steps(t, step, id, row, v.state)
    ensures StepOk(Inserted(t, id, row, v), step)
  {
    if id in t.rows { assert RowOk(t, id); }
  }

  lemma WriteParts(b: Batch, c: Call, index: nat, op: OpName, id: Id, row: Row, before: State, after: State)
    returns (next: Row, step: Step)
    requires WriteVersion(b, c, index, op, id, row, before, after).Ok?
    ensures WriteVersion(b, c, index, op, id, row, before, after)
         == Ok((Put(b, index, id, next, after, Some((row.version, before.deleted))), step))
    ensures step == Step(index + 1, id, op, Some(row.version), row.version + 1) && after != before
    ensures next.version == row.version + 1 && next.project == row.project && next.updated > row.updated
    ensures next.harness == row.harness && next.method_ == row.method_ && next.lastRead == row.lastRead
    ensures forall sources :: RowState(next, sources) == after.(sources := sources)
  {
    next := WriteVersion(b, c, index, op, id, row, before, after).value.0.tables.rows[id];
    step := WriteVersion(b, c, index, op, id, row, before, after).value.1;
  }

  lemma VersionWritten(t0: Tables, b: Batch, c: Call, index: nat, op: OpName, id: Id, row: Row, before: State, after: State)
    requires UnderWay(t0, b) && id in b.tables.rows && row == b.tables.rows[id] && before == StateOf(b.tables, id, row)
    requires CitesOk(b.tables, after) && op != Created
    ensures Advanced(t0, b, WriteVersion(b, c, index, op, id, row, before, after))
  {
    if WriteVersion(b, c, index, op, id, row, before, after).Ok? {
      var next, step := WriteParts(b, c, index, op, id, row, before, after);
      UnderWayParts(t0, b);
      WasKnown(t0, b, id);
      NextFollows(b.tables, id, next, after);
      PutAdvances(t0, b, index, id, next, after, Some((row.version, before.deleted)), step);
    }
    hide *;
  }

  lemma WasKnown(t0: Tables, b: Batch, id: Id)
    requires BeforeOk(t0, b) && id in b.tables.rows
    ensures id !in b.before ==> Some((b.tables.rows[id].version, b.tables.rows[id].deletedAt.Some?)) == WasAt(t0, id)
  {
  }

  lemma NextFollows(t: Tables, id: Id, next: Row, after: State)
    requires Sound(t) && id in t.rows && CitesOk(t, after) && after == RowState(next, after.sources)
    requires next.version == t.rows[id].version + 1 && next.project == t.rows[id].project
    requires next.harness == t.rows[id].harness && next.method_ == t.rows[id].method_
    ensures Follows(t, id, next, after)
  {
    assert RowOk(t, id);
  }

  lemma TargetIs(t: Tables, rw: Option<ReadWriteSet>, index: nat, id: Id, expected: int, allowDeleted: bool)
    ensures var r := Target(t, rw, index, id, expected, allowDeleted);
            r.Ok? ==> id in t.rows && r.value == t.rows[id] && r.value.version == expected
                      && (!allowDeleted ==> r.value.deletedAt.None?)
  {
  }

  lemma CurrentCites(t: Tables, id: Id)
    requires Sound(t) && id in t.rows
    ensures CitesOk(t, StateOf(t, id, t.rows[id]))
  {
    assert RowOk(t, id);
    assert CitesOk(t, t.versions[Ref(id, t.rows[id].version)].state);
  }

  lemma UpdateKeeps(t0: Tables, b: Batch, c: Call, rw: Option<ReadWriteSet>, index: nat, op: Op)
    requires UnderWay(t0, b) && op.Update?
    ensures Advanced(t0, b, ApplyUpdate(b, c, rw, index, op))
  {
    hide *;
    if ApplyUpdate(b, c, rw, index, op).Ok? {
      var row, before, after := UpdateParts(b, c, rw, index, op);
      DerivedIsBelow(b.tables, index, Some(op.memory), before.trust, before.sync, after.sources, after);
      VersionWritten(t0, b, c, index, Updated, op.memory, row, before, after);
    } else {
      Refused(t0, b, ApplyUpdate(b, c, rw, index, op));
    }
  }

  lemma Refused(t0: Tables, b: Batch, r: Result<(Batch, Step), Error>)
    requires r.Err?
    ensures Advanced(t0, b, r)
  {
  }

  lemma UpdateParts(b: Batch, c: Call, rw: Option<ReadWriteSet>, index: nat, op: Op) returns (row: Row, before: State, after: State)
    requires op.Update? && ApplyUpdate(b, c, rw, index, op).Ok?
    ensures op.memory in b.tables.rows && row == b.tables.rows[op.memory] && before == StateOf(b.tables, op.memory, row)
    ensures Target(b.tables, rw, index, op.memory, op.expected, false) == Ok(row)
    ensures Admit(b, index, Some(op.memory), before.sources, op.newCites) == Ok(after.sources)
    ensures Derived(b.tables, index, Some(op.memory), before.trust, before.sync, after.sources) == Ok((after.trust, after.sync))
    ensures ApplyUpdate(b, c, rw, index, op) == WriteVersion(b, c, index, Updated, op.memory, row, before, after)
    ensures after.deleted == before.deleted && after.kind == before.kind
  {
    TargetIs(b.tables, rw, index, op.memory, op.expected, false);
    hide Target;
    hide Admit;
    hide Derived;
    hide WriteVersion;
    hide StateOf;
    hide Strip;
    row := b.tables.rows[op.memory];
    before := StateOf(b.tables, op.memory, row);
    var sources := Admit(b, index, Some(op.memory), before.sources, op.newCites).value;
    var (trust, sync) := Derived(b.tables, index, Some(op.memory), before.trust, before.sync, sources).value;
    after := before.(trust := trust, sync := sync, sources := sources,
                     description := if op.newDescription.None? then before.description else Strip(op.newDescription.value),
                     body := if op.newBody.None? then before.body else Strip(op.newBody.value));
  }

  lemma SoftDeleteKeeps(t0: Tables, b: Batch, c: Call, rw: Option<ReadWriteSet>, index: nat, op: Op)
    requires UnderWay(t0, b) && op.SoftDelete?
    ensures Advanced(t0, b, ApplySoftDelete(b, c, rw, index, op))
  {
    hide *;
    if ApplySoftDelete(b, c, rw, index, op).Ok? {
      var row, before := SoftDeleteParts(b, c, rw, index, op);
      UnderWayParts(t0, b);
      CurrentCites(b.tables, op.memory);
      Undeleted(b.tables, before);
      VersionWritten(t0, b, c, index, SoftDeleted, op.memory, row, before, before.(deleted := true));
    } else {
      Refused(t0, b, ApplySoftDelete(b, c, rw, index, op));
    }
  }

  lemma SoftDeleteParts(b: Batch, c: Call, rw: Option<ReadWriteSet>, index: nat, op: Op) returns (row: Row, before: State)
    requires op.SoftDelete? && ApplySoftDelete(b, c, rw, index, op).Ok?
    ensures op.memory in b.tables.rows && row == b.tables.rows[op.memory] && before == StateOf(b.tables, op.memory, row)
    ensures Target(b.tables, rw, index, op.memory, op.expected, false) == Ok(row)
    ensures ApplySoftDelete(b, c, rw, index, op)
         == WriteVersion(b, c, index, SoftDeleted, op.memory, row, before, before.(deleted := true))
  {
    TargetIs(b.tables, rw, index, op.memory, op.expected, false);
    hide Target;
    hide WriteVersion;
    row := b.tables.rows[op.memory];
    before := StateOf(b.tables, op.memory, row);
  }

  lemma Undeleted(t: Tables, s: State)
    requires CitesOk(t, s)
    ensures CitesOk(t, s.(deleted := true))
  {
  }

  lemma RestoreKeeps(t0: Tables, b: Batch, c: Call, rw: Option<ReadWriteSet>, index: nat, op: Op)
    requires UnderWay(t0, b) && op.Restore?
    ensures Advanced(t0, b, ApplyRestore(b, c, rw, index, op))
  {
    hide *;
    if ApplyRestore(b, c, rw, index, op).Ok? {
      var row, after := RestoreParts(b, c, rw, index, op);
      UnderWayParts(t0, b);
      RecordedCites(b.tables, Ref(op.memory, op.toVersion));
      VersionWritten(t0, b, c, index, Restored, op.memory, row, StateOf(b.tables, op.memory, row), after);
    } else {
      Refused(t0, b, ApplyRestore(b, c, rw, index, op));
    }
  }

  lemma RestoreParts(b: Batch, c: Call, rw: Option<ReadWriteSet>, index: nat, op: Op) returns (row: Row, after: State)
    requires op.Restore? && ApplyRestore(b, c, rw, index, op).Ok?
    ensures op.memory in b.tables.rows && row == b.tables.rows[op.memory]
    ensures Target(b.tables, rw, index, op.memory, op.expected, true) == Ok(row)
    ensures Ref(op.memory, op.toVersion) in b.tables.versions && after == b.tables.versions[Ref(op.memory, op.toVersion)].state
    ensures ApplyRestore(b, c, rw, index, op)
         == WriteVersion(b, c, index, Restored, op.memory, row, StateOf(b.tables, op.memory, row), after)
  {
    TargetIs(b.tables, rw, index, op.memory, op.expected, true);
    hide Target;
    hide WriteVersion;
    row := b.tables.rows[op.memory];
    after := b.tables.versions[Ref(op.memory, op.toVersion)].state;
  }

  lemma RecordedCites(t: Tables, k: Ref)
    requires Sound(t) && k in t.versions
    ensures CitesOk(t, t.versions[k].state)
  {
  }

  lemma CreateKeeps(t0: Tables, b: Batch, c: Call, rw: Option<ReadWriteSet>, index: nat, op: Op)
    requires UnderWay(t0, b) && op.Create?
    ensures Advanced(t0, b, ApplyCreate(b, c, rw, index, op))
  {
    hide *;
    if ApplyCreate(b, c, rw, index, op).Ok? {
      UnderWayParts(t0, b);
      BeforeHasRows(t0, b);
      var sources, row := CreateParts(b, c, rw, index, op);
      var id, state := c.newId(index + 1), RowState(row, sources);
      FirstFollows(b, index, id, row, sources, op);
      NotThere(t0, b, id);
      FirstSteps(b.tables, index, id, row, sources);
      PutAdvances(t0, b, index, id, row, state, None, Step(index + 1, id, Created, None, 1));
    } else {
      Refused(t0, b, ApplyCreate(b, c, rw, index, op));
    }
  }

  lemma NotThere(t0: Tables, b: Batch, id: Id)
    requires BeforeOk(t0, b) && id !in b.tables.rows
    ensures id !in b.before && WasAt(t0, id) == None
  {
  }

  lemma FirstSteps(t: Tables, index: nat, id: Id, row: Row, sources: seq<Ref>)
    requires id !in t.rows && row.version == 1 && row.deletedAt.None?
    ensures Steps(t, Step(index + 1, id, Created, None, 1), id, row, RowState(row, sources))
  {
  }

  lemma FirstFollows(b: Batch, index: nat, id: Id, row: Row, sources: seq<Ref>, op: Op)
    requires op.Create? && OwnOrDerived(b.tables, index, op, sources) == Ok((row.trust, row.sync))
    requires id !in b.tables.rows && row.version == 1 && row.project in b.tables.projects
    ensures Follows(b.tables, id, row, RowState(row, sources))
  {
    if sources != [] { DerivedIsBelow(b.tables, index, None, User, true, sources, RowState(row, sources)); }
    hide Derived;
  }

  lemma CreateParts(b: Batch, c: Call, rw: Option<ReadWriteSet>, index: nat, op: Op) returns (sources: seq<Ref>, row: Row)
    requires op.Create? && ApplyCreate(b, c, rw, index, op).Ok?
    requires forall id :: id in b.before ==> id in b.tables.rows
    ensures Admit(b, index, None, [], Some(op.cites)) == Ok(sources)
    ensures c.newId(index + 1) !in b.tables.rows && row.project in b.tables.projects
    ensures row.version == 1 && row.deletedAt.None? && row.project == op.project
    ensures OwnOrDerived(b.tables, index, op, sources) == Ok((row.trust, row.sync))
    ensures ApplyCreate(b, c, rw, index, op)
         == Ok((Put(b, index, c.newId(index + 1), row, RowState(row, sources), None), Step(index + 1, c.newId(index + 1), Created, None, 1)))
    ensures AuthorizeCreate(b.tables, rw, op.project).None?
  {
    Authorized(b.tables, rw, op.project);
    hide AuthorizeCreate;
    hide Admit;
    hide Strip;
    hide OwnOrDerived;
    sources := Admit(b, index, None, [], Some(op.cites)).value;
    row := ApplyCreate(b, c, rw, index, op).value.0.tables.rows[c.newId(index + 1)];
  }

  lemma Authorized(t: Tables, rw: Option<ReadWriteSet>, p: Id)
    ensures AuthorizeCreate(t, rw, p).None? ==> p in t.projects
    ensures AuthorizeCreate(t, rw, p).None? && rw.Some? ==> rw.value.Writable(p) && !t.projects[p]
  {
  }

  lemma BeforeHasRows(t0: Tables, b: Batch)
    requires BeforeOk(t0, b)
    ensures forall id :: id in b.before ==> id in b.tables.rows
  {
  }

  lemma OneKeeps(t0: Tables, b: Batch, c: Call, rw: Option<ReadWriteSet>, index: nat, op: Op)
    requires UnderWay(t0, b)
    ensures Advanced(t0, b, ApplyOne(b, c, rw, index, op))
  {
    match op
    case Create(_, _, _, _, _, _, _) => CreateKeeps(t0, b, c, rw, index, op);
    case Update(_, _, _, _, _) => UpdateKeeps(t0, b, c, rw, index, op);
    case SoftDelete(_, _, _) => SoftDeleteKeeps(t0, b, c, rw, index, op);
    case Restore(_, _, _) => RestoreKeeps(t0, b, c, rw, index, op);
  }

  // ---- a whole change ------------------------------------------------------------------

  lemma StepKept(t: Tables, t': Tables, s: Step)
    requires StepOk(t, s) && Kept(t, t')
    ensures StepOk(t', s)
  {
  }

  lemma StartUnderWay(t: Tables, id: Id)
    requires Sound(t)
    ensures UnderWay(t, Batch(t, id, map[], []))
  {
  }

  /** The batch is still sound and its steps are true of it. */
  ghost predicate Stands(t0: Tables, b: Batch, steps: seq<Step>, n: nat) {
    UnderWay(t0, b) && |steps| == n && (forall s :: s in steps ==> StepOk(b.tables, s)) && forall id :: id in b.before ==> Touches(steps, id)
  }

  ghost predicate Touches(steps: seq<Step>, id: Id) { exists s :: s in steps && s.memory == id }

  lemma {:induction false} AppliedKeeps(t0: Tables, b: Batch, c: Call, rw: Option<ReadWriteSet>, ops: seq<Op>, n: nat)
    requires UnderWay(t0, b) && b.before == map[] && n <= |ops|
    ensures var r := Applied(b, c, rw, ops, n);
            r.Ok? ==> Stands(t0, r.value.0, r.value.1, n)
  {
    hide *;
    if n == 0 {
      StandsAtFirst(t0, b, c, rw, ops);
    } else {
      AppliedKeeps(t0, b, c, rw, ops, n - 1);
      if Applied(b, c, rw, ops, n).Ok? {
        var b1, steps, b2, step := AppliedStep(b, c, rw, ops, n);
        OneKeeps(t0, b1, c, rw, n - 1, ops[n - 1]) by { StandsUnderWay(t0, b1, steps, n - 1); }
        StandsNext(t0, b1, steps, b2, step, n);
      }
    }
  }

  lemma StandsAtFirst(t0: Tables, b: Batch, c: Call, rw: Option<ReadWriteSet>, ops: seq<Op>)
    requires UnderWay(t0, b) && b.before == map[]
    ensures Applied(b, c, rw, ops, 0) == Ok((b, [])) && Stands(t0, b, [], 0)
  {
    hide UnderWay;
  }

  lemma StandsUnderWay(t0: Tables, b: Batch, steps: seq<Step>, n: nat)
    requires Stands(t0, b, steps, n)
    ensures UnderWay(t0, b)
  {
    hide UnderWay;
  }

  lemma AppliedStep(b: Batch, c: Call, rw: Option<ReadWriteSet>, ops: seq<Op>, n: nat)
    returns (b1: Batch, steps: seq<Step>, b2: Batch, step: Step)
    requires 0 < n <= |ops| && Applied(b, c, rw, ops, n).Ok?
    ensures Applied(b, c, rw, ops, n - 1) == Ok((b1, steps)) && ApplyOne(b1, c, rw, n - 1, ops[n - 1]) == Ok((b2, step))
    ensures Applied(b, c, rw, ops, n) == Ok((b2, steps + [step]))
  {
    hide ApplyOne;
    b1, steps := Applied(b, c, rw, ops, n - 1).value.0, Applied(b, c, rw, ops, n - 1).value.1;
    b2, step := ApplyOne(b1, c, rw, n - 1, ops[n - 1]).value.0, ApplyOne(b1, c, rw, n - 1, ops[n - 1]).value.1;
  }

  lemma StandsNext(t0: Tables, b: Batch, steps: seq<Step>, b': Batch, step: Step, n: nat)
    requires n > 0 && Stands(t0, b, steps, n - 1) && Advanced(t0, b, Ok((b', step)))
    ensures Stands(t0, b', steps + [step], n)
  {
    hide UnderWay;
    forall s | s in steps + [step] ensures StepOk(b'.tables, s) {
      if s in steps { StepKept(b.tables, b'.tables, s); }
    }
    forall id | id in b'.before ensures Touches(steps + [step], id) { TouchesMore(steps, step, id); }
  }

  lemma TouchesMore(steps: seq<Step>, step: Step, id: Id)
    ensures Touches(steps, id) || id == step.memory ==> Touches(steps + [step], id)
  {
    if Touches(steps, id) {
      var s :| s in steps && s.memory == id;
      assert s in steps + [step];
    } else {
      assert step in steps + [step];
    }
  }

  lemma LoopingFromIs(t: Tables, cited: seq<(nat, Ref)>)
    ensures LoopingFrom(t, cited).None? <==> forall i :: 0 <= i < |cited| ==> !Loops(t, cited[i].1)
  {
    hide Loops;
    if cited != [] { LoopingFromIs(t, cited[1..]); }
  }

  lemma EdgeIs(t: Tables, a: Id, b: Id)
    ensures (a, b) in Edges(t) <==> exists k, r :: k in t.versions && r in t.versions[k].state.sources && k.memory == a && r.memory == b
  {
  }

  /** Checking the sources of the new versions checks the whole graph. */
  lemma NoLoopNoCycle(t0: Tables, b: Batch)
    requires UnderWay(t0, b) && Acyclic(Edges(t0)) && LoopingFrom(b.tables, b.cited).None?
    ensures Acyclic(Edges(b.tables))
  {
    LoopingFromIs(b.tables, b.cited);
    EdgesGrow(t0, b.tables);
    forall x, y | (x, y) in Edges(b.tables) - Edges(t0) ensures !Reaches(Edges(b.tables), y, x) {
      var k := NewEdge(t0, b.tables, x, y);
      assert Noted(b.cited, k);
      var i :| 0 <= i < |b.cited| && b.cited[i].1 == k;
      assert !Loops(b.tables, b.cited[i].1);
    }
    AcyclicGrown(Edges(t0), Edges(b.tables));
  }

  lemma EdgesGrow(t: Tables, t': Tables)
    requires Extends(t, t')
    ensures Edges(t) <= Edges(t')
  {
    forall x, y | (x, y) in Edges(t) ensures (x, y) in Edges(t') {
      var k, r :| k in t.versions && r in t.versions[k].state.sources && k.memory == x && r.memory == y;
      assert k in t'.versions && r in t'.versions[k].state.sources;
    }
  }

  lemma NewEdge(t: Tables, t': Tables, x: Id, y: Id) returns (k: Ref)
    requires Extends(t, t') && (x, y) in Edges(t') && (x, y) !in Edges(t)
    ensures k in t'.versions && k !in t.versions && k.memory == x && t'.versions[k].state.sources != []
    ensures exists r :: r in SourcesOf(t', k) && r.memory == y
  {
    EdgeIs(t, x, y);
    var r: Ref;
    k, r :| k in t'.versions && r in t'.versions[k].state.sources && k.memory == x && r.memory == y;
  }

  /** What a change does to the tables, besides recording itself. */
  ghost predicate ChangedBy(t: Tables, t': Tables, id: Id, change: Change) {
    && Extends(t, t') && id !in t.changes && t'.changes == t.changes[id := change]
    && |change.steps| == change.stepCount && Untouched(t, t', change.steps)
  }

  /** Only the memories of the steps moved or appeared. */
  ghost predicate Untouched(t: Tables, t': Tables, steps: seq<Step>) {
    forall id :: id in t'.rows && !Touches(steps, id) ==> id in t.rows && t'.rows[id] == t.rows[id]
  }

  lemma ChangesKept(t: Tables, t': Tables)
    requires ChangesOk(t) && Kept(t, t')
    ensures forall id :: id in t.changes ==> ChangeOk(t', t.changes[id])
  {
    forall id | id in t.changes ensures ChangeOk(t', t.changes[id]) {
      assert ChangeOk(t, t.changes[id]);
      hide Kept;
      forall s | s in t.changes[id].steps ensures StepOk(t', s) { StepKept(t, t', s); }
    }
  }

  /** A change keeps the invariant, forgets nothing, and records itself with one step per operation. */
  lemma {:induction false} ApplyKeeps(t: Tables, ops: seq<Op>, rw: Option<ReadWriteSet>, c: Call, undoes: Option<Id>)
    requires Inv(t)
    ensures var r := ApplyOps(t, ops, rw, c, undoes);
            r.Ok? ==> Inv(r.value.0) && ChangedBy(t, r.value.0, c.newId(0), r.value.1)
  {
    var r, id := ApplyOps(t, ops, rw, c, undoes), c.newId(0);
    if r.Ok? {
      var start := Batch(t, id, map[], []);
      StartUnderWay(t, id);
      AppliedKeeps(t, start, c, rw, ops, |ops|);
      var (b, steps) := Applied(start, c, rw, ops, |ops|).value;
      NoLoopNoCycle(t, b);
      UnderWayParts(t, b);
      ExtendsKept(t, b.tables);
      ChangesKept(t, b.tables);
      UntouchedIs(t, b, steps);
      Committed(t, b, c, r.value.1);
    }
    hide Inv;
    hide Applied;
    hide UnderWay;
  }

  lemma UntouchedIs(t: Tables, b: Batch, steps: seq<Step>)
    requires BeforeOk(t, b) && forall id :: id in b.before ==> Touches(steps, id)
    ensures Untouched(t, b.tables, steps)
  {
  }

  lemma ExtendsKept(t: Tables, t': Tables)
    requires Extends(t, t')
    ensures Kept(t, t')
  {
  }

  lemma Committed(t: Tables, b: Batch, c: Call, change: Change)
    requires UnderWay(t, b) && Acyclic(Edges(b.tables)) && c.newId(0) !in t.changes
    requires forall id :: id in t.changes ==> ChangeOk(b.tables, t.changes[id])
    requires ChangeOk(b.tables, change) && |change.steps| == change.stepCount && Untouched(t, b.tables, change.steps)
    ensures var t' := b.tables.(changes := t.changes[c.newId(0) := change]);
            Inv(t') && ChangedBy(t, t', c.newId(0), change)
  {
    var t' := b.tables.(changes := t.changes[c.newId(0) := change]);
    assert Edges(t') == Edges(b.tables);
    UnderWayParts(t, b);
    SoundDespite(b.tables, t');
    hide *;
    forall id | id in t'.changes ensures ChangeOk(t', t'.changes[id]) {
      ChangeDespite(b.tables, t', t'.changes[id]);
    }
    CommittedIs(t, b, c, change, t');
  }

  lemma CommittedIs(t: Tables, b: Batch, c: Call, change: Change, t': Tables)
    requires UnderWay(t, b) && c.newId(0) !in t.changes && |change.steps| == change.stepCount && Untouched(t, b.tables, change.steps)
    requires t' == b.tables.(changes := t.changes[c.newId(0) := change])
    requires Sound(t') && Acyclic(Edges(t')) && forall id :: id in t'.changes ==> ChangeOk(t', t'.changes[id])
    ensures Inv(t') && ChangedBy(t, t', c.newId(0), change)
  {
    hide Sound;
    hide ChangeOk;
    hide Acyclic;
    hide Edges;
  }

  lemma SoundDespite(t: Tables, t': Tables)
    requires Sound(t) && t' == t.(changes := t'.changes)
    ensures Sound(t')
  {
    forall id | id in t'.rows ensures RowOk(t', id) { assert RowOk(t, id); }
    forall k | k in t'.versions ensures CitesOk(t', t'.versions[k].state) { assert CitesOk(t, t'.versions[k].state); }
  }

  lemma ChangeDespite(t: Tables, t': Tables, change: Change)
    requires ChangeOk(t, change) && t'.versions == t.versions
    ensures ChangeOk(t', change)
  {
    forall s | s in change.steps ensures StepOk(t', s) { assert StepOk(t, s); }
  }
}
