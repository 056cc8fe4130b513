/**
 What a change writes, when it is let through, and why not. All three are about the store as it was
 before: the operations of a change do not see one another. `Records` is the state one operation asks for,
 `Accepts` when it may be carried out, `RefusedFor` what is then true of a refusal; `Recorded`, `Acceptable` and
 `Justified` say the same of a whole change. `ChangeRecords`, `ChangeIff` and `ChangeRefused` prove them of every
 change on every store that keeps the invariant, and `ChangeDecides` puts the three together. The proof goes
 operation by operation along the batch, whose tables are those before the change but for the memories the
 earlier operations touched.
 */
module KernelContents {
  import opened Basics
  import opened Graphs
  import opened Kernel
  import opened KernelInvariant
  import opened KernelUndo
  import opened PyText

  // ---- what one operation asks for -----------------------------------------------------------

  /** The memory an operation is about; a new one has the id drawn for it. */
  function Touched(op: Op, c: Call, index: nat): Id { if op.Create? then c.newId(index + 1) else op.memory }

  function NameOf(op: Op): OpName {
    match op
    case Create(_, _, _, _, _, _, _) => Created
    case Update(_, _, _, _, _) => Updated
    case SoftDelete(_, _, _) => SoftDeleted
    case Restore(_, _, _) => Restored
  }

  /** The citations an operation asks for. */
  function Asked(op: Op): Option<seq<Ref>> {
    if op.Create? then Some(op.cites) else if op.Update? then op.newCites else None
  }

  /** The version an operation expects. */
  ghost predicate WasThere(t: Tables, op: Op) { !op.Create? && Ref(op.memory, op.expected) in t.versions }

  ghost function Was(t: Tables, op: Op): State
    requires WasThere(t, op)
  {
    t.versions[Ref(op.memory, op.expected)].state
  }

  /** Ordered by the cited memory, none cited twice. */
  ghost predicate InOrder(refs: seq<Ref>) { forall i, j :: 0 <= i < j < |refs| ==> refs[i].memory.n < refs[j].memory.n }

  ghost predicate Arranged(refs: seq<Ref>, asked: seq<Ref>) { multiset(refs) == multiset(asked) && InOrder(refs) }

  /** As trusted, and as shared, as the start and everything cited allow. */
  ghost predicate Lowest(t: Tables, trust: Trust, sync: bool, s: State) {
    && (forall r :: r in s.sources ==> r in t.versions && Rank(s.trust) <= Rank(t.versions[r].state.trust))
    && Rank(s.trust) <= Rank(trust)
    && (s.trust == trust || exists r :: r in s.sources && s.trust == t.versions[r].state.trust)
    && (s.sync <==> sync && forall r :: r in s.sources ==> t.versions[r].state.sync)
  }

  /** The state that an operation asks for, given the store before the change. */
  ghost predicate Records(t: Tables, op: Op, s: State) {
    match op
    case Create(_, kind, description, body, cites, trust, sync) =>
      && s.kind == kind && !s.deleted && s.description == Strip(description) && s.body == Strip(body) && Arranged(s.sources, cites)
      && (if cites == [] then s.trust == trust && s.sync == sync else Lowest(t, User, true, s))
    case Update(_, _, description, body, cites) =>
      && WasThere(t, op)
      && var was := Was(t, op);
         && s.kind == was.kind && s.deleted == was.deleted
         && s.description == (if description.Some? then Strip(description.value) else was.description)
         && s.body == (if body.Some? then Strip(body.value) else was.body)
         && (if cites.Some? then Arranged(s.sources, cites.value) else s.sources == was.sources)
         && Lowest(t, was.trust, was.sync, s)
    case SoftDelete(_, _, _) => WasThere(t, op) && s == Was(t, op).(deleted := true)
    case Restore(m, _, version) => Ref(m, version) in t.versions && s == t.versions[Ref(m, version)].state
  }

  // ---- when one operation is let through -----------------------------------------------------

  /** At its current version, and not deleted. */
  predicate CurrentAt(t: Tables, r: Ref) {
    r.memory in t.rows && t.rows[r.memory].version == r.version && t.rows[r.memory].deletedAt.None?
  }

  /** What was cited stays citable; anything else is cited at its current version. */
  ghost predicate MayCite(t: Tables, own: Option<Id>, earlier: seq<Ref>, asked: seq<Ref>) {
    !CitesTwice(asked) && forall r :: r in asked ==> own != Some(r.memory) && (r in earlier || CurrentAt(t, r))
  }

  /** A project an agent may write to. */
  predicate OwnProject(t: Tables, rw: Option<ReadWriteSet>, p: Id) {
    p in t.projects && (rw.Some? ==> rw.value.Writable(p) && !t.projects[p])
  }

  /** The memory is there at the version expected, for this caller. */
  predicate MayChange(t: Tables, rw: Option<ReadWriteSet>, op: Op) {
    && !op.Create? && op.memory in t.rows && t.rows[op.memory].version == op.expected && OwnProject(t, rw, t.rows[op.memory].project)
    && (t.rows[op.memory].deletedAt.Some? ==> op.Restore? && rw.None?)
  }

  /** Nobody has read it since the time the caller goes by. */
  predicate Unread(t: Tables, op: Op) {
    op.SoftDelete? && op.memory in t.rows && op.unreadSince.Some? && t.rows[op.memory].lastRead.Some? ==>
      t.rows[op.memory].lastRead.value < op.unreadSince.value
  }

  ghost predicate Accepts(t: Tables, op: Op, rw: Option<ReadWriteSet>, c: Call, index: nat) {
    && (if op.Create? then OwnProject(t, rw, op.project) && Touched(op, c, index) !in t.rows else MayChange(t, rw, op))
    && Unread(t, op)
    && (Asked(op).Some? ==> MayCite(t, OwnId(op), EarlierCites(t, op), Asked(op).value))
    && exists s :: Records(t, op, s) && c.check(s.description, s.body).None? && (WasThere(t, op) ==> s != Was(t, op))
  }

  function OwnId(op: Op): Option<Id> { if op.Create? then None else Some(op.memory) }

  ghost function EarlierCites(t: Tables, op: Op): seq<Ref> { if WasThere(t, op) then Was(t, op).sources else [] }

  /** Every refusal of one operation, and what is then true of the store before the change. */
  ghost predicate RefusedFor(t: Tables, op: Op, rw: Option<ReadWriteSet>, c: Call, index: nat, e: Error) {
    match e
    case BadValue => Asked(op).Some? && CitesTwice(Asked(op).value)
    case BatchConflict(i, of, reason) =>
      && i == index && of == OwnId(op)
      && (match reason
          case Missing => of.Some? && if op.memory in t.rows then op.Restore? && Ref(op.memory, op.toVersion) !in t.versions else rw.None?
          case StaleVersion => rw.None? && of.Some? && op.memory in t.rows && t.rows[op.memory].version != op.expected
          case Deleted => rw.None? && of.Some? && !op.Restore? && op.memory in t.rows && t.rows[op.memory].deletedAt.Some?
          case SameState => MayChange(t, rw, op) && Unread(t, op) && WasThere(t, op) && Records(t, op, Was(t, op))
          case ReadSince => !Unread(t, op)
          case Source => Asked(op).Some? && exists r :: r in Asked(op).value && r !in EarlierCites(t, op) && !CurrentAt(t, r)
          case Cycle => Asked(op).Some? && exists r :: r in Asked(op).value && of == Some(r.memory))
    case ContentRejected(rule, of) =>
      of == OwnId(op) && exists s :: Records(t, op, s) && c.check(s.description, s.body) == Some(rule) && (WasThere(t, op) ==> s != Was(t, op))
    case IdCollision(id) => op.Create? && id == Touched(op, c, index) && id in t.rows
    case ProjectNotFound(p) => rw.None? && op.Create? && p == op.project && p !in t.projects
    case ProjectUnavailable => rw.Some? && op.Create? && (op.project in t.projects ==> !rw.value.Writable(op.project))
    case GlobalReadOnly =>
      rw.Some? && var p := if op.Create? then op.project else if op.memory in t.rows then t.rows[op.memory].project else op.memory;
                  (op.Create? || op.memory in t.rows) && (rw.value.globalProject == Some(p) || (p in t.projects && t.projects[p]))
    case MemoryNotFound(m) =>
      && rw.Some? && OwnId(op) == Some(m)
      && (m in t.rows && t.rows[m].deletedAt.None? ==> !rw.value.Writable(t.rows[m].project))
    case VersionConflict(m) => rw.Some? && OwnId(op) == Some(m) && m in t.rows && t.rows[m].version != op.expected
    case _ => false
  }

  // ---- citations -----------------------------------------------------------------------------

  lemma TwiceOf(r: Ref, rs: seq<Ref>)
    ensures CitesTwice([r] + rs) <==> CitesTwice(rs) || exists q :: q in rs && q.memory == r.memory
  {
    var all := [r] + rs;
    assert forall i :: 0 < i < |all| ==> all[i] == rs[i - 1];
    if CitesTwice(rs) {
      var i, j :| 0 <= i < j < |rs| && rs[i].memory == rs[j].memory;
      assert all[i + 1].memory == all[j + 1].memory;
    }
    if q :| q in rs && q.memory == r.memory {
      var j :| 0 <= j < |rs| && rs[j] == q;
      assert all[0].memory == all[j + 1].memory;
    }
    if CitesTwice(all) {
      var i, j :| 0 <= i < j < |all| && all[i].memory == all[j].memory;
      if i > 0 { assert rs[i - 1].memory == rs[j - 1].memory; } else { assert all[j] in rs; }
    }
  }

  lemma SameElements(a: seq<Ref>, b: seq<Ref>)
    requires multiset(a) == multiset(b)
    ensures forall r :: r in a <==> r in b
  {
    forall r ensures r in a <==> r in b { assert r in a <==> r in multiset(a); }
  }

  lemma {:induction false} InsertTwice(r: Ref, rs: seq<Ref>)
    ensures CitesTwice(Insert(r, rs)) <==> CitesTwice([r] + rs)
  {
    if rs != [] && r.memory.n > rs[0].memory.n {
      var rest := rs[1..];
      assert rs == [rs[0]] + rest;
      InsertTwice(r, rest);
      SameElements(Insert(r, rest), [r] + rest);
      TwiceOf(rs[0], Insert(r, rest));
      TwiceOf(rs[0], rest);
      TwiceOf(r, rest);
      TwiceOf(r, rs);
      hide Insert, CitesTwice;
    }
  }

  lemma {:induction false} SortedTwice(rs: seq<Ref>)
    ensures CitesTwice(Sorted(rs)) <==> CitesTwice(rs)
  {
    if rs != [] {
      var rest := rs[1..];
      assert rs == [rs[0]] + rest;
      SortedTwice(rest);
      InsertTwice(rs[0], Sorted(rest));
      TwiceOf(rs[0], Sorted(rest));
      TwiceOf(rs[0], rest);
      SameElements(Sorted(rest), rest);
      hide Insert, CitesTwice;
    }
  }

  ghost predicate Ascending(rs: seq<Ref>) { forall i, j :: 0 <= i < j < |rs| ==> rs[i].memory.n <= rs[j].memory.n }

  lemma {:induction false} InsertAscends(r: Ref, rs: seq<Ref>)
    requires Ascending(rs)
    ensures Ascending(Insert(r, rs))
  {
    if rs != [] && r.memory.n > rs[0].memory.n {
      InsertAscends(r, rs[1..]);
      SameElements(Insert(r, rs[1..]), [r] + rs[1..]);
      var more := Insert(r, rs[1..]);
      forall j | 0 <= j < |more| ensures rs[0].memory.n <= more[j].memory.n { assert more[j] in [r] + rs[1..]; }
    }
  }

  lemma {:induction false} SortedAscends(rs: seq<Ref>)
    ensures Ascending(Sorted(rs))
  {
    if rs != [] {
      SortedAscends(rs[1..]);
      InsertAscends(rs[0], Sorted(rs[1..]));
    }
  }

  /** Sorting distinct citations arranges them. */
  lemma SortedArranged(rs: seq<Ref>)
    requires !CitesTwice(Sorted(rs))
    ensures Arranged(Sorted(rs), rs)
  {
    SortedAscends(rs);
    var all := Sorted(rs);
    forall i, j | 0 <= i < j < |all| ensures all[i].memory.n < all[j].memory.n {
      assert all[i].memory != all[j].memory;
    }
  }

  /** There is one way to arrange citations. */
  lemma {:induction false} ArrangedOnce(a: seq<Ref>, b: seq<Ref>)
    requires multiset(a) == multiset(b) && InOrder(a) && InOrder(b)
    ensures a == b
  {
    SameElements(a, b);
    assert |a| == |multiset(a)| && |b| == |multiset(b)|;
    if a != [] {
      FirstOfTwo(a, b);
      TailsAlike(a, b);
      ArrangedOnce(a[1..], b[1..]);
      assert a == [a[0]] + a[1..] && b == [b[0]] + b[1..];
    }
  }

  lemma FirstOfTwo(a: seq<Ref>, b: seq<Ref>)
    requires a != [] && b != [] && InOrder(a) && InOrder(b) && forall r :: r in a <==> r in b
    ensures a[0] == b[0]
  {
    assert a[0] in a && b[0] in b;
    var i :| 0 <= i < |b| && b[i] == a[0];
    var k :| 0 <= k < |a| && a[k] == b[0];
  }

  lemma TailsAlike(a: seq<Ref>, b: seq<Ref>)
    requires a != [] && b != [] && a[0] == b[0] && multiset(a) == multiset(b) && InOrder(a) && InOrder(b)
    ensures multiset(a[1..]) == multiset(b[1..]) && InOrder(a[1..]) && InOrder(b[1..])
  {
    TailOf(a);
    TailOf(b);
  }

  lemma TailOf(a: seq<Ref>)
    requires a != []
    ensures multiset(a[1..]) == multiset(a) - multiset{a[0]}
  {
    assert a == [a[0]] + a[1..];
  }

  lemma PreBatchIs(t: Tables, b: Batch, id: Id)
    requires BeforeOk(t, b)
    ensures PreBatch(b, id) == WasAt(t, id)
  {
  }

  ghost predicate Citable(t: Tables, own: Option<Id>, earlier: seq<Ref>, r: Ref) {
    own != Some(r.memory) && (r in earlier || CurrentAt(t, r))
  }

  lemma {:induction false} AdmitEachIs(t: Tables, b: Batch, index: nat, own: Option<Id>, earlier: seq<Ref>, refs: seq<Ref>)
    requires BeforeOk(t, b)
    ensures match AdmitEach(b, index, own, earlier, refs)
            case Ok(admitted) => admitted == refs && forall r :: r in refs ==> Citable(t, own, earlier, r)
            case Err(e) =>
              || (e == BatchConflict(index, own, Cycle) && exists r :: r in refs && own == Some(r.memory))
              || (e == BatchConflict(index, own, Source) && exists r :: r in refs && r !in earlier && !CurrentAt(t, r))
  {
    if refs != [] {
      assert refs == [refs[0]] + refs[1..];
      PreBatchIs(t, b, refs[0].memory);
      AdmitEachIs(t, b, index, own, earlier, refs[1..]);
    }
    hide PreBatch;
  }

  /** What `_admit` comes to, in terms of the store before the change. */
  lemma AdmitIs(t: Tables, b: Batch, index: nat, own: Option<Id>, earlier: seq<Ref>, asked: Option<seq<Ref>>)
    requires BeforeOk(t, b)
    ensures match Admit(b, index, own, earlier, asked)
            case Ok(refs) =>
              if asked.None? then refs == earlier else MayCite(t, own, earlier, asked.value) && Arranged(refs, asked.value)
            case Err(e) =>
              && asked.Some?
              && (|| (e == BadValue && CitesTwice(asked.value))
                  || (e == BatchConflict(index, own, Cycle) && exists r :: r in asked.value && own == Some(r.memory))
                  || (e == BatchConflict(index, own, Source) && exists r :: r in asked.value && r !in earlier && !CurrentAt(t, r)))
  {
    if asked.Some? {
      var refs := Sorted(asked.value);
      SortedTwice(asked.value);
      SameElements(refs, asked.value);
      AdmitEachIs(t, b, index, own, earlier, refs);
      if !CitesTwice(refs) { SortedArranged(asked.value); }
      hide Sorted, CitesTwice, AdmitEach, Arranged, CurrentAt;
    }
  }

  /** What may be cited is on record. */
  lemma CitedThere(t: Tables, own: Option<Id>, earlier: seq<Ref>, asked: seq<Ref>)
    requires Sound(t) && (forall r :: r in earlier ==> r in t.versions) && MayCite(t, own, earlier, asked)
    ensures forall r :: r in asked ==> r in t.versions
  {
    forall r | r in asked && r !in earlier ensures r in t.versions { assert RowOk(t, r.memory); }
  }

  /** The derived pair is the lowest, read off the store before the change. */
  lemma DerivedHere(t: Tables, t': Tables, index: nat, id: Option<Id>, trust: Trust, sync: bool, refs: seq<Ref>)
    requires Kept(t, t') && forall r :: r in refs ==> r in t.versions
    ensures Derived(t', index, id, trust, sync, refs).Ok?
    ensures forall s: State :: s.sources == refs && (s.trust, s.sync) == Derived(t', index, id, trust, sync, refs).value ==> Lowest(t, trust, sync, s)
  {
    DerivedIsLowest(t', index, id, trust, sync, refs);
    hide Derived;
  }

  // ---- one operation -------------------------------------------------------------------------

  /** The row that an operation leaves. */
  ghost predicate NewRow(t: Tables, op: Op, c: Call, row: Row, s: State) {
    && RowState(row, s.sources) == s
    && row.deletedAt == (if s.deleted then Some(row.updated) else None)
    && if op.Create? then
         && row.version == 1 && row.project == op.project && row.method_ == c.changedBy
         && row.harness == (if c.changedVia.Some? then c.changedVia.value else "unknown")
         && row.updated == c.now && row.lastRead == None
       else
         op.memory in t.rows && var was := t.rows[op.memory];
         && row.version == op.expected + 1 && row.project == was.project && row.harness == was.harness && row.method_ == was.method_
         && row.lastRead == was.lastRead && row.updated > was.updated
         && (row.updated == c.now || (c.now <= was.updated && row.updated == was.updated + 1))
  }

  function StepFor(op: Op, c: Call, index: nat): Step {
    if op.Create? then Step(index + 1, Touched(op, c, index), Created, None, 1)
    else Step(index + 1, op.memory, NameOf(op), Some(op.expected), op.expected + 1)
  }

  /** What an accepted operation does to the batch. */
  ghost predicate Did(t: Tables, b: Batch, b': Batch, step: Step, op: Op, c: Call, index: nat, row: Row, s: State, was: Option<(int, bool)>) {
    && step == StepFor(op, c, index) && Records(t, op, s) && NewRow(t, op, c, row, s) && (WasThere(t, op) ==> s != Was(t, op))
    && b' == Put(b, index, Touched(op, c, index), row, s, was)
  }

  /** The memory of an operation is as the store had it before the change. */
  ghost predicate Fresh(t: Tables, b: Batch, op: Op, c: Call, index: nat) {
    && UnderWay(t, b) && Sound(t)
    && (op.Create? ==> (Touched(op, c, index) in b.tables.rows ==> Touched(op, c, index) in t.rows))
    && (!op.Create? ==> op.memory !in b.before)
  }

  lemma FreshParts(t: Tables, b: Batch, op: Op, c: Call, index: nat)
    requires Fresh(t, b, op, c, index)
    ensures Sound(t) && Sound(b.tables) && BeforeOk(t, b) && Kept(t, b.tables) && b.tables.projects == t.projects
    ensures !op.Create? ==> (op.memory in b.tables.rows <==> op.memory in t.rows) && (op.memory in t.rows ==> b.tables.rows[op.memory] == t.rows[op.memory])
  {
  }

  lemma TargetSame(t: Tables, t': Tables, rw: Option<ReadWriteSet>, index: nat, id: Id, expected: int, allowDeleted: bool)
    requires t'.projects == t.projects && (id in t'.rows <==> id in t.rows) && (id in t.rows ==> t'.rows[id] == t.rows[id])
    ensures Target(t', rw, index, id, expected, allowDeleted) == Target(t, rw, index, id, expected, allowDeleted)
  {
  }

  lemma TargetManaged(t: Tables, op: Op, c: Call, index: nat)
    requires !op.Create? && (op.memory in t.rows ==> t.rows[op.memory].project in t.projects)
    ensures match Target(t, None, index, op.memory, op.expected, op.Restore?)
            case Ok(row) => MayChange(t, None, op) && row == t.rows[op.memory]
            case Err(e) => RefusedFor(t, op, None, c, index, e)
  {
    hide Records, MayCite, Unread, CitesTwice;
  }

  lemma TargetOfAgent(t: Tables, op: Op, rw: Option<ReadWriteSet>, c: Call, index: nat)
    requires rw.Some? && !op.Create? && (op.memory in t.rows ==> t.rows[op.memory].project in t.projects)
    ensures match Target(t, rw, index, op.memory, op.expected, op.Restore?)
            case Ok(row) => MayChange(t, rw, op) && row == t.rows[op.memory]
            case Err(e) => RefusedFor(t, op, rw, c, index, e)
  {
    hide Records, MayCite, Unread, CitesTwice;
  }

  /** Who may change a memory, and what is answered to who may not. */
  lemma TargetHere(t: Tables, b: Batch, rw: Option<ReadWriteSet>, op: Op, c: Call, index: nat)
    requires Fresh(t, b, op, c, index) && !op.Create?
    ensures match Target(b.tables, rw, index, op.memory, op.expected, op.Restore?)
            case Ok(row) => MayChange(t, rw, op) && op.memory in b.tables.rows && row == b.tables.rows[op.memory] == t.rows[op.memory]
            case Err(e) => RefusedFor(t, op, rw, c, index, e)
  {
    FreshParts(t, b, op, c, index);
    if op.memory in t.rows { assert RowOk(t, op.memory); }
    TargetSame(t, b.tables, rw, index, op.memory, op.expected, op.Restore?);
    hide Target, RefusedFor;
    if rw.None? { TargetManaged(t, op, c, index); } else { TargetOfAgent(t, op, rw, c, index); }
  }

  lemma StateHere(t: Tables, b: Batch, rw: Option<ReadWriteSet>, op: Op, c: Call, index: nat)
    requires Fresh(t, b, op, c, index) && MayChange(t, rw, op)
    ensures WasThere(t, op) && op.memory in b.tables.rows
    ensures StateOf(b.tables, op.memory, b.tables.rows[op.memory]) == Was(t, op) && CitesOk(t, Was(t, op))
    ensures Was(t, op).deleted == t.rows[op.memory].deletedAt.Some?
  {
    FreshParts(t, b, op, c, index);
    assert RowOk(t, op.memory);
    assert CitesOk(t, t.versions[Ref(op.memory, op.expected)].state);
    hide Fresh, BeforeOk;
  }

  lemma WriteAnswer(b: Batch, c: Call, index: nat, name: OpName, id: Id, row: Row, before: State, after: State)
    ensures var r := WriteVersion(b, c, index, name, id, row, before, after);
            if after == before then r == Err(BatchConflict(index, Some(id), SameState))
            else if c.check(after.description, after.body).Some? then
              r == Err(ContentRejected(c.check(after.description, after.body).value, Some(id)))
            else r.Ok?
  {
  }

  /** The new version of a memory that was there. */
  lemma Written(t: Tables, b: Batch, c: Call, rw: Option<ReadWriteSet>, index: nat, op: Op, after: State)
    returns (row: Row, was: Option<(int, bool)>)
    requires Fresh(t, b, op, c, index) && MayChange(t, rw, op) && Records(t, op, after)
    ensures op.memory in b.tables.rows && WasThere(t, op)
    ensures var r := WriteVersion(b, c, index, NameOf(op), op.memory, b.tables.rows[op.memory], Was(t, op), after);
            if after == Was(t, op) then r == Err(BatchConflict(index, Some(op.memory), SameState))
            else if c.check(after.description, after.body).Some? then
              r == Err(ContentRejected(c.check(after.description, after.body).value, Some(op.memory)))
            else r.Ok? && Did(t, b, r.value.0, r.value.1, op, c, index, row, after, was)
  {
    hide *;
    StateHere(t, b, rw, op, c, index);
    FreshRow(t, b, rw, op, c, index);
    var current := b.tables.rows[op.memory];
    row, was := current, Some((current.version, Was(t, op).deleted));
    WriteAnswer(b, c, index, NameOf(op), op.memory, current, Was(t, op), after);
    if after != Was(t, op) && c.check(after.description, after.body).None? {
      var step: Step;
      row, step := WriteParts(b, c, index, NameOf(op), op.memory, current, Was(t, op), after);
      RowIs(t, b, c, index, op, current, after, row, step);
      DidIs(t, b, op, c, index, row, after, was);
    }
  }

  lemma FreshRow(t: Tables, b: Batch, rw: Option<ReadWriteSet>, op: Op, c: Call, index: nat)
    requires Fresh(t, b, op, c, index) && MayChange(t, rw, op)
    ensures !op.Create? && op.memory in t.rows && op.memory in b.tables.rows && b.tables.rows[op.memory] == t.rows[op.memory]
    ensures t.rows[op.memory].version == op.expected
  {
    FreshParts(t, b, op, c, index);
    hide Fresh, Sound, BeforeOk, Kept;
  }

  lemma DidIs(t: Tables, b: Batch, op: Op, c: Call, index: nat, row: Row, s: State, was: Option<(int, bool)>)
    requires !op.Create? && Records(t, op, s) && NewRow(t, op, c, row, s) && (WasThere(t, op) ==> s != Was(t, op))
    ensures Did(t, b, Put(b, index, op.memory, row, s, was), StepFor(op, c, index), op, c, index, row, s, was)
  {
    hide Records, NewRow, Put, Was;
  }

  lemma RowIs(t: Tables, b: Batch, c: Call, index: nat, op: Op, current: Row, after: State, row: Row, step: Step)
    requires !op.Create? && op.memory in t.rows && current == t.rows[op.memory] && current.version == op.expected && WasThere(t, op)
    requires WriteVersion(b, c, index, NameOf(op), op.memory, current, Was(t, op), after)
          == Ok((Put(b, index, op.memory, row, after, Some((current.version, Was(t, op).deleted))), step))
    requires step == Step(index + 1, op.memory, NameOf(op), Some(current.version), current.version + 1)
    ensures NewRow(t, op, c, row, after) && step == StepFor(op, c, index)
  {
    var b' := WriteVersion(b, c, index, NameOf(op), op.memory, current, Was(t, op), after).value.0;
    assert b'.tables.rows[op.memory] == row;
  }

  /** What came of an operation: it is accepted and did what it asks for, or is refused for a reason that holds. */
  ghost predicate Treated(t: Tables, b: Batch, r: Result<(Batch, Step), Error>, op: Op, rw: Option<ReadWriteSet>, c: Call, index: nat,
                         row: Row, s: State, was: Option<(int, bool)>) {
    if r.Ok? then Accepts(t, op, rw, c, index) && Did(t, b, r.value.0, r.value.1, op, c, index, row, s, was)
    else RefusedFor(t, op, rw, c, index, r.error)
  }

  lemma Treat(t: Tables, b: Batch, r: Result<(Batch, Step), Error>, op: Op, rw: Option<ReadWriteSet>, c: Call, index: nat,
              row: Row, s: State, was: Option<(int, bool)>)
    requires MayChange(t, rw, op) && WasThere(t, op) && Records(t, op, s) && Unread(t, op)
    requires Asked(op).Some? ==> MayCite(t, OwnId(op), EarlierCites(t, op), Asked(op).value)
    requires if s == Was(t, op) then r == Err(BatchConflict(index, Some(op.memory), SameState))
             else if c.check(s.description, s.body).Some? then
               r == Err(ContentRejected(c.check(s.description, s.body).value, Some(op.memory)))
             else r.Ok? && Did(t, b, r.value.0, r.value.1, op, c, index, row, s, was)
    ensures Treated(t, b, r, op, rw, c, index, row, s, was)
  {
    hide Records, MayCite, Did, MayChange, Unread;
  }

  lemma NotChangeable(t: Tables, b: Batch, r: Result<(Batch, Step), Error>, op: Op, rw: Option<ReadWriteSet>, c: Call, index: nat,
                      row: Row, s: State, was: Option<(int, bool)>)
    requires r.Err? && RefusedFor(t, op, rw, c, index, r.error)
    ensures Treated(t, b, r, op, rw, c, index, row, s, was)
  {
    hide RefusedFor;
  }

  function SomeRow(): Row { Row(Id(0), "", "", 0, UserKind, User, false, "", "", 0, None, None) }

  lemma RestoreAnswer(b: Batch, c: Call, rw: Option<ReadWriteSet>, index: nat, op: Op)
    requires op.Restore?
    ensures var target, k, r := Target(b.tables, rw, index, op.memory, op.expected, true), Ref(op.memory, op.toVersion), ApplyRestore(b, c, rw, index, op);
            if target.Err? then r == Err(target.error)
            else if k !in b.tables.versions then r == Err(BatchConflict(index, Some(op.memory), Missing))
            else
              var after := b.tables.versions[k].state;
              (forall r :: r in after.sources ==> r in b.tables.versions) ==>
                r == WriteVersion(b, c, index, Restored, op.memory, target.value, StateOf(b.tables, op.memory, target.value), after)
  {
    hide Target, WriteVersion, StateOf;
  }

  lemma RestoreIs(t: Tables, b: Batch, c: Call, rw: Option<ReadWriteSet>, index: nat, op: Op) returns (row: Row, s: State, was: Option<(int, bool)>)
    requires Fresh(t, b, op, c, index) && op.Restore?
    ensures Treated(t, b, ApplyRestore(b, c, rw, index, op), op, rw, c, index, row, s, was)
  {
    hide *;
    FreshParts(t, b, op, c, index);
    TargetHere(t, b, rw, op, c, index);
    RestoreAnswer(b, c, rw, index, op);
    var r, k := ApplyRestore(b, c, rw, index, op), Ref(op.memory, op.toVersion);
    row, s, was := SomeRow(), RowState(SomeRow(), []), None;
    if Target(b.tables, rw, index, op.memory, op.expected, true).Err? {
      NotChangeable(t, b, r, op, rw, c, index, row, s, was);
    } else {
      StateHere(t, b, rw, op, c, index);
      SameVersions(t, b.tables, k);
      if k in t.versions {
        RecordedCites(b.tables, k);
        CitesThere(b.tables, b.tables.versions[k].state);
        s := t.versions[k].state;
        RestoreRecords(t, op, s);
        row, was := Written(t, b, c, rw, index, op, s);
        Treat(t, b, r, op, rw, c, index, row, s, was);
      } else {
        RestoreMissing(t, op, rw, c, index);
        NotChangeable(t, b, r, op, rw, c, index, row, s, was);
      }
    }
  }

  lemma CitesThere(t: Tables, s: State)
    requires CitesOk(t, s)
    ensures forall r :: r in s.sources ==> r in t.versions
  {
  }

  lemma RestoreRecords(t: Tables, op: Op, s: State)
    requires op.Restore? && Ref(op.memory, op.toVersion) in t.versions && s == t.versions[Ref(op.memory, op.toVersion)].state
    ensures Records(t, op, s) && Unread(t, op) && Asked(op).None? && NameOf(op) == Restored
  {
  }

  lemma RestoreMissing(t: Tables, op: Op, rw: Option<ReadWriteSet>, c: Call, index: nat)
    requires op.Restore? && MayChange(t, rw, op) && Ref(op.memory, op.toVersion) !in t.versions
    ensures RefusedFor(t, op, rw, c, index, BatchConflict(index, Some(op.memory), Missing))
  {
  }

  /** Versions of a memory the change has not touched. */
  lemma SameVersions(t: Tables, t': Tables, k: Ref)
    requires Sound(t) && Sound(t') && Kept(t, t') && (k.memory in t'.rows <==> k.memory in t.rows)
    requires k.memory in t.rows ==> t'.rows[k.memory] == t.rows[k.memory]
    ensures k in t'.versions <==> k in t.versions
    ensures k in t.versions ==> t'.versions[k] == t.versions[k]
  {
  }

  lemma SoftDeleteAnswer(b: Batch, c: Call, rw: Option<ReadWriteSet>, index: nat, op: Op)
    requires op.SoftDelete?
    ensures var target, r := Target(b.tables, rw, index, op.memory, op.expected, false), ApplySoftDelete(b, c, rw, index, op);
            if target.Err? then r == Err(target.error)
            else if op.unreadSince.Some? && target.value.lastRead.Some? && target.value.lastRead.value >= op.unreadSince.value then
              r == Err(BatchConflict(index, Some(op.memory), ReadSince))
            else
              var before := StateOf(b.tables, op.memory, target.value);
              r == WriteVersion(b, c, index, SoftDeleted, op.memory, target.value, before, before.(deleted := true))
  {
    hide Target, WriteVersion, StateOf;
  }

  lemma SoftDeleteIs(t: Tables, b: Batch, c: Call, rw: Option<ReadWriteSet>, index: nat, op: Op) returns (row: Row, s: State, was: Option<(int, bool)>)
    requires Fresh(t, b, op, c, index) && op.SoftDelete?
    ensures Treated(t, b, ApplySoftDelete(b, c, rw, index, op), op, rw, c, index, row, s, was)
  {
    hide *;
    FreshParts(t, b, op, c, index);
    TargetHere(t, b, rw, op, c, index);
    SoftDeleteAnswer(b, c, rw, index, op);
    var r := ApplySoftDelete(b, c, rw, index, op);
    row, s, was := SomeRow(), RowState(SomeRow(), []), None;
    if Target(b.tables, rw, index, op.memory, op.expected, false).Err? {
      NotChangeable(t, b, r, op, rw, c, index, row, s, was);
    } else {
      StateHere(t, b, rw, op, c, index);
      s := Was(t, op).(deleted := true);
      SoftDeleteRecords(t, op, rw, c, index, s);
      if Unread(t, op) {
        row, was := Written(t, b, c, rw, index, op, s);
        Treat(t, b, r, op, rw, c, index, row, s, was);
      } else {
        NotChangeable(t, b, r, op, rw, c, index, row, s, was);
      }
    }
  }

  lemma SoftDeleteRecords(t: Tables, op: Op, rw: Option<ReadWriteSet>, c: Call, index: nat, s: State)
    requires op.SoftDelete? && MayChange(t, rw, op) && WasThere(t, op) && s == Was(t, op).(deleted := true)
    ensures Records(t, op, s) && Asked(op).None? && NameOf(op) == SoftDeleted && op.memory in t.rows
    ensures var row := t.rows[op.memory];
            Unread(t, op) <==> !(op.unreadSince.Some? && row.lastRead.Some? && row.lastRead.value >= op.unreadSince.value)
    ensures !Unread(t, op) ==> RefusedFor(t, op, rw, c, index, BatchConflict(index, Some(op.memory), ReadSince))
  {
  }

  lemma UpdateAnswer(b: Batch, c: Call, rw: Option<ReadWriteSet>, index: nat, op: Op)
    requires op.Update?
    ensures var target, r := Target(b.tables, rw, index, op.memory, op.expected, false), ApplyUpdate(b, c, rw, index, op);
            if target.Err? then r == Err(target.error)
            else
              var before := StateOf(b.tables, op.memory, target.value);
              var admitted := Admit(b, index, Some(op.memory), before.sources, op.newCites);
              if admitted.Err? then r == Err(admitted.error)
              else
                var derived := Derived(b.tables, index, Some(op.memory), before.trust, before.sync, admitted.value);
                derived.Ok? ==>
                  r == WriteVersion(b, c, index, Updated, op.memory, target.value, before,
                                    Changed(before, op, derived.value.0, derived.value.1, admitted.value))
  {
    hide Target, WriteVersion, StateOf, Admit, Derived, Strip;
  }

  function Changed(before: State, op: Op, trust: Trust, sync: bool, sources: seq<Ref>): State
    requires op.Update?
  {
    before.(trust := trust, sync := sync, sources := sources,
            description := if op.newDescription.None? then before.description else Strip(op.newDescription.value),
            body := if op.newBody.None? then before.body else Strip(op.newBody.value))
  }

  lemma UpdateRecords(t: Tables, op: Op, trust: Trust, sync: bool, sources: seq<Ref>)
    requires op.Update? && WasThere(t, op) && (forall s: State :: s.sources == sources && (s.trust, s.sync) == (trust, sync) ==> Lowest(t, Was(t, op).trust, Was(t, op).sync, s))
    requires if op.newCites.None? then sources == Was(t, op).sources else Arranged(sources, op.newCites.value)
    ensures Records(t, op, Changed(Was(t, op), op, trust, sync, sources))
    ensures Unread(t, op) && Asked(op) == op.newCites && OwnId(op) == Some(op.memory) && NameOf(op) == Updated && EarlierCites(t, op) == Was(t, op).sources
  {
    hide Lowest, Arranged, Strip, Was;
  }

  lemma UpdateIs(t: Tables, b: Batch, c: Call, rw: Option<ReadWriteSet>, index: nat, op: Op) returns (row: Row, s: State, was: Option<(int, bool)>)
    requires Fresh(t, b, op, c, index) && op.Update?
    ensures Treated(t, b, ApplyUpdate(b, c, rw, index, op), op, rw, c, index, row, s, was)
  {
    hide *;
    FreshParts(t, b, op, c, index);
    TargetHere(t, b, rw, op, c, index);
    UpdateAnswer(b, c, rw, index, op);
    var r := ApplyUpdate(b, c, rw, index, op);
    row, s, was := SomeRow(), RowState(SomeRow(), []), None;
    if Target(b.tables, rw, index, op.memory, op.expected, false).Err? {
      NotChangeable(t, b, r, op, rw, c, index, row, s, was);
    } else {
      StateHere(t, b, rw, op, c, index);
      var before := Was(t, op);
      CitesThere(t, before);
      var admitted := Admit(b, index, Some(op.memory), before.sources, op.newCites);
      AdmitIs(t, b, index, Some(op.memory), before.sources, op.newCites);
      AskedIs(t, op);
      if admitted.Err? {
        CitesRefused(t, op, rw, c, index, admitted.error);
        NotChangeable(t, b, r, op, rw, c, index, row, s, was);
      } else {
        AdmittedThere(t, Some(op.memory), before.sources, op.newCites, admitted.value);
        DerivedHere(t, b.tables, index, Some(op.memory), before.trust, before.sync, admitted.value);
        var (trust, sync) := Derived(b.tables, index, Some(op.memory), before.trust, before.sync, admitted.value).value;
        s := Changed(before, op, trust, sync, admitted.value);
        UpdateRecords(t, op, trust, sync, admitted.value);
        row, was := Written(t, b, c, rw, index, op, s);
        Treat(t, b, r, op, rw, c, index, row, s, was);
      }
    }
  }

  lemma AskedIs(t: Tables, op: Op)
    ensures op.Create? ==> Asked(op) == Some(op.cites) && OwnId(op) == None && EarlierCites(t, op) == []
    ensures op.Update? ==> Asked(op) == op.newCites && OwnId(op) == Some(op.memory)
    ensures op.Update? && WasThere(t, op) ==> EarlierCites(t, op) == Was(t, op).sources
  {
  }

  lemma CitesRefused(t: Tables, op: Op, rw: Option<ReadWriteSet>, c: Call, index: nat, e: Error)
    requires Asked(op).Some?
    requires || (e == BadValue && CitesTwice(Asked(op).value))
             || (e == BatchConflict(index, OwnId(op), Cycle) && exists r :: r in Asked(op).value && OwnId(op) == Some(r.memory))
             || (e == BatchConflict(index, OwnId(op), Source)
                 && exists r :: r in Asked(op).value && r !in EarlierCites(t, op) && !CurrentAt(t, r))
    ensures RefusedFor(t, op, rw, c, index, e)
  {
    hide CitesTwice, CurrentAt, EarlierCites;
  }

  lemma AdmittedThere(t: Tables, own: Option<Id>, earlier: seq<Ref>, asked: Option<seq<Ref>>, admitted: seq<Ref>)
    requires Sound(t) && forall r :: r in earlier ==> r in t.versions
    requires if asked.None? then admitted == earlier else MayCite(t, own, earlier, asked.value) && Arranged(admitted, asked.value)
    ensures forall r :: r in admitted ==> r in t.versions
  {
    if asked.Some? {
      CitedThere(t, own, earlier, asked.value);
      SameElements(admitted, asked.value);
    }
    hide MayCite, Sound;
  }

  lemma CreateAnswer(b: Batch, c: Call, rw: Option<ReadWriteSet>, index: nat, op: Op)
    requires op.Create?
    ensures var refused, admitted := AuthorizeCreate(b.tables, rw, op.project), Admit(b, index, None, [], Some(op.cites));
            var r := ApplyCreate(b, c, rw, index, op);
            if refused.Some? then r == Err(refused.value)
            else if admitted.Err? then r == Err(admitted.error)
            else
              var derived := OwnOrDerived(b.tables, index, op, admitted.value);
              derived.Ok? ==>
                var row, id := FirstRow(op, c, derived.value.0, derived.value.1), c.newId(index + 1);
                var rule := c.check(row.description, row.body);
                if rule.Some? then r == Err(ContentRejected(rule.value, None))
                else if id in b.tables.rows then r == Err(IdCollision(id))
                else id !in b.before ==>
                  r == Ok((Put(b, index, id, row, RowState(row, admitted.value), None), Step(index + 1, id, Created, None, 1)))
  {
    hide AuthorizeCreate, Admit, OwnOrDerived, Strip;
  }

  function FirstRow(op: Op, c: Call, trust: Trust, sync: bool): Row
    requires op.Create?
  {
    Row(op.project, if c.changedVia.Some? then c.changedVia.value else "unknown", c.changedBy, 1, op.kind,
        trust, sync, Strip(op.description), Strip(op.body), c.now, None, None)
  }

  lemma CreateIs(t: Tables, b: Batch, c: Call, rw: Option<ReadWriteSet>, index: nat, op: Op) returns (row: Row, s: State, was: Option<(int, bool)>)
    requires Fresh(t, b, op, c, index) && op.Create?
    ensures Treated(t, b, ApplyCreate(b, c, rw, index, op), op, rw, c, index, row, s, was)
  {
    hide *;
    FreshParts(t, b, op, c, index);
    CreateHere(t, b, rw, op, c, index);
    CreateAnswer(b, c, rw, index, op);
    AdmitIs(t, b, index, None, [], Some(op.cites));
    AskedIs(t, op);
    row, s, was := SomeRow(), RowState(SomeRow(), []), None;
    var r, admitted := ApplyCreate(b, c, rw, index, op), Admit(b, index, None, [], Some(op.cites));
    if AuthorizeCreate(b.tables, rw, op.project).Some? {
      NotChangeable(t, b, r, op, rw, c, index, row, s, was);
    } else if admitted.Err? {
      CitesRefused(t, op, rw, c, index, admitted.error);
      NotChangeable(t, b, r, op, rw, c, index, row, s, was);
    } else {
      AdmittedThere(t, None, [], Some(op.cites), admitted.value);
      DerivedHere(t, b.tables, index, None, User, true, admitted.value);
      SameElementsOf(admitted.value, op.cites);
      OwnIs(b.tables, index, op, admitted.value);
      var (trust, sync) := OwnOrDerived(b.tables, index, op, admitted.value).value;
      row := FirstRow(op, c, trust, sync);
      s := RowState(row, admitted.value);
      CreateRecords(t, op, c, trust, sync, admitted.value);
      CreateTreated(t, b, c, rw, index, op, r, row, s);
    }
  }

  lemma OwnIs(t: Tables, index: nat, op: Op, sources: seq<Ref>)
    requires op.Create?
    ensures OwnOrDerived(t, index, op, sources)
         == if sources == [] then Ok((op.trust, op.sync)) else Derived(t, index, None, User, true, sources)
  {
  }

  lemma CreateRecords(t: Tables, op: Op, c: Call, trust: Trust, sync: bool, sources: seq<Ref>)
    requires op.Create? && Arranged(sources, op.cites) && (sources == [] <==> op.cites == [])
    requires if sources == [] then (trust, sync) == (op.trust, op.sync)
             else forall s: State :: s.sources == sources && (s.trust, s.sync) == (trust, sync) ==> Lowest(t, User, true, s)
    ensures var row := FirstRow(op, c, trust, sync); Records(t, op, RowState(row, sources)) && NewRow(t, op, c, row, RowState(row, sources))
    ensures var row := FirstRow(op, c, trust, sync); RowState(row, sources).description == row.description && RowState(row, sources).body == row.body
  {
    hide Lowest, Arranged, Strip;
  }

  lemma SameElementsOf(a: seq<Ref>, b: seq<Ref>)
    requires Arranged(a, b)
    ensures a == [] <==> b == []
  {
    SameElements(a, b);
    if a != [] { assert a[0] in b; }
    if b != [] { assert b[0] in a; }
  }

  lemma CreateHere(t: Tables, b: Batch, rw: Option<ReadWriteSet>, op: Op, c: Call, index: nat)
    requires Fresh(t, b, op, c, index) && op.Create?
    ensures match AuthorizeCreate(b.tables, rw, op.project)
            case None => OwnProject(t, rw, op.project)
            case Some(e) => RefusedFor(t, op, rw, c, index, e)
  {
    FreshParts(t, b, op, c, index);
    CreateOwn(t, b.tables, rw, op, c, index);
    hide *;
  }

  lemma CreateOwn(t: Tables, t': Tables, rw: Option<ReadWriteSet>, op: Op, c: Call, index: nat)
    requires op.Create? && t'.projects == t.projects
    ensures match AuthorizeCreate(t', rw, op.project)
            case None => OwnProject(t, rw, op.project)
            case Some(e) => RefusedFor(t, op, rw, c, index, e)
  {
    hide Records, MayCite, MayChange, Unread, CitesTwice, WasThere, Was, CurrentAt, EarlierCites, Asked;
  }

  lemma CreateTreated(t: Tables, b: Batch, c: Call, rw: Option<ReadWriteSet>, index: nat, op: Op, r: Result<(Batch, Step), Error>, row: Row, s: State)
    requires Fresh(t, b, op, c, index) && op.Create? && OwnProject(t, rw, op.project) && MayCite(t, None, [], op.cites)
    requires Records(t, op, s) && NewRow(t, op, c, row, s) && s.description == row.description && s.body == row.body
    requires var rule, id := c.check(row.description, row.body), c.newId(index + 1);
             if rule.Some? then r == Err(ContentRejected(rule.value, None))
             else if id in b.tables.rows then r == Err(IdCollision(id))
             else id !in b.before ==> r == Ok((Put(b, index, id, row, s, None), Step(index + 1, id, Created, None, 1)))
    ensures Treated(t, b, r, op, rw, c, index, row, s, None)
  {
    hide *;
    FreshParts(t, b, op, c, index);
    BeforeHasRows(t, b);
    FreshDrawn(t, b, op, c, index);
    CreateAccepted(t, op, rw, c, index, s);
    var rule := c.check(row.description, row.body);
    if rule.None? && c.newId(index + 1) !in b.tables.rows {
      CreateDid(t, b, r, op, rw, c, index, row, s);
    } else {
      NotChangeable(t, b, r, op, rw, c, index, row, s, None);
    }
  }

  lemma CreateAccepted(t: Tables, op: Op, rw: Option<ReadWriteSet>, c: Call, index: nat, s: State)
    requires op.Create? && OwnProject(t, rw, op.project) && MayCite(t, None, [], op.cites) && Records(t, op, s)
    ensures c.check(s.description, s.body).None? && c.newId(index + 1) !in t.rows ==> Accepts(t, op, rw, c, index)
    ensures c.check(s.description, s.body).Some? ==>
              RefusedFor(t, op, rw, c, index, ContentRejected(c.check(s.description, s.body).value, None))
    ensures c.newId(index + 1) in t.rows ==> RefusedFor(t, op, rw, c, index, IdCollision(c.newId(index + 1)))
    ensures Touched(op, c, index) == c.newId(index + 1)
  {
    hide Records, MayCite, OwnProject;
  }

  lemma CreateDid(t: Tables, b: Batch, r: Result<(Batch, Step), Error>, op: Op, rw: Option<ReadWriteSet>, c: Call, index: nat, row: Row, s: State)
    requires op.Create? && Accepts(t, op, rw, c, index) && Records(t, op, s) && NewRow(t, op, c, row, s)
    requires r == Ok((Put(b, index, c.newId(index + 1), row, s, None), Step(index + 1, c.newId(index + 1), Created, None, 1)))
    ensures Treated(t, b, r, op, rw, c, index, row, s, None)
  {
    hide Records, NewRow, Accepts, Put;
  }

  lemma FreshDrawn(t: Tables, b: Batch, op: Op, c: Call, index: nat)
    requires Fresh(t, b, op, c, index) && op.Create?
    ensures Touched(op, c, index) in t.rows <==> Touched(op, c, index) in b.tables.rows
  {
  }

  lemma OneIs(t: Tables, b: Batch, c: Call, rw: Option<ReadWriteSet>, index: nat, op: Op) returns (row: Row, s: State, was: Option<(int, bool)>)
    requires Fresh(t, b, op, c, index)
    ensures Treated(t, b, ApplyOne(b, c, rw, index, op), op, rw, c, index, row, s, was)
  {
    hide Treated, Fresh, ApplyCreate, ApplyUpdate, ApplySoftDelete, ApplyRestore;
    match op
    case Create(_, _, _, _, _, _, _) => row, s, was := CreateIs(t, b, c, rw, index, op);
    case Update(_, _, _, _, _) => row, s, was := UpdateIs(t, b, c, rw, index, op);
    case SoftDelete(_, _, _) => row, s, was := SoftDeleteIs(t, b, c, rw, index, op);
    case Restore(_, _, _) => row, s, was := RestoreIs(t, b, c, rw, index, op);
  }

  // ---- a whole change ------------------------------------------------------------------------

  /** No two operations are about one memory. */
  ghost predicate AllApart(ops: seq<Op>, c: Call) {
    forall i, j :: 0 <= i < j < |ops| ==> Touched(ops[i], c, i) != Touched(ops[j], c, j)
  }

  /** The version, the row and the step that an operation leaves in the store. */
  ghost predicate Wrote(t: Tables, t': Tables, op: Op, c: Call, index: nat, step: Step) {
    var m := Touched(op, c, index);
    var k := Ref(m, step.after);
    && step == StepFor(op, c, index) && k in t'.versions && t'.versions[k].change == c.newId(0)
    && Records(t, op, t'.versions[k].state) && (WasThere(t, op) ==> t'.versions[k].state != Was(t, op))
    && m in t'.rows && NewRow(t, op, c, t'.rows[m], t'.versions[k].state)
  }

  /** The first `n` operations are accepted and have been carried out. */
  ghost predicate Progress(t: Tables, b: Batch, steps: seq<Step>, rw: Option<ReadWriteSet>, ops: seq<Op>, c: Call, n: nat)
    requires n <= |ops|
  {
    && |steps| == n && b.changeId == c.newId(0)
    && (forall j :: 0 <= j < n ==> Accepts(t, ops[j], rw, c, j) && Wrote(t, b.tables, ops[j], c, j, steps[j]))
    && (forall id :: id in b.before ==> exists j :: 0 <= j < n && Touched(ops[j], c, j) == id)
    && (forall x :: x in b.cited ==> x.0 < n && x.1.memory == Touched(ops[x.0], c, x.0))
  }

  lemma NoProgress(t: Tables, rw: Option<ReadWriteSet>, ops: seq<Op>, c: Call)
    ensures Progress(t, Batch(t, c.newId(0), map[], []), [], rw, ops, c, 0)
  {
  }

  lemma StillFresh(t: Tables, b: Batch, steps: seq<Step>, rw: Option<ReadWriteSet>, ops: seq<Op>, c: Call, n: nat)
    requires Sound(t) && UnderWay(t, b) && n < |ops| && AllApart(ops, c) && Progress(t, b, steps, rw, ops, c, n)
    ensures Fresh(t, b, ops[n], c, n)
  {
    UnderWayParts(t, b);
    var m := Touched(ops[n], c, n);
    assert forall j :: 0 <= j < n ==> Touched(ops[j], c, j) != m;
    hide Progress, UnderWay, Sound, AllApart;
  }

  lemma DidWrote(t: Tables, b: Batch, b': Batch, step: Step, op: Op, c: Call, index: nat, row: Row, s: State, was: Option<(int, bool)>)
    requires Did(t, b, b', step, op, c, index, row, s, was) && b.changeId == c.newId(0)
    ensures Wrote(t, b'.tables, op, c, index, step) && b'.changeId == b.changeId
    ensures forall id :: id in b'.before ==> id in b.before || id == Touched(op, c, index)
    ensures forall x :: x in b'.cited ==> x in b.cited || x == (index, Ref(Touched(op, c, index), step.after))
  {
    hide Records;
  }

  lemma StillWrote(t: Tables, b: Batch, b': Batch, op: Op, c: Call, index: nat, step: Step,
                   other: Op, otherIndex: nat, otherStep: Step, row: Row, s: State, was: Option<(int, bool)>)
    requires Wrote(t, b.tables, op, c, index, step) && Did(t, b, b', otherStep, other, c, otherIndex, row, s, was)
    requires Touched(op, c, index) != Touched(other, c, otherIndex)
    ensures Wrote(t, b'.tables, op, c, index, step)
  {
    hide Records, NewRow;
  }

  lemma MoreProgress(t: Tables, b: Batch, b': Batch, steps: seq<Step>, step: Step, rw: Option<ReadWriteSet>, ops: seq<Op>, c: Call, n: nat,
                     row: Row, s: State, was: Option<(int, bool)>)
    requires n < |ops| && AllApart(ops, c) && Progress(t, b, steps, rw, ops, c, n)
    requires Accepts(t, ops[n], rw, c, n) && Did(t, b, b', step, ops[n], c, n, row, s, was)
    ensures Progress(t, b', steps + [step], rw, ops, c, n + 1)
  {
    hide *;
    var more := steps + [step];
    DidWrote(t, b, b', step, ops[n], c, n, row, s, was) by { ProgressParts(t, b, steps, rw, ops, c, n); }
    ProgressParts(t, b, steps, rw, ops, c, n);
    forall j | 0 <= j < n ensures Wrote(t, b'.tables, ops[j], c, j, more[j]) {
      assert Wrote(t, b.tables, ops[j], c, j, steps[j]);
      ApartAt(ops, c, j, n);
      StillWrote(t, b, b', ops[j], c, j, steps[j], ops[n], n, step, row, s, was);
    }
    forall j | 0 <= j < n + 1 ensures Accepts(t, ops[j], rw, c, j) && Wrote(t, b'.tables, ops[j], c, j, more[j]) {
    }
    ProgressIs(t, b, b', steps, step, rw, ops, c, n);
  }

  lemma ApartAt(ops: seq<Op>, c: Call, i: nat, j: nat)
    requires AllApart(ops, c) && i < j < |ops|
    ensures Touched(ops[i], c, i) != Touched(ops[j], c, j)
  {
  }

  lemma ProgressParts(t: Tables, b: Batch, steps: seq<Step>, rw: Option<ReadWriteSet>, ops: seq<Op>, c: Call, n: nat)
    requires n <= |ops| && Progress(t, b, steps, rw, ops, c, n)
    ensures |steps| == n && b.changeId == c.newId(0)
    ensures forall j :: 0 <= j < n ==> Accepts(t, ops[j], rw, c, j) && Wrote(t, b.tables, ops[j], c, j, steps[j])
  {
    hide Accepts, Wrote;
  }

  lemma ProgressIs(t: Tables, b: Batch, b': Batch, steps: seq<Step>, step: Step, rw: Option<ReadWriteSet>, ops: seq<Op>, c: Call, n: nat)
    requires n < |ops| && Progress(t, b, steps, rw, ops, c, n) && b'.changeId == b.changeId
    requires forall j :: 0 <= j < n + 1 ==> Accepts(t, ops[j], rw, c, j) && Wrote(t, b'.tables, ops[j], c, j, (steps + [step])[j])
    requires forall id :: id in b'.before ==> id in b.before || id == Touched(ops[n], c, n)
    requires forall x :: x in b'.cited ==> x in b.cited || x == (n, Ref(Touched(ops[n], c, n), step.after))
    ensures Progress(t, b', steps + [step], rw, ops, c, n + 1)
  {
    hide Accepts, Wrote;
    forall id | id in b'.before ensures exists j :: 0 <= j < n + 1 && Touched(ops[j], c, j) == id {
      if id in b.before {
        var j :| 0 <= j < n && Touched(ops[j], c, j) == id;
        assert 0 <= j < n + 1;
      } else {
        assert Touched(ops[n], c, n) == id;
      }
    }
  }

  /** Refused for operation `j`, those before it being acceptable. */
  ghost predicate RefusedAt(t: Tables, ops: seq<Op>, rw: Option<ReadWriteSet>, c: Call, j: nat, e: Error)
    requires j < |ops|
  {
    RefusedFor(t, ops[j], rw, c, j, e) && forall i :: 0 <= i < j ==> Accepts(t, ops[i], rw, c, i)
  }

  /** The batch after `n` operations, or the first refusal. */
  ghost predicate Outcome(t: Tables, r: Result<(Batch, seq<Step>), Error>, rw: Option<ReadWriteSet>, ops: seq<Op>, c: Call, n: nat)
    requires n <= |ops|
  {
    match r
    case Ok((b, steps)) => UnderWay(t, b) && Progress(t, b, steps, rw, ops, c, n)
    case Err(e) => exists j :: 0 <= j < n && RefusedAt(t, ops, rw, c, j, e)
  }

  lemma {:induction false} AppliedIs(t: Tables, rw: Option<ReadWriteSet>, ops: seq<Op>, c: Call, n: nat)
    requires Sound(t) && AllApart(ops, c) && n <= |ops|
    ensures Outcome(t, Applied(Batch(t, c.newId(0), map[], []), c, rw, ops, n), rw, ops, c, n)
  {
    hide *;
    var start := Batch(t, c.newId(0), map[], []);
    if n == 0 {
      StartUnderWay(t, c.newId(0));
      NoProgress(t, rw, ops, c);
      OutcomeIs(t, start, [], rw, ops, c, 0);
      AppliedNone(start, c, rw, ops);
    } else {
      AppliedIs(t, rw, ops, c, n - 1);
      AppliedMore(start, c, rw, ops, n);
      var earlier := Applied(start, c, rw, ops, n - 1);
      if earlier.Err? {
        RefusedEarlier(t, earlier.error, rw, ops, c, n);
      } else {
        var (b, steps) := earlier.value;
        OutcomeParts(t, b, steps, rw, ops, c, n - 1);
        StillFresh(t, b, steps, rw, ops, c, n - 1);
        var row, s, was := OneIs(t, b, c, rw, n - 1, ops[n - 1]);
        OneKeeps(t, b, c, rw, n - 1, ops[n - 1]);
        var r := ApplyOne(b, c, rw, n - 1, ops[n - 1]);
        TreatedParts(t, b, r, ops[n - 1], rw, c, n - 1, row, s, was);
        if r.Ok? {
          AdvancedParts(t, b, r.value.0, r.value.1);
          MoreProgress(t, b, r.value.0, steps, r.value.1, rw, ops, c, n - 1, row, s, was);
          OutcomeIs(t, r.value.0, steps + [r.value.1], rw, ops, c, n);
        } else {
          RefusedNow(t, b, steps, r.error, rw, ops, c, n);
        }
      }
    }
  }

  lemma AppliedNone(b: Batch, c: Call, rw: Option<ReadWriteSet>, ops: seq<Op>)
    ensures Applied(b, c, rw, ops, 0) == Ok((b, []))
  {
  }

  lemma AppliedMore(b: Batch, c: Call, rw: Option<ReadWriteSet>, ops: seq<Op>, n: nat)
    requires 0 < n <= |ops|
    ensures var before, r := Applied(b, c, rw, ops, n - 1), Applied(b, c, rw, ops, n);
            if before.Err? then r == Err(before.error)
            else
              var one := ApplyOne(before.value.0, c, rw, n - 1, ops[n - 1]);
              if one.Err? then r == Err(one.error) else r == Ok((one.value.0, before.value.1 + [one.value.1]))
  {
    hide ApplyOne;
  }

  lemma TreatedParts(t: Tables, b: Batch, r: Result<(Batch, Step), Error>, op: Op, rw: Option<ReadWriteSet>, c: Call, index: nat,
                    row: Row, s: State, was: Option<(int, bool)>)
    requires Treated(t, b, r, op, rw, c, index, row, s, was)
    ensures r.Ok? ==> Accepts(t, op, rw, c, index) && Did(t, b, r.value.0, r.value.1, op, c, index, row, s, was)
    ensures r.Err? ==> RefusedFor(t, op, rw, c, index, r.error)
  {
    hide Accepts, Did, RefusedFor;
  }

  lemma OutcomeIs(t: Tables, b: Batch, steps: seq<Step>, rw: Option<ReadWriteSet>, ops: seq<Op>, c: Call, n: nat)
    requires n <= |ops| && UnderWay(t, b) && Progress(t, b, steps, rw, ops, c, n)
    ensures Outcome(t, Ok((b, steps)), rw, ops, c, n)
  {
    hide UnderWay, Progress;
  }

  lemma OutcomeParts(t: Tables, b: Batch, steps: seq<Step>, rw: Option<ReadWriteSet>, ops: seq<Op>, c: Call, n: nat)
    requires n <= |ops| && Outcome(t, Ok((b, steps)), rw, ops, c, n)
    ensures UnderWay(t, b) && Progress(t, b, steps, rw, ops, c, n)
  {
    hide UnderWay, Progress;
  }

  lemma RefusedEarlier(t: Tables, e: Error, rw: Option<ReadWriteSet>, ops: seq<Op>, c: Call, n: nat)
    requires 0 < n <= |ops| && Outcome(t, Err(e), rw, ops, c, n - 1)
    ensures Outcome(t, Err(e), rw, ops, c, n)
  {
    hide RefusedAt;
    var j :| 0 <= j < n - 1 && RefusedAt(t, ops, rw, c, j, e);
    assert RefusedAt(t, ops, rw, c, j, e);
  }

  lemma RefusedNow(t: Tables, b: Batch, steps: seq<Step>, e: Error, rw: Option<ReadWriteSet>, ops: seq<Op>, c: Call, n: nat)
    requires 0 < n <= |ops| && Progress(t, b, steps, rw, ops, c, n - 1) && RefusedFor(t, ops[n - 1], rw, c, n - 1, e)
    ensures Outcome(t, Err(e), rw, ops, c, n)
  {
    hide RefusedFor, Accepts, Wrote;
    assert RefusedAt(t, ops, rw, c, n - 1, e);
  }

  // ---- accepted and refused exclude each other ---------------------------------------------------

  lemma LowestOnce(t: Tables, trust: Trust, sync: bool, a: State, b: State)
    requires Lowest(t, trust, sync, a) && Lowest(t, trust, sync, b) && a.sources == b.sources
    ensures a.trust == b.trust && a.sync == b.sync
  {
  }

  /** An operation asks for one state. */
  lemma RecordsOne(t: Tables, op: Op, a: State, b: State)
    requires Records(t, op, a) && Records(t, op, b)
    ensures a == b
  {
    hide Lowest, Arranged, Strip;
    if Asked(op).Some? { ArrangedOne(a.sources, b.sources, Asked(op).value); }
    if op.Create? && op.cites != [] { LowestOnce(t, User, true, a, b); }
    if op.Update? { LowestOnce(t, Was(t, op).trust, Was(t, op).sync, a, b); }
  }

  lemma ArrangedOne(a: seq<Ref>, b: seq<Ref>, asked: seq<Ref>)
    ensures Arranged(a, asked) && Arranged(b, asked) ==> a == b
  {
    if Arranged(a, asked) && Arranged(b, asked) { ArrangedOnce(a, b); }
  }

  lemma AcceptsParts(t: Tables, op: Op, rw: Option<ReadWriteSet>, c: Call, index: nat) returns (s: State)
    requires Accepts(t, op, rw, c, index)
    ensures if op.Create? then OwnProject(t, rw, op.project) && Touched(op, c, index) !in t.rows else MayChange(t, rw, op)
    ensures Unread(t, op) && (Asked(op).Some? ==> MayCite(t, OwnId(op), EarlierCites(t, op), Asked(op).value))
    ensures Records(t, op, s) && c.check(s.description, s.body).None? && (WasThere(t, op) ==> s != Was(t, op))
  {
    s :| Records(t, op, s) && c.check(s.description, s.body).None? && (WasThere(t, op) ==> s != Was(t, op));
  }

  lemma NotBoth(t: Tables, op: Op, rw: Option<ReadWriteSet>, c: Call, index: nat, e: Error)
    requires Accepts(t, op, rw, c, index)
    ensures !RefusedFor(t, op, rw, c, index, e)
  {
    hide *;
    var s := AcceptsParts(t, op, rw, c, index);
    forall other | Records(t, op, other) ensures other == s { RecordsOne(t, op, s, other); }
    if e.BatchConflict? && !e.reason.SameState? {
      NotConflict(t, op, rw, c, index, e);
    } else {
      NotOther(t, op, rw, c, index, e, s);
    }
  }

  lemma NotConflict(t: Tables, op: Op, rw: Option<ReadWriteSet>, c: Call, index: nat, e: Error)
    requires if op.Create? then OwnProject(t, rw, op.project) else MayChange(t, rw, op)
    requires Unread(t, op) && (Asked(op).Some? ==> MayCite(t, OwnId(op), EarlierCites(t, op), Asked(op).value))
    requires (exists s :: Records(t, op, s)) && e.BatchConflict? && !e.reason.SameState?
    ensures !RefusedFor(t, op, rw, c, index, e)
  {
    hide *;
    RestoreRecorded(t, op);
    if e.reason.Source? || e.reason.Cycle? { NotCite(t, op, rw, c, index, e); } else { NotMoved(t, op, rw, c, index, e); }
  }

  lemma NotCite(t: Tables, op: Op, rw: Option<ReadWriteSet>, c: Call, index: nat, e: Error)
    requires Asked(op).Some? ==> MayCite(t, OwnId(op), EarlierCites(t, op), Asked(op).value)
    requires e.BatchConflict? && (e.reason.Source? || e.reason.Cycle?)
    ensures !RefusedFor(t, op, rw, c, index, e)
  {
    hide Records, CitesTwice, EarlierCites, CurrentAt, MayChange, Unread, Asked;
  }

  lemma NotMoved(t: Tables, op: Op, rw: Option<ReadWriteSet>, c: Call, index: nat, e: Error)
    requires (op.Create? || MayChange(t, rw, op)) && Unread(t, op)
    requires op.Restore? ==> Ref(op.memory, op.toVersion) in t.versions
    requires e.BatchConflict? && !e.reason.SameState? && !e.reason.Source? && !e.reason.Cycle?
    ensures !RefusedFor(t, op, rw, c, index, e)
  {
    hide Records, CitesTwice, EarlierCites, CurrentAt, Asked;
  }

  lemma RestoreRecorded(t: Tables, op: Op)
    requires exists s :: Records(t, op, s)
    ensures op.Restore? ==> Ref(op.memory, op.toVersion) in t.versions
  {
  }

  lemma NotOther(t: Tables, op: Op, rw: Option<ReadWriteSet>, c: Call, index: nat, e: Error, s: State)
    requires if op.Create? then OwnProject(t, rw, op.project) && Touched(op, c, index) !in t.rows else MayChange(t, rw, op)
    requires Asked(op).Some? ==> MayCite(t, OwnId(op), EarlierCites(t, op), Asked(op).value)
    requires Records(t, op, s) && c.check(s.description, s.body).None? && (WasThere(t, op) ==> s != Was(t, op))
    requires forall other :: Records(t, op, other) ==> other == s
    requires e.BatchConflict? ==> e.reason.SameState?
    ensures !RefusedFor(t, op, rw, c, index, e)
  {
    hide Records, CitesTwice, EarlierCites, Was, CurrentAt;
  }

  // ---- the citations a change adds ---------------------------------------------------------------

  /** From the memory of an operation to what it asks to cite. */
  ghost function AskedEdges(ops: seq<Op>, c: Call): set<(Id, Id)> {
    set j, r | 0 <= j < |ops| && Asked(ops[j]).Some? && r in Asked(ops[j]).value :: (Touched(ops[j], c, j), r.memory)
  }

  ghost predicate CitedBefore(t: Tables, m: Id, r: Ref) { exists k :: k in t.versions && k.memory == m && r in t.versions[k].state.sources }

  lemma RecordsKept(t: Tables, op: Op, s: State, r: Ref)
    requires Records(t, op, s) && Asked(op).None? && r in s.sources
    ensures CitedBefore(t, op.memory, r)
  {
    hide Lowest, Strip, Arranged;
    var k := if op.Restore? then Ref(op.memory, op.toVersion) else Ref(op.memory, op.expected);
    assert k in t.versions && r in t.versions[k].state.sources;
  }

  lemma RecordedSources(t: Tables, op: Op, s: State, r: Ref)
    requires Records(t, op, s) && r in s.sources
    ensures if Asked(op).Some? then r in Asked(op).value else CitedBefore(t, op.memory, r)
  {
    hide *;
    if Asked(op).Some? {
      RecordsAsked(t, op, s);
      SameElements(s.sources, Asked(op).value);
    } else {
      RecordsKept(t, op, s, r);
    }
  }

  /** A version that was not there is the one an operation wrote. */
  lemma NewVersion(t: Tables, b: Batch, steps: seq<Step>, rw: Option<ReadWriteSet>, ops: seq<Op>, c: Call, k: Ref) returns (j: nat)
    requires Sound(t) && UnderWay(t, b) && Progress(t, b, steps, rw, ops, c, |ops|) && k in b.tables.versions && k !in t.versions
    ensures j < |ops| && k == Ref(Touched(ops[j], c, j), steps[j].after)
  {
    hide *;
    UnderWayParts(t, b);
    SoundKeys(t);
    SoundKeys(b.tables);
    TouchedIfNew(t, b, k);
    j := WhoTouched(t, b, steps, rw, ops, c, k.memory);
    ProgressParts(t, b, steps, rw, ops, c, |ops|);
    WroteLast(t, b.tables, ops[j], rw, c, j, steps[j]);
  }

  lemma SoundKeys(t: Tables)
    requires Sound(t)
    ensures forall k: Ref :: k in t.versions <==> k.memory in t.rows && 1 <= k.version <= t.rows[k.memory].version
  {
    hide RowsOk, SourcesOk;
  }

  lemma WhoTouched(t: Tables, b: Batch, steps: seq<Step>, rw: Option<ReadWriteSet>, ops: seq<Op>, c: Call, m: Id) returns (j: nat)
    requires Progress(t, b, steps, rw, ops, c, |ops|) && m in b.before
    ensures j < |ops| && Touched(ops[j], c, j) == m
  {
    hide Accepts, Wrote;
    j :| 0 <= j < |ops| && Touched(ops[j], c, j) == m;
  }

  lemma WroteLast(t: Tables, t': Tables, op: Op, rw: Option<ReadWriteSet>, c: Call, index: nat, step: Step)
    requires Accepts(t, op, rw, c, index) && Wrote(t, t', op, c, index, step)
    ensures var m := Touched(op, c, index);
            && m in t'.rows && t'.rows[m].version == step.after
            && (if m in t.rows then step.after == t.rows[m].version + 1 else step.after == 1)
  {
    var s := AcceptsParts(t, op, rw, c, index);
    hide Records, Accepts, MayCite;
  }

  lemma TouchedIfNew(t: Tables, b: Batch, k: Ref)
    requires Sound(t) && Sound(b.tables) && BeforeOk(t, b) && k in b.tables.versions && k !in t.versions
    ensures k.memory in b.before
  {
    hide RowsOk, SourcesOk;
  }

  lemma EdgesAfter(t: Tables, b: Batch, steps: seq<Step>, rw: Option<ReadWriteSet>, ops: seq<Op>, c: Call)
    requires Sound(t) && UnderWay(t, b) && Progress(t, b, steps, rw, ops, c, |ops|)
    ensures Edges(b.tables) == Edges(t) + AskedEdges(ops, c)
  {
    UnderWayParts(t, b);
    ProgressParts(t, b, steps, rw, ops, c, |ops|);
    EdgesGrow(t, b.tables);
    hide UnderWay, Progress, Sound, Extends, BeforeOk, CitedOk, Edges, Accepts;
    forall x, y | (x, y) in Edges(b.tables) ensures (x, y) in Edges(t) + AskedEdges(ops, c) {
      EdgeIs(b.tables, x, y);
      var k, r :| k in b.tables.versions && r in b.tables.versions[k].state.sources && k.memory == x && r.memory == y;
      OldOrAsked(t, b, steps, rw, ops, c, k, r);
    }
    forall e | e in AskedEdges(ops, c) ensures e in Edges(b.tables) {
      var j, r :| 0 <= j < |ops| && Asked(ops[j]).Some? && r in Asked(ops[j]).value && e == (Touched(ops[j], c, j), r.memory);
      AskedIsCited(t, b.tables, ops[j], c, j, steps[j], r);
    }
  }

  lemma OldOrAsked(t: Tables, b: Batch, steps: seq<Step>, rw: Option<ReadWriteSet>, ops: seq<Op>, c: Call, k: Ref, r: Ref)
    requires Sound(t) && UnderWay(t, b) && Progress(t, b, steps, rw, ops, c, |ops|)
    requires k in b.tables.versions && r in b.tables.versions[k].state.sources
    ensures (k.memory, r.memory) in Edges(t) + AskedEdges(ops, c)
  {
    hide *;
    UnderWayKept(t, b);
    if k in t.versions { OldEdge(t, b.tables, k, r); }
    if k !in t.versions {
      var j := NewVersion(t, b, steps, rw, ops, c, k);
      ProgressParts(t, b, steps, rw, ops, c, |ops|);
      WroteRecords(t, b.tables, ops[j], c, j, steps[j]);
      RecordedSources(t, ops[j], b.tables.versions[k].state, r);
      AskedIs(t, ops[j]);
      if Asked(ops[j]).Some? { AskedEdge(t, ops, c, j, r); } else { BeforeEdge(t, ops[j].memory, r); }
    }
  }

  lemma AskedEdge(t: Tables, ops: seq<Op>, c: Call, j: nat, r: Ref)
    requires j < |ops| && Asked(ops[j]).Some? && r in Asked(ops[j]).value
    ensures (Touched(ops[j], c, j), r.memory) in AskedEdges(ops, c)
  {
  }

  lemma BeforeEdge(t: Tables, m: Id, r: Ref)
    requires CitedBefore(t, m, r)
    ensures (m, r.memory) in Edges(t)
  {
    EdgeIs(t, m, r.memory);
  }

  lemma OldEdge(t: Tables, t': Tables, k: Ref, r: Ref)
    requires Kept(t, t') && k in t.versions && k in t'.versions && r in t'.versions[k].state.sources
    ensures (k.memory, r.memory) in Edges(t)
  {
    EdgeIs(t, k.memory, r.memory);
  }

  lemma UnderWayKept(t: Tables, b: Batch)
    requires UnderWay(t, b)
    ensures Kept(t, b.tables)
  {
  }

  lemma WroteRecords(t: Tables, t': Tables, op: Op, c: Call, index: nat, step: Step)
    requires Wrote(t, t', op, c, index, step)
    ensures Ref(Touched(op, c, index), step.after) in t'.versions && Records(t, op, t'.versions[Ref(Touched(op, c, index), step.after)].state)
    ensures step.memory == Touched(op, c, index) && (!op.Create? ==> Touched(op, c, index) == op.memory)
  {
    hide Records, NewRow;
  }

  lemma AskedIsCited(t: Tables, t': Tables, op: Op, c: Call, index: nat, step: Step, r: Ref)
    requires Wrote(t, t', op, c, index, step) && Asked(op).Some? && r in Asked(op).value
    ensures (Touched(op, c, index), r.memory) in Edges(t')
  {
    WroteRecords(t, t', op, c, index, step);
    var k := Ref(Touched(op, c, index), step.after);
    RecordsAsked(t, op, t'.versions[k].state);
    SameElements(t'.versions[k].state.sources, Asked(op).value);
    EdgeIs(t', k.memory, r.memory);
    hide Wrote, Records, Edges;
  }

  lemma RecordsAsked(t: Tables, op: Op, s: State)
    requires Records(t, op, s) && Asked(op).Some?
    ensures multiset(s.sources) == multiset(Asked(op).value)
  {
    hide Lowest, Strip;
  }

  // ---- the main results ------------------------------------------------------------------------------

  lemma StepMemory(b: Batch, c: Call, rw: Option<ReadWriteSet>, index: nat, op: Op)
    ensures var r := ApplyOne(b, c, rw, index, op); r.Ok? ==> r.value.1.memory == Touched(op, c, index)
  {
    hide Target, Admit, Derived, OwnOrDerived, AuthorizeCreate, StateOf, Strip;
  }

  lemma {:induction false} StepsTouch(b: Batch, c: Call, rw: Option<ReadWriteSet>, ops: seq<Op>, n: nat)
    requires n <= |ops|
    ensures var r := Applied(b, c, rw, ops, n);
            r.Ok? ==> |r.value.1| == n && forall j :: 0 <= j < n ==> r.value.1[j].memory == Touched(ops[j], c, j)
  {
    hide ApplyOne, Touched;
    if n > 0 {
      StepsTouch(b, c, rw, ops, n - 1);
      if Applied(b, c, rw, ops, n - 1).Ok? { StepMemory(Applied(b, c, rw, ops, n - 1).value.0, c, rw, n - 1, ops[n - 1]); }
    }
  }

  /** What a change that is let through has to meet, on the store before it. */
  ghost predicate Acceptable(t: Tables, ops: seq<Op>, rw: Option<ReadWriteSet>, c: Call) {
    && Valid(c, ops) && c.newId(0) !in t.changes && AllApart(ops, c)
    && (forall j :: 0 <= j < |ops| ==> Accepts(t, ops[j], rw, c, j))
    && Acyclic(Edges(t) + AskedEdges(ops, c))
  }

  /** The parts of `ApplyOps`. */
  lemma ApplyParts(t: Tables, ops: seq<Op>, rw: Option<ReadWriteSet>, c: Call, undoes: Option<Id>)
    requires Valid(c, ops) && c.newId(0) !in t.changes
    ensures var applied, r := Applied(Batch(t, c.newId(0), map[], []), c, rw, ops, |ops|), ApplyOps(t, ops, rw, c, undoes);
            if applied.Err? then r == Err(applied.error)
            else
              var (b, steps) := applied.value;
              var loop := LoopingFrom(b.tables, b.cited);
              if loop.Some? then r == Err(BatchConflict(loop.value.0, Some(loop.value.1.memory), Cycle))
              else if TwiceTouched(steps) then r == Err(StorageFailure)
              else
                var change := Change(c.now, c.changedBy, c.changedVia, |ops|, undoes, steps);
                r == Ok((b.tables.(changes := t.changes[c.newId(0) := change]), change))
  {
    hide Applied, LoopingFrom, Valid, TwiceTouched;
  }

  lemma ApplyValid(t: Tables, ops: seq<Op>, rw: Option<ReadWriteSet>, c: Call, undoes: Option<Id>)
    ensures var r := ApplyOps(t, ops, rw, c, undoes);
            && (!Valid(c, ops) ==> r == Err(BadValue))
            && (Valid(c, ops) && c.newId(0) in t.changes ==> r == Err(IdCollision(c.newId(0))))
  {
    hide Applied, LoopingFrom, Valid, TwiceTouched;
  }

  lemma ApartIff(ops: seq<Op>, c: Call, steps: seq<Step>)
    requires |steps| == |ops| && forall j :: 0 <= j < |ops| ==> steps[j].memory == Touched(ops[j], c, j)
    ensures AllApart(ops, c) <==> !TwiceTouched(steps)
  {
    hide Touched;
  }

  lemma LoopsIffCyclic(t: Tables, b: Batch)
    requires UnderWay(t, b) && Acyclic(Edges(t))
    ensures LoopingFrom(b.tables, b.cited).None? <==> Acyclic(Edges(b.tables))
  {
    if LoopingFrom(b.tables, b.cited).None? {
      NoLoopNoCycle(t, b);
    } else {
      LoopingFromIs(b.tables, b.cited);
      var i :| 0 <= i < |b.cited| && Loops(b.tables, b.cited[i].1);
      LoopIsCycle(b.tables, b.cited[i].1);
    }
  }

  /** The batch of a change whose operations are about memories of their own. */
  lemma BatchIs(t: Tables, ops: seq<Op>, rw: Option<ReadWriteSet>, c: Call)
    requires Inv(t) && AllApart(ops, c)
    ensures var r := Applied(Batch(t, c.newId(0), map[], []), c, rw, ops, |ops|);
            if r.Ok? then
              && UnderWay(t, r.value.0) && Progress(t, r.value.0, r.value.1, rw, ops, c, |ops|)
              && Edges(r.value.0.tables) == Edges(t) + AskedEdges(ops, c)
              && (LoopingFrom(r.value.0.tables, r.value.0.cited).None? <==> Acyclic(Edges(r.value.0.tables)))
            else exists j :: 0 <= j < |ops| && RefusedAt(t, ops, rw, c, j, r.error)
  {
    hide *;
    InvSound(t);
    AcyclicOf(t);
    AppliedIs(t, rw, ops, c, |ops|);
    var r := Applied(Batch(t, c.newId(0), map[], []), c, rw, ops, |ops|);
    if r.Ok? {
      var (b, steps) := r.value;
      OutcomeParts(t, b, steps, rw, ops, c, |ops|);
      EdgesAfter(t, b, steps, rw, ops, c);
      LoopsIffCyclic(t, b);
    } else {
      OutcomeRefused(t, r.error, rw, ops, c);
    }
  }

  lemma OutcomeRefused(t: Tables, e: Error, rw: Option<ReadWriteSet>, ops: seq<Op>, c: Call)
    requires Outcome(t, Err(e), rw, ops, c, |ops|)
    ensures exists j :: 0 <= j < |ops| && RefusedAt(t, ops, rw, c, j, e)
  {
    hide RefusedAt;
  }

  /**
   A change is let through if and only if each of its operations may be carried out on the store as it
   was, no two are about one memory, and the citations asked for close no cycle.
   */
  lemma {:induction false} ChangeIff(t: Tables, ops: seq<Op>, rw: Option<ReadWriteSet>, c: Call, undoes: Option<Id>)
    requires Inv(t)
    ensures ApplyOps(t, ops, rw, c, undoes).Ok? <==> Acceptable(t, ops, rw, c)
  {
    hide *;
    ApplyValid(t, ops, rw, c, undoes);
    AcceptableIs(t, ops, rw, c);
    if Valid(c, ops) && c.newId(0) !in t.changes {
      ApplyParts(t, ops, rw, c, undoes);
      var applied := Applied(Batch(t, c.newId(0), map[], []), c, rw, ops, |ops|);
      StepsTouch(Batch(t, c.newId(0), map[], []), c, rw, ops, |ops|);
      if applied.Ok? { ApartIff(ops, c, applied.value.1); }
      if AllApart(ops, c) {
        BatchIs(t, ops, rw, c);
        if applied.Ok? {
          ProgressParts(t, applied.value.0, applied.value.1, rw, ops, c, |ops|);
        } else {
          var j :| 0 <= j < |ops| && RefusedAt(t, ops, rw, c, j, applied.error);
          RefusedHere(t, ops, rw, c, j, applied.error);
        }
      }
    }
  }

  lemma AcceptableIs(t: Tables, ops: seq<Op>, rw: Option<ReadWriteSet>, c: Call)
    ensures Acceptable(t, ops, rw, c) <==>
      && Valid(c, ops) && c.newId(0) !in t.changes && AllApart(ops, c)
      && (forall j :: 0 <= j < |ops| ==> Accepts(t, ops[j], rw, c, j))
      && Acyclic(Edges(t) + AskedEdges(ops, c))
  {
    hide Valid, AllApart, Accepts, Edges, AskedEdges, Acyclic;
  }

  lemma RefusedHere(t: Tables, ops: seq<Op>, rw: Option<ReadWriteSet>, c: Call, j: nat, e: Error)
    requires j < |ops| && RefusedAt(t, ops, rw, c, j, e)
    ensures !Accepts(t, ops[j], rw, c, j)
  {
    hide Accepts, RefusedFor;
    if Accepts(t, ops[j], rw, c, j) { NotBoth(t, ops[j], rw, c, j, e); }
  }

  /** A change is in the store: each operation wrote the one version it asks for, and nothing else has moved. */
  ghost predicate Recorded(t: Tables, t': Tables, ops: seq<Op>, c: Call, change: Change, undoes: Option<Id>) {
    && change == Change(c.now, c.changedBy, c.changedVia, |ops|, undoes, change.steps)
    && t'.changes == t.changes[c.newId(0) := change] && |change.steps| == |ops|
    && (forall j :: 0 <= j < |ops| ==> Wrote(t, t', ops[j], c, j, change.steps[j]))
    && Untouched(t, t', change.steps) && Edges(t') == Edges(t) + AskedEdges(ops, c)
  }

  lemma {:induction false} ChangeRecords(t: Tables, ops: seq<Op>, rw: Option<ReadWriteSet>, c: Call, undoes: Option<Id>)
    requires Inv(t) && ApplyOps(t, ops, rw, c, undoes).Ok?
    ensures var (t', change) := ApplyOps(t, ops, rw, c, undoes).value; Recorded(t, t', ops, c, change, undoes)
  {
    hide *;
    ChangeIff(t, ops, rw, c, undoes);
    AcceptableIs(t, ops, rw, c);
    ApplyParts(t, ops, rw, c, undoes);
    BatchIs(t, ops, rw, c);
    ApplyKeeps(t, ops, rw, c, undoes);
    var (t', change) := ApplyOps(t, ops, rw, c, undoes).value;
    UntouchedOf(t, t', c.newId(0), change);
    var (b, steps) := Applied(Batch(t, c.newId(0), map[], []), c, rw, ops, |ops|).value;
    ProgressParts(t, b, steps, rw, ops, c, |ops|);
    forall j | 0 <= j < |ops| ensures Wrote(t, t', ops[j], c, j, change.steps[j]) {
      WroteDespite(t, b.tables, t', ops[j], c, j, steps[j]);
    }
    EdgesDespite(b.tables, t');
    RecordedIs(t, t', ops, c, change, undoes);
  }

  lemma RecordedIs(t: Tables, t': Tables, ops: seq<Op>, c: Call, change: Change, undoes: Option<Id>)
    ensures Recorded(t, t', ops, c, change, undoes) <==>
      && change == Change(c.now, c.changedBy, c.changedVia, |ops|, undoes, change.steps)
      && t'.changes == t.changes[c.newId(0) := change] && |change.steps| == |ops|
      && (forall j :: 0 <= j < |ops| ==> Wrote(t, t', ops[j], c, j, change.steps[j]))
      && Untouched(t, t', change.steps) && Edges(t') == Edges(t) + AskedEdges(ops, c)
  {
    hide Wrote, Untouched, Edges, AskedEdges;
  }

  lemma UntouchedOf(t: Tables, t': Tables, id: Id, change: Change)
    requires ChangedBy(t, t', id, change)
    ensures Untouched(t, t', change.steps)
  {
    hide Extends;
  }

  lemma WroteDespite(t: Tables, t1: Tables, t': Tables, op: Op, c: Call, index: nat, step: Step)
    requires Wrote(t, t1, op, c, index, step) && t'.rows == t1.rows && t'.versions == t1.versions
    ensures Wrote(t, t', op, c, index, step)
  {
    hide Records, NewRow;
  }

  lemma EdgesDespite(t: Tables, t': Tables)
    requires t'.versions == t.versions
    ensures Edges(t') == Edges(t)
  {
  }

  /** A refusal of a whole change, and what is then true of the store. */
  ghost predicate Justified(t: Tables, ops: seq<Op>, rw: Option<ReadWriteSet>, c: Call, e: Error) {
    || (e == BadValue && !Valid(c, ops))
    || (e == IdCollision(c.newId(0)) && c.newId(0) in t.changes)
    || (exists j :: 0 <= j < |ops| && RefusedAt(t, ops, rw, c, j, e))
    || (exists j :: 0 <= j < |ops| && OnCycle(t, ops, c, j) && e == BatchConflict(j, Some(Touched(ops[j], c, j)), Cycle))
  }

  /** The citations of the store and of the change lead back to the memory of this operation. */
  ghost predicate OnCycle(t: Tables, ops: seq<Op>, c: Call, j: nat)
    requires j < |ops|
  {
    var edges, m := Edges(t) + AskedEdges(ops, c), Touched(ops[j], c, j);
    exists y :: (m, y) in edges && Reaches(edges, y, m)
  }

  lemma LoopingFromAt(t: Tables, cited: seq<(nat, Ref)>)
    ensures LoopingFrom(t, cited).Some? ==> LoopingFrom(t, cited).value in cited && Loops(t, LoopingFrom(t, cited).value.1)
  {
    hide Loops;
  }

  lemma CycleIs(t: Tables, b: Batch, steps: seq<Step>, rw: Option<ReadWriteSet>, ops: seq<Op>, c: Call)
    requires UnderWay(t, b) && Progress(t, b, steps, rw, ops, c, |ops|) && Edges(b.tables) == Edges(t) + AskedEdges(ops, c)
    requires LoopingFrom(b.tables, b.cited).Some?
    ensures var loop := LoopingFrom(b.tables, b.cited).value;
            loop.0 < |ops| && loop.1.memory == Touched(ops[loop.0], c, loop.0) && OnCycle(t, ops, c, loop.0)
  {
    LoopingFromAt(b.tables, b.cited);
    var loop := LoopingFrom(b.tables, b.cited).value;
    assert loop.1 in b.tables.versions by { UnderWayParts(t, b); }
    hide UnderWay, Accepts, Wrote;
    var r :| r in SourcesOf(b.tables, loop.1) && Reaches(Edges(b.tables), r.memory, loop.1.memory);
    EdgeIs(b.tables, loop.1.memory, r.memory);
    hide Edges, AskedEdges, Progress;
    CycleAt(t, ops, c, loop.0, r.memory);
  }

  lemma CycleAt(t: Tables, ops: seq<Op>, c: Call, j: nat, y: Id)
    requires var edges := Edges(t) + AskedEdges(ops, c);
             j < |ops| ==> (Touched(ops[j], c, j), y) in edges && Reaches(edges, y, Touched(ops[j], c, j))
    ensures j < |ops| ==> OnCycle(t, ops, c, j)
  {
    hide Edges, AskedEdges;
  }

  /** Whatever a change is refused for holds of the store as it was, for the first operation it holds of. */
  lemma {:induction false} ChangeRefused(t: Tables, ops: seq<Op>, rw: Option<ReadWriteSet>, c: Call, undoes: Option<Id>)
    requires Inv(t) && AllApart(ops, c) && ApplyOps(t, ops, rw, c, undoes).Err?
    ensures Justified(t, ops, rw, c, ApplyOps(t, ops, rw, c, undoes).error)
  {
    hide *;
    var e := ApplyOps(t, ops, rw, c, undoes).error;
    ApplyValid(t, ops, rw, c, undoes);
    if Valid(c, ops) && c.newId(0) !in t.changes {
      ApplyParts(t, ops, rw, c, undoes);
      BatchIs(t, ops, rw, c);
      var applied := Applied(Batch(t, c.newId(0), map[], []), c, rw, ops, |ops|);
      if applied.Err? {
        var j :| 0 <= j < |ops| && RefusedAt(t, ops, rw, c, j, applied.error);
        RefusedJustifies(t, ops, rw, c, j, e);
      } else {
        var (b, steps) := applied.value;
        StepsTouch(Batch(t, c.newId(0), map[], []), c, rw, ops, |ops|);
        ApartIff(ops, c, steps);
        CycleIs(t, b, steps, rw, ops, c);
        CycleJustifies(t, ops, rw, c, LoopingFrom(b.tables, b.cited).value.0, e);
      }
    } else {
      JustifiedFirst(t, ops, rw, c, e);
    }
  }

  lemma RefusedJustifies(t: Tables, ops: seq<Op>, rw: Option<ReadWriteSet>, c: Call, j: nat, e: Error)
    requires j < |ops| && RefusedAt(t, ops, rw, c, j, e)
    ensures Justified(t, ops, rw, c, e)
  {
    hide Valid, RefusedAt, OnCycle;
  }

  lemma CycleJustifies(t: Tables, ops: seq<Op>, rw: Option<ReadWriteSet>, c: Call, j: nat, e: Error)
    requires j < |ops| && OnCycle(t, ops, c, j) && e == BatchConflict(j, Some(Touched(ops[j], c, j)), Cycle)
    ensures Justified(t, ops, rw, c, e)
  {
    hide Valid, RefusedAt, OnCycle;
  }

  lemma JustifiedFirst(t: Tables, ops: seq<Op>, rw: Option<ReadWriteSet>, c: Call, e: Error)
    requires (!Valid(c, ops) && e == BadValue) || (c.newId(0) in t.changes && e == IdCollision(c.newId(0)))
    ensures Justified(t, ops, rw, c, e)
  {
    hide Valid, RefusedAt, OnCycle;
  }

  /** All of this together. */
  lemma ChangeDecides(t: Tables, ops: seq<Op>, rw: Option<ReadWriteSet>, c: Call, undoes: Option<Id>)
    requires Inv(t)
    ensures var r := ApplyOps(t, ops, rw, c, undoes);
            && (r.Ok? <==> Acceptable(t, ops, rw, c))
            && (r.Ok? ==> Inv(r.value.0) && Recorded(t, r.value.0, ops, c, r.value.1, undoes))
            && (r.Err? && AllApart(ops, c) ==> Justified(t, ops, rw, c, r.error))
  {
    hide *;
    var r := ApplyOps(t, ops, rw, c, undoes);
    ChangeIff(t, ops, rw, c, undoes);
    ApplyKeeps(t, ops, rw, c, undoes);
    if r.Ok? { ChangeRecords(t, ops, rw, c, undoes); }
    if r.Err? && AllApart(ops, c) { ChangeRefused(t, ops, rw, c, undoes); }
  }
}
