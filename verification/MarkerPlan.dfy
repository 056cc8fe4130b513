/** Rendering a plan of marker-block edits over several files (`_rendered`, `validate_document`). */
module MarkerPlan {
  import opened Basics
  import opened MarkerBlock

  datatype Operation = Put(path: string, body: string) | TakeOut(path: string)

  type Texts = map<string, string>

  function Applied(op: Operation, source: string): Result<Edit, PlanningError> {
    match op
    case Put(_, body) => Write(source, body)
    case TakeOut(_) => Remove(source)
  }

  predicate AllNamed(ops: seq<Operation>, texts: Texts) { forall i :: 0 <= i < |ops| ==> ops[i].path in texts }

  predicate Named(ops: seq<Operation>, p: string) { exists i :: 0 <= i < |ops| && ops[i].path == p }

  predicate Uninstall(ops: seq<Operation>) { forall i :: 0 <= i < |ops| ==> ops[i].TakeOut? }

  predicate Install(ops: seq<Operation>) { forall i :: 0 <= i < |ops| ==> ops[i].Put? }

  /** The operations in order, each on what the ones before it left of its file. */
  function Folded(ops: seq<Operation>, texts: Texts): Result<Texts, PlanningError>
    requires AllNamed(ops, texts)
  {
    if ops == [] then Ok(texts)
    else
      match Applied(ops[0], texts[ops[0].path])
      case Err(e) => Err(e)
      case Ok(edit) => Folded(ops[1..], texts[ops[0].path := edit.rendered])
  }

  /** What the plan changed can be read again. */
  ghost predicate Sound(texts: Texts, snapshots: Texts) {
    forall p :: p in texts && p in snapshots && texts[p] != snapshots[p] ==> MarkerSpan(texts[p]).Ok?
  }

  ghost function Planned(ops: seq<Operation>, snapshots: Texts): Result<Texts, PlanningError>
    requires AllNamed(ops, snapshots)
  {
    match Folded(ops, snapshots)
    case Err(e) => Err(e)
    case Ok(texts) => if Sound(texts, snapshots) then Ok(texts) else Err(BrokenMarkers)
  }

  /** `_rendered`: every operation on the in-memory copies, then every changed file is read again. */
  method Rendered(ops: seq<Operation>, snapshots: Texts) returns (r: Result<Texts, PlanningError>)
    requires AllNamed(ops, snapshots)
    ensures r == Planned(ops, snapshots)
  {
    var texts := snapshots;
    var i := 0;
    while i < |ops|
      invariant 0 <= i <= |ops| && texts.Keys == snapshots.Keys
      invariant Folded(ops[i..], texts) == Folded(ops, snapshots)
    {
      var op := ops[i];
      assert ops[i..][0] == op && ops[i..][1..] == ops[i + 1..];
      var result := Applied(op, texts[op.path]);
      if result.Err? { return Err(result.error); }
      texts := texts[op.path := result.value.rendered];
      i := i + 1;
    }
    assert ops[i..] == [];
    var left := texts.Keys;
    while left != {}
      invariant left <= texts.Keys
      invariant forall p :: p in texts && p !in left && texts[p] != snapshots[p] ==> MarkerSpan(texts[p]).Ok?
      decreases |left|
    {
      var path :| path in left;
      left := left - {path};
      if texts[path] != snapshots[path] {
        var span := MarkerSpan(texts[path]);
        if span.Err? {
          assert !Sound(texts, snapshots);
          return Err(span.error);
        }
      }
    }
    return Ok(texts);
  }

  // ---- uninstalling ------------------------------------------------------------------------

  /** The file's markers are sound, and its block does not stand inside a marker. */
  ghost predicate Uninstallable(source: string) {
    match MarkerSpan(source)
    case Err(_) => false
    case Ok(None) => true
    case Ok(Some((start, stop))) => !MarkerCut(source[..start], source[stop..])
  }

  function Removed(source: string): string {
    match Remove(source) case Ok(edit) => edit.rendered case Err(_) => source
  }

  lemma RemovedReads(source: string)
    requires MarkerSpan(source).Ok?
    ensures Remove(source).Ok? && Remove(source).value.rendered == Removed(source)
    ensures MarkerSpan(Removed(source)) == if Uninstallable(source) then Ok(None) else Err(BrokenMarkers)
    ensures Uninstallable(source) ==> Removed(Removed(source)) == Removed(source) && Uninstallable(Removed(source))
    ensures !Uninstallable(source) ==> Removed(source) != source
  {
    if MarkerSpan(source).value.Some? { RemovalLeavesNoMarker(source); }
    hide MarkerSpan, MarkerCut;
  }

  lemma {:induction false} RemovalsFold(ops: seq<Operation>, texts: Texts)
    requires AllNamed(ops, texts) && Uninstall(ops) && Folded(ops, texts).Ok?
    ensures var out := Folded(ops, texts).value;
            && out.Keys == texts.Keys
            && (forall p :: p in texts ==> out[p] == if Named(ops, p) then Removed(texts[p]) else texts[p])
            && (forall p :: p in texts && Named(ops, p) ==> MarkerSpan(texts[p]).Ok?)
  {
    if ops != [] {
      var p, rest := ops[0].path, ops[1..];
      var next := texts[p := Removed(texts[p])];
      RemovedReads(texts[p]);
      assert Folded(ops, texts) == Folded(rest, next);
      RemovalsFold(rest, next);
      forall q ensures Named(ops, q) <==> q == p || Named(rest, q) { NamedStep(ops, q); }
      if Named(rest, p) { assert MarkerSpan(next[p]).Ok?; }
      hide MarkerSpan, Removed, Uninstallable, Named;
    }
  }

  lemma NamedStep(ops: seq<Operation>, q: string)
    requires ops != []
    ensures Named(ops, q) <==> q == ops[0].path || Named(ops[1..], q)
  {
    if Named(ops, q) && q != ops[0].path {
      var i :| 0 <= i < |ops| && ops[i].path == q;
      assert ops[1..][i - 1].path == q;
    }
  }

  lemma {:induction false} RemovalsPass(ops: seq<Operation>, texts: Texts)
    requires AllNamed(ops, texts) && Uninstall(ops)
    requires forall p :: p in texts && Named(ops, p) ==> Uninstallable(texts[p])
    ensures Folded(ops, texts).Ok?
  {
    if ops != [] {
      var p, rest := ops[0].path, ops[1..];
      var next := texts[p := Removed(texts[p])];
      forall q ensures Named(ops, q) <==> q == p || Named(rest, q) { NamedStep(ops, q); }
      assert Uninstallable(texts[p]);
      RemovedReads(texts[p]);
      hide Named, Uninstallable, Removed;
      RemovalsPass(rest, next);
    }
  }

  /**
   An uninstall plan is refused exactly when a file it names has broken markers or a block
   inside a marker. Otherwise every file it names is left without markers, and no other changes.
   */
  lemma UninstallLeavesNoMarker(ops: seq<Operation>, snapshots: Texts)
    requires AllNamed(ops, snapshots) && Uninstall(ops)
    ensures Planned(ops, snapshots).Ok? <==> forall p :: p in snapshots && Named(ops, p) ==> Uninstallable(snapshots[p])
    ensures Planned(ops, snapshots).Ok? ==>
      var out := Planned(ops, snapshots).value;
      && out.Keys == snapshots.Keys
      && forall p :: p in snapshots ==>
           if Named(ops, p) then out[p] == Removed(snapshots[p]) && MarkerSpan(out[p]) == Ok(None) else out[p] == snapshots[p]
  {
    if Folded(ops, snapshots).Ok? {
      RemovalsFold(ops, snapshots);
      forall p | p in snapshots && Named(ops, p) ensures MarkerSpan(snapshots[p]).Ok? { RemovedReads(snapshots[p]); }
      forall p | p in snapshots && Named(ops, p)
        ensures MarkerSpan(Removed(snapshots[p])) == if Uninstallable(snapshots[p]) then Ok(None) else Err(BrokenMarkers)
        ensures !Uninstallable(snapshots[p]) ==> Removed(snapshots[p]) != snapshots[p]
      { RemovedReads(snapshots[p]); }
    }
    if forall p :: p in snapshots && Named(ops, p) ==> Uninstallable(snapshots[p]) { RemovalsPass(ops, snapshots); }
    hide MarkerSpan, Uninstallable, Removed, Named, Folded;
  }

  // ---- installing --------------------------------------------------------------------------

  lemma WriteIsSound(source: string, body: string)
    requires Write(source, body).Ok?
    ensures MarkerSpan(Write(source, body).value.rendered).Ok?
  {
  }

  lemma {:induction false} FoldedIsSound(ops: seq<Operation>, snapshots: Texts, texts: Texts)
    requires AllNamed(ops, texts) && Install(ops) && Folded(ops, texts).Ok? && Sound(texts, snapshots)
    ensures Sound(Folded(ops, texts).value, snapshots)
  {
    if ops != [] {
      var p := ops[0].path;
      WriteIsSound(texts[p], ops[0].body);
      hide MarkerSpan, Write;
      FoldedIsSound(ops[1..], snapshots, texts[p := Applied(ops[0], texts[p]).value.rendered]);
    }
  }

  /** No later operation names the same file. */
  ghost predicate LastFor(ops: seq<Operation>, i: int) {
    0 <= i < |ops| && forall k :: i < k < |ops| ==> ops[k].path != ops[i].path
  }

  ghost predicate Writable(op: Operation, texts: Texts) {
    op.Put? && op.path in texts && BlockText(op.body).Ok? && MarkerSpan(texts[op.path]).Ok?
  }

  ghost predicate AllWritable(ops: seq<Operation>, texts: Texts) { forall i :: 0 <= i < |ops| ==> Writable(ops[i], texts) }

  /** The file as the operation alone would leave it. */
  ghost predicate Leaves(op: Operation, texts: Texts, out: Texts) {
    op.Put? && op.path in texts && op.path in out && Write(texts[op.path], op.body).Ok? && out[op.path] == Write(texts[op.path], op.body).value.rendered
  }

  lemma FirstIs(op: Operation, texts: Texts)
    requires op.Put? && op.path in texts
    ensures Applied(op, texts[op.path]).Ok? <==> Writable(op, texts)
    ensures Applied(op, texts[op.path]).Ok? ==>
              var t := Applied(op, texts[op.path]).value.rendered;
              Leaves(op, texts, texts[op.path := t]) && MarkerSpan(t).Ok? && MarkerSpan(texts[op.path]).Ok?
  {
    WriteIs(texts[op.path], op.body);
    if Write(texts[op.path], op.body).Ok? { WriteIsSound(texts[op.path], op.body); }
    hide Write, BlockText, MarkerSpan;
  }

  lemma SameWritable(op: Operation, p: string, t: string, texts: Texts)
    requires p in texts && MarkerSpan(texts[p]).Ok? && MarkerSpan(t).Ok?
    ensures Writable(op, texts) <==> Writable(op, texts[p := t])
  {
    hide BlockText, MarkerSpan;
  }

  lemma AllStep(ops: seq<Operation>, texts: Texts, next: Texts)
    requires ops != [] && Writable(ops[0], texts) && forall op :: Writable(op, texts) <==> Writable(op, next)
    ensures AllWritable(ops, texts) <==> AllWritable(ops[1..], next)
  {
    hide Writable;
    var rest := ops[1..];
    if AllWritable(ops, texts) {
      forall i | 0 <= i < |rest| ensures Writable(rest[i], next) { assert rest[i] == ops[i + 1]; }
    }
    if AllWritable(rest, next) {
      forall i | 0 <= i < |ops| ensures Writable(ops[i], texts) { if i > 0 { assert ops[i] == rest[i - 1]; } }
    }
  }

  lemma FoldedStep(ops: seq<Operation>, texts: Texts)
    requires ops != [] && AllNamed(ops, texts)
    ensures var first := Applied(ops[0], texts[ops[0].path]);
            if first.Err? then Folded(ops, texts).Err? else Folded(ops, texts) == Folded(ops[1..], texts[ops[0].path := first.value.rendered])
  {
    hide Applied;
  }

  /** Of two writes to a file the second is as if alone. */
  lemma LeavesAgain(first: Operation, op: Operation, texts: Texts, next: Texts, out: Texts)
    requires Leaves(first, texts, next) && next.Keys == texts.Keys && (forall p :: p in texts && p != first.path ==> next[p] == texts[p])
    requires Leaves(op, next, out)
    ensures Leaves(op, texts, out)
  {
    if op.path == first.path {
      WriteTwice(texts[op.path], first.body, op.body);
      WriteIs(next[op.path], op.body);
      hide Write, BlockText, MarkerSpan;
    }
  }

  /** Every file named is as the last operation on it alone would leave it, and no other changes. */
  ghost predicate Installed(ops: seq<Operation>, texts: Texts, out: Texts) {
    && out.Keys == texts.Keys && (forall p :: p in texts && !Named(ops, p) ==> out[p] == texts[p])
    && forall i :: LastFor(ops, i) ==> Leaves(ops[i], texts, out)
  }

  /** An install plan is refused exactly when a body has a stray marker or a file it names has broken ones. */
  lemma {:induction false} InstallLeaves(ops: seq<Operation>, texts: Texts)
    requires AllNamed(ops, texts) && Install(ops)
    ensures Folded(ops, texts).Ok? <==> AllWritable(ops, texts)
    ensures Folded(ops, texts).Ok? ==> Installed(ops, texts, Folded(ops, texts).value)
  {
    if ops != [] {
      var p, rest, first := ops[0].path, ops[1..], Applied(ops[0], texts[ops[0].path]);
      assert ops[0].Put? && p in texts;
      FirstIs(ops[0], texts);
      FoldedStep(ops, texts);
      if first.Ok? {
        var next := texts[p := first.value.rendered];
        RestPlan(ops, texts, next);
        SameWritables(p, first.value.rendered, texts);
        AllStep(ops, texts, next);
        InstallLeaves(rest, next);
        hide *;
        if Folded(rest, next).Ok? { InstallMore(ops, texts, next, Folded(rest, next).value); }
      } else {
        FirstBad(ops, texts);
        hide *;
      }
    }
  }

  lemma RestPlan(ops: seq<Operation>, texts: Texts, next: Texts)
    requires ops != [] && AllNamed(ops, texts) && Install(ops) && next.Keys == texts.Keys
    ensures AllNamed(ops[1..], next) && Install(ops[1..])
  {
  }

  lemma FirstBad(ops: seq<Operation>, texts: Texts)
    requires ops != []
    ensures !Writable(ops[0], texts) ==> !AllWritable(ops, texts)
  {
    hide Writable;
  }

  lemma SameWritables(p: string, t: string, texts: Texts)
    requires p in texts && MarkerSpan(texts[p]).Ok? && MarkerSpan(t).Ok?
    ensures forall op :: Writable(op, texts) <==> Writable(op, texts[p := t])
  {
    forall op ensures Writable(op, texts) <==> Writable(op, texts[p := t]) { SameWritable(op, p, t, texts); }
  }

  lemma InstallMore(ops: seq<Operation>, texts: Texts, next: Texts, out: Texts)
    requires ops != [] && ops[0].path in texts && Leaves(ops[0], texts, next) && Installed(ops[1..], next, out)
    requires next == texts[ops[0].path := next[ops[0].path]]
    ensures Installed(ops, texts, out)
  {
    hide Leaves, Named, LastFor;
    var first, rest := ops[0], ops[1..];
    forall p | p in texts && !Named(ops, p) ensures out[p] == texts[p] { NamedStep(ops, p); }
    forall i | LastFor(ops, i) ensures 0 <= i < |ops| && Leaves(ops[i], texts, out) {
      LastStep(ops, i);
      if i > 0 {
        LeavesAgain(first, rest[i - 1], texts, next, out);
      } else {
        LeavesSame(first, texts, next, out);
      }
    }
  }

  lemma LeavesSame(op: Operation, texts: Texts, next: Texts, out: Texts)
    requires Leaves(op, texts, next) && op.path in out && out[op.path] == next[op.path]
    ensures Leaves(op, texts, out)
  {
  }

  lemma LastStep(ops: seq<Operation>, i: int)
    requires LastFor(ops, i)
    ensures 0 <= i < |ops|
    ensures i > 0 ==> LastFor(ops[1..], i - 1) && ops[i] == ops[1..][i - 1]
    ensures i == 0 ==> !Named(ops[1..], ops[0].path)
  {
  }

  /** `marker_block` has read its own result already, so the reading at the end refuses no install plan. */
  lemma InstallIsSound(ops: seq<Operation>, snapshots: Texts)
    requires AllNamed(ops, snapshots) && Install(ops)
    ensures Planned(ops, snapshots) == Folded(ops, snapshots)
  {
    if Folded(ops, snapshots).Ok? { FoldedIsSound(ops, snapshots, snapshots); }
  }
}
