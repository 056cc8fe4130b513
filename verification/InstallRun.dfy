/**
 A whole installer run over the disk, other actors included. `Apply` writes the targets in
 order and, when one fails, takes its ledger back newest first; `RollBack` is that second
 half. Among other actors every step taken back is careful. Without them a run that fails
 leaves the disk as it found it but for new backups, and one that succeeds has settled every
 target and touched nothing else. The proof keeps a ledger of disk states beside the ledger
 of writes (`OnTheWay`), so that each entry is known to lead from one state to the next.
 */
module InstallRun {
  import opened Basics
  import opened Disk
  import opened Install

  /** What another actor does to the disk between two steps of the run. */
  type Others = (nat, Nodes) -> Nodes

  ghost predicate Alone(others: Others) { forall i, ns :: others(i, ns) == ns }

  /** Entries that lead from one state of the disk to the next. */
  ghost predicate Ledger(writes: seq<Write>, states: seq<Nodes>, backups: set<Path>) {
    |states| == |writes| + 1 && forall i :: 0 <= i < |writes| ==> Entry(states[i], states[i + 1], writes[i], backups)
  }

  predicate Addressed(writes: seq<Write>) { forall i :: 0 <= i < |writes| ==> writes[i].target.path != [] }

  /** One step of a rollback: what the disk held, what it holds then. */
  datatype Turn = Turn(before: Nodes, after: Nodes)

  ghost predicate CarefulTurns(turns: seq<Turn>, writes: seq<Write>) {
    |turns| <= |writes| && forall i :: 0 <= i < |turns| ==> Careful(turns[i].before, turns[i].after, writes[|writes| - 1 - i])
  }

  /** The disk after some turns. */
  function Left(start: Nodes, turns: seq<Turn>): Nodes { if turns == [] then start else turns[|turns| - 1].after }

  /** Each turn starts from what the other actors made of what the one before left. */
  ghost predicate Connected(start: Nodes, turns: seq<Turn>, others: Others) {
    turns != [] ==>
      var earlier, last := turns[..|turns| - 1], turns[|turns| - 1];
      Connected(start, earlier, others) && last.before == others(|earlier|, Left(start, earlier))
  }

  ghost predicate Survive(backups: set<Path>, ns: Nodes, ns': Nodes) {
    forall b :: b in backups && IsFile(ns, b) ==> b in ns' && ns'[b] == ns[b]
  }

  /**
   `_roll_back`, newest first. Among any other actors each of its turns is careful. Without
   them every backup survives, and if nothing fails the disk is again as before the entries.
   */
  method RollBack(m: Machine, writes: seq<Write>, others: Others, ghost states: seq<Nodes>, ghost backups: set<Path>)
    returns (reports: seq<Report>, ghost turns: seq<Turn>)
    requires Addressed(writes)
    modifies m
    ensures old(m.tick) <= m.tick && |turns| == |writes| == |reports|
    ensures CarefulTurns(turns, writes) && Connected(old(m.nodes), turns, others) && m.nodes == Left(old(m.nodes), turns)
    ensures AllReported(turns, writes, reports, m.Quiet(old(m.tick), m.tick))
    ensures Alone(others) && Apart(writes, backups) ==> Survive(backups, old(m.nodes), m.nodes)
    ensures Alone(others) && m.Quiet(old(m.tick), m.tick) ==> Unwound(writes, states, backups, old(m.nodes), m.nodes, 0)
  {
    hide *;
    ghost var start := m.nodes;
    reports, turns := [], [];
    NoTurns(start, writes, others, backups);
    NoneReported(writes, m.Quiet(old(m.tick), m.tick));
    UnwoundAt(writes, states, backups, start, start, |writes|);
    var k := |writes|;
    while k > 0
      invariant 0 <= k <= |writes| && old(m.tick) <= m.tick && |turns| == |reports| == |writes| - k
      invariant CarefulTurns(turns, writes) && Connected(start, turns, others) && m.nodes == Left(start, turns)
      invariant AllReported(turns, writes, reports, m.Quiet(old(m.tick), m.tick))
      invariant Alone(others) && Apart(writes, backups) ==> Survive(backups, start, m.nodes)
      invariant Alone(others) && m.Quiet(old(m.tick), m.tick) ==> Unwound(writes, states, backups, start, m.nodes, k)
    {
      k := k - 1;
      ghost var held, since := m.nodes, m.tick;
      m.nodes := others(|writes| - 1 - k, m.nodes);
      ghost var before := m.nodes;
      AddressedAt(writes, k);
      UnwoundAt(writes, states, backups, start, held, k + 1);
      UnwoundNext(writes, states, backups, k);
      var r := RollBackOne(m, writes[k], if k + 1 < |states| then states[k] else map[],
                           if k + 1 < |states| then states[k + 1] else map[], backups);
      AloneAt(others, |writes| - 1 - k, held);
      QuietSplit(m, old(m.tick), since, m.tick);
      AnotherTurn(start, turns, held, before, m.nodes, writes, others, k);
      UnwoundAt(writes, states, backups, start, m.nodes, k);
      if Apart(writes, backups) {
        ApartAt(writes, backups, k);
        SurviveOne(backups, start, before, m.nodes, writes[k]);
      }
      MoreReported(turns, writes, reports, m.Quiet(old(m.tick), since), Turn(before, m.nodes), r, m.Quiet(since, m.tick), m.Quiet(old(m.tick), m.tick));
      reports, turns := reports + [r], turns + [Turn(before, m.nodes)];
    }
  }

  /** Every report is true of the turn it is about. */
  ghost predicate AllReported(turns: seq<Turn>, writes: seq<Write>, reports: seq<Report>, quiet: bool) {
    |reports| == |turns| <= |writes| && forall i :: 0 <= i < |turns| ==>
      Reports(turns[i].before, turns[i].after, writes[|writes| - 1 - i], reports[i], quiet)
  }

  lemma MoreReported(turns: seq<Turn>, writes: seq<Write>, reports: seq<Report>, quiet: bool, turn: Turn, r: Report, now: bool, both: bool)
    requires AllReported(turns, writes, reports, quiet) && |turns| < |writes|
    requires Reports(turn.before, turn.after, writes[|writes| - 1 - |turns|], r, now) && (both ==> quiet && now)
    ensures AllReported(turns + [turn], writes, reports + [r], both)
  {
    hide LeftFile, LinkFree;
  }

  lemma NoneReported(writes: seq<Write>, quiet: bool)
    ensures AllReported([], writes, [], quiet)
  {
  }

  lemma NoTurns(start: Nodes, writes: seq<Write>, others: Others, backups: set<Path>)
    ensures CarefulTurns([], writes) && Connected(start, [], others) && Left(start, []) == start && Survive(backups, start, start)
  {
  }

  lemma AddressedAt(writes: seq<Write>, k: nat)
    requires Addressed(writes) && k < |writes|
    ensures writes[k].target.path != []
  {
  }

  /** Taken back from the newest entry down to entry `k`. */
  ghost predicate Unwound(writes: seq<Write>, states: seq<Nodes>, backups: set<Path>, start: Nodes, now: Nodes, k: nat) {
    Ledger(writes, states, backups) && k <= |writes| && Approx(start, states[|writes|], backups) ==> Approx(now, states[k], backups)
  }

  predicate Apart(writes: seq<Write>, backups: set<Path>) { forall i :: 0 <= i < |writes| ==> writes[i].target.path !in backups }

  lemma ApartAt(writes: seq<Write>, backups: set<Path>, k: nat)
    requires Apart(writes, backups) && k < |writes|
    ensures writes[k].target.path !in backups
  {
  }

  lemma UnwoundAt(writes: seq<Write>, states: seq<Nodes>, backups: set<Path>, start: Nodes, now: Nodes, k: nat)
    requires k <= |writes|
    ensures Ledger(writes, states, backups) ==> |states| == |writes| + 1
    ensures |states| == |writes| + 1 ==>
      (Unwound(writes, states, backups, start, now, k)
       <==> (Ledger(writes, states, backups) && Approx(start, states[|writes|], backups) ==> Approx(now, states[k], backups)))
    ensures k == |writes| && now == start ==> Unwound(writes, states, backups, start, now, k)
    ensures |states| != |writes| + 1 ==> Unwound(writes, states, backups, start, now, k)
  {
    hide Entry;
    hide Approx;
  }

  lemma UnwoundNext(writes: seq<Write>, states: seq<Nodes>, backups: set<Path>, k: nat)
    requires k < |writes|
    ensures Ledger(writes, states, backups) ==> |states| == |writes| + 1 && Entry(states[k], states[k + 1], writes[k], backups)
  {
    hide Entry;
  }

  lemma AloneAt(others: Others, i: nat, ns: Nodes)
    ensures Alone(others) ==> others(i, ns) == ns
  {
  }

  lemma AnotherTurn(start: Nodes, turns: seq<Turn>, held: Nodes, before: Nodes, after: Nodes, writes: seq<Write>, others: Others, k: nat)
    requires k < |writes| && |turns| == |writes| - 1 - k && before == others(|writes| - 1 - k, held)
    requires CarefulTurns(turns, writes) && Connected(start, turns, others) && held == Left(start, turns) && Careful(before, after, writes[k])
    ensures CarefulTurns(turns + [Turn(before, after)], writes) && Connected(start, turns + [Turn(before, after)], others)
    ensures Left(start, turns + [Turn(before, after)]) == after
  {
    hide *;
    MoreCareful(turns, Turn(before, after), writes, k);
    StillConnected(start, turns, held, Turn(before, after), others);
  }

  lemma MoreCareful(turns: seq<Turn>, turn: Turn, writes: seq<Write>, k: nat)
    requires k < |writes| && |turns| == |writes| - 1 - k && CarefulTurns(turns, writes) && Careful(turn.before, turn.after, writes[k])
    ensures CarefulTurns(turns + [turn], writes)
  {
    hide Careful;
  }

  lemma StillConnected(start: Nodes, turns: seq<Turn>, held: Nodes, turn: Turn, others: Others)
    requires Connected(start, turns, others) && held == Left(start, turns) && turn.before == others(|turns|, held)
    ensures Connected(start, turns + [turn], others) && Left(start, turns + [turn]) == turn.after
  {
    assert (turns + [turn])[..|turns|] == turns;
  }

  lemma SurviveOne(backups: set<Path>, start: Nodes, before: Nodes, after: Nodes, w: Write)
    requires Careful(before, after, w) && w.target.path !in backups
    ensures Survive(backups, start, before) ==> Survive(backups, start, after)
  {
  }

  // ---- the whole run ---------------------------------------------------------------------

  /** One accepted change: what planning read, the new text, and the root it is below. */
  datatype Pending = Pending(snapshot: Snapshot, text: string, root: Option<Path>)

  /** Targets come keyed by path, and none is named like a backup of this run. */
  ghost predicate Planned(pending: seq<Pending>, stamp: string) {
    && (forall i :: 0 <= i < |pending| ==> pending[i].snapshot.target.path != [])
    && (forall i, j :: 0 <= i < j < |pending| ==> pending[i].snapshot.target.path != pending[j].snapshot.target.path)
    && forall i, j :: 0 <= i < |pending| && 0 <= j < |pending| ==>
         pending[i].snapshot.target.path != BackupPath(pending[j].snapshot.target.path, stamp)
  }

  ghost predicate IsTarget(pending: seq<Pending>, n: nat, p: Path) {
    exists i :: 0 <= i < n <= |pending| && pending[i].snapshot.target.path == p
  }

  /** A directory on the way to a target. */
  ghost predicate IsAbove(pending: seq<Pending>, n: nat, p: Path) {
    exists i :: 0 <= i < n <= |pending| && pending[i].snapshot.target.path != [] && p <= Parent(pending[i].snapshot.target.path)
  }

  ghost predicate IsBackup(pending: seq<Pending>, n: nat, stamp: string, p: Path) {
    exists i :: 0 <= i < n <= |pending| && pending[i].snapshot.target.path != []
                && BackupPath(pending[i].snapshot.target.path, stamp) == p
  }

  /** A backup that this run made: of a target that was there, and new. */
  ghost predicate Homed(ns: Nodes, backups: set<Path>) {
    forall b :: b in backups ==> b != [] && b !in ns && IsDir(ns, Parent(b))
  }

  /** What a run has done to the disk so far: directories, backups, and the targets. */
  ghost predicate Accounted(ns: Nodes, now: Nodes, pending: seq<Pending>, n: nat, backups: set<Path>) {
    && (forall p :: p in now && p !in ns ==> (IsDir(now, p) && IsAbove(pending, n, p)) || p in backups || IsTarget(pending, n, p))
    && (forall p :: p in ns && !IsTarget(pending, n, p) ==> p in now && now[p] == ns[p])
  }

  ghost predicate DirsStay(ns: Nodes, ns': Nodes) { forall p :: IsDir(ns, p) ==> IsDir(ns', p) }

  ghost predicate AllDirsStay(ns: Nodes, states: seq<Nodes>) { forall i :: 0 <= i < |states| ==> DirsStay(ns, states[i]) }

  ghost predicate Matches(writes: seq<Write>, pending: seq<Pending>) {
    |writes| <= |pending| && forall i :: 0 <= i < |writes| ==> writes[i].target == pending[i].snapshot.target
  }

  ghost predicate AllBackups(backups: set<Path>, pending: seq<Pending>, n: nat, stamp: string) {
    forall b :: b in backups ==> IsBackup(pending, n, stamp, b)
  }

  /** The ledger so far, its states, and the backups. */
  ghost predicate OnTheWay(ns: Nodes, now: Nodes, pending: seq<Pending>, n: nat, stamp: string,
                           writes: seq<Write>, states: seq<Nodes>, backups: set<Path>) {
    && |writes| == n && Matches(writes, pending) && Ledger(writes, states, backups) && states[0] == ns && states[n] == now
    && Tree(ns) && Tree(now) && AllBackups(backups, pending, n, stamp) && Homed(ns, backups)
    && Accounted(ns, now, pending, n, backups) && AllDirsStay(ns, states)
  }

  lemma Started(ns: Nodes, pending: seq<Pending>, stamp: string)
    requires Tree(ns)
    ensures OnTheWay(ns, ns, pending, 0, stamp, [], [ns], {})
  {
  }

  /** All that an entry did to the disk. */
  ghost predicate Effects(prev: Nodes, next: Nodes, w: Write) {
    var path := w.target.path;
    && path != [] && !IsDir(prev, path)
    && (forall p :: p in prev && p != path ==> p in next && next[p] == prev[p])
    && (forall p :: p in next && p !in prev ==> (IsDir(next, p) && p <= Parent(path)) || p == path || w.backup == Some(p))
  }

  lemma {:induction false} CreatedAbove(ns: Nodes, created: seq<CreatedDir>, d: Path, i: nat)
    requires Nested(ns, created) && i < |created| && created[0].path == d
    ensures created[i].path <= d
  {
    if i > 0 {
      CreatedAbove(ns, created, d, i - 1);
      assert Parent(created[i - 1].path) <= created[i - 1].path;
    }
  }

  lemma EntryEffects(prev: Nodes, next: Nodes, w: Write)
    requires Landed(prev, next, w) || Unlanded(prev, next, w)
    ensures Effects(prev, next, w)
  {
    var path := w.target.path;
    if w.backup.None? {
      ClimbedParts(prev, next - {path}, w.created);
      forall p | p in next && p !in prev ensures (IsDir(next, p) && p <= Parent(path)) || p == path || w.backup == Some(p) {
        if p != path {
          assert p in next - {path};
          var i :| 0 <= i < |w.created| && w.created[i].path == p;
          CreatedAbove(prev, w.created, Parent(path), i);
        }
      }
      forall p | p in prev && p != path ensures p in next && next[p] == prev[p] { assert p in next - {path}; }
    }
    hide Nested;
    hide Climbed;
  }

  lemma EntryTree(prev: Nodes, next: Nodes, w: Write)
    requires Tree(prev) && (Landed(prev, next, w) || Unlanded(prev, next, w))
    ensures Tree(next)
  {
    EntryEffects(prev, next, w);
    var path := w.target.path;
    if w.backup.None? {
      var mid := next - {path};
      ClimbedTree(prev, mid, w.created);
      forall p | p in next && p != [] ensures IsDir(next, Parent(p)) {
        if p != path { assert p in mid && IsDir(mid, Parent(p)); } else { assert IsDir(mid, Parent(path)); }
      }
    } else {
      assert BackedUp(prev, next, w) && IsDir(prev, Parent(path));
      forall p | p in next && p != [] ensures IsDir(next, Parent(p)) {
        if p in prev { assert IsDir(prev, Parent(p)); } else { assert p == path || Some(p) == w.backup || p in prev; }
      }
    }
    hide Climbed;
  }

  lemma EffectsDirs(prev: Nodes, next: Nodes, w: Write)
    requires Effects(prev, next, w)
    ensures DirsStay(prev, next)
  {
  }

  lemma TargetMore(pending: seq<Pending>, n: nat, p: Path)
    requires n < |pending|
    ensures IsTarget(pending, n + 1, p) <==> IsTarget(pending, n, p) || p == pending[n].snapshot.target.path
  {
    if IsTarget(pending, n, p) {
      var i :| 0 <= i < n && pending[i].snapshot.target.path == p;
      assert pending[i].snapshot.target.path == p;
    }
  }

  lemma AccountedNext(ns: Nodes, now: Nodes, next: Nodes, pending: seq<Pending>, n: nat, backups: set<Path>, w: Write)
    requires Accounted(ns, now, pending, n, backups) && Effects(now, next, w) && n < |pending|
    requires w.target.path == pending[n].snapshot.target.path
    ensures Accounted(ns, next, pending, n + 1, backups + (if w.backup.Some? then {w.backup.value} else {}))
  {
    forall p ensures IsTarget(pending, n + 1, p) <==> IsTarget(pending, n, p) || p == w.target.path { TargetMore(pending, n, p); }
    forall p ensures IsAbove(pending, n, p) || p <= Parent(w.target.path) ==> IsAbove(pending, n + 1, p) { AboveMore(pending, n, p); }
    hide IsTarget, IsAbove;
  }

  lemma AboveMore(pending: seq<Pending>, n: nat, p: Path)
    requires n < |pending| && pending[n].snapshot.target.path != []
    ensures IsAbove(pending, n, p) || p <= Parent(pending[n].snapshot.target.path) ==> IsAbove(pending, n + 1, p)
  {
    if IsAbove(pending, n, p) {
      var i :| 0 <= i < n && pending[i].snapshot.target.path != [] && p <= Parent(pending[i].snapshot.target.path);
      assert pending[i].snapshot.target.path != [];
    } else if p <= Parent(pending[n].snapshot.target.path) {
      assert pending[n].snapshot.target.path != [];
    }
  }

  /** A target with a backup was there before the run, and so was its directory. */
  lemma BackupHome(ns: Nodes, now: Nodes, pending: seq<Pending>, n: nat, stamp: string, backups: set<Path>)
    requires Planned(pending, stamp) && n < |pending| && Tree(ns) && Accounted(ns, now, pending, n, backups)
    requires AllBackups(backups, pending, n, stamp) && IsFile(now, pending[n].snapshot.target.path)
    ensures var b := BackupPath(pending[n].snapshot.target.path, stamp);
            && b != [] && IsDir(ns, Parent(b)) && (b !in now ==> b !in ns)
            && IsBackup(pending, n + 1, stamp, b)
  {
    var path := pending[n].snapshot.target.path;
    BackupApart(path, path, stamp);
    assert !IsTarget(pending, n, path);
    assert path !in backups;
    assert IsDir(ns, Parent(path));
    assert !IsTarget(pending, n, BackupPath(path, stamp));
  }

  lemma EntryMore(ns: Nodes, prev: Nodes, next: Nodes, w: Write, backups: set<Path>, more: set<Path>)
    requires Entry(prev, next, w, backups) && backups <= more && Homed(ns, more) && DirsStay(ns, prev) && DirsStay(ns, next)
    requires w.target.path !in more
    ensures Entry(prev, next, w, more)
  {
    hide Landed;
    hide Unlanded;
    hide Tree;
  }

  lemma LedgerMore(ns: Nodes, writes: seq<Write>, states: seq<Nodes>, backups: set<Path>, more: set<Path>)
    requires Ledger(writes, states, backups) && backups <= more && Homed(ns, more) && AllDirsStay(ns, states) && Apart(writes, more)
    ensures Ledger(writes, states, more)
  {
    hide Entry;
    hide Homed;
    hide DirsStay;
    forall i | 0 <= i < |writes| ensures Entry(states[i], states[i + 1], writes[i], more) {
      EntryMore(ns, states[i], states[i + 1], writes[i], backups, more);
    }
  }

  lemma LedgerNext(writes: seq<Write>, states: seq<Nodes>, backups: set<Path>, w: Write, next: Nodes)
    requires Ledger(writes, states, backups) && Entry(states[|writes|], next, w, backups)
    ensures Ledger(writes + [w], states + [next], backups)
  {
    hide Entry;
    var all, ends := writes + [w], states + [next];
    forall i | 0 <= i < |all| ensures Entry(ends[i], ends[i + 1], all[i], backups) {
      if i < |writes| { assert all[i] == writes[i] && ends[i] == states[i] && ends[i + 1] == states[i + 1]; }
    }
  }

  lemma FreshEntry(ns: Nodes, now: Nodes, next: Nodes, w: Write, backups: set<Path>)
    requires (Landed(now, next, w) || Unlanded(now, next, w)) && Tree(now) && Tree(next)
    requires Homed(ns, backups) && DirsStay(ns, now) && DirsStay(ns, next) && w.target.path !in backups
    requires w.backup.Some? ==> w.backup.value in backups
    ensures Entry(now, next, w, backups)
  {
    hide Landed;
    hide Unlanded;
    hide Tree;
  }

  lemma TargetsApart(writes: seq<Write>, pending: seq<Pending>, stamp: string, backups: set<Path>, n: nat)
    requires Planned(pending, stamp) && Matches(writes, pending) && AllBackups(backups, pending, n, stamp)
    ensures Apart(writes, backups)
    ensures forall i :: 0 <= i < |pending| ==> pending[i].snapshot.target.path !in backups
  {
  }

  lemma BackupsMore(backups: set<Path>, pending: seq<Pending>, n: nat, stamp: string)
    requires AllBackups(backups, pending, n, stamp)
    ensures AllBackups(backups, pending, n + 1, stamp) || n >= |pending|
  {
    forall b | b in backups && n < |pending| ensures IsBackup(pending, n + 1, stamp, b) {
      var i :| 0 <= i < n <= |pending| && pending[i].snapshot.target.path != [] && BackupPath(pending[i].snapshot.target.path, stamp) == b;
      assert BackupPath(pending[i].snapshot.target.path, stamp) == b;
    }
  }

  function Added(backups: set<Path>, b: Option<Path>): set<Path> { backups + if b.Some? then {b.value} else {} }

  /** What another backup does to the bookkeeping. */
  lemma OneMoreBackup(ns: Nodes, now: Nodes, pending: seq<Pending>, n: nat, stamp: string, backups: set<Path>, b: Option<Path>)
    requires Planned(pending, stamp) && n < |pending| && Tree(ns) && Accounted(ns, now, pending, n, backups)
    requires AllBackups(backups, pending, n, stamp) && Homed(ns, backups)
    requires b.Some? ==> b.value == BackupPath(pending[n].snapshot.target.path, stamp) && b.value !in now
                         && IsFile(now, pending[n].snapshot.target.path)
    ensures AllBackups(Added(backups, b), pending, n + 1, stamp) && Homed(ns, Added(backups, b))
  {
    BackupsMore(backups, pending, n, stamp);
    if b.Some? { BackupHome(ns, now, pending, n, stamp, backups); }
  }

  lemma {:induction false} NextOnTheWay(ns: Nodes, now: Nodes, next: Nodes, pending: seq<Pending>, n: nat, stamp: string,
                     writes: seq<Write>, states: seq<Nodes>, backups: set<Path>, w: Write)
    requires OnTheWay(ns, now, pending, n, stamp, writes, states, backups) && Planned(pending, stamp) && n < |pending|
    requires (Landed(now, next, w) || Unlanded(now, next, w)) && w.target == pending[n].snapshot.target
    requires w.backup.Some? ==> w.backup.value == BackupPath(w.target.path, stamp)
    ensures OnTheWay(ns, next, pending, n + 1, stamp, writes + [w], states + [next], Added(backups, w.backup))
  {
    hide *;
    OnTheWayParts(ns, now, pending, n, stamp, writes, states, backups);
    var more := Added(backups, w.backup);
    AddedIs(backups, w.backup);
    EntryEffects(now, next, w);
    EntryTree(now, next, w);
    EffectsDirs(now, next, w);
    BackupNew(now, next, w);
    OneMoreBackup(ns, now, pending, n, stamp, backups, w.backup);
    MatchesNext(writes, pending, w);
    TargetsApart(writes + [w], pending, stamp, more, n + 1);
    TargetsApart(writes, pending, stamp, more, n + 1);
    DirsNext(ns, states, now, next);
    LedgerMore(ns, writes, states, backups, more);
    FreshEntry(ns, now, next, w, more);
    LedgerNext(writes, states, more, w, next);
    AccountedNext(ns, now, next, pending, n, backups, w);
    OnTheWayIs(ns, next, pending, n + 1, stamp, writes + [w], states + [next], more);
  }

  lemma AddedIs(backups: set<Path>, b: Option<Path>)
    ensures Added(backups, b) == backups + (if b.Some? then {b.value} else {}) && backups <= Added(backups, b)
  {
  }

  lemma BackupNew(now: Nodes, next: Nodes, w: Write)
    requires Landed(now, next, w) || Unlanded(now, next, w)
    ensures w.backup.Some? ==> w.backup.value !in now && IsFile(now, w.target.path)
  {
    hide Climbed;
  }

  lemma MatchesNext(writes: seq<Write>, pending: seq<Pending>, w: Write)
    requires Matches(writes, pending) && |writes| < |pending| && w.target == pending[|writes|].snapshot.target
    ensures Matches(writes + [w], pending)
  {
  }

  lemma DirsNext(ns: Nodes, states: seq<Nodes>, now: Nodes, next: Nodes)
    requires AllDirsStay(ns, states) && states != [] && states[|states| - 1] == now && DirsStay(now, next)
    ensures AllDirsStay(ns, states + [next]) && DirsStay(ns, now) && DirsStay(ns, next)
  {
  }

  lemma OnTheWayParts(ns: Nodes, now: Nodes, pending: seq<Pending>, n: nat, stamp: string,
                      writes: seq<Write>, states: seq<Nodes>, backups: set<Path>)
    requires OnTheWay(ns, now, pending, n, stamp, writes, states, backups)
    ensures |writes| == n && |states| == n + 1 && Matches(writes, pending) && Ledger(writes, states, backups)
    ensures states[0] == ns && states[n] == now && Tree(ns) && Tree(now)
    ensures AllBackups(backups, pending, n, stamp) && Homed(ns, backups)
    ensures Accounted(ns, now, pending, n, backups) && AllDirsStay(ns, states)
  {
    hide Entry;
  }

  lemma OnTheWayIs(ns: Nodes, now: Nodes, pending: seq<Pending>, n: nat, stamp: string,
                   writes: seq<Write>, states: seq<Nodes>, backups: set<Path>)
    requires |writes| == n && |states| == n + 1 && Matches(writes, pending) && Ledger(writes, states, backups)
    requires states[0] == ns && states[n] == now && Tree(ns) && Tree(now)
    requires AllBackups(backups, pending, n, stamp) && Homed(ns, backups)
    requires Accounted(ns, now, pending, n, backups) && AllDirsStay(ns, states)
    ensures OnTheWay(ns, now, pending, n, stamp, writes, states, backups)
  {
    hide Entry;
  }

  // ---- what a run can write ------------------------------------------------------------------

  /** No target, and no backup of one, is a directory on the way to another target. */
  ghost predicate Separate(pending: seq<Pending>, stamp: string)
    requires Planned(pending, stamp)
  {
    forall i, j :: 0 <= i < |pending| && 0 <= j < |pending| ==>
      var p, way := pending[i].snapshot.target.path, Parent(pending[j].snapshot.target.path);
      !(p <= way) && !(BackupPath(p, stamp) <= way)
  }

  /** Every target can be written on the disk as it is. */
  ghost predicate AllReady(ns: Nodes, pending: seq<Pending>, stamp: string) {
    Planned(pending, stamp) && Separate(pending, stamp) && forall i :: 0 <= i < |pending| ==> Ready(ns, pending[i].snapshot, stamp)
  }

  /** What a run of earlier targets has put in the way of this one: nothing. */
  lemma NothingAt(ns: Nodes, now: Nodes, pending: seq<Pending>, n: nat, stamp: string, backups: set<Path>, p: Path)
    requires Planned(pending, stamp) && Separate(pending, stamp) && n < |pending|
    requires Accounted(ns, now, pending, n, backups) && AllBackups(backups, pending, n, stamp)
    requires p == pending[n].snapshot.target.path || p == BackupPath(pending[n].snapshot.target.path, stamp)
    ensures !IsTarget(pending, n, p) && (p in now <==> p in ns) && (p in ns ==> now[p] == ns[p])
  {
    var path := pending[n].snapshot.target.path;
    TargetsApart([], pending, stamp, backups, n);
    if p in backups {
      var i :| 0 <= i < n && pending[i].snapshot.target.path != [] && BackupPath(pending[i].snapshot.target.path, stamp) == p;
      BackupApart(pending[i].snapshot.target.path, path, stamp);
    }
    assert !IsAbove(pending, n, p);
    hide IsAbove;
  }

  /** Neither has it put anything but directories on the way to it. */
  lemma WayOpen(ns: Nodes, now: Nodes, pending: seq<Pending>, n: nat, stamp: string, backups: set<Path>)
    requires Planned(pending, stamp) && Separate(pending, stamp) && n < |pending|
    requires Accounted(ns, now, pending, n, backups) && AllBackups(backups, pending, n, stamp)
    requires Reachable(ns, Parent(pending[n].snapshot.target.path))
    ensures Reachable(now, Parent(pending[n].snapshot.target.path))
  {
    var way := Parent(pending[n].snapshot.target.path);
    forall k | 0 <= k <= |way| && (way[..k] in now || k == 0) ensures IsDir(now, way[..k]) {
      var p := way[..k];
      assert p <= way;
      assert !IsTarget(pending, n, p) && p !in backups;
      assert k == 0 ==> p == [];
      assert p in ns ==> now[p] == ns[p];
    }
    assert way[..0] == [];
  }

  /** What could be written before the run still can when its turn comes. */
  lemma StillReady(ns: Nodes, now: Nodes, pending: seq<Pending>, n: nat, stamp: string,
                   writes: seq<Write>, states: seq<Nodes>, backups: set<Path>)
    requires OnTheWay(ns, now, pending, n, stamp, writes, states, backups) && AllReady(ns, pending, stamp) && n < |pending|
    ensures Ready(now, pending[n].snapshot, stamp)
  {
    OnTheWayParts(ns, now, pending, n, stamp, writes, states, backups);
    var path := pending[n].snapshot.target.path;
    assert Ready(ns, pending[n].snapshot, stamp);
    NothingAt(ns, now, pending, n, stamp, backups, path);
    NothingAt(ns, now, pending, n, stamp, backups, BackupPath(path, stamp));
    WayOpen(ns, now, pending, n, stamp, backups);
    hide OnTheWay, Reachable, Accounted, AllBackups, Separate, Planned, IsTarget;
  }

  // ---- what a run leaves -------------------------------------------------------------------

  /** The ledger's backups hold what the targets held before the run. */
  ghost predicate PreImages(ns: Nodes, now: Nodes, writes: seq<Write>) {
    forall i :: 0 <= i < |writes| && writes[i].backup.Some? ==>
      && IsFile(ns, writes[i].target.path) && IsFile(now, writes[i].backup.value)
      && now[writes[i].backup.value].data == ns[writes[i].target.path].data
  }

  /** A target has its new text, and a rewritten one its old mode; or it is gone. */
  ghost predicate Settled(ns: Nodes, now: Nodes, t: Pending) {
    var path := t.snapshot.target.path;
    if t.text == "" && t.snapshot.target.deleteIfEmptied && IsFile(ns, path) then !IsFile(now, path)
    else IsFile(now, path) && now[path].data == t.text && (IsFile(ns, path) ==> now[path].mode == ns[path].mode)
  }

  ghost predicate AllSettled(ns: Nodes, now: Nodes, pending: seq<Pending>, n: nat) {
    n <= |pending| && forall i :: 0 <= i < n ==> Settled(ns, now, pending[i])
  }

  /** The disk as the run found it, but for backups, all of them new. */
  ghost predicate PutBack(ns: Nodes, now: Nodes, backups: set<Path>) { SameBut(ns, now, backups) && Homed(ns, backups) }

  lemma PreImagesNext(ns: Nodes, now: Nodes, next: Nodes, pending: seq<Pending>, n: nat, stamp: string,
                      writes: seq<Write>, backups: set<Path>, w: Write)
    requires PreImages(ns, now, writes) && Planned(pending, stamp) && n < |pending| && |writes| == n && Matches(writes, pending)
    requires Accounted(ns, now, pending, n, backups) && AllBackups(backups, pending, n, stamp)
    requires forall i :: 0 <= i < n && writes[i].backup.Some? ==> writes[i].backup.value in backups
    requires (Landed(now, next, w) || Unlanded(now, next, w)) && w.target == pending[n].snapshot.target
    ensures PreImages(ns, next, writes + [w])
  {
    EntryEffects(now, next, w);
    BackupNew(now, next, w);
    TargetsApart(writes, pending, stamp, backups, n);
    var all := writes + [w];
    forall i | 0 <= i < |all| && all[i].backup.Some?
      ensures IsFile(ns, all[i].target.path) && IsFile(next, all[i].backup.value)
              && next[all[i].backup.value].data == ns[all[i].target.path].data
    {
      if i < n {
        assert all[i] == writes[i] && writes[i].backup.value in backups;
      } else {
        NotYetTarget(ns, now, pending, n, stamp, backups);
      }
    }
    hide Climbed;
    hide IsTarget;
    hide AllBackups;
  }

  lemma NotYetTarget(ns: Nodes, now: Nodes, pending: seq<Pending>, n: nat, stamp: string, backups: set<Path>)
    requires Planned(pending, stamp) && n < |pending| && Accounted(ns, now, pending, n, backups) && AllBackups(backups, pending, n, stamp)
    ensures var path := pending[n].snapshot.target.path;
            && (IsFile(now, path) <==> IsFile(ns, path)) && (IsFile(ns, path) ==> now[path] == ns[path])
  {
    var path := pending[n].snapshot.target.path;
    TargetsApart([], pending, stamp, backups, n);
    assert !IsTarget(pending, n, path);
  }

  lemma SettledNext(ns: Nodes, now: Nodes, next: Nodes, pending: seq<Pending>, n: nat, stamp: string, backups: set<Path>, w: Write)
    requires AllSettled(ns, now, pending, n) && Planned(pending, stamp) && n < |pending|
    requires Accounted(ns, now, pending, n, backups) && AllBackups(backups, pending, n, stamp)
    requires Landed(now, next, w) && w.target == pending[n].snapshot.target
    requires w.backup.Some? ==> w.backup.value == BackupPath(w.target.path, stamp)
    requires w.written == if pending[n].text == "" && w.target.deleteIfEmptied && w.backup.Some? then None else Some(pending[n].text)
    ensures AllSettled(ns, next, pending, n + 1)
  {
    hide *;
    EntryEffects(now, next, w);
    NotYetTarget(ns, now, pending, n, stamp, backups);
    BackupNew(now, next, w);
    TargetsApartAt(pending, stamp, n);
    SelfSettled(ns, now, next, pending[n], w);
    OthersSettled(ns, now, next, pending, n, stamp, w);
  }

  lemma SelfSettled(ns: Nodes, now: Nodes, next: Nodes, t: Pending, w: Write)
    requires Landed(now, next, w) && w.target == t.snapshot.target
    requires var path := w.target.path; (IsFile(now, path) <==> IsFile(ns, path)) && (IsFile(ns, path) ==> now[path] == ns[path])
    requires w.written == if t.text == "" && w.target.deleteIfEmptied && w.backup.Some? then None else Some(t.text)
    ensures Settled(ns, next, t)
  {
    hide Climbed;
  }

  lemma OthersSettled(ns: Nodes, now: Nodes, next: Nodes, pending: seq<Pending>, n: nat, stamp: string, w: Write)
    requires AllSettled(ns, now, pending, n) && n < |pending| && Settled(ns, next, pending[n]) && Effects(now, next, w)
    requires w.target == pending[n].snapshot.target && w.target.path != []
    requires w.backup.Some? ==> w.backup.value == BackupPath(w.target.path, stamp)
    requires forall i :: 0 <= i < n ==>
               && pending[i].snapshot.target.path != pending[n].snapshot.target.path
               && pending[i].snapshot.target.path != BackupPath(pending[n].snapshot.target.path, stamp)
    ensures AllSettled(ns, next, pending, n + 1)
  {
    forall i | 0 <= i < n ensures Settled(ns, next, pending[i]) {
      assert Settled(ns, now, pending[i]);
      var path := pending[i].snapshot.target.path;
      assert path in now ==> path in next && next[path] == now[path];
      assert path !in now && path in next ==> IsDir(next, path);
    }
  }

  lemma TargetsApartAt(pending: seq<Pending>, stamp: string, n: nat)
    requires Planned(pending, stamp) && n < |pending|
    ensures pending[n].snapshot.target.path != []
    ensures forall i :: 0 <= i < n ==>
              && pending[i].snapshot.target.path != pending[n].snapshot.target.path
              && pending[i].snapshot.target.path != BackupPath(pending[n].snapshot.target.path, stamp)
  {
  }

  /** Everything known of a run on its way, on a disk it has to itself. */
  ghost predicate Standing(ns: Nodes, now: Nodes, pending: seq<Pending>, n: nat, stamp: string,
                           writes: seq<Write>, states: seq<Nodes>, backups: set<Path>) {
    OnTheWay(ns, now, pending, n, stamp, writes, states, backups) && PreImages(ns, now, writes)
  }

  lemma StandingStart(ns: Nodes, pending: seq<Pending>, stamp: string)
    requires Tree(ns)
    ensures Standing(ns, ns, pending, 0, stamp, [], [ns], {}) && AllSettled(ns, ns, pending, 0)
  {
    Started(ns, pending, stamp);
    hide OnTheWay;
  }

  lemma StandingTree(ns: Nodes, now: Nodes, pending: seq<Pending>, n: nat, stamp: string,
                     writes: seq<Write>, states: seq<Nodes>, backups: set<Path>)
    requires Standing(ns, now, pending, n, stamp, writes, states, backups)
    ensures Tree(now) && |writes| == n
  {
    OnTheWayParts(ns, now, pending, n, stamp, writes, states, backups);
    hide OnTheWay;
  }

  lemma InBackups(writes: seq<Write>, states: seq<Nodes>, backups: set<Path>)
    requires Ledger(writes, states, backups)
    ensures forall i :: 0 <= i < |writes| && writes[i].backup.Some? ==> writes[i].backup.value in backups
  {
    forall i | 0 <= i < |writes| && writes[i].backup.Some? ensures writes[i].backup.value in backups {
      assert Entry(states[i], states[i + 1], writes[i], backups);
    }
    hide Landed;
    hide Unlanded;
  }

  lemma {:induction false} StandingNext(ns: Nodes, now: Nodes, next: Nodes, pending: seq<Pending>, n: nat, stamp: string,
                     writes: seq<Write>, states: seq<Nodes>, backups: set<Path>, w: Write, ok: bool, quiet: bool)
    requires Standing(ns, now, pending, n, stamp, writes, states, backups) && Planned(pending, stamp) && n < |pending|
    requires pending[n].snapshot.target.path != []
    requires Outcome(now, next, pending[n].snapshot.target, pending[n].text, stamp, ok, quiet, Some(w))
    ensures Standing(ns, next, pending, n + 1, stamp, writes + [w], states + [next], Added(backups, w.backup))
    ensures ok && AllSettled(ns, now, pending, n) ==> AllSettled(ns, next, pending, n + 1)
  {
    hide *;
    StandingParts(ns, now, pending, n, stamp, writes, states, backups);
    OnTheWayParts(ns, now, pending, n, stamp, writes, states, backups);
    OutcomeParts(now, next, pending[n].snapshot.target, pending[n].text, stamp, ok, quiet, w);
    NextOnTheWay(ns, now, next, pending, n, stamp, writes, states, backups, w);
    InBackups(writes, states, backups);
    PreImagesNext(ns, now, next, pending, n, stamp, writes, backups, w);
    StandingIs(ns, next, pending, n + 1, stamp, writes + [w], states + [next], Added(backups, w.backup));
    if ok && AllSettled(ns, now, pending, n) { SettledNext(ns, now, next, pending, n, stamp, backups, w); }
  }

  lemma StandingParts(ns: Nodes, now: Nodes, pending: seq<Pending>, n: nat, stamp: string,
                      writes: seq<Write>, states: seq<Nodes>, backups: set<Path>)
    requires Standing(ns, now, pending, n, stamp, writes, states, backups)
    ensures OnTheWay(ns, now, pending, n, stamp, writes, states, backups) && PreImages(ns, now, writes)
  {
    hide OnTheWay;
    hide PreImages;
  }

  lemma StandingIs(ns: Nodes, now: Nodes, pending: seq<Pending>, n: nat, stamp: string,
                   writes: seq<Write>, states: seq<Nodes>, backups: set<Path>)
    requires OnTheWay(ns, now, pending, n, stamp, writes, states, backups) && PreImages(ns, now, writes)
    ensures Standing(ns, now, pending, n, stamp, writes, states, backups)
  {
    hide OnTheWay;
    hide PreImages;
  }

  lemma OutcomeParts(now: Nodes, next: Nodes, target: Target, text: string, stamp: string, ok: bool, quiet: bool, w: Write)
    requires target.path != [] && Outcome(now, next, target, text, stamp, ok, quiet, Some(w))
    ensures w.target == target && (w.backup.Some? ==> w.backup.value == BackupPath(target.path, stamp))
    ensures if ok then Landed(now, next, w) else Unlanded(now, next, w)
    ensures w.written == if text == "" && target.deleteIfEmptied && w.backup.Some? then None else Some(text)
  {
    hide Landed;
    hide Unlanded;
  }

  /** A write that failed unrecorded leaves at most its backup. */
  lemma {:induction false} StandingStill(ns: Nodes, now: Nodes, next: Nodes, pending: seq<Pending>, n: nat, stamp: string,
                                        writes: seq<Write>, states: seq<Nodes>, backups: set<Path>) returns (more: set<Path>)
    requires Standing(ns, now, pending, n, stamp, writes, states, backups) && Planned(pending, stamp) && n < |pending|
    requires pending[n].snapshot.target.path != []
    requires Outcome(now, next, pending[n].snapshot.target, pending[n].text, stamp, false, true, None)
    ensures |writes| == n && |states| == n + 1 && states[0] == ns && states[n] == now
    ensures Ledger(writes, states, more) && Approx(next, now, more)
    ensures Homed(ns, more) && Apart(writes, more)
  {
    hide *;
    StandingParts(ns, now, pending, n, stamp, writes, states, backups);
    OnTheWayParts(ns, now, pending, n, stamp, writes, states, backups);
    var b := BackupPath(pending[n].snapshot.target.path, stamp);
    var half := if b in next && b !in now then Some(b) else None;
    more := Added(backups, half);
    AddedIs(backups, half);
    StillIs(now, next, pending[n].snapshot.target, pending[n].text, stamp, backups);
    OneMoreBackup(ns, now, pending, n, stamp, backups, half);
    TargetsApart(writes, pending, stamp, more, n + 1);
    LedgerMore(ns, writes, states, backups, more);
  }

  lemma StillIs(now: Nodes, next: Nodes, target: Target, text: string, stamp: string, backups: set<Path>)
    requires target.path != [] && Outcome(now, next, target, text, stamp, false, true, None)
    ensures var b := BackupPath(target.path, stamp);
            && (b in next && b !in now ==> IsFile(now, target.path))
            && Approx(next, now, Added(backups, if b in next && b !in now then Some(b) else None))
  {
  }

  lemma RolledBack(ns: Nodes, held: Nodes, now: Nodes, writes: seq<Write>, states: seq<Nodes>, more: set<Path>)
    requires Ledger(writes, states, more) && states[0] == ns && Approx(held, states[|writes|], more) && Homed(ns, more)
    requires Unwound(writes, states, more, held, now, 0)
    ensures PutBack(ns, now, more)
  {
    hide Entry;
  }

  lemma SameApprox(ns: Nodes, backups: set<Path>)
    ensures Approx(ns, ns, backups)
  {
  }

  /** The other actors once `n` steps are done. */
  function Later(others: Others, n: nat): Others { (i: nat, ns: Nodes) => others(n + i, ns) }

  lemma AloneLater(others: Others, n: nat)
    ensures Alone(others) ==> Alone(Later(others, n))
  {
  }

  /** One write on the disk it found: it spares every other file, and it lands only where it can, on what planning read. */
  ghost predicate Stepped(t: Turn, p: Pending, stamp: string, umaskMode: nat, ok: bool, recorded: Option<Write>) {
    && p.snapshot.target.path != [] && FilesStay(t.before, t.after, {p.snapshot.target.path})
    && (recorded.Some? ==> recorded.value.target == p.snapshot.target)
    && (Tree(t.before) ==>
          && Outcome(t.before, t.after, p.snapshot.target, p.text, stamp, ok, false, recorded)
          && (ok ==> Ready(t.before, p.snapshot, stamp) && Modes(t.before, t.after, p.snapshot.target, stamp, umaskMode)))
  }

  lemma SteppedIs(t: Turn, p: Pending, stamp: string, umaskMode: nat, ok: bool, quiet: bool, recorded: Option<Write>)
    requires p.snapshot.target.path != [] && FilesStay(t.before, t.after, {p.snapshot.target.path})
    requires recorded.Some? ==> recorded.value.target == p.snapshot.target
    requires Tree(t.before) ==> Outcome(t.before, t.after, p.snapshot.target, p.text, stamp, ok, quiet, recorded)
    requires ok && Tree(t.before) ==> Ready(t.before, p.snapshot, stamp) && Modes(t.before, t.after, p.snapshot.target, stamp, umaskMode)
    ensures Stepped(t, p, stamp, umaskMode, ok, recorded)
  {
    hide Landed, Unlanded, Approx, Tree, FilesStay, Ready, Modes;
  }

  /** Every one of these writes landed, in order. */
  ghost predicate AllLanded(steps: seq<Turn>, pending: seq<Pending>, stamp: string, umaskMode: nat, writes: seq<Write>) {
    |steps| == |writes| <= |pending| && forall i :: 0 <= i < |steps| ==> Stepped(steps[i], pending[i], stamp, umaskMode, true, Some(writes[i]))
  }

  /** All landed but the last, which may still be on the ledger. */
  ghost predicate LastFailed(steps: seq<Turn>, pending: seq<Pending>, stamp: string, umaskMode: nat, writes: seq<Write>) {
    && 0 < |steps| <= |pending| && |steps| - 1 <= |writes| <= |steps|
    && AllLanded(steps[..|steps| - 1], pending, stamp, umaskMode, writes[..|steps| - 1])
    && Stepped(steps[|steps| - 1], pending[|steps| - 1], stamp, umaskMode, false, if |writes| == |steps| then Some(writes[|writes| - 1]) else None)
  }

  lemma NoneLanded(start: Nodes, pending: seq<Pending>, stamp: string, umaskMode: nat, others: Others)
    ensures AllLanded([], pending, stamp, umaskMode, []) && Connected(start, [], others) && Left(start, []) == start
  {
  }

  lemma OneLanded(start: Nodes, steps: seq<Turn>, pending: seq<Pending>, stamp: string, umaskMode: nat, writes: seq<Write>, others: Others, t: Turn, w: Write)
    requires AllLanded(steps, pending, stamp, umaskMode, writes) && |steps| < |pending| && Stepped(t, pending[|steps|], stamp, umaskMode, true, Some(w))
    requires Connected(start, steps, others) && t.before == others(|steps|, Left(start, steps))
    ensures AllLanded(steps + [t], pending, stamp, umaskMode, writes + [w])
    ensures Connected(start, steps + [t], others) && Left(start, steps + [t]) == t.after
  {
    StillConnected(start, steps, Left(start, steps), t, others);
    hide Stepped, Connected, Left;
  }

  lemma OneFailed(start: Nodes, steps: seq<Turn>, pending: seq<Pending>, stamp: string, umaskMode: nat, writes: seq<Write>, others: Others, t: Turn, recorded: Option<Write>)
    requires AllLanded(steps, pending, stamp, umaskMode, writes) && |steps| < |pending| && Stepped(t, pending[|steps|], stamp, umaskMode, false, recorded)
    requires Connected(start, steps, others) && t.before == others(|steps|, Left(start, steps))
    ensures LastFailed(steps + [t], pending, stamp, umaskMode, Recorded(writes, recorded))
    ensures Connected(start, steps + [t], others) && Left(start, steps + [t]) == t.after
  {
    StillConnected(start, steps, Left(start, steps), t, others);
    var all, more := steps + [t], Recorded(writes, recorded);
    assert all[..|all| - 1] == steps && more[..|all| - 1] == writes;
    hide Stepped, Connected, Left;
  }

  function Recorded(writes: seq<Write>, recorded: Option<Write>): seq<Write> { if recorded.Some? then writes + [recorded.value] else writes }

  lemma RecordedIs(writes: seq<Write>, recorded: Option<Write>)
    ensures Recorded(writes, recorded) == if recorded.Some? then writes + [recorded.value] else writes
  {
  }

  lemma ImagesStay(ns: Nodes, now: Nodes, next: Nodes, pending: seq<Pending>, n: nat, stamp: string, writes: seq<Write>, backups: set<Path>)
    requires PreImages(ns, now, writes) && n < |pending| && Planned(pending, stamp)
    requires FilesStay(now, next, {pending[n].snapshot.target.path})
    requires AllBackups(backups, pending, n, stamp)
    requires forall i :: 0 <= i < |writes| && writes[i].backup.Some? ==> writes[i].backup.value in backups
    ensures PreImages(ns, next, writes)
  {
    TargetsApart([], pending, stamp, backups, n);
  }

  lemma ImagesSurvive(ns: Nodes, held: Nodes, now: Nodes, writes: seq<Write>, backups: set<Path>)
    requires PreImages(ns, held, writes) && Survive(backups, held, now)
    requires forall i :: 0 <= i < |writes| && writes[i].backup.Some? ==> writes[i].backup.value in backups
    ensures PreImages(ns, now, writes)
  {
  }

  lemma NothingWritten(ns: Nodes)
    ensures Addressed([]) && PreImages(ns, ns, [])
  {
  }

  lemma AddressedMore(writes: seq<Write>, w: Write)
    requires Addressed(writes) && w.target.path != []
    ensures Addressed(writes + [w])
  {
  }

  lemma LandedRecorded(prev: Nodes, next: Nodes, target: Target, text: string, stamp: string, ok: bool, quiet: bool)
    requires target.path != [] && Outcome(prev, next, target, text, stamp, ok, quiet, None)
    ensures !ok
  {
  }

  /** Ready to be rolled back from `held`, backups and all. */
  ghost predicate Rollable(ns: Nodes, held: Nodes, writes: seq<Write>, states: seq<Nodes>, backups: set<Path>) {
    && Ledger(writes, states, backups) && states[0] == ns && Apart(writes, backups) && PreImages(ns, held, writes)
  }

  ghost predicate Restorable(ns: Nodes, held: Nodes, writes: seq<Write>, states: seq<Nodes>, backups: set<Path>) {
    Ledger(writes, states, backups) && Approx(held, states[|writes|], backups) && Homed(ns, backups)
  }

  /** The write that failed was on the ledger. */
  lemma FailedRecorded(ns: Nodes, after: Nodes, pending: seq<Pending>, n: nat, stamp: string,
                       writes: seq<Write>, states: seq<Nodes>, backups: set<Path>)
    requires Standing(ns, after, pending, n, stamp, writes, states, backups) && Planned(pending, stamp)
    ensures Rollable(ns, after, writes, states, backups) && Restorable(ns, after, writes, states, backups)
  {
    StandingParts(ns, after, pending, n, stamp, writes, states, backups);
    OnTheWayParts(ns, after, pending, n, stamp, writes, states, backups);
    TargetsApart(writes, pending, stamp, backups, n);
    SameApprox(after, backups);
    hide Entry;
    hide Approx;
    hide Homed;
    hide OnTheWay;
    hide PreImages;
    hide Apart;
  }

  /** It was not. */
  lemma {:induction false} FailedUnrecorded(ns: Nodes, now: Nodes, after: Nodes, pending: seq<Pending>, n: nat, stamp: string,
                                            writes: seq<Write>, states: seq<Nodes>, backups: set<Path>, quiet: bool)
    returns (more: set<Path>)
    requires Standing(ns, now, pending, n, stamp, writes, states, backups) && Planned(pending, stamp) && n < |pending|
    requires pending[n].snapshot.target.path != [] && FilesStay(now, after, {pending[n].snapshot.target.path})
    requires Outcome(now, after, pending[n].snapshot.target, pending[n].text, stamp, false, quiet, None)
    ensures Rollable(ns, after, writes, states, more) && (quiet ==> Restorable(ns, after, writes, states, more))
  {
    hide *;
    StandingParts(ns, now, pending, n, stamp, writes, states, backups);
    OnTheWayParts(ns, now, pending, n, stamp, writes, states, backups);
    TargetsApart(writes, pending, stamp, backups, n);
    InBackups(writes, states, backups);
    ImagesStay(ns, now, after, pending, n, stamp, writes, backups);
    more := backups;
    if quiet { more := StandingStill(ns, now, after, pending, n, stamp, writes, states, backups); }
    RollableIs(ns, now, after, writes, states, more);
  }

  lemma RollableIs(ns: Nodes, now: Nodes, held: Nodes, writes: seq<Write>, states: seq<Nodes>, backups: set<Path>)
    requires |states| == |writes| + 1 && states[0] == ns && states[|writes|] == now
    requires Ledger(writes, states, backups) && Apart(writes, backups) && PreImages(ns, held, writes)
    ensures Rollable(ns, held, writes, states, backups)
    ensures Approx(held, now, backups) && Homed(ns, backups) ==> Restorable(ns, held, writes, states, backups)
  {
    hide Entry;
    hide Approx;
    hide Homed;
  }

  lemma Concluded(ns: Nodes, held: Nodes, now: Nodes, writes: seq<Write>, states: seq<Nodes>, backups: set<Path>)
    requires Rollable(ns, held, writes, states, backups) && Survive(backups, held, now)
    ensures PreImages(ns, now, writes)
    ensures Restorable(ns, held, writes, states, backups) && Unwound(writes, states, backups, held, now, 0) ==> PutBack(ns, now, backups)
  {
    InBackups(writes, states, backups);
    ImagesSurvive(ns, held, now, writes, backups);
    if Restorable(ns, held, writes, states, backups) && Unwound(writes, states, backups, held, now, 0) {
      RolledBack(ns, held, now, writes, states, backups);
    }
    hide Entry;
    hide PreImages;
  }

  lemma RollableApart(ns: Nodes, held: Nodes, writes: seq<Write>, states: seq<Nodes>, backups: set<Path>)
    requires Rollable(ns, held, writes, states, backups)
    ensures Apart(writes, backups)
  {
    hide Entry;
  }

  lemma Finished(ns: Nodes, now: Nodes, pending: seq<Pending>, stamp: string, writes: seq<Write>, states: seq<Nodes>, backups: set<Path>)
    requires Standing(ns, now, pending, |pending|, stamp, writes, states, backups)
    ensures PreImages(ns, now, writes) && Accounted(ns, now, pending, |pending|, backups)
  {
    StandingParts(ns, now, pending, |pending|, stamp, writes, states, backups);
    OnTheWayParts(ns, now, pending, |pending|, stamp, writes, states, backups);
    hide *;
  }

  ghost predicate InTrees(steps: seq<Turn>) { forall i :: 0 <= i < |steps| ==> Tree(steps[i].before) }

  ghost predicate ReadySteps(steps: seq<Turn>, pending: seq<Pending>, stamp: string)
    requires forall i :: 0 <= i < |pending| ==> pending[i].snapshot.target.path != []
  {
    forall i :: 0 <= i < |steps| && i < |pending| ==> Ready(steps[i].before, pending[i].snapshot, stamp)
  }

  lemma StepReady(steps: seq<Turn>, pending: seq<Pending>, stamp: string, step: Turn, landed: bool)
    requires forall i :: 0 <= i < |pending| ==> pending[i].snapshot.target.path != []
    requires |steps| < |pending| && (InTrees(steps) ==> ReadySteps(steps, pending, stamp))
    requires landed && Tree(step.before) ==> Ready(step.before, pending[|steps|].snapshot, stamp)
    ensures landed && InTrees(steps + [step]) ==> ReadySteps(steps + [step], pending, stamp)
    ensures InTrees(steps + [step]) ==> Tree(step.before)
    ensures ReadySteps(steps + [step], pending, stamp) ==> Ready(step.before, pending[|steps|].snapshot, stamp)
    ensures ReadySteps(steps + [step], pending, stamp) <==>
              forall i :: 0 <= i < |steps + [step]| && i < |pending| ==> Ready((steps + [step])[i].before, pending[i].snapshot, stamp)
  {
    hide Ready, Tree;
    var more := steps + [step];
    assert more[|steps|] == step;
    if InTrees(more) {
      assert InTrees(steps) by {
        forall i | 0 <= i < |steps| ensures Tree(steps[i].before) { assert more[i] == steps[i]; }
      }
    }
  }

  lemma ReadyStepsIs(steps: seq<Turn>, pending: seq<Pending>, stamp: string)
    requires forall i :: 0 <= i < |pending| ==> pending[i].snapshot.target.path != []
    ensures ReadySteps(steps, pending, stamp) <==>
              forall i :: 0 <= i < |steps| && i < |pending| ==> Ready(steps[i].before, pending[i].snapshot, stamp)
  {
    hide Ready;
  }

  lemma NoSteps(pending: seq<Pending>, stamp: string)
    requires forall i :: 0 <= i < |pending| ==> pending[i].snapshot.target.path != []
    ensures ReadySteps([], pending, stamp)
  {
  }

  lemma ReadyNow(ns: Nodes, now: Nodes, pending: seq<Pending>, n: nat, stamp: string,
                 writes: seq<Write>, states: seq<Nodes>, backups: set<Path>)
    requires Standing(ns, now, pending, n, stamp, writes, states, backups) && AllReady(ns, pending, stamp) && n < |pending|
    requires pending[n].snapshot.target.path != []
    ensures Ready(now, pending[n].snapshot, stamp) && Planned(pending, stamp)
  {
    hide *;
    StandingParts(ns, now, pending, n, stamp, writes, states, backups);
    PlannedOf(ns, pending, stamp);
    StillReady(ns, now, pending, n, stamp, writes, states, backups);
  }

  lemma PlannedOf(ns: Nodes, pending: seq<Pending>, stamp: string)
    ensures AllReady(ns, pending, stamp) ==> Planned(pending, stamp)
  {
    hide Planned, Separate, Ready;
  }

  /**
   `_apply`. `at` is the tick just after the failure that ended the run.

   Among any other actors: if nothing fails, the run succeeds exactly if every target it came to could be
   written when it came to it. Every write that landed found what planning had read and spared
   every other file (`steps`), and when one fails, the turns back go on from there, each from
   what the other actors made of the last, and change only what this run left, as it left it.
   Alone on the disk: if nothing fails and every target could be written before the run, it succeeds;
   a run that succeeds settles every target, keeps the pre-images and
   changes nothing else; a run that fails keeps every backup of the ledger, and if nothing
   fails after that, the disk is as the run found it, but for new backups.
   */
  method Apply(m: Machine, pending: seq<Pending>, stamp: string, umaskMode: nat, others: Others)
    returns (ok: bool, at: nat, writes: seq<Write>, ghost steps: seq<Turn>, ghost turns: seq<Turn>, ghost backups: set<Path>)
    requires forall i :: 0 <= i < |pending| ==> pending[i].snapshot.target.path != []
    modifies m
    ensures Connected(old(m.nodes), steps, others)
    ensures ok ==> AllLanded(steps, pending, stamp, umaskMode, writes) && |steps| == |pending| && turns == []
    ensures !ok ==> LastFailed(steps, pending, stamp, umaskMode, writes) && |turns| == |writes|
    ensures CarefulTurns(turns, writes) && Connected(Left(old(m.nodes), steps), turns, Later(others, |steps|))
    ensures m.nodes == Left(Left(old(m.nodes), steps), turns)
    ensures Alone(others) && Tree(old(m.nodes)) && Planned(pending, stamp) ==>
              && PreImages(old(m.nodes), m.nodes, writes)
              && (ok ==> AllSettled(old(m.nodes), m.nodes, pending, |pending|)
                         && Accounted(old(m.nodes), m.nodes, pending, |pending|, backups))
              && (!ok && m.Quiet(at, m.tick) ==> PutBack(old(m.nodes), m.nodes, backups))
    ensures m.Quiet(old(m.tick), m.tick) && InTrees(steps) ==>
              (ok <==> forall i :: 0 <= i < |steps| && i < |pending| ==> Ready(steps[i].before, pending[i].snapshot, stamp))
    ensures m.Quiet(old(m.tick), m.tick) && Alone(others) && Tree(old(m.nodes)) && AllReady(old(m.nodes), pending, stamp) ==> ok
  {
    hide *;
    ghost var ns, from, usual := m.nodes, m.tick, Alone(others) && Tree(m.nodes) && Planned(pending, stamp);
    writes, steps, turns, backups, at := [], [], [], {}, m.tick;
    ghost var states := [ns];
    NoneLanded(ns, pending, stamp, umaskMode, others);
    NoSteps(pending, stamp);
    PlannedOf(ns, pending, stamp);
    NothingWritten(ns);
    if usual { StandingStart(ns, pending, stamp); }
    var k := 0;
    while k < |pending|
      invariant 0 <= k <= |pending| && turns == [] && Addressed(writes) && from <= m.tick
      invariant InTrees(steps) ==> ReadySteps(steps, pending, stamp)
      invariant |steps| == k && AllLanded(steps, pending, stamp, umaskMode, writes) && Connected(ns, steps, others) && m.nodes == Left(ns, steps)
      invariant usual ==> Standing(ns, m.nodes, pending, k, stamp, writes, states, backups) && AllSettled(ns, m.nodes, pending, k)
    {
      ghost var held := m.nodes;
      m.nodes := others(k, m.nodes);
      AloneAt(others, k, held);
      ghost var before := m.nodes;
      var p := pending[k];
      if usual { StandingTree(ns, before, pending, k, stamp, writes, states, backups); }
      if usual && AllReady(ns, pending, stamp) { ReadyNow(ns, before, pending, k, stamp, writes, states, backups); }
      ghost var since0 := m.tick;
      var landed, recorded;
      landed, at, recorded := WriteTarget(m, p.snapshot, p.text, p.root, stamp, umaskMode);
      ghost var since, after := m.tick, m.nodes;
      ghost var step := Turn(before, after);
      SteppedIs(step, p, stamp, umaskMode, landed, m.Quiet(at, since), recorded);
      if landed { OneLanded(ns, steps, pending, stamp, umaskMode, writes, others, step, recorded.value); }
      else { OneFailed(ns, steps, pending, stamp, umaskMode, writes, others, step, recorded); }
      RecordedIs(writes, recorded);
      StepReady(steps, pending, stamp, step, landed);
      QuietWithin(m, from, since0, since, since);
      steps := steps + [step];
      if recorded.Some? {
        if usual {
          OutcomeParts(before, after, p.snapshot.target, p.text, stamp, landed, m.Quiet(at, since), recorded.value);
          StandingNext(ns, before, after, pending, k, stamp, writes, states, backups, recorded.value, landed, m.Quiet(at, since));
        }
        AddressedMore(writes, recorded.value);
        writes := writes + [recorded.value];
        states, backups := states + [after], Added(backups, recorded.value.backup);
        if usual { FailedRecorded(ns, after, pending, k + 1, stamp, writes, states, backups); }
      } else if usual {
        LandedRecorded(before, after, p.snapshot.target, p.text, stamp, landed, m.Quiet(at, since));
        backups := FailedUnrecorded(ns, before, after, pending, k, stamp, writes, states, backups, m.Quiet(at, since));
      }
      if !landed {
        AloneLater(others, k + 1);
        var reports;
        reports, turns := RollBack(m, writes, Later(others, k + 1), states, backups);
        QuietSplit(m, at, since, m.tick);
        QuietSplit(m, from, since, m.tick);
        if usual {
          RollableApart(ns, after, writes, states, backups);
          Concluded(ns, after, m.nodes, writes, states, backups);
        }
        return false, at, writes, steps, turns, backups;
      }
      k := k + 1;
    }
    ReadyStepsIs(steps, pending, stamp);
    if usual { Finished(ns, m.nodes, pending, stamp, writes, states, backups); }
    NoTurns(m.nodes, writes, Later(others, |steps|), backups);
    return true, m.tick, writes, steps, turns, backups;
  }
}
