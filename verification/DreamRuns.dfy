/**
 The rows and report files of runs. The run that holds the lock closes what a crash left, runs,
 prunes and finishes; runs without the lock record themselves as skipped meanwhile, and end when
 they like. Any step may fail, and the process may die before any of them.
 */
module DreamRuns {
  import opened Basics
  import opened ReportWriter

  type RunId = string
  type Time = int

  datatype Status = Running | Completed | Failed | Skipped

  datatype Row = Row(status: Status, startedAt: Time)

  /** What a run without the lock does: its row, then its report, then its row again if that failed; and its end. */
  datatype Other = Enter(id: RunId, at: Time) | Note(id: RunId, footer: Option<Status>) | Fail(id: RunId) | Leave(id: RunId)

  /** The order of a row's statuses; nobody but the run itself touches a running row. */
  ghost predicate Undisturbed(rows: map<RunId, Row>, rows': map<RunId, Row>) {
    && (forall id :: id in rows ==> id in rows' && rows'[id].startedAt == rows[id].startedAt)
    && (forall id :: id in rows ==> rows'[id].status == rows[id].status || (rows[id].status.Skipped? && rows'[id].status.Failed?))
    && forall id :: id in rows' && id !in rows ==> rows'[id].status.Skipped? || rows'[id].status.Failed?
  }

  ghost predicate OneRunning(rows: map<RunId, Row>) {
    forall a, b :: a in rows && b in rows && rows[a].status.Running? && rows[b].status.Running? ==> a == b
  }

  function RunningIds(rows: map<RunId, Row>): set<RunId> { set id | id in rows && rows[id].status.Running? }

  /** `runs_before`. */
  function Prunable(rows: map<RunId, Row>, cutoff: Time): set<RunId> {
    set id | id in rows && rows[id].startedAt < cutoff && !rows[id].status.Running?
  }

  /** One process that takes the lock: a run, or a reading of the reports, which prunes them first. */
  datatype Locked = Whole(id: RunId, now: Time, lines: nat, breaks: bool, cutoff: Time) | Reading(cutoff: Time)

  /** The rows, the report files and the runs without the lock still at work; and what has been so far. */
  datatype World = World(
    rows: map<RunId, Row>,
    files: set<RunId>,
    skipping: set<RunId>,
    used: set<RunId>,                  // every id ever drawn; a new one is none of them
    footers: set<(RunId, Status)>,     // every footer ever written
    entered: map<RunId, Time>,         // the runs without the lock so far, and when they started
    caught: set<RunId>)                // those a retention listed while they were at work

  /**
   What holds wherever every process stops: one running row at most, a completed row only with its
   completed footer written, and no report file without its row, unless a retention listed that run
   while it was still at work.
   */
  ghost predicate Sound(w: World) {
    && OneRunning(w.rows)
    && (forall id :: id in w.rows && w.rows[id].status.Completed? ==> (id, Completed) in w.footers)
    && (forall id :: id in w.files ==> id in w.rows || id in w.caught)
    && (forall id :: id in w.skipping ==> id in w.rows || id in w.caught)
    && (forall id :: id in w.skipping || id in w.caught ==> id in w.entered)
    && (forall id :: id in w.entered || id in w.rows ==> id in w.used)
    && forall id :: id in w.entered && id in w.rows ==>
         w.rows[id].startedAt == w.entered[id] && (w.rows[id].status.Skipped? || w.rows[id].status.Failed?)
  }

  /** Runs without the lock come with ids of their own, and only they are at work. */
  ghost predicate Arrived(w: World, w': World) {
    && w.used <= w'.used && w.footers <= w'.footers && w.caught <= w'.caught
    && (forall id :: id in w.entered ==> id in w'.entered && w'.entered[id] == w.entered[id])
    && (forall id :: id in w'.entered && id !in w.entered ==> id !in w.used)
    && forall id :: id in w'.skipping ==> id in w.skipping || id !in w.used
  }

  /** Others have acted: nothing of a run that is not theirs has changed. */
  ghost predicate Aside(w: World, w': World) {
    && Undisturbed(w.rows, w'.rows) && Arrived(w, w') && w.files <= w'.files && w'.caught == w.caught
    && (forall id :: id in w'.files && id !in w.files ==> id in w.skipping || id !in w.used)
    && (forall id :: id in w'.rows && id !in w.rows ==> id in w'.entered && id !in w.used)
    && forall id :: id in w.rows && id !in w.entered ==> w'.rows[id] == w.rows[id]
  }

  /** Nothing but `mine`, and what others do with their own, has changed. */
  ghost predicate Spared(w: World, w': World, mine: set<RunId>) {
    && Arrived(w, w')
    && (forall r :: r in w.rows && r !in mine ==> r in w'.rows && w'.rows[r].startedAt == w.rows[r].startedAt)
    && (forall r :: r in w.rows && r !in mine && r !in w.entered ==> w'.rows[r] == w.rows[r])
    && forall r :: r in w'.rows && r !in w.rows && r !in mine ==> r in w'.entered && r !in w.used
  }

  lemma AsideTwice(a: World, b: World, c: World)
    requires Sound(a) && Sound(b) && Aside(a, b) && Aside(b, c)
    ensures Aside(a, c)
  {
  }

  lemma AsideSpares(w: World, w': World)
    requires Sound(w) && Aside(w, w')
    ensures Spared(w, w', {}) && w'.caught == w.caught && RunningIds(w'.rows) == RunningIds(w.rows)
  {
    forall r ensures r in RunningIds(w'.rows) <==> r in RunningIds(w.rows) {}
  }

  lemma SparedTwice(a: World, b: World, c: World, mine: set<RunId>, more: set<RunId>, all: set<RunId>)
    requires Sound(a) && Spared(a, b, mine) && Spared(b, c, more) && mine <= all && more <= all
    ensures Spared(a, c, all)
  {
  }

  lemma SparedMore(w: World, w': World, mine: set<RunId>, more: set<RunId>)
    requires Spared(w, w', mine) && mine <= more
    ensures Spared(w, w', more)
  {
  }

  // ---- steps, as changes of the world ----------------------------------------------------------

  function Appended(w: World, id: RunId, footer: Option<Status>): World {
    w.(files := w.files + {id}, footers := w.footers + if footer.Some? then {(id, footer.value)} else {})
  }

  lemma AppendedIs(w: World, id: RunId, footer: Option<Status>)
    requires Sound(w)
    ensures id in w.skipping ==> Sound(Appended(w, id, footer)) && Aside(w, Appended(w, id, footer))
    ensures id in w.rows ==> Sound(Appended(w, id, footer)) && Spared(w, Appended(w, id, footer), {})
  {
  }

  lemma EnteredIs(w: World, id: RunId, at: Time)
    requires Sound(w) && id !in w.used
    ensures var w' := w.(rows := w.rows[id := Row(Skipped, at)], skipping := w.skipping + {id}, used := w.used + {id}, entered := w.entered[id := at]);
            Sound(w') && Aside(w, w')
  {
  }

  lemma FailedIs(w: World, id: RunId)
    requires Sound(w) && id in w.skipping && id in w.rows
    ensures var w' := w.(rows := w.rows[id := w.rows[id].(status := Failed)]); Sound(w') && Aside(w, w')
  {
  }

  lemma LeftIs(w: World, id: RunId)
    requires Sound(w)
    ensures var w' := w.(skipping := w.skipping - {id}); Sound(w') && Aside(w, w') && Aside(w, w)
  {
  }

  lemma FinishedIs(w: World, id: RunId, status: Status)
    requires Sound(w) && id in w.rows && id !in w.entered && !status.Running? && (status.Completed? ==> (id, Completed) in w.footers)
    ensures var w' := w.(rows := w.rows[id := w.rows[id].(status := status)]);
            Sound(w') && Spared(w, w', {id}) && RunningIds(w'.rows) == RunningIds(w.rows) - {id}
  {
    var w' := w.(rows := w.rows[id := w.rows[id].(status := status)]);
    forall r ensures r in RunningIds(w'.rows) <==> r in RunningIds(w.rows) - {id} {}
  }

  lemma StartedIs(w: World, id: RunId, at: Time)
    requires Sound(w) && RunningIds(w.rows) == {} && id !in w.used
    ensures var w' := w.(rows := w.rows[id := Row(Running, at)], used := w.used + {id});
            Sound(w') && Spared(w, w', {id}) && RunningIds(w'.rows) == {id}
  {
    forall r | r in w.rows ensures !w.rows[r].status.Running? { assert r !in RunningIds(w.rows); }
  }

  lemma UnlinkedIs(w: World, r: RunId)
    requires Sound(w)
    ensures var w' := w.(files := w.files - {r}); Sound(w') && Spared(w, w', {}) && RunningIds(w'.rows) == RunningIds(w.rows)
  {
  }

  lemma DeletedIs(w: World, r: RunId)
    requires Sound(w) && r in w.rows && !w.rows[r].status.Running? && (r in w.skipping || r in w.files ==> r in w.caught)
    ensures var w' := w.(rows := w.rows - {r});
            Sound(w') && Spared(w, w', {r}) && RunningIds(w'.rows) == RunningIds(w.rows)
  {
    var w' := w.(rows := w.rows - {r});
    forall q ensures q in RunningIds(w'.rows) <==> q in RunningIds(w.rows) {}
  }

  /** After others acted, a row is where it was, as quiet as it was, with no new file unless its run is at work. */
  lemma RowAside(w: World, w': World, r: RunId)
    requires Sound(w) && Aside(w, w') && r in w.rows
    ensures r in w'.rows && w'.rows[r].startedAt == w.rows[r].startedAt && (w'.rows[r].status.Running? ==> w.rows[r].status.Running?)
    ensures (r in w'.skipping ==> r in w.skipping) && (r in w'.files ==> r in w.files || r in w.skipping)
    ensures (r in w'.entered ==> r in w.entered) && (r !in w.entered ==> w'.rows[r] == w.rows[r])
  {
  }

  // ---- retention ---------------------------------------------------------------------------

  /** The retention lists what it will take; some of it may be at work. */
  function Listed(w: World, cutoff: Time): World { w.(caught := w.caught + Prunable(w.rows, cutoff) * w.skipping) }

  lemma ListedIs(w: World, cutoff: Time)
    requires Sound(w)
    ensures Sound(Listed(w, cutoff)) && Spared(w, Listed(w, cutoff), {})
    ensures forall r :: r in Prunable(w.rows, cutoff) ==>
              r in w.rows && !w.rows[r].status.Running? && (r in w.skipping ==> r in Listed(w, cutoff).caught)
    ensures forall r :: r in Listed(w, cutoff).caught && r !in w.caught ==> r in w.entered && w.entered[r] < cutoff
  {
  }

  /** One run of the retention is over: its row is gone, or as it was. */
  ghost predicate One(w: World, w': World, r: RunId, gone: bool) {
    && Spared(w, w', {r}) && w'.caught == w.caught && RunningIds(w'.rows) == RunningIds(w.rows)
    && if gone then r !in w'.rows
       else r in w'.rows && r in w.rows && !w'.rows[r].status.Running? && w'.rows[r].startedAt == w.rows[r].startedAt
            && (r !in w.entered ==> w'.rows[r] == w.rows[r])
  }

  /** What is gone and what is left of the runs a retention takes. */
  ghost predicate Pruned(w: World, w': World, removed: set<RunId>, all: set<RunId>) {
    && removed <= all && Spared(w, w', removed) && RunningIds(w'.rows) == RunningIds(w.rows) && w'.caught == w.caught
    && (forall r :: r in all && r !in removed ==> r in w.rows && r in w'.rows && !w'.rows[r].status.Running?)
    && (forall r :: r in all && r in w'.skipping ==> r in w.caught)
    && forall r :: r in removed ==> r !in w'.rows
  }

  lemma PrunedNext(w: World, mid: World, w': World, removed: set<RunId>, all: set<RunId>, r: RunId, gone: bool)
    requires Sound(w) && all <= w.used && Pruned(w, mid, removed, all) && r in all && r !in removed && One(mid, w', r, gone)
    ensures Pruned(w, w', if gone then removed + {r} else removed, all)
  {
    hide Sound, Spared;
    var more := if gone then removed + {r} else removed;
    PrunedSpares(w, mid, w', removed, all, r, gone);
    forall q | q in all ensures q in w'.rows ==> q in mid.rows { StillGone(mid, w', r, w, removed, q); }
    forall q | q in all && q in w'.skipping ensures q in w.caught { StillGone(mid, w', r, w, removed, q); }
    forall q | q in all && q !in more ensures q in w.rows && q in w'.rows && !w'.rows[q].status.Running? {
      StillThere(mid, w', r, q);
      assert q in mid.rows && q !in RunningIds(mid.rows) && q !in RunningIds(w'.rows);
    }
  }

  lemma StillGone(mid: World, w': World, r: RunId, w: World, removed: set<RunId>, q: RunId)
    requires Spared(mid, w', {r}) && Spared(w, mid, removed) && q in w.used
    ensures q != r && q in w'.rows ==> q in mid.rows
    ensures q in w'.skipping ==> q in mid.skipping
  {
  }

  lemma StillThere(mid: World, w': World, r: RunId, q: RunId)
    requires Spared(mid, w', {r})
    ensures q != r && q in mid.rows ==> q in w'.rows
  {
  }

  lemma PrunedSpares(w: World, mid: World, w': World, removed: set<RunId>, all: set<RunId>, r: RunId, gone: bool)
    requires Sound(w) && r in all && all <= w.used && Pruned(w, mid, removed, all) && r !in removed && One(mid, w', r, gone)
    ensures Spared(w, w', if gone then removed + {r} else removed)
  {
    hide Sound, Spared;
    SparedTwice(w, mid, w', removed, {r}, removed + {r});
    if !gone { KeptSpares(w, mid, w', removed, r); }
  }

  lemma KeptSpares(w: World, mid: World, w': World, removed: set<RunId>, r: RunId)
    requires Sound(w) && Spared(w, w', removed + {r}) && Spared(w, mid, removed) && r in w.rows && r !in removed && One(mid, w', r, false)
    ensures Spared(w, w', removed)
  {
    hide RunningIds;
    assert r in w.used && w'.rows[r].startedAt == mid.rows[r].startedAt == w.rows[r].startedAt;
  }

  lemma PrunedNone(w: World, cutoff: Time)
    requires Sound(w)
    ensures var l, all := Listed(w, cutoff), Prunable(w.rows, cutoff); Sound(l) && Pruned(l, l, {}, all) && all <= l.used
  {
  }

  /** Nothing but some rows and their files is gone. */
  ghost predicate Only(w: World, w': World, removed: set<RunId>) {
    w'.rows == w.rows - removed && w'.files == w.files - removed && w'.skipping == w.skipping
  }

  /** The rows and files after a retention in which nothing fails and nobody else acts. */
  function AfterRetention(w: World, cutoff: Time): (map<RunId, Row>, set<RunId>) {
    (w.rows - Prunable(w.rows, cutoff), w.files - Prunable(w.rows, cutoff))
  }

  /** One more row and its file. */
  lemma OnlyNext(w: World, mid: World, w': World, removed: set<RunId>, r: RunId)
    requires Only(w, mid, removed) && Only(mid, w', {r})
    ensures Only(w, w', removed + {r})
  {
  }

  /** The report files without a row. */
  function Unlisted(w: World): set<RunId> { w.files - w.rows.Keys }

  /** A run without the lock, still at work, writes to its report after the retention. */
  lemma OneMoreReport(w: World, w': World, id: RunId, cutoff: Time)
    requires Sound(w) && id in w.skipping && id in w.rows
    requires (w'.rows, w'.files) == AfterRetention(w, cutoff)
    ensures Unlisted(Appended(w', id, None)) <= Unlisted(w) <==> w.rows[id].startedAt >= cutoff
  {
    var after := Appended(w', id, None);
    if w.rows[id].startedAt < cutoff {
      assert id in Prunable(w.rows, cutoff) && id in Unlisted(after) && id !in Unlisted(w);
    } else {
      forall f | f in Unlisted(after) ensures f in Unlisted(w) { assert f in w'.files; }
    }
  }

  // ---- what a run comes to ---------------------------------------------------------------------

  lemma SparedNone(w: World, mine: set<RunId>)
    ensures Spared(w, w, mine)
  {
  }

  lemma RunningIsOwn(w: World, id: RunId)
    requires Sound(w) && id in RunningIds(w.rows)
    ensures id in w.rows && id !in w.entered && w.rows[id].status.Running?
  {
  }

  lemma SameStart(w: World, w': World, mine: set<RunId>, r: RunId)
    requires Sound(w) && Spared(w, w', mine) && r in w.rows && r !in mine
    ensures r in w'.rows && w'.rows[r].startedAt == w.rows[r].startedAt && (r !in w.entered ==> r !in w'.entered)
  {
  }

  lemma OwnStays(w: World, w': World, id: RunId)
    requires Sound(w) && Spared(w, w', {}) && id in w.rows && id !in w.entered
    ensures id in w'.rows && w'.rows[id] == w.rows[id]
  {
  }

  lemma FootersStay(w: World, w': World, mine: set<RunId>)
    requires Spared(w, w', mine)
    ensures w.footers <= w'.footers
  {
  }

  /** A process that holds the lock until now caught only runs that started before its cutoff. */
  ghost predicate Caught(w: World, w': World, cutoff: Time) {
    forall r :: r in w'.caught && r !in w.caught ==> r in w'.entered && w'.entered[r] < cutoff
  }

  lemma CaughtNone(w: World, w': World, cutoff: Time)
    requires w'.caught == w.caught
    ensures Caught(w, w', cutoff)
  {
  }

  lemma CaughtStays(w: World, mid: World, w': World, mine: set<RunId>, cutoff: Time)
    requires Caught(w, mid, cutoff) && Spared(mid, w', mine) && w'.caught == mid.caught
    ensures Caught(w, w', cutoff)
  {
  }

  lemma SparedFewer(w: World, w': World, mine: set<RunId>, more: set<RunId>)
    requires Spared(w, w', mine)
    requires forall r :: r in mine && r !in more ==> r !in w.rows && (r in w'.rows ==> r in w'.entered && r !in w.used)
    ensures Spared(w, w', more)
  {
  }

  /** A retention after a stretch in which only others changed anything. */
  lemma RetentionSpares(w: World, one: World, two: World, removed: set<RunId>, cutoff: Time)
    requires Sound(w) && Sound(one) && Spared(w, one, {}) && one.caught == w.caught
    requires RunningIds(one.rows) == RunningIds(w.rows)
    requires Pruned(Listed(one, cutoff), two, removed, Prunable(one.rows, cutoff))
    ensures Spared(w, two, Prunable(w.rows, cutoff)) && Caught(w, two, cutoff) && RunningIds(two.rows) == RunningIds(one.rows)
  {
    var listed := Listed(one, cutoff);
    ListedIs(one, cutoff);
    SparedTwice(one, listed, two, {}, removed, removed);
    SparedTwice(w, one, two, {}, removed, removed);
    forall r | r in removed ensures (r in w.rows ==> r in Prunable(w.rows, cutoff)) && r !in two.rows {
      assert r in RunningIds(one.rows) <==> r in RunningIds(w.rows);
    }
    SparedFewer(w, two, removed, Prunable(w.rows, cutoff));
  }

  /** The rows a run may touch. */
  ghost function Reach(rows: map<RunId, Row>, cutoff: Time, id: RunId): set<RunId> {
    RunningIds(rows) + Prunable(rows, cutoff) + {id}
  }

  /** Nothing happened under this run's id. */
  lemma Unstarted(w: World, w': World, mine: set<RunId>, id: RunId)
    requires Spared(w, w', mine)
    ensures id in w'.rows && id !in w.rows && id !in mine ==> id in w'.entered
  {
  }

  lemma RunSpares(w: World, two: World, three: World, id: RunId, cutoff: Time)
    requires Sound(w) && Sound(two) && Spared(w, two, RunningIds(w.rows) + {id}) && Spared(two, three, Prunable(two.rows, cutoff) + {id})
    requires Caught(w, two, cutoff) && Caught(two, three, cutoff) && two.caught == w.caught && RunningIds(two.rows) == {id} && id !in w.used
    ensures Spared(w, three, Reach(w.rows, cutoff, id)) && Caught(w, three, cutoff)
  {
    var mine, goal := (RunningIds(w.rows) + {id}) + (Prunable(two.rows, cutoff) + {id}), Reach(w.rows, cutoff, id);
    SparedTwice(w, two, three, RunningIds(w.rows) + {id}, Prunable(two.rows, cutoff) + {id}, mine);
    forall r | r in mine && r !in goal ensures r !in w.rows && r !in w.used && r in three.entered {
      assert r in two.rows;
    }
    SparedFewer(w, three, mine, goal);
  }

  lemma ArrivedStays(w: World, w': World, mine: set<RunId>)
    requires Spared(w, w', mine)
    ensures Arrived(w, w')
  {
  }

  lemma ReadingCatches(w: World, w': World, removed: set<RunId>, cutoff: Time)
    requires Sound(w) && Pruned(Listed(w, cutoff), w', removed, Prunable(w.rows, cutoff))
    ensures Caught(w, w', cutoff) && Arrived(w, w')
  {
    ListedIs(w, cutoff);
    SparedTwice(w, Listed(w, cutoff), w', {}, removed, removed);
  }

  lemma CaughtIs(w: World, w': World, cutoff: Time)
    requires Caught(w, w', cutoff) && Arrived(w, w')
    ensures forall r :: r in w'.caught && r !in w.caught ==> r in w'.entered && w'.entered[r] < cutoff
    ensures forall r :: r in w.entered ==> r in w'.entered && w'.entered[r] == w.entered[r]
  {
  }

  lemma CaughtFiles(w: World)
    requires Sound(w)
    ensures forall r :: r in w.files ==> r in w.rows || r in w.caught
  {
  }

  // ---- a run that nothing and nobody disturbs --------------------------------------------------

  /** Some runs found running are closed: their rows say failed, their reports are there. */
  ghost predicate Shut(w: World, w': World, ids: set<RunId>) {
    && w'.rows == (map r | r in w.rows :: if r in ids then w.rows[r].(status := Failed) else w.rows[r])
    && w'.files == w.files + ids && w'.skipping == w.skipping && w'.used == w.used
  }

  lemma ShutNone(w: World)
    ensures Shut(w, w, {})
  {
  }

  lemma ShutUsed(w: World, w': World, ids: set<RunId>)
    ensures Shut(w, w', ids) ==> w'.used == w.used
  {
  }

  lemma UsedAre(w: World, id: RunId)
    requires Sound(w) && id !in w.used
    ensures id !in w.rows
  {
  }

  lemma ShutNext(w: World, mid: World, w': World, ids: set<RunId>, r: RunId)
    requires Shut(w, mid, ids) && Shut(mid, w', {r})
    ensures Shut(w, w', ids + {r})
  {
  }

  /** The run's row has come to its end, and its report is there. */
  ghost predicate Ran(w: World, w': World, id: RunId, status: Status) {
    && id in w.rows && w'.rows == w.rows[id := w.rows[id].(status := status)]
    && w'.files == w.files + {id} && w'.skipping == w.skipping && w'.used == w.used
  }

  /** The retention's rows and reports are gone, and the run's own row is completed. */
  ghost predicate Worked(w: World, w': World, id: RunId, cutoff: Time) {
    && id in w.rows
    && w'.rows == (w.rows - Prunable(w.rows, cutoff))[id := w.rows[id].(status := Completed)]
    && w'.files == (w.files - Prunable(w.rows, cutoff)) + {id}
  }

  lemma WorkIs(w: World, one: World, two: World, w': World, id: RunId, lines: nat, cutoff: Time)
    requires one == if lines == 0 then w else Appended(w, id, None)
    requires (two.rows, two.files) == AfterRetention(one, cutoff) && Ran(two, w', id, Completed)
    ensures Worked(w, w', id, cutoff)
  {
  }

  function ClosedRows(rows: map<RunId, Row>): map<RunId, Row> {
    map id | id in rows :: if rows[id].status.Running? then rows[id].(status := Failed) else rows[id]
  }

  /**
   A run from its start to its end: what a crash left is closed, then, unless the phases break, what is
   old goes, what was just closed included, and the new row is completed; otherwise it is failed.
   */
  ghost predicate Dreamt(w: World, w': World, id: RunId, now: Time, breaks: bool, cutoff: Time) {
    var rows, gone := ClosedRows(w.rows), Prunable(ClosedRows(w.rows), cutoff);
    var files := w.files + RunningIds(w.rows);
    if breaks then w'.rows == rows[id := Row(Failed, now)] && w'.files == files + {id}
    else w'.rows == (rows - gone)[id := Row(Completed, now)] && w'.files == (files - gone) + {id}
  }

  lemma BrokeIs(w: World, one: World, two: World, three: World, w': World, id: RunId, now: Time, lines: nat, cutoff: Time)
    requires Shut(w, one, RunningIds(w.rows)) && two.rows == one.rows[id := Row(Running, now)] && two.files == one.files
    requires three.rows == two.rows && three.files == two.files + (if lines == 0 then {} else {id}) && Ran(three, w', id, Failed)
    ensures Dreamt(w, w', id, now, true, cutoff)
  {
    ShutIs(w, one);
    assert one.rows[id := Row(Running, now)][id := Row(Failed, now)] == one.rows[id := Row(Failed, now)];
  }

  lemma CompletedIs(w: World, one: World, two: World, w': World, id: RunId, now: Time, cutoff: Time)
    requires Shut(w, one, RunningIds(w.rows)) && two.rows == one.rows[id := Row(Running, now)] && two.files == one.files && id !in w.rows
    requires Worked(two, w', id, cutoff)
    ensures Dreamt(w, w', id, now, false, cutoff)
  {
    ShutIs(w, one);
    assert Prunable(two.rows, cutoff) == Prunable(one.rows, cutoff);
    assert (two.rows - Prunable(two.rows, cutoff))[id := Row(Completed, now)] == (one.rows - Prunable(one.rows, cutoff))[id := Row(Completed, now)];
  }

  lemma ShutIs(w: World, w': World)
    requires Shut(w, w', RunningIds(w.rows))
    ensures w'.rows == ClosedRows(w.rows)
  {
  }

  lemma AppendedTwice(w: World, id: RunId, footer: Option<Status>, more: Option<Status>)
    ensures footer.None? ==> Appended(Appended(w, id, footer), id, more) == Appended(w, id, more)
  {
    var a := Appended(w, id, footer);
    assert a.files + {id} == a.files && w.footers + {} == w.footers;
  }

  /** A row of its own nobody else touches. */
  lemma RowStays(w: World, w': World, mine: set<RunId>, id: RunId)
    requires Spared(w, w', mine) && id in w.rows && id !in w.entered && id !in mine
    ensures id in w'.rows && w'.rows[id] == w.rows[id]
  {
  }

  // ---- small readings --------------------------------------------------------------------------

  lemma NewId(w: World, w': World, id: RunId)
    requires Sound(w) && Sound(w') && Aside(w, w')
    ensures id !in w'.used ==> id !in w.used && id !in w'.rows && id !in w'.entered
  {
  }

  lemma OneKept(w: World, w': World, r: RunId)
    requires Sound(w) && Spared(w, w', {}) && r in w.rows && r in w'.rows && !w'.rows[r].status.Running?
    requires w'.caught == w.caught && RunningIds(w'.rows) == RunningIds(w.rows)
    ensures One(w, w', r, false)
  {
    SparedMore(w, w', {}, {r});
  }

  lemma OneTwice(w: World, mid: World, w': World, r: RunId, gone: bool)
    requires Sound(w) && r in w.rows && Spared(w, mid, {}) && One(mid, w', r, gone)
    requires mid.caught == w.caught && RunningIds(mid.rows) == RunningIds(w.rows)
    ensures One(w, w', r, gone)
  {
    SparedTwice(w, mid, w', {}, {r}, {r});
  }

  lemma OnlyNone(w: World)
    ensures Only(w, w, {})
  {
  }

  lemma OnlyIs(w: World, w': World, removed: set<RunId>)
    ensures Only(w, w', removed) <==> w'.rows == w.rows - removed && w'.files == w.files - removed && w'.skipping == w.skipping
  {
  }

  lemma ListedParts(w: World, cutoff: Time)
    ensures Listed(w, cutoff) == w.(caught := w.caught + Prunable(w.rows, cutoff) * w.skipping)
    ensures var l := Listed(w, cutoff); l.rows == w.rows && l.files == w.files && l.skipping == w.skipping
    ensures AfterRetention(w, cutoff) == (w.rows - Prunable(w.rows, cutoff), w.files - Prunable(w.rows, cutoff))
  {
  }

  lemma PrunedLeft(w: World, mid: World, removed: set<RunId>, all: set<RunId>, r: RunId)
    requires Pruned(w, mid, removed, all) && r in all && r !in removed
    ensures r in mid.rows && !mid.rows[r].status.Running? && (r in mid.skipping ==> r in mid.caught)
  {
  }

  class Dream {
    var rows: map<RunId, Row>
    var files: set<RunId>
    var skipping: set<RunId>
    var used: set<RunId>
    var tick: nat
    const fates: nat -> Fate
    const others: nat -> seq<Other>
    ghost var footers: set<(RunId, Status)>
    ghost var entered: map<RunId, Time>
    ghost var caught: set<RunId>

    ghost function Now(): World
      reads this
    {
      World(rows, files, skipping, used, footers, entered, caught)
    }

    ghost predicate Inv()
      reads this
    {
      Sound(Now())
    }

    constructor (fates: nat -> Fate, others: nat -> seq<Other>)
      ensures Inv() && Now() == World(map[], {}, {}, {}, {}, map[], {}) && tick == 0
      ensures this.fates == fates && this.others == others
    {
      this.fates, this.others := fates, others;
      rows, files, skipping, used, tick, footers, entered, caught := map[], {}, {}, {}, 0, {}, map[], {};
    }

    /** `start_run` of a run without the lock. */
    method Arrive(id: RunId, at: Time)
      requires Inv()
      modifies this
      ensures Inv() && tick == old(tick) && Aside(old(Now()), Now())
      ensures id !in old(used) ==> rows == old(rows)[id := Row(Skipped, at)] && files == old(files) && skipping == old(skipping) + {id}
    {
      hide Sound, Aside;
      ghost var w := Now();
      LeftIs(w, id);
      if id !in used {
        EnteredIs(w, id, at);
        rows, skipping, used := rows[id := Row(Skipped, at)], skipping + {id}, used + {id};
        entered := entered[id := at];
      }
    }

    /** An append to its report, a footer among them; its row may be gone. */
    method WriteOwn(id: RunId, footer: Option<Status>)
      requires Inv()
      modifies this
      ensures Inv() && tick == old(tick) && Aside(old(Now()), Now())
      ensures Now() == if id in old(skipping) then Appended(old(Now()), id, footer) else old(Now())
    {
      hide Sound, Aside;
      ghost var w := Now();
      LeftIs(w, id);
      AppendedIs(w, id, footer);
      if id in skipping {
        files := files + {id};
        footers := footers + if footer.Some? then {(id, footer.value)} else {};
      }
    }

    /** `finish_run` after its report failed; a row that is gone stays gone. */
    method FailOwn(id: RunId)
      requires Inv()
      modifies this
      ensures Inv() && tick == old(tick) && Aside(old(Now()), Now())
      ensures Now() == if id in old(skipping) && id in old(rows) then old(Now()).(rows := old(rows)[id := old(rows)[id].(status := Failed)])
                       else old(Now())
    {
      hide Sound, Aside;
      ghost var w := Now();
      LeftIs(w, id);
      if id in skipping && id in rows {
        FailedIs(w, id);
        rows := rows[id := rows[id].(status := Failed)];
      }
    }

    /** One step of `_skipped`, by whoever runs without the lock. */
    method Act(o: Other)
      requires Inv()
      modifies this
      ensures Inv() && tick == old(tick) && Aside(old(Now()), Now())
    {
      match o
      case Enter(id, at) => Arrive(id, at);
      case Note(id, footer) => WriteOwn(id, footer);
      case Fail(id) => FailOwn(id);
      case Leave(id) =>
        LeftIs(Now(), id);
        skipping := skipping - {id};
    }

    /** Every step in a stretch of time lands, and, when `alone`, nobody else acts in it. */
    predicate Lands(from: nat, to: nat, alone: bool) {
      forall k :: from <= k < to ==> fates(k).Lands? && (alone ==> others(k) == [])
    }

    /** What happens to the next step, once others have acted. */
    method Turn() returns (e: Ended)
      requires Inv()
      modifies this
      ensures Inv() && Aside(old(Now()), Now()) && tick == old(tick) + 1
      ensures Lands(old(tick), tick, false) ==> e.Went?
      ensures Lands(old(tick), tick, true) ==> Now() == old(Now())
    {
      hide Sound, Aside;
      var now := tick;
      ghost var w := Now();
      LeftIs(w, "");
      var todo := others(now);
      var i := 0;
      while i < |todo|
        invariant i <= |todo| && Inv() && Aside(w, Now()) && tick == now
        invariant i == 0 ==> Now() == w
      {
        ghost var mid := Now();
        Act(todo[i]);
        AsideTwice(w, mid, Now());
        i := i + 1;
      }
      tick := now + 1;
      e := match fates(now) case Lands => Went case Fails => Raised case Dies => Killed;
      assert Lands(now, tick, false) ==> fates(now).Lands?;
      assert Lands(now, tick, true) ==> fates(now).Lands? && others(now) == [];
    }

    /** `report.line` and the like, or a footer: the file is there from the first append on. */
    method Append(id: RunId, footer: Option<Status>) returns (e: Ended)
      requires Inv() && id in rows
      modifies this
      ensures Inv() && Spared(old(Now()), Now(), {}) && RunningIds(rows) == RunningIds(old(rows)) && caught == old(caught)
      ensures id in rows && old(tick) <= tick && (e.Went? ==> id in files && (footer.Some? ==> (id, footer.value) in footers))
      ensures Lands(old(tick), tick, false) ==> e.Went?
      ensures Lands(old(tick), tick, true) ==> Now() == Appended(old(Now()), id, footer)
    {
      hide Sound, Aside, Spared, Lands;
      ghost var w := Now();
      e := Turn();
      ghost var mid := Now();
      RowAside(w, mid, id);
      AsideSpares(w, mid);
      AppendedIs(mid, id, footer);
      if e.Went? {
        files := files + {id};
        footers := footers + if footer.Some? then {(id, footer.value)} else {};
        SparedTwice(w, mid, Now(), {}, {}, {});
      }
      LandsBoth(old(tick), tick);
    }

    /** `finish_run`. */
    method FinishRun(id: RunId, status: Status) returns (e: Ended)
      requires Inv() && id in rows && id !in entered && !status.Running?
      requires status.Completed? ==> (id, Completed) in footers
      modifies this
      ensures Inv() && Spared(old(Now()), Now(), {id}) && caught == old(caught) && old(tick) <= tick
      ensures id in rows && id !in entered && rows[id].startedAt == old(rows)[id].startedAt
      ensures rows[id].status == if e.Went? then status else old(rows)[id].status
      ensures RunningIds(rows) == RunningIds(old(rows)) - if e.Went? then {id} else {}
      ensures Lands(old(tick), tick, false) ==> e.Went?
      ensures Lands(old(tick), tick, true) ==> Now() == old(Now()).(rows := old(rows)[id := old(rows)[id].(status := status)])
    {
      hide Sound, Aside, Spared, Lands;
      ghost var w := Now();
      e := Turn();
      ghost var mid := Now();
      RowAside(w, mid, id);
      AsideSpares(w, mid);
      FootersStay(w, mid, {});
      SparedMore(w, mid, {}, {id});
      if e.Went? {
        FinishedIs(mid, id, status);
        rows := rows[id := rows[id].(status := status)];
        SparedTwice(w, mid, Now(), {}, {id}, {id});
      }
      LandsBoth(old(tick), tick);
    }

    /** `start_run` of the run that holds the lock. */
    method StartRun(id: RunId, at: Time) returns (e: Ended)
      requires Inv() && RunningIds(rows) == {}
      modifies this
      ensures Inv() && Spared(old(Now()), Now(), {id}) && caught == old(caught) && old(tick) <= tick
      ensures if e.Went? then id in rows && rows[id] == Row(Running, at) && id !in entered && id !in old(used) && RunningIds(rows) == {id}
              else RunningIds(rows) == {} && Spared(old(Now()), Now(), {})
      ensures Lands(old(tick), tick, true) ==>
                if id in old(used) then e.Raised? && Now() == old(Now())
                else e.Went? && Now() == old(Now()).(rows := old(rows)[id := Row(Running, at)], used := old(used) + {id})
    {
      hide Sound, Aside, Spared, Lands;
      ghost var w := Now();
      e := Turn();
      ghost var mid := Now();
      AsideSpares(w, mid);
      SparedMore(w, mid, {}, {id});
      NewId(w, mid, id);
      LandsBoth(old(tick), tick);
      if e.Went? {
        if id in used { return Raised; }
        StartedIs(mid, id, at);
        rows, used := rows[id := Row(Running, at)], used + {id};
        SparedTwice(w, mid, Now(), {}, {id}, {id});
      }
    }

    /** `unlink`, and the row is still there. */
    method Unlink(r: RunId) returns (e: Ended)
      requires Inv() && r in rows && !rows[r].status.Running?
      modifies this
      ensures Inv() && Spared(old(Now()), Now(), {}) && RunningIds(rows) == RunningIds(old(rows)) && caught == old(caught)
      ensures r in rows && !rows[r].status.Running? && (r in skipping ==> r in old(skipping)) && (e.Went? ==> r !in files)
      ensures old(tick) < tick && (Lands(old(tick), tick, false) ==> e.Went?)
      ensures Lands(old(tick), tick, true) ==> Now() == old(Now()).(files := old(files) - {r})
    {
      hide Sound, Aside, Spared, Lands;
      ghost var w := Now();
      e := Turn();
      ghost var mid := Now();
      RowAside(w, mid, r);
      AsideSpares(w, mid);
      UnlinkedIs(mid, r);
      if e.Went? {
        files := files - {r};
        SparedTwice(w, mid, Now(), {}, {}, {});
      }
      LandsBoth(old(tick), tick);
    }

    lemma LandsBoth(from: nat, to: nat)
      ensures Lands(from, to, true) ==> Lands(from, to, false)
    {
    }

    lemma LandsNone(at: nat)
      ensures Lands(at, at, true) && Lands(at, at, false)
    {
    }

    lemma LandsThrice(from: nat, mid: nat, next: nat, to: nat, alone: bool)
      requires from <= mid <= next <= to
      ensures Lands(from, to, alone) <==> Lands(from, mid, alone) && Lands(mid, next, alone) && Lands(next, to, alone)
    {
    }

    lemma LandsSplit(from: nat, mid: nat, to: nat, alone: bool)
      requires from <= mid <= to
      ensures Lands(from, to, alone) <==> Lands(from, mid, alone) && Lands(mid, to, alone)
    {
    }

    /** `delete_run`. A run at work may have written its report again by now. */
    method DeleteRow(r: RunId) returns (e: Ended)
      requires Inv() && r in rows && !rows[r].status.Running? && (r in skipping || r in files ==> r in caught)
      modifies this
      ensures Inv() && One(old(Now()), Now(), r, e.Went?)
      ensures old(tick) < tick && (Lands(old(tick), tick, false) ==> e.Went?)
      ensures Lands(old(tick), tick, true) ==> Now() == old(Now()).(rows := old(rows) - {r})
    {
      hide Sound, Aside, Spared, Lands;
      ghost var w := Now();
      e := Turn();
      ghost var mid := Now();
      RowAside(w, mid, r);
      AsideSpares(w, mid);
      SparedMore(w, mid, {}, {r});
      if e.Went? {
        DeletedIs(mid, r);
        rows := rows - {r};
        SparedTwice(w, mid, Now(), {}, {r}, {r});
      }
      LandsBoth(old(tick), tick);
    }

    /** One run of the retention: the file goes first, then its row; a file that stays keeps its row. */
    method PruneOne(r: RunId) returns (e: Ended, gone: bool)
      requires Inv() && r in rows && !rows[r].status.Running? && (r in skipping ==> r in caught)
      modifies this
      ensures Inv() && One(old(Now()), Now(), r, gone) && (gone ==> e.Went?)
      ensures old(tick) < tick && (Lands(old(tick), tick, false) ==> gone)
      ensures Lands(old(tick), tick, true) ==> Only(old(Now()), Now(), {r})
    {
      hide Sound, Spared, Lands, One, Only;
      ghost var w := Now();
      e := Unlink(r);
      ghost var mid, since := Now(), tick;
      OneKept(w, mid, r);
      if !e.Went? {
        LandsSplit(old(tick), since, tick, false);
        LandsBoth(old(tick), tick);
        return (if e.Killed? then Killed else Went), false;
      }
      e := DeleteRow(r);
      gone := e.Went?;
      OneTwice(w, mid, Now(), r, gone);
      OnlyIs(w, Now(), {r});
      LandsSplit(old(tick), since, tick, false);
      LandsSplit(old(tick), since, tick, true);
      LandsBoth(old(tick), tick);
    }

    /**
     `prune_reports`: of the runs started before the cutoff and not running, nothing else. If nothing
     fails they all go, and if nobody else acts their rows and files are all that goes.
     */
    method PruneReports(cutoff: Time) returns (e: Ended, removed: set<RunId>)
      requires Inv()
      modifies this
      ensures Inv() && Pruned(Listed(old(Now()), cutoff), Now(), removed, Prunable(old(rows), cutoff))
      ensures Lands(old(tick), tick, false) ==> e.Went? && removed == Prunable(old(rows), cutoff)
      ensures old(tick) <= tick && (Lands(old(tick), tick, true) ==> (rows, files) == AfterRetention(old(Now()), cutoff) && skipping == old(skipping))
    {
      hide Sound, Spared, Pruned, Only, One, Listed, Prunable, Lands, AfterRetention;
      ghost var w := Listed(Now(), cutoff);
      PrunedNone(Now(), cutoff);
      var all := Prunable(rows, cutoff);
      var todo := all;
      ListedParts(Now(), cutoff);
      caught := caught + all * skipping;
      assert Now() == w;
      removed := {};
      e := Went;
      OnlyNone(w);
      while todo != {}
        invariant Inv() && todo <= all && removed <= all && removed !! todo && Pruned(w, Now(), removed, all)
        invariant old(tick) <= tick && e.Went? && (Lands(old(tick), tick, false) ==> removed + todo == all)
        invariant Lands(old(tick), tick, true) ==> Only(w, Now(), removed)
        decreases todo
      {
        var r :| r in todo;
        todo := todo - {r};
        ghost var mid, since, before := Now(), tick, removed;
        PrunedLeft(w, mid, removed, all, r);
        var gone;
        e, gone := PruneOne(r);
        PrunedNext(w, mid, Now(), removed, all, r, gone);
        LandsSplit(old(tick), since, tick, false);
        LandsSplit(old(tick), since, tick, true);
        LandsBoth(since, tick);
        if gone { removed := removed + {r}; }
        if Lands(old(tick), tick, true) { OnlyNext(w, mid, Now(), before, r); }
        if !e.Went? { return; }
      }
      ListedParts(old(Now()), cutoff);
      OnlyIs(w, Now(), removed);
      LandsBoth(old(tick), tick);
    }

    /**
     A run without the lock, still at work, writes to its report after a retention that nothing and
     nobody disturbed: one more file is without its row if and only if that run started before the cutoff.
     */
    method AppendAfterRetention(id: RunId, cutoff: Time)
      requires Inv() && id in skipping && id in rows
      modifies this
      ensures Inv() && old(tick) <= tick
      ensures Lands(old(tick), tick, true) ==>
                (Unlisted(Now()) <= Unlisted(old(Now())) <==> old(rows)[id].startedAt >= cutoff)
    {
      hide Sound, Aside, Pruned, Unlisted, Lands, AfterRetention;
      ghost var w := Now();
      var e, removed := PruneReports(cutoff);
      ghost var mid := Now();
      WriteOwn(id, None);
      if Lands(old(tick), tick, true) { OneMoreReport(w, mid, id, cutoff); }
    }

    // ---- the run -----------------------------------------------------------------------------

    /** `mark_interrupted`, whose failure is swallowed, and the row. */
    method CloseOne(r: RunId) returns (e: Ended)
      requires Inv() && r in RunningIds(rows)
      modifies this
      ensures Inv() && Spared(old(Now()), Now(), {r}) && caught == old(caught) && old(tick) <= tick
      ensures r in rows && r !in entered && rows[r].startedAt == old(rows)[r].startedAt
      ensures RunningIds(rows) == RunningIds(old(rows)) - if e.Went? then {r} else {}
      ensures e.Went? ==> rows[r].status.Failed?
      ensures Lands(old(tick), tick, false) ==> e.Went? && (r, Failed) in footers
      ensures Lands(old(tick), tick, true) ==> Shut(old(Now()), Now(), {r})
    {
      hide Sound, Spared, Lands;
      ghost var w := Now();
      RunningIsOwn(w, r);
      var said := Append(r, Some(Failed));
      ghost var mid, since := Now(), tick;
      RunningIsOwn(mid, r);
      SameStart(w, mid, {}, r);
      SparedMore(w, mid, {}, {r});
      LandsBoth(old(tick), tick);
      if said.Killed? { return Killed; }
      e := FinishRun(r, Failed);
      SparedTwice(w, mid, Now(), {}, {r}, {r});
      FootersStay(mid, Now(), {r});
      LandsSplit(old(tick), since, tick, false);
      LandsSplit(old(tick), since, tick, true);
    }

    /** The runs a crash left running: each report is closed if it can be, each row marked failed. */
    method CloseInterrupted() returns (e: Ended)
      requires Inv()
      modifies this
      ensures Inv() && Spared(old(Now()), Now(), RunningIds(old(rows))) && caught == old(caught) && old(tick) <= tick
      ensures forall r :: r in RunningIds(old(rows)) ==> r in rows && r !in entered && rows[r].startedAt == old(rows)[r].startedAt
      ensures RunningIds(rows) <= RunningIds(old(rows)) && (e.Went? ==> RunningIds(rows) == {})
      ensures e.Went? ==> forall r :: r in RunningIds(old(rows)) ==> rows[r].status.Failed?
      ensures Lands(old(tick), tick, false) ==> e.Went? && forall r :: r in RunningIds(old(rows)) ==> (r, Failed) in footers
      ensures Lands(old(tick), tick, true) ==> Shut(old(Now()), Now(), RunningIds(old(rows)))
    {
      hide Sound, Spared, Lands, Shut;
      ghost var w := Now();
      var all := RunningIds(rows);
      var todo := all;
      e := Went;
      SparedNone(w, all);
      ShutNone(w);
      assert all - todo == {};
      forall r | r in all ensures r !in entered { RunningIsOwn(w, r); }
      while todo != {}
        invariant Inv() && Spared(w, Now(), all) && todo <= all && caught == old(caught) && old(tick) <= tick
        invariant forall r :: r in all ==> r in rows && r !in entered && rows[r].startedAt == old(rows)[r].startedAt
        invariant RunningIds(rows) == todo && e.Went?
        invariant forall r :: r in all - todo ==> rows[r].status.Failed?
        invariant Lands(old(tick), tick, false) ==> forall r :: r in all - todo ==> (r, Failed) in footers
        invariant Lands(old(tick), tick, true) ==> Shut(w, Now(), all - todo)
        decreases todo
      {
        var r :| r in todo;
        ghost var mid, since := Now(), tick;
        e := CloseOne(r);
        LandsSplit(old(tick), since, tick, false);
        LandsSplit(old(tick), since, tick, true);
        LandsBoth(old(tick), tick);
        FootersStay(mid, Now(), {r});
        if Lands(old(tick), tick, true) {
          ShutNext(w, mid, Now(), all - todo, r);
          assert all - todo + {r} == all - (todo - {r});
        }
        SparedTwice(w, mid, Now(), all, {r}, all);
        forall q | q in all && q != r ensures q in rows && q !in entered && rows[q] == mid.rows[q] {
          SameStart(mid, Now(), {r}, q);
          RowStays(mid, Now(), {r}, q);
        }
        if !e.Went? { return; }
        todo := todo - {r};
      }
      assert all - {} == all;
    }

    /** The one running row is this run's. */
    ghost predicate Mine(id: RunId)
      reads this
    {
      Inv() && RunningIds(rows) == {id}
    }

    method Phases(id: RunId, lines: nat, breaks: bool) returns (e: Ended)
      requires Mine(id)
      modifies this
      ensures Mine(id) && Spared(old(Now()), Now(), {}) && caught == old(caught) && old(tick) <= tick
      ensures Lands(old(tick), tick, false) ==> e == if breaks then Raised else Went
      ensures Lands(old(tick), tick, true) ==> Now() == if lines == 0 then old(Now()) else Appended(old(Now()), id, None)
    {
      hide Sound, Spared, Lands;
      ghost var w := Now();
      SparedNone(w, {});
      var i := 0;
      while i < lines
        invariant Mine(id) && Spared(w, Now(), {}) && caught == old(caught) && old(tick) <= tick && i <= lines
        invariant Lands(old(tick), tick, true) ==> Now() == if i == 0 then w else Appended(w, id, None)
      {
        ghost var mid, since := Now(), tick;
        e := Note(id, None);
        SparedTwice(w, mid, Now(), {}, {}, {});
        LandsSplit(old(tick), since, tick, false);
        LandsSplit(old(tick), since, tick, true);
        AppendedTwice(w, id, None, None);
        LandsBoth(old(tick), tick);
        if !e.Went? { return; }
        i := i + 1;
      }
      e := if breaks then Raised else Went;
    }

    method Note(id: RunId, footer: Option<Status>) returns (e: Ended)
      requires Mine(id)
      modifies this
      ensures Mine(id) && Spared(old(Now()), Now(), {}) && caught == old(caught) && old(tick) <= tick
      ensures e.Went? ==> id in files && (footer.Some? ==> (id, footer.value) in footers)
      ensures Lands(old(tick), tick, false) ==> e.Went?
      ensures Lands(old(tick), tick, true) ==> Now() == Appended(old(Now()), id, footer)
    {
      RunningIsOwn(Now(), id);
      e := Append(id, footer);
    }

    /** The last line, the completed footer, and only then the row. */
    method Finish(id: RunId) returns (e: Ended, footed: bool)
      requires Mine(id)
      modifies this
      ensures Inv() && Spared(old(Now()), Now(), {id}) && caught == old(caught) && (footed ==> (id, Completed) in footers)
      ensures e.Went? ==> id in rows && rows[id].status.Completed? && RunningIds(rows) == {} && footed
      ensures old(tick) <= tick && (!e.Went? ==> Mine(id))
      ensures Lands(old(tick), tick, false) ==> e.Went?
      ensures Lands(old(tick), tick, true) ==> Ran(old(Now()), Now(), id, Completed)
    {
      hide Sound, Spared, Lands;
      ghost var w, start := Now(), tick;
      footed := false;
      e := Note(id, None);
      ghost var one, noted := Now(), tick;
      SparedMore(w, one, {}, {id});
      LandsBoth(start, tick);
      if !e.Went? { return; }
      e := Note(id, Some(Completed));
      ghost var two, closed := Now(), tick;
      SparedTwice(w, one, two, {}, {}, {id});
      LandsThrice(start, noted, closed, closed, false);
      LandsThrice(start, noted, closed, closed, true);
      LandsBoth(start, tick);
      if !e.Went? { return; }
      footed := true;
      RunningIsOwn(two, id);
      e := FinishRun(id, Completed);
      SparedTwice(w, two, Now(), {id}, {id}, {id});
      FootersStay(two, Now(), {id});
      LandsThrice(start, noted, closed, tick, false);
      LandsThrice(start, noted, closed, tick, true);
      LandsBoth(start, tick);
    }

    /** After an exception: a failed footer unless one is written, then the row, then what it holds. */
    method Recover(id: RunId, completed: bool) returns (dead: bool)
      requires Mine(id) && (completed ==> (id, Completed) in footers)
      modifies this
      ensures Inv() && Spared(old(Now()), Now(), {id}) && caught == old(caught) && old(tick) <= tick
      ensures id in rows && RunningIds(rows) <= {id}
      ensures rows[id].status.Running? || (rows[id].status.Failed? && ((id, Completed) in footers || (id, Failed) in footers))
      ensures old(tick) <= tick && (Lands(old(tick), tick, false) ==> !dead && rows[id].status.Failed?)
      ensures Lands(old(tick), tick, false) && !completed ==> (id, Failed) in footers
      ensures Lands(old(tick), tick, true) ==> Ran(old(Now()), Now(), id, Failed)
    {
      hide Sound, Spared, Lands;
      ghost var w, start, noted := Now(), tick, tick;
      LandsNone(tick);
      var footed := completed;
      RunningIsOwn(w, id);
      SparedNone(w, {id});
      if !footed {
        var said := Note(id, Some(Failed));
        SparedMore(w, Now(), {}, {id});
        RunningIsOwn(Now(), id);
        noted := tick;
        LandsBoth(start, noted);
        if said.Killed? { return true; }
        footed := said.Went?;
      }
      if footed {
        ghost var one := Now();
        RunningIsOwn(one, id);
        var recorded := FinishRun(id, Failed);
        ghost var two := Now();
        ghost var kept := tick;
        SparedTwice(w, one, two, {id}, {id}, {id});
        FootersStay(one, two, {id});
        LandsThrice(start, noted, kept, kept, false);
        LandsThrice(start, noted, kept, kept, true);
        LandsBoth(start, tick);
        if recorded.Killed? { return true; }
        if completed {
          var said := Append(id, None);
          SparedTwice(w, two, Now(), {id}, {}, {id});
          OwnStays(two, Now(), id);
          FootersStay(two, Now(), {});
          LandsThrice(start, noted, kept, tick, false);
          LandsThrice(start, noted, kept, tick, true);
          LandsBoth(start, tick);
          return said.Killed?;
        }
      }
      dead := false;
    }

    /** Between the run's row and its end: the phases, the retention, and the end itself. */
    method Work(id: RunId, lines: nat, breaks: bool, cutoff: Time) returns (e: Ended, footed: bool)
      requires Mine(id)
      modifies this
      ensures Inv() && Spared(old(Now()), Now(), Prunable(old(rows), cutoff) + {id}) && Caught(old(Now()), Now(), cutoff)
      ensures footed ==> (id, Completed) in footers
      ensures e.Went? ==> id in rows && rows[id].status.Completed? && RunningIds(rows) == {} && footed
      ensures old(tick) <= tick && (!e.Went? ==> Mine(id))
      ensures Lands(old(tick), tick, false) ==> (if breaks then e.Raised? && !footed else e.Went?)
      ensures Lands(old(tick), tick, true) ==>
                if breaks then rows == old(rows) && files == old(files) + (if lines == 0 then {} else {id})
                else Worked(old(Now()), Now(), id, cutoff)
    {
      hide Sound, Spared, Pruned, Caught, Lands, AfterRetention;
      ghost var w, goal, start := Now(), Prunable(rows, cutoff) + {id}, tick;
      footed := false;
      e := Phases(id, lines, breaks);
      ghost var one, said := Now(), tick;
      LandsBoth(start, tick);
      SparedMore(w, one, {}, goal);
      CaughtNone(w, one, cutoff);
      if !e.Went? { return; }
      var removed;
      e, removed := PruneReports(cutoff);
      ghost var two, pruned := Now(), tick;
      RetentionSpares(w, one, two, removed, cutoff);
      SparedMore(w, two, Prunable(w.rows, cutoff), goal);
      LandsThrice(start, said, pruned, pruned, false);
      LandsThrice(start, said, pruned, pruned, true);
      LandsBoth(start, tick);
      if !e.Went? { return; }
      e, footed := Finish(id);
      LandsThrice(start, said, pruned, tick, false);
      LandsThrice(start, said, pruned, tick, true);
      LandsBoth(start, tick);
      if Lands(start, tick, true) { WorkIs(w, one, two, Now(), id, lines, cutoff); }
      SparedTwice(w, two, Now(), goal, {id}, goal);
      CaughtStays(w, two, Now(), {id}, cutoff);
    }

    /**
     `run_dream` with the lock. A run that returns has a completed row; one that raises has a row that
     is failed, with a footer, or still running, for the next run to close. Of the runs of others it
     touches only those its retention lists.
     */
    method RunDream(id: RunId, now: Time, lines: nat, breaks: bool, cutoff: Time) returns (e: Ended)
      requires Inv()
      modifies this
      ensures Inv() && Spared(old(Now()), Now(), Reach(old(rows), cutoff, id)) && Caught(old(Now()), Now(), cutoff)
      ensures e.Went? ==> id in rows && rows[id].status.Completed? && RunningIds(rows) == {}
      ensures old(tick) <= tick && RunningIds(rows) <= RunningIds(old(rows)) + {id}
      ensures e.Raised? && id in rows && id !in old(rows) && id !in entered ==>
                rows[id].status.Running? || (rows[id].status.Failed? && ((id, Completed) in footers || (id, Failed) in footers))
      ensures Lands(old(tick), tick, true) && id !in old(used) ==>
                e == (if breaks then Raised else Went) && Dreamt(old(Now()), Now(), id, now, breaks, cutoff)
    {
      hide Sound, Spared, Caught, Lands, Shut, Ran, Dreamt, Worked;
      ghost var w, goal, start := Now(), Reach(rows, cutoff, id), tick;
      e := CloseInterrupted();
      ghost var one, closed := Now(), tick;
      LandsBoth(start, tick);
      SparedMore(w, one, RunningIds(w.rows), goal);
      CaughtNone(w, one, cutoff);
      if !e.Went? {
        Unstarted(w, one, RunningIds(w.rows), id);
        return;
      }
      e := StartRun(id, now);
      ghost var two, begun := Now(), tick;
      ShutUsed(w, one, RunningIds(w.rows));
      LandsThrice(start, closed, begun, begun, true);
      SparedTwice(w, one, two, RunningIds(w.rows), {id}, RunningIds(w.rows) + {id});
      SparedMore(w, two, RunningIds(w.rows) + {id}, goal);
      ArrivedStays(w, one, RunningIds(w.rows));
      CaughtStays(w, one, two, {id}, cutoff);
      if !e.Went? {
        SparedTwice(w, one, two, RunningIds(w.rows), {}, RunningIds(w.rows));
        Unstarted(w, two, RunningIds(w.rows), id);
        return;
      }
      var footed;
      e, footed := Work(id, lines, breaks, cutoff);
      ghost var three, worked := Now(), tick;
      LandsThrice(start, closed, begun, worked, true);
      LandsBoth(begun, worked);
      RunSpares(w, two, three, id, cutoff);
      if e.Raised? {
        var dead := Recover(id, footed);
        SparedTwice(w, three, Now(), goal, {id}, goal);
        CaughtStays(w, three, Now(), {id}, cutoff);
        LandsSplit(start, worked, tick, true);
        LandsBoth(worked, tick);
        if Lands(start, tick, true) && id !in w.used { BrokeIs(w, one, two, three, Now(), id, now, lines, cutoff); }
        if dead { e := Killed; }
      } else if Lands(start, tick, true) && id !in w.used {
        UsedAre(w, id);
        CompletedIs(w, one, two, three, id, now, cutoff);
      }
    }

    /**
     Any processes that take the lock one after the other, however each of them ends, with any others
     at work meanwhile. The invariant holds throughout; and where no run without the lock started
     before a cutoff, no report file is left without its row.
     */
    method RunAll(runs: seq<Locked>)
      requires Inv()
      modifies this
      ensures Inv()
      ensures forall r :: r in caught && r !in old(caught) ==> r in entered && exists i :: 0 <= i < |runs| && entered[r] < runs[i].cutoff
      ensures old(caught) == {} && (forall r, i :: r in entered && 0 <= i < |runs| ==> entered[r] >= runs[i].cutoff) ==> files <= rows.Keys
    {
      hide Sound, Spared, Caught, Pruned;
      ghost var w := Now();
      var k := 0;
      while k < |runs|
        invariant 0 <= k <= |runs| && Inv()
        invariant forall r :: r in caught && r !in old(caught) ==> r in entered && exists i :: 0 <= i < k && entered[r] < runs[i].cutoff
      {
        ghost var mid := Now();
        match runs[k] {
          case Whole(id, now, lines, breaks, cutoff) =>
            var e := RunDream(id, now, lines, breaks, cutoff);
            ArrivedStays(mid, Now(), Reach(mid.rows, cutoff, id));
          case Reading(cutoff) =>
            var e, removed := PruneReports(cutoff);
            ReadingCatches(mid, Now(), removed, cutoff);
        }
        CaughtIs(mid, Now(), runs[k].cutoff);
        k := k + 1;
      }
      CaughtFiles(Now());
    }
  }

  /** One skipped run, started before the cutoff, whose row the retention takes first. */
  method OrphanedReport() returns (d: Dream)
    ensures d.Inv() && "run" in d.files && "run" !in d.rows
  {
    d := new Dream((k: nat) => Lands, (k: nat) => []);
    d.Arrive("run", 0);
    assert "run" in Prunable(d.rows, 1);
    var e, removed := d.PruneReports(1);
    d.WriteOwn("run", None);
  }
}
