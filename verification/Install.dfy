/**
 One write of the installer and its undoing: a target replaced with a backup beside it, an
 entry for the ledger, and the entry taken back. `WriteTarget` leaves the disk in one of the
 states `Outcome` names, whichever primitive failed; `RollBackOne` is careful on any disk,
 whoever else has written to it, and restores what the entry found when it is still as the
 entry left it. Directories are claimed by `MakeDirs` and given back by `RemoveCreatedDirs`,
 which removes none that the run did not make and none that holds anything.
 */
module Install {
  import opened Basics
  import opened Disk

  const BACKUP_INFIX := ".memriver-backup-"

  datatype CreatedDir = CreatedDir(path: Path, ident: Option<nat>)

  datatype Target = Target(path: Path, userLevel: bool, deleteIfEmptied: bool)

  /** What planning read of a target; no mode is no file. */
  datatype Snapshot = Snapshot(target: Target, text: Option<string>, mode: Option<nat>)

  /** One entry of the ledger; `written` is `None` for a deletion. */
  datatype Write = Write(target: Target, backup: Option<Path>, mode: Option<nat>, written: Option<string>,
                         root: Option<Path>, created: seq<CreatedDir>)

  // ---- directories ---------------------------------------------------------------------

  predicate SameDir(ns: Nodes, d: CreatedDir) {
    IsDir(ns, d.path) && (d.ident.Some? ==> ns[d.path].ident == d.ident.value)
  }

  /** A directory of the list, still the same, as far as that was ever checked. */
  predicate OurDir(ns: Nodes, created: seq<CreatedDir>, p: Path) {
    exists i :: 0 <= i < |created| && created[i].path == p && SameDir(ns, created[i])
  }

  /** Directories holding nothing but each other, deepest first. */
  ghost predicate Stack(ns: Nodes, created: seq<CreatedDir>) {
    && (forall i :: 0 <= i < |created| ==> SameDir(ns, created[i]))
    && (forall i, j :: 0 <= i < j < |created| ==> created[i].path != created[j].path)
    && forall i, q :: 0 <= i < |created| && q in ns && q != [] && Parent(q) == created[i].path ==>
         i > 0 && q == created[i - 1].path
  }

  function Paths(created: seq<CreatedDir>): set<Path> { set i | 0 <= i < |created| :: created[i].path }

  /** Only directories of the list went, each of them empty by then. */
  ghost predicate OnlyOurDirs(ns: Nodes, ns': Nodes, created: seq<CreatedDir>) {
    && (forall p :: p in ns' ==> p in ns && ns'[p] == ns[p])
    && forall p :: p in ns && p !in ns' ==> OurDir(ns, created, p) && Childless(ns', p)
  }

  lemma ShorterStack(ns: Nodes, created: seq<CreatedDir>, i: nat)
    requires i < |created| && Stack(ns, created)
    ensures var left := ns - Paths(created[..i]);
            IsDir(left, created[i].path) && Childless(left, created[i].path) && SameDir(left, created[i])
    ensures ns - Paths(created[..i]) - {created[i].path} == ns - Paths(created[..i + 1])
  {
    var left := ns - Paths(created[..i]);
    forall j | 0 <= j < i ensures created[..i][j].path != created[i].path { }
    if i > 0 { assert created[..i][i - 1].path in Paths(created[..i]); }
    assert Paths(created[..i + 1]) == Paths(created[..i]) + {created[i].path} by {
      assert created[..i + 1][i] == created[i];
      forall j | 0 <= j < i ensures created[..i][j] == created[..i + 1][j] { }
    }
  }

  /** `_remove_created_dirs`. */
  method RemoveCreatedDirs(m: Machine, created: seq<CreatedDir>)
    modifies m
    ensures old(m.tick) <= m.tick
    ensures OnlyOurDirs(old(m.nodes), m.nodes, created)
    ensures m.Quiet(old(m.tick), m.tick) && Stack(old(m.nodes), created) ==> m.nodes == old(m.nodes) - Paths(created)
  {
    var i := 0;
    ghost var before := m.nodes;
    assert before - Paths(created[..0]) == before;
    while i < |created|
      invariant 0 <= i <= |created| && old(m.tick) <= m.tick
      invariant OnlyOurDirs(before, m.nodes, created)
      invariant m.Quiet(old(m.tick), m.tick) && Stack(before, created) ==> m.nodes == before - Paths(created[..i])
      decreases |created| - i
    {
      var d := created[i];
      if Stack(before, created) { ShorterStack(before, created, i); }
      if d.ident.Some? {
        var info := m.Lstat(d.path);
        match info
        case Unreadable => assert !m.Quiet(old(m.tick), m.tick); return;
        case Absent => i := i + 1; continue;
        case Found(node) => if !node.Dir? || node.ident != d.ident.value { return; }
      }
      assert d.ident.Some? ==> SameDir(m.nodes, d);
      ghost var held := m.nodes;
      var r := m.Rmdir(d.path);
      match r {
        case Kept => return;
        case Missing => if d.ident.Some? { return; }
        case Gone => OneDirGone(before, held, m.nodes, created, i);
      }
      i := i + 1;
    }
    assert created[..i] == created;
  }

  lemma OneDirGone(ns: Nodes, held: Nodes, ns': Nodes, created: seq<CreatedDir>, i: nat)
    requires i < |created| && OnlyOurDirs(ns, held, created) && SameDir(held, created[i]) && Childless(held, created[i].path)
    requires ns' == held - {created[i].path}
    ensures OnlyOurDirs(ns, ns', created)
  {
  }

  /** The directories of `d` that are missing, shallow to deep. */
  function MissingDirs(ns: Nodes, d: Path, k: nat): seq<Path>
    requires k <= |d|
  {
    if k == 0 then [] else MissingDirs(ns, d, k - 1) + (if d[..k] in ns then [] else [d[..k]])
  }

  /** Directories that were not there. */
  ghost predicate Claims(ns: Nodes, ns': Nodes, created: seq<CreatedDir>) {
    forall i :: 0 <= i < |created| ==> created[i].path !in ns && created[i].path != [] && SameDir(ns', created[i])
  }

  /** Each inside the next, deepest first. */
  ghost predicate Nested(ns: Nodes, created: seq<CreatedDir>) {
    && (forall i :: 0 <= i < |created| ==> created[i].path != [])
    && (forall i :: 0 < i < |created| ==> Parent(created[i - 1].path) == created[i].path)
    && (created != [] ==> IsDir(ns, Parent(created[|created| - 1].path)))
  }

  ghost predicate OnlyAdded(ns: Nodes, ns': Nodes, created: seq<CreatedDir>) {
    Spares(ns, ns') && forall p :: p in ns' && p !in ns ==> exists i :: 0 <= i < |created| && created[i].path == p
  }

  ghost predicate Climbed(ns: Nodes, ns': Nodes, created: seq<CreatedDir>) {
    Claims(ns, ns', created) && Nested(ns, created) && OnlyAdded(ns, ns', created)
  }

  lemma Lengths(ns: Nodes, created: seq<CreatedDir>, i: nat, j: nat)
    requires i <= j < |created| && Nested(ns, created)
    ensures |created[i].path| == |created[j].path| + (j - i)
  {
    if i < j { Lengths(ns, created, i, j - 1); }
  }

  lemma ClimbedTree(ns: Nodes, ns': Nodes, created: seq<CreatedDir>)
    requires Tree(ns) && Climbed(ns, ns', created)
    ensures Tree(ns')
  {
    forall p | p in ns' && p != [] ensures IsDir(ns', Parent(p)) {
      if p in ns {
        assert IsDir(ns, Parent(p));
      } else {
        var i :| 0 <= i < |created| && created[i].path == p;
        ClimbedParent(ns, ns', created, i);
      }
    }
  }

  lemma ClimbedParent(ns: Nodes, ns': Nodes, created: seq<CreatedDir>, i: nat)
    requires Claims(ns, ns', created) && Nested(ns, created) && Spares(ns, ns') && i < |created|
    ensures created[i].path != [] ==> IsDir(ns', Parent(created[i].path))
  {
    if i + 1 < |created| { assert Parent(created[i].path) == created[i + 1].path; }
  }

  /** What was climbed can be taken back, once nothing else stands in it. */
  lemma ClimbedStack(ns: Nodes, ns': Nodes, created: seq<CreatedDir>, m: Nodes)
    requires Tree(ns) && Climbed(ns, ns', created)
    requires forall i :: 0 <= i < |created| ==> created[i].path in m && m[created[i].path] == ns'[created[i].path]
    requires forall q, i :: q in m && q !in ns' && q != [] && 0 <= i < |created| ==> Parent(q) != created[i].path
    ensures Stack(m, created)
  {
    forall i, j | 0 <= i < j < |created| ensures created[i].path != created[j].path { Lengths(ns, created, i, j); }
    forall i, q | 0 <= i < |created| && q in m && q != [] && Parent(q) == created[i].path
      ensures i > 0 && q == created[i - 1].path
    {
      assert q in ns' && q !in ns;
      var j :| 0 <= j < |created| && created[j].path == q;
      if i <= j { Lengths(ns, created, i, j); } else { Lengths(ns, created, j, i); }
    }
  }

  lemma ClimbedBack(ns: Nodes, ns': Nodes, created: seq<CreatedDir>)
    requires Climbed(ns, ns', created)
    ensures ns' - Paths(created) == ns
  {
  }

  lemma Climb(ns: Nodes, before: Nodes, after: Nodes, created: seq<CreatedDir>, d: CreatedDir)
    requires Climbed(ns, before, created) && d.path != [] && d.path !in before
    requires SameDir(after, d) && after == before[d.path := after[d.path]]
    requires if created == [] then IsDir(ns, Parent(d.path)) else Parent(d.path) == created[0].path
    ensures Climbed(ns, after, [d] + created)
  {
    ClimbClaims(ns, before, after, created, d);
    ClimbNested(ns, created, d);
    ClimbAdded(ns, before, after, created, d);
    hide *;
    ClimbedIs(ns, after, [d] + created);
  }

  lemma ClimbedIs(ns: Nodes, ns': Nodes, created: seq<CreatedDir>)
    requires Claims(ns, ns', created) && Nested(ns, created) && OnlyAdded(ns, ns', created)
    ensures Climbed(ns, ns', created)
  {
  }

  lemma ClimbClaims(ns: Nodes, before: Nodes, after: Nodes, created: seq<CreatedDir>, d: CreatedDir)
    requires Claims(ns, before, created) && Spares(ns, before) && d.path != [] && d.path !in before
    requires SameDir(after, d) && after == before[d.path := after[d.path]]
    ensures Claims(ns, after, [d] + created)
  {
  }

  lemma ClimbNested(ns: Nodes, created: seq<CreatedDir>, d: CreatedDir)
    requires Nested(ns, created) && d.path != []
    requires if created == [] then IsDir(ns, Parent(d.path)) else Parent(d.path) == created[0].path
    ensures Nested(ns, [d] + created)
  {
    var all := [d] + created;
    forall i | 0 < i < |all| ensures Parent(all[i - 1].path) == all[i].path {
      if i > 1 { assert all[i - 1] == created[i - 2] && all[i] == created[i - 1]; }
    }
  }

  lemma ClimbAdded(ns: Nodes, before: Nodes, after: Nodes, created: seq<CreatedDir>, d: CreatedDir)
    requires OnlyAdded(ns, before, created) && d.path !in before && d.path in after && after == before[d.path := after[d.path]]
    ensures OnlyAdded(ns, after, [d] + created)
  {
    var all := [d] + created;
    forall p | p in after && p !in ns ensures exists i :: 0 <= i < |all| && all[i].path == p {
      if p == d.path {
        assert all[0].path == p;
      } else {
        var i :| 0 <= i < |created| && created[i].path == p;
        assert all[i + 1].path == p;
      }
    }
  }

  /** Files but one are left alone. */
  ghost predicate FilesStay(ns: Nodes, ns': Nodes, but: set<Path>) {
    forall p :: IsFile(ns, p) && p !in but ==> p in ns' && ns'[p] == ns[p]
  }

  lemma DirsGone(ns: Nodes, mid: Nodes, ns': Nodes, created: seq<CreatedDir>, but: set<Path>)
    requires FilesStay(ns, mid, but) && OnlyOurDirs(mid, ns', created)
    ensures FilesStay(ns, ns', but)
  {
  }

  lemma DirAdded(ns: Nodes, mid: Nodes, p: Path, ident: nat, but: set<Path>)
    requires FilesStay(ns, mid, but) && p !in mid
    ensures FilesStay(ns, mid[p := Dir(ident)], but)
  {
  }

  /** Whatever is there of a path is a directory. */
  ghost predicate Reachable(ns: Nodes, d: Path) {
    IsDir(ns, []) && forall k :: 0 <= k <= |d| && d[..k] in ns ==> IsDir(ns, d[..k])
  }

  /** Somewhere in that stretch a primitive failed. */
  lemma NotQuiet(m: Machine, from: nat, at: nat, to: nat)
    requires from <= at < to && m.fails(at)
    ensures !m.Quiet(from, to)
  {
  }

  lemma {:induction false} FirstMissing(ns: Nodes, d: Path, k: nat)
    requires k <= |d| && Reachable(ns, d) && MissingDirs(ns, d, k) != []
    ensures MissingDirs(ns, d, k)[0] != [] && IsDir(ns, Parent(MissingDirs(ns, d, k)[0]))
  {
    if MissingDirs(ns, d, k - 1) != [] {
      FirstMissing(ns, d, k - 1);
    } else {
      assert Parent(d[..k]) == d[..k - 1];
      if k > 1 { NoneMissing(ns, d, k - 1); } else { assert d[..0] == []; }
    }
  }

  lemma {:induction false} NoneMissing(ns: Nodes, d: Path, k: nat)
    requires 0 < k <= |d| && MissingDirs(ns, d, k) == []
    ensures d[..k] in ns
  {
  }

  /** Where a directory is to be made, the one it goes into is there by then. */
  lemma ParentMade(ns: Nodes, before: Nodes, created: seq<CreatedDir>, missing: seq<Path>, d: Path, k: nat)
    requires Tree(ns) && Reachable(ns, d) && Climbed(ns, before, created) && missing == MissingDirs(ns, d, |d|) && k < |missing|
    requires |created| == k && (k > 0 ==> created[0].path == missing[k - 1])
    ensures missing[k] != [] && IsDir(before, Parent(missing[k]))
  {
    FirstMissing(ns, d, |d|);
    ClimbedParts(ns, before, created);
    MissingIs(ns, d, |d|);
    StretchAt(ns, missing, d[..|d|], k);
    hide Climbed, Nested, Stretch, MissingDirs, Reachable, Tree;
  }

  lemma AllMade(ns: Nodes, after: Nodes, created: seq<CreatedDir>, missing: seq<Path>, d: Path)
    requires Tree(ns) && Climbed(ns, after, created) && missing == MissingDirs(ns, d, |d|)
    requires |created| == |missing| && (missing != [] ==> created[0].path == missing[|missing| - 1])
    ensures created != [] ==> created[0].path == d
    ensures Reachable(ns, d) ==> IsDir(after, d)
  {
    ClimbedParts(ns, after, created);
    MissingIs(ns, d, |d|);
    assert d[..|d|] == d;
    hide Climbed, Nested, MissingDirs, Tree;
  }

  /** `_make_dirs`: every `mkdir` is a claim, and a failure takes the claims back. */
  method MakeDirs(m: Machine, directory: Path) returns (ok: bool, at: nat, created: seq<CreatedDir>)
    modifies m
    ensures FilesStay(old(m.nodes), m.nodes, {})
    ensures old(m.tick) <= at <= m.tick
    ensures ok && Tree(old(m.nodes)) ==> Climbed(old(m.nodes), m.nodes, created) && (created != [] ==> created[0].path == directory)
    ensures Tree(old(m.nodes)) && Reachable(old(m.nodes), directory) ==>
              if ok then IsDir(m.nodes, directory) else !m.Quiet(old(m.tick), m.tick)
    ensures forall i :: 0 <= i < |created| ==> |created[i].path| <= |directory|
    ensures directory in old(m.nodes) && Tree(old(m.nodes)) ==> ok && created == [] && m.nodes == old(m.nodes) && m.tick == old(m.tick)
    ensures !ok && Tree(old(m.nodes)) && m.Quiet(at, m.tick) ==> m.nodes == old(m.nodes)
  {
    hide *;
    ghost var ns := m.nodes;
    var missing := MissingDirs(m.nodes, directory, |directory|);
    created, at := [], m.tick;
    var k := 0;
    if Tree(ns) {
      MissingIs(ns, directory, |directory|);
      NothingMissing(ns, missing, directory[..|directory|]);
    }
    MissingShort(ns, directory, |directory|);
    assert directory[..|directory|] == directory;
    NothingClimbed(ns);
    DirsGone(ns, ns, ns, [], {}) by { NothingGone(ns); }
    while k < |missing|
      invariant 0 <= k <= |missing| && old(m.tick) <= m.tick && FilesStay(ns, m.nodes, {})
      invariant Tree(ns) ==> Climbed(ns, m.nodes, created) && |created| == k && (k > 0 ==> created[0].path == missing[k - 1])
      invariant forall i :: 0 <= i < |created| ==> |created[i].path| <= |directory|
      invariant k == 0 ==> m.nodes == ns && m.tick == old(m.tick)
      decreases |missing| - k
    {
      var parent := missing[k];
      if parent == [] { k := k + 1; continue; }
      ghost var before := m.nodes;
      if Tree(ns) { NotYetThere(ns, before, created, missing, directory, k); }
      if Tree(ns) && Reachable(ns, directory) { ParentMade(ns, before, created, missing, directory, k); }
      ghost var tried := m.tick;
      var r := m.Mkdir(parent);
      at := m.tick;
      match r {
        case WasThere =>
        case NotMade =>
          if Tree(ns) { TakeBack(ns, m.nodes, created); }
          RemoveCreatedDirs(m, created);
          DirsGone(ns, before, m.nodes, created, {});
          if m.fails(tried) { NotQuiet(m, old(m.tick), tried, m.tick); }
          return false, at, created;
        case MadeIt(ident) =>
          DirAdded(ns, before, parent, ident, {});
          var info := m.Lstat(parent);
          var d := CreatedDir(parent, if info.Found? && info.node.Dir? then Some(info.node.ident) else None);
          if Tree(ns) { Claimed(ns, before, m.nodes, created, missing, d, ident, k); }
          created := [d] + created;
      }
      k := k + 1;
    }
    if Tree(ns) { AllMade(ns, m.nodes, created, missing, directory); }
    return true, m.tick, created;
  }

  lemma NothingGone(ns: Nodes)
    ensures FilesStay(ns, ns, {}) && OnlyOurDirs(ns, ns, [])
  {
  }

  lemma NothingClimbed(ns: Nodes)
    ensures Climbed(ns, ns, [])
  {
  }

  lemma TakeBack(ns: Nodes, ns': Nodes, created: seq<CreatedDir>)
    requires Tree(ns) && Climbed(ns, ns', created)
    ensures Stack(ns', created) && ns' - Paths(created) == ns
  {
    ClimbedStack(ns, ns', created, ns');
    ClimbedBack(ns, ns', created);
  }

  lemma NotYetThere(ns: Nodes, before: Nodes, created: seq<CreatedDir>, missing: seq<Path>, d: Path, k: nat)
    requires Tree(ns) && Climbed(ns, before, created) && missing == MissingDirs(ns, d, |d|) && k < |missing|
    requires |created| == k && (k > 0 ==> created[0].path == missing[k - 1])
    ensures missing[k] !in before && missing[k] != []
    ensures k > 0 ==> Parent(missing[k]) == created[0].path
  {
    MissingIs(ns, d, |d|);
    ClimbedParts(ns, before, created);
    StretchAt(ns, missing, d[..|d|], k);
    hide *;
    NotAmong(ns, before, created, missing[k]);
  }

  lemma StretchAt(ns: Nodes, missing: seq<Path>, end: Path, k: nat)
    requires Stretch(ns, missing, end) && k < |missing|
    ensures missing[k] !in ns && missing[k] != [] && (k > 0 ==> Parent(missing[k]) == missing[k - 1])
  {
  }

  lemma ClimbedParts(ns: Nodes, ns': Nodes, created: seq<CreatedDir>)
    requires Climbed(ns, ns', created)
    ensures Claims(ns, ns', created) && Nested(ns, created) && OnlyAdded(ns, ns', created)
  {
  }

  lemma NotAmong(ns: Nodes, before: Nodes, created: seq<CreatedDir>, p: Path)
    requires OnlyAdded(ns, before, created) && Nested(ns, created) && p !in ns && p != []
    requires created != [] ==> Parent(p) == created[0].path
    ensures p !in before
  {
    if p in before {
      var i :| 0 <= i < |created| && created[i].path == p;
      Lengths(ns, created, 0, i);
    }
  }

  lemma Claimed(ns: Nodes, before: Nodes, after: Nodes, created: seq<CreatedDir>, missing: seq<Path>, d: CreatedDir, ident: nat, k: nat)
    requires Climbed(ns, before, created) && k < |missing| && d.path == missing[k] && d.path != [] && d.path !in before
    requires after == before[d.path := Dir(ident)] && (d.ident.None? || d.ident == Some(ident)) && |created| == k
    requires if k == 0 then IsDir(ns, Parent(d.path)) else Parent(d.path) == created[0].path
    ensures Climbed(ns, after, [d] + created)
  {
    Climb(ns, before, after, created, d);
    hide Climbed;
  }

  lemma NothingMissing(ns: Nodes, missing: seq<Path>, end: Path)
    requires Stretch(ns, missing, end)
    ensures end in ns ==> missing == []
  {
  }

  lemma MissingShort(ns: Nodes, d: Path, k: nat)
    requires k <= |d|
    ensures forall i :: 0 <= i < |MissingDirs(ns, d, k)| ==> |MissingDirs(ns, d, k)[i]| <= |d|
  {
    if k > 0 { MissingShort(ns, d, k - 1); }
  }

  /** In a tree what is missing of a path is one stretch of it, down to the end. */
  lemma MissingIs(ns: Nodes, d: Path, k: nat)
    requires Tree(ns) && k <= |d|
    ensures Stretch(ns, MissingDirs(ns, d, k), d[..k])
  {
    if k > 0 {
      MissingIs(ns, d, k - 1);
      assert Parent(d[..k]) == d[..k - 1];
      if d[..k] in ns { assert IsDir(ns, d[..k - 1]); }
      StretchMore(ns, MissingDirs(ns, d, k - 1), d[..k]);
    }
  }

  /** Missing paths, each the parent of the next, down to `end`. */
  ghost predicate Stretch(ns: Nodes, missing: seq<Path>, end: Path) {
    && (forall i :: 0 <= i < |missing| ==> missing[i] !in ns && missing[i] != [])
    && (forall i :: 0 < i < |missing| ==> Parent(missing[i]) == missing[i - 1])
    && (if end in ns || end == [] then missing == [] else missing != [] && missing[|missing| - 1] == end)
  }

  lemma StretchMore(ns: Nodes, missing: seq<Path>, end: Path)
    requires end != [] && Stretch(ns, missing, Parent(end)) && (end in ns ==> Parent(end) in ns)
    ensures Stretch(ns, missing + (if end in ns then [] else [end]), end)
  {
  }

  // ---- one target ----------------------------------------------------------------------

  datatype LinkCheck = Linked | Clear | Unknown

  predicate IsLink(ns: Nodes, p: Path) { p in ns && ns[p].Link? }

  /** No link among the components from a depth on, as far down as there are any. */
  ghost predicate LinkFree(ns: Nodes, path: Path, from: nat) {
    forall k :: from <= k <= |path| && IsLink(ns, path[..k]) ==> exists i :: from <= i < k && path[..i] !in ns
  }

  function FirstDepth(path: Path, root: Option<Path>): nat {
    if root.Some? && root.value < path then |root.value| + 1 else |path|
  }

  /** `_symlinked_component`: the root itself is exempt, everything below it is looked at. */
  method SymlinkedComponent(m: Machine, path: Path, root: Option<Path>) returns (r: LinkCheck)
    modifies m`tick
    ensures old(m.tick) <= m.tick
    ensures match r
            case Clear => LinkFree(m.nodes, path, FirstDepth(path, root))
            case Linked => !LinkFree(m.nodes, path, FirstDepth(path, root))
            case Unknown => !m.Quiet(old(m.tick), m.tick)
  {
    var depth := FirstDepth(path, root);
    while depth <= |path|
      invariant FirstDepth(path, root) <= depth <= |path| + 1 && old(m.tick) <= m.tick
      invariant forall k :: FirstDepth(path, root) <= k < depth ==> path[..k] in m.nodes && !IsLink(m.nodes, path[..k])
      decreases |path| + 1 - depth
    {
      var info := m.Lstat(path[..depth]);
      match info {
        case Absent => return Clear;
        case Unreadable => return Unknown;
        case Found(node) => if node.Link? { return Linked; }
      }
      depth := depth + 1;
    }
    return Clear;
  }

  lemma NoLinkAbove(ns: Nodes, path: Path, from: nat)
    requires path != [] && Reachable(ns, Parent(path)) && !IsLink(ns, path)
    ensures LinkFree(ns, path, from)
  {
    assert path[..|path|] == path;
    forall k | from <= k <= |path| ensures !IsLink(ns, path[..k]) {
      if k < |path| { assert Parent(path)[..k] == path[..k]; }
    }
  }

  lemma ReachableIn(ns: Nodes, d: Path)
    requires Tree(ns) && IsDir(ns, d)
    ensures Reachable(ns, d)
  {
    forall k | 0 <= k <= |d| ensures IsDir(ns, d[..k]) {
      if k < |d| { PrefixIsDir(ns, d, k); } else { assert d[..k] == d; }
    }
    assert d[..0] == [];
  }

  lemma PrefixIsDir(ns: Nodes, path: Path, depth: nat)
    requires Tree(ns) && depth < |path| && path in ns
    ensures IsDir(ns, path[..depth])
    decreases |path| - depth
  {
    if depth + 1 < |path| { PrefixIsDir(ns, path, depth + 1); }
    assert path[..|path|] == path;
    assert Parent(path[..depth + 1]) == path[..depth];
  }

  /** `_read_snapshot`: text and mode, both absent for no file; `None` is a refusal. */
  method ReadSnapshot(m: Machine, path: Path, root: Option<Path>) returns (r: Option<(Option<string>, Option<nat>)>)
    modifies m`tick
    ensures old(m.tick) <= m.tick
    ensures r.Some? ==>
      r.value == if IsFile(m.nodes, path) then (Some(m.nodes[path].data), Some(m.nodes[path].mode)) else (None, None)
    ensures r.Some? ==> LinkFree(m.nodes, path, FirstDepth(path, root)) && (path in m.nodes ==> IsFile(m.nodes, path))
    ensures r.None? && m.Quiet(old(m.tick), m.tick) ==>
              !LinkFree(m.nodes, path, FirstDepth(path, root)) || (path in m.nodes && !IsFile(m.nodes, path))
  {
    hide LinkFree;
    var link := SymlinkedComponent(m, path, root);
    if !link.Clear? { return None; }
    var info := m.Lstat(path);
    match info
    case Unreadable => return None;
    case Absent => return Some((None, None));
    case Found(node) =>
      if !node.File? { return None; }
      var text := m.ReadBytes(path);
      if text.None? { return None; }
      return Some((text, Some(node.mode)));
  }

  function BackupPath(p: Path, stamp: string): Path
    requires p != []
  {
    Parent(p) + [p[|p| - 1] + BACKUP_INFIX + stamp]
  }

  lemma BackupApart(p: Path, q: Path, stamp: string)
    requires p != [] && q != []
    ensures BackupPath(p, stamp) != p && BackupPath(p, stamp) != [] && Parent(BackupPath(p, stamp)) == Parent(p)
    ensures BackupPath(p, stamp) == BackupPath(q, stamp) ==> p == q
  {
    var b, c := BackupPath(p, stamp), BackupPath(q, stamp);
    var x, y := p[|p| - 1], q[|q| - 1];
    assert b[|b| - 1] == x + BACKUP_INFIX + stamp && c[|c| - 1] == y + BACKUP_INFIX + stamp;
    assert |b[|b| - 1]| > |x| && Parent(b) == Parent(p) && Parent(c) == Parent(q);
    if b == c {
      assert x == b[|b| - 1][..|x|] && y == c[|c| - 1][..|y|];
      assert p == Parent(p) + [x] && q == Parent(q) + [y];
    }
  }

  /** Equal everywhere but at some paths. */
  ghost predicate SameBut(a: Nodes, b: Nodes, s: set<Path>) {
    forall p :: p !in s ==> (p in a <==> p in b) && (p in a ==> a[p] == b[p])
  }

  /** `_write_backup`: never over anything, and kept even when half done. */
  method WriteBackup(m: Machine, target: Target, mode: nat, stamp: string) returns (ok: bool, at: nat, backup: Path)
    requires target.path != []
    modifies m
    ensures old(m.tick) <= at <= m.tick && m.tick == at && backup == BackupPath(target.path, stamp)
    ensures backup in m.nodes && backup !in old(m.nodes) ==> m.nodes[backup].File? && IsDir(old(m.nodes), Parent(backup))
    ensures SameBut(old(m.nodes), m.nodes, {backup}) && (backup in old(m.nodes) ==> m.nodes == old(m.nodes))
    ensures ok ==> backup !in old(m.nodes) && IsFile(old(m.nodes), target.path) && backup in m.nodes
                   && m.nodes[backup] == File(old(m.nodes)[target.path].data, if target.userLevel then 0x180 else mode)
    ensures !ok && m.Quiet(old(m.tick), m.tick) ==>
              backup in old(m.nodes) || !IsDir(old(m.nodes), Parent(backup)) || !IsFile(old(m.nodes), target.path)
  {
    backup := BackupPath(target.path, stamp);
    BackupApart(target.path, target.path, stamp);
    var kept := if target.userLevel then 0x180 else mode;
    ok := m.CreateExclusive(backup, kept);
    at := m.tick;
    if !ok { return; }
    ghost var before := m.nodes;
    var data := m.ReadBytes(target.path);
    at := m.tick;
    if data.None? { return false, at, backup; }
    ok := m.WriteBytes(backup, data.value);
    at := m.tick;
    if !ok { return; }
    ok := m.Chmod(backup, kept);
    at := m.tick;
  }

  // ---- what a write leaves ---------------------------------------------------------------

  /** The pre-image is where rollback will look for it. */
  ghost predicate BackedUp(prev: Nodes, next: Nodes, w: Write) {
    var path := w.target.path;
    && path != [] && w.backup.Some? && w.backup.value != [] && Parent(w.backup.value) == Parent(path) && w.backup.value != path
    && w.created == [] && IsFile(prev, path) && w.mode == Some(prev[path].mode)
    && w.backup.value !in prev && IsFile(next, w.backup.value) && next[w.backup.value].data == prev[path].data
    && SameBut(prev, next, {path, w.backup.value})
  }

  /** A replacement, a new file, or a deletion that happened. */
  ghost predicate Landed(prev: Nodes, next: Nodes, w: Write) {
    var path := w.target.path;
    if w.backup.None? then
      && path != [] && path !in prev && w.written.Some? && IsFile(next, path) && next[path].data == w.written.value
      && Climbed(prev, next - {path}, w.created) && IsDir(next - {path}, Parent(path))
      && (w.created != [] ==> w.created[0].path == Parent(path))
    else
      && BackedUp(prev, next, w)
      && (if w.written.Some? then path in next && next[path] == File(w.written.value, w.mode.value) else path !in next)
  }

  /** A deletion on the ledger whose `unlink` never happened. */
  ghost predicate Unlanded(prev: Nodes, next: Nodes, w: Write) {
    w.written.None? && BackedUp(prev, next, w) && w.target.path in next && next[w.target.path] == prev[w.target.path]
  }

  /** As `n` outside the backups, which are all there. */
  ghost predicate Approx(m: Nodes, n: Nodes, backups: set<Path>) {
    SameBut(m, n, backups) && forall b :: b in backups && b in n ==> b in m && m[b] == n[b]
  }

  /** How writing one target can end; `at` is the tick just after the failure. */
  ghost predicate Outcome(prev: Nodes, next: Nodes, target: Target, text: string, stamp: string, ok: bool, quiet: bool, recorded: Option<Write>)
    requires target.path != []
  {
    var backup := BackupPath(target.path, stamp);
    && (recorded.Some? ==>
          && recorded.value.target == target && (recorded.value.backup.Some? ==> recorded.value.backup.value == backup)
          && (if ok then Landed(prev, next, recorded.value) else Unlanded(prev, next, recorded.value))
          && recorded.value.written == (if text == "" && target.deleteIfEmptied && recorded.value.backup.Some? then None else Some(text)))
    && (ok ==> recorded.Some?)
    && (!ok && recorded.None? && quiet ==> Approx(next, prev, {backup}))
    && ((ok || recorded.Some? || quiet) && backup in next && backup !in prev ==> IsFile(prev, target.path))
  }

  /** A target that was not there: its directories, then the file. */
  method WriteNew(m: Machine, target: Target, text: string, root: Option<Path>, stamp: string, mode: nat)
    returns (ok: bool, at: nat, recorded: Option<Write>)
    requires target.path != []
    modifies m
    ensures old(m.tick) <= at <= m.tick && FilesStay(old(m.nodes), m.nodes, {target.path})
    ensures (recorded.Some? ==> recorded.value.target == target) && (ok ==> recorded.Some?)
    ensures Tree(old(m.nodes)) && target.path !in old(m.nodes) ==>
              Outcome(old(m.nodes), m.nodes, target, text, stamp, ok, m.Quiet(at, m.tick), recorded)
    ensures ok ==> target.path in m.nodes && m.nodes[target.path] == File(text, mode)
    ensures !ok && Tree(old(m.nodes)) && target.path !in old(m.nodes) && Reachable(old(m.nodes), Parent(target.path)) ==>
              !m.Quiet(old(m.tick), m.tick)
  {
    assert |Parent(target.path)| < |target.path|;
    hide *;
    var created;
    ok, at, created := MakeDirs(m, Parent(target.path));
    ghost var ns, climbed := old(m.nodes), m.nodes;
    FilesStayToo(ns, climbed, target.path);
    if !ok {
      if Tree(ns) { Untouched(ns, m.nodes, target, text, stamp, m.Quiet(at, m.tick)); }
      return false, at, None;
    }
    ghost var made := m.tick;
    if Tree(ns) && target.path !in ns { NotThereYet(ns, climbed, created, target.path); }
    ok, at := m.ReplaceAtomically(target.path, text, mode);
    ghost var tried := m.tick;
    DirIs(climbed, target.path);
    ReplacedStays(ns, climbed, m.nodes, target.path);
    if ok {
      recorded := Some(Write(target, None, None, Some(text), root, created));
      if Tree(ns) && target.path !in ns { NewFile(ns, climbed, m.nodes, target, text, stamp, mode, recorded.value); }
      return true, at, recorded;
    }
    ghost var mid := m.tick;
    if Tree(ns) && m.nodes == climbed { TakeBack(ns, climbed, created); }
    ghost var replaced := m.nodes;
    RemoveCreatedDirs(m, created);
    DirsGone(ns, replaced, m.nodes, created, {target.path});
    QuietSplit(m, at, mid, m.tick);
    QuietWithin(m, old(m.tick), made, tried, m.tick);
    if Tree(ns) { Untouched(ns, m.nodes, target, text, stamp, m.Quiet(at, m.tick)); }
    return false, at, None;
  }

  lemma QuietWithin(m: Machine, from: nat, a: nat, b: nat, to: nat)
    requires from <= a <= b <= to
    ensures m.Quiet(from, to) ==> m.Quiet(a, b)
  {
  }

  lemma DirIs(ns: Nodes, p: Path)
    ensures IsDir(ns, p) <==> p in ns && ns[p].Dir?
  {
  }

  lemma NotThereYet(ns: Nodes, climbed: Nodes, created: seq<CreatedDir>, p: Path)
    requires Climbed(ns, climbed, created) && p !in ns && forall i :: 0 <= i < |created| ==> |created[i].path| < |p|
    ensures p !in climbed
  {
    ClimbedParts(ns, climbed, created);
    hide Climbed, Claims, Nested;
  }

  lemma FilesStayToo(ns: Nodes, ns': Nodes, but: Path)
    requires FilesStay(ns, ns', {})
    ensures FilesStay(ns, ns', {but})
  {
  }

  lemma ReplacedStays(ns: Nodes, mid: Nodes, ns': Nodes, p: Path)
    requires FilesStay(ns, mid, {p}) && (Spares(mid, ns') || (p in ns' && ns' == mid[p := ns'[p]]))
    ensures FilesStay(ns, ns', {p})
  {
  }

  lemma QuietSplit(m: Machine, from: nat, mid: nat, to: nat)
    requires from <= mid <= to
    ensures m.Quiet(from, to) <==> m.Quiet(from, mid) && m.Quiet(mid, to)
  {
  }

  lemma Untouched(prev: Nodes, next: Nodes, target: Target, text: string, stamp: string, quiet: bool)
    requires target.path != [] && (quiet ==> next == prev)
    ensures Outcome(prev, next, target, text, stamp, false, quiet, None)
  {
  }

  lemma NewFile(ns: Nodes, climbed: Nodes, next: Nodes, target: Target, text: string, stamp: string, mode: nat, w: Write)
    requires target.path != [] && target.path !in ns && Climbed(ns, climbed, w.created)
    requires forall i :: 0 <= i < |w.created| ==> |w.created[i].path| < |target.path|
    requires next == climbed[target.path := File(text, mode)] && IsDir(climbed, Parent(target.path))
    requires w.created != [] ==> w.created[0].path == Parent(target.path)
    requires w == Write(target, None, None, Some(text), w.root, w.created)
    ensures Outcome(ns, next, target, text, stamp, true, true, Some(w)) && Outcome(ns, next, target, text, stamp, true, false, Some(w))
  {
    BackupApart(target.path, target.path, stamp);
    assert target.path !in climbed && (BackupPath(target.path, stamp) in climbed ==> BackupPath(target.path, stamp) in ns);
    assert next - {target.path} == climbed;
  }

  /** A target that was there: its backup, then the deletion or the replacement. */
  method Rewrite(m: Machine, target: Target, original: nat, text: string, root: Option<Path>, stamp: string)
    returns (ok: bool, at: nat, recorded: Option<Write>)
    requires target.path != []
    modifies m
    ensures old(m.tick) <= at <= m.tick && FilesStay(old(m.nodes), m.nodes, {target.path})
    ensures (recorded.Some? ==> recorded.value.target == target) && (ok ==> recorded.Some?)
    ensures Usual(old(m.nodes), target, original) ==>
              Outcome(old(m.nodes), m.nodes, target, text, stamp, ok, m.Quiet(at, m.tick), recorded)
    ensures ok && Usual(old(m.nodes), target, original) ==>
              var backup := BackupPath(target.path, stamp);
              IsFile(m.nodes, backup) && m.nodes[backup].mode == if target.userLevel then 0x180 else original
    ensures !ok && Usual(old(m.nodes), target, original) && BackupPath(target.path, stamp) !in old(m.nodes) ==>
              !m.Quiet(old(m.tick), m.tick)
  {
    hide *;
    BackupApart(target.path, target.path, stamp);
    ghost var ns := m.nodes;
    UsualIs(ns, target, original);
    if Usual(ns, target, original) { ParentThere(ns, target.path); }
    var created;
    ok, at, created := MakeDirs(m, Parent(target.path));
    FilesStayToo(ns, m.nodes, target.path);
    if !ok { return false, at, None; }
    ghost var climbed, made := m.nodes, m.tick;
    var backup;
    ok, at, backup := WriteBackup(m, target, original, stamp);
    ghost var kept, backed := m.nodes, m.tick;
    BackupStays(ns, climbed, kept, target.path, backup);
    if !ok {
      RemoveCreatedDirs(m, created);
      DirsGone(ns, kept, m.nodes, created, {target.path});
      if created == [] { NoDirsGone(kept, m.nodes, created); }
      QuietWithin(m, old(m.tick), made, backed, m.tick);
      if Usual(ns, target, original) { HalfBackup(ns, kept, m.nodes, target, text, stamp, m.Quiet(at, m.tick)); }
      return false, at, None;
    }
    var w := Write(target, Some(backup), Some(original), if text == "" && target.deleteIfEmptied then None else Some(text), root, created);
    if Usual(ns, target, original) {
      PreImage(ns, kept, w, stamp);
      ParentKept(ns, kept, w);
    }
    ok, at, recorded := Overwrite(m, w, text, stamp, ns);
    FileIs(m.nodes, backup);
    QuietWithin(m, old(m.tick), backed, m.tick, m.tick);
  }

  lemma ParentKept(ns: Nodes, kept: Nodes, w: Write)
    requires PreImageKept(ns, kept, w) && Tree(ns)
    ensures IsDir(kept, Parent(w.target.path))
  {
  }

  ghost predicate Usual(ns: Nodes, target: Target, original: nat) {
    Tree(ns) && IsFile(ns, target.path) && ns[target.path].mode == original
  }

  lemma UsualIs(ns: Nodes, target: Target, original: nat)
    ensures Usual(ns, target, original) <==> Tree(ns) && IsFile(ns, target.path) && ns[target.path].mode == original
    ensures Usual(ns, target, original) ==> target.path in ns && IsFile(ns, target.path)
  {
    hide Tree;
  }

  /** The pre-image is kept; what is left of `Rewrite`. */
  method Overwrite(m: Machine, w: Write, text: string, stamp: string, ghost ns: Nodes) returns (ok: bool, at: nat, recorded: Option<Write>)
    requires w.target.path != [] && w.mode.Some? && w.written == if text == "" && w.target.deleteIfEmptied then None else Some(text)
    requires w.backup == Some(BackupPath(w.target.path, stamp)) && FilesStay(ns, m.nodes, {w.target.path})
    modifies m
    ensures old(m.tick) <= at <= m.tick && FilesStay(ns, m.nodes, {w.target.path})
    ensures (recorded.Some? ==> recorded.value == w) && (ok ==> recorded.Some?)
    ensures PreImageKept(ns, old(m.nodes), w) ==> Outcome(ns, m.nodes, w.target, text, stamp, ok, m.Quiet(at, m.tick), recorded)
    ensures !ok && PreImageKept(ns, old(m.nodes), w) && IsDir(old(m.nodes), Parent(w.target.path)) ==> !m.Quiet(old(m.tick), m.tick)
    ensures ok && PreImageKept(ns, old(m.nodes), w) ==>
              w.backup.value in m.nodes && w.backup.value in old(m.nodes) && m.nodes[w.backup.value] == old(m.nodes)[w.backup.value]
  {
    hide *;
    var path := w.target.path;
    ghost var kept, usual := m.nodes, PreImageKept(ns, m.nodes, w);
    PreImageParts(ns, kept, w);
    DirIs(kept, path);
    if w.written.None? {
      ok := m.Unlink(path, false);
      if m.fails(old(m.tick)) { NotQuiet(m, old(m.tick), old(m.tick), m.tick); }
      UnlinkedStays(ns, kept, m.nodes, path);
      if usual { Deleted(ns, kept, m.nodes, text, stamp, ok, m.Quiet(m.tick, m.tick), w); }
      return ok, m.tick, Some(w);
    }
    ok, at := m.ReplaceAtomically(path, text, w.mode.value);
    QuietWithin(m, old(m.tick), old(m.tick), m.tick, m.tick);
    ReplacedStays(ns, kept, m.nodes, path);
    if ok {
      if usual { Rewritten(ns, kept, m.nodes, text, stamp, m.Quiet(at, m.tick), w); }
      return true, at, Some(w);
    }
    ghost var mid, replaced := m.tick, m.nodes;
    RemoveCreatedDirs(m, w.created);
    DirsGone(ns, replaced, m.nodes, w.created, {path});
    QuietSplit(m, at, mid, m.tick);
    QuietWithin(m, old(m.tick), old(m.tick), mid, m.tick);
    if w.created == [] { NoDirsGone(replaced, m.nodes, w.created); }
    if usual { KeptOnly(ns, kept, m.nodes, w, text, stamp, m.Quiet(at, m.tick)); }
    return false, at, None;
  }

  /** The backup holds the pre-image and the target is still there. */
  ghost predicate PreImageKept(ns: Nodes, kept: Nodes, w: Write) {
    BackedUp(ns, kept, w) && w.target.path in kept && kept[w.target.path] == ns[w.target.path]
  }

  lemma PreImageParts(ns: Nodes, kept: Nodes, w: Write)
    ensures PreImageKept(ns, kept, w) ==>
              && w.target.path in kept && kept[w.target.path].File? && w.backup.Some? && w.backup.value in kept
              && w.backup.value != w.target.path
  {
  }

  lemma KeptOnly(ns: Nodes, kept: Nodes, next: Nodes, w: Write, text: string, stamp: string, quiet: bool)
    requires PreImageKept(ns, kept, w) && w.backup == Some(BackupPath(w.target.path, stamp)) && w.target.path != []
    requires w.created == [] && quiet ==> next == kept
    ensures w.created == [] && Outcome(ns, next, w.target, text, stamp, false, quiet, None)
  {
  }

  lemma ParentThere(ns: Nodes, p: Path)
    requires Tree(ns) && p in ns && p != []
    ensures Parent(p) in ns && IsDir(ns, Parent(p))
  {
  }

  lemma NoDirsGone(ns: Nodes, ns': Nodes, created: seq<CreatedDir>)
    requires OnlyOurDirs(ns, ns', created) && created == []
    ensures ns' == ns
  {
  }

  lemma BackupStays(ns: Nodes, mid: Nodes, ns': Nodes, p: Path, backup: Path)
    requires FilesStay(ns, mid, {p}) && SameBut(mid, ns', {backup}) && (backup in mid ==> ns' == mid)
    ensures FilesStay(ns, ns', {p})
  {
  }

  lemma UnlinkedStays(ns: Nodes, mid: Nodes, ns': Nodes, p: Path)
    requires FilesStay(ns, mid, {p}) && (ns' == mid || ns' == mid - {p})
    ensures FilesStay(ns, ns', {p})
  {
  }

  lemma HalfBackup(ns: Nodes, kept: Nodes, next: Nodes, target: Target, text: string, stamp: string, quiet: bool)
    requires target.path != [] && IsFile(ns, target.path) && (quiet ==> next == kept)
    requires var backup := BackupPath(target.path, stamp);
             SameBut(ns, kept, {backup}) && (backup in ns ==> kept == ns)
    ensures Outcome(ns, next, target, text, stamp, false, quiet, None)
  {
  }

  lemma PreImage(ns: Nodes, kept: Nodes, w: Write, stamp: string)
    requires w.target.path != [] && w.mode.Some? && Usual(ns, w.target, w.mode.value) && w.created == []
    requires w.backup == Some(BackupPath(w.target.path, stamp)) && IsFile(ns, w.target.path)
    requires w.backup.value !in ns && IsFile(kept, w.backup.value) && kept[w.backup.value].data == ns[w.target.path].data
    requires SameBut(ns, kept, {w.backup.value})
    ensures PreImageKept(ns, kept, w)
  {
    BackupApart(w.target.path, w.target.path, stamp);
  }

  lemma Deleted(ns: Nodes, kept: Nodes, next: Nodes, text: string, stamp: string, ok: bool, quiet: bool, w: Write)
    requires PreImageKept(ns, kept, w) && w.target.path != []
    requires w.backup == Some(BackupPath(w.target.path, stamp)) && w.written == None && text == "" && w.target.deleteIfEmptied
    requires if ok then next == kept - {w.target.path} else next == kept
    ensures Outcome(ns, next, w.target, text, stamp, ok, quiet, Some(w))
  {
  }

  lemma Rewritten(ns: Nodes, kept: Nodes, next: Nodes, text: string, stamp: string, quiet: bool, w: Write)
    requires PreImageKept(ns, kept, w) && w.target.path != [] && w.mode.Some? && next == kept[w.target.path := File(text, w.mode.value)]
    requires w.backup == Some(BackupPath(w.target.path, stamp)) && w.written == Some(text) && !(text == "" && w.target.deleteIfEmptied)
    ensures Outcome(ns, next, w.target, text, stamp, true, quiet, Some(w))
  {
  }

  /** The target is as planning read it. */
  ghost predicate AsRead(ns: Nodes, snapshot: Snapshot) {
    var path := snapshot.target.path;
    if IsFile(ns, path) then snapshot.text == Some(ns[path].data) && snapshot.mode == Some(ns[path].mode)
    else snapshot.text == None && snapshot.mode == None && path !in ns
  }

  /** The target can be written: as planning read it, behind directories only, with room for its backup. */
  ghost predicate Ready(ns: Nodes, snapshot: Snapshot, stamp: string)
    requires snapshot.target.path != []
  {
    && AsRead(ns, snapshot) && Reachable(ns, Parent(snapshot.target.path))
    && (IsFile(ns, snapshot.target.path) ==> BackupPath(snapshot.target.path, stamp) !in ns)
  }

  /** The modes of what is written: a new file's, and a backup's; both private for a target of the user. */
  ghost predicate Modes(ns: Nodes, ns': Nodes, target: Target, stamp: string, umaskMode: nat)
    requires target.path != []
  {
    var backup := BackupPath(target.path, stamp);
    if IsFile(ns, target.path) then IsFile(ns', backup) && ns'[backup].mode == if target.userLevel then 0x180 else ns[target.path].mode
    else IsFile(ns', target.path) && ns'[target.path].mode == if target.userLevel then 0x180 else umaskMode
  }

  /** What landed was written where it could be. */
  lemma LandedReady(prev: Nodes, next: Nodes, w: Write, snapshot: Snapshot, stamp: string)
    requires Tree(prev) && Landed(prev, next, w) && w.target == snapshot.target && AsRead(prev, snapshot) && snapshot.target.path != []
    requires w.backup.Some? ==> w.backup.value == BackupPath(snapshot.target.path, stamp)
    ensures Ready(prev, snapshot, stamp)
  {
    var path := snapshot.target.path;
    if w.backup.None? {
      var mid := next - {path};
      ClimbedTree(prev, mid, w.created);
      ReachableIn(mid, Parent(path));
      ClimbedParts(prev, mid, w.created);
      ReachedBefore(prev, mid, w.created, Parent(path));
    } else {
      ParentThere(prev, path);
      ReachableIn(prev, Parent(path));
    }
    hide Tree, Climbed, Reachable;
  }

  lemma ReachedBefore(prev: Nodes, mid: Nodes, created: seq<CreatedDir>, d: Path)
    requires Reachable(mid, d) && OnlyAdded(prev, mid, created) && Claims(prev, mid, created)
    ensures Reachable(prev, d)
  {
    assert [] in prev;
  }

  /**
   `_write_target`: the target is read again and refused if it moved. A deletion is recorded
   before it is done, a replacement after. If nothing fails it is written exactly where it can be.
   */
  method WriteTarget(m: Machine, snapshot: Snapshot, text: string, root: Option<Path>, stamp: string, umaskMode: nat)
    returns (ok: bool, at: nat, recorded: Option<Write>)
    requires snapshot.target.path != []
    modifies m
    ensures old(m.tick) <= at <= m.tick && FilesStay(old(m.nodes), m.nodes, {snapshot.target.path})
    ensures (recorded.Some? ==> recorded.value.target == snapshot.target) && (ok ==> recorded.Some?)
    ensures Tree(old(m.nodes)) ==>
              Outcome(old(m.nodes), m.nodes, snapshot.target, text, stamp, ok, m.Quiet(at, m.tick), recorded)
    ensures ok && Tree(old(m.nodes)) ==> Ready(old(m.nodes), snapshot, stamp) && Modes(old(m.nodes), m.nodes, snapshot.target, stamp, umaskMode)
    ensures !ok && Tree(old(m.nodes)) && Ready(old(m.nodes), snapshot, stamp) ==> !m.Quiet(old(m.tick), m.tick)
  {
    hide *;
    var target := snapshot.target;
    ghost var ns := m.nodes;
    ReadyParts(ns, snapshot, stamp, FirstDepth(target.path, root));
    FileIs(ns, target.path);
    var read := ReadSnapshot(m, target.path, root);
    ghost var since := m.tick;
    if read != Some((snapshot.text, snapshot.mode)) {
      Untouched(ns, ns, target, text, stamp, m.Quiet(m.tick, m.tick));
      SparedAll(ns, target.path);
      return false, m.tick, None;
    }
    ReadAs(ns, snapshot);
    if snapshot.mode.None? {
      ok, at, recorded := WriteNew(m, target, text, root, stamp, if target.userLevel then 0x180 else umaskMode);
    } else {
      UsualIs(ns, target, snapshot.mode.value);
      ok, at, recorded := Rewrite(m, target, snapshot.mode.value, text, root, stamp);
    }
    QuietWithin(m, old(m.tick), since, m.tick, m.tick);
    if ok && Tree(ns) {
      OutcomeLanded(ns, m.nodes, target, text, stamp, m.Quiet(at, m.tick), recorded.value);
      LandedReady(ns, m.nodes, recorded.value, snapshot, stamp);
      FileIs(m.nodes, BackupPath(target.path, stamp));
      ModesIs(ns, m.nodes, target, stamp, umaskMode);
    }
  }

  lemma ReadyParts(ns: Nodes, snapshot: Snapshot, stamp: string, depth: nat)
    requires snapshot.target.path != []
    ensures Ready(ns, snapshot, stamp) ==>
              && AsRead(ns, snapshot) && Reachable(ns, Parent(snapshot.target.path)) && LinkFree(ns, snapshot.target.path, depth)
              && (snapshot.target.path in ns ==> IsFile(ns, snapshot.target.path) && BackupPath(snapshot.target.path, stamp) !in ns)
              && (if snapshot.target.path in ns then ns[snapshot.target.path].File?
                     && snapshot.text == Some(ns[snapshot.target.path].data) && snapshot.mode == Some(ns[snapshot.target.path].mode)
                  else snapshot.text == None && snapshot.mode == None)
  {
    if Ready(ns, snapshot, stamp) { NoLinkAbove(ns, snapshot.target.path, depth); }
    hide Reachable, LinkFree;
  }

  lemma FileIs(ns: Nodes, p: Path)
    ensures IsFile(ns, p) <==> p in ns && ns[p].File?
  {
  }

  lemma SparedAll(ns: Nodes, p: Path)
    ensures FilesStay(ns, ns, {p})
  {
  }

  lemma ReadAs(ns: Nodes, snapshot: Snapshot)
    requires var path := snapshot.target.path;
             if IsFile(ns, path) then path in ns && snapshot.text == Some(ns[path].data) && snapshot.mode == Some(ns[path].mode)
             else snapshot.text == None && snapshot.mode == None && path !in ns
    ensures AsRead(ns, snapshot)
  {
  }

  lemma OutcomeLanded(prev: Nodes, next: Nodes, target: Target, text: string, stamp: string, quiet: bool, w: Write)
    requires target.path != [] && Outcome(prev, next, target, text, stamp, true, quiet, Some(w))
    ensures w.target == target && (w.backup.Some? ==> w.backup.value == BackupPath(target.path, stamp)) && Landed(prev, next, w)
  {
    hide Landed, Unlanded;
  }

  lemma ModesIs(ns: Nodes, ns': Nodes, target: Target, stamp: string, umaskMode: nat)
    requires target.path != []
    requires var backup := BackupPath(target.path, stamp);
             if IsFile(ns, target.path) then
               target.path in ns && IsFile(ns', backup) && backup in ns' && ns'[backup].mode == if target.userLevel then 0x180 else ns[target.path].mode
             else target.path in ns' && ns'[target.path].File? && ns'[target.path].mode == if target.userLevel then 0x180 else umaskMode
    ensures Modes(ns, ns', target, stamp, umaskMode)
  {
  }

  // ---- rolling back ----------------------------------------------------------------------

  datatype Report = Restored | RemovedIt | AlreadyFine | LeftAsIs | CouldNot

  /** What a rollback step may change: only what this run left, as this run left it. */
  ghost predicate Careful(ns: Nodes, ns': Nodes, w: Write) {
    && (forall p :: p in ns && (p !in ns' || ns'[p] != ns[p]) ==>
          || (p == w.target.path && IsFile(ns, p) && w.written == Some(ns[p].data))
          || OurDir(ns, w.created, p))
    && (forall p :: p in ns' && p !in ns ==>
          || (p == w.target.path && w.written == None)
          || (ns'[p].File? && p != [] && w.target.path != [] && Parent(p) == Parent(w.target.path)))
  }

  datatype Bytes = Bytes(data: string) | Nothing | NotRegular | Unread

  /** `_current_bytes`. */
  method CurrentBytes(m: Machine, p: Path) returns (r: Bytes)
    modifies m`tick
    ensures old(m.tick) <= m.tick
    ensures match r
            case Bytes(d) => IsFile(m.nodes, p) && m.nodes[p].data == d
            case Nothing => p !in m.nodes
            case NotRegular => p in m.nodes && !m.nodes[p].File?
            case Unread => !m.Quiet(old(m.tick), m.tick)
  {
    var info := m.Lstat(p);
    match info
    case Unreadable => return Unread;
    case Absent => return Nothing;
    case Found(node) =>
      if !node.File? { return NotRegular; }
      var data := m.ReadBytes(p);
      return if data.Some? then Bytes(data.value) else Unread;
  }

  predicate LeftByRun(current: Bytes, written: Option<string>) {
    match written
    case Some(data) => current == Bytes(data)
    case None => current == Nothing
  }

  /** An entry that can be taken back: the disk before it, after it, and all the backups of the run. */
  ghost predicate Entry(prev: Nodes, next: Nodes, w: Write, backups: set<Path>) {
    && (Landed(prev, next, w) || Unlanded(prev, next, w))
    && Tree(prev) && Tree(next) && w.target.path !in backups && (w.backup.Some? ==> w.backup.value in backups)
    && forall b :: b in backups ==> b != [] && IsDir(prev, Parent(b)) && IsDir(next, Parent(b))
  }

  lemma ApproxTree(m: Nodes, n: Nodes, backups: set<Path>)
    requires Tree(n) && Approx(m, n, backups) && forall b :: b in backups ==> b != [] && IsDir(n, Parent(b))
    ensures Tree(m)
  {
    forall p | p in m && p != [] ensures IsDir(m, Parent(p)) {
      assert IsDir(n, Parent(p));
    }
  }

  /** What the entry left is still there. */
  lemma StillThere(m: Nodes, prev: Nodes, next: Nodes, w: Write, backups: set<Path>)
    requires Entry(prev, next, w, backups) && Approx(m, next, backups)
    ensures var path := w.target.path;
            && path != [] && Tree(m) && IsDir(m, Parent(path)) && !IsLink(m, path)
            && (path in m <==> path in next) && (path in m ==> m[path] == next[path] && m[path].File?)
            && (w.backup.Some? ==> w.mode.Some? && IsFile(m, w.backup.value) && IsFile(prev, path)
                                   && prev[path] == File(m[w.backup.value].data, w.mode.value))
            && (w.backup.None? ==> path !in prev && w.written.Some?)
  {
    ApproxTree(m, next, backups);
    var path := w.target.path;
    if w.backup.Some? { assert IsDir(prev, Parent(path)) && IsDir(next, Parent(path)); }
    hide Tree;
    hide Climbed;
  }

  lemma ReplacedBack(m: Nodes, prev: Nodes, next: Nodes, w: Write, backups: set<Path>)
    requires Entry(prev, next, w, backups) && Approx(m, next, backups) && w.backup.Some?
    ensures w.target.path in prev && Approx(m[w.target.path := prev[w.target.path]], prev, backups) && w.created == []
    ensures Unlanded(prev, next, w) ==> Approx(m, prev, backups)
  {
    hide Tree;
    hide Climbed;
  }

  lemma RemovedBack(m: Nodes, prev: Nodes, next: Nodes, w: Write, backups: set<Path>)
    requires Entry(prev, next, w, backups) && Approx(m, next, backups) && w.backup.None?
    ensures var m' := m - {w.target.path};
            Stack(m', w.created) && Approx(m' - Paths(w.created), prev, backups)
  {
    var path := w.target.path;
    var mid, m' := next - {path}, m - {path};
    assert Climbed(prev, mid, w.created);
    ClimbedParts(prev, mid, w.created);
    CreatedKept(prev, next, w, m, backups);
    ClimbedStack(prev, mid, w.created, m');
    ClimbedBack(prev, mid, w.created);
    NoBackupCreated(prev, mid, w.created, backups);
    hide *;
    BackTogether(prev, mid, m', w.created, backups, path, m, next);
  }

  lemma NoBackupCreated(prev: Nodes, mid: Nodes, created: seq<CreatedDir>, backups: set<Path>)
    requires Claims(prev, mid, created)
    ensures forall p :: p in Paths(created) ==> p !in prev
  {
  }

  lemma CreatedKept(prev: Nodes, next: Nodes, w: Write, m: Nodes, backups: set<Path>)
    requires Entry(prev, next, w, backups) && Approx(m, next, backups) && w.backup.None?
    requires Claims(prev, next - {w.target.path}, w.created)
    ensures var mid, m' := next - {w.target.path}, m - {w.target.path};
            && (forall i :: 0 <= i < |w.created| ==> w.created[i].path in m' && m'[w.created[i].path] == mid[w.created[i].path])
            && forall q, i :: q in m' && q !in mid && q != [] && 0 <= i < |w.created| ==> Parent(q) != w.created[i].path
  {
    hide Tree;
    hide Climbed;
  }

  lemma BackTogether(prev: Nodes, mid: Nodes, m': Nodes, created: seq<CreatedDir>, backups: set<Path>,
                     path: Path, m: Nodes, next: Nodes)
    requires mid == next - {path} && m' == m - {path} && Approx(m, next, backups) && path !in prev && path !in backups
    requires mid - Paths(created) == prev && forall p :: p in Paths(created) ==> p !in prev
    ensures Approx(m' - Paths(created), prev, backups)
  {
  }

  /** The disk holds what the entry left, so the entry is taken back. */
  method TakeBackWrite(m: Machine, w: Write, ghost prev: Nodes, ghost next: Nodes, ghost backups: set<Path>) returns (r: Report)
    requires w.target.path != []
    requires LeftFile(m.nodes, w)
    modifies m
    ensures old(m.tick) <= m.tick
    ensures Careful(old(m.nodes), m.nodes, w)
    ensures Entry(prev, next, w, backups) && Approx(old(m.nodes), next, backups) && m.Quiet(old(m.tick), m.tick) ==>
              Approx(m.nodes, prev, backups)
    ensures Reports(old(m.nodes), m.nodes, w, r, m.Quiet(old(m.tick), m.tick))
  {
    var path := w.target.path;
    ghost var ns, from := m.nodes, m.tick;
    hide *;
    CarefulSame(ns, w);
    LeftIs(ns, w);
    ghost var usual := Entry(prev, next, w, backups) && Approx(ns, next, backups);
    if usual { StillThere(ns, prev, next, w, backups); }
    if w.backup.None? {
      if usual { RemovedBack(ns, prev, next, w, backups); }
      var gone := m.Unlink(path, true);
      if !gone {
        DirIs(ns, path);
        NotQuiet(m, from, from, m.tick);
        Failed(ns, m.nodes, w, m.Quiet(from, m.tick));
        return CouldNot;
      }
      r := RemovedIt;
    } else {
      if usual { ReplacedBack(ns, prev, next, w, backups); }
      var image := m.ReadBytes(w.backup.value);
      if m.fails(from) { NotQuiet(m, from, from, m.tick); }
      if image.None? || w.mode.None? {
        Failed(ns, m.nodes, w, m.Quiet(from, m.tick));
        return CouldNot;
      }
      ghost var read := m.tick;
      var ok, at := m.ReplaceAtomically(path, image.value, w.mode.value);
      QuietWithin(m, from, read, m.tick, m.tick);
      if !ok {
        CarefulSpares(ns, m.nodes, w);
        QuietSplit(m, old(m.tick), at, m.tick);
        Failed(ns, m.nodes, w, m.Quiet(from, m.tick));
        return CouldNot;
      }
      r := Restored;
    }
    ghost var undone, then_ := m.nodes, m.tick;
    RemoveCreatedDirs(m, w.created);
    CarefulThen(ns, undone, m.nodes, w);
    QuietSplit(m, old(m.tick), then_, m.tick);
    if w.created == [] { NoDirs(undone, m.nodes); }
    TakenBack(ns, undone, m.nodes, w, m.Quiet(old(m.tick), m.tick));
  }

  /** What is reported of an entry is true of the disk. */
  ghost predicate Reports(ns: Nodes, ns': Nodes, w: Write, r: Report, quiet: bool) {
    var path := w.target.path;
    && path != []
    && match r
       case Restored =>
         && LeftFile(ns, w) && w.backup.Some? && w.mode.Some? && IsFile(ns, w.backup.value)
         && path in ns' && ns'[path] == File(ns[w.backup.value].data, w.mode.value)
       case RemovedIt => LeftFile(ns, w) && w.backup.None? && path !in ns'
       case AlreadyFine =>
         && !LeftFile(ns, w) && (path in ns' <==> path in ns) && (path in ns ==> ns'[path] == ns[path])
         && (if path in ns then w.written.None? && w.backup.Some? && IsFile(ns, path) && IsFile(ns, w.backup.value) && ns[path].data == ns[w.backup.value].data
             else w.backup.None?)
       case LeftAsIs => ns' == ns && (!LeftFile(ns, w) || !LinkFree(ns, path, FirstDepth(path, w.root)))
       case CouldNot =>
         !quiet || (w.backup.Some? && (w.mode.None? || !IsFile(ns, w.backup.value) || IsDir(ns, path) || !IsDir(ns, Parent(path))))
  }

  lemma LeftIs(ns: Nodes, w: Write)
    ensures LeftFile(ns, w) <==> if w.written.Some? then w.target.path in ns && ns[w.target.path].File? && ns[w.target.path].data == w.written.value
                                 else w.target.path !in ns
  {
  }

  lemma Failed(ns: Nodes, ns': Nodes, w: Write, quiet: bool)
    requires w.target.path != []
    requires !quiet || (w.backup.Some? && (w.mode.None? || !IsFile(ns, w.backup.value) || IsDir(ns, w.target.path) || !IsDir(ns, Parent(w.target.path))))
    ensures Reports(ns, ns', w, CouldNot, quiet)
  {
  }

  lemma TakenBack(ns: Nodes, undone: Nodes, ns': Nodes, w: Write, quiet: bool)
    requires w.target.path != [] && LeftFile(ns, w) && OnlyOurDirs(undone, ns', w.created)
    requires if w.backup.None? then undone == ns - {w.target.path}
             else w.mode.Some? && IsFile(ns, w.backup.value)
                  && undone == ns[w.target.path := File(ns[w.backup.value].data, w.mode.value)]
    ensures Reports(ns, ns', w, if w.backup.None? then RemovedIt else Restored, quiet)
  {
  }

  /** The target as the entry left it. */
  ghost predicate LeftFile(ns: Nodes, w: Write) {
    if w.written.Some? then IsFile(ns, w.target.path) && ns[w.target.path].data == w.written.value else w.target.path !in ns
  }

  lemma CarefulSame(ns: Nodes, w: Write)
    ensures Careful(ns, ns, w)
  {
  }

  lemma CarefulSpares(ns: Nodes, ns': Nodes, w: Write)
    requires w.target.path != [] && Spares(ns, ns')
    requires forall q :: q in ns' && q !in ns ==> ns'[q].File? && q != [] && Parent(q) == Parent(w.target.path)
    ensures Careful(ns, ns', w)
  {
  }

  lemma CarefulThen(ns: Nodes, undone: Nodes, ns': Nodes, w: Write)
    requires w.target.path != [] && LeftFile(ns, w) && OnlyOurDirs(undone, ns', w.created)
    requires undone == ns - {w.target.path}
             || (w.target.path in undone && undone[w.target.path].File? && undone == ns[w.target.path := undone[w.target.path]])
    ensures Careful(ns, ns', w)
  {
  }

  lemma NoDirs(ns: Nodes, ns': Nodes)
    requires OnlyOurDirs(ns, ns', [])
    ensures ns' == ns
  {
  }

  /**
   The body of the loop of `_roll_back`. Whatever the disk holds by now, only what this run
   left is touched; and if it holds what the entry left, it then holds what was before.
   */
  method RollBackOne(m: Machine, w: Write, ghost prev: Nodes, ghost next: Nodes, ghost backups: set<Path>) returns (r: Report)
    requires w.target.path != []
    modifies m
    ensures old(m.tick) <= m.tick
    ensures Careful(old(m.nodes), m.nodes, w)
    ensures Entry(prev, next, w, backups) && Approx(old(m.nodes), next, backups) && m.Quiet(old(m.tick), m.tick) ==>
              Approx(m.nodes, prev, backups)
    ensures Reports(old(m.nodes), m.nodes, w, r, m.Quiet(old(m.tick), m.tick))
  {
    hide Entry;
    hide Approx;
    hide Landed;
    hide Unlanded;
    hide Stack;
    hide Tree;
    hide LinkFree;
    hide Reachable;
    ghost var ns, usual := m.nodes, Entry(prev, next, w, backups) && Approx(m.nodes, next, backups);
    if usual {
      StillThere(m.nodes, prev, next, w, backups);
      ReachableIn(m.nodes, Parent(w.target.path));
      NoLinkAbove(m.nodes, w.target.path, FirstDepth(w.target.path, w.root));
    }
    var path := w.target.path;
    var link := SymlinkedComponent(m, path, w.root);
    if link.Unknown? { return CouldNot; }
    if link.Linked? { return LeftAsIs; }
    var current := CurrentBytes(m, path);
    if current.Unread? { return CouldNot; }
    if LeftByRun(current, w.written) {
      r := TakeBackWrite(m, w, prev, next, backups);
      return;
    }
    if usual { NotLeft(ns, prev, next, w, backups, current); }
    if w.written.None? && w.backup.Some? {
      var image := m.ReadBytes(w.backup.value);
      if image.None? { return CouldNot; }
      if current == Bytes(image.value) { return AlreadyFine; }
    }
    if w.backup.None? && current.Nothing? {
      RemoveCreatedDirs(m, w.created);
      return AlreadyFine;
    }
    return LeftAsIs;
  }

  lemma NotLeft(m: Nodes, prev: Nodes, next: Nodes, w: Write, backups: set<Path>, current: Bytes)
    requires Entry(prev, next, w, backups) && Approx(m, next, backups) && !LeftByRun(current, w.written)
    requires match current
             case Bytes(d) => IsFile(m, w.target.path) && m[w.target.path].data == d
             case Nothing => w.target.path !in m
             case _ => w.target.path in m && !IsFile(m, w.target.path)
    ensures Unlanded(prev, next, w) && Approx(m, prev, backups) && w.backup.Some?
  {
    StillThere(m, prev, next, w, backups);
    if w.backup.Some? { ReplacedBack(m, prev, next, w, backups); }
    hide Tree;
    hide Climbed;
    hide Approx;
  }
}
