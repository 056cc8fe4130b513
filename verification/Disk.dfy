/**
 A file system whose every primitive either happens whole or fails, in a script of failures
 that nobody knows beforehand. Nothing here is undone; that is the installer's work. A path
 is a sequence of names from the root, a node a file with its bytes and mode, a directory
 with the identity that `lstat` reports, a link or something else. Each primitive takes one
 tick of the script, and its contract says what it does when it happens and that it changes
 nothing when it fails; `ReplaceAtomically` is the first thing built from them: a temporary
 file beside the target, renamed over it, and removed again when a step before that fails.
 */
module Disk {
  import opened Basics

  type Path = seq<string>

  /** A directory carries the identity that `lstat` reports. */
  datatype Node = File(data: string, mode: nat) | Dir(ident: nat) | Link | Special

  type Nodes = map<Path, Node>

  function Parent(p: Path): Path
    requires p != []
  {
    p[..|p| - 1]
  }

  predicate IsDir(ns: Nodes, p: Path) { p in ns && ns[p].Dir? }

  predicate IsFile(ns: Nodes, p: Path) { p in ns && ns[p].File? }

  /** Every node stands in a directory. */
  ghost predicate Tree(ns: Nodes) {
    forall p :: p in ns && p != [] ==> IsDir(ns, Parent(p))
  }

  ghost predicate Childless(ns: Nodes, p: Path) {
    forall q :: q in ns && q != [] ==> Parent(q) != p
  }

  datatype Made = MadeIt(ident: nat) | WasThere | NotMade

  datatype Stat = Found(node: Node) | Absent | Unreadable

  datatype Removal = Gone | Missing | Kept

  ghost function LongNamed(ns: Nodes, n: nat): set<Path> { set q | q in ns && q != [] && |q[|q| - 1]| >= n }

  lemma FewerLonger(ns: Nodes, p: Path, n: nat)
    requires p in ns && p != [] && |p[|p| - 1]| == n
    ensures LongNamed(ns, n + 1) < LongNamed(ns, n)
  {
    assert p in LongNamed(ns, n) && p !in LongNamed(ns, n + 1);
  }

  class Machine {
    var nodes: Nodes
    var tick: nat
    const fails: nat -> bool
    const names: nat -> string
    const idents: nat -> nat

    constructor (ns: Nodes, fails: nat -> bool, names: nat -> string, idents: nat -> nat)
      ensures nodes == ns && tick == 0
      ensures this.fails == fails && this.names == names && this.idents == idents
    {
      nodes, tick := ns, 0;
      this.fails, this.names, this.idents := fails, names, idents;
    }

    /** No failure from one tick of the script to another. */
    ghost predicate Quiet(from: nat, to: nat) { forall t: nat :: from <= t < to ==> !fails(t) }

    method Attempt() returns (ok: bool)
      modifies this`tick
      ensures tick == old(tick) + 1 && ok == !fails(old(tick))
    {
      ok := !fails(tick);
      tick := tick + 1;
    }

    /** `mkdir`, exclusive. */
    method Mkdir(p: Path) returns (r: Made)
      requires p != []
      modifies this
      ensures tick == old(tick) + 1
      ensures match r
              case MadeIt(i) => p !in old(nodes) && IsDir(old(nodes), Parent(p)) && nodes == old(nodes)[p := Dir(i)]
              case WasThere => nodes == old(nodes) && p in nodes
              case NotMade => nodes == old(nodes) && (fails(old(tick)) || !IsDir(nodes, Parent(p)))
    {
      var ok := Attempt();
      if !ok { return NotMade; }
      if p in nodes { return WasThere; }
      if !IsDir(nodes, Parent(p)) { return NotMade; }
      r := MadeIt(idents(tick));
      nodes := nodes[p := Dir(idents(tick))];
    }

    method Lstat(p: Path) returns (r: Stat)
      modifies this`tick
      ensures tick == old(tick) + 1
      ensures r == if fails(old(tick)) then Unreadable else if p in nodes then Found(nodes[p]) else Absent
    {
      var ok := Attempt();
      r := if !ok then Unreadable else if p in nodes then Found(nodes[p]) else Absent;
    }

    /** `rmdir`: only an empty directory goes. */
    method Rmdir(p: Path) returns (r: Removal)
      modifies this
      ensures tick == old(tick) + 1
      ensures match r
              case Gone => IsDir(old(nodes), p) && Childless(old(nodes), p) && nodes == old(nodes) - {p}
              case Missing => nodes == old(nodes) && p !in nodes
              case Kept => nodes == old(nodes) && (fails(old(tick)) || !IsDir(nodes, p) || !Childless(nodes, p))
    {
      var ok := Attempt();
      if !ok { return Kept; }
      if p !in nodes { return Missing; }
      if !nodes[p].Dir? || exists q :: q in nodes && q != [] && Parent(q) == p { return Kept; }
      nodes := nodes - {p};
      return Gone;
    }

    /** `unlink`; a file that is not there is removed already when `missingOk`. */
    method Unlink(p: Path, missingOk: bool) returns (ok: bool)
      modifies this
      ensures tick == old(tick) + 1
      ensures ok ==> nodes == old(nodes) - {p} && (p in old(nodes) ==> !old(nodes)[p].Dir?)
      ensures !ok ==> nodes == old(nodes)
      ensures !ok ==> fails(old(tick)) || IsDir(nodes, p) || (p !in nodes && !missingOk)
    {
      ok := Attempt();
      if !ok || IsDir(nodes, p) || (p !in nodes && !missingOk) { return false; }
      nodes := nodes - {p};
    }

    method ReadBytes(p: Path) returns (r: Option<string>)
      modifies this`tick
      ensures tick == old(tick) + 1
      ensures r == if fails(old(tick)) || !IsFile(nodes, p) then None else Some(nodes[p].data)
    {
      var ok := Attempt();
      r := if !ok || !IsFile(nodes, p) then None else Some(nodes[p].data);
    }

    /** `mkstemp`: a new empty file beside `p`, under a name nothing has. */
    method MakeTemp(p: Path) returns (t: Option<Path>)
      requires p != []
      modifies this
      ensures tick == old(tick) + 1
      ensures t.Some? ==> t.value != [] && t.value != p && t.value !in old(nodes) && Parent(t.value) == Parent(p)
                          && IsDir(old(nodes), Parent(p)) && nodes == old(nodes)[t.value := File("", 0x180)]
      ensures t.None? ==> nodes == old(nodes) && (fails(old(tick)) || !IsDir(nodes, Parent(p)))
    {
      var ok := Attempt();
      if !ok || !IsDir(nodes, Parent(p)) { return None; }
      var name := p[|p| - 1] + names(tick) + "_";
      while Parent(p) + [name] in nodes
        invariant |name| > |p[|p| - 1]| && nodes == old(nodes) && tick == old(tick) + 1
        decreases LongNamed(nodes, |name|)
      {
        FewerLonger(nodes, Parent(p) + [name], |name|);
        name := name + "_";
      }
      t := Some(Parent(p) + [name]);
      assert Parent(t.value) == Parent(p) && t.value[|t.value| - 1] == name;
      nodes := nodes[t.value := File("", 0x180)];
    }

    /** `open` with O_CREAT and O_EXCL. */
    method CreateExclusive(p: Path, mode: nat) returns (ok: bool)
      requires p != []
      modifies this
      ensures tick == old(tick) + 1
      ensures ok ==> p !in old(nodes) && IsDir(old(nodes), Parent(p)) && nodes == old(nodes)[p := File("", mode)]
      ensures !ok ==> nodes == old(nodes) && (fails(old(tick)) || p in nodes || !IsDir(nodes, Parent(p)))
    {
      ok := Attempt();
      if !ok || p in nodes || !IsDir(nodes, Parent(p)) { return false; }
      nodes := nodes[p := File("", mode)];
    }

    method WriteBytes(p: Path, data: string) returns (ok: bool)
      modifies this
      ensures tick == old(tick) + 1
      ensures ok ==> IsFile(old(nodes), p) && nodes == old(nodes)[p := old(nodes)[p].(data := data)]
      ensures !ok ==> nodes == old(nodes)
      ensures !ok ==> fails(old(tick)) || !IsFile(nodes, p)
    {
      ok := Attempt();
      if !ok || !IsFile(nodes, p) { return false; }
      nodes := nodes[p := nodes[p].(data := data)];
    }

    method Chmod(p: Path, mode: nat) returns (ok: bool)
      modifies this
      ensures tick == old(tick) + 1
      ensures ok ==> IsFile(old(nodes), p) && nodes == old(nodes)[p := old(nodes)[p].(mode := mode)]
      ensures !ok ==> nodes == old(nodes)
      ensures !ok ==> fails(old(tick)) || !IsFile(nodes, p)
    {
      ok := Attempt();
      if !ok || !IsFile(nodes, p) { return false; }
      nodes := nodes[p := nodes[p].(mode := mode)];
    }

    /** `rename` of a file over anything but a directory. */
    method Rename(a: Path, b: Path) returns (ok: bool)
      requires b != []
      modifies this
      ensures tick == old(tick) + 1
      ensures ok ==> IsFile(old(nodes), a) && nodes == (old(nodes) - {a})[b := old(nodes)[a]]
      ensures !ok ==> nodes == old(nodes)
      ensures !ok ==> fails(old(tick)) || !IsFile(nodes, a) || IsDir(nodes, b) || !IsDir(nodes, Parent(b))
      ensures ok ==> !IsDir(old(nodes), b)
    {
      ok := Attempt();
      if !ok || !IsFile(nodes, a) || IsDir(nodes, b) || !IsDir(nodes, Parent(b)) { return false; }
      nodes := (nodes - {a})[b := nodes[a]];
    }

    /**
     `replace_atomically`: through a temporary file beside the target, which goes again when
     a step fails. `at` is the tick just after the failure.
     */
    method ReplaceAtomically(p: Path, data: string, mode: nat) returns (ok: bool, at: nat)
      requires p != []
      modifies this
      ensures old(tick) < at <= tick
      ensures ok ==> nodes == old(nodes)[p := File(data, mode)] && !IsDir(old(nodes), p) && IsDir(old(nodes), Parent(p))
      ensures !ok ==> Spares(old(nodes), nodes)
      ensures !ok ==> forall q :: q in nodes && q !in old(nodes) ==> nodes[q].File? && q != [] && Parent(q) == Parent(p)
      ensures !ok && Quiet(at, tick) ==> nodes == old(nodes)
      ensures !ok && Quiet(old(tick), tick) ==> IsDir(old(nodes), p) || !IsDir(old(nodes), Parent(p))
    {
      ghost var before := nodes;
      var temporary := MakeTemp(p);
      at := tick;
      if temporary.None? { return false, at; }
      var t := temporary.value;
      ok := WriteBytes(t, data);
      at := tick;
      if ok {
        ok := Chmod(t, mode);
        at := tick;
      }
      if ok {
        ok := Rename(t, p);
        at := tick;
      }
      if ok {
        assert nodes == before[p := File(data, mode)];
      } else {
        assert nodes.Keys == before.Keys + {t};
        var removed := Unlink(t, true);
        assert removed ==> nodes == before;
      }
    }
  }

  /** Nothing that was there has changed. */
  ghost predicate Spares(ns: Nodes, ns': Nodes) {
    forall p :: p in ns ==> p in ns' && ns'[p] == ns[p]
  }
}
