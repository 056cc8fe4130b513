/** Merging into a harness's settings, on parsed documents, and taking the same entries out of the text again. */
module ConfigMerge {
  import opened Basics
  import opened JsonText
  import opened JsonScan
  import opened JsonSplice
  import opened JsonRemoval
  import opened JsonEditor

  /** Equality of JSON values as the editor's language has it. */
  type Same = (Json, Json) -> bool

  datatype MergeError = NoPath | NotObjectAt(depth: nat) | NotArray | Unparseable | SeveralEntries | SharedGroup | Source(error: EditError)

  datatype Merge = Merge(document: Json, changed: bool, takeover: bool)

  function SetKey(ms: seq<(string, Json)>, name: string, j: Json): seq<(string, Json)> {
    if ValueOfKey(ms, name).Some? then WithKey(ms, name, j) else ms + [(name, j)]
  }

  lemma {:induction false} SetKeyReads(ms: seq<(string, Json)>, name: string, j: Json, other: string)
    ensures ValueOfKey(SetKey(ms, name, j), other) == if other == name then Some(j) else ValueOfKey(ms, other)
  {
    if ValueOfKey(ms, name).Some? { WithKeyReads(ms, name, j, other); } else { AddedReads(ms, (name, j), other); }
  }

  lemma {:induction false} WithKeyReads(ms: seq<(string, Json)>, name: string, j: Json, other: string)
    ensures ValueOfKey(WithKey(ms, name, j), other)
         == if other == name && ValueOfKey(ms, name).Some? then Some(j) else ValueOfKey(ms, other)
  {
    if ms != [] { WithKeyReads(ms[1..], name, j, other); }
  }

  lemma {:induction false} AddedReads(ms: seq<(string, Json)>, m: (string, Json), other: string)
    ensures ValueOfKey(ms + [m], other)
         == if ValueOfKey(ms, other).Some? then ValueOfKey(ms, other) else if other == m.0 then Some(m.1) else None
  {
    if ms == [] {
      assert ms + [m] == [m];
    } else {
      assert (ms + [m])[1..] == ms[1..] + [m];
      AddedReads(ms[1..], m, other);
    }
  }

  lemma {:induction false} WithoutReads(ms: seq<(string, Json)>, name: string, other: string)
    ensures ValueOfKey(Without(ms, name), other) == if other == name then None else ValueOfKey(ms, other)
  {
    if ms != [] { WithoutReads(ms[1..], name, other); }
  }

  // ---- one nested key --------------------------------------------------------------------

  /** What a document holds at a path of keys. */
  function At(j: Json, path: seq<string>): Option<Json>
    decreases |path|
  {
    if path == [] then Some(j)
    else if !j.Object? then None
    else match ValueOfKey(j.members, path[0]) case None => None case Some(inner) => At(inner, path[1..])
  }

  /** `json_object_merge` on the parsed document; `depth` counts the keys already followed. */
  function SetAt(j: Json, path: seq<string>, expected: Json, same: Same, depth: nat): Result<Merge, MergeError>
    requires path != []
    decreases |path|
  {
    if !j.Object? then Err(NotObjectAt(depth))
    else
      var there := ValueOfKey(j.members, path[0]);
      if |path| == 1 then
        if there.Some? && same(there.value, expected) then Ok(Merge(j, false, false))
        else Ok(Merge(Object(SetKey(j.members, path[0], expected)), true, there.Some?))
      else
        match SetAt(if there.Some? then there.value else Object([]), path[1..], expected, same, depth + 1)
        case Err(e) => Err(e)
        case Ok(m) => Ok(if m.changed then Merge(Object(SetKey(j.members, path[0], m.document)), true, m.takeover) else Merge(j, false, false))
  }

  function Names(ms: seq<(string, Json)>): seq<string> {
    if ms == [] then [] else [ms[0].0] + Names(ms[1..])
  }

  /** Members that differ at one name only: it stays where it was, or comes last. */
  ghost predicate OnlyMember(ms: seq<(string, Json)>, ms': seq<(string, Json)>, name: string) {
    && Without(ms', name) == Without(ms, name)
    && Names(ms') == Names(ms) + if ValueOfKey(ms, name).Some? then [] else [name]
  }

  /** Objects all along the path, made where there were none, that differ at the path only. */
  ghost predicate OnlyAt(j: Json, j': Json, path: seq<string>)
    requires path != []
    decreases |path|
  {
    && j.Object? && j'.Object? && OnlyMember(j.members, j'.members, path[0]) && ValueOfKey(j'.members, path[0]).Some?
    && (|path| > 1 ==>
          OnlyAt(if ValueOfKey(j.members, path[0]).Some? then ValueOfKey(j.members, path[0]).value else Object([]),
                 ValueOfKey(j'.members, path[0]).value, path[1..]))
  }

  lemma SetKeyOnly(ms: seq<(string, Json)>, name: string, j: Json)
    ensures OnlyMember(ms, SetKey(ms, name, j), name) && ValueOfKey(SetKey(ms, name, j), name) == Some(j)
  {
    SetKeyReads(ms, name, j, name);
    if ValueOfKey(ms, name).Some? { WithKeyOnly(ms, name, j); } else { AddedOnly(ms, name, j); }
  }

  lemma {:induction false} WithKeyOnly(ms: seq<(string, Json)>, name: string, j: Json)
    ensures Without(WithKey(ms, name, j), name) == Without(ms, name) && Names(WithKey(ms, name, j)) == Names(ms)
  {
    if ms != [] { WithKeyOnly(ms[1..], name, j); }
  }

  lemma {:induction false} AddedOnly(ms: seq<(string, Json)>, name: string, j: Json)
    ensures Without(ms + [(name, j)], name) == Without(ms, name) && Names(ms + [(name, j)]) == Names(ms) + [name]
  {
    if ms == [] {
      assert ms + [(name, j)] == [(name, j)];
    } else {
      assert (ms + [(name, j)])[1..] == ms[1..] + [(name, j)];
      AddedOnly(ms[1..], name, j);
    }
  }

  /** Whatever is not on the way to the path, nor below it, is what it was. */
  lemma {:induction false} OnlyAtKeeps(j: Json, j': Json, path: seq<string>, other: seq<string>)
    requires path != [] && OnlyAt(j, j', path) && Apart(path, other)
    ensures At(j', other) == At(j, other)
    decreases |path|
  {
    if other != [] {
      OthersRead(j.members, path[0], other[0]);
      OthersRead(j'.members, path[0], other[0]);
      if other[0] == path[0] {
        ApartTails(path, other);
        var inner := if ValueOfKey(j.members, path[0]).Some? then ValueOfKey(j.members, path[0]).value else Object([]);
        OnlyAtKeeps(inner, ValueOfKey(j'.members, path[0]).value, path[1..], other[1..]);
        if ValueOfKey(j.members, path[0]).None? { NothingAt(other[1..]); }
      }
    }
  }

  lemma OthersRead(ms: seq<(string, Json)>, name: string, other: string)
    ensures other != name ==> ValueOfKey(ms, other) == ValueOfKey(Without(ms, name), other)
  {
    WithoutReads(ms, name, other);
  }

  /** Neither path is on the way to the other. */
  ghost predicate Apart(p: seq<string>, q: seq<string>) { !(p <= q) && !(q <= p) }

  lemma ApartTails(p: seq<string>, q: seq<string>)
    requires p != [] && q != [] && Apart(p, q) && p[0] == q[0]
    ensures Apart(p[1..], q[1..]) && p[1..] != [] && q[1..] != []
  {
    assert p == [p[0]] + p[1..] && q == [q[0]] + q[1..];
  }

  /** The key holds the value afterwards, every path apart from it what it held, and doing it again changes nothing. */
  lemma {:induction false} SetAtHolds(j: Json, path: seq<string>, expected: Json, same: Same, depth: nat)
    requires path != [] && SetAt(j, path, expected, same, depth).Ok? && same(expected, expected)
    ensures var m := SetAt(j, path, expected, same, depth).value;
            && At(m.document, path).Some? && same(At(m.document, path).value, expected)
            && (m.changed ==> At(m.document, path) == Some(expected))
            && (m.takeover <==> m.changed && At(j, path).Some?)
            && (!m.changed ==> m.document == j)
            && SetAt(m.document, path, expected, same, depth) == Ok(Merge(m.document, false, false))
    decreases |path|
  {
    var there := ValueOfKey(j.members, path[0]);
    if |path| == 1 {
      SetKeyReads(j.members, path[0], expected, path[0]);
      assert path[1..] == [];
    } else {
      var inner := if there.Some? then there.value else Object([]);
      SetAtHolds(inner, path[1..], expected, same, depth + 1);
      var m := SetAt(inner, path[1..], expected, same, depth + 1).value;
      SetKeyReads(j.members, path[0], m.document, path[0]);
      if there.None? { NothingAt(path[1..]); }
    }
  }

  lemma NothingAt(path: seq<string>)
    requires path != []
    ensures At(Object([]), path).None?
  {
  }

  /** A change is at the key only: everything else keeps its value and its place. */
  lemma {:induction false} SetAtKeeps(j: Json, path: seq<string>, expected: Json, same: Same, depth: nat, other: seq<string>)
    requires path != [] && SetAt(j, path, expected, same, depth).Ok?
    ensures var m := SetAt(j, path, expected, same, depth).value;
            && (if m.changed then OnlyAt(j, m.document, path) else m.document == j)
            && (Apart(path, other) ==> At(m.document, other) == At(j, other))
  {
    SetAtOnly(j, path, expected, same, depth);
    var m := SetAt(j, path, expected, same, depth).value;
    if m.changed && Apart(path, other) { OnlyAtKeeps(j, m.document, path, other); }
  }

  lemma {:induction false} SetAtOnly(j: Json, path: seq<string>, expected: Json, same: Same, depth: nat)
    requires path != [] && SetAt(j, path, expected, same, depth).Ok?
    ensures var m := SetAt(j, path, expected, same, depth).value; if m.changed then OnlyAt(j, m.document, path) else m.document == j
    decreases |path|
  {
    var there := ValueOfKey(j.members, path[0]);
    if |path| == 1 {
      SetKeyOnly(j.members, path[0], expected);
    } else {
      var inner := if there.Some? then there.value else Object([]);
      SetAtOnly(inner, path[1..], expected, same, depth + 1);
      SetKeyOnly(j.members, path[0], SetAt(inner, path[1..], expected, same, depth + 1).value.document);
    }
  }

  /** Refused exactly where something on the way is there and is not an object; the first such is named. */
  lemma {:induction false} SetAtRefused(j: Json, path: seq<string>, expected: Json, same: Same, depth: nat)
    requires path != []
    ensures SetAt(j, path, expected, same, depth).Ok? <==> forall k :: 0 <= k < |path| ==> Open(j, path[..k])
    ensures SetAt(j, path, expected, same, depth).Err? ==>
              exists k :: 0 <= k < |path| && !Open(j, path[..k]) && (forall i :: 0 <= i < k ==> Open(j, path[..i]))
                          && SetAt(j, path, expected, same, depth) == Err(NotObjectAt(depth + k))
    decreases |path|
  {
    assert path[..0] == [];
    if !j.Object? || |path| == 1 {
      assert Open(j, path[..0]) <==> j.Object?;
    } else {
      var there := ValueOfKey(j.members, path[0]);
      var inner := if there.Some? then there.value else Object([]);
      SetAtRefused(inner, path[1..], expected, same, depth + 1);
      forall k | 0 <= k < |path| - 1 ensures Open(j, path[..k + 1]) <==> Open(inner, path[1..][..k]) { OpenDown(j, path, k); }
      var r := SetAt(inner, path[1..], expected, same, depth + 1);
      assert SetAt(j, path, expected, same, depth).Ok? <==> r.Ok?;
      if r.Err? {
        var k :| 0 <= k < |path| - 1 && !Open(inner, path[1..][..k]) && (forall i :: 0 <= i < k ==> Open(inner, path[1..][..i]))
                 && r == Err(NotObjectAt(depth + 1 + k));
        hide SetAt, Open;
        forall i | 0 <= i < k + 1 ensures Open(j, path[..i]) {
          if i > 0 { assert Open(inner, path[1..][..i - 1]) <==> Open(j, path[..i - 1 + 1]); } else { OpenHere(j); }
        }
        assert !Open(j, path[..k + 1]);
      } else {
        hide SetAt, Open;
        forall k | 0 <= k < |path| ensures Open(j, path[..k]) {
          if k > 0 { assert Open(inner, path[1..][..k - 1]) <==> Open(j, path[..k - 1 + 1]); } else { OpenHere(j); }
        }
      }
    }
  }

  lemma OpenHere(j: Json)
    ensures Open(j, []) <==> j.Object?
  {
  }

  lemma OpenDown(j: Json, path: seq<string>, k: nat)
    requires j.Object? && k < |path| - 1
    ensures var there := ValueOfKey(j.members, path[0]);
            Open(j, path[..k + 1]) <==> Open(if there.Some? then there.value else Object([]), path[1..][..k])
  {
    assert path[..k + 1][1..] == path[1..][..k] && path[..k + 1][0] == path[0];
    if ValueOfKey(j.members, path[0]).None? { NothingOpen(path[1..][..k]); }
  }

  /** An object, or nothing yet. */
  predicate Open(j: Json, path: seq<string>) { At(j, path).None? || At(j, path).value.Object? }

  lemma NothingOpen(path: seq<string>)
    ensures Open(Object([]), path)
  {
  }

  /** Taking the key out again: it is gone, and every path apart from it holds what it held before both. */
  lemma {:induction false} RemoveAfterSet(j: Json, path: seq<string>, expected: Json, same: Same, depth: nat, other: seq<string>)
    requires path != [] && SetAt(j, path, expected, same, depth).Ok? && same(expected, expected)
    ensures var removed := JsonRemove(SetAt(j, path, expected, same, depth).value.document, path[..|path| - 1], Member(path[|path| - 1]));
            && removed.Some? && At(removed.value, path).None?
            && (Apart(path, other) ==> At(removed.value, other) == At(j, other))
  {
    var d := SetAt(j, path, expected, same, depth).value.document;
    SetAtHolds(j, path, expected, same, depth);
    RemovedAt(d, path, other);
    if Apart(path, other) { SetAtKeeps(j, path, expected, same, depth, other); }
  }

  lemma {:induction false} RemovedAt(j: Json, path: seq<string>, other: seq<string>)
    requires path != [] && At(j, path).Some?
    ensures var removed := JsonRemove(j, path[..|path| - 1], Member(path[|path| - 1]));
            && removed.Some? && At(removed.value, path).None? && (Apart(path, other) ==> At(removed.value, other) == At(j, other))
    decreases |path|
  {
    var front, last := path[..|path| - 1], Member(path[|path| - 1]);
    if |path| == 1 {
      WithoutReads(j.members, path[0], path[0]);
      if other != [] {
        assert path == [path[0]] && other == [other[0]] + other[1..];
        WithoutReads(j.members, path[0], other[0]);
      }
    } else {
      var inner := ValueOfKey(j.members, path[0]).value;
      var tail := if other == [] then [] else other[1..];
      assert path[1..][..|path| - 2] == front[1..] && path[1..][|path| - 2] == path[|path| - 1];
      RemovedAt(inner, path[1..], tail);
      var w := JsonRemove(inner, front[1..], last).value;
      WithKeyReads(j.members, path[0], w, path[0]);
      if other != [] {
        WithKeyReads(j.members, path[0], w, other[0]);
        if Apart(path, other) && other[0] == path[0] { ApartTails(path, other); }
      }
    }
  }

  predicate Holds(j: Json, t: Target) {
    match t
    case Member(name) => j.Object? && ValueOfKey(j.members, name).Some?
    case Element(i) => j.Array? && i < |j.elems|
  }

  /** A removal needs its target to be there, and changes only the container it is taken out of. */
  lemma {:induction false} RemovedIs(j: Json, path: seq<string>, t: Target)
    ensures JsonRemove(j, path, t).Some? <==> At(j, path).Some? && Holds(At(j, path).value, t)
    ensures JsonRemove(j, path, t).Some? ==>
      var (was, now) := (At(j, path).value, At(JsonRemove(j, path, t).value, path));
      && (path != [] ==> OnlyAt(j, JsonRemove(j, path, t).value, path))
      && now == Some(if t.Member? then Object(Without(was.members, t.name)) else Array(was.elems[..t.index] + was.elems[t.index + 1..]))
    decreases |path|
  {
    if path != [] && j.Object? && ValueOfKey(j.members, path[0]).Some? {
      var inner := ValueOfKey(j.members, path[0]).value;
      RemovedIs(inner, path[1..], t);
      if JsonRemove(inner, path[1..], t).Some? {
        var w := JsonRemove(inner, path[1..], t).value;
        WithKeyReads(j.members, path[0], w, path[0]);
        WithKeyOnly(j.members, path[0], w);
      }
    }
  }

  // ---- a hook array shared with others -----------------------------------------------------

  /** How commands are split into words, and the words memriver's own begin with. */
  datatype Identity = Identity(words: seq<string>, lex: string -> Option<seq<string>>)

  function HooksOf(group: Json): seq<Json> {
    if !group.Object? then []
    else match ValueOfKey(group.members, "hooks") case Some(Array(elems)) => elems case _ => []
  }

  function CommandOf(handler: Json): Option<string> {
    if !handler.Object? then None
    else match ValueOfKey(handler.members, "command") case Some(Text(s)) => Some(s) case _ => None
  }

  predicate Has(command: Option<string>, id: Identity) {
    command.Some? && id.lex(command.value).Some? && id.words <= id.lex(command.value).value
  }

  predicate Within(part: string, s: string) { exists i :: 0 <= i <= |s| && part <= s[i..] }

  /** The first two words, as they would stand in a command. */
  function Opening(id: Identity): string {
    if id.words == [] then "" else if |id.words| == 1 then id.words[0] else id.words[0] + " " + id.words[1]
  }

  predicate Broken(command: Option<string>, id: Identity) {
    command.Some? && id.lex(command.value).None? && Within(Opening(id), command.value)
  }

  predicate Matching(group: Json, id: Identity) { exists h :: h in HooksOf(group) && Has(CommandOf(h), id) }

  predicate Garbled(group: Json, id: Identity) { exists h :: h in HooksOf(group) && Broken(CommandOf(h), id) }

  /** Where memriver's group is, if that can be told. */
  datatype Standing = Unreadable | Several | Absent | Shared(index: nat) | Own(index: nat)

  function Matched(groups: seq<Json>, id: Identity): seq<nat> {
    if groups == [] then []
    else
      var n: nat := |groups| - 1;
      Matched(groups[..n], id) + if Matching(groups[n], id) then [n] else []
  }

  lemma {:induction false} MatchedAre(groups: seq<Json>, id: Identity)
    ensures forall i: nat :: i in Matched(groups, id) <==> i < |groups| && Matching(groups[i], id)
  {
    hide Matching;
    if groups != [] {
      var n: nat := |groups| - 1;
      MatchedAre(groups[..n], id);
      assert forall i: nat :: i < n ==> groups[..n][i] == groups[i];
    }
  }

  lemma {:induction false} MatchedGrow(groups: seq<Json>, id: Identity)
    ensures forall a, b :: 0 <= a < b < |Matched(groups, id)| ==> Matched(groups, id)[a] < Matched(groups, id)[b]
  {
    hide Matching;
    if groups != [] {
      var n: nat := |groups| - 1;
      var earlier := Matched(groups[..n], id);
      MatchedGrow(groups[..n], id);
      MatchedAre(groups[..n], id);
      forall a | 0 <= a < |earlier| ensures earlier[a] < n { assert earlier[a] in earlier; }
    }
  }

  /** No command of theirs looks like memriver's and cannot be split. */
  predicate NoneGarbled(groups: seq<Json>, id: Identity) { forall k :: 0 <= k < |groups| ==> !Garbled(groups[k], id) }

  function StandingOf(groups: seq<Json>, id: Identity): Standing {
    var matched := Matched(groups, id);
    if !NoneGarbled(groups, id) then Unreadable
    else if |matched| > 1 then Several
    else if matched == [] || matched[0] >= |groups| then Absent
    else if |HooksOf(groups[matched[0]])| != 1 then Shared(matched[0])
    else Own(matched[0])
  }

  /** The loops of both hook editors. */
  method FindStanding(groups: seq<Json>, id: Identity) returns (s: Standing)
    ensures s == StandingOf(groups, id)
  {
    hide Broken, Has, Matching;
    var i := 0;
    while i < |groups|
      invariant i <= |groups| && forall k :: 0 <= k < i ==> !Garbled(groups[k], id)
    {
      var hooks, k := HooksOf(groups[i]), 0;
      while k < |hooks|
        invariant k <= |hooks| && forall h :: h in hooks[..k] ==> !Broken(CommandOf(h), id)
      {
        if Broken(CommandOf(hooks[k]), id) { return Unreadable; }
        k := k + 1;
      }
      i := i + 1;
    }
    var matched := [];
    i := 0;
    while i < |groups|
      invariant i <= |groups| && matched == Matched(groups[..i], id)
    {
      assert groups[..i + 1][..i] == groups[..i];
      if Matching(groups[i], id) { matched := matched + [i]; }
      i := i + 1;
    }
    assert groups[..i] == groups;
    if |matched| > 1 { return Several; }
    if matched == [] || matched[0] >= |groups| { return Absent; }
    s := if |HooksOf(groups[matched[0]])| != 1 then Shared(matched[0]) else Own(matched[0]);
  }

  /** Every group but one is foreign. */
  ghost predicate ForeignBut(groups: seq<Json>, id: Identity, i: int) {
    forall k :: 0 <= k < |groups| && k != i ==> !Matching(groups[k], id)
  }

  lemma OnlyElement(r: seq<nat>, i: nat)
    requires (forall k :: k in r <==> k == i) && (|r| < 2 || r[0] < r[1])
    ensures r == [i]
  {
    assert i in r;
    forall a | 0 <= a < |r| ensures r[a] == i { assert r[a] in r; }
  }

  lemma OwnMeans(groups: seq<Json>, id: Identity, i: nat)
    requires StandingOf(groups, id) == Own(i)
    ensures i < |groups| && NoneGarbled(groups, id) && Matching(groups[i], id) && |HooksOf(groups[i])| == 1 && ForeignBut(groups, id, i)
  {
    MatchedAre(groups, id);
    hide Matching, NoneGarbled, Matched;
    var matched := Matched(groups, id);
    assert matched == [i] && i in matched;
    forall k | 0 <= k < |groups| && k != i ensures !Matching(groups[k], id) {
      var n: nat := k;
      assert n !in matched;
    }
  }

  function Placed(group: Json, i: nat): Standing { if |HooksOf(group)| == 1 then Own(i) else Shared(i) }

  lemma MeansPlaced(groups: seq<Json>, id: Identity, i: nat)
    requires i < |groups| && NoneGarbled(groups, id) && Matching(groups[i], id) && ForeignBut(groups, id, i)
    ensures StandingOf(groups, id) == Placed(groups[i], i)
  {
    MatchedAre(groups, id);
    MatchedGrow(groups, id);
    hide Matching, NoneGarbled, Matched;
    OnlyElement(Matched(groups, id), i);
  }

  /** Its own group is at an index, in the terms of the groups. */
  lemma OwnIff(groups: seq<Json>, id: Identity, i: nat)
    ensures StandingOf(groups, id) == Own(i) <==>
              i < |groups| && NoneGarbled(groups, id) && Matching(groups[i], id) && |HooksOf(groups[i])| == 1 && ForeignBut(groups, id, i)
  {
    hide StandingOf, Matching, NoneGarbled, ForeignBut, HooksOf;
    if StandingOf(groups, id) == Own(i) {
      OwnMeans(groups, id, i);
    } else if i < |groups| && NoneGarbled(groups, id) && Matching(groups[i], id) && |HooksOf(groups[i])| == 1 && ForeignBut(groups, id, i) {
      MeansPlaced(groups, id, i);
    }
  }

  lemma AbsentIff(groups: seq<Json>, id: Identity)
    ensures StandingOf(groups, id).Absent? <==> NoneGarbled(groups, id) && ForeignBut(groups, id, -1)
  {
    MatchedAre(groups, id);
    hide Matching, NoneGarbled, Matched;
    var matched := Matched(groups, id);
    if matched != [] { assert matched[0] in matched; }
    if matched == [] {
      forall k | 0 <= k < |groups| ensures !Matching(groups[k], id) { assert (k as nat) !in matched; }
    }
  }

  function Foreign(groups: seq<Json>, id: Identity): seq<Json> {
    if groups == [] then [] else (if Matching(groups[0], id) then [] else [groups[0]]) + Foreign(groups[1..], id)
  }

  lemma {:induction false} ForeignAppend(a: seq<Json>, b: seq<Json>, id: Identity)
    ensures Foreign(a + b, id) == Foreign(a, id) + Foreign(b, id)
  {
    if a == [] {
      assert a + b == b;
    } else {
      assert (a + b)[1..] == a[1..] + b;
      ForeignAppend(a[1..], b, id);
    }
  }

  lemma {:induction false} AllForeign(groups: seq<Json>, id: Identity)
    requires ForeignBut(groups, id, -1)
    ensures Foreign(groups, id) == groups
  {
    hide Matching;
    if groups != [] {
      assert forall k :: 0 <= k < |groups[1..]| ==> groups[1..][k] == groups[k + 1];
      AllForeign(groups[1..], id);
    }
  }

  /** What an operation may expect: handlers, each with memriver's identity. */
  predicate OwnGroup(group: Json, id: Identity) {
    HooksOf(group) != [] && forall k :: 0 <= k < |HooksOf(group)| ==> Has(CommandOf(HooksOf(group)[k]), id)
  }

  lemma OwnIs(group: Json, id: Identity)
    requires OwnGroup(group, id)
    ensures Matching(group, id) && !Garbled(group, id)
  {
    assert HooksOf(group)[0] in HooksOf(group);
  }

  lemma Around(groups: seq<Json>, id: Identity, i: nat)
    requires i < |groups| && Matching(groups[i], id) && ForeignBut(groups, id, i)
    ensures Foreign(groups, id) == groups[..i] + groups[i + 1..]
  {
    var before, own, after := groups[..i], groups[i], groups[i + 1..];
    OwnGoes(own, id);
    SlicesForeign(groups, id, i);
    hide *;
    assert groups == before + ([own] + after);
    ForeignAppend(before, [own] + after, id);
    ForeignAppend([own], after, id);
    AllForeign(before, id);
    AllForeign(after, id);
  }

  lemma SlicesForeign(groups: seq<Json>, id: Identity, i: nat)
    requires i < |groups| && ForeignBut(groups, id, i)
    ensures ForeignBut(groups[..i], id, -1) && ForeignBut(groups[i + 1..], id, -1)
  {
    hide Matching;
    var after := groups[i + 1..];
    forall k | 0 <= k < |after| ensures !Matching(after[k], id) { assert after[k] == groups[i + 1 + k]; }
  }

  lemma OwnGoes(own: Json, id: Identity)
    requires Matching(own, id)
    ensures Foreign([own], id) == []
  {
  }

  /** Its own group exchanged for another of its own. */
  lemma OwnReplaced(groups: seq<Json>, id: Identity, i: nat, group: Json)
    requires StandingOf(groups, id) == Own(i) && OwnGroup(group, id)
    ensures i < |groups| && StandingOf(groups[i := group], id) == Placed(group, i)
    ensures Foreign(groups[i := group], id) == Foreign(groups, id) == groups[..i] + groups[i + 1..]
  {
    OwnIff(groups, id, i);
    OwnIs(group, id);
    var replaced := groups[i := group];
    MeansPlaced(replaced, id, i);
    hide StandingOf, Matching, Garbled, OwnGroup;
    Around(groups, id, i);
    Around(replaced, id, i);
    assert replaced[..i] == groups[..i] && replaced[i + 1..] == groups[i + 1..];
  }

  lemma OwnAppended(groups: seq<Json>, id: Identity, group: Json)
    requires StandingOf(groups, id).Absent? && OwnGroup(group, id)
    ensures StandingOf(groups + [group], id) == Placed(group, |groups|)
    ensures Foreign(groups + [group], id) == Foreign(groups, id) == groups
  {
    AbsentIff(groups, id);
    OwnIs(group, id);
    var all, n := groups + [group], |groups|;
    MeansPlaced(all, id, n);
    hide StandingOf, Matching, Garbled, OwnGroup;
    AllForeign(groups, id);
    Around(all, id, n);
    assert all[..n] == groups && all[n + 1..] == [];
  }

  /** The groups of an event; a missing container is an empty one. */
  function GroupsOf(document: Json, event: string): Result<seq<Json>, MergeError> {
    match if document.Object? then ValueOfKey(document.members, "hooks") else None
    case None => Ok([])
    case Some(hooks) =>
      if !hooks.Object? then Err(NotObjectAt(1))
      else
        match ValueOfKey(hooks.members, event)
        case None => Ok([])
        case Some(Array(groups)) => Ok(groups)
        case Some(_) => Err(NotArray)
  }

  function WithGroups(document: Json, event: string, groups: seq<Json>): Json
    requires document.Object?
  {
    var hooks := match ValueOfKey(document.members, "hooks") case Some(Object(ms)) => ms case _ => [];
    Object(SetKey(document.members, "hooks", Object(SetKey(hooks, event, Array(groups)))))
  }

  lemma WithGroupsReads(document: Json, event: string, groups: seq<Json>)
    requires document.Object? && GroupsOf(document, event).Ok?
    ensures GroupsOf(WithGroups(document, event, groups), event) == Ok(groups)
    ensures OnlyAt(document, WithGroups(document, event, groups), ["hooks", event])
  {
    var hooks := match ValueOfKey(document.members, "hooks") case Some(Object(ms)) => ms case _ => [];
    SetKeyOnly(hooks, event, Array(groups));
    SetKeyOnly(document.members, "hooks", Object(SetKey(hooks, event, Array(groups))));
    assert ["hooks", event][1..] == [event];
    assert OnlyAt(Object(hooks), Object(SetKey(hooks, event, Array(groups))), [event]);
  }

  function Refusal(s: Standing): Option<MergeError> {
    match s
    case Unreadable => Some(Unparseable)
    case Several => Some(SeveralEntries)
    case Shared(_) => Some(SharedGroup)
    case _ => None
  }

  /** `hook_array_identity_merge` on the parsed document. */
  function HookMerge(document: Json, event: string, id: Identity, expected: Json, same: Same): Result<Merge, MergeError>
    requires document.Object?
  {
    if id.words == [] then Err(NoPath)
    else
      match GroupsOf(document, event)
      case Err(e) => Err(e)
      case Ok(groups) =>
        var s := StandingOf(groups, id);
        if Refusal(s).Some? then Err(Refusal(s).value)
        else if s.Absent? then Ok(Merge(WithGroups(document, event, groups + [expected]), true, false))
        else
          OwnIff(groups, id, s.index);
          if same(groups[s.index], expected) then Ok(Merge(document, false, false))
          else Ok(Merge(WithGroups(document, event, groups[s.index := expected]), true, true))
  }

  /**
   One group of memriver's, the expected one, among the foreign groups of `before` in their order. One just
   placed with several handlers stands there as a shared group.
   */
  ghost predicate Settled(before: seq<Json>, after: seq<Json>, id: Identity, expected: Json, same: Same, placed: bool) {
    && Foreign(after, id) == Foreign(before, id)
    && var s := StandingOf(after, id);
       if placed && |HooksOf(expected)| > 1 then s.Shared? && s.index < |after| && after[s.index] == expected
       else s.Own? && same(after[OwnIndex(after, id)], expected)
  }

  lemma MergedGroups(groups: seq<Json>, id: Identity, expected: Json, same: Same)
    requires OwnGroup(expected, id) && same(expected, expected) && Refusal(StandingOf(groups, id)).None?
    ensures var s := StandingOf(groups, id);
            if s.Absent? then Settled(groups, groups + [expected], id, expected, same, true)
            else
              s.Own? && s.index < |groups|
              && if same(groups[s.index], expected) then Settled(groups, groups, id, expected, same, false)
                 else Settled(groups, groups[s.index := expected], id, expected, same, true)
  {
    var s := StandingOf(groups, id);
    if s.Absent? {
      OwnAppended(groups, id, expected);
    } else {
      OwnReplaced(groups, id, s.index, expected);
    }
    HasHandlers(expected, id);
    hide Foreign, OwnGroup, StandingOf;
  }

  lemma HasHandlers(group: Json, id: Identity)
    requires OwnGroup(group, id)
    ensures |HooksOf(group)| >= 1
  {
  }

  /** A merge that finds its group settled changes nothing; one that finds several handlers in it is refused. */
  lemma SettledStays(document: Json, event: string, id: Identity, expected: Json, same: Same, before: seq<Json>, placed: bool)
    requires document.Object? && id.words != [] && GroupsOf(document, event).Ok?
    requires Settled(before, GroupsOf(document, event).value, id, expected, same, placed)
    ensures HookMerge(document, event, id, expected, same)
         == if placed && |HooksOf(expected)| > 1 then Err(SharedGroup) else Ok(Merge(document, false, false))
  {
    hide GroupsOf, Foreign, StandingOf;
  }

  /**
   After a merge there is exactly one group of memriver's, the expected one; every foreign group is
   there in its order; and the merge of the same group again changes nothing, unless the group just
   placed has several handlers: then memriver's own group is refused as shared from then on.
   */
  lemma HookMergeHolds(document: Json, event: string, id: Identity, expected: Json, same: Same)
    requires document.Object? && OwnGroup(expected, id) && same(expected, expected)
    requires HookMerge(document, event, id, expected, same).Ok?
    ensures var m, before := HookMerge(document, event, id, expected, same).value, GroupsOf(document, event).value;
            && m.document.Object? && GroupsOf(m.document, event).Ok?
            && Settled(before, GroupsOf(m.document, event).value, id, expected, same, m.changed)
            && (m.takeover <==> m.changed && StandingOf(before, id).Own?)
            && HookMerge(m.document, event, id, expected, same)
               == if m.changed && |HooksOf(expected)| > 1 then Err(SharedGroup) else Ok(Merge(m.document, false, false))
  {
    var groups := GroupsOf(document, event).value;
    var m := HookMerge(document, event, id, expected, same).value;
    var s := StandingOf(groups, id);
    MergedGroups(groups, id, expected, same);
    WithGroupsReads(document, event, groups + [expected]);
    if s.Own? { WithGroupsReads(document, event, groups[s.index := expected]); }
    hide GroupsOf, WithGroups, Settled, OwnGroup, StandingOf;
    SettledStays(m.document, event, id, expected, same, groups, m.changed);
  }

  /** A merge that changes anything does so at the event's groups only: every other setting and event keeps its value and its place. */
  lemma HookMergeKeeps(document: Json, event: string, id: Identity, expected: Json, same: Same, other: seq<string>)
    requires document.Object? && HookMerge(document, event, id, expected, same).Ok?
    ensures var m := HookMerge(document, event, id, expected, same).value;
            && (if m.changed then OnlyAt(document, m.document, ["hooks", event]) else m.document == document)
            && (Apart(["hooks", event], other) ==> At(m.document, other) == At(document, other))
  {
    var groups := GroupsOf(document, event).value;
    var m := HookMerge(document, event, id, expected, same).value;
    var s := StandingOf(groups, id);
    WithGroupsReads(document, event, groups + [expected]);
    if s.Own? {
      OwnIff(groups, id, s.index);
      WithGroupsReads(document, event, groups[s.index := expected]);
    }
    hide GroupsOf, WithGroups, StandingOf;
    if m.changed && Apart(["hooks", event], other) { OnlyAtKeeps(document, m.document, ["hooks", event], other); }
  }

  /** Two groups with memriver's command. */
  ghost predicate TwoMatching(groups: seq<Json>, id: Identity) {
    exists i, k :: 0 <= i < k < |groups| && Matching(groups[i], id) && Matching(groups[k], id)
  }

  /** A group with memriver's command that also has other handlers, or lists it twice. */
  ghost predicate OneShared(groups: seq<Json>, id: Identity) {
    exists i :: 0 <= i < |groups| && Matching(groups[i], id) && |HooksOf(groups[i])| != 1
  }

  lemma StandingIs(groups: seq<Json>, id: Identity)
    ensures Refusal(StandingOf(groups, id))
         == if !NoneGarbled(groups, id) then Some(Unparseable)
            else if TwoMatching(groups, id) then Some(SeveralEntries)
            else if OneShared(groups, id) then Some(SharedGroup)
            else None
  {
    MatchedAre(groups, id);
    MatchedGrow(groups, id);
    hide Matching, NoneGarbled, Matched, HooksOf;
    var matched := Matched(groups, id);
    if i, k :| 0 <= i < k < |groups| && Matching(groups[i], id) && Matching(groups[k], id) {
      assert (i as nat) in matched && (k as nat) in matched;
    }
    if |matched| > 1 {
      assert matched[0] in matched && matched[1] in matched;
      assert TwoMatching(groups, id);
    } else if i :| 0 <= i < |groups| && Matching(groups[i], id) && |HooksOf(groups[i])| != 1 {
      assert (i as nat) in matched;
    } else if matched != [] {
      assert matched[0] in matched;
    }
  }

  /**
   When a merge is refused, and why: no command to look for; something in the way that is not an object or
   not an array; or groups in which memriver's own cannot be told. Any other merge goes through.
   */
  lemma HookMergeRefused(document: Json, event: string, id: Identity, expected: Json, same: Same)
    requires document.Object?
    ensures var hooks, groups := At(document, ["hooks"]), At(document, ["hooks", event]);
            var theirs := if groups.Some? && groups.value.Array? then groups.value.elems else [];
            var r := HookMerge(document, event, id, expected, same);
            if id.words == [] then r == Err(NoPath)
            else if hooks.Some? && !hooks.value.Object? then r == Err(NotObjectAt(1))
            else if groups.Some? && !groups.value.Array? then r == Err(NotArray)
            else if !NoneGarbled(theirs, id) then r == Err(Unparseable)
            else if TwoMatching(theirs, id) then r == Err(SeveralEntries)
            else if OneShared(theirs, id) then r == Err(SharedGroup)
            else r.Ok?
  {
    HooksAt(document, event);
    GroupsParts(document, event);
    if GroupsOf(document, event).Ok? { StandingIs(GroupsOf(document, event).value, id); }
    hide GroupsOf, StandingOf, NoneGarbled, TwoMatching, OneShared, WithGroups, At;
  }

  lemma HooksAt(document: Json, event: string)
    requires document.Object?
    ensures At(document, ["hooks"]) == ValueOfKey(document.members, "hooks")
    ensures var hooks := ValueOfKey(document.members, "hooks");
            At(document, ["hooks", event]) == if hooks.Some? && hooks.value.Object? then ValueOfKey(hooks.value.members, event) else None
  {
    assert ["hooks", event][1..] == [event] && ["hooks"][1..] == [] && [event][1..] == [];
    var hooks := ValueOfKey(document.members, "hooks");
    if hooks.Some? {
      assert At(document, ["hooks", event]) == At(hooks.value, [event]);
      if hooks.value.Object? && ValueOfKey(hooks.value.members, event).Some? {
        assert At(hooks.value, [event]) == At(ValueOfKey(hooks.value.members, event).value, []);
      }
    }
  }

  function OwnIndex(groups: seq<Json>, id: Identity): (i: nat)
    requires StandingOf(groups, id).Own?
    ensures i < |groups| && StandingOf(groups, id) == Own(i)
  {
    var i := StandingOf(groups, id).index;
    OwnIff(groups, id, i);
    i
  }

  /**
   What a removal comes to: nothing where there is no such array; refused exactly where a merge is; and
   otherwise the text with one span cut out, whose document has the foreign groups, in order, and differs there only.
   */
  ghost predicate HookRemoved(source: string, decode: Decode, document: Json, event: string, id: Identity, r: Result<Edit, MergeError>) {
    match GroupsOf(document, event)
    case Err(NotArray) => r == Err(NotArray)
    case Err(_) => r == Ok(Edit(source, false))
    case Ok(groups) =>
      var s := StandingOf(groups, id);
      if Refusal(s).Some? then r == Err(Refusal(s).value)
      else if s.Absent? then r == Ok(Edit(source, false))
      else
        && r.Ok? && r.value.changed && (exists span: Bytes :: Fits(source, span) && r.value.rendered == Cut(source, span))
        && ParseObject(r.value.rendered, decode).Ok?
        && var after := Denote(ParseObject(r.value.rendered, decode).value.value, decode);
           GroupsOf(after, event) == Ok(Foreign(groups, id)) && OnlyAt(document, after, ["hooks", event])
  }

  lemma WithoutOwn(groups: seq<Json>, id: Identity)
    requires StandingOf(groups, id).Own?
    ensures var i := OwnIndex(groups, id); Foreign(groups, id) == groups[..i] + groups[i + 1..]
  {
    var i := OwnIndex(groups, id);
    OwnIff(groups, id, i);
    Around(groups, id, i);
  }

  lemma ElementIsRemoved(document: Json, event: string, i: nat)
    requires document.Object? && GroupsOf(document, event).Ok? && i < |GroupsOf(document, event).value|
    ensures var groups := GroupsOf(document, event).value;
            var removed := JsonRemove(document, ["hooks", event], Element(i));
            removed.Some? && GroupsOf(removed.value, event) == Ok(groups[..i] + groups[i + 1..])
            && OnlyAt(document, removed.value, ["hooks", event])
  {
    var groups := GroupsOf(document, event).value;
    var hooks := ValueOfKey(document.members, "hooks").value;
    var left := Array(groups[..i] + groups[i + 1..]);
    assert ["hooks", event][1..] == [event] && [event][1..] == [];
    assert JsonRemove(hooks, [event], Element(i)) == Some(Object(WithKey(hooks.members, event, left)));
    WithKeyReads(hooks.members, event, left, event);
    WithKeyReads(document.members, "hooks", Object(WithKey(hooks.members, event, left)), "hooks");
    WithKeyOnly(hooks.members, event, left);
    WithKeyOnly(document.members, "hooks", Object(WithKey(hooks.members, event, left)));
    assert OnlyAt(hooks, Object(WithKey(hooks.members, event, left)), [event]);
  }

  /** The parts of the document the removal looks at. */
  lemma GroupsParts(document: Json, event: string)
    requires document.Object?
    ensures var hooks := ValueOfKey(document.members, "hooks");
            if hooks.None? then GroupsOf(document, event) == Ok([])
            else if !hooks.value.Object? then GroupsOf(document, event) == Err(NotObjectAt(1))
            else
              var groups := ValueOfKey(hooks.value.members, event);
              GroupsOf(document, event) == if groups.None? then Ok([]) else if groups.value.Array? then Ok(groups.value.elems) else Err(NotArray)
  {
  }

  lemma NoGroups(id: Identity)
    ensures StandingOf([], id).Absent?
  {
    AbsentIff([], id);
  }

  lemma OwnCut(source: string, decode: Decode, document: Json, event: string, id: Identity)
    requires ParseObject(source, decode).Ok? && document == Denote(ParseObject(source, decode).value.value, decode) && document.Object?
    requires GroupsOf(document, event).Ok? && StandingOf(GroupsOf(document, event).value, id).Own?
    ensures var cut := Removed(source, decode, ["hooks", event], Element(OwnIndex(GroupsOf(document, event).value, id)));
            cut.Ok? && HookRemoved(source, decode, document, event, id, Ok(cut.value))
  {
    var groups := GroupsOf(document, event).value;
    var i := OwnIndex(groups, id);
    ElementIsRemoved(document, event, i);
    WithoutOwn(groups, id);
    RemovalIsExact(source, decode, ["hooks", event], Element(i));
    hide StandingOf, Foreign, GroupsOf, Removed, ParseObject, JsonRemove, Cut, Denote, OnlyAt;
  }

  /** `hook_array_identity_remove`: found by the same rules, and cut out of the text. */
  method HookRemove(source: string, decode: Decode, event: string, id: Identity) returns (r: Result<Edit, MergeError>)
    ensures id.words == [] ==> r == Err(NoPath)
    ensures id.words != [] && ParseObject(source, decode).Err? ==> r == Err(Source(ParseObject(source, decode).error))
    ensures id.words != [] && ParseObject(source, decode).Ok? ==>
              HookRemoved(source, decode, Denote(ParseObject(source, decode).value.value, decode), event, id, r)
  {
    hide StandingOf, Foreign, ParseObject, Denote, GroupsOf, Removed, Cut, JsonRemove, OnlyAt;
    if id.words == [] { return Err(NoPath); }
    var parsed := ParseObject(source, decode);
    if parsed.Err? { return Err(Source(parsed.error)); }
    var document := Denote(parsed.value.value, decode);
    IsObject(source, decode);
    GroupsParts(document, event);
    NoGroups(id);
    var hooks := ValueOfKey(document.members, "hooks");
    if hooks.None? || !hooks.value.Object? || ValueOfKey(hooks.value.members, event).None? { return Ok(Edit(source, false)); }
    var groups := ValueOfKey(hooks.value.members, event).value;
    if !groups.Array? { return Err(NotArray); }
    var s := FindStanding(groups.elems, id);
    if Refusal(s).Some? { return Err(Refusal(s).value); }
    if s.Absent? { return Ok(Edit(source, false)); }
    OwnCut(source, decode, document, event, id);
    var cut := Remove(source, decode, ["hooks", event], Element(s.index));
    hide HookRemoved;
    r := match cut case Err(e) => Err(Source(e)) case Ok(edit) => Ok(edit);
  }

  lemma IsObject(source: string, decode: Decode)
    requires ParseObject(source, decode).Ok?
    ensures Denote(ParseObject(source, decode).value.value, decode).Object?
  {
  }
}
