/** Greedy packing of a sequence into consecutive groups of bounded weight. */
module Packing {

  function Weight<T>(items: seq<T>, w: T -> nat): nat {
    if items == [] then 0 else w(items[0]) + Weight(items[1..], w)
  }

  function Flat<T>(groups: seq<seq<T>>): seq<T> {
    if groups == [] then [] else groups[0] + Flat(groups[1..])
  }

  /** What the loop still does with `items`, given the group it is filling. */
  function Packed<T(==)>(items: seq<T>, w: T -> nat, cap: int, current: seq<T>, used: nat): seq<seq<T>>
    decreases |items|
  {
    if items == [] then (if current == [] then [] else [current])
    else if current != [] && used + w(items[0]) > cap then [current] + Packed(items[1..], w, cap, [items[0]], w(items[0]))
    else Packed(items[1..], w, cap, current + [items[0]], used + w(items[0]))
  }

  lemma WeightJoined<T>(a: seq<T>, b: seq<T>, w: T -> nat)
    ensures Weight(a + b, w) == Weight(a, w) + Weight(b, w)
  {
    if a == [] {
      assert a + b == b;
    } else {
      assert (a + b)[1..] == a[1..] + b;
      WeightJoined(a[1..], b, w);
    }
  }

  /** The groups give the items back, in order, none empty and none too heavy. */
  lemma {:induction false} PackedGroups<T>(items: seq<T>, w: T -> nat, cap: int, current: seq<T>, used: nat)
    requires used == Weight(current, w) && (current != [] ==> used <= cap)
    requires forall i :: 0 <= i < |items| ==> w(items[i]) <= cap
    ensures Flat(Packed(items, w, cap, current, used)) == current + items
    ensures forall g :: g in Packed(items, w, cap, current, used) ==> g != [] && Weight(g, w) <= cap
    decreases |items|
  {
    if items == [] {
      assert current + items == current;
      if current != [] { assert Flat([current]) == current + Flat([]); }
    } else {
      var item, rest := items[0], items[1..];
      assert Weight([item], w) == w(item) + Weight([item][1..], w);
      if current != [] && used + w(item) > cap {
        PackedGroups(rest, w, cap, [item], w(item));
        assert Flat(Packed(items, w, cap, current, used)) == current + Flat(Packed(rest, w, cap, [item], w(item)));
        assert current + ([item] + rest) == current + items;
      } else {
        WeightJoined(current, [item], w);
        PackedGroups(rest, w, cap, current + [item], used + w(item));
        assert (current + [item]) + rest == current + items;
      }
    }
  }

  /**
   No packing does with fewer groups: whatever boundaries another one has drawn before the
   group being filled, it needs at least as many groups from there on.
   */
  lemma {:induction false} PackedLeast<T>(items: seq<T>, w: T -> nat, cap: int, current: seq<T>, used: nat,
                                          extra: seq<T>, groups: seq<seq<T>>)
    requires used == Weight(current, w)
    requires Flat(groups) == extra + (current + items) && forall g :: g in groups ==> Weight(g, w) <= cap
    ensures |Packed(items, w, cap, current, used)| <= |groups|
    decreases |items|, |groups|
  {
    if items == [] {
      if current != [] { assert groups != []; }
    } else {
      var item, rest := items[0], items[1..];
      assert Weight([item], w) == w(item) + Weight([item][1..], w);
      if current != [] && used + w(item) > cap {
        assert groups != [] && groups[0] in groups;
        var before := extra + current;
        assert before + items == Flat(groups);
        if |groups[0]| > |before| { TooHeavy(groups[0], before, extra, current, items, w, cap); }
        var left := before[|groups[0]|..];
        assert Flat(groups[1..]) == (before + items)[|groups[0]|..] == left + items;
        assert left + items == left + ([item] + rest);
        PackedLeast(rest, w, cap, [item], w(item), left, groups[1..]);
      } else {
        WeightJoined(current, [item], w);
        assert extra + (current + items) == extra + ((current + [item]) + rest);
        PackedLeast(rest, w, cap, current + [item], used + w(item), extra, groups);
      }
    }
  }

  /** A group that reaches past the one being filled is too heavy. */
  lemma TooHeavy<T>(g: seq<T>, before: seq<T>, extra: seq<T>, current: seq<T>, items: seq<T>, w: T -> nat, cap: int)
    requires items != [] && before == extra + current && Weight(current, w) + w(items[0]) > cap
    requires g <= before + items && |g| > |before|
    ensures Weight(g, w) > cap
  {
    var tail := g[|before| + 1..];
    assert g == (before + items)[..|g|];
    assert g == extra + ((current + [items[0]]) + tail);
    WeightJoined(extra, (current + [items[0]]) + tail, w);
    WeightJoined(current + [items[0]], tail, w);
    WeightJoined(current, [items[0]], w);
    assert Weight([items[0]], w) == w(items[0]) + Weight([items[0]][1..], w);
  }
}
