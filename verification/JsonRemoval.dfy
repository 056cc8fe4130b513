/**
 Locating an item along a key path, cutting it out, and what the result is. On trees,
 `RemovePath` drops one member or element; on bytes, `Locate` finds the span that the cut
 takes; `CutItems`, `CutContainer` and `CutAlong` show, for an item list, one container and
 a whole path, that the text with the span cut out is the text of the smaller tree; and
 `RemovedDenotes` that the smaller tree denotes the parsed document without the target. What
 follows an item is handed along with it.
 */
module JsonRemoval {
  import opened Basics
  import opened JsonText
  import opened JsonScan
  import opened JsonSplice

  /** What is removed from the container a path leads to. */
  datatype Target = Member(name: string) | Element(index: nat)

  // ---- on trees -----------------------------------------------------------------------

  /** The first item of an object with this decoded name. */
  function Find(items: Items, decode: Decode, name: string): (r: Option<nat>)
    ensures r.Some? ==> r.value < Count(items)
  {
    var here := items.item.name.Name? && decode(items.item.name.body) == name;
    if here then Some(0)
    else if items.Last? then None
    else
      match Find(items.rest, decode, name)
      case None => None
      case Some(j) => Some(j + 1)
  }

  function Nth(items: Items, j: nat): Item
    requires j < Count(items)
  {
    if j == 0 then items.item else Nth(items.rest, j - 1)
  }

  function ReplaceNth(items: Items, j: nat, v: Value): Items
    requires j < Count(items)
  {
    match items
    case Last(i) => Last(i.(value := v))
    case More(i, rest) => if j == 0 then More(i.(value := v), rest) else More(i, ReplaceNth(rest, j - 1, v))
  }

  function TargetIndex(v: Value, decode: Decode, t: Target): (r: Option<nat>)
    requires v.Filled?
    ensures r.Some? ==> r.value < Count(v.items)
  {
    match t
    case Member(name) => Find(v.items, decode, name)
    case Element(i) => if !v.obj && i < Count(v.items) then Some(i) else None
  }

  /** The tree without the target; None when the path or the target is absent. */
  function RemovePath(v: Value, decode: Decode, path: seq<string>, t: Target): Option<Value>
    decreases |path|
  {
    if !v.Filled? then None
    else if path == [] then
      match TargetIndex(v, decode, t)
      case None => None
      case Some(j) => Some(RemoveAt(v, j))
    else
      match Find(v.items, decode, path[0])
      case None => None
      case Some(j) =>
        match RemovePath(Nth(v.items, j).value, decode, path[1..], t)
        case None => None
        case Some(w) => Some(Filled(v.obj, ReplaceNth(v.items, j, w)))
  }

  // ---- on bytes ------------------------------------------------------------------------

  /** The first listed item with this name. */
  function Named(js: seq<Span>, name: string): (r: Option<nat>)
    ensures r.Some? ==> r.value < |js|
  {
    if js == [] then None
    else if js[0].name == Some(name) then Some(0)
    else
      match Named(js[1..], name)
      case None => None
      case Some(j) => Some(j + 1)
  }

  function IndexIn(c: Container, t: Target): Option<nat> {
    match t
    case Member(name) => Named(c.items, name)
    case Element(i) => Some(i)
  }

  predicate InText(s: string, js: seq<Span>) {
    Inside(s, js) && forall j :: 0 <= j < |js| ==> js[j].valueStart <= |s|
  }

  lemma ItemsInText(s: string, decode: Decode, named: bool, i: nat)
    requires i <= |s| && ItemsFrom(s, decode, named, i).Some?
    ensures InText(s, ItemsFrom(s, decode, named, i).value.0)
    decreases |s| - i
  {
    hide ItemAt, SkipWs;
    var item := ItemAt(s, decode, named, i).value;
    var j := SkipWs(s, item.end);
    if j < |s| && s[j] == ',' {
      ItemsInText(s, decode, named, j + 1);
    }
  }

  lemma ContainerInText(s: string, decode: Decode, start: nat)
    requires start <= |s| && ContainerAt(s, decode, start).Some?
    ensures InText(s, ContainerAt(s, decode, start).value.0.items)
  {
    var i := SkipWs(s, start);
    var j := SkipWs(s, i + 1);
    if s[j] != Close(s[i] == '{') {
      ItemsInText(s, decode, s[i] == '{', i + 1);
    }
  }

  /** The bytes to cut, found from the container at `start` along `path`. */
  function Locate(s: string, decode: Decode, start: nat, path: seq<string>, t: Target): Option<Bytes>
    requires start <= |s|
    decreases |path|, 1
  {
    match ContainerAt(s, decode, start)
    case None => None
    case Some((c, _)) =>
      ContainerInText(s, decode, start);
      LocateIn(s, decode, c, path, t)
  }

  function LocateIn(s: string, decode: Decode, c: Container, path: seq<string>, t: Target): Option<Bytes>
    requires InText(s, c.items)
    decreases |path|, 0
  {
    if path == [] then
      match IndexIn(c, t)
      case None => None
      case Some(j) => SpanWithout(s, c, j)
    else
      match Named(c.items, path[0])
      case None => None
      case Some(j) => Locate(s, decode, c.items[j].valueStart, path[1..], t)
  }

  method IndexOfNamed(js: seq<Span>, name: string) returns (r: Option<nat>)
    ensures r == Named(js, name)
  {
    var j := 0;
    while j < |js|
      invariant 0 <= j <= |js|
      invariant Named(js, name) == if Named(js[j..], name).None? then None else Some(j + Named(js[j..], name).value)
    {
      if js[j].name == Some(name) { return Some(j); }
      assert js[j..][1..] == js[j + 1..];
      j := j + 1;
    }
    return None;
  }

  /** Walks the key path with one cursor over the text. */
  method FindSpan(s: string, decode: Decode, path: seq<string>, t: Target) returns (r: Option<Bytes>)
    ensures r == Locate(s, decode, 0, path, t)
  {
    var scan := new Cursor(s, decode);
    var c := scan.ReadContainer(0);
    if c.None? { return None; }
    ContainerInText(s, decode, 0);
    var i := 0;
    while i < |path|
      invariant 0 <= i <= |path| && c.Some? && scan.source == s && scan.decode == decode
      invariant InText(s, c.value.items)
      invariant Locate(s, decode, 0, path, t) == LocateIn(s, decode, c.value, path[i..], t)
    {
      var j := IndexOfNamed(c.value.items, path[i]);
      if j.None? { return None; }
      var start := c.value.items[j.value].valueStart;
      assert path[i..][1..] == path[i + 1..];
      c := scan.ReadContainer(start);
      if c.None? { return None; }
      ContainerInText(s, decode, start);
      i := i + 1;
    }
    var index: Option<nat>;
    match t {
      case Member(name) => index := IndexOfNamed(c.value.items, name);
      case Element(k) => index := Some(k);
    }
    return if index.None? then None else SpanWithout(s, c.value, index.value);
  }

  // ---- the cut is the text of the smaller tree --------------------------------------------

  /** What the document holds behind the `j`-th item's value. */
  function After(items: Items, j: nat, k: string): string
    requires j < Count(items)
  {
    match items
    case Last(i) => i.trail + k
    case More(i, rest) => if j == 0 then i.trail + ("," + ItemsText(rest, k)) else After(rest, j - 1, k)
  }

  lemma SpansInside(items: Items, s: string, decode: Decode, k: string)
    requires |ItemsText(items, k)| <= |s|
    ensures Inside(s, SpansOf(items, decode, |s|, k))
    decreases items
  {
    hide *;
    SpansParts(items, decode, |s|, k);
    var tail := if items.Last? then k else "," + ItemsText(items.rest, k);
    SpanBound(items.item, decode, |s|, tail);
    if items.More? {
      SpansInside(items.rest, s, decode, k);
      InsideMore(s, SpanOf(items.item, decode, |s|, tail), SpansOf(items.rest, decode, |s|, k));
    } else {
      InsideMore(s, SpanOf(items.item, decode, |s|, tail), []);
    }
  }

  lemma InsideMore(s: string, j: Span, js: seq<Span>)
    ensures Inside(s, [j] + js) <==> j.start <= |s| && j.end <= |s| && Inside(s, js)
    ensures Inside(s, [])
  {
    if Inside(s, [j] + js) {
      assert ([j] + js)[0] == j;
      assert forall x :: 0 <= x < |js| ==> ([j] + js)[x + 1] == js[x];
    }
  }

  lemma SpanBound(i: Item, decode: Decode, n: nat, k: string)
    requires |ItemText(i, k)| <= n
    ensures SpanOf(i, decode, n, k).start <= n && SpanOf(i, decode, n, k).end <= n && SpanOf(i, decode, n, k).valueStart <= n
  {
  }

  lemma SpansParts(items: Items, decode: Decode, n: nat, k: string)
    requires |ItemsText(items, k)| <= n
    ensures var tail := if items.Last? then k else "," + ItemsText(items.rest, k);
            && ItemsText(items, k) == ItemText(items.item, tail)
            && |ItemText(items.item, tail)| <= n && |tail| <= n
            && (items.Last? ==> SpansOf(items, decode, n, k) == [SpanOf(items.item, decode, n, tail)] + [])
            && (items.More? ==>
                  && |ItemsText(items.rest, k)| <= n
                  && SpansOf(items, decode, n, k)
                     == [SpanOf(items.item, decode, n, tail)] + SpansOf(items.rest, decode, n, k))
  {
    var tail := if items.Last? then k else "," + ItemsText(items.rest, k);
    Longer(items.item.value, items.item.trail + tail);
  }

  predicate Separator(k: string) { k != "" && Delimiter(k[0]) && !IsSpace(k[0]) }

  /** Cutting one item of several leaves the text of the list without it. */
  lemma {:induction false} CutItems(items: Items, index: nat, s: string, decode: Decode, named: bool, i: nat, k: string)
    requires At(s, i, ItemsText(items, k)) && ItemsOk(items, named) && i > 0 && !IsSpace(s[i - 1])
    requires Separator(k) && Count(items) >= 2 && index < Count(items)
    ensures |ItemsText(items, k)| <= |s| && Inside(s, SpansOf(items, decode, |s|, k))
    ensures var span := SpanAmong(s, SpansOf(items, decode, |s|, k), index);
            span.Some? && Fits(s, span.value) && Cut(s, span.value) == s[..i] + ItemsText(RemoveItem(items, index), k)
    decreases items
  {
    hide *;
    CutItemsParts(items, index, named, k);
    var item, rest := items.item, items.rest;
    var tail := ItemsText(rest, k);
    AtEnd(s, i, ItemsText(items, k));
    SpansInside(items, s, decode, k);
    ItemEdges(item, s, decode, i, named, tail);
    BeforeItemEnd(item, s, i, "," + tail);
    if index == 0 {
      CutFirst(item, rest, s, decode, i, k);
    } else if rest.Last? {
      CutLast(item, rest.item, s, decode, named, i, k);
    } else {
      CommaBefore(item, s, i, tail);
      CutItems(rest, index - 1, s, decode, named, |s| - |tail|, k);
      CutLater(item, rest, index, s, decode, i, k);
    }
  }

  lemma CutItemsParts(items: Items, index: nat, named: bool, k: string)
    requires ItemsOk(items, named) && Count(items) >= 2 && index < Count(items)
    ensures items.More? && ItemOk(items.item, named) && ItemsOk(items.rest, named) && !IsSpace(',')
    ensures ItemsText(items, k) == ItemText(items.item, "," + ItemsText(items.rest, k))
    ensures Count(items.rest) == Count(items) - 1 && (items.rest.More? ==> Count(items.rest) >= 2)
    ensures index == 0 ==> RemoveItem(items, index) == items.rest
    ensures index > 0 && items.rest.Last? ==>
      index == 1 && ItemsText(RemoveItem(items, index), k) == ItemText(items.item.(trail := items.item.trail + items.rest.item.trail), k)
    ensures index > 0 && items.rest.More? ==>
      ItemsText(RemoveItem(items, index), k) == ItemText(items.item, "," + ItemsText(RemoveItem(items.rest, index - 1), k))
  {
  }

  lemma CommaBefore(item: Item, s: string, i: nat, tail: string)
    requires At(s, i, ItemText(item, "," + tail))
    ensures 0 < |s| - |tail| && s[|s| - |tail| - 1] == ',' && At(s, |s| - |tail|, tail)
  {
    BeforeItemEnd(item, s, i, "," + tail);
    AtHead(s, |s| - |"," + tail|, ',', tail);
  }

  lemma CutFirst(item: Item, rest: Items, s: string, decode: Decode, i: nat, k: string)
    requires i <= |s| && |ItemsText(More(item, rest), k)| <= |s| && Inside(s, SpansOf(More(item, rest), decode, |s|, k))
    requires var tail := ItemsText(rest, k);
             && |ItemText(item, "," + tail)| <= |s| && |tail| < |s| && At(s, |s| - |tail|, tail)
             && var j := SpanOf(item, decode, |s|, "," + tail);
                j.start <= |s| && j.end <= |s| && WhitespaceBefore(s, j.start) == i
                && CommaAfter(s, j.end) == Some(|s| - |tail| - 1) && i <= |s| - |tail| - 1
    ensures var span := SpanAmong(s, SpansOf(More(item, rest), decode, |s|, k), 0);
            span.Some? && Fits(s, span.value) && Cut(s, span.value) == s[..i] + ItemsText(rest, k)
  {
    hide WhitespaceBefore;
    hide CommaAfter;
    hide SpanOf;
    hide Inside;
    assert SpansOf(More(item, rest), decode, |s|, k)[0] == SpanOf(item, decode, |s|, "," + ItemsText(rest, k));
  }

  /** A longer trailing white space is the same text read differently. */
  lemma TrailJoined(item: Item, trail: string, k: string)
    ensures ItemText(item.(trail := item.trail + trail), k) == ItemText(item, "") + (trail + k)
  {
    ItemTextAppend(item, "", trail + k);
    assert "" + (trail + k) == trail + k;
    assert item.trail + (trail + k) == (item.trail + trail) + k;
  }

  lemma CutLast(item: Item, last: Item, s: string, decode: Decode, named: bool, i: nat, k: string)
    requires At(s, i, ItemsText(More(item, Last(last)), k)) && ItemOk(item, named) && i > 0 && !IsSpace(s[i - 1])
    requires |ItemsText(More(item, Last(last)), k)| <= |s| && Inside(s, SpansOf(More(item, Last(last)), decode, |s|, k))
    ensures var span := SpanAmong(s, SpansOf(More(item, Last(last)), decode, |s|, k), 1);
            && span.Some? && Fits(s, span.value)
            && Cut(s, span.value) == s[..i] + ItemText(item.(trail := item.trail + last.trail), k)
  {
    hide *;
    var tail := ItemText(last, k);
    CutLastSpan(item, last, s, decode, i, k);
    ItemEdges(item, s, decode, i, named, tail);
    BeforeItemEnd(item, s, i, "," + tail);
    TrailAt(last, s, |s| - |tail|, k);
    TrailSuffix(s, last.trail + k);
    TrailJoined(item, last.trail, k);
    SecondOfTwo(s, SpansOf(More(item, Last(last)), decode, |s|, k), |s| - |tail| - 1);
    Joined(s[..i], ItemText(item, ""), last.trail + k);
  }

  lemma Joined(a: string, b: string, c: string)
    ensures (a + b) + c == a + (b + c)
  {
  }

  lemma TrailSuffix(s: string, t: string)
    requires |t| <= |s| && At(s, |s| - |t|, t)
    ensures s[|s| - |t|..] == t
  {
  }

  lemma SecondOfTwo(s: string, js: seq<Span>, comma: nat)
    requires |js| == 2 && Inside(s, js) && CommaAfter(s, js[0].end) == Some(comma) && comma <= js[1].end <= |s|
    ensures var span := SpanAmong(s, js, 1);
            span == Some((comma, js[1].end)) && Fits(s, span.value) && Cut(s, span.value) == s[..comma] + s[js[1].end..]
  {
  }

  lemma CutLastSpan(item: Item, last: Item, s: string, decode: Decode, i: nat, k: string)
    requires At(s, i, ItemsText(More(item, Last(last)), k))
    requires |ItemsText(More(item, Last(last)), k)| <= |s|
    ensures var tail := ItemText(last, k);
            && At(s, i, ItemText(item, "," + tail))
            && |ItemText(item, "," + tail)| <= |s| && |last.trail + k| <= |tail| <= |s|
            && var js := SpansOf(More(item, Last(last)), decode, |s|, k);
               |js| == 2 && js[0] == SpanOf(item, decode, |s|, "," + tail) && js[1].end == |s| - |last.trail + k|
  {
    SpansParts(More(item, Last(last)), decode, |s|, k);
    SpansParts(Last(last), decode, |s|, k);
    ItemEnd(last, decode, |s|, k);
    hide *;
  }

  lemma ItemEnd(i: Item, decode: Decode, n: nat, k: string)
    requires |ItemText(i, k)| <= n
    ensures |i.trail + k| <= |ItemText(i, k)| && SpanOf(i, decode, n, k).end == n - |i.trail + k|
  {
    Longer(i.value, i.trail + k);
  }

  /** What an item's place keeps in front of what is put behind its separator. */
  lemma JoinAfterComma(item: Item, s: string, i: nat, tail: string, left: string)
    requires At(s, i, ItemText(item, "," + tail))
    ensures |tail| < |s| && s[..|s| - |tail|] + left == s[..i] + ItemText(item, "," + left)
  {
    hide *;
    BeforeItemEnd(item, s, i, "," + tail);
    CommaBefore(item, s, i, tail);
    OneMore(s, |s| - |tail| - 1);
    ItemTextAppend(item, "", "," + left);
    NothingBefore("," + left);
    Regroup(s[..i], ItemText(item, ""), ",", left);
  }

  lemma OneMore(s: string, n: nat)
    requires n < |s|
    ensures s[..n + 1] == s[..n] + [s[n]]
  {
  }

  lemma NothingBefore(k: string)
    ensures "" + k == k
  {
  }

  lemma Regroup(a: string, b: string, c: string, d: string)
    ensures ((a + b) + c) + d == a + (b + (c + d))
  {
  }

  lemma CutLater(item: Item, rest: Items, index: nat, s: string, decode: Decode, i: nat, k: string)
    requires 0 < index <= Count(rest) && Count(rest) >= 2 && At(s, i, ItemText(item, "," + ItemsText(rest, k)))
    requires |ItemsText(More(item, rest), k)| <= |s| && Inside(s, SpansOf(More(item, rest), decode, |s|, k))
    requires |ItemsText(rest, k)| <= |s| && Inside(s, SpansOf(rest, decode, |s|, k))
    requires var span := SpanAmong(s, SpansOf(rest, decode, |s|, k), index - 1);
             && span.Some? && Fits(s, span.value)
             && Cut(s, span.value) == s[..|s| - |ItemsText(rest, k)|] + ItemsText(RemoveItem(rest, index - 1), k)
    ensures var span := SpanAmong(s, SpansOf(More(item, rest), decode, |s|, k), index);
            && span.Some? && Fits(s, span.value)
            && Cut(s, span.value) == s[..i] + ItemText(item, "," + ItemsText(RemoveItem(rest, index - 1), k))
  {
    hide *;
    SpansParts(More(item, rest), decode, |s|, k);
    SpansParts(rest, decode, |s|, k);
    var tail, left := ItemsText(rest, k), ItemsText(RemoveItem(rest, index - 1), k);
    SpanAmongLater(s, SpanOf(item, decode, |s|, "," + tail), SpansOf(rest, decode, |s|, k), index);
    JoinAfterComma(item, s, i, tail, left);
  }

  lemma SpanAmongLater(s: string, j: Span, js: seq<Span>, index: nat)
    requires Inside(s, [j] + js) && Inside(s, js) && |js| >= 2 && 0 < index <= |js|
    ensures SpanAmong(s, [j] + js, index) == SpanAmong(s, js, index - 1)
  {
  }

  /** Removing an item from a container's text. */
  lemma {:induction false} CutContainer(v: Value, index: nat, s: string, decode: Decode, i: nat, k: string)
    requires At(s, i, ValueText(v, k)) && ValueOk(v) && v.Filled? && index < Count(v.items)
    ensures |ValueText(v, k)| <= |s| && Inside(s, ContainerOf(v, decode, |s|, k).items)
    ensures var span := SpanWithout(s, ContainerOf(v, decode, |s|, k), index);
            span.Some? && Fits(s, span.value) && Cut(s, span.value) == s[..i] + ValueText(RemoveAt(v, index), k)
  {
    var closing := [Close(v.obj)] + k;
    var inner := ItemsText(v.items, closing);
    ContainerParts(v, s, decode, i, k);
    SpansInside(v.items, s, decode, closing);
    if Count(v.items) == 1 {
      CutSole(v, s, decode, i, k);
    } else {
      CutItems(v.items, index, s, decode, v.obj, i + 1, closing);
      JoinAfterOpen(v.obj, s, i, ItemsText(RemoveItem(v.items, index), closing));
      hide At;
      hide CommaAfter;
      hide WhitespaceBefore;
      hide SpanAmong;
      hide Inside;
      hide SpansOf;
      hide ItemsText;
      hide RemoveItem;
    }
  }

  lemma JoinAfterOpen(obj: bool, s: string, i: nat, left: string)
    requires i < |s| && s[i] == Open(obj)
    ensures s[..i + 1] + left == s[..i] + ([Open(obj)] + left)
  {
    assert s[..i + 1] == s[..i] + [Open(obj)];
    assert (s[..i] + [Open(obj)]) + left == s[..i] + ([Open(obj)] + left);
  }

  lemma ContainerParts(v: Value, s: string, decode: Decode, i: nat, k: string)
    requires At(s, i, ValueText(v, k)) && ValueOk(v) && v.Filled?
    ensures |ValueText(v, k)| <= |s| && i < |s| && s[i] == Open(v.obj) && !IsSpace(s[i])
    ensures var closing := [Close(v.obj)] + k;
            && At(s, i + 1, ItemsText(v.items, closing)) && ItemsOk(v.items, v.obj) && Separator(closing)
            && |closing| <= |ItemsText(v.items, closing)| <= |s|
            && ContainerOf(v, decode, |s|, k) == Container(SpansOf(v.items, decode, |s|, closing), i + 1, |s| - |closing|)
  {
    var closing := [Close(v.obj)] + k;
    AtEnd(s, i, ValueText(v, k));
    AtHead(s, i, Open(v.obj), ItemsText(v.items, closing));
    AtEnd(s, i + 1, ItemsText(v.items, closing));
    ItemsLonger(v.items, closing);
  }

  lemma CutSole(v: Value, s: string, decode: Decode, i: nat, k: string)
    requires At(s, i, ValueText(v, k)) && ValueOk(v) && v.Filled? && |ValueText(v, k)| <= |s|
    ensures var c := ContainerOf(v, decode, |s|, k);
            && Fits(s, (c.innerStart, c.innerEnd))
            && Cut(s, (c.innerStart, c.innerEnd)) == s[..i] + ValueText(Empty(v.obj, ""), k)
  {
    hide *;
    var closing := [Close(v.obj)] + k;
    ContainerParts(v, s, decode, i, k);
    ItemsEnd(v.items, s, i + 1, closing);
    JoinAfterOpen(v.obj, s, i, closing);
    NothingBefore(closing);
    EmptyText(v.obj, k);
    CutIs(s, i + 1, |s| - |closing|);
  }

  lemma CutIs(s: string, a: nat, b: nat)
    requires a <= b <= |s|
    ensures Fits(s, (a, b)) && Cut(s, (a, b)) == s[..a] + s[b..]
  {
  }

  lemma EmptyText(obj: bool, k: string)
    ensures ValueText(Empty(obj, ""), k) == [Open(obj)] + ("" + ([Close(obj)] + k))
  {
  }

  lemma ItemsEnd(items: Items, s: string, i: nat, k: string)
    requires At(s, i, ItemsText(items, k))
    ensures i + |k| <= |s| && s[|s| - |k|..] == k
  {
    ItemsSuffix(items, k);
    AtEnd(s, i, ItemsText(items, k));
    assert s[|s| - |k|..] == s[i..][|ItemsText(items, k)| - |k|..];
  }

  // ---- along a path ----------------------------------------------------------------------

  lemma NamedIsFind(items: Items, decode: Decode, name: string, n: nat, k: string)
    requires |ItemsText(items, k)| <= n
    ensures Named(SpansOf(items, decode, n, k), name) == Find(items, decode, name)
    decreases items
  {
    if items.More? {
      Longer(items.item.value, items.item.trail + ("," + ItemsText(items.rest, k)));
      var js := SpansOf(items, decode, n, k);
      assert js[1..] == SpansOf(items.rest, decode, n, k);
      NamedIsFind(items.rest, decode, name, n, k);
    } else {
      assert SpansOf(items, decode, n, k)[1..] == [];
    }
  }

  /** The `j`-th item's value stands where the scan says, and can be exchanged there. */
  lemma {:induction false} ValuePlace(items: Items, j: nat, w: Value, s: string, decode: Decode, named: bool, i: nat, k: string)
    requires At(s, i, ItemsText(items, k)) && ItemsOk(items, named) && j < Count(items) && Separator(k)
    ensures |ItemsText(items, k)| <= |s| && Delimited(After(items, j, k)) && ValueOk(Nth(items, j).value)
    ensures var v := SpansOf(items, decode, |s|, k)[j].valueStart;
            && v <= |s| && At(s, v, ValueText(Nth(items, j).value, After(items, j, k)))
            && s[..v] + ValueText(w, After(items, j, k)) == s[..i] + ItemsText(ReplaceNth(items, j, w), k)
    decreases items
  {
    hide *;
    AtEnd(s, i, ItemsText(items, k));
    SpansParts(items, decode, |s|, k);
    PlaceParts(items, j, named, w, k);
    if j == 0 {
      FirstValuePlace(items, w, s, decode, named, i, k);
    } else {
      var rest := items.rest;
      CommaBefore(items.item, s, i, ItemsText(rest, k));
      ValuePlace(rest, j - 1, w, s, decode, named, |s| - |ItemsText(rest, k)|, k);
      JoinAfterComma(items.item, s, i, ItemsText(rest, k), ItemsText(ReplaceNth(rest, j - 1, w), k));
    }
  }

  lemma PlaceParts(items: Items, j: nat, named: bool, w: Value, k: string)
    requires ItemsOk(items, named) && j < Count(items)
    ensures j == 0 ==> Nth(items, j) == items.item
    ensures j > 0 ==> items.More? && ItemsOk(items.rest, named) && j - 1 < Count(items.rest)
    ensures j > 0 ==> Nth(items, j) == Nth(items.rest, j - 1) && After(items, j, k) == After(items.rest, j - 1, k)
    ensures j > 0 ==>
      ItemsText(ReplaceNth(items, j, w), k) == ItemText(items.item, "," + ItemsText(ReplaceNth(items.rest, j - 1, w), k))
  {
  }

  lemma FirstValuePlace(items: Items, w: Value, s: string, decode: Decode, named: bool, i: nat, k: string)
    requires At(s, i, ItemsText(items, k)) && ItemsOk(items, named) && Separator(k) && |ItemsText(items, k)| <= |s|
    ensures Delimited(After(items, 0, k)) && ValueOk(items.item.value)
    ensures var v := SpansOf(items, decode, |s|, k)[0].valueStart;
            && v <= |s| && At(s, v, ValueText(items.item.value, After(items, 0, k)))
            && s[..v] + ValueText(w, After(items, 0, k)) == s[..i] + ItemsText(ReplaceNth(items, 0, w), k)
  {
    var item := items.item;
    var tail := if items.Last? then k else "," + ItemsText(items.rest, k);
    assert ItemsText(items, k) == ItemText(item, tail);
    assert ItemsText(ReplaceNth(items, 0, w), k) == ItemText(item.(value := w), tail);
    assert SpansOf(items, decode, |s|, k)[0] == SpanOf(item, decode, |s|, tail);
    assert After(items, 0, k) == item.trail + tail;
    ItemParts(item, named, tail);
    hide ItemsText;
    hide SpansOf;
    hide ReplaceNth;
    ValueAt(item, w, s, decode, i, tail);
  }

  lemma ValueAt(item: Item, w: Value, s: string, decode: Decode, i: nat, k: string)
    requires At(s, i, ItemText(item, k)) && |ItemText(item, k)| <= |s|
    ensures var v := SpanOf(item, decode, |s|, k).valueStart;
            && v <= |s| && At(s, v, ValueText(item.value, item.trail + k))
            && s[..v] + ValueText(w, item.trail + k) == s[..i] + ItemText(item.(value := w), k)
  {
    hide ItemText, ValueText, NameText;
    var before := item.lead + NameText(item.name, "");
    var value, value' := FromValue(item, k), ValueText(w, item.trail + k);
    BeforeValue(item, k);
    BeforeValue(item.(value := w), k);
    AtEnd(s, i, ItemText(item, k));
    AtSkip(s, i, before, value);
    assert SpanOf(item, decode, |s|, k).valueStart == |s| - |value|;
    hide *;
    var v := i + |before|;
    assert s[..v] == s[..i] + before;
    assert (s[..i] + before) + value' == s[..i] + (before + value');
  }

  lemma BeforeValue(item: Item, k: string)
    ensures ItemText(item, k) == (item.lead + NameText(item.name, "")) + ValueText(item.value, item.trail + k)
  {
    var value := ValueText(item.value, item.trail + k);
    NameTextAppend(item.name, "", value);
    assert "" + value == value;
  }

  lemma RemoveItemOk(items: Items, index: nat, named: bool)
    requires ItemsOk(items, named) && Count(items) >= 2 && index < Count(items)
    ensures ItemsOk(RemoveItem(items, index), named)
    decreases items
  {
    if index > 0 && items.rest.More? {
      RemoveItemOk(items.rest, index - 1, named);
    } else if index > 0 {
      assert ItemsOk(items.rest, named);
      TrailOk(items.item, items.rest.item, named);
    }
  }

  lemma TrailOk(a: Item, b: Item, named: bool)
    requires ItemOk(a, named) && ItemOk(b, named)
    ensures ItemOk(a.(trail := a.trail + b.trail), named)
  {
    hide ValueOk;
    forall i | 0 <= i < |a.trail + b.trail| ensures IsSpace((a.trail + b.trail)[i]) {
      if i < |a.trail| { assert IsSpace(a.trail[i]); } else { assert IsSpace(b.trail[i - |a.trail|]); }
    }
  }

  lemma ReplaceNthOk(items: Items, j: nat, w: Value, named: bool)
    requires ItemsOk(items, named) && j < Count(items) && ValueOk(w)
    ensures ItemsOk(ReplaceNth(items, j, w), named)
    decreases items
  {
    if items.More? && j > 0 {
      ReplaceNthOk(items.rest, j - 1, w, named);
    }
  }

  lemma RemoveAtOk(v: Value, index: nat)
    requires ValueOk(v) && v.Filled? && index < Count(v.items)
    ensures ValueOk(RemoveAt(v, index))
  {
    if Count(v.items) >= 2 { RemoveItemOk(v.items, index, v.obj); }
  }

  lemma LocateHere(s: string, decode: Decode, i: nat, t: Target, j: nat, c: Container)
    requires i <= |s| && ContainerAt(s, decode, i).Some? && ContainerAt(s, decode, i).value.0 == c
    requires IndexIn(c, t) == Some(j) && Inside(s, c.items)
    ensures Locate(s, decode, i, [], t) == SpanWithout(s, c, j)
  {
    hide ContainerAt;
    hide SpanWithout;
  }

  lemma LocateThere(s: string, decode: Decode, i: nat, path: seq<string>, t: Target, j: nat, c: Container)
    requires i <= |s| && ContainerAt(s, decode, i).Some? && ContainerAt(s, decode, i).value.0 == c
    requires path != [] && Named(c.items, path[0]) == Some(j) && c.items[j].valueStart <= |s|
    ensures Locate(s, decode, i, path, t) == Locate(s, decode, c.items[j].valueStart, path[1..], t)
  {
    hide ContainerAt;
    hide SpanWithout;
  }

  lemma {:induction false} CutHere(v: Value, decode: Decode, t: Target, s: string, i: nat, k: string)
    requires At(s, i, ValueText(v, k)) && ValueOk(v) && v.Filled? && TargetIndex(v, decode, t).Some?
    ensures var w := RemoveAt(v, TargetIndex(v, decode, t).value);
            var span := Locate(s, decode, i, [], t);
            span.Some? && Fits(s, span.value) && Cut(s, span.value) == s[..i] + ValueText(w, k) && ValueOk(w)
  {
    hide *;
    ContainerScan(v, s, decode, i, k);
    ContainerParts(v, s, decode, i, k);
    var j := TargetIndex(v, decode, t).value;
    RemoveAtOk(v, j);
    CutContainer(v, j, s, decode, i, k);
    if t.Member? { NamedIsFind(v.items, decode, t.name, |s|, [Close(v.obj)] + k); }
    TargetIsIndex(v, decode, t, ContainerOf(v, decode, |s|, k));
    AtEnd(s, i, ValueText(v, k));
    LocateHere(s, decode, i, t, j, ContainerOf(v, decode, |s|, k));
  }

  lemma TargetIsIndex(v: Value, decode: Decode, t: Target, c: Container)
    requires v.Filled? && TargetIndex(v, decode, t).Some? && (t.Member? ==> Named(c.items, t.name) == Find(v.items, decode, t.name))
    ensures IndexIn(c, t) == TargetIndex(v, decode, t)
  {
  }

  lemma PathParts(v: Value, decode: Decode, path: seq<string>, t: Target)
    requires RemovePath(v, decode, path, t).Some?
    ensures v.Filled?
    ensures path == [] ==> TargetIndex(v, decode, t).Some? && RemovePath(v, decode, path, t) == Some(RemoveAt(v, TargetIndex(v, decode, t).value))
    ensures path != [] ==>
      && Find(v.items, decode, path[0]).Some?
      && var j := Find(v.items, decode, path[0]).value;
         var w := RemovePath(Nth(v.items, j).value, decode, path[1..], t);
         w.Some? && RemovePath(v, decode, path, t) == Some(Filled(v.obj, ReplaceNth(v.items, j, w.value)))
  {
  }

  /** Locating along a path and cutting gives the text of the tree without the target. */
  lemma {:induction false} CutAlong(v: Value, decode: Decode, path: seq<string>, t: Target, s: string, i: nat, k: string)
    requires At(s, i, ValueText(v, k)) && ValueOk(v) && RemovePath(v, decode, path, t).Some?
    ensures i <= |s|
    ensures var w := RemovePath(v, decode, path, t).value;
            var span := Locate(s, decode, i, path, t);
            span.Some? && Fits(s, span.value) && Cut(s, span.value) == s[..i] + ValueText(w, k) && ValueOk(w)
    decreases |path|
  {
    hide *;
    PathParts(v, decode, path, t);
    AtEnd(s, i, ValueText(v, k));
    if path == [] {
      CutHere(v, decode, t, s, i, k);
    } else {
      var closing := [Close(v.obj)] + k;
      var j := Find(v.items, decode, path[0]).value;
      var w := RemovePath(Nth(v.items, j).value, decode, path[1..], t).value;
      ContainerScan(v, s, decode, i, k);
      ContainerParts(v, s, decode, i, k);
      NamedIsFind(v.items, decode, path[0], |s|, closing);
      ValuePlace(v.items, j, w, s, decode, v.obj, i + 1, closing);
      var start := SpansOf(v.items, decode, |s|, closing)[j].valueStart;
      CutAlong(Nth(v.items, j).value, decode, path[1..], t, s, start, After(v.items, j, closing));
      LocateThere(s, decode, i, path, t, j, ContainerOf(v, decode, |s|, k));
      JoinAfterOpen(v.obj, s, i, ItemsText(ReplaceNth(v.items, j, w), closing));
      ReplaceNthOk(v.items, j, w, v.obj);
      FilledText(v.obj, ReplaceNth(v.items, j, w), k);
    }
  }

  lemma FilledText(obj: bool, items: Items, k: string)
    ensures ValueText(Filled(obj, items), k) == [Open(obj)] + ItemsText(items, [Close(obj)] + k)
    ensures ValueOk(Filled(obj, items)) <==> ItemsOk(items, obj)
  {
  }

  // ---- what the smaller document denotes -------------------------------------------------------

  function Without(ms: seq<(string, Json)>, name: string): seq<(string, Json)> {
    if ms == [] then []
    else if ms[0].0 == name then Without(ms[1..], name)
    else [ms[0]] + Without(ms[1..], name)
  }

  /** A key's value in a document with distinct keys, and the document with another value there. */
  function ValueOfKey(ms: seq<(string, Json)>, name: string): Option<Json> {
    if ms == [] then None else if ms[0].0 == name then Some(ms[0].1) else ValueOfKey(ms[1..], name)
  }

  function WithKey(ms: seq<(string, Json)>, name: string, j: Json): seq<(string, Json)> {
    if ms == [] then []
    else [if ms[0].0 == name then (name, j) else ms[0]] + WithKey(ms[1..], name, j)
  }

  /** The parsed document without the target, as `_delete_leaf` and `del` leave it. */
  function JsonRemove(j: Json, path: seq<string>, t: Target): Option<Json>
    decreases |path|
  {
    if path == [] then
      match t
      case Member(name) =>
        if j.Object? && ValueOfKey(j.members, name).Some? then Some(Object(Without(j.members, name))) else None
      case Element(i) =>
        if j.Array? && i < |j.elems| then Some(Array(j.elems[..i] + j.elems[i + 1..])) else None
    else if !j.Object? then None
    else
      match ValueOfKey(j.members, path[0])
      case None => None
      case Some(inner) =>
        match JsonRemove(inner, path[1..], t)
        case None => None
        case Some(w) => Some(Object(WithKey(j.members, path[0], w)))
  }

  /** Names are distinct within every object, as the duplicate-name guard demands. */
  predicate NoDuplicates(v: Value, decode: Decode) {
    v.Filled? ==> ItemsDistinct(v.items, decode, v.obj)
  }

  predicate ItemsDistinct(items: Items, decode: Decode, named: bool) {
    && NoDuplicates(items.item.value, decode)
    && (items.More? ==>
          && ItemsDistinct(items.rest, decode, named)
          && (named ==> Find(items.rest, decode, NameOf(items.item, decode)).None?))
  }

  lemma PairsFind(items: Items, decode: Decode, name: string)
    requires ItemsOk(items, true)
    ensures var r := Find(items, decode, name);
            ValueOfKey(Pairs(items, decode), name) == if r.None? then None else Some(Denote(Nth(items, r.value).value, decode))
    decreases items
  {
    var ps := Pairs(items, decode);
    if items.More? {
      assert ps[1..] == Pairs(items.rest, decode);
      PairsFind(items.rest, decode, name);
    } else {
      assert ps[1..] == [];
    }
  }

  lemma WithoutAbsent(items: Items, decode: Decode, name: string)
    requires ItemsOk(items, true) && Find(items, decode, name).None?
    ensures Without(Pairs(items, decode), name) == Pairs(items, decode)
    ensures forall w :: WithKey(Pairs(items, decode), name, w) == Pairs(items, decode)
    decreases items
  {
    var ps := Pairs(items, decode);
    if items.More? {
      assert ps[1..] == Pairs(items.rest, decode);
      WithoutAbsent(items.rest, decode, name);
    } else {
      assert ps[1..] == [];
    }
  }

  lemma PairsRemoved(items: Items, decode: Decode, name: string)
    requires ItemsOk(items, true) && ItemsDistinct(items, decode, true) && Find(items, decode, name).Some?
    ensures Without(Pairs(items, decode), name)
         == if Count(items) == 1 then [] else Pairs(RemoveItem(items, Find(items, decode, name).value), decode)
    decreases items
  {
    var ps := Pairs(items, decode);
    if items.More? {
      assert ps[1..] == Pairs(items.rest, decode);
      if ps[0].0 == name {
        WithoutAbsent(items.rest, decode, name);
      } else {
        PairsRemoved(items.rest, decode, name);
        if items.rest.Last? {
          assert Pairs(items.rest, decode)[1..] == [];
          assert [ps[0]] + [] == [ps[0]];
        }
      }
    } else {
      assert ps[1..] == [];
    }
  }

  lemma PairsReplaced(items: Items, decode: Decode, name: string, w: Value)
    requires ItemsOk(items, true) && ItemsDistinct(items, decode, true) && Find(items, decode, name).Some?
    ensures WithKey(Pairs(items, decode), name, Denote(w, decode))
         == Pairs(ReplaceNth(items, Find(items, decode, name).value, w), decode)
    decreases items
  {
    var ps := Pairs(items, decode);
    if items.More? {
      assert ps[1..] == Pairs(items.rest, decode);
      if ps[0].0 == name {
        WithoutAbsent(items.rest, decode, name);
      } else {
        PairsReplaced(items.rest, decode, name, w);
      }
    } else {
      assert ps[1..] == [];
    }
  }

  lemma ElemsRemoved(items: Items, decode: Decode, i: nat)
    requires i < Count(items)
    ensures |Elems(items, decode)| == Count(items)
    ensures Count(items) >= 2 ==> Elems(RemoveItem(items, i), decode) == Elems(items, decode)[..i] + Elems(items, decode)[i + 1..]
    decreases items
  {
    if items.More? {
      var rest := Elems(items.rest, decode);
      ElemsRemoved(items.rest, decode, if i == 0 then 0 else i - 1);
      var e := Denote(items.item.value, decode);
      assert Elems(items, decode) == [e] + rest;
      if i > 0 && items.rest.More? {
        assert Elems(RemoveItem(items, i), decode) == [e] + Elems(RemoveItem(items.rest, i - 1), decode);
      }
      hide *;
      WithoutLater(e, rest, i);
    }
  }

  lemma WithoutLater<T>(e: T, es: seq<T>, i: nat)
    requires i <= |es|
    ensures i == 0 ==> ([e] + es)[..i] + ([e] + es)[i + 1..] == es
    ensures i > 0 ==> ([e] + es)[..i] + ([e] + es)[i + 1..] == [e] + (es[..i - 1] + es[i..])
  {
  }

  lemma NthDistinct(items: Items, decode: Decode, named: bool, j: nat)
    requires ItemsDistinct(items, decode, named) && ItemsOk(items, named) && j < Count(items)
    ensures NoDuplicates(Nth(items, j).value, decode) && ValueOk(Nth(items, j).value)
    decreases items
  {
    if j > 0 { NthDistinct(items.rest, decode, named, j - 1); }
  }

  lemma NoneNamed(items: Items, decode: Decode, name: string)
    requires ItemsOk(items, false)
    ensures Find(items, decode, name).None?
    decreases items
  {
    if items.More? { NoneNamed(items.rest, decode, name); }
  }

  /** The tree without the target denotes the document without the target. */
  lemma {:induction false} RemovedDenotes(v: Value, decode: Decode, path: seq<string>, t: Target)
    requires ValueOk(v) && NoDuplicates(v, decode)
    ensures var w, j := RemovePath(v, decode, path, t), JsonRemove(Denote(v, decode), path, t);
            (w.Some? <==> j.Some?) && (w.Some? ==> Denote(w.value, decode) == j.value)
    decreases |path|
  {
    if !v.Filled? {
      NothingToRemove(v, decode, path, t);
    } else if path == [] {
      TargetDenotes(v, decode, t);
    } else if !v.obj {
      NoneNamed(v.items, decode, path[0]);
    } else {
      PairsFind(v.items, decode, path[0]);
      var r := Find(v.items, decode, path[0]);
      if r.Some? {
        var inner := Nth(v.items, r.value).value;
        NthDistinct(v.items, decode, true, r.value);
        RemovedDenotes(inner, decode, path[1..], t);
        var w := RemovePath(inner, decode, path[1..], t);
        if w.Some? {
          PairsReplaced(v.items, decode, path[0], w.value);
        }
      }
    }
  }

  lemma NothingToRemove(v: Value, decode: Decode, path: seq<string>, t: Target)
    requires !v.Filled?
    ensures JsonRemove(Denote(v, decode), path, t).None?
  {
  }

  lemma TargetDenotes(v: Value, decode: Decode, t: Target)
    requires v.Filled? && ValueOk(v) && NoDuplicates(v, decode)
    ensures var w, j := RemovePath(v, decode, [], t), JsonRemove(Denote(v, decode), [], t);
            (w.Some? <==> j.Some?) && (w.Some? ==> Denote(w.value, decode) == j.value)
  {
    match t
    case Member(name) =>
      if v.obj {
        PairsFind(v.items, decode, name);
        if Find(v.items, decode, name).Some? { PairsRemoved(v.items, decode, name); }
      } else {
        NoneNamed(v.items, decode, name);
      }
    case Element(i) =>
      if !v.obj {
        ElemsRemoved(v.items, decode, if i < Count(v.items) then i else 0);
      }
  }
}
