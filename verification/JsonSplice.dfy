/**
 Taking one member or one array element out of a document by cutting bytes. The cut's
 result is the text of the tree without that item and one separator; it denotes the
 document without the item; every byte outside the cut is the user's. An item among several
 goes with one separator and the white space that stood with it, a last one with the comma in
 front of it, and a sole item with the whole inside of its container, so that what is left is
 an empty object or array. Which of these it is depends on the listed items alone.
 */
module JsonSplice {
  import opened Basics
  import opened JsonText
  import opened JsonScan

  // ---- the span to cut ----------------------------------------------------------------

  function WhitespaceBefore(s: string, at: nat): (r: nat)
    requires at <= |s|
    ensures r <= at
  {
    if at > 0 && IsSpace(s[at - 1]) then WhitespaceBefore(s, at - 1) else at
  }

  function CommaAfter(s: string, at: nat): (r: Option<nat>)
    requires at <= |s|
    ensures r.Some? ==> at <= r.value < |s|
    decreases |s| - at
  {
    if at == |s| then None
    else if IsSpace(s[at]) then CommaAfter(s, at + 1)
    else if s[at] == ',' then Some(at)
    else None
  }

  type Bytes = (nat, nat)

  predicate Inside(s: string, js: seq<Span>) {
    forall j :: 0 <= j < |js| ==> js[j].start <= |s| && js[j].end <= |s|
  }

  /** One item of several: its bytes and one separator. */
  function SpanAmong(s: string, js: seq<Span>, index: nat): Option<Bytes>
    requires index < |js| && |js| >= 2 && Inside(s, js)
  {
    if index + 1 < |js| then
      match CommaAfter(s, js[index].end)
      case None => None
      case Some(comma) => Some((WhitespaceBefore(s, js[index].start), comma + 1))
    else
      match CommaAfter(s, js[index - 1].end)
      case None => None
      case Some(comma) => Some((comma, js[index].end))
  }

  /** The bytes covering one item plus exactly one separator; a sole item takes the whole interior. */
  function SpanWithout(s: string, c: Container, index: nat): Option<Bytes>
    requires Inside(s, c.items)
  {
    if index >= |c.items| then None
    else if |c.items| == 1 then Some((c.innerStart, c.innerEnd))
    else SpanAmong(s, c.items, index)
  }

  predicate Fits(s: string, span: Bytes) { span.0 <= span.1 <= |s| }

  function Cut(s: string, span: Bytes): string
    requires Fits(s, span)
  {
    s[..span.0] + s[span.1..]
  }

  // ---- the tree without one item -----------------------------------------------------------

  /** The last item leaves the white space after it to the one before. */
  function RemoveItem(items: Items, index: nat): Items
    requires index < Count(items) && Count(items) >= 2
  {
    if index == 0 then items.rest
    else if items.rest.Last? then Last(items.item.(trail := items.item.trail + items.rest.item.trail))
    else More(items.item, RemoveItem(items.rest, index - 1))
  }

  /** An emptied container keeps its braces and nothing between them. */
  function RemoveAt(v: Value, index: nat): Value
    requires v.Filled? && index < Count(v.items)
  {
    if Count(v.items) == 1 then Empty(v.obj, "") else Filled(v.obj, RemoveItem(v.items, index))
  }

  lemma ValueTextAppend(v: Value, a: string, b: string)
    ensures ValueText(v, a) + b == ValueText(v, a + b)
    decreases v
  {
    match v
    case Scalar(text) => assert (text + a) + b == text + (a + b);
    case Str(body) => assert ("\"" + (body + ("\"" + a))) + b == "\"" + (body + ("\"" + (a + b)));
    case Empty(obj, inner) => FourParts([Open(obj)], inner, [Close(obj)] + a, b);
      FourParts([], [Close(obj)], a, b);
    case Filled(obj, items) =>
      hide ItemsText, Open, Close;
      ItemsTextAppend(items, [Close(obj)] + a, b);
      FourParts([], [Close(obj)], a, b);
      FourParts([], [Open(obj)], ItemsText(items, [Close(obj)] + a), b);
  }

  lemma FourParts(a: string, b: string, c: string, d: string)
    ensures (a + (b + c)) + d == a + (b + (c + d)) && (b + c) + d == b + (c + d)
  {
  }

  lemma ItemTextAppend(i: Item, a: string, b: string)
    ensures ItemText(i, a) + b == ItemText(i, a + b)
    decreases i
  {
    ValueTextAppend(i.value, i.trail + a, b);
    assert (i.trail + a) + b == i.trail + (a + b);
    NameTextAppend(i.name, ValueText(i.value, i.trail + a), b);
    var start := NameText(i.name, ValueText(i.value, i.trail + a));
    assert (i.lead + start) + b == i.lead + (start + b);
  }

  lemma NameTextAppend(n: Name, a: string, b: string)
    ensures NameText(n, a) + b == NameText(n, a + b)
  {
    if n.Name? {
      assert ("\"" + (n.body + ("\"" + (n.before + (":" + (n.after + a)))))) + b
          == "\"" + (n.body + ("\"" + (n.before + (":" + (n.after + (a + b))))));
    }
  }

  lemma ItemsTextAppend(items: Items, a: string, b: string)
    ensures ItemsText(items, a) + b == ItemsText(items, a + b)
    decreases items
  {
    match items
    case Last(i) => ItemTextAppend(i, a, b);
    case More(i, rest) =>
      ItemsTextAppend(rest, a, b);
      ItemTextAppend(i, "," + ItemsText(rest, a), b);
      assert ("," + ItemsText(rest, a)) + b == "," + (ItemsText(rest, a) + b);
  }

  /** Splitting a text in front of what follows an item. */
  lemma BeforeItemEnd(i: Item, s: string, at: nat, k: string)
    requires At(s, at, ItemText(i, k))
    ensures |k| <= |s| && at <= |s| - |k|
    ensures s[..|s| - |k|] == s[..at] + ItemText(i, "")
    ensures At(s, |s| - |k|, k)
  {
    hide ItemText;
    ItemTextAppend(i, "", k);
    assert "" + k == k;
    AtSkip(s, at, ItemText(i, ""), k);
    AtEnd(s, at, ItemText(i, k));
    var n := |s| - |k|;
    assert s[..n] == s[..at] + s[at..n];
  }

  lemma WhitespaceBeforeAt(s: string, i: nat, w: string, k: string)
    requires At(s, i, w + k) && Spaces(w) && i > 0 && !IsSpace(s[i - 1])
    ensures i + |w| <= |s| && WhitespaceBefore(s, i + |w|) == i
    decreases |w|
  {
    if w == "" {
    } else {
      var w' := w[..|w| - 1];
      assert w + k == w' + ([w[|w| - 1]] + k);
      WhitespaceBeforeAt(s, i, w', [w[|w| - 1]] + k);
      assert s[i + |w| - 1] == s[i..][|w| - 1];
    }
  }

  lemma CommaAfterAt(s: string, i: nat, w: string, k: string)
    requires At(s, i, w + ("," + k)) && Spaces(w)
    ensures CommaAfter(s, i) == Some(|s| - |k| - 1) && At(s, |s| - |k|, k)
    decreases |w|
  {
    AtEnd(s, i, w + ("," + k));
    if w == "" {
      assert w + ("," + k) == "," + k;
      AtHead(s, i, ',', k);
    } else {
      assert w + ("," + k) == [w[0]] + (w[1..] + ("," + k));
      AtHead(s, i, w[0], w[1..] + ("," + k));
      CommaAfterAt(s, i + 1, w[1..], k);
    }
  }

  /** Where the scanned item begins, and the separator behind it. */
  lemma ItemEdges(i: Item, s: string, decode: Decode, at: nat, named: bool, k: string)
    requires At(s, at, ItemText(i, "," + k)) && ItemOk(i, named) && at > 0 && !IsSpace(s[at - 1])
    ensures |ItemText(i, "," + k)| <= |s|
    ensures var j := SpanOf(i, decode, |s|, "," + k);
            && j.start <= |s| && j.end <= |s|
            && WhitespaceBefore(s, j.start) == at && CommaAfter(s, j.end) == Some(|s| - |k| - 1)
    ensures |k| < |s| && At(s, |s| - |k|, k)
  {
    hide *;
    var tail := "," + k;
    ItemLengths(i, s, decode, at, named, tail);
    Separators(named);
    ItemParts(i, named, tail);
    WhitespaceBeforeAt(s, at, i.lead, FromStart(i, tail));
    TrailAt(i, s, at, tail);
    CommaAfterAt(s, |s| - |i.trail + tail|, i.trail, k);
  }

  lemma ItemLengths(i: Item, s: string, decode: Decode, at: nat, named: bool, k: string)
    requires At(s, at, ItemText(i, k))
    ensures |ItemText(i, k)| <= |s| && |i.trail + k| <= |s|
    ensures SpanOf(i, decode, |s|, k).start == at + |i.lead|
    ensures SpanOf(i, decode, |s|, k).end == |s| - |i.trail + k|
  {
    Longer(i.value, i.trail + k);
  }

  lemma TrailAt(i: Item, s: string, at: nat, k: string)
    requires At(s, at, ItemText(i, k))
    ensures |i.trail + k| <= |s| && At(s, |s| - |i.trail + k|, i.trail + k)
  {
    assert ItemText(i, k) == i.lead + FromStart(i, k);
    AtSkip(s, at, i.lead, FromStart(i, k));
    NameSuffix(i.name, s, at + |i.lead|, FromValue(i, k));
    ValueSuffix(i.value, s, |s| - |FromValue(i, k)|, i.trail + k);
  }

  lemma NameSuffix(n: Name, s: string, at: nat, k: string)
    requires At(s, at, NameText(n, k))
    ensures |k| <= |s| && At(s, |s| - |k|, k)
  {
    NameTextAppend(n, "", k);
    assert "" + k == k;
    AtSkip(s, at, NameText(n, ""), k);
    AtEnd(s, at, NameText(n, k));
  }
}
