/**
 The scanner that finds which bytes of a document belong to which member: a cursor over
 the text, with a recursive description of where each step leaves it. The methods of
 `Cursor` are the code's, and each of them is tied to its function: `ValueEnd`, `ItemAt`,
 `ItemsFrom`, `ContainerAt`. `ValueScan`, `ItemsScan` and `ContainerScan` say that on the
 text of a tree the scanner finds exactly the tree's items, whatever the names, strings and
 white space in it, and stops where what follows the value begins.
 */
module JsonScan {
  import opened Basics
  import opened JsonText

  /** An item's first byte, its value's first byte, and the byte just past it. */
  datatype Span = Span(name: Option<string>, start: nat, valueStart: nat, end: nat)

  datatype Container = Container(items: seq<Span>, innerStart: nat, innerEnd: nat)

  // ---- where each step leaves the cursor --------------------------------------------

  function SkipWs(s: string, i: nat): (j: nat)
    requires i <= |s|
    ensures i <= j <= |s|
    decreases |s| - i
  {
    if i < |s| && IsSpace(s[i]) then SkipWs(s, i + 1) else i
  }

  function BodyEnd(s: string, i: nat): (j: Option<nat>)
    requires i <= |s|
    ensures j.Some? ==> i < j.value <= |s|
    decreases |s| - i
  {
    if i == |s| then None
    else if s[i] == '\\' then if i + 1 == |s| then None else BodyEnd(s, i + 2)
    else if s[i] == '"' then Some(i + 1)
    else BodyEnd(s, i + 1)
  }

  function StringEnd(s: string, i: nat): (j: Option<nat>)
    requires i <= |s|
    ensures j.Some? ==> i + 1 < j.value <= |s|
  {
    if i < |s| && s[i] == '"' then BodyEnd(s, i + 1) else None
  }

  function ScalarEnd(s: string, i: nat): (j: nat)
    requires i <= |s|
    ensures i <= j <= |s|
    decreases |s| - i
  {
    if i < |s| && !Delimiter(s[i]) then ScalarEnd(s, i + 1) else i
  }

  function ValueEnd(s: string, decode: Decode, i: nat): (j: Option<nat>)
    requires i <= |s|
    ensures j.Some? ==> i < j.value <= |s|
    decreases |s| - i, 1
  {
    if i == |s| then None
    else if s[i] == '{' || s[i] == '[' then
      match ContainerAt(s, decode, i)
      case None => None
      case Some((_, j)) => Some(j)
    else if s[i] == '"' then StringEnd(s, i)
    else
      var j := ScalarEnd(s, i);
      if j == i then None else Some(j)
  }

  /** Where the value of an item starting at `i` begins, and the item's name. */
  function NameAt(s: string, decode: Decode, i: nat): (r: Option<(string, nat)>)
    requires i <= |s|
    ensures r.Some? ==> i < r.value.1 <= |s|
  {
    match StringEnd(s, i)
    case None => None
    case Some(e) =>
      var j := SkipWs(s, e);
      if j < |s| && s[j] == ':' then Some((decode(s[i + 1..e - 1]), SkipWs(s, j + 1))) else None
  }

  function ItemAt(s: string, decode: Decode, named: bool, i: nat): (r: Option<Span>)
    requires i <= |s|
    ensures r.Some? ==> i <= r.value.start <= r.value.valueStart < r.value.end <= |s|
    decreases |s| - i, 2
  {
    var start := SkipWs(s, i);
    if named then
      match NameAt(s, decode, start)
      case None => None
      case Some((name, v)) =>
        match ValueEnd(s, decode, v)
        case None => None
        case Some(e) => Some(Span(Some(name), start, v, e))
    else
      match ValueEnd(s, decode, start)
      case None => None
      case Some(e) => Some(Span(None, start, start, e))
  }

  /** The items from `i` on, and the position of the closing brace or bracket. */
  function ItemsFrom(s: string, decode: Decode, named: bool, i: nat): (r: Option<(seq<Span>, nat)>)
    requires i <= |s|
    ensures r.Some? ==> i <= r.value.1 < |s| && r.value.0 != []
    decreases |s| - i, 3
  {
    match ItemAt(s, decode, named, i)
    case None => None
    case Some(item) =>
      var j := SkipWs(s, item.end);
      if j < |s| && s[j] == ',' then Put([item], ItemsFrom(s, decode, named, j + 1))
      else if j < |s| && s[j] == Close(named) then Some(([item], j))
      else None
  }

  function ContainerAt(s: string, decode: Decode, start: nat): (r: Option<(Container, nat)>)
    requires start <= |s|
    ensures r.Some? ==> start < r.value.1 <= |s|
    decreases |s| - start, 0
  {
    var i := SkipWs(s, start);
    if i == |s| || (s[i] != '{' && s[i] != '[') then None
    else
      var named := s[i] == '{';
      var j := SkipWs(s, i + 1);
      if j == |s| then None
      else if s[j] == Close(named) then Some((Container([], i + 1, j), j + 1))
      else
        match ItemsFrom(s, decode, named, i + 1)
        case None => None
        case Some((items, e)) => Some((Container(items, i + 1, e), e + 1))
  }

  function Put(items: seq<Span>, r: Option<(seq<Span>, nat)>): Option<(seq<Span>, nat)> {
    if r.None? then None else Some((items + r.value.0, r.value.1))
  }

  lemma PutPut(items: seq<Span>, item: Span, r: Option<(seq<Span>, nat)>)
    ensures Put(items, Put([item], r)) == Put(items + [item], r)
  {
    if r.Some? {
      assert items + ([item] + r.value.0) == (items + [item]) + r.value.0;
    }
  }

  lemma PutNothing(r: Option<(seq<Span>, nat)>)
    ensures Put([], r) == r
  {
    if r.Some? {
      assert [] + r.value.0 == r.value.0;
    }
  }

  /** White space before an item makes no difference. */
  lemma ItemsFromSkipped(s: string, decode: Decode, named: bool, i: nat)
    requires i <= |s|
    ensures ItemsFrom(s, decode, named, SkipWs(s, i)) == ItemsFrom(s, decode, named, i)
  {
    hide ItemAt, SkipWs;
    ItemAtSkipped(s, decode, named, i);
  }

  lemma ItemAtSkipped(s: string, decode: Decode, named: bool, i: nat)
    requires i <= |s|
    ensures ItemAt(s, decode, named, SkipWs(s, i)) == ItemAt(s, decode, named, i)
  {
    hide SkipWs, NameAt, ValueEnd;
    SkippedTwice(s, i);
  }

  lemma SkippedTwice(s: string, i: nat)
    requires i <= |s|
    ensures SkipWs(s, SkipWs(s, i)) == SkipWs(s, i)
    decreases |s| - i
  {
    if i < |s| && IsSpace(s[i]) { SkippedTwice(s, i + 1); }
  }

  // ---- the cursor ------------------------------------------------------------------------

  /** Every step answers whether the text could be followed. */
  class Cursor {
    const source: string
    const decode: Decode
    var at: nat

    constructor (source: string, decode: Decode)
      ensures this.source == source && this.decode == decode && at == 0
    {
      this.source, this.decode, at := source, decode, 0;
    }

    method SkipWhitespace()
      requires at <= |source|
      modifies this
      ensures at == SkipWs(source, old(at))
    {
      while at < |source| && IsSpace(source[at])
        invariant at <= |source| && SkipWs(source, at) == SkipWs(source, old(at))
      {
        at := at + 1;
      }
    }

    method Take(c: char) returns (ok: bool)
      requires at <= |source|
      modifies this
      ensures ok <==> old(at) < |source| && source[old(at)] == c
      ensures at == if ok then old(at) + 1 else old(at)
    {
      ok := at < |source| && source[at] == c;
      if ok { at := at + 1; }
    }

    method SkipString() returns (ok: bool)
      requires at <= |source|
      modifies this
      ensures ok <==> StringEnd(source, old(at)).Some?
      ensures ok ==> StringEnd(source, old(at)) == Some(at)
    {
      ok := Take('"');
      if !ok { return; }
      ghost var start := at;
      while true
        invariant start <= at <= |source| && BodyEnd(source, at) == BodyEnd(source, start)
        decreases |source| - at
      {
        if at == |source| { return false; }
        var c := source[at];
        at := at + 1;
        if c == '\\' {
          if at == |source| { return false; }
          at := at + 1;
        } else if c == '"' {
          return true;
        }
      }
    }

    method SkipValue() returns (ok: bool)
      requires at <= |source|
      modifies this
      ensures ok <==> ValueEnd(source, decode, old(at)).Some?
      ensures ok ==> ValueEnd(source, decode, old(at)) == Some(at)
      decreases |source| - at, 1
    {
      if at == |source| { return false; }
      if source[at] == '{' || source[at] == '[' {
        var c := ReadContainer(at);
        return c.Some?;
      } else if source[at] == '"' {
        ok := SkipString();
      } else {
        var start := at;
        while at < |source| && !Delimiter(source[at])
          invariant start <= at <= |source| && ScalarEnd(source, at) == ScalarEnd(source, start)
        {
          at := at + 1;
        }
        return at != start;
      }
    }

    /** One item from the cursor on. */
    method ReadItem(named: bool) returns (item: Option<Span>)
      requires at <= |source|
      modifies this
      ensures item == ItemAt(source, decode, named, old(at))
      ensures item.Some? ==> at == item.value.end
      decreases |source| - at, 2
    {
      SkipWhitespace();
      var start := at;
      var name := None;
      if named {
        var ok := SkipString();
        if !ok { return None; }
        name := Some(decode(source[start + 1..at - 1]));
        SkipWhitespace();
        ok := Take(':');
        if !ok { return None; }
        SkipWhitespace();
      }
      var valueStart := at;
      var ok := SkipValue();
      return if ok then Some(Span(name, start, valueStart, at)) else None;
    }

    /** The items up to the closing brace or bracket, and its position. */
    method ReadItems(named: bool) returns (r: Option<(seq<Span>, nat)>)
      requires at <= |source|
      modifies this
      ensures r == ItemsFrom(source, decode, named, old(at))
      ensures r.Some? ==> at == r.value.1 + 1
      decreases |source| - at, 3
    {
      hide SkipWs;
      hide ItemAt;
      var start := at;
      var items: seq<Span> := [];
      ghost var all := ItemsFrom(source, decode, named, start);
      PutNothing(all);
      while true
        invariant start <= at <= |source|
        invariant all == Put(items, ItemsFrom(source, decode, named, at))
        decreases |source| - at
      {
        var item := ReadItem(named);
        if item.None? { return None; }
        ghost var before := items;
        items := items + [item.value];
        SkipWhitespace();
        if at == |source| { return None; }
        if source[at] == ',' {
          at := at + 1;
          PutPut(before, item.value, ItemsFrom(source, decode, named, at));
        } else {
          var innerEnd := at;
          var ok := Take(Close(named));
          return if ok then Some((items, innerEnd)) else None;
        }
      }
    }

    /** Lists the items of the container at `start` and leaves the cursor just past it. */
    method ReadContainer(start: nat) returns (c: Option<Container>)
      requires start <= |source|
      modifies this
      ensures var r := ContainerAt(source, decode, start);
              if r.None? then c.None? else c == Some(r.value.0) && at == r.value.1
      decreases |source| - start, 0
    {
      at := start;
      SkipWhitespace();
      if at == |source| || (source[at] != '{' && source[at] != '[') { return None; }
      var named := source[at] == '{';
      at := at + 1;
      var innerStart := at;
      SkipWhitespace();
      if at == |source| { return None; }
      if source[at] == Close(named) {
        at := at + 1;
        return Some(Container([], innerStart, at - 1));
      }
      ItemsFromSkipped(source, decode, named, innerStart);
      var r := ReadItems(named);
      return if r.None? then None else Some(Container(r.value.0, innerStart, r.value.1));
    }
  }

  // ---- on the text of a tree ----------------------------------------------------------------

  /** `t` is what remains of `s` from `i` on. */
  predicate At(s: string, i: nat, t: string) { i <= |s| && s[i..] == t }

  lemma AtEnd(s: string, i: nat, t: string)
    requires At(s, i, t)
    ensures i + |t| == |s|
  {
  }

  lemma AtSkip(s: string, i: nat, a: string, b: string)
    requires At(s, i, a + b)
    ensures At(s, i + |a|, b)
    ensures s[i..i + |a|] == a
  {
    assert (a + b)[|a|..] == b;
    assert s[i..][|a|..] == s[i + |a|..];
    assert s[i..][..|a|] == s[i..i + |a|];
  }

  lemma SkipWsAt(s: string, i: nat, w: string, k: string)
    requires At(s, i, w + k) && Spaces(w) && (k == "" || !IsSpace(k[0]))
    ensures SkipWs(s, i) == i + |w| && At(s, i + |w|, k)
    decreases |w|
  {
    if w == "" {
      assert w + k == k;
      assert k != "" ==> s[i] == k[0];
    } else {
      assert s[i] == w[0];
      assert s[i + 1..] == w[1..] + k;
      SkipWsAt(s, i + 1, w[1..], k);
    }
  }

  /** A run of characters that are neither a quote nor an escape. */
  lemma BodyEndPlain(s: string, i: nat, p: string, k: string)
    requires At(s, i, p + k) && forall j :: 0 <= j < |p| ==> p[j] != '"' && p[j] != '\\'
    ensures i + |p| <= |s| && BodyEnd(s, i) == BodyEnd(s, i + |p|)
    decreases |p|
  {
    if p != "" {
      assert s[i] == p[0];
      assert s[i + 1..] == p[1..] + k;
      BodyEndPlain(s, i + 1, p[1..], k);
    }
  }

  lemma {:induction false} BodyEndAt(s: string, i: nat, body: string, k: string)
    requires At(s, i, body + ("\"" + k)) && StrOk(body)
    ensures BodyEnd(s, i) == Some(i + |body| + 1)
    decreases |body|
  {
    if body == "" {
      assert body + ("\"" + k) == "\"" + k;
      assert s[i] == '"';
    } else {
      var n := UnitLength(body);
      var unit, rest := body[..n], body[n..];
      assert body + ("\"" + k) == unit + (rest + ("\"" + k));
      AtSkip(s, i, unit, rest + ("\"" + k));
      BodyEndAt(s, i + n, rest, k);
      assert s[i] == body[0];
      if body[0] == '\\' {
        var tail := unit[2..];
        assert unit + (rest + ("\"" + k)) == unit[..2] + (tail + (rest + ("\"" + k)));
        AtSkip(s, i, unit[..2], tail + (rest + ("\"" + k)));
        BodyEndPlain(s, i + 2, tail, rest + ("\"" + k));
      }
    }
  }

  lemma StringEndAt(s: string, i: nat, body: string, k: string)
    requires At(s, i, "\"" + (body + ("\"" + k))) && StrOk(body)
    ensures StringEnd(s, i) == Some(i + |body| + 2) && At(s, i + |body| + 2, k)
    ensures s[i + 1..i + |body| + 1] == body
  {
    hide At;
    hide BodyEnd;
    hide StrOk;
    AtHead(s, i, '"', body + ("\"" + k));
    BodyEndAt(s, i + 1, body, k);
    AtSkip(s, i + 1, body, "\"" + k);
    AtHead(s, i + 1 + |body|, '"', k);
  }

  lemma AtHead(s: string, i: nat, c: char, k: string)
    requires At(s, i, [c] + k)
    ensures i < |s| && s[i] == c && At(s, i + 1, k)
  {
    assert s[i] == s[i..][0];
    assert s[i + 1..] == s[i..][1..];
  }

  lemma ScalarEndAt(s: string, i: nat, t: string, k: string)
    requires At(s, i, t + k) && (forall j :: 0 <= j < |t| ==> !Delimiter(t[j])) && Delimited(k)
    ensures ScalarEnd(s, i) == i + |t| && At(s, i + |t|, k)
    decreases |t|
  {
    if t == "" {
      assert t + k == k;
      assert k != "" ==> s[i] == k[0];
    } else {
      assert s[i] == t[0];
      assert s[i + 1..] == t[1..] + k;
      ScalarEndAt(s, i + 1, t[1..], k);
    }
  }

  lemma NameAtText(s: string, decode: Decode, i: nat, n: Name, k: string)
    requires n.Name? && NameOk(n) && k != "" && !IsSpace(k[0]) && At(s, i, NameText(n, k))
    ensures |k| <= |s| && NameAt(s, decode, i) == Some((decode(n.body), |s| - |k|)) && At(s, |s| - |k|, k)
  {
    hide *;
    var s3 := n.after + k;
    var s2 := ":" + s3;
    NameParts(n, k);
    AtEnd(s, i, NameText(n, k));
    StringEndAt(s, i, n.body, n.before + s2);
    var e := i + |n.body| + 2;
    SkipWsAt(s, e, n.before, s2);
    var j := e + |n.before|;
    AtHead(s, j, ':', s3);
    SkipWsAt(s, j + 1, n.after, k);
    AtEnd(s, j + 1 + |n.after|, k);
    NameIs(s, decode, i, e, j);
    assert s[i + 1..e - 1] == n.body;
  }

  lemma NameParts(n: Name, k: string)
    requires n.Name? && NameOk(n)
    ensures StrOk(n.body) && Spaces(n.before) && Spaces(n.after) && !IsSpace(':')
    ensures NameText(n, k) == "\"" + (n.body + ("\"" + (n.before + (":" + (n.after + k)))))
  {
  }

  lemma NameIs(s: string, decode: Decode, i: nat, e: nat, j: nat)
    requires i + 1 < e <= j < |s| && StringEnd(s, i) == Some(e) && SkipWs(s, e) == j && s[j] == ':'
    ensures NameAt(s, decode, i) == Some((decode(s[i + 1..e - 1]), SkipWs(s, j + 1)))
  {
    hide StringEnd;
    hide SkipWs;
  }

  lemma Longer(v: Value, k: string)
    ensures |ValueText(v, k)| >= |k|
    decreases v
  {
    match v
    case Filled(_, items) => ItemsLonger(items, [Close(v.obj)] + k);
    case _ =>
  }

  lemma ItemsLonger(items: Items, k: string)
    ensures |ItemsText(items, k)| >= |k|
    decreases items
  {
    match items
    case Last(i) => Longer(i.value, i.trail + k);
    case More(i, rest) =>
      ItemsLonger(rest, k);
      Longer(i.value, i.trail + ("," + ItemsText(rest, k)));
  }

  /** What remains of the text at an item's first byte, at its value, and past its value. */
  function FromValue(i: Item, k: string): string { ValueText(i.value, i.trail + k) }

  function FromStart(i: Item, k: string): string { NameText(i.name, FromValue(i, k)) }

  /** The span of an item whose text, with `k` behind it, ends a document of length `n`. */
  function SpanOf(i: Item, decode: Decode, n: nat, k: string): Span
    requires |ItemText(i, k)| <= n
  {
    Longer(i.value, i.trail + k);
    Span(if i.name.Name? then Some(decode(i.name.body)) else None,
         n - |FromStart(i, k)|, n - |FromValue(i, k)|, n - |i.trail + k|)
  }

  function SpansOf(items: Items, decode: Decode, n: nat, k: string): (r: seq<Span>)
    requires |ItemsText(items, k)| <= n
    ensures |r| == Count(items)
  {
    match items
    case Last(i) => [SpanOf(i, decode, n, k)]
    case More(i, rest) =>
      Longer(i.value, i.trail + ("," + ItemsText(rest, k)));
      [SpanOf(i, decode, n, "," + ItemsText(rest, k))] + SpansOf(rest, decode, n, k)
  }

  function Count(items: Items): nat {
    match items
    case Last(_) => 1
    case More(_, rest) => 1 + Count(rest)
  }

  /** The scan of a value's text ends where what follows it begins. */
  lemma {:induction false} ValueScan(v: Value, s: string, decode: Decode, i: nat, k: string)
    requires At(s, i, ValueText(v, k)) && ValueOk(v) && Delimited(k)
    ensures |k| <= |s| && ValueEnd(s, decode, i) == Some(|s| - |k|)
    decreases v, 2
  {
    hide *;
    match v
    case Scalar(text) => ScalarScan(text, s, decode, i, k);
    case Str(body) => StrScan(body, s, decode, i, k);
    case _ =>
      ContainerScan(v, s, decode, i, k);
      ContainerHead(v, s, i, k);
      ContainerEnd(s, decode, i);
  }

  lemma LeafText(t: string, k: string)
    ensures ValueText(Scalar(t), k) == t + k && (ValueOk(Scalar(t)) <==> ScalarOk(t))
    ensures ValueText(Str(t), k) == "\"" + (t + ("\"" + k)) && (ValueOk(Str(t)) <==> StrOk(t))
  {
  }

  lemma ScalarScan(text: string, s: string, decode: Decode, i: nat, k: string)
    requires At(s, i, ValueText(Scalar(text), k)) && ValueOk(Scalar(text)) && Delimited(k)
    ensures |k| <= |s| && ValueEnd(s, decode, i) == Some(|s| - |k|)
  {
    hide *;
    LeafText(text, k);
    ScalarPlain(text);
    ScalarEndAt(s, i, text, k);
    AtEnd(s, i + |text|, k);
    AtFirst(s, i, text + k);
    ScalarIs(s, decode, i, i + |text|);
  }

  lemma AtFirst(s: string, i: nat, t: string)
    requires At(s, i, t) && t != ""
    ensures i < |s| && s[i] == t[0]
  {
    assert s[i..][0] == s[i];
  }

  lemma ScalarIs(s: string, decode: Decode, i: nat, j: nat)
    requires i < |s| && s[i] != '{' && s[i] != '[' && s[i] != '"' && ScalarEnd(s, i) == j > i
    ensures ValueEnd(s, decode, i) == Some(j)
  {
    hide ScalarEnd;
  }

  lemma StrScan(body: string, s: string, decode: Decode, i: nat, k: string)
    requires At(s, i, ValueText(Str(body), k)) && ValueOk(Str(body))
    ensures |k| <= |s| && ValueEnd(s, decode, i) == Some(|s| - |k|)
  {
    hide *;
    LeafText(body, k);
    AtHead(s, i, '"', body + ("\"" + k));
    StringEndAt(s, i, body, k);
    AtEnd(s, i + |body| + 2, k);
    StrIs(s, decode, i);
  }

  lemma StrIs(s: string, decode: Decode, i: nat)
    requires i < |s| && s[i] == '"'
    ensures ValueEnd(s, decode, i) == StringEnd(s, i)
  {
    hide StringEnd;
  }

  lemma ContainerHead(v: Value, s: string, i: nat, k: string)
    requires At(s, i, ValueText(v, k)) && (v.Empty? || v.Filled?)
    ensures i < |s| && (s[i] == '{' || s[i] == '[')
  {
    assert s[i] == s[i..][0];
  }

  lemma ContainerEnd(s: string, decode: Decode, i: nat)
    requires i < |s| && (s[i] == '{' || s[i] == '[') && ContainerAt(s, decode, i).Some?
    ensures ValueEnd(s, decode, i) == Some(ContainerAt(s, decode, i).value.1)
  {
    hide ContainerAt;
  }

  /** What the scan lists for a container's text. */
  function ContainerOf(v: Value, decode: Decode, n: nat, k: string): Container
    requires (v.Empty? || v.Filled?) && |ValueText(v, k)| <= n
  {
    var inner := n - |ValueText(v, k)| + 1;
    var closing := [Close(v.obj)] + k;
    if v.Empty? then Container([], inner, n - |closing|)
    else
      ItemsLonger(v.items, closing);
      Container(SpansOf(v.items, decode, n, closing), inner, n - |closing|)
  }

  lemma {:induction false} ContainerScan(v: Value, s: string, decode: Decode, i: nat, k: string)
    requires At(s, i, ValueText(v, k)) && ValueOk(v) && (v.Empty? || v.Filled?)
    ensures |k| <= |s| && |ValueText(v, k)| <= |s|
    ensures ContainerAt(s, decode, i) == Some((ContainerOf(v, decode, |s|, k), |s| - |k|))
    decreases v, 1
  {
    hide *;
    AtEnd(s, i, ValueText(v, k));
    ValueParts(v, k);
    if v.Empty? {
      EmptyScan(v.obj, v.inner, s, decode, i, k);
    } else {
      var closing := [Close(v.obj)] + k;
      var inner := ItemsText(v.items, closing);
      AtHead(s, i, Open(v.obj), inner);
      ItemsScan(v.items, s, decode, v.obj, i + 1, k);
      ItemsLonger(v.items, closing);
      ItemsTextHead(v.items, v.obj, closing);
      FilledScan(v.obj, s, decode, i, inner);
      WrappedSpans(v, s, decode, k);
    }
  }

  lemma ValueParts(v: Value, k: string)
    requires ValueOk(v)
    ensures v.Empty? ==> Spaces(v.inner)
    ensures v.Filled? ==> ItemsOk(v.items, v.obj) && ValueText(v, k) == [Open(v.obj)] + ItemsText(v.items, [Close(v.obj)] + k)
  {
  }

  lemma WrappedSpans(v: Value, s: string, decode: Decode, k: string)
    requires v.Filled? && |ValueText(v, k)| <= |s| && |k| < |s| && |ItemsText(v.items, [Close(v.obj)] + k)| <= |s|
    ensures Wrapped(|s| - |ValueText(v, k)| + 1, Some((SpansOf(v.items, decode, |s|, [Close(v.obj)] + k), |s| - |k| - 1)))
         == Some((ContainerOf(v, decode, |s|, k), |s| - |k|))
  {
  }

  lemma EmptyScan(obj: bool, inner: string, s: string, decode: Decode, i: nat, k: string)
    requires At(s, i, ValueText(Empty(obj, inner), k)) && Spaces(inner)
    ensures |k| <= |s| && |ValueText(Empty(obj, inner), k)| <= |s|
    ensures ContainerAt(s, decode, i) == Some((ContainerOf(Empty(obj, inner), decode, |s|, k), |s| - |k|))
  {
    var closing := [Close(obj)] + k;
    AtEnd(s, i, ValueText(Empty(obj, inner), k));
    AtHead(s, i, Open(obj), inner + closing);
    SkipWsAt(s, i + 1, inner, closing);
    AtHead(s, i + 1 + |inner|, Close(obj), k);
    assert SkipWs(s, i) == i;
    hide SkipWs;
    hide At;
    hide Spaces;
  }

  /** A container that is not empty is scanned item by item. */
  lemma FilledScan(obj: bool, s: string, decode: Decode, i: nat, t: string)
    requires At(s, i, [Open(obj)] + t) && SpaceRun(t) < |t| && !Delimiter(t[SpaceRun(t)])
    ensures i + 1 <= |s|
    ensures ContainerAt(s, decode, i) == Wrapped(i + 1, ItemsFrom(s, decode, obj, i + 1))
  {
    var n := SpaceRun(t);
    AtHead(s, i, Open(obj), t);
    assert t == t[..n] + t[n..];
    SkipWsAt(s, i + 1, t[..n], t[n..]);
    assert t[n..] == [t[n]] + t[n + 1..];
    AtHead(s, i + 1 + n, t[n], t[n + 1..]);
    FilledStep(obj, s, decode, i, i + 1 + n);
  }

  function Wrapped(inner: nat, r: Option<(seq<Span>, nat)>): Option<(Container, nat)> {
    if r.None? then None else Some((Container(r.value.0, inner, r.value.1), r.value.1 + 1))
  }

  lemma FilledStep(obj: bool, s: string, decode: Decode, i: nat, j: nat)
    requires i < |s| && s[i] == Open(obj) && SkipWs(s, i + 1) == j < |s| && s[j] != Close(obj)
    ensures ContainerAt(s, decode, i) == Wrapped(i + 1, ItemsFrom(s, decode, obj, i + 1))
  {
    assert SkipWs(s, i) == i;
    hide SkipWs;
    hide ItemsFrom;
  }

  /** On the text of an item list the scan finds exactly the list's spans. */
  lemma {:induction false} ItemsScan(items: Items, s: string, decode: Decode, named: bool, i: nat, k: string)
    requires At(s, i, ItemsText(items, [Close(named)] + k)) && ItemsOk(items, named)
    ensures |k| < |s| && |ItemsText(items, [Close(named)] + k)| <= |s|
    ensures ItemsFrom(s, decode, named, i)
         == Some((SpansOf(items, decode, |s|, [Close(named)] + k), |s| - |k| - 1))
    decreases items, 1
  {
    hide *;
    var closing := [Close(named)] + k;
    AtEnd(s, i, ItemsText(items, closing));
    ItemsParts(items, named, closing);
    Separators(named);
    if items.Last? {
      ItemScan(items.item, s, decode, named, i, closing);
      LastScan(items.item, s, decode, named, i, k);
    } else {
      var tail := ItemsText(items.rest, closing);
      ItemScan(items.item, s, decode, named, i, "," + tail);
      AtHead(s, |s| - |"," + tail|, ',', tail);
      ItemsScan(items.rest, s, decode, named, |s| - |tail|, k);
      MoreScan(items.item, items.rest, s, decode, named, i, closing);
    }
  }

  lemma Separators(named: bool)
    ensures Delimiter(',') && !IsSpace(',') && Delimiter(Close(named)) && !IsSpace(Close(named))
  {
  }

  lemma ItemsParts(items: Items, named: bool, k: string)
    requires ItemsOk(items, named)
    ensures ItemOk(items.item, named) && (items.More? ==> ItemsOk(items.rest, named))
    ensures ItemsText(items, k) == ItemText(items.item, if items.Last? then k else "," + ItemsText(items.rest, k))
  {
  }

  lemma SpansLast(item: Item, decode: Decode, n: nat, k: string)
    requires |ItemText(item, k)| <= n
    ensures |ItemsText(Last(item), k)| <= n && SpansOf(Last(item), decode, n, k) == [SpanOf(item, decode, n, k)]
  {
  }

  lemma CloseIs(named: bool)
    ensures Close(named) != ','
  {
  }

  lemma ItemsStep(s: string, decode: Decode, named: bool, i: nat, item: Span)
    requires i <= |s| && item.end <= |s| && ItemAt(s, decode, named, i) == Some(item)
    ensures var j := SkipWs(s, item.end);
            j < |s| && s[j] == Close(named) && s[j] != ',' ==> ItemsFrom(s, decode, named, i) == Some(([item], j))
  {
    hide ItemAt, SkipWs;
  }

  lemma LastScan(item: Item, s: string, decode: Decode, named: bool, i: nat, k: string)
    requires i <= |s| && |ItemText(item, [Close(named)] + k)| <= |s| && |item.trail + ([Close(named)] + k)| <= |s|
    requires ItemAt(s, decode, named, i) == Some(SpanOf(item, decode, |s|, [Close(named)] + k))
    requires var closing := [Close(named)] + k;
             |closing| <= |s| && SkipWs(s, |s| - |item.trail + closing|) == |s| - |closing| && At(s, |s| - |closing|, closing)
    ensures ItemsFrom(s, decode, named, i)
         == Some((SpansOf(Last(item), decode, |s|, [Close(named)] + k), |s| - |k| - 1))
  {
    AtHead(s, |s| - |k| - 1, Close(named), k);
    SpansLast(item, decode, |s|, [Close(named)] + k);
    ItemsStep(s, decode, named, i, SpanOf(item, decode, |s|, [Close(named)] + k));
    hide *;
    CloseIs(named);
  }

  lemma MoreScan(item: Item, rest: Items, s: string, decode: Decode, named: bool, i: nat, k: string)
    requires i <= |s| && var tail := "," + ItemsText(rest, k);
             && |ItemText(item, tail)| <= |s| && |item.trail + tail| <= |s|
             && ItemAt(s, decode, named, i) == Some(SpanOf(item, decode, |s|, tail))
             && SkipWs(s, |s| - |item.trail + tail|) == |s| - |tail| && s[|s| - |tail|] == ','
    requires ItemsFrom(s, decode, named, |s| - |ItemsText(rest, k)|).Some?
    requires ItemsFrom(s, decode, named, |s| - |ItemsText(rest, k)|).value.0 == SpansOf(rest, decode, |s|, k)
    ensures ItemsFrom(s, decode, named, i)
         == Some((SpansOf(More(item, rest), decode, |s|, k), ItemsFrom(s, decode, named, |s| - |ItemsText(rest, k)|).value.1))
  {
    hide SkipWs;
    hide ItemAt;
    hide ItemText;
    hide ItemsText;
  }

  lemma {:induction false} ItemScan(item: Item, s: string, decode: Decode, named: bool, i: nat, k: string)
    requires At(s, i, ItemText(item, k)) && ItemOk(item, named) && k != "" && Delimiter(k[0]) && !IsSpace(k[0])
    ensures |k| <= |s| && |ItemText(item, k)| <= |s| && |item.trail + k| <= |s|
    ensures ItemAt(s, decode, named, i) == Some(SpanOf(item, decode, |s|, k))
    ensures SkipWs(s, |s| - |item.trail + k|) == |s| - |k| && At(s, |s| - |k|, k)
    decreases item, 0
  {
    hide *;
    var value, start := FromValue(item, k), FromStart(item, k);
    ItemParts(item, named, k);
    AtEnd(s, i, ItemText(item, k));
    SkipWsAt(s, i, item.lead, start);
    AtEnd(s, i + |item.lead|, start);
    if named { NameAtText(s, decode, i + |item.lead|, item.name, value); }
    TailScan(item, s, decode, named, k);
    ItemIs(item, s, decode, named, i, k);
  }

  /** From an item's value to the separator after it. */
  lemma {:induction false} TailScan(item: Item, s: string, decode: Decode, named: bool, k: string)
    requires |FromValue(item, k)| <= |s| && At(s, |s| - |FromValue(item, k)|, FromValue(item, k))
    requires ItemOk(item, named) && k != "" && Delimiter(k[0]) && !IsSpace(k[0])
    ensures |item.trail + k| <= |s|
    ensures ValueEnd(s, decode, |s| - |FromValue(item, k)|) == Some(|s| - |item.trail + k|)
    ensures SkipWs(s, |s| - |item.trail + k|) == |s| - |k| && At(s, |s| - |k|, k)
    decreases item.value, 3
  {
    hide *;
    var rest := item.trail + k;
    var v := |s| - |FromValue(item, k)|;
    ItemParts(item, named, k);
    ValueScan(item.value, s, decode, v, rest);
    ValueSuffix(item.value, s, v, rest);
    SkipWsAt(s, |s| - |rest|, item.trail, k);
    assert |s| - |rest| + |item.trail| == |s| - |k|;
  }

  lemma ItemParts(item: Item, named: bool, k: string)
    requires ItemOk(item, named) && k != "" && Delimiter(k[0]) && !IsSpace(k[0])
    ensures Spaces(item.lead) && Spaces(item.trail) && (item.name.Name? <==> named) && NameOk(item.name) && ValueOk(item.value)
    ensures Delimited(item.trail + k)
    ensures ItemText(item, k) == item.lead + FromStart(item, k)
    ensures FromValue(item, k) == ValueText(item.value, item.trail + k)
    ensures FromStart(item, k) == NameText(item.name, FromValue(item, k))
    ensures !named ==> FromStart(item, k) == FromValue(item, k)
    ensures FromValue(item, k) != "" && !IsSpace(FromValue(item, k)[0])
    ensures FromStart(item, k) != "" && !IsSpace(FromStart(item, k)[0])
  {
    ValueTextHead(item.value, item.trail + k);
    if item.trail != "" { assert (item.trail + k)[0] == item.trail[0]; } else { assert item.trail + k == k; }
  }

  /** The pieces of one item put together. */
  lemma ItemIs(item: Item, s: string, decode: Decode, named: bool, i: nat, k: string)
    requires i <= |s| && |ItemText(item, k)| <= |s| && (item.name.Name? <==> named)
    requires |FromStart(item, k)| <= |s| && |FromValue(item, k)| <= |s| && |item.trail + k| <= |s|
    requires SkipWs(s, i) == |s| - |FromStart(item, k)|
    requires named ==> NameAt(s, decode, |s| - |FromStart(item, k)|) == Some((decode(item.name.body), |s| - |FromValue(item, k)|))
    requires ValueEnd(s, decode, |s| - |FromValue(item, k)|) == Some(|s| - |item.trail + k|)
    ensures ItemAt(s, decode, named, i) == Some(SpanOf(item, decode, |s|, k))
  {
  }

  /** What follows a value is the end of its text. */
  lemma ValueSuffix(v: Value, s: string, i: nat, k: string)
    requires At(s, i, ValueText(v, k))
    ensures |k| <= |s| && At(s, |s| - |k|, k)
  {
    Longer(v, k);
    Suffix(v, k);
    assert s[|s| - |k|..] == s[i..][|ValueText(v, k)| - |k|..];
  }

  lemma Suffix(v: Value, k: string)
    ensures |ValueText(v, k)| >= |k| && ValueText(v, k)[|ValueText(v, k)| - |k|..] == k
    decreases v
  {
    Longer(v, k);
    match v
    case Filled(_, items) => ItemsSuffix(items, [Close(v.obj)] + k);
    case _ =>
  }

  lemma ItemsSuffix(items: Items, k: string)
    ensures |ItemsText(items, k)| >= |k| && ItemsText(items, k)[|ItemsText(items, k)| - |k|..] == k
    decreases items
  {
    match items
    case Last(i) => ItemSuffix(i, k);
    case More(i, rest) =>
      var tail := ItemsText(rest, k);
      ItemsSuffix(rest, k);
      ItemSuffix(i, "," + tail);
      assert ItemsText(items, k) == ItemText(i, "," + tail);
      hide *;
      SuffixOfSuffix(ItemText(i, "," + tail), ",", tail, k);
  }

  lemma ItemSuffix(i: Item, k: string)
    ensures |ItemText(i, k)| >= |k| && ItemText(i, k)[|ItemText(i, k)| - |k|..] == k
    decreases i
  {
    Suffix(i.value, i.trail + k);
    SuffixOfSuffix(ValueText(i.value, i.trail + k), i.trail, k, k);
    BeforeItemText(i, k);
  }

  lemma BeforeItemText(i: Item, k: string)
    ensures var t := ValueText(i.value, i.trail + k);
            |ItemText(i, k)| >= |t| && ItemText(i, k)[|ItemText(i, k)| - |t|..] == t
  {
    hide ValueText;
  }

  lemma SuffixOfSuffix(s: string, a: string, t: string, k: string)
    requires |s| >= |a + t| && s[|s| - |a + t|..] == a + t
    requires |t| >= |k| && t[|t| - |k|..] == k
    ensures s[|s| - |k|..] == k
  {
    assert s[|s| - |t|..] == (a + t)[|a|..];
    assert s[|s| - |k|..] == t[|t| - |k|..];
  }
}
