/**
 JSON documents with every byte accounted for: a tree whose nodes carry their own white
 space and spelling, its text, and what it denotes. A document's text is printed in front
 of a continuation string. `Parse` reads a text back; it accepts exactly the texts of
 well-formed trees (sections 2 to 7 of RFC 8259) and gives the tree back.
 */
module JsonText {
  import opened Basics

  /** What `json.loads` makes of the inside of a string literal. */
  type Decode = string -> string

  datatype Name = Unnamed | Name(body: string, before: string, after: string)   // before and after the colon

  datatype Item = Item(lead: string, name: Name, value: Value, trail: string)

  datatype Items = Last(item: Item) | More(item: Item, rest: Items)

  datatype Value =
    | Scalar(text: string)                     // a number, true, false or null
    | Str(body: string)
    | Empty(obj: bool, inner: string)
    | Filled(obj: bool, items: Items)

  datatype Doc = Doc(lead: string, value: Value, trail: string)

  // ---- text ---------------------------------------------------------------------

  function NameText(n: Name, k: string): string {
    match n
    case Unnamed => k
    case Name(body, before, after) => "\"" + (body + ("\"" + (before + (":" + (after + k)))))
  }

  function Open(obj: bool): char { if obj then '{' else '[' }

  function Close(obj: bool): char { if obj then '}' else ']' }

  function ItemText(i: Item, k: string): string {
    i.lead + NameText(i.name, ValueText(i.value, i.trail + k))
  }

  function ItemsText(items: Items, k: string): string {
    match items
    case Last(i) => ItemText(i, k)
    case More(i, rest) => ItemText(i, "," + ItemsText(rest, k))
  }

  function ValueText(v: Value, k: string): string {
    match v
    case Scalar(text) => text + k
    case Str(body) => "\"" + (body + ("\"" + k))
    case Empty(obj, inner) => [Open(obj)] + (inner + ([Close(obj)] + k))
    case Filled(obj, items) => [Open(obj)] + ItemsText(items, [Close(obj)] + k)
  }

  function DocText(d: Doc): string { d.lead + ValueText(d.value, d.trail) }

  // ---- well-formed trees ------------------------------------------------------------

  predicate IsSpace(c: char) { c == ' ' || c == '\t' || c == '\n' || c == '\r' }

  predicate Spaces(s: string) { forall i :: 0 <= i < |s| ==> IsSpace(s[i]) }

  predicate Delimiter(c: char) { IsSpace(c) || c == ',' || c == ']' || c == '}' }

  /** What may follow a number, true, false or null. */
  predicate Delimited(k: string) { k == "" || Delimiter(k[0]) }

  predicate HexDigit(c: char) { '0' <= c <= '9' || 'a' <= c <= 'f' || 'A' <= c <= 'F' }

  predicate ShortEscape(c: char) {
    c == '"' || c == '\\' || c == '/' || c == 'b' || c == 'f' || c == 'n' || c == 'r' || c == 't'
  }

  /** How many characters of `s`, the inside of a string literal onwards, the next unit takes. */
  function UnitLength(s: string): (n: nat)
    ensures n <= |s|
  {
    if s == "" || s[0] == '"' || s[0] as int < 32 then 0
    else if s[0] != '\\' then 1
    else if |s| >= 2 && ShortEscape(s[1]) then 2
    else if |s| >= 6 && s[1] == 'u' && HexDigit(s[2]) && HexDigit(s[3]) && HexDigit(s[4]) && HexDigit(s[5]) then 6
    else 0
  }

  predicate StrOk(body: string)
    decreases |body|
  {
    body == "" || (UnitLength(body) > 0 && StrOk(body[UnitLength(body)..]))
  }

  predicate Digit(c: char) { '0' <= c <= '9' }

  function DigitRun(s: string): (k: nat)
    ensures k <= |s|
    ensures forall i :: 0 <= i < k ==> Digit(s[i])
  {
    if s == "" || !Digit(s[0]) then 0 else 1 + DigitRun(s[1..])
  }

  predicate Digits(s: string) { s != "" && DigitRun(s) == |s| }

  predicate ExponentOk(s: string) {
    s == "" || ((s[0] == 'e' || s[0] == 'E')
                && (Digits(s[1..]) || (|s| > 1 && (s[1] == '+' || s[1] == '-') && Digits(s[2..]))))
  }

  predicate FractionOk(s: string) {
    if s != "" && s[0] == '.' then
      var k := DigitRun(s[1..]);
      k > 0 && ExponentOk(s[1 + k..])
    else ExponentOk(s)
  }

  predicate NumberOk(s: string) {
    var t := if s != "" && s[0] == '-' then s[1..] else s;
    var k := DigitRun(t);
    k > 0 && (t[0] == '0' ==> k == 1) && FractionOk(t[k..])
  }

  predicate ScalarOk(s: string) { s == "true" || s == "false" || s == "null" || NumberOk(s) }

  predicate NameOk(n: Name) { n.Name? ==> StrOk(n.body) && Spaces(n.before) && Spaces(n.after) }

  predicate ItemOk(i: Item, named: bool) {
    Spaces(i.lead) && Spaces(i.trail) && (i.name.Name? <==> named) && NameOk(i.name) && ValueOk(i.value)
  }

  predicate ItemsOk(items: Items, named: bool) {
    match items
    case Last(i) => ItemOk(i, named)
    case More(i, rest) => ItemOk(i, named) && ItemsOk(rest, named)
  }

  predicate ValueOk(v: Value) {
    match v
    case Scalar(text) => ScalarOk(text)
    case Str(body) => StrOk(body)
    case Empty(_, inner) => Spaces(inner)
    case Filled(obj, items) => ItemsOk(items, obj)
  }

  predicate DocOk(d: Doc) { Spaces(d.lead) && ValueOk(d.value) && Spaces(d.trail) }

  // ---- reading a text ------------------------------------------------------------------

  function SpaceRun(s: string): (k: nat)
    ensures k <= |s| && Spaces(s[..k])
    ensures k < |s| ==> !IsSpace(s[k])
  {
    if s == "" || !IsSpace(s[0]) then 0 else 1 + SpaceRun(s[1..])
  }

  function PlainRun(s: string): (k: nat)
    ensures k <= |s| && Delimited(s[k..])
    ensures forall i :: 0 <= i < k ==> !Delimiter(s[i])
  {
    if s == "" || Delimiter(s[0]) then 0 else 1 + PlainRun(s[1..])
  }

  /** The length of a literal's inside when its closing quote follows. */
  function StrRun(s: string): (k: nat)
    ensures k <= |s| && StrOk(s[..k])
    decreases |s|
  {
    var n := UnitLength(s);
    if n == 0 then 0
    else
      var k := n + StrRun(s[n..]);
      UnitPrefix(s, k);
      assert s[..k][n..] == s[n..][..k - n];
      k
  }

  lemma UnitPrefix(s: string, k: nat)
    requires UnitLength(s) <= k <= |s|
    ensures UnitLength(s) > 0 ==> UnitLength(s[..k]) == UnitLength(s)
  {
  }

  function ParseStr(s: string): (r: Option<(string, string)>)
    ensures r.Some? ==> |r.value.1| < |s| && StrOk(r.value.0) && s == "\"" + (r.value.0 + ("\"" + r.value.1))
  {
    if s == "" || s[0] != '"' then None
    else
      var t := s[1..];
      var k := StrRun(t);
      if k < |t| && t[k] == '"' then Some((t[..k], t[k + 1..])) else None
  }

  lemma SpaceSplit(s: string)
    ensures s == s[..SpaceRun(s)] + s[SpaceRun(s)..]
  {
  }

  /** The colon between a member's name and its value, with the white space around it. */
  function ParseColon(s: string, body: string): (r: Option<(Name, string)>)
    requires StrOk(body)
    ensures r.Some? ==> |r.value.1| <= |s| && NameOk(r.value.0) && r.value.0.Name?
                        && NameText(r.value.0, r.value.1) == "\"" + (body + ("\"" + s))
  {
    var before, s1 := s[..SpaceRun(s)], s[SpaceRun(s)..];
    if s1 == "" || s1[0] != ':' then None
    else
      var s2 := s1[1..];
      var after, s3 := s2[..SpaceRun(s2)], s2[SpaceRun(s2)..];
      SpaceSplit(s);
      SpaceSplit(s2);
      assert s1 == ":" + s2;
      Some((Name(body, before, after), s3))
  }

  function ParseName(s: string): (r: Option<(Name, string)>)
    ensures r.Some? ==> |r.value.1| < |s| && NameOk(r.value.0) && r.value.0.Name? && s == NameText(r.value.0, r.value.1)
  {
    match ParseStr(s)
    case None => None
    case Some((body, rest)) => ParseColon(rest, body)
  }

  function ParseItem(s: string, named: bool): (r: Option<(Item, string)>)
    ensures r.Some? ==> |r.value.1| < |s| && ItemOk(r.value.0, named) && s == ItemText(r.value.0, r.value.1)
    decreases |s|, 2
  {
    var lead, s1 := s[..SpaceRun(s)], s[SpaceRun(s)..];
    SpaceSplit(s);
    if named then
      match ParseName(s1)
      case None => None
      case Some((name, rest)) => ParseTail(rest, lead, name)
    else ParseTail(s1, lead, Unnamed)
  }

  function ParseTail(s: string, lead: string, name: Name): (r: Option<(Item, string)>)
    requires Spaces(lead) && NameOk(name)
    ensures r.Some? ==>
      && |r.value.1| < |s| && ItemOk(r.value.0, name.Name?) && r.value.0.lead == lead && r.value.0.name == name
      && s == ValueText(r.value.0.value, r.value.0.trail + r.value.1)
    decreases |s|, 1
  {
    match ParseValue(s)
    case None => None
    case Some((v, rest)) =>
      var trail, k := rest[..SpaceRun(rest)], rest[SpaceRun(rest)..];
      assert rest == trail + k;
      Some((Item(lead, name, v, trail), k))
  }

  function ParseItems(s: string, obj: bool): (r: Option<(Items, string)>)
    ensures r.Some? ==> |r.value.1| < |s| && ItemsOk(r.value.0, obj)
                        && s == ItemsText(r.value.0, [Close(obj)] + r.value.1)
    decreases |s|, 3
  {
    match ParseItem(s, obj)
    case None => None
    case Some((item, rest)) =>
      if rest == "" then None
      else if rest[0] == ',' then
        assert rest == "," + rest[1..];
        match ParseItems(rest[1..], obj)
        case None => None
        case Some((items, k)) => Some((More(item, items), k))
      else if rest[0] == Close(obj) then
        assert rest == [Close(obj)] + rest[1..];
        Some((Last(item), rest[1..]))
      else None
  }

  function ParseValue(s: string): (r: Option<(Value, string)>)
    ensures r.Some? ==> |r.value.1| < |s| && ValueOk(r.value.0) && s == ValueText(r.value.0, r.value.1)
    decreases |s|, 0
  {
    if s == "" then None
    else if s[0] == '"' then
      match ParseStr(s)
      case None => None
      case Some((body, k)) => Some((Str(body), k))
    else if s[0] == '{' || s[0] == '[' then
      var obj := s[0] == '{';
      var t := s[1..];
      var n := SpaceRun(t);
      if n < |t| && t[n] == Close(obj) then
        assert t == t[..n] + ([Close(obj)] + t[n + 1..]);
        Some((Empty(obj, t[..n]), t[n + 1..]))
      else
        match ParseItems(t, obj)
        case None => None
        case Some((items, k)) => Some((Filled(obj, items), k))
    else
      var n := PlainRun(s);
      if ScalarOk(s[..n]) then Some((Scalar(s[..n]), s[n..])) else None
  }

  /** The document a whole text is. */
  function Parse(s: string): (r: Option<Doc>)
    ensures r.Some? ==> DocOk(r.value) && DocText(r.value) == s
  {
    var n := SpaceRun(s);
    match ParseValue(s[n..])
    case None => None
    case Some((v, rest)) =>
      assert s == s[..n] + s[n..];
      if Spaces(rest) then Some(Doc(s[..n], v, rest)) else None
  }

  // ---- reading back what was printed ---------------------------------------------------

  lemma SpaceRunStops(w: string, k: string)
    requires Spaces(w) && (k == "" || !IsSpace(k[0]))
    ensures SpaceRun(w + k) == |w|
    ensures (w + k)[..|w|] == w && (w + k)[|w|..] == k
  {
    if w == "" {
      assert w + k == k;
    } else {
      assert (w + k)[1..] == w[1..] + k;
      SpaceRunStops(w[1..], k);
    }
  }

  lemma PlainRunStops(t: string, k: string)
    requires (forall i :: 0 <= i < |t| ==> !Delimiter(t[i])) && Delimited(k)
    ensures PlainRun(t + k) == |t|
    ensures (t + k)[..|t|] == t && (t + k)[|t|..] == k
  {
    if t == "" {
      assert t + k == k;
    } else {
      assert (t + k)[1..] == t[1..] + k;
      PlainRunStops(t[1..], k);
    }
  }

  lemma {:induction false} StrRunStops(body: string, k: string)
    requires StrOk(body)
    ensures StrRun(body + ("\"" + k)) == |body|
    decreases |body|
  {
    var s := body + ("\"" + k);
    if body != "" {
      var n := UnitLength(body);
      UnitExtends(body, "\"" + k);
      assert s[n..] == body[n..] + ("\"" + k);
      StrRunStops(body[n..], k);
    } else {
      assert s == "\"" + k;
    }
  }

  lemma UnitExtends(body: string, k: string)
    requires UnitLength(body) > 0
    ensures UnitLength(body + k) == UnitLength(body)
  {
  }

  lemma ParseStrText(body: string, k: string)
    requires StrOk(body)
    ensures ParseStr("\"" + (body + ("\"" + k))) == Some((body, k))
  {
    hide StrOk, StrRun;
    var t := body + ("\"" + k);
    StrRunStops(body, k);
    assert ("\"" + t)[1..] == t && ("\"" + t)[0] == '"';
    assert t[..|body|] == body && t[|body|] == '"' && t[|body| + 1..] == k;
  }

  lemma NumberPlain(s: string)
    requires NumberOk(s)
    ensures forall i :: 0 <= i < |s| ==> Digit(s[i]) || s[i] == '-' || s[i] == '+' || s[i] == '.' || s[i] == 'e' || s[i] == 'E'
  {
    var t := if s != "" && s[0] == '-' then s[1..] else s;
    var k := DigitRun(t);
    assert t == t[..k] + t[k..];
    FractionPlain(t[k..]);
    forall i | 0 <= i < |s| ensures Digit(s[i]) || s[i] == '-' || s[i] == '+' || s[i] == '.' || s[i] == 'e' || s[i] == 'E' {
      var j := if s[0] == '-' then i - 1 else i;
      if j >= 0 {
        assert s[i] == t[j];
        if j >= k { assert t[j] == t[k..][j - k]; }
      }
    }
  }

  lemma FractionPlain(s: string)
    requires FractionOk(s)
    ensures forall i :: 0 <= i < |s| ==> Digit(s[i]) || s[i] == '-' || s[i] == '+' || s[i] == '.' || s[i] == 'e' || s[i] == 'E'
  {
    if s != "" && s[0] == '.' {
      var k := DigitRun(s[1..]);
      ExponentPlain(s[1 + k..]);
      forall i | 0 <= i < |s| ensures Digit(s[i]) || s[i] == '-' || s[i] == '+' || s[i] == '.' || s[i] == 'e' || s[i] == 'E' {
        if 1 <= i <= k { assert s[i] == s[1..][i - 1]; }
        if i > k { assert s[i] == s[1 + k..][i - 1 - k]; }
      }
    } else {
      ExponentPlain(s);
    }
  }

  lemma ExponentPlain(s: string)
    requires ExponentOk(s)
    ensures forall i :: 0 <= i < |s| ==> Digit(s[i]) || s[i] == '-' || s[i] == '+' || s[i] == 'e' || s[i] == 'E'
  {
    forall i | 0 <= i < |s| ensures Digit(s[i]) || s[i] == '-' || s[i] == '+' || s[i] == 'e' || s[i] == 'E' {
      if i >= 1 && Digits(s[1..]) { assert s[i] == s[1..][i - 1]; }
      else if i >= 2 { assert s[i] == s[2..][i - 2]; }
    }
  }

  /** A number or literal runs to the next delimiter and starts like nothing else does. */
  lemma ScalarPlain(s: string)
    requires ScalarOk(s)
    ensures s != "" && s[0] != '"' && s[0] != '{' && s[0] != '['
    ensures forall i :: 0 <= i < |s| ==> !Delimiter(s[i])
  {
    if NumberOk(s) {
      NumberPlain(s);
    }
  }

  lemma ValueTextHead(v: Value, k: string)
    requires ValueOk(v)
    ensures ValueText(v, k) != "" && !Delimiter(ValueText(v, k)[0])
  {
    match v
    case Scalar(text) => ScalarPlain(text);
    case _ =>
  }

  lemma {:induction false} ParseItemText(i: Item, named: bool, k: string)
    requires ItemOk(i, named) && k != "" && Delimiter(k[0]) && !IsSpace(k[0])
    ensures ParseItem(ItemText(i, k), named) == Some((i, k))
    decreases i, 0
  {
    var tail := ValueText(i.value, i.trail + k);
    ParseTailText(i, k);
    ValueTextHead(i.value, i.trail + k);
    SpaceRunStops(i.lead, NameText(i.name, tail));
    if i.name.Name? {
      ParseNameText(i.name, tail);
    }
  }

  lemma ParseNameText(n: Name, k: string)
    requires n.Name? && NameOk(n) && k != "" && !IsSpace(k[0])
    ensures ParseName(NameText(n, k)) == Some((n, k))
  {
    var s2 := n.after + k;
    var s1 := ":" + s2;
    var s := n.before + s1;
    ParseStrText(n.body, s);
    SpaceRunStops(n.before, s1);
    assert s1[1..] == s2;
    SpaceRunStops(n.after, k);
  }

  lemma {:induction false} ParseTailText(i: Item, k: string)
    requires ItemOk(i, i.name.Name?) && k != "" && Delimiter(k[0]) && !IsSpace(k[0])
    ensures ParseTail(ValueText(i.value, i.trail + k), i.lead, i.name) == Some((i, k))
    decreases i.value, 2
  {
    var rest := i.trail + k;
    assert Delimited(rest) by {
      if i.trail != "" { assert rest[0] == i.trail[0]; } else { assert rest == k; }
    }
    ParseValueText(i.value, rest);
    SpaceRunStops(i.trail, k);
  }

  lemma {:induction false} ParseItemsText(items: Items, obj: bool, k: string)
    requires ItemsOk(items, obj)
    ensures ParseItems(ItemsText(items, [Close(obj)] + k), obj) == Some((items, k))
    decreases items, 1
  {
    match items
    case Last(i) =>
      ParseItemText(i, obj, [Close(obj)] + k);
      assert ([Close(obj)] + k)[1..] == k;
    case More(i, rest) =>
      var tail := ItemsText(rest, [Close(obj)] + k);
      ParseItemsText(rest, obj, k);
      ParseItemText(i, obj, "," + tail);
      assert ("," + tail)[1..] == tail;
  }

  /** A value's text reads back as that value, and what follows it is left alone. */
  lemma {:induction false} ParseValueText(v: Value, k: string)
    requires ValueOk(v) && Delimited(k)
    ensures ParseValue(ValueText(v, k)) == Some((v, k))
    decreases v, 1
  {
    match v
    case Scalar(text) =>
      ScalarPlain(text);
      PlainRunStops(text, k);
      assert (text + k)[0] == text[0];
    case Str(body) => ParseStrText(body, k);
    case Empty(obj, inner) => ParseEmptyText(obj, inner, k);
    case Filled(obj, items) =>
      var t := ItemsText(items, [Close(obj)] + k);
      ParseItemsText(items, obj, k);
      ItemsTextHead(items, obj, [Close(obj)] + k);
      ParseFilled(obj, t);
  }

  lemma ParseEmptyText(obj: bool, inner: string, k: string)
    requires Spaces(inner)
    ensures ParseValue(ValueText(Empty(obj, inner), k)) == Some((Empty(obj, inner), k))
  {
    var t := inner + ([Close(obj)] + k);
    var s := [Open(obj)] + t;
    assert s[1..] == t;
    SpaceRunStops(inner, [Close(obj)] + k);
    assert t[|inner| + 1..] == k;
  }

  lemma ParseFilled(obj: bool, t: string)
    requires SpaceRun(t) < |t| && !Delimiter(t[SpaceRun(t)])
    ensures var r := ParseItems(t, obj);
            ParseValue([Open(obj)] + t) == if r.None? then None else Some((Filled(obj, r.value.0), r.value.1))
  {
    assert ([Open(obj)] + t)[1..] == t;
  }

  /** An item list never looks like an empty container. */
  lemma ItemsTextHead(items: Items, obj: bool, k: string)
    requires ItemsOk(items, obj)
    ensures var t := ItemsText(items, k); SpaceRun(t) < |t| && !Delimiter(t[SpaceRun(t)])
  {
    var i := items.item;
    var k' := if items.Last? then k else "," + ItemsText(items.rest, k);
    var tail := NameText(i.name, ValueText(i.value, i.trail + k'));
    ValueTextHead(i.value, i.trail + k');
    assert tail != "" && !Delimiter(tail[0]);
    SpaceRunStops(i.lead, tail);
  }

  /** Every well-formed document is read back from its text. */
  lemma ParsePrinted(d: Doc)
    requires DocOk(d)
    ensures Parse(DocText(d)) == Some(d)
  {
    ValueTextHead(d.value, d.trail);
    SpaceRunStops(d.lead, ValueText(d.value, d.trail));
    ParseValueText(d.value, d.trail);
  }

  // ---- what a document denotes ------------------------------------------------------------

  datatype Json =
    | Literal(text: string)
    | Text(s: string)
    | Array(elems: seq<Json>)
    | Object(members: seq<(string, Json)>)

  function NameOf(i: Item, decode: Decode): string { if i.name.Name? then decode(i.name.body) else "" }

  function Elems(items: Items, decode: Decode): seq<Json> {
    match items
    case Last(i) => [Denote(i.value, decode)]
    case More(i, rest) => [Denote(i.value, decode)] + Elems(rest, decode)
  }

  function Pairs(items: Items, decode: Decode): seq<(string, Json)> {
    match items
    case Last(i) => [(NameOf(i, decode), Denote(i.value, decode))]
    case More(i, rest) => [(NameOf(i, decode), Denote(i.value, decode))] + Pairs(rest, decode)
  }

  /** The document, its members in the order they are written. */
  function Denote(v: Value, decode: Decode): Json {
    match v
    case Scalar(text) => Literal(text)
    case Str(body) => Text(decode(body))
    case Empty(obj, _) => if obj then Object([]) else Array([])
    case Filled(obj, items) => if obj then Object(Pairs(items, decode)) else Array(Elems(items, decode))
  }
}
