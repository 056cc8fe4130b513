/**
 The surface syntax RE2 and Python's `re` share: the units, bracket expressions, groups,
 inline flag groups and quantifiers a rule pattern is written with. A pattern is printed
 in front of a continuation string and read back by a recursive-descent parser;
 `ParsePrinted`: a printed pattern is the text of exactly one pattern.
 */
module RegexSyntax {
  import opened Basics

  /** One unit of a bracket expression as it is written. */
  datatype ClassTok =
    | Plain(c: char)
    | Quoted(c: char)          // \c
    | HexTok(hi: char, lo: char)   // \xhl
    | Posix(name: string)      // [:name:]

  datatype Kind =
    | Capture                  // (
    | Named(name: string)      // (?P<name>
    | Scoped(on: string, off: string)   // (?on-off:   and, with both empty, (?:

  datatype Quant =
    | Once
    | Repeat(op: string, lazy: bool)

  datatype Atom =
    | Lit(c: char)
    | Escape(c: char)
    | Hex(hi: char, lo: char)
    | Class(negated: bool, bracket: bool, toks: seq<ClassTok>)
    | Flags(on: string, off: string)    // (?on-off) with nothing else inside
    | Group(kind: Kind, body: Alt)

  datatype Cat = End | Item(atom: Atom, quant: Quant, rest: Cat)

  datatype Alt = Only(cat: Cat) | Or(first: Cat, others: Alt)

  // ---- printing -------------------------------------------------------------

  function TokText(t: ClassTok, k: string): string {
    match t
    case Plain(c) => [c] + k
    case Quoted(c) => ['\\', c] + k
    case HexTok(h, l) => ['\\', 'x', h, l] + k
    case Posix(name) => ['[', ':'] + (name + ([':', ']'] + k))
  }

  function ToksText(toks: seq<ClassTok>, k: string): string {
    if toks == [] then k else TokText(toks[0], ToksText(toks[1..], k))
  }

  function ClassText(negated: bool, bracket: bool, toks: seq<ClassTok>, k: string): string {
    var body := ToksText(toks, "]" + k);
    var lead := if bracket then "]" + body else body;
    "[" + (if negated then "^" + lead else lead)
  }

  function FlagText(on: string, off: string): string {
    if off == "" then on else on + ("-" + off)
  }

  function KindText(kind: Kind, k: string): string {
    match kind
    case Capture => "(" + k
    case Named(name) => "(?P<" + (name + (">" + k))
    case Scoped(on, off) => "(?" + (FlagText(on, off) + (":" + k))
  }

  function QuantText(q: Quant, k: string): string {
    match q
    case Once => k
    case Repeat(op, lazy) => op + (if lazy then "?" + k else k)
  }

  function AtomText(a: Atom, k: string): string {
    match a
    case Lit(c) => [c] + k
    case Escape(c) => ['\\', c] + k
    case Hex(h, l) => ['\\', 'x', h, l] + k
    case Class(negated, bracket, toks) => ClassText(negated, bracket, toks, k)
    case Flags(on, off) => "(?" + (FlagText(on, off) + (")" + k))
    case Group(kind, body) => KindText(kind, AltText(body, ")" + k))
  }

  function CatText(c: Cat, k: string): string {
    match c
    case End => k
    case Item(a, q, rest) => AtomText(a, QuantText(q, CatText(rest, k)))
  }

  function AltText(a: Alt, k: string): string {
    match a
    case Only(c) => CatText(c, k)
    case Or(c, others) => CatText(c, "|" + AltText(others, k))
  }

  // ---- which trees are written patterns ---------------------------------------

  /** The characters the scanner reacts to. */
  predicate Structural(c: char) { c == '\\' || c == '[' || c == '(' || c == ')' || c == '|' }

  predicate QuantHead(c: char) { c == '*' || c == '+' || c == '?' || c == '{' }

  predicate FlagLetter(c: char) {
    c == 'a' || c == 'i' || c == 'L' || c == 'm' || c == 's' || c == 'u' || c == 'x'
  }

  predicate AllFlags(s: string) {
    forall i :: 0 <= i < |s| ==> FlagLetter(s[i])
  }

  predicate HexDigit(c: char) {
    '0' <= c <= '9' || 'a' <= c <= 'f' || 'A' <= c <= 'F'
  }

  /** A unit that stands for itself; a literal `{` has to be escaped. */
  predicate LitOk(c: char) { !Structural(c) && !QuantHead(c) }

  /** A two-character escape: none of the longer escapes, quoting or back-references. */
  predicate EscapeOk(c: char) {
    c != 'x' && c != 'p' && c != 'P' && c != 'Q' && c != 'E' && c != 'C' && !('0' <= c <= '9')
  }

  predicate WordChar(c: char) { '0' <= c <= '9' || 'a' <= c <= 'z' || 'A' <= c <= 'Z' || c == '_' }

  predicate TokOk(t: ClassTok) {
    match t
    case Plain(c) => c != '\\' && c != ']' && c != '['
    case Quoted(c) => EscapeOk(c)
    case HexTok(h, l) => HexDigit(h) && HexDigit(l)
    case Posix(name) => ':' !in name
  }

  predicate ClassOk(negated: bool, bracket: bool, toks: seq<ClassTok>) {
    && (bracket || toks != [])
    && (!negated && !bracket ==> toks[0] != Plain('^'))
    && forall i :: 0 <= i < |toks| ==> TokOk(toks[i])
  }

  predicate KindOk(kind: Kind) {
    match kind
    case Capture => true
    case Named(name) => forall i :: 0 <= i < |name| ==> WordChar(name[i])
    case Scoped(on, off) => AllFlags(on) && AllFlags(off)
  }

  predicate Digits(s: string) { s != "" && forall i :: 0 <= i < |s| ==> '0' <= s[i] <= '9' }

  /** A number without a leading zero: with one, RE2 takes the `{` for itself. */
  predicate Numeral(s: string) { Digits(s) && (|s| == 1 || s[0] != '0') }

  /** `*`, `+`, `?`, `{m}`, `{m,}` and `{m,n}`. */
  predicate OpOk(op: string) {
    || op == "*" || op == "+" || op == "?"
    || (|op| >= 3 && op[0] == '{' && op[|op| - 1] == '}' && BoundsOk(op[1..|op| - 1]))
  }

  predicate BoundsOk(inner: string) {
    var k := DigitRun(inner);
    && k > 0 && Numeral(inner[..k])
    && (k == |inner| || (inner[k] == ',' && (k + 1 == |inner| || Numeral(inner[k + 1..]))))
  }

  function DigitRun(s: string): (k: nat)
    ensures k <= |s|
    ensures forall i :: 0 <= i < k ==> '0' <= s[i] <= '9'
    ensures k < |s| ==> !('0' <= s[k] <= '9')
  {
    if s == "" || !('0' <= s[0] <= '9') then 0 else 1 + DigitRun(s[1..])
  }

  predicate QuantOk(q: Quant) { q.Repeat? ==> OpOk(q.op) }

  predicate AtomOk(a: Atom) {
    match a
    case Lit(c) => LitOk(c)
    case Escape(c) => EscapeOk(c)
    case Hex(h, l) => HexDigit(h) && HexDigit(l)
    case Class(negated, bracket, toks) => ClassOk(negated, bracket, toks)
    case Flags(on, off) =>
      AllFlags(on) && AllFlags(off) && (on != "" || off != "")
    case Group(kind, body) => KindOk(kind) && AltOk(body)
  }

  predicate CatOk(c: Cat) {
    c.Item? ==>
      && AtomOk(c.atom) && QuantOk(c.quant) && CatOk(c.rest)
      && (c.quant.Repeat? ==> !c.atom.Flags?)
  }

  /** A tree the shared grammar has a text for. */
  predicate AltOk(a: Alt) {
    match a
    case Only(c) => CatOk(c)
    case Or(c, others) => CatOk(c) && AltOk(others)
  }

  // ---- parsing ----------------------------------------------------------------

  /** The length of the longest prefix of `s` made of flag letters. */
  function Run(s: string): (k: nat)
    ensures k <= |s|
    ensures AllFlags(s[..k])
    ensures k < |s| ==> !FlagLetter(s[k])
  {
    if s == "" || !FlagLetter(s[0]) then 0 else 1 + Run(s[1..])
  }

  /** The index of the first `c` in `s`, or |s|. */
  function IndexOf(s: string, c: char): (k: nat)
    ensures k <= |s|
    ensures c !in s[..k]
    ensures k < |s| ==> s[k] == c
  {
    if s == "" || s[0] == c then 0 else 1 + IndexOf(s[1..], c)
  }

  function ParseToks(s: string): (r: Option<(seq<ClassTok>, string)>)
    ensures r.Some? ==> |r.value.1| < |s|
    decreases |s|
  {
    if s == "" then None
    else if s[0] == ']' then Some(([], s[1..]))
    else
      match ParseTok(s)
      case None => None
      case Some((t, rest)) =>
        match ParseToks(rest)
        case None => None
        case Some((ts, k)) => Some(([t] + ts, k))
  }

  function ParseTok(s: string): (r: Option<(ClassTok, string)>)
    requires s != "" && s[0] != ']'
    ensures r.Some? ==> |r.value.1| < |s|
  {
    if s[0] == '\\' then
      if |s| < 2 then None
      else if s[1] == 'x' then (if |s| < 4 then None else Some((HexTok(s[2], s[3]), s[4..])))
      else Some((Quoted(s[1]), s[2..]))
    else if s[0] == '[' then
      if |s| < 2 || s[1] != ':' then None
      else
        var k := IndexOf(s[2..], ':');
        if k + 3 < |s| && s[k + 3] == ']' then Some((Posix(s[2..][..k]), s[k + 4..])) else None
    else Some((Plain(s[0]), s[1..]))
  }

  function ParseClass(s: string): (r: Option<(Atom, string)>)
    ensures r.Some? ==> |r.value.1| < |s|
  {
    var negated := s != "" && s[0] == '^';
    var s1 := if negated then s[1..] else s;
    var bracket := s1 != "" && s1[0] == ']';
    var s2 := if bracket then s1[1..] else s1;
    match ParseToks(s2)
    case None => None
    case Some((toks, k)) => Some((Class(negated, bracket, toks), k))
  }

  /** The on and off letters after `(?`, and what follows them. */
  function ParseFlagLetters(s: string): (r: (string, string, string))
    ensures |r.2| <= |s|
  {
    var k := Run(s);
    if k < |s| && s[k] == '-' then
      var rest := s[k + 1..];
      var m := Run(rest);
      (s[..k], rest[..m], rest[m..])
    else (s[..k], "", s[k..])
  }

  function ParseGroup(s: string): (r: Option<(Atom, string)>)
    requires s != "" && s[0] == '('
    ensures r.Some? ==> |r.value.1| < |s|
    decreases |s|, 0
  {
    if |s| >= 2 && s[1] == '?' then
      if |s| >= 4 && s[2] == 'P' && s[3] == '<' then
        var k := IndexOf(s[4..], '>');
        if k + 4 >= |s| then None else ParseBody(Named(s[4..][..k]), s[4..][k + 1..])
      else
        var (on, off, rest) := ParseFlagLetters(s[2..]);
        if rest == "" then None
        else if rest[0] == ':' then ParseBody(Scoped(on, off), rest[1..])
        else if rest[0] == ')' then Some((Flags(on, off), rest[1..]))
        else None
    else ParseBody(Capture, s[1..])
  }

  function ParseBody(kind: Kind, s: string): (r: Option<(Atom, string)>)
    ensures r.Some? ==> |r.value.1| < |s|
    decreases |s|, 4
  {
    match ParseAlt(s)
    case None => None
    case Some((body, rest)) =>
      if rest != "" && rest[0] == ')' then Some((Group(kind, body), rest[1..])) else None
  }

  function ParseAtom(s: string): (r: Option<(Atom, string)>)
    requires s != ""
    ensures r.Some? ==> |r.value.1| < |s|
    decreases |s|, 1
  {
    if s[0] == '\\' then
      if |s| < 2 then None
      else if s[1] == 'x' then (if |s| < 4 then None else Some((Hex(s[2], s[3]), s[4..])))
      else Some((Escape(s[1]), s[2..]))
    else if s[0] == '[' then ParseClass(s[1..])
    else if s[0] == '(' then ParseGroup(s)
    else if LitOk(s[0]) then Some((Lit(s[0]), s[1..]))
    else None
  }

  function ParseQuant(s: string): (r: (Quant, string))
    ensures |r.1| <= |s|
  {
    if s == "" || !QuantHead(s[0]) then (Once, s)
    else
      var k := if s[0] == '{' then IndexOf(s, '}') + 1 else 1;
      if k > |s| then (Once, s)
      else
        var rest := s[k..];
        var lazy := rest != "" && rest[0] == '?';
        (Repeat(s[..k], lazy), if lazy then rest[1..] else rest)
  }

  function ParseCat(s: string): (r: Option<(Cat, string)>)
    ensures r.Some? ==> |r.value.1| <= |s|
    decreases |s|, 2
  {
    if s == "" || s[0] == '|' || s[0] == ')' then Some((End, s))
    else
      match ParseAtom(s)
      case None => None
      case Some((a, rest)) =>
        var (q, rest2) := ParseQuant(rest);
        match ParseCat(rest2)
        case None => None
        case Some((c, k)) => Some((Item(a, q, c), k))
  }

  function ParseAlt(s: string): (r: Option<(Alt, string)>)
    ensures r.Some? ==> |r.value.1| <= |s|
    decreases |s|, 3
  {
    match ParseCat(s)
    case None => None
    case Some((c, rest)) =>
      if rest != "" && rest[0] == '|' then
        match ParseAlt(rest[1..])
        case None => None
        case Some((others, k)) => Some((Or(c, others), k))
      else Some((Only(c), rest))
  }

  /** The pattern a whole string is the text of. */
  function Parse(s: string): Option<Alt> {
    match ParseAlt(s)
    case None => None
    case Some((a, rest)) => if rest == "" then Some(a) else None
  }

  // ---- reading back what was printed ----------------------------------------------

  /** A continuation no unit of the text before it can absorb. */
  predicate Closed(k: string) { k == "" || k[0] == '|' || k[0] == ')' }

  lemma RunStops(s: string, k: string)
    requires AllFlags(s) && (k == "" || !FlagLetter(k[0]))
    ensures Run(s + k) == |s|
  {
    if s == "" {
      assert s + k == k;
    } else {
      assert (s + k)[1..] == s[1..] + k;
      RunStops(s[1..], k);
    }
  }

  lemma IndexOfAppend(s: string, c: char, k: string)
    requires c !in s && k != "" && k[0] == c
    ensures IndexOf(s + k, c) == |s|
  {
    if s == "" {
      assert s + k == k;
    } else {
      assert (s + k)[1..] == s[1..] + k;
      IndexOfAppend(s[1..], c, k);
    }
  }

  lemma ParseTokText(t: ClassTok, k: string)
    requires TokOk(t)
    ensures TokText(t, k) != "" && TokText(t, k)[0] != ']'
    ensures ParseTok(TokText(t, k)) == Some((t, k))
  {
    var s := TokText(t, k);
    match t
    case Plain(c) =>
    case Quoted(c) =>
    case HexTok(h, l) =>
    case Posix(name) =>
      var tail := [':', ']'] + k;
      assert s[2..] == name + tail;
      IndexOfAppend(name, ':', tail);
      assert s[|name| + 4..] == k;
  }

  lemma {:induction false} ParseToksText(toks: seq<ClassTok>, k: string)
    requires forall i :: 0 <= i < |toks| ==> TokOk(toks[i])
    ensures ParseToks(ToksText(toks, "]" + k)) == Some((toks, k))
  {
    if toks != [] {
      var tail := ToksText(toks[1..], "]" + k);
      ParseToksText(toks[1..], k);
      ParseTokText(toks[0], tail);
      assert ToksText(toks, "]" + k) == TokText(toks[0], tail);
      assert toks == [toks[0]] + toks[1..];
    }
  }

  lemma ParseClassText(negated: bool, bracket: bool, toks: seq<ClassTok>, k: string)
    requires ClassOk(negated, bracket, toks)
    ensures ParseClass(ClassText(negated, bracket, toks, k)[1..]) == Some((Class(negated, bracket, toks), k))
  {
    ParseToksText(toks, k);
    var body := ToksText(toks, "]" + k);
    if toks != [] {
      ParseTokText(toks[0], ToksText(toks[1..], "]" + k));
      if !negated && !bracket {
        assert body[0] != '^';
      }
    }
  }

  lemma ParseFlagLettersText(on: string, off: string, k: string)
    requires AllFlags(on) && AllFlags(off)
    requires k != "" && !FlagLetter(k[0]) && k[0] != '-'
    ensures ParseFlagLetters(FlagText(on, off) + k) == (on, off, k)
  {
    var s := FlagText(on, off) + k;
    if off == "" {
      RunStops(on, k);
    } else {
      var tail := "-" + (off + k);
      assert s == on + tail;
      RunStops(on, tail);
      assert s[|on| + 1..] == off + k;
      RunStops(off, k);
    }
  }

  lemma NoBrace(inner: string)
    requires BoundsOk(inner)
    ensures '}' !in inner
  {
    var n := DigitRun(inner);
    forall i | 0 <= i < |inner| ensures inner[i] != '}' {
      if i > n { assert inner[i] == inner[n + 1..][i - n - 1]; }
    }
  }

  lemma BraceEnd(op: string, tail: string)
    requires OpOk(op) && op[0] == '{'
    ensures IndexOf(op + tail, '}') == |op| - 1
  {
    var body, inner := op[..|op| - 1], op[1..|op| - 1];
    NoBrace(inner);
    hide BoundsOk;
    assert body == ['{'] + inner;
    assert op + tail == body + ("}" + tail);
    IndexOfAppend(body, '}', "}" + tail);
  }

  lemma ParseQuantText(q: Quant, k: string)
    requires QuantOk(q) && (k == "" || !QuantHead(k[0]))
    ensures ParseQuant(QuantText(q, k)) == (q, k)
  {
    if q.Repeat? {
      var tail := if q.lazy then "?" + k else k;
      var s := q.op + tail;
      if q.op[0] == '{' {
        BraceEnd(q.op, tail);
      }
      assert s[|q.op|..] == tail;
      assert s[..|q.op|] == q.op;
    }
  }

  lemma CatTextHead(c: Cat, k: string)
    requires CatOk(c) && Closed(k)
    ensures CatText(c, k) == "" || !QuantHead(CatText(c, k)[0])
    ensures c.Item? ==> CatText(c, k) != "" && CatText(c, k)[0] != '|' && CatText(c, k)[0] != ')'
  {
  }

  lemma {:induction false} ParseAtomText(a: Atom, k: string)
    requires AtomOk(a)
    ensures AtomText(a, k) != "" && AtomText(a, k)[0] != '|' && AtomText(a, k)[0] != ')' && !QuantHead(AtomText(a, k)[0])
    ensures ParseAtom(AtomText(a, k)) == Some((a, k))
    decreases a, 0
  {
    match a
    case Lit(_) => ParseUnitText(a, k);
    case Escape(_) => ParseUnitText(a, k);
    case Hex(_, _) => ParseUnitText(a, k);
    case Class(negated, bracket, toks) => ParseClassText(negated, bracket, toks, k);
    case Flags(on, off) => ParseFlagsText(on, off, k);
    case Group(kind, body) => ParseGroupText(kind, body, k);
  }

  lemma ParseUnitText(a: Atom, k: string)
    requires (a.Lit? || a.Escape? || a.Hex?) && AtomOk(a)
    ensures AtomText(a, k) != "" && AtomText(a, k)[0] != '|' && AtomText(a, k)[0] != ')' && !QuantHead(AtomText(a, k)[0])
    ensures ParseAtom(AtomText(a, k)) == Some((a, k))
  {
    var s := AtomText(a, k);
    match a
    case Lit(_) => assert s[1..] == k;
    case Escape(_) => assert s[2..] == k;
    case Hex(_, _) => assert s[4..] == k;
  }

  lemma ParseFlagsText(on: string, off: string, k: string)
    requires AtomOk(Flags(on, off))
    ensures ParseGroup("(?" + (FlagText(on, off) + (")" + k))) == Some((Flags(on, off), k))
  {
    var tail := ")" + k;
    var s := "(?" + (FlagText(on, off) + tail);
    assert s[2..] == FlagText(on, off) + tail;
    ParseFlagLettersText(on, off, tail);
    FlagTextHead(on, off, tail);
    assert s[2] == s[2..][0];
    assert tail[1..] == k;
  }

  lemma FlagTextHead(on: string, off: string, tail: string)
    requires AllFlags(on) && tail != "" && tail[0] != 'P'
    ensures (FlagText(on, off) + tail)[0] != 'P'
  {
    if on != "" {
      assert FlagLetter(on[0]);
    }
  }

  lemma {:induction false} ParseGroupText(kind: Kind, body: Alt, k: string)
    requires KindOk(kind) && AltOk(body)
    ensures ParseGroup(KindText(kind, AltText(body, ")" + k))) == Some((Group(kind, body), k))
    decreases body, 1
  {
    var inner := AltText(body, ")" + k);
    ParseAltText(body, ")" + k);
    AltTextHead(body, ")" + k);
    assert ParseBody(kind, inner) == Some((Group(kind, body), k));
    ParseKindText(kind, inner);
  }

  lemma ParseKindText(kind: Kind, inner: string)
    requires KindOk(kind) && inner != "" && inner[0] != '?'
    ensures ParseGroup(KindText(kind, inner)) == ParseBody(kind, inner)
  {
    match kind
    case Capture => assert KindText(kind, inner)[1..] == inner;
    case Named(name) => ParseNamedText(name, inner);
    case Scoped(on, off) => ParseScopedText(on, off, inner);
  }

  lemma ParseNamedText(name: string, inner: string)
    requires KindOk(Named(name))
    ensures ParseGroup("(?P<" + (name + (">" + inner))) == ParseBody(Named(name), inner)
  {
    var tail := ">" + inner;
    var s := "(?P<" + (name + tail);
    assert s[4..] == name + tail;
    IndexOfAppend(name, '>', tail);
    assert (name + tail)[..|name|] == name;
    assert (name + tail)[|name| + 1..] == inner;
  }

  lemma ParseScopedText(on: string, off: string, inner: string)
    requires KindOk(Scoped(on, off))
    ensures ParseGroup("(?" + (FlagText(on, off) + (":" + inner))) == ParseBody(Scoped(on, off), inner)
  {
    var tail := ":" + inner;
    var s := "(?" + (FlagText(on, off) + tail);
    assert s[2..] == FlagText(on, off) + tail;
    ParseFlagLettersText(on, off, tail);
    FlagTextHead(on, off, tail);
    assert s[2] == s[2..][0];
    assert tail[1..] == inner;
  }

  lemma AltTextHead(a: Alt, k: string)
    requires AltOk(a) && k != "" && k[0] == ')'
    ensures AltText(a, k) != "" && AltText(a, k)[0] != '?'
  {
    match a
    case Only(c) => CatTextHead(c, k);
    case Or(c, others) => CatTextHead(c, "|" + AltText(others, k));
  }

  lemma {:induction false} ParseCatText(c: Cat, k: string)
    requires CatOk(c) && Closed(k)
    ensures ParseCat(CatText(c, k)) == Some((c, k))
    decreases c, 0
  {
    if c.Item? {
      var tail := CatText(c.rest, k);
      ParseCatText(c.rest, k);
      CatTextHead(c.rest, k);
      ParseQuantText(c.quant, tail);
      ParseAtomText(c.atom, QuantText(c.quant, tail));
    }
  }

  /** Reading a printed pattern gives that pattern back and leaves the rest alone. */
  lemma {:induction false} ParseAltText(a: Alt, k: string)
    requires AltOk(a) && (k == "" || k[0] == ')')
    ensures ParseAlt(AltText(a, k)) == Some((a, k))
    decreases a, 0
  {
    match a
    case Only(c) => ParseCatText(c, k);
    case Or(c, others) =>
      ParseAltText(others, k);
      ParseCatText(c, "|" + AltText(others, k));
  }

  /** A printed pattern is the text of exactly one pattern. */
  lemma ParsePrinted(a: Alt)
    requires AltOk(a)
    ensures Parse(AltText(a, "")) == Some(a)
  {
    ParseAltText(a, "");
  }
}
