/**
 What a pattern means in each dialect. Both elaborate to one core language whose leaves
 carry their effective flags and whose captures carry their numbers; `Match` lists every
 outcome of a backtracking match in priority order. RE2 lets an inline flag group act to
 the end of its group, across `|`; Python has scoped groups only.
 */
module RegexMeaning {
  import opened Basics
  import opened RegexSyntax
  import opened RegexTranslation

  datatype Dialect = Re2 | Python

  datatype Member = One(tok: ClassTok) | Span(lo: ClassTok, hi: ClassTok) | Not(members: seq<Member>)

  datatype Leaf =
    | Letter(c: char)
    | Escaped(c: char)
    | Code(hi: char, lo: char)
    | EndOfText
    | SetLeaf(negated: bool, members: seq<Member>)
    | NoUnit

  datatype Core =
    | Nothing
    | Unit(leaf: Leaf, flags: set<char>)
    | Then(a: Core, b: Core)
    | Either(a: Core, b: Core)
    | Cap(index: nat, name: string, body: Core)
    | Loop(body: Core, min: nat, max: Option<nat>, lazy: bool)

  // ---- bracket expressions ---------------------------------------------------------

  /** `\d`, `\s`, `\w` and their complements: a set of characters, never the end of a range. */
  predicate PerlClass(t: ClassTok) { t.Quoted? && PerlLetter(t.c) }

  predicate PerlLetter(c: char) { c == 'd' || c == 'D' || c == 's' || c == 'S' || c == 'w' || c == 'W' }

  function HexValue(c: char): int {
    if '0' <= c <= '9' then c as int - '0' as int
    else if 'a' <= c <= 'f' then c as int - 'a' as int + 10
    else c as int - 'A' as int + 10
  }

  /** The character a unit of a bracket expression stands for. */
  function TokValue(t: ClassTok): int {
    match t
    case Plain(c) => c as int
    case Quoted(c) =>
      if c == 'n' then 10 else if c == 't' then 9 else if c == 'r' then 13
      else if c == 'f' then 12 else if c == 'v' then 11 else if c == 'a' then 7 else c as int
    case HexTok(h, l) => 16 * HexValue(h) + HexValue(l)
    case Posix(_) => 0
  }

  function Spans(lo: char, hi: char): Member { Span(Plain(lo), Plain(hi)) }

  /** RE2's named classes; a name in front of which a `^` stands is the complement. */
  function PosixMembers(name: string): Option<seq<Member>> {
    if name != "" && name[0] == '^' then
      match PosixRanges(name[1..]) case None => None case Some(xs) => Some([Not(xs)])
    else PosixRanges(name)
  }

  function PosixRanges(name: string): Option<seq<Member>> {
    if name == "alnum" then Some([Spans('a', 'z'), Spans('A', 'Z'), Spans('0', '9')])
    else if name == "alpha" then Some([Spans('a', 'z'), Spans('A', 'Z')])
    else if name == "digit" then Some([Spans('0', '9')])
    else if name == "lower" then Some([Spans('a', 'z')])
    else if name == "upper" then Some([Spans('A', 'Z')])
    else if name == "xdigit" then Some([Spans('0', '9'), Spans('A', 'F'), Spans('a', 'f')])
    else if name == "space" then
      Some([One(Plain('\t')), One(Plain('\n')), One(Plain(11 as char)), One(Plain(12 as char)),
            One(Plain('\r')), One(Plain(' '))])
    else if name == "word" then Some([Spans('0', '9'), Spans('A', 'Z'), Spans('a', 'z'), One(Plain('_'))])
    else if name == "ascii" then Some([Spans(0 as char, 127 as char)])
    else if name == "blank" then Some([One(Plain('\t')), One(Plain(' '))])
    else if name == "cntrl" then Some([Spans(0 as char, 31 as char), One(Plain(127 as char))])
    else if name == "graph" then Some([Spans('!', '~')])
    else if name == "print" then Some([Spans(' ', '~')])
    else if name == "punct" then Some([Spans('!', '/'), Spans(':', '@'), Spans('[', '`'), Spans('{', '~')])
    else None
  }

  function Cons(x: Member, r: Option<seq<Member>>): Option<seq<Member>> {
    match r case None => None case Some(xs) => Some([x] + xs)
  }

  function Prefix(xs: seq<Member>, r: Option<seq<Member>>): Option<seq<Member>> {
    match r case None => None case Some(ys) => Some(xs + ys)
  }

  /** How a dialect reads the inside of a bracket expression; None when it rejects it. */
  function Members(d: Dialect, toks: seq<ClassTok>): Option<seq<Member>> {
    if toks == [] then Some([])
    else if toks[0].Posix? then
      match PosixMembers(toks[0].name)
      case Some(xs) => if d.Re2? then Prefix(xs, Members(d, toks[1..])) else None
      case None => None
    else if |toks| >= 3 && toks[1] == Plain('-') && !(d.Re2? && PerlClass(toks[0])) then
      if toks[2].Posix? || PerlClass(toks[2]) || PerlClass(toks[0]) || TokValue(toks[0]) > TokValue(toks[2])
      then None
      else Cons(Span(toks[0], toks[2]), Members(d, toks[3..]))
    else Cons(One(toks[0]), Members(d, toks[1..]))
  }

  /** A `]` in first place is a member like any other. */
  function Inside(bracket: bool, toks: seq<ClassTok>): seq<ClassTok> {
    if bracket then [Plain(']')] + toks else toks
  }

  predicate Holds(xs: seq<Member>, c: char)
    decreases xs
  {
    exists i :: 0 <= i < |xs| &&
      match xs[i]
      case One(t) => t == Plain(c)
      case Span(lo, hi) => TokValue(lo) <= c as int <= TokValue(hi)
      case Not(ys) => !Holds(ys, c)
  }

  /** The characters of RE2's named classes. */
  predicate InRanges(name: string, c: char) {
    var lower, upper, digit := 'a' <= c <= 'z', 'A' <= c <= 'Z', '0' <= c <= '9';
    match name
    case "alnum" => lower || upper || digit
    case "alpha" => lower || upper
    case "digit" => digit
    case "lower" => lower
    case "upper" => upper
    case "xdigit" => digit || 'a' <= c <= 'f' || 'A' <= c <= 'F'
    case "space" => 9 <= c as int <= 13 || c == ' '
    case "word" => lower || upper || digit || c == '_'
    case "ascii" => c as int < 128
    case "blank" => c == '\t' || c == ' '
    case "cntrl" => c as int < 32 || c as int == 127
    case "graph" => 32 < c as int < 127
    case "print" => 32 <= c as int < 127
    case "punct" => 32 < c as int < 127 && !(lower || upper || digit)
    case _ => false
  }

  predicate InClass(name: string, c: char) {
    if name != "" && name[0] == '^' then !InRanges(name[1..], c) else InRanges(name, c)
  }

  lemma PosixMembersHold(name: string, c: char)
    requires PosixMembers(name).Some?
    ensures Holds(PosixMembers(name).value, c) <==> InClass(name, c)
  {
    if name != "" && name[0] == '^' {
      PosixRangesHold(name[1..], c);
      assert Not(PosixRanges(name[1..]).value) == PosixMembers(name).value[0];
    } else {
      PosixRangesHold(name, c);
    }
    hide PosixRanges, InRanges;
  }

  lemma PosixRangesHold(name: string, c: char)
    requires PosixRanges(name).Some?
    ensures Holds(PosixRanges(name).value, c) <==> InRanges(name, c)
  {
    if name in {"space", "word", "blank", "cntrl", "punct"} { LongRangesHold(name, c); } else { ShortRangesHold(name, c); }
  }

  lemma LongRangesHold(name: string, c: char)
    requires name in {"space", "word", "blank", "cntrl", "punct"}
    ensures Holds(PosixRanges(name).value, c) <==> InRanges(name, c)
  {
    var xs := PosixRanges(name).value;
    if InRanges(name, c) { assert xs[ClassAt(name, c)].One? || xs[ClassAt(name, c)].Span?; }
  }

  lemma ShortRangesHold(name: string, c: char)
    requires PosixRanges(name).Some? && name !in {"space", "word", "blank", "cntrl", "punct"}
    ensures Holds(PosixRanges(name).value, c) <==> InRanges(name, c)
  {
    var xs := PosixRanges(name).value;
    if InRanges(name, c) { assert xs[ClassAt(name, c)].Span?; }
  }

  /** The member of a class that a character of it belongs to. */
  function ClassAt(name: string, c: char): nat {
    var lower, upper, digit := 'a' <= c <= 'z', 'A' <= c <= 'Z', '0' <= c <= '9';
    match name
    case "alnum" => if lower then 0 else if upper then 1 else 2
    case "alpha" => if lower then 0 else 1
    case "space" => if 9 <= c as int <= 13 then c as int - 9 else 5
    case "word" => if digit then 0 else if upper then 1 else if lower then 2 else 3
    case "xdigit" => if digit then 0 else if 'A' <= c <= 'F' then 1 else 2
    case "blank" => if c == '\t' then 0 else 1
    case "cntrl" => if c as int < 32 then 0 else 1
    case "punct" => if c <= '/' then 0 else if c <= '@' then 1 else if c <= '`' then 2 else 3
    case _ => 0
  }

  // ---- elaboration ------------------------------------------------------------------

  function Letters(s: string): set<char> { set c | c in s }

  function Apply(flags: set<char>, on: string, off: string): set<char> {
    flags + Letters(on) - Letters(off)
  }

  function LeafOf(d: Dialect, a: Atom): Leaf {
    match a
    case Lit(c) => Letter(c)
    case Hex(h, l) => Code(h, l)
    case Escape(c) => if c == (if d.Re2? then 'z' else 'Z') then EndOfText else Escaped(c)
    case Class(negated, bracket, toks) =>
      SetLeaf(negated, match Members(d, Inside(bracket, toks)) case Some(xs) => xs case None => [])
    case _ => NoUnit
  }

  function Caps(a: Atom): nat {
    match a
    case Group(kind, body) => (if kind.Scoped? then 0 else 1) + CapsAlt(body)
    case _ => 0
  }

  function CapsCat(c: Cat): nat {
    match c
    case End => 0
    case Item(a, _, rest) => Caps(a) + CapsCat(rest)
  }

  function CapsAlt(a: Alt): nat {
    match a
    case Only(c) => CapsCat(c)
    case Or(c, others) => CapsCat(c) + CapsAlt(others)
  }

  function Number(s: string, acc: nat): nat
    requires forall i :: 0 <= i < |s| ==> '0' <= s[i] <= '9'
    decreases |s|
  {
    if s == "" then acc else Number(s[1..], 10 * acc + (s[0] as int - '0' as int))
  }

  function Least(op: string): nat {
    if op == "+" then 1
    else if |op| >= 3 && op[0] == '{' then Number(op[1..][..DigitRun(op[1..])], 0)
    else 0
  }

  function Most(op: string): Option<nat> {
    if op == "?" then Some(1)
    else if |op| >= 3 && op[0] == '{' then
      var inner := op[1..|op| - 1];
      var k := DigitRun(inner);
      if k == |inner| then Some(Least(op))
      else
        var rest := inner[k + 1..];
        if rest == "" then None else Some(Number(rest[..DigitRun(rest)], 0))
    else None
  }

  function Quantified(q: Quant, c: Core): Core {
    match q
    case Once => c
    case Repeat(op, lazy) => Loop(c, Least(op), Most(op), lazy)
  }

  function AtomCore(d: Dialect, a: Atom, flags: set<char>, n: nat): Core {
    match a
    case Group(kind, body) =>
      (match kind
       case Capture => Cap(n, "", AltCore(d, body, flags, n + 1))
       case Named(name) => Cap(n, name, AltCore(d, body, flags, n + 1))
       case Scoped(on, off) => AltCore(d, body, Apply(flags, on, off), n))
    case _ => Unit(LeafOf(d, a), flags)
  }

  /** `n`: the number of the next capture group. */
  function CatCore(d: Dialect, c: Cat, flags: set<char>, n: nat): Core {
    match c
    case End => Nothing
    case Item(Flags(on, off), _, rest) => CatCore(d, rest, Apply(flags, on, off), n)
    case Item(a, q, rest) =>
      Then(Quantified(q, AtomCore(d, a, flags, n)), CatCore(d, rest, flags, n + Caps(a)))
  }

  /** The flags in force after an alternative: its flag groups reach the later alternatives. */
  function FlagsAfter(flags: set<char>, opens: seq<FlagSpec>): set<char>
    decreases |opens|
  {
    if opens == [] then flags else FlagsAfter(Apply(flags, opens[0].on, opens[0].off), opens[1..])
  }

  function AltCore(d: Dialect, a: Alt, flags: set<char>, n: nat): Core {
    match a
    case Only(c) => CatCore(d, c, flags, n)
    case Or(c, others) =>
      Either(CatCore(d, c, flags, n), AltCore(d, others, FlagsAfter(flags, Opened(c)), n + CapsCat(c)))
  }

  // ---- what a dialect accepts ----------------------------------------------------------

  predicate AllKnown(s: string) { forall i :: 0 <= i < |s| ==> s[i] == 'i' || s[i] == 'm' || s[i] == 's' }

  predicate Disjoint(on: string, off: string) { Letters(on) !! Letters(off) }

  /** Both engines know `i`, `m` and `s`; Python refuses a letter turned on and off at once. */
  predicate FlagsAccepted(d: Dialect, on: string, off: string) {
    AllKnown(on) && AllKnown(off) && (d.Python? ==> Disjoint(on, off))
  }

  predicate Ascii(c: char) { c as int < 128 }

  predicate AsciiLetter(c: char) { 'a' <= c <= 'z' || 'A' <= c <= 'Z' }

  /** The characters that stand for a control character after a backslash. */
  predicate ControlEscape(c: char) { c == 'a' || c == 'f' || c == 'n' || c == 'r' || c == 't' || c == 'v' }

  /** What may be escaped to stand for itself: ASCII punctuation, or for Python anything but an ASCII letter. */
  predicate EscapesItself(d: Dialect, c: char) {
    !AsciiLetter(c) && !('0' <= c <= '9') && (d.Re2? ==> Ascii(c))
  }

  predicate EscapeAccepted(d: Dialect, c: char) {
    || ControlEscape(c) || PerlLetter(c) || c == 'A' || c == 'b' || c == 'B' || c == (if d.Re2? then 'z' else 'Z')
    || EscapesItself(d, c)
  }

  predicate TokAccepted(d: Dialect, t: ClassTok) {
    t.Quoted? ==> ControlEscape(t.c) || PerlLetter(t.c) || EscapesItself(d, t.c) || (d.Python? && t.c == 'b')
  }

  predicate ToksAccepted(d: Dialect, toks: seq<ClassTok>) { forall i :: 0 <= i < |toks| ==> TokAccepted(d, toks[i]) }

  /** The characters that Python warns about when two of them stand in a row in a bracket expression. */
  predicate SetSign(t: ClassTok) { t == Plain('-') || t == Plain('&') || t == Plain('~') || t == Plain('|') }

  /**
   Python warns: a doubled sign where a member could start, but for the very first, or a range up to
   an unescaped `-`. A warning is an error to the loader.
   */
  predicate Doubled(toks: seq<ClassTok>, started: bool) {
    if toks == [] then false
    else if started && |toks| >= 2 && SetSign(toks[0]) && toks[1] == toks[0] then true
    else if |toks| >= 3 && toks[1] == Plain('-') && !toks[0].Posix? then toks[2] == Plain('-') || Doubled(toks[3..], true)
    else Doubled(toks[1..], true)
  }

  predicate StartsWithDigit(name: string) { name != "" && '0' <= name[0] <= '9' }

  /** Both want a name, and Python an identifier; Go's RE2 does not mind a digit in front, nor a name that stands twice. */
  predicate KindAccepted(d: Dialect, kind: Kind) {
    match kind
    case Capture => true
    case Named(name) => name != "" && (d.Python? ==> !StartsWithDigit(name))
    case Scoped(on, off) => FlagsAccepted(d, on, off)
  }

  /** RE2 counts to a thousand. */
  predicate QuantAccepted(d: Dialect, q: Quant) {
    q.Repeat? ==>
      && (Most(q.op).Some? ==> Least(q.op) <= Most(q.op).value)
      && (d.Re2? ==> Least(q.op) <= 1000 && (Most(q.op).Some? ==> Most(q.op).value <= 1000))
  }

  /** What only looks at a position: Python repeats nothing of the kind. */
  predicate Anchor(a: Atom) {
    match a
    case Lit(c) => c == '^' || c == '$'
    case Escape(c) => c == 'A' || c == 'b' || c == 'B' || c == 'z' || c == 'Z'
    case _ => false
  }

  predicate AtomAccepted(d: Dialect, a: Atom) {
    match a
    case Escape(c) => EscapeAccepted(d, c)
    case Class(_, bracket, toks) =>
      && Members(d, Inside(bracket, toks)).Some? && ToksAccepted(d, toks)
      && (d.Python? ==> !Doubled(Inside(bracket, toks), false))
    case Flags(on, off) => d.Re2? && FlagsAccepted(d, on, off)
    case Group(kind, body) => KindAccepted(d, kind) && AltAccepted(d, body)
    case _ => true
  }

  predicate CatAccepted(d: Dialect, c: Cat) {
    match c
    case End => true
    case Item(a, q, rest) =>
      && AtomAccepted(d, a) && QuantAccepted(d, q) && CatAccepted(d, rest)
      && (d.Python? && q.Repeat? ==> !Anchor(a))
  }

  predicate AltAccepted(d: Dialect, a: Alt) {
    match a
    case Only(c) => CatAccepted(d, c)
    case Or(c, others) => CatAccepted(d, c) && AltAccepted(d, others)
  }

  /** The names of a pattern's groups, left to right. */
  function NamesAtom(a: Atom): seq<string> {
    match a
    case Group(kind, body) => (if kind.Named? then [kind.name] else []) + Names(body)
    case _ => []
  }

  function NamesCat(c: Cat): seq<string> {
    match c
    case End => []
    case Item(a, _, rest) => NamesAtom(a) + NamesCat(rest)
  }

  function Names(a: Alt): seq<string> {
    match a
    case Only(c) => NamesCat(c)
    case Or(c, others) => NamesCat(c) + Names(others)
  }

  predicate Distinct(names: seq<string>) { forall i, j :: 0 <= i < j < |names| ==> names[i] != names[j] }

  /** A flag group stands only at position 0, where it only turns flags on; all else is accepted. */
  predicate UnitsAccepted(p: Alt) {
    if LeadsWithFlags(p) then
      var c := FirstCat(p);
      AllKnown(c.atom.on) && c.atom.off == "" && AltAccepted(Python, WithFirst(p, c.rest))
    else AltAccepted(Python, p)
  }

  /** What the loader gets past Python: no name may stand twice. */
  predicate PythonAccepts(p: Alt) { Distinct(Names(p)) && UnitsAccepted(p) }

  function PythonCore(p: Alt): Core {
    if LeadsWithFlags(p) then
      var c := FirstCat(p);
      AltCore(Python, WithFirst(p, c.rest), Apply({}, c.atom.on, c.atom.off), 1)
    else AltCore(Python, p, {}, 1)
  }

  function Re2Core(p: Alt): Core { AltCore(Re2, p, {}, 1) }

  /** Every unit of a pattern with the flags in force there, left to right. */
  function Leaves(c: Core): seq<(Leaf, set<char>)> {
    match c
    case Nothing => []
    case Unit(leaf, flags) => [(leaf, flags)]
    case Then(a, b) => Leaves(a) + Leaves(b)
    case Either(a, b) => Leaves(a) + Leaves(b)
    case Cap(_, _, body) => Leaves(body)
    case Loop(body, _, _, _) => Leaves(body)
  }

  // ---- matching ------------------------------------------------------------------------

  /** Where a unit ends when it matches at a position; any function will do. */
  type Matcher = (Leaf, set<char>, string, nat) -> Option<nat>

  datatype State = State(pos: nat, caps: map<nat, (nat, nat)>)

  function Left(text: string, st: State): nat { if st.pos <= |text| then |text| - st.pos else 0 }

  /** Every outcome of matching `c` from `st`, preferred ones first. */
  function Match(c: Core, m: Matcher, text: string, st: State): seq<State>
    decreases c, 0
  {
    match c
    case Nothing => [st]
    case Unit(leaf, flags) =>
      (match m(leaf, flags, text, st.pos)
       case None => []
       case Some(j) => if st.pos <= j <= |text| then [st.(pos := j)] else [])
    case Then(a, b) => MatchAll(b, m, text, Match(a, m, text, st))
    case Either(a, b) => Match(a, m, text, st) + Match(b, m, text, st)
    case Cap(index, _, body) => Mark(index, st.pos, Match(body, m, text, st))
    case Loop(body, min, max, lazy) => MatchLoop(body, min, max, lazy, m, text, st)
  }

  function MatchAll(c: Core, m: Matcher, text: string, sts: seq<State>): seq<State>
    decreases c, 1, |sts|
  {
    if sts == [] then [] else Match(c, m, text, sts[0]) + MatchAll(c, m, text, sts[1..])
  }

  function Mark(index: nat, start: nat, sts: seq<State>): seq<State> {
    if sts == [] then []
    else [sts[0].(caps := sts[0].caps[index := (start, sts[0].pos)])] + Mark(index, start, sts[1..])
  }

  /** After `min` rounds a further round has to advance. */
  function MatchLoop(c: Core, min: nat, max: Option<nat>, lazy: bool, m: Matcher, text: string, st: State): seq<State>
    decreases c, 2, min, Left(text, st), 1, 0
  {
    if max == Some(0) then [st]
    else
      var max' := match max case None => None case Some(k) => Some(k - 1);
      var limit := if min > 0 then |text| + 1 else Left(text, st);
      var more := LoopAll(c, if min > 0 then min - 1 else 0, max', lazy, m, text, limit, Match(c, m, text, st));
      if min > 0 then more else if lazy then [st] + more else more + [st]
  }

  function LoopAll(c: Core, min: nat, max: Option<nat>, lazy: bool, m: Matcher, text: string, limit: nat,
                   sts: seq<State>): seq<State>
    decreases c, 2, min, limit, 0, |sts|
  {
    if sts == [] then []
    else
      (if Left(text, sts[0]) < limit then MatchLoop(c, min, max, lazy, m, text, sts[0]) else [])
      + LoopAll(c, min, max, lazy, m, text, limit, sts[1..])
  }

  /** Two cores with the same outcomes, in the same order, with the same captures. */
  ghost predicate Alike(c: Core, d: Core, m: Matcher, text: string) {
    forall st :: Match(c, m, text, st) == Match(d, m, text, st)
  }

  lemma MatchAllAlike(c: Core, d: Core, m: Matcher, text: string, sts: seq<State>)
    requires Alike(c, d, m, text)
    ensures MatchAll(c, m, text, sts) == MatchAll(d, m, text, sts)
  {
    if sts != [] {
      MatchAllAlike(c, d, m, text, sts[1..]);
    }
  }

  lemma ThenAlike(a: Core, b: Core, a': Core, b': Core, m: Matcher, text: string)
    requires Alike(a, a', m, text) && Alike(b, b', m, text)
    ensures Alike(Then(a, b), Then(a', b'), m, text)
  {
    forall st ensures Match(Then(a, b), m, text, st) == Match(Then(a', b'), m, text, st) {
      MatchAllAlike(b, b', m, text, Match(a, m, text, st));
      assert Match(a, m, text, st) == Match(a', m, text, st);
    }
  }

  lemma MatchAllNothing(m: Matcher, text: string, sts: seq<State>)
    ensures MatchAll(Nothing, m, text, sts) == sts
  {
    if sts != [] {
      MatchAllNothing(m, text, sts[1..]);
      assert [sts[0]] + sts[1..] == sts;
    }
  }

  lemma ThenNothing(a: Core, m: Matcher, text: string)
    ensures Alike(Then(a, Nothing), a, m, text)
  {
    forall st ensures Match(Then(a, Nothing), m, text, st) == Match(a, m, text, st) {
      MatchAllNothing(m, text, Match(a, m, text, st));
    }
  }

  lemma LoopAllAlike(c: Core, d: Core, min: nat, max: Option<nat>, lazy: bool, m: Matcher, text: string,
                     limit: nat, sts: seq<State>)
    requires Alike(c, d, m, text)
    ensures LoopAll(c, min, max, lazy, m, text, limit, sts) == LoopAll(d, min, max, lazy, m, text, limit, sts)
    decreases min, limit, 0, |sts|
  {
    if sts != [] {
      if Left(text, sts[0]) < limit {
        MatchLoopAlike(c, d, min, max, lazy, m, text, sts[0]);
      }
      LoopAllAlike(c, d, min, max, lazy, m, text, limit, sts[1..]);
    }
  }

  lemma MatchLoopAlike(c: Core, d: Core, min: nat, max: Option<nat>, lazy: bool, m: Matcher, text: string, st: State)
    requires Alike(c, d, m, text)
    ensures MatchLoop(c, min, max, lazy, m, text, st) == MatchLoop(d, min, max, lazy, m, text, st)
    decreases min, Left(text, st), 1, 0
  {
    if max != Some(0) {
      var max' := match max case None => None case Some(k) => Some(k - 1);
      var limit := if min > 0 then |text| + 1 else Left(text, st);
      assert Match(c, m, text, st) == Match(d, m, text, st);
      LoopAllAlike(c, d, if min > 0 then min - 1 else 0, max', lazy, m, text, limit, Match(c, m, text, st));
    }
  }

  lemma QuantifiedAlike(q: Quant, c: Core, d: Core, m: Matcher, text: string)
    requires Alike(c, d, m, text)
    ensures Alike(Quantified(q, c), Quantified(q, d), m, text)
  {
    if q.Repeat? {
      forall st ensures Match(Quantified(q, c), m, text, st) == Match(Quantified(q, d), m, text, st) {
        MatchLoopAlike(c, d, Least(q.op), Most(q.op), q.lazy, m, text, st);
      }
    }
  }

  // ---- two unit matchers ------------------------------------------------------------------------

  ghost predicate AgreeOn(ls: seq<(Leaf, set<char>)>, m: Matcher, m': Matcher, text: string) {
    forall i, at: nat :: 0 <= i < |ls| ==> m(ls[i].0, ls[i].1, text, at) == m'(ls[i].0, ls[i].1, text, at)
  }

  lemma AgreeParts(xs: seq<(Leaf, set<char>)>, ys: seq<(Leaf, set<char>)>, m: Matcher, m': Matcher, text: string)
    requires AgreeOn(xs + ys, m, m', text)
    ensures AgreeOn(xs, m, m', text) && AgreeOn(ys, m, m', text)
  {
    assert forall i :: 0 <= i < |xs| ==> (xs + ys)[i] == xs[i];
    assert forall i :: 0 <= i < |ys| ==> (xs + ys)[|xs| + i] == ys[i];
  }

  /** Outcomes depend on the matcher only through the pattern's own units. */
  lemma {:induction false} MatchAgree(c: Core, m: Matcher, m': Matcher, text: string, st: State)
    requires AgreeOn(Leaves(c), m, m', text)
    ensures Match(c, m, text, st) == Match(c, m', text, st)
    decreases c, 0
  {
    match c
    case Nothing =>
    case Unit(leaf, flags) =>
      assert Leaves(c)[0] == (leaf, flags);
    case Then(a, b) =>
      AgreeParts(Leaves(a), Leaves(b), m, m', text);
      MatchAgree(a, m, m', text, st);
      MatchAllAgree(b, m, m', text, Match(a, m, text, st));
    case Either(a, b) =>
      AgreeParts(Leaves(a), Leaves(b), m, m', text);
      MatchAgree(a, m, m', text, st);
      MatchAgree(b, m, m', text, st);
    case Cap(_, _, body) => MatchAgree(body, m, m', text, st);
    case Loop(body, min, max, lazy) => MatchLoopAgree(body, min, max, lazy, m, m', text, st);
  }

  lemma {:induction false} MatchAllAgree(c: Core, m: Matcher, m': Matcher, text: string, sts: seq<State>)
    requires AgreeOn(Leaves(c), m, m', text)
    ensures MatchAll(c, m, text, sts) == MatchAll(c, m', text, sts)
    decreases c, 1, |sts|
  {
    if sts != [] {
      MatchAgree(c, m, m', text, sts[0]);
      MatchAllAgree(c, m, m', text, sts[1..]);
    }
  }

  lemma {:induction false} MatchLoopAgree(c: Core, min: nat, max: Option<nat>, lazy: bool, m: Matcher, m': Matcher,
                                         text: string, st: State)
    requires AgreeOn(Leaves(c), m, m', text)
    ensures MatchLoop(c, min, max, lazy, m, text, st) == MatchLoop(c, min, max, lazy, m', text, st)
    decreases c, 2, min, Left(text, st), 1, 0
  {
    if max != Some(0) {
      var max' := match max case None => None case Some(k) => Some(k - 1);
      var limit := if min > 0 then |text| + 1 else Left(text, st);
      MatchAgree(c, m, m', text, st);
      LoopAllAgree(c, if min > 0 then min - 1 else 0, max', lazy, m, m', text, limit, Match(c, m, text, st));
    }
  }

  lemma {:induction false} LoopAllAgree(c: Core, min: nat, max: Option<nat>, lazy: bool, m: Matcher, m': Matcher,
                                       text: string, limit: nat, sts: seq<State>)
    requires AgreeOn(Leaves(c), m, m', text)
    ensures LoopAll(c, min, max, lazy, m, text, limit, sts) == LoopAll(c, min, max, lazy, m', text, limit, sts)
    decreases c, 2, min, limit, 0, |sts|
  {
    if sts != [] {
      if Left(text, sts[0]) < limit { MatchLoopAgree(c, min, max, lazy, m, m', text, sts[0]); }
      LoopAllAgree(c, min, max, lazy, m, m', text, limit, sts[1..]);
    }
  }
}
