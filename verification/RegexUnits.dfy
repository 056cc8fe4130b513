/** How each engine reads one unit of a pattern, and on which texts both read it alike. */
module RegexUnits {
  import opened Basics
  import opened PyText
  import opened RegexSyntax
  import opened RegexMeaning

  /**
   What the engines' own tables say: decimal digits and letters beyond ASCII, equality up to case when
   one side is beyond ASCII, and whether `\B` holds in an empty text, as it does in Python from 3.14 on.
   */
  datatype Tables = Tables(decimal: char -> bool, alnum: char -> bool, same: (Dialect, char, char) -> bool, emptyInside: bool)

  // ---- one character ---------------------------------------------------------------------

  function Lower(c: char): char { if 'A' <= c <= 'Z' then (c as int + 32) as char else c }

  predicate SameChar(d: Dialect, t: Tables, flags: set<char>, x: char, c: char) {
    x == c || ('i' in flags && if Ascii(x) && Ascii(c) then Lower(x) == Lower(c) else t.same(d, x, c))
  }

  predicate IsDigit(d: Dialect, t: Tables, c: char) { '0' <= c <= '9' || (d.Python? && !Ascii(c) && t.decimal(c)) }

  /** RE2's `\s` has no vertical tab; Python's is `str.isspace`. */
  predicate IsSpace(d: Dialect, c: char) {
    match d
    case Re2 => c == '\t' || c == '\n' || c as int == 12 || c == '\r' || c == ' '
    case Python => IsPySpace(c)
  }

  /** The long s and the Kelvin sign fold to ASCII letters, so RE2's folded `\w` has them. */
  predicate FoldsToAscii(c: char) { c as int == 0x17F || c as int == 0x212A }

  predicate IsWord(d: Dialect, t: Tables, flags: set<char>, c: char) {
    WordChar(c) || (!Ascii(c) && match d case Re2 => 'i' in flags && FoldsToAscii(c) case Python => t.alnum(c))
  }

  predicate Perl(d: Dialect, t: Tables, flags: set<char>, k: char, c: char) {
    if k == 'd' then IsDigit(d, t, c) else if k == 'D' then !IsDigit(d, t, c)
    else if k == 's' then IsSpace(d, c) else if k == 'S' then !IsSpace(d, c)
    else if k == 'w' then IsWord(d, t, flags, c) else !IsWord(d, t, flags, c)
  }

  predicate Within(lo: int, c: char, hi: int) { lo <= c as int <= hi }

  ghost predicate InRange(d: Dialect, t: Tables, flags: set<char>, lo: int, hi: int, c: char) {
    exists x: char :: Within(lo, x, hi) && SameChar(d, t, flags, x, c)
  }

  ghost predicate MemberHolds(d: Dialect, t: Tables, flags: set<char>, x: Member, c: char)
    decreases x, 0
  {
    match x
    case One(tok) => if PerlClass(tok) then Perl(d, t, flags, tok.c, c) else InRange(d, t, flags, TokValue(tok), TokValue(tok), c)
    case Span(lo, hi) => InRange(d, t, flags, TokValue(lo), TokValue(hi), c)
    case Not(ys) => !AnyHolds(d, t, flags, ys, c)
  }

  ghost predicate AnyHolds(d: Dialect, t: Tables, flags: set<char>, xs: seq<Member>, c: char)
    decreases xs, 1
  {
    exists i :: 0 <= i < |xs| && MemberHolds(d, t, flags, xs[i], c)
  }

  function EscapedChar(k: char): char {
    if k == 'n' then '\n' else if k == 't' then '\t' else if k == 'r' then '\r'
    else if k == 'f' then 12 as char else if k == 'v' then 11 as char else if k == 'a' then 7 as char else k
  }

  function CodeChar(hi: char, lo: char): char {
    if HexDigit(hi) && HexDigit(lo) then (16 * HexValue(hi) + HexValue(lo)) as char else '\0'
  }

  /** The units that take one character. */
  ghost predicate Takes(d: Dialect, t: Tables, leaf: Leaf, flags: set<char>, c: char) {
    match leaf
    case Letter(x) => if x == '.' then c != '\n' || 's' in flags else SameChar(d, t, flags, x, c)
    case Escaped(k) => if PerlLetter(k) then Perl(d, t, flags, k, c) else SameChar(d, t, flags, EscapedChar(k), c)
    case Code(hi, lo) => SameChar(d, t, flags, CodeChar(hi, lo), c)
    case SetLeaf(negated, xs) => AnyHolds(d, t, flags, xs, c) != negated
    case _ => false
  }

  // ---- a position --------------------------------------------------------------------------

  predicate ZeroWidth(leaf: Leaf) {
    match leaf
    case Letter(c) => c == '^' || c == '$'
    case Escaped(k) => k == 'A' || k == 'b' || k == 'B'
    case EndOfText => true
    case _ => false
  }

  predicate WordAt(d: Dialect, t: Tables, text: string, k: int) { 0 <= k < |text| && IsWord(d, t, {}, text[k]) }

  predicate Boundary(d: Dialect, t: Tables, text: string, at: nat) { WordAt(d, t, text, at - 1) != WordAt(d, t, text, at) }

  /** RE2's `$` is the end of the text; Python's is also in front of a newline that ends it. */
  predicate Stands(d: Dialect, t: Tables, leaf: Leaf, flags: set<char>, text: string, at: nat)
    requires at <= |text|
  {
    match leaf
    case Letter(c) =>
      if c == '^' then at == 0 || ('m' in flags && text[at - 1] == '\n')
      else at == |text| || (text[at] == '\n' && ('m' in flags || (d.Python? && at + 1 == |text|)))
    case Escaped(k) =>
      if k == 'A' then at == 0
      else if k == 'b' then Boundary(d, t, text, at)
      else !Boundary(d, t, text, at) && (text != "" || d.Re2? || t.emptyInside)
    case _ => at == |text|
  }

  /** Where a unit ends when it matches at a position. */
  ghost function Reads(d: Dialect, t: Tables, leaf: Leaf, flags: set<char>, text: string, at: nat): Option<nat> {
    if at > |text| then None
    else if ZeroWidth(leaf) then (if Stands(d, t, leaf, flags, text, at) then Some(at) else None)
    else if at < |text| && Takes(d, t, leaf, flags, text[at]) then Some(at + 1)
    else None
  }

  ghost function Engine(d: Dialect, t: Tables): Matcher {
    (leaf: Leaf, flags: set<char>, text: string, at: nat) => Reads(d, t, leaf, flags, text, at)
  }

  // ---- where both read alike ------------------------------------------------------------------

  ghost predicate ReadAlike(t: Tables, leaf: Leaf, flags: set<char>, text: string) {
    forall at: nat :: Reads(Re2, t, leaf, flags, text, at) == Reads(Python, t, leaf, flags, text, at)
  }

  predicate OddDigit(t: Tables, c: char) { !Ascii(c) && t.decimal(c) }

  /** The vertical tab, the four separators below the space, and spaces beyond ASCII. */
  predicate OddSpace(c: char) { c as int == 11 || 28 <= c as int <= 31 || (!Ascii(c) && IsPySpace(c)) }

  predicate OddWord(t: Tables, flags: set<char>, c: char) { !Ascii(c) && t.alnum(c) != ('i' in flags && FoldsToAscii(c)) }

  predicate OddPerl(t: Tables, flags: set<char>, k: char, c: char) {
    if k == 'd' || k == 'D' then OddDigit(t, c) else if k == 's' || k == 'S' then OddSpace(c) else OddWord(t, flags, c)
  }

  /** Letters that only one engine takes for the same up to case. */
  predicate OddFold(t: Tables, flags: set<char>, x: char, c: char) {
    'i' in flags && x != c && !(Ascii(x) && Ascii(c)) && t.same(Re2, x, c) != t.same(Python, x, c)
  }

  /** A letter of the range, not both ASCII, that an engine takes for the same up to case. */
  ghost predicate FoldsInto(d: Dialect, t: Tables, lo: int, hi: int, c: char) {
    exists x: char :: Within(lo, x, hi) && !(Ascii(x) && Ascii(c)) && t.same(d, x, c)
  }

  /** An ASCII letter of the range that is the other case of this one. */
  ghost predicate AsciiInto(lo: int, hi: int, c: char) {
    exists x: char :: Within(lo, x, hi) && Ascii(x) && Ascii(c) && Lower(x) == Lower(c)
  }

  ghost predicate OddRange(t: Tables, flags: set<char>, lo: int, hi: int, c: char) {
    'i' in flags && !Within(lo, c, hi) && !AsciiInto(lo, hi, c) && FoldsInto(Re2, t, lo, hi, c) != FoldsInto(Python, t, lo, hi, c)
  }

  ghost predicate OddMember(t: Tables, flags: set<char>, x: Member, c: char)
    decreases x, 0
  {
    match x
    case One(tok) => if PerlClass(tok) then OddPerl(t, flags, tok.c, c) else OddRange(t, flags, TokValue(tok), TokValue(tok), c)
    case Span(lo, hi) => OddRange(t, flags, TokValue(lo), TokValue(hi), c)
    case Not(ys) => OddInSet(t, flags, ys, c)
  }

  /** Some member has the character for this engine only. */
  ghost predicate Alone(d: Dialect, t: Tables, flags: set<char>, xs: seq<Member>, c: char)
    decreases xs, 1
  {
    exists i :: 0 <= i < |xs| && OddMember(t, flags, xs[i], c) && MemberHolds(d, t, flags, xs[i], c)
  }

  /** No member has the character for both engines, and only one engine has it by some member. */
  ghost predicate OddInSet(t: Tables, flags: set<char>, xs: seq<Member>, c: char)
    decreases xs, 2
  {
    && (forall i :: 0 <= i < |xs| && MemberHolds(Re2, t, flags, xs[i], c) ==> OddMember(t, flags, xs[i], c))
    && (Alone(Re2, t, flags, xs, c) <==> !Alone(Python, t, flags, xs, c))
  }

  /** A character on which the engines part over a unit that takes one. */
  ghost predicate Odd(t: Tables, leaf: Leaf, flags: set<char>, c: char) {
    match leaf
    case Letter(x) => x != '.' && OddFold(t, flags, x, c)
    case Escaped(k) => if PerlLetter(k) then OddPerl(t, flags, k, c) else OddFold(t, flags, EscapedChar(k), c)
    case Code(hi, lo) => OddFold(t, flags, CodeChar(hi, lo), c)
    case SetLeaf(_, xs) => OddInSet(t, flags, xs, c)
    case _ => false
  }

  predicate EndsInNewline(text: string) { text != "" && text[|text| - 1] == '\n' }

  /** What a text must not be, or hold, for a unit to be read alike. */
  ghost predicate Settled(t: Tables, leaf: Leaf, flags: set<char>, text: string) {
    if leaf == Letter('$') then 'm' in flags || !EndsInNewline(text)
    else if leaf == Escaped('b') then forall k :: 0 <= k < |text| ==> !OddWord(t, {}, text[k])
    else if leaf == Escaped('B') then (text != "" || t.emptyInside) && forall k :: 0 <= k < |text| ==> !OddWord(t, {}, text[k])
    else ZeroWidth(leaf) || forall k :: 0 <= k < |text| ==> !Odd(t, leaf, flags, text[k])
  }

  lemma OddRangeIff(t: Tables, flags: set<char>, lo: int, hi: int, c: char)
    ensures OddRange(t, flags, lo, hi, c) <==> InRange(Re2, t, flags, lo, hi, c) != InRange(Python, t, flags, lo, hi, c)
  {
    RangeParts(Re2, t, flags, lo, hi, c);
    RangeParts(Python, t, flags, lo, hi, c);
    hide InRange, FoldsInto, AsciiInto;
  }

  lemma RangeParts(d: Dialect, t: Tables, flags: set<char>, lo: int, hi: int, c: char)
    ensures InRange(d, t, flags, lo, hi, c) <==>
              Within(lo, c, hi) || ('i' in flags && (AsciiInto(lo, hi, c) || FoldsInto(d, t, lo, hi, c)))
  {
    if Within(lo, c, hi) { assert SameChar(d, t, flags, c, c); }
    if InRange(d, t, flags, lo, hi, c) {
      var x: char :| Within(lo, x, hi) && SameChar(d, t, flags, x, c);
      if x != c && Ascii(x) && Ascii(c) { assert Lower(x) == Lower(c); }
    }
    if 'i' in flags && AsciiInto(lo, hi, c) {
      var x: char :| Within(lo, x, hi) && Ascii(x) && Ascii(c) && Lower(x) == Lower(c);
      assert SameChar(d, t, flags, x, c);
    }
    if 'i' in flags && FoldsInto(d, t, lo, hi, c) {
      var x: char :| Within(lo, x, hi) && !(Ascii(x) && Ascii(c)) && t.same(d, x, c);
      assert SameChar(d, t, flags, x, c);
    }
  }

  lemma OddPerlIff(t: Tables, flags: set<char>, k: char, c: char)
    requires PerlLetter(k)
    ensures OddPerl(t, flags, k, c) <==> Perl(Re2, t, flags, k, c) != Perl(Python, t, flags, k, c)
  {
  }

  lemma OddMemberIff(t: Tables, flags: set<char>, x: Member, c: char)
    ensures OddMember(t, flags, x, c) <==> MemberHolds(Re2, t, flags, x, c) != MemberHolds(Python, t, flags, x, c)
    decreases x, 0
  {
    match x
    case One(tok) =>
      if PerlClass(tok) { OddPerlIff(t, flags, tok.c, c); } else { OddRangeIff(t, flags, TokValue(tok), TokValue(tok), c); }
    case Span(lo, hi) => OddRangeIff(t, flags, TokValue(lo), TokValue(hi), c);
    case Not(ys) => OddSetIff(t, flags, ys, c);
  }

  lemma OddSetIff(t: Tables, flags: set<char>, xs: seq<Member>, c: char)
    ensures OddInSet(t, flags, xs, c) <==> AnyHolds(Re2, t, flags, xs, c) != AnyHolds(Python, t, flags, xs, c)
    decreases xs, 1
  {
    hide OddMember, MemberHolds;
    forall i | 0 <= i < |xs|
      ensures OddMember(t, flags, xs[i], c) <==> MemberHolds(Re2, t, flags, xs[i], c) != MemberHolds(Python, t, flags, xs[i], c)
    {
      OddMemberIff(t, flags, xs[i], c);
    }
  }

  lemma OddIff(t: Tables, leaf: Leaf, flags: set<char>, c: char)
    ensures Odd(t, leaf, flags, c) <==> Takes(Re2, t, leaf, flags, c) != Takes(Python, t, leaf, flags, c)
  {
    match leaf
    case SetLeaf(_, xs) => OddSetIff(t, flags, xs, c);
    case _ =>
    hide AnyHolds, OddInSet;
  }

  lemma DollarIff(t: Tables, flags: set<char>, text: string)
    ensures ReadAlike(t, Letter('$'), flags, text) <==> Settled(t, Letter('$'), flags, text)
  {
    var leaf := Letter('$');
    if 'm' !in flags && EndsInNewline(text) {
      var at: nat := |text| - 1;
      assert Reads(Re2, t, leaf, flags, text, at) != Reads(Python, t, leaf, flags, text, at);
    }
  }

  lemma WordsAgree(t: Tables, text: string, k: int)
    ensures WordAt(Re2, t, text, k) == WordAt(Python, t, text, k) <==> !(0 <= k < |text| && OddWord(t, {}, text[k]))
  {
  }

  /** Boundaries agree everywhere only if the characters do, one after the other. */
  lemma {:induction false} BoundariesTell(t: Tables, text: string, k: nat)
    requires k < |text| && forall at :: 0 <= at <= |text| ==> Boundary(Re2, t, text, at) == Boundary(Python, t, text, at)
    ensures WordAt(Re2, t, text, k) == WordAt(Python, t, text, k)
  {
    hide WordAt;
    assert Boundary(Re2, t, text, k) == Boundary(Python, t, text, k);
    if k > 0 {
      BoundariesTell(t, text, k - 1);
    } else {
      BeforeText(t, text);
    }
  }

  lemma BeforeText(t: Tables, text: string)
    ensures !WordAt(Re2, t, text, -1) && !WordAt(Python, t, text, -1)
  {
  }

  ghost predicate NoOddWord(t: Tables, text: string) { forall k :: 0 <= k < |text| ==> !OddWord(t, {}, text[k]) }

  lemma BoundariesIff(t: Tables, text: string)
    ensures (forall at :: 0 <= at <= |text| ==> Boundary(Re2, t, text, at) == Boundary(Python, t, text, at)) <==> NoOddWord(t, text)
  {
    if forall at :: 0 <= at <= |text| ==> Boundary(Re2, t, text, at) == Boundary(Python, t, text, at) {
      forall k | 0 <= k < |text| ensures !OddWord(t, {}, text[k]) {
        BoundariesTell(t, text, k);
        WordsAgree(t, text, k);
      }
    }
    if NoOddWord(t, text) {
      forall at | 0 <= at <= |text| ensures Boundary(Re2, t, text, at) == Boundary(Python, t, text, at) {
        WordsAgree(t, text, at - 1);
        WordsAgree(t, text, at);
      }
    }
  }

  lemma WordBoundaryIff(t: Tables, flags: set<char>, text: string, k: char)
    requires k == 'b' || k == 'B'
    ensures ReadAlike(t, Escaped(k), flags, text) <==> Settled(t, Escaped(k), flags, text)
  {
    BoundariesIff(t, text);
    if k == 'B' && text == "" { EmptyHasNoBoundary(t); }
    hide Boundary, OddWord;
    var leaf := Escaped(k);
    if ReadAlike(t, leaf, flags, text) {
      forall at | 0 <= at <= |text| ensures Boundary(Re2, t, text, at) == Boundary(Python, t, text, at) {
        assert Reads(Re2, t, leaf, flags, text, at) == Reads(Python, t, leaf, flags, text, at);
      }
      if text == "" { assert Reads(Re2, t, leaf, flags, text, 0) == Reads(Python, t, leaf, flags, text, 0); }
    } else {
      var at: nat :| Reads(Re2, t, leaf, flags, text, at) != Reads(Python, t, leaf, flags, text, at);
      assert Stands(Re2, t, leaf, flags, text, at) != Stands(Python, t, leaf, flags, text, at);
    }
  }

  lemma EmptyHasNoBoundary(t: Tables)
    ensures !Boundary(Re2, t, "", 0) && !Boundary(Python, t, "", 0)
  {
  }

  /** For each unit: both engines read it alike everywhere in a text if and only if the text is settled for it. */
  lemma ReadAlikeIff(t: Tables, leaf: Leaf, flags: set<char>, text: string)
    ensures ReadAlike(t, leaf, flags, text) <==> Settled(t, leaf, flags, text)
  {
    if leaf == Letter('$') {
      DollarIff(t, flags, text);
    } else if leaf == Escaped('b') || leaf == Escaped('B') {
      WordBoundaryIff(t, flags, text, leaf.c);
    } else if !ZeroWidth(leaf) {
      TakingIff(t, leaf, flags, text);
    }
  }

  lemma TakingIff(t: Tables, leaf: Leaf, flags: set<char>, text: string)
    requires !ZeroWidth(leaf)
    ensures ReadAlike(t, leaf, flags, text) <==> forall k :: 0 <= k < |text| ==> !Odd(t, leaf, flags, text[k])
  {
    hide Takes, Odd, ZeroWidth;
    forall k | 0 <= k < |text| ensures Odd(t, leaf, flags, text[k]) <==> Takes(Re2, t, leaf, flags, text[k]) != Takes(Python, t, leaf, flags, text[k]) {
      OddIff(t, leaf, flags, text[k]);
    }
    if ReadAlike(t, leaf, flags, text) {
      forall k: nat | k < |text| ensures !Odd(t, leaf, flags, text[k]) {
        assert Reads(Re2, t, leaf, flags, text, k) == Reads(Python, t, leaf, flags, text, k);
      }
    }
  }

  // ---- texts that settle every unit ------------------------------------------------------------

  /** ASCII, without a vertical tab or the separators, not empty and not ending in a newline. */
  predicate PlainText(text: string) {
    text != "" && !EndsInNewline(text) && forall k :: 0 <= k < |text| ==> Ascii(text[k]) && !OddSpace(text[k])
  }

  predicate AsciiMember(x: Member)
    decreases x
  {
    match x
    case One(tok) => PerlClass(tok) || TokValue(tok) < 128
    case Span(_, hi) => TokValue(hi) < 128
    case Not(ys) => forall i :: 0 <= i < |ys| ==> AsciiMember(ys[i])
  }

  /** A unit without a letter beyond ASCII that could be folded. */
  predicate PlainUnit(leaf: Leaf, flags: set<char>) {
    'i' in flags ==>
      match leaf
      case Letter(x) => Ascii(x)
      case Escaped(k) => Ascii(k)
      case Code(hi, lo) => Ascii(CodeChar(hi, lo))
      case SetLeaf(_, xs) => forall i :: 0 <= i < |xs| ==> AsciiMember(xs[i])
      case _ => true
  }

  lemma PlainMember(t: Tables, flags: set<char>, x: Member, c: char)
    requires Ascii(c) && !OddSpace(c) && ('i' in flags ==> AsciiMember(x))
    ensures !OddMember(t, flags, x, c)
    decreases x, 0
  {
    if x.Not? { PlainSet(t, flags, x.members, c); }
  }

  lemma PlainSet(t: Tables, flags: set<char>, xs: seq<Member>, c: char)
    requires Ascii(c) && !OddSpace(c) && ('i' in flags ==> forall i :: 0 <= i < |xs| ==> AsciiMember(xs[i]))
    ensures !OddInSet(t, flags, xs, c)
    decreases xs, 1
  {
    hide OddMember, MemberHolds, AsciiMember, OddSpace;
    forall i | 0 <= i < |xs| ensures !OddMember(t, flags, xs[i], c) { PlainMember(t, flags, xs[i], c); }
  }

  /** Every unit is settled on a plain text. */
  lemma PlainSettles(t: Tables, leaf: Leaf, flags: set<char>, text: string)
    requires PlainText(text) && PlainUnit(leaf, flags)
    ensures Settled(t, leaf, flags, text)
  {
    forall k | 0 <= k < |text| ensures !Odd(t, leaf, flags, text[k]) && !OddWord(t, {}, text[k]) {
      if leaf.SetLeaf? { PlainSet(t, flags, leaf.members, text[k]); }
    }
  }
}
