/**
 The translation keeps the meaning, tree by tree. An alternative translated with some flag
 groups open, read by Python, has the leaves of the original read by RE2, flags included,
 exactly when nothing in it is misread (`AltLeaves`); and then both match alike, outcome by
 outcome and capture by capture (`AltAlike`). `RegexConversion` has the main result.
 */
module RegexCorrectness {
  import opened Basics
  import opened RegexSyntax
  import opened RegexScan
  import opened RegexTranslation
  import opened RegexMeaning
  import opened RegexClasses

  // ---- when the translation is faithful ----------------------------------------------

  predicate ConvertibleKind(kind: Kind) {
    match kind
    case Capture => true
    case Named(name) => !StartsWithDigit(name)
    case Scoped(on, off) => Disjoint(on, off)
  }

  predicate ConvertibleAtom(a: Atom) {
    match a
    case Class(_, bracket, toks) => !Hazard(Inside(bracket, toks)) && !Doubled(Inside(bracket, toks), false)
    case Flags(on, off) => Disjoint(on, off)
    case Group(kind, body) => ConvertibleKind(kind) && ConvertibleAlt(body)
    case _ => true
  }

  predicate ConvertibleCat(c: Cat) {
    match c
    case End => true
    case Item(a, q, rest) => ConvertibleAtom(a) && ConvertibleCat(rest) && (q.Repeat? ==> !Anchor(a))
  }

  predicate ConvertibleAlt(a: Alt) {
    match a
    case Only(c) => ConvertibleCat(c)
    case Or(c, others) => ConvertibleCat(c) && ConvertibleAlt(others)
  }

  /** A flag group at position 0 only turns flags on; nothing else Python would refuse or misread. */
  predicate ConvertibleUnits(p: Alt) {
    if LeadsWithFlags(p) then FirstCat(p).atom.off == "" && ConvertibleAlt(WithFirst(p, FirstCat(p).rest)) else ConvertibleAlt(p)
  }

  /** And every named class is one the scanner knows, and no group name stands twice. */
  predicate Convertible(p: Alt) { UnknownAlt(p).None? && Distinct(Names(p)) && ConvertibleUnits(p) }

  predicate Nice(open: seq<FlagSpec>) {
    forall i :: 0 <= i < |open| ==> Disjoint(open[i].on, open[i].off)
  }

  predicate Known(open: seq<FlagSpec>) {
    forall i :: 0 <= i < |open| ==> AllKnown(open[i].on) && AllKnown(open[i].off)
  }

  lemma ExpandInside(bracket: bool, toks: seq<ClassTok>)
    ensures ExpandToks(Inside(bracket, toks)) == Inside(bracket, ExpandToks(toks))
    ensures UnknownTok(Inside(bracket, toks)) == UnknownTok(toks)
  {
    assert bracket ==> Inside(bracket, toks)[1..] == toks;
  }

  // ---- the translated tree is a pattern -------------------------------------------------

  lemma ExpandedOk(toks: seq<ClassTok>)
    requires forall i :: 0 <= i < |toks| ==> TokOk(toks[i])
    ensures forall i :: 0 <= i < |ExpandToks(toks)| ==> TokOk(ExpandToks(toks)[i])
  {
    if toks != [] {
      ExpandedOk(toks[1..]);
      if toks[0].Posix? && PosixText(toks[0].name).Some? {
        PosixTextPlain(toks[0].name);
      }
    }
  }

  lemma PosixTextPlain(name: string)
    requires PosixText(name).Some?
    ensures forall i :: 0 <= i < |PosixText(name).value| ==> TokOk(Plain(PosixText(name).value[i]))
    ensures PosixText(name).value != "" && PosixText(name).value[0] != '^'
  {
  }

  lemma AtomToPythonOk(a: Atom)
    requires AtomOk(a) && !a.Flags? && UnknownAtom(a).None?
    ensures AtomOk(AtomToPython(a)) && !AtomToPython(a).Flags?
    decreases a, 0
  {
    match a
    case Class(negated, bracket, toks) =>
      ExpandedOk(toks);
      if toks != [] {
        ExpandedHead(toks);
        if toks[0].Posix? {
          PosixTextPlain(toks[0].name);
          assert ExpandToks(toks)[0] == Plain(PosixText(toks[0].name).value[0]);
        }
      }
    case Group(kind, body) => AltToPythonOk(body, []);
    case _ =>
  }

  lemma CatToPythonOk(c: Cat)
    requires CatOk(c) && UnknownCat(c).None?
    ensures CatOk(CatToPython(c))
    decreases c, 0
  {
    match c
    case End =>
    case Item(Flags(on, off), _, rest) =>
      CatToPythonOk(rest);
      ScopeOk(FlagSpec(on, off), CatToPython(rest));
    case Item(a, _, rest) =>
      CatToPythonOk(rest);
      AtomToPythonOk(a);
  }

  lemma ScopeOk(f: FlagSpec, c: Cat)
    requires CatOk(c) && KindOk(Scoped(f.on, f.off))
    ensures CatOk(Scope(f, c))
  {
    assert AltOk(Only(c));
    assert AtomOk(Group(Scoped(f.on, f.off), Only(c)));
  }

  predicate OpenOk(open: seq<FlagSpec>) {
    forall i :: 0 <= i < |open| ==> KindOk(Scoped(open[i].on, open[i].off))
  }

  lemma OpenedOk(c: Cat)
    requires CatOk(c)
    ensures OpenOk(Opened(c))
  {
  }

  lemma WrapOk(open: seq<FlagSpec>, c: Cat)
    requires OpenOk(open) && CatOk(c)
    ensures CatOk(Wrap(open, c))
  {
    if open != [] {
      WrapOk(open[1..], c);
      ScopeOk(open[0], Wrap(open[1..], c));
    }
  }

  lemma AltToPythonOk(a: Alt, open: seq<FlagSpec>)
    requires AltOk(a) && UnknownAlt(a).None? && OpenOk(open)
    ensures AltOk(AltToPython(a, open))
    decreases a, 0
  {
    match a
    case Only(c) =>
      CatToPythonOk(c);
      WrapOk(open, CatToPython(c));
    case Or(c, others) =>
      CatToPythonOk(c);
      WrapOk(open, CatToPython(c));
      OpenedOk(c);
      AltToPythonOk(others, open + Opened(c));
  }

  lemma ToPythonOk(p: Alt)
    requires AltOk(p) && UnknownAlt(p).None?
    ensures AltOk(ToPython(p))
  {
    if LeadsWithFlags(p) {
      assert UnknownAtom(FirstCat(p).atom).None?;
      AltToPythonOk(WithFirst(p, FirstCat(p).rest), []);
    } else {
      AltToPythonOk(p, []);
    }
  }

  // ---- the flags in force ------------------------------------------------------------------

  lemma FlagsAfterAppend(flags: set<char>, a: seq<FlagSpec>, b: seq<FlagSpec>)
    ensures FlagsAfter(flags, a + b) == FlagsAfter(FlagsAfter(flags, a), b)
    decreases |a|
  {
    if a == [] {
      assert a + b == b;
    } else {
      assert (a + b)[1..] == a[1..] + b;
      FlagsAfterAppend(Apply(flags, a[0].on, a[0].off), a[1..], b);
    }
  }

  /** Nothing stays open across `|` in a translated alternative. */
  lemma NothingOpened(open: seq<FlagSpec>, c: Cat)
    ensures Opened(CatToPython(c)) == []
    ensures Opened(Wrap(open, CatToPython(c))) == []
  {
    OpenedNone(c);
  }

  lemma OpenedNone(c: Cat)
    ensures Opened(CatToPython(c)) == []
  {
    match c
    case End =>
    case Item(Flags(_, _), _, _) =>
    case Item(a, _, rest) =>
      OpenedNone(rest);
      assert !AtomToPython(a).Flags?;
  }

  lemma ScopeCore(f: FlagSpec, c: Cat, flags: set<char>, n: nat)
    ensures CatCore(Python, Scope(f, c), flags, n) == Then(CatCore(Python, c, Apply(flags, f.on, f.off), n), Nothing)
  {
    var g := Group(Scoped(f.on, f.off), Only(c));
    assert AtomCore(Python, g, flags, n) == AltCore(Python, Only(c), Apply(flags, f.on, f.off), n);
  }

  // ---- same units under the same flags, exactly when convertible --------------------------------

  lemma {:induction false} ExpandedAccepted(toks: seq<ClassTok>)
    requires ToksAccepted(Re2, toks)
    ensures ToksAccepted(Python, ExpandToks(toks))
  {
    hide Members, Hazard;
    if toks != [] {
      assert forall i :: 0 <= i < |toks[1..]| ==> toks[1..][i] == toks[i + 1];
      ExpandedAccepted(toks[1..]);
      assert TokAccepted(Re2, toks[0]);
    }
  }

  /** One unit that is not a group. */
  lemma LeafAlike(a: Atom)
    requires !a.Group? && !a.Flags? && AtomOk(a) && AtomAccepted(Re2, a) && UnknownAtom(a).None?
    ensures AtomAccepted(Python, AtomToPython(a)) && LeafOf(Python, AtomToPython(a)) == LeafOf(Re2, a)
       <==> ConvertibleAtom(a)
  {
    match a
    case Class(negated, bracket, toks) =>
      ExpandInside(bracket, toks);
      ReadsAlike(Inside(bracket, toks));
      ExpandedAccepted(toks);
      if !Hazard(Inside(bracket, toks)) { DoubledAlike(Inside(bracket, toks), false); }
      hide Members, Hazard, Doubled, ToksAccepted, ExpandToks, Inside;
    case _ =>
  }

  lemma AppendEqual<T>(a: seq<T>, b: seq<T>, c: seq<T>, d: seq<T>)
    requires |a| == |c|
    ensures a + b == c + d <==> a == c && b == d
  {
    if a + b == c + d {
      assert a == (a + b)[..|a|] && b == (a + b)[|a|..];
      assert c == (c + d)[..|c|] && d == (c + d)[|c|..];
    }
  }

  lemma QuantifiedLeaves(q: Quant, c: Core)
    ensures Leaves(Quantified(q, c)) == Leaves(c)
  {
  }

  lemma {:induction false} AtomLeaves(a: Atom, flags: set<char>, n: nat, k: nat)
    requires !a.Flags? && AtomOk(a) && AtomAccepted(Re2, a) && UnknownAtom(a).None?
    ensures var py, re := Leaves(AtomCore(Python, AtomToPython(a), flags, n)), Leaves(AtomCore(Re2, a, flags, k));
            |py| == |re| && (AtomAccepted(Python, AtomToPython(a)) && py == re <==> ConvertibleAtom(a))
    decreases a, 0
  {
    if a.Group? {
      var flags' := if a.kind.Scoped? then Apply(flags, a.kind.on, a.kind.off) else flags;
      AltLeaves(a.body, [], flags', if a.kind.Scoped? then n else n + 1, if a.kind.Scoped? then k else k + 1);
      assert FlagsAfter(flags', []) == flags';
    } else {
      LeafAlike(a);
    }
  }

  lemma {:induction false} CatLeaves(c: Cat, flags: set<char>, n: nat, k: nat)
    requires CatOk(c) && CatAccepted(Re2, c) && UnknownCat(c).None?
    ensures var py, re := Leaves(CatCore(Python, CatToPython(c), flags, n)), Leaves(CatCore(Re2, c, flags, k));
            |py| == |re| && (CatAccepted(Python, CatToPython(c)) && py == re <==> ConvertibleCat(c))
    ensures ConvertibleCat(c) ==> Nice(Opened(c))
    ensures Known(Opened(c))
    decreases c, 1
  {
    if c.Item? {
      if c.atom.Flags? {
        FlagsLeaves(c, flags, n, k);
      } else {
        ItemLeaves(c, flags, n, k);
      }
    }
  }

  lemma {:induction false} FlagsLeaves(c: Cat, flags: set<char>, n: nat, k: nat)
    requires c.Item? && c.atom.Flags? && CatOk(c) && CatAccepted(Re2, c) && UnknownCat(c).None?
    ensures var py, re := Leaves(CatCore(Python, CatToPython(c), flags, n)), Leaves(CatCore(Re2, c, flags, k));
            |py| == |re| && (CatAccepted(Python, CatToPython(c)) && py == re <==> ConvertibleCat(c))
    ensures ConvertibleCat(c) ==> Nice(Opened(c))
    ensures Known(Opened(c))
    decreases c, 0
  {
    var f, rest := FlagSpec(c.atom.on, c.atom.off), c.rest;
    var flags' := Apply(flags, f.on, f.off);
    CatLeaves(rest, flags', n, k);
    ScopeCore(f, CatToPython(rest), flags, n);
    ScopeAccepted(f, CatToPython(rest));
    assert CatToPython(c) == Scope(f, CatToPython(rest));
    assert Opened(c) == [f] + Opened(rest);
    var py := Leaves(CatCore(Python, CatToPython(rest), flags', n));
    assert Leaves(Nothing) == [] && py + [] == py;
    assert CatCore(Re2, c, flags, k) == CatCore(Re2, rest, flags', k);
  }

  lemma {:induction false} ItemLeaves(c: Cat, flags: set<char>, n: nat, k: nat)
    requires c.Item? && !c.atom.Flags? && CatOk(c) && CatAccepted(Re2, c) && UnknownCat(c).None?
    ensures var py, re := Leaves(CatCore(Python, CatToPython(c), flags, n)), Leaves(CatCore(Re2, c, flags, k));
            |py| == |re| && (CatAccepted(Python, CatToPython(c)) && py == re <==> ConvertibleCat(c))
    ensures ConvertibleCat(c) ==> Nice(Opened(c))
    ensures Known(Opened(c))
    decreases c, 0
  {
    hide *;
    var a, q, rest := c.atom, c.quant, c.rest;
    var b := AtomToPython(a);
    ItemGiven(c);
    AtomLeaves(a, flags, n, k);
    CatLeaves(rest, flags, n + Caps(b), k + Caps(a));
    ItemParts(c, flags, n, k);
    var x, y := AtomCore(Python, b, flags, n), AtomCore(Re2, a, flags, k);
    var x', y' := CatCore(Python, CatToPython(rest), flags, n + Caps(b)), CatCore(Re2, rest, flags, k + Caps(a));
    QuantifiedLeaves(q, x);
    QuantifiedLeaves(q, y);
    LeavesThen(Quantified(q, x), x');
    LeavesThen(Quantified(q, y), y');
    AppendEqual(Leaves(x), Leaves(x'), Leaves(y), Leaves(y'));
  }

  lemma ItemGiven(c: Cat)
    requires c.Item? && CatOk(c) && CatAccepted(Re2, c) && UnknownCat(c).None?
    ensures AtomOk(c.atom) && AtomAccepted(Re2, c.atom) && UnknownAtom(c.atom).None?
    ensures CatOk(c.rest) && CatAccepted(Re2, c.rest) && UnknownCat(c.rest).None? && QuantAccepted(Python, c.quant)
  {
    hide AtomOk, AtomAccepted, UnknownAtom;
  }

  /** A unit with what stands behind it, unfolded once on every side. */
  lemma ItemParts(c: Cat, flags: set<char>, n: nat, k: nat)
    requires c.Item? && !c.atom.Flags? && QuantAccepted(Python, c.quant)
    ensures var b, rest := AtomToPython(c.atom), CatToPython(c.rest);
            && !b.Flags? && CatToPython(c) == Item(b, c.quant, rest) && Opened(c) == Opened(c.rest)
            && CatCore(Python, CatToPython(c), flags, n)
               == Then(Quantified(c.quant, AtomCore(Python, b, flags, n)), CatCore(Python, rest, flags, n + Caps(b)))
            && CatCore(Re2, c, flags, k)
               == Then(Quantified(c.quant, AtomCore(Re2, c.atom, flags, k)), CatCore(Re2, c.rest, flags, k + Caps(c.atom)))
            && (CatAccepted(Python, CatToPython(c)) <==>
                  AtomAccepted(Python, b) && CatAccepted(Python, rest) && (c.quant.Repeat? ==> !Anchor(c.atom)))
            && (ConvertibleCat(c) <==> ConvertibleAtom(c.atom) && ConvertibleCat(c.rest) && (c.quant.Repeat? ==> !Anchor(c.atom)))
  {
    hide AtomAccepted, AtomCore, ConvertibleAtom, QuantAccepted, Quantified, Caps;
    assert Anchor(AtomToPython(c.atom)) == Anchor(c.atom);
  }

  lemma LeavesThen(a: Core, b: Core)
    ensures Leaves(Then(a, b)) == Leaves(a) + Leaves(b)
  {
  }

  lemma ScopeAccepted(f: FlagSpec, c: Cat)
    ensures CatAccepted(Python, Scope(f, c)) <==> FlagsAccepted(Python, f.on, f.off) && CatAccepted(Python, c)
  {
    var g := Group(Scoped(f.on, f.off), Only(c));
    assert AtomAccepted(Python, g) <==> FlagsAccepted(Python, f.on, f.off) && AltAccepted(Python, Only(c));
  }

  lemma WrapLeaves(open: seq<FlagSpec>, c: Cat, flags: set<char>, n: nat)
    requires Known(open)
    ensures Leaves(CatCore(Python, Wrap(open, c), flags, n)) == Leaves(CatCore(Python, c, FlagsAfter(flags, open), n))
    ensures CatAccepted(Python, Wrap(open, c)) <==> Nice(open) && CatAccepted(Python, c)
    decreases |open|
  {
    if open != [] {
      var flags' := Apply(flags, open[0].on, open[0].off);
      WrapLeaves(open[1..], c, flags', n);
      ScopeCore(open[0], Wrap(open[1..], c), flags, n);
      ScopeAccepted(open[0], Wrap(open[1..], c));
      assert Nice(open) <==> Disjoint(open[0].on, open[0].off) && Nice(open[1..]) by {
        assert open == [open[0]] + open[1..];
      }
      var inner := Leaves(CatCore(Python, Wrap(open[1..], c), flags', n));
      assert inner + [] == inner;
    }
  }

  lemma {:induction false} AltLeaves(a: Alt, open: seq<FlagSpec>, flags: set<char>, n: nat, k: nat)
    requires AltOk(a) && AltAccepted(Re2, a) && UnknownAlt(a).None? && Known(open)
    ensures var py := Leaves(AltCore(Python, AltToPython(a, open), flags, n));
            var re := Leaves(AltCore(Re2, a, FlagsAfter(flags, open), k));
            |py| == |re| && (AltAccepted(Python, AltToPython(a, open)) && py == re <==> ConvertibleAlt(a) && Nice(open))
    decreases a, 1
  {
    match a
    case Only(c) =>
      CatLeaves(c, FlagsAfter(flags, open), n, k);
      WrapLeaves(open, CatToPython(c), flags, n);
    case Or(c, others) => OrLeaves(c, others, open, flags, n, k);
  }

  lemma {:induction false} OrLeaves(c: Cat, others: Alt, open: seq<FlagSpec>, flags: set<char>, n: nat, k: nat)
    requires AltOk(Or(c, others)) && AltAccepted(Re2, Or(c, others)) && UnknownAlt(Or(c, others)).None? && Known(open)
    ensures var a := Or(c, others);
            var py := Leaves(AltCore(Python, AltToPython(a, open), flags, n));
            var re := Leaves(AltCore(Re2, a, FlagsAfter(flags, open), k));
            |py| == |re| && (AltAccepted(Python, AltToPython(a, open)) && py == re <==> ConvertibleAlt(a) && Nice(open))
    decreases Or(c, others), 0
  {
    hide *;
    OrGiven(c, others);
    var now, w := open + Opened(c), Wrap(open, CatToPython(c));
    var n', k' := n + CapsCat(w), k + CapsCat(c);
    CatLeaves(c, FlagsAfter(flags, open), n, k);
    WrapLeaves(open, CatToPython(c), flags, n);
    NothingOpened(open, c);
    FlagsAfterAppend(flags, open, Opened(c));
    FlagsAfterNone(flags);
    KnownAppend(open, Opened(c));
    AltLeaves(others, now, flags, n', k');
    NiceAppend(open, Opened(c));
    var x, y := CatCore(Python, w, flags, n), CatCore(Re2, c, FlagsAfter(flags, open), k);
    var x', y' := AltCore(Python, AltToPython(others, now), flags, n'), AltCore(Re2, others, FlagsAfter(flags, now), k');
    OrParts(c, others, open, flags, n, k);
    AppendEqual(Leaves(x), Leaves(x'), Leaves(y), Leaves(y'));
    LeavesEither(x, x');
    LeavesEither(y, y');
  }

  lemma OrGiven(c: Cat, others: Alt)
    requires AltOk(Or(c, others)) && AltAccepted(Re2, Or(c, others)) && UnknownAlt(Or(c, others)).None?
    ensures CatOk(c) && CatAccepted(Re2, c) && UnknownCat(c).None? && AltOk(others) && AltAccepted(Re2, others) && UnknownAlt(others).None?
  {
  }

  lemma FlagsAfterNone(flags: set<char>)
    ensures FlagsAfter(flags, []) == flags
  {
  }

  lemma KnownAppend(a: seq<FlagSpec>, b: seq<FlagSpec>)
    requires Known(a) && Known(b)
    ensures Known(a + b)
  {
  }

  lemma LeavesEither(a: Core, b: Core)
    ensures Leaves(Either(a, b)) == Leaves(a) + Leaves(b)
  {
  }

  /** An alternative with others behind it, unfolded once on every side. */
  lemma OrParts(c: Cat, others: Alt, open: seq<FlagSpec>, flags: set<char>, n: nat, k: nat)
    ensures var a, now, w := Or(c, others), open + Opened(c), Wrap(open, CatToPython(c));
            && AltToPython(a, open) == Or(w, AltToPython(others, now))
            && AltCore(Python, AltToPython(a, open), flags, n)
               == Either(CatCore(Python, w, flags, n), AltCore(Python, AltToPython(others, now), FlagsAfter(flags, Opened(w)), n + CapsCat(w)))
            && AltCore(Re2, a, FlagsAfter(flags, open), k)
               == Either(CatCore(Re2, c, FlagsAfter(flags, open), k),
                         AltCore(Re2, others, FlagsAfter(FlagsAfter(flags, open), Opened(c)), k + CapsCat(c)))
            && (AltAccepted(Python, AltToPython(a, open)) <==> CatAccepted(Python, w) && AltAccepted(Python, AltToPython(others, now)))
            && (ConvertibleAlt(a) <==> ConvertibleCat(c) && ConvertibleAlt(others))
  {
  }

  lemma NiceAppend(a: seq<FlagSpec>, b: seq<FlagSpec>)
    ensures Nice(a + b) <==> Nice(a) && Nice(b)
  {
    if Nice(a + b) {
      assert forall i :: 0 <= i < |a| ==> (a + b)[i] == a[i];
      assert forall i :: 0 <= i < |b| ==> (a + b)[|a| + i] == b[i];
    }
  }

  // ---- same outcomes ---------------------------------------------------------------------------

  lemma AlikeTrans(a: Core, b: Core, c: Core, m: Matcher, text: string)
    requires Alike(a, b, m, text) && Alike(b, c, m, text)
    ensures Alike(a, c, m, text)
  {
    forall st ensures Match(a, m, text, st) == Match(c, m, text, st) {
      assert Match(a, m, text, st) == Match(b, m, text, st);
    }
  }

  lemma SameCaps(a: Atom)
    ensures Caps(AtomToPython(a)) == Caps(a)
    decreases a, 0
  {
    if a.Group? { SameCapsAlt(a.body, []); }
  }

  lemma SameCapsCat(c: Cat)
    ensures CapsCat(CatToPython(c)) == CapsCat(c)
    decreases c, 0
  {
    match c
    case End =>
    case Item(Flags(on, off), _, rest) =>
      SameCapsCat(rest);
      ScopeCaps(FlagSpec(on, off), CatToPython(rest));
    case Item(a, _, rest) =>
      SameCaps(a);
      SameCapsCat(rest);
  }

  lemma ScopeCaps(f: FlagSpec, c: Cat)
    ensures CapsCat(Scope(f, c)) == CapsCat(c)
  {
    assert Caps(Group(Scoped(f.on, f.off), Only(c))) == CapsAlt(Only(c));
  }

  lemma WrapCaps(open: seq<FlagSpec>, c: Cat)
    ensures CapsCat(Wrap(open, c)) == CapsCat(c)
  {
    if open != [] {
      WrapCaps(open[1..], c);
      ScopeCaps(open[0], Wrap(open[1..], c));
    }
  }

  lemma SameCapsAlt(a: Alt, open: seq<FlagSpec>)
    ensures CapsAlt(AltToPython(a, open)) == CapsAlt(a)
    decreases a, 0
  {
    match a
    case Only(c) =>
      SameCapsCat(c);
      WrapCaps(open, CatToPython(c));
    case Or(c, others) =>
      SameCapsCat(c);
      WrapCaps(open, CatToPython(c));
      SameCapsAlt(others, open + Opened(c));
  }

  lemma {:induction false} AtomAlike(a: Atom, flags: set<char>, n: nat, m: Matcher, text: string)
    requires !a.Flags? && AtomOk(a) && AtomAccepted(Re2, a) && UnknownAtom(a).None? && ConvertibleAtom(a)
    ensures Alike(AtomCore(Python, AtomToPython(a), flags, n), AtomCore(Re2, a, flags, n), m, text)
    decreases a, 0
  {
    if a.Group? {
      var flags' := if a.kind.Scoped? then Apply(flags, a.kind.on, a.kind.off) else flags;
      var n' := if a.kind.Scoped? then n else n + 1;
      AltAlike(a.body, [], flags', n', m, text);
      assert FlagsAfter(flags', []) == flags';
      GroupAlike(a.kind, AltToPython(a.body, []), a.body, flags, flags', n, n', m, text);
    } else {
      LeafAlike(a);
    }
  }

  lemma GroupAlike(kind: Kind, py: Alt, re: Alt, flags: set<char>, flags': set<char>, n: nat, n': nat, m: Matcher, text: string)
    requires flags' == if kind.Scoped? then Apply(flags, kind.on, kind.off) else flags
    requires n' == if kind.Scoped? then n else n + 1
    requires Alike(AltCore(Python, py, flags', n'), AltCore(Re2, re, flags', n'), m, text)
    ensures Alike(AtomCore(Python, Group(kind, py), flags, n), AtomCore(Re2, Group(kind, re), flags, n), m, text)
  {
    if !kind.Scoped? {
      var name := if kind.Named? then kind.name else "";
      var x, y := AltCore(Python, py, flags', n'), AltCore(Re2, re, flags', n');
      forall st ensures Match(Cap(n, name, x), m, text, st) == Match(Cap(n, name, y), m, text, st) {
        assert Match(x, m, text, st) == Match(y, m, text, st);
      }
    }
  }

  lemma {:induction false} CatAlike(c: Cat, flags: set<char>, n: nat, m: Matcher, text: string)
    requires CatOk(c) && CatAccepted(Re2, c) && UnknownCat(c).None? && ConvertibleCat(c)
    ensures Alike(CatCore(Python, CatToPython(c), flags, n), CatCore(Re2, c, flags, n), m, text)
    decreases c, 0
  {
    match c
    case End =>
    case Item(Flags(on, off), _, rest) =>
      var flags' := Apply(flags, on, off);
      CatAlike(rest, flags', n, m, text);
      ScopeCore(FlagSpec(on, off), CatToPython(rest), flags, n);
      ThenNothing(CatCore(Python, CatToPython(rest), flags', n), m, text);
      AlikeTrans(CatCore(Python, CatToPython(c), flags, n), CatCore(Python, CatToPython(rest), flags', n),
                 CatCore(Re2, rest, flags', n), m, text);
    case Item(a, q, rest) =>
      var n' := n + Caps(a);
      SameCaps(a);
      AtomAlike(a, flags, n, m, text);
      CatAlike(rest, flags, n', m, text);
      ItemAlike(AtomToPython(a), a, q, CatToPython(rest), rest, flags, n, n', m, text);
  }

  lemma ItemAlike(b: Atom, a: Atom, q: Quant, ys: Cat, xs: Cat, flags: set<char>, n: nat, n': nat, m: Matcher, text: string)
    requires !a.Flags? && !b.Flags? && n' == n + Caps(a) == n + Caps(b)
    requires Alike(AtomCore(Python, b, flags, n), AtomCore(Re2, a, flags, n), m, text)
    requires Alike(CatCore(Python, ys, flags, n'), CatCore(Re2, xs, flags, n'), m, text)
    ensures Alike(CatCore(Python, Item(b, q, ys), flags, n), CatCore(Re2, Item(a, q, xs), flags, n), m, text)
  {
    hide *;
    ItemCore(Python, b, q, ys, flags, n);
    ItemCore(Re2, a, q, xs, flags, n);
    var py, re := AtomCore(Python, b, flags, n), AtomCore(Re2, a, flags, n);
    QuantifiedAlike(q, py, re, m, text);
    ThenAlike(Quantified(q, py), CatCore(Python, ys, flags, n'), Quantified(q, re), CatCore(Re2, xs, flags, n'), m, text);
  }

  lemma ItemCore(d: Dialect, a: Atom, q: Quant, rest: Cat, flags: set<char>, n: nat)
    requires !a.Flags?
    ensures CatCore(d, Item(a, q, rest), flags, n)
         == Then(Quantified(q, AtomCore(d, a, flags, n)), CatCore(d, rest, flags, n + Caps(a)))
  {
  }

  lemma WrapAlike(open: seq<FlagSpec>, c: Cat, flags: set<char>, n: nat, m: Matcher, text: string)
    ensures Alike(CatCore(Python, Wrap(open, c), flags, n), CatCore(Python, c, FlagsAfter(flags, open), n), m, text)
    decreases |open|
  {
    if open != [] {
      var flags' := Apply(flags, open[0].on, open[0].off);
      WrapAlike(open[1..], c, flags', n, m, text);
      ScopeCore(open[0], Wrap(open[1..], c), flags, n);
      ThenNothing(CatCore(Python, Wrap(open[1..], c), flags', n), m, text);
      AlikeTrans(CatCore(Python, Wrap(open, c), flags, n), CatCore(Python, Wrap(open[1..], c), flags', n),
                 CatCore(Python, c, FlagsAfter(flags, open), n), m, text);
    }
  }

  lemma {:induction false} AltAlike(a: Alt, open: seq<FlagSpec>, flags: set<char>, n: nat, m: Matcher, text: string)
    requires AltOk(a) && AltAccepted(Re2, a) && UnknownAlt(a).None? && ConvertibleAlt(a)
    ensures Alike(AltCore(Python, AltToPython(a, open), flags, n), AltCore(Re2, a, FlagsAfter(flags, open), n), m, text)
    decreases a, 0
  {
    var c := FirstCat(a);
    var w := Wrap(open, CatToPython(c));
    var flags' := FlagsAfter(flags, open);
    CatAlike(c, flags', n, m, text);
    WrapAlike(open, CatToPython(c), flags, n, m, text);
    AlikeTrans(CatCore(Python, w, flags, n), CatCore(Python, CatToPython(c), flags', n), CatCore(Re2, c, flags', n), m, text);
    if a.Or? {
      var now := open + Opened(c);
      var n' := n + CapsCat(c);
      NothingOpened(open, c);
      FlagsAfterAppend(flags, open, Opened(c));
      SameCapsCat(c);
      WrapCaps(open, CatToPython(c));
      AltAlike(a.others, now, flags, n', m, text);
      EitherAlike(CatCore(Python, w, flags, n), AltCore(Python, AltToPython(a.others, now), flags, n'),
                  CatCore(Re2, c, flags', n), AltCore(Re2, a.others, FlagsAfter(flags, now), n'), m, text);
    }
  }

  lemma EitherAlike(a: Core, b: Core, a': Core, b': Core, m: Matcher, text: string)
    requires Alike(a, a', m, text) && Alike(b, b', m, text)
    ensures Alike(Either(a, b), Either(a', b'), m, text)
  {
    forall st ensures Match(Either(a, b), m, text, st) == Match(Either(a', b'), m, text, st) {
      assert Match(a, m, text, st) == Match(a', m, text, st);
      assert Match(b, m, text, st) == Match(b', m, text, st);
    }
  }

  // ---- the names stay ----------------------------------------------------------------------------

  lemma SameNamesAtom(a: Atom)
    ensures NamesAtom(AtomToPython(a)) == NamesAtom(a)
    decreases a, 0
  {
    if a.Group? { SameNames(a.body, []); }
  }

  lemma SameNamesCat(c: Cat)
    ensures NamesCat(CatToPython(c)) == NamesCat(c)
    decreases c, 0
  {
    match c
    case End =>
    case Item(Flags(on, off), _, rest) =>
      SameNamesCat(rest);
      ScopeNames(FlagSpec(on, off), CatToPython(rest));
    case Item(a, _, rest) =>
      SameNamesAtom(a);
      SameNamesCat(rest);
  }

  lemma ScopeNames(f: FlagSpec, c: Cat)
    ensures NamesCat(Scope(f, c)) == NamesCat(c)
  {
    assert NamesAtom(Group(Scoped(f.on, f.off), Only(c))) == [] + Names(Only(c)) == NamesCat(c);
    assert NamesCat(c) + [] == NamesCat(c);
  }

  lemma WrapNames(open: seq<FlagSpec>, c: Cat)
    ensures NamesCat(Wrap(open, c)) == NamesCat(c)
  {
    if open != [] {
      WrapNames(open[1..], c);
      ScopeNames(open[0], Wrap(open[1..], c));
    }
  }

  /** The translation keeps the names of the groups, in their order. */
  lemma SameNames(a: Alt, open: seq<FlagSpec>)
    ensures Names(AltToPython(a, open)) == Names(a)
    decreases a, 0
  {
    match a
    case Only(c) =>
      SameNamesCat(c);
      WrapNames(open, CatToPython(c));
    case Or(c, others) =>
      SameNamesCat(c);
      WrapNames(open, CatToPython(c));
      SameNames(others, open + Opened(c));
  }

  lemma NamesKept(p: Alt)
    ensures Names(ToPython(p)) == Names(p)
  {
    if LeadsWithFlags(p) {
      var q := WithFirst(p, FirstCat(p).rest);
      var rest := AltToPython(q, []);
      SameNames(q, []);
      LeadNames(p, FirstCat(p).rest);
      LeadNames(ToPython(p), FirstCat(rest));
      assert WithFirst(ToPython(p), FirstCat(rest)) == rest;
    } else {
      SameNames(p, []);
    }
  }

  lemma LeadNames(p: Alt, rest: Cat)
    requires LeadsWithFlags(p) && FirstCat(p).rest == rest
    ensures Names(WithFirst(p, rest)) == Names(p)
  {
    assert NamesCat(FirstCat(p)) == [] + NamesCat(rest) == NamesCat(rest);
  }
}
