/** The translation of rule patterns from RE2 to Python, as a whole. */
module RegexConversion {
  import opened Basics
  import opened RegexSyntax
  import opened RegexScan
  import opened RegexTranslation
  import opened RegexMeaning
  import opened RegexUnits
  import opened RegexClasses
  import opened RegexCorrectness

  lemma LeadKept(p: Alt)
    requires AltOk(p)
    ensures LeadsWithFlags(ToPython(p)) <==> LeadsWithFlags(p)
    ensures LeadsWithFlags(p) ==>
      && FirstCat(ToPython(p)).atom == FirstCat(p).atom
      && WithFirst(ToPython(p), FirstCat(ToPython(p)).rest) == AltToPython(WithFirst(p, FirstCat(p).rest), [])
  {
    if !LeadsWithFlags(p) {
      var c := FirstCat(p);
      assert FirstCat(ToPython(p)) == CatToPython(c);
      if c.Item? {
        assert !AtomToPython(c.atom).Flags?;
      }
    }
  }

  /**
   The main result, for every pattern RE2 accepts, every unit matcher and every text. The scanner
   refuses a named class it does not know, and otherwise its answer is the text of exactly one
   pattern; Python takes that pattern with the same units under the same flags if and only if the
   pattern is convertible; and then it matches alike, captures and priorities included.
   */
  lemma TranslationKeepsMeaning(p: Alt, m: Matcher, text: string)
    requires AltOk(p) && AltAccepted(Re2, p)
    ensures var out := Scan(AltText(p, ""), true, false, [], []);
            && (if UnknownAlt(p).Some? then out == Err(UnknownAlt(p).value) else out.Ok? && Parse(out.value) == Some(ToPython(p)))
            && (out.Ok? && PythonAccepts(ToPython(p)) && Leaves(PythonCore(ToPython(p))) == Leaves(Re2Core(p)) <==> Convertible(p))
    ensures Convertible(p) ==> Alike(PythonCore(ToPython(p)), Re2Core(p), m, text)
  {
    ScanIsTranslation(p);
    if UnknownAlt(p).None? {
      ToPythonOk(p);
      ParsePrinted(ToPython(p));
      NamesKept(p);
      if LeadsWithFlags(p) { LeadMeaning(p, m, text); } else { PlainMeaning(p, m, text); }
    }
  }

  lemma LeadMeaning(p: Alt, m: Matcher, text: string)
    requires AltOk(p) && AltAccepted(Re2, p) && UnknownAlt(p).None? && LeadsWithFlags(p)
    ensures UnitsAccepted(ToPython(p)) && Leaves(PythonCore(ToPython(p))) == Leaves(Re2Core(p)) <==> ConvertibleUnits(p)
    ensures ConvertibleUnits(p) ==> Alike(PythonCore(ToPython(p)), Re2Core(p), m, text)
  {
    var a := FirstCat(p).atom;
    var q := WithFirst(p, FirstCat(p).rest);
    var flags := Apply({}, a.on, a.off);
    LeadKept(p);
    LeadCore(p);
    assert AltOk(q) && AltAccepted(Re2, q) && UnknownAlt(q).None? && AtomAccepted(Re2, a);
    assert PythonCore(ToPython(p)) == AltCore(Python, AltToPython(q, []), flags, 1);
    assert UnitsAccepted(ToPython(p)) <==> a.off == "" && AltAccepted(Python, AltToPython(q, []));
    AltLeaves(q, [], flags, 1, 1);
    assert FlagsAfter(flags, []) == flags;
    if ConvertibleAlt(q) { AltAlike(q, [], flags, 1, m, text); }
  }

  lemma PlainMeaning(p: Alt, m: Matcher, text: string)
    requires AltOk(p) && AltAccepted(Re2, p) && UnknownAlt(p).None? && !LeadsWithFlags(p)
    ensures UnitsAccepted(ToPython(p)) && Leaves(PythonCore(ToPython(p))) == Leaves(Re2Core(p)) <==> ConvertibleUnits(p)
    ensures ConvertibleUnits(p) ==> Alike(PythonCore(ToPython(p)), Re2Core(p), m, text)
  {
    LeadKept(p);
    AltLeaves(p, [], {}, 1, 1);
    if ConvertibleAlt(p) { AltAlike(p, [], {}, 1, m, text); }
  }

  lemma LeadCore(p: Alt)
    requires LeadsWithFlags(p)
    ensures var a := FirstCat(p).atom;
            Re2Core(p) == AltCore(Re2, WithFirst(p, FirstCat(p).rest), Apply({}, a.on, a.off), 1)
  {
    var c := FirstCat(p);
    var flags := Apply({}, c.atom.on, c.atom.off);
    assert CatCore(Re2, c, {}, 1) == CatCore(Re2, c.rest, flags, 1);
    if p.Or? {
      assert Opened(c) == [FlagSpec(c.atom.on, c.atom.off)] + Opened(c.rest);
      assert FlagsAfter({}, Opened(c)) == FlagsAfter(flags, Opened(c.rest));
      assert Caps(c.atom) == 0 && CapsCat(c) == CapsCat(c.rest);
    }
  }

  // ---- the two engines ---------------------------------------------------------------------------

  /** What an engine answers for a pattern text: None when it does not take the pattern. */
  ghost function Outcomes(d: Dialect, source: string, t: Tables, text: string, st: State): Option<seq<State>> {
    match Parse(source)
    case None => None
    case Some(p) =>
      if d.Re2? then (if AltAccepted(Re2, p) then Some(Match(Re2Core(p), Engine(Re2, t), text, st)) else None)
      else if PythonAccepts(p) then Some(Match(PythonCore(p), Engine(Python, t), text, st)) else None
  }

  /** The text is settled for every unit of the pattern, under the flags in force there. */
  ghost predicate AllSettled(p: Alt, t: Tables, text: string) {
    var ls := Leaves(Re2Core(p));
    forall i :: 0 <= i < |ls| ==> Settled(t, ls[i].0, ls[i].1, text)
  }

  /** Python finds with the converted text just what RE2 finds with the rule's own. */
  lemma ConvertedMatchesAlike(p: Alt, t: Tables, text: string, st: State)
    requires AltOk(p) && AltAccepted(Re2, p) && Convertible(p) && AllSettled(p, t, text)
    ensures var source := AltText(p, "");
            var out := Scan(source, true, false, [], []);
            && out.Ok?
            && Outcomes(Re2, source, t, text, st).Some?
            && Outcomes(Python, out.value, t, text, st) == Outcomes(Re2, source, t, text, st)
  {
    var ls := Leaves(Re2Core(p));
    TranslationKeepsMeaning(p, Engine(Python, t), text);
    ParsePrinted(p);
    assert AgreeOn(ls, Engine(Re2, t), Engine(Python, t), text) by {
      forall i, at: nat | 0 <= i < |ls|
        ensures Engine(Re2, t)(ls[i].0, ls[i].1, text, at) == Engine(Python, t)(ls[i].0, ls[i].1, text, at)
      {
        AlikeAt(t, ls[i].0, ls[i].1, text, at);
      }
    }
    MatchAgree(Re2Core(p), Engine(Re2, t), Engine(Python, t), text, st);
    assert Match(PythonCore(ToPython(p)), Engine(Python, t), text, st) == Match(Re2Core(p), Engine(Python, t), text, st);
  }

  lemma AlikeAt(t: Tables, leaf: Leaf, flags: set<char>, text: string, at: nat)
    requires Settled(t, leaf, flags, text)
    ensures Engine(Re2, t)(leaf, flags, text, at) == Engine(Python, t)(leaf, flags, text, at)
  {
    ReadAlikeIff(t, leaf, flags, text);
    hide Settled, Reads;
    assert Reads(Re2, t, leaf, flags, text, at) == Reads(Python, t, leaf, flags, text, at);
  }

  predicate AllPlain(ls: seq<(Leaf, set<char>)>) { forall i :: 0 <= i < |ls| ==> PlainUnit(ls[i].0, ls[i].1) }

  /** On a plain text a pattern whose folded units are ASCII is read alike as a whole. */
  lemma PlainTextSettles(p: Alt, t: Tables, text: string)
    requires PlainText(text) && AllPlain(Leaves(Re2Core(p)))
    ensures AllSettled(p, t, text)
  {
    var ls := Leaves(Re2Core(p));
    forall i | 0 <= i < |ls| ensures Settled(t, ls[i].0, ls[i].1, text) {
      assert PlainUnit(ls[i].0, ls[i].1);
      PlainSettles(t, ls[i].0, ls[i].1, text);
    }
  }

  const DOLLAR := Item(Lit('$'), Once, End)
  const A_DOLLAR := Only(Item(Lit('a'), Once, DOLLAR))

  /** `a$` comes through unchanged, and on a line with its newline only Python finds it. */
  lemma DollarMisread(t: Tables)
    ensures AltOk(A_DOLLAR) && AltAccepted(Re2, A_DOLLAR) && Convertible(A_DOLLAR) && AltText(A_DOLLAR, "") == "a$"
    ensures Scan("a$", true, false, [], []) == Ok("a$")
    ensures Outcomes(Re2, "a$", t, "a\n", State(0, map[])) == Some([])
    ensures Outcomes(Python, "a$", t, "a\n", State(0, map[])) == Some([State(1, map[])])
  {
    DollarPattern();
    ScanIsTranslation(A_DOLLAR);
    ParsePrinted(A_DOLLAR);
    DollarFound(Re2, t);
    DollarFound(Python, t);
    DollarOutcomes(t);
  }

  lemma DollarOutcomes(t: Tables)
    requires Parse("a$") == Some(A_DOLLAR) && AltAccepted(Re2, A_DOLLAR) && PythonAccepts(A_DOLLAR)
    ensures forall st :: Outcomes(Re2, "a$", t, "a\n", st) == Some(Match(Re2Core(A_DOLLAR), Engine(Re2, t), "a\n", st))
    ensures forall st :: Outcomes(Python, "a$", t, "a\n", st) == Some(Match(PythonCore(A_DOLLAR), Engine(Python, t), "a\n", st))
  {
    hide Parse, AltAccepted, PythonAccepts, Match;
  }

  lemma DollarPattern()
    ensures AltOk(A_DOLLAR) && AltAccepted(Re2, A_DOLLAR) && Convertible(A_DOLLAR) && AltText(A_DOLLAR, "") == "a$"
    ensures ToPython(A_DOLLAR) == A_DOLLAR && PythonAccepts(A_DOLLAR) && UnknownAlt(A_DOLLAR).None?
  {
    assert CatText(DOLLAR, "") == "$";
    assert "a" + "$" == "a$";
    assert CatToPython(DOLLAR) == DOLLAR;
    assert !LeadsWithFlags(A_DOLLAR);
  }

  lemma DollarCore(d: Dialect)
    ensures AltCore(d, A_DOLLAR, {}, 1) == Then(Unit(Letter('a'), {}), Then(Unit(Letter('$'), {}), Nothing))
  {
    assert CatCore(d, DOLLAR, {}, 1) == Then(Unit(Letter('$'), {}), Nothing);
  }

  lemma DollarFound(d: Dialect, t: Tables)
    ensures Match(AltCore(d, A_DOLLAR, {}, 1), Engine(d, t), "a\n", State(0, map[])) == if d.Re2? then [] else [State(1, map[])]
    ensures Re2Core(A_DOLLAR) == AltCore(Re2, A_DOLLAR, {}, 1) && PythonCore(A_DOLLAR) == AltCore(Python, A_DOLLAR, {}, 1)
  {
    var m, one := Engine(d, t), State(1, map[]);
    DollarCore(d);
    assert !LeadsWithFlags(A_DOLLAR);
    assert m(Letter('a'), {}, "a\n", 0) == Some(1);
    assert m(Letter('$'), {}, "a\n", 1) == if d.Re2? then None else Some(1);
    hide Engine, LeadsWithFlags;
    var end := Then(Unit(Letter('$'), {}), Nothing);
    assert Match(Unit(Letter('a'), {}), m, "a\n", State(0, map[])) == [one];
    assert Match(Unit(Letter('$'), {}), m, "a\n", one) == if d.Re2? then [] else [one];
    ThenNothing(Unit(Letter('$'), {}), m, "a\n");
    assert Match(end, m, "a\n", one) == Match(Unit(Letter('$'), {}), m, "a\n", one);
    assert MatchAll(end, m, "a\n", [one]) == Match(end, m, "a\n", one) + MatchAll(end, m, "a\n", [one][1..]);
  }

  // ---- a class the scanner misreads -------------------------------------------------------------

  const WORD_DASH := [Posix("word"), Plain('-'), Plain('z')]

  /** `[[:word:]-z]`: the translated bracket expression loses `-` and gains the back-quote. */
  lemma WordDashMisread()
    ensures var p := Only(Item(Class(false, false, WORD_DASH), Once, End));
            && AltText(p, "") == "[[:word:]-z]"
            && Scan("[[:word:]-z]", true, false, [], []) == Ok("[0-9A-Za-z_-z]")
            && AltAccepted(Re2, p) && !Convertible(p)
    ensures var re, py := Members(Re2, WORD_DASH), Members(Python, ExpandToks(WORD_DASH));
            && re.Some? && Holds(re.value, '-') && !Holds(re.value, '`')
            && py.Some? && !Holds(py.value, '-') && Holds(py.value, '`')
  {
    var p := Only(Item(Class(false, false, WORD_DASH), Once, End));
    WordDashText();
    WordDashMembers();
    WordDashHolds(Members(Re2, WORD_DASH).value, Members(Python, ExpandToks(WORD_DASH)).value);
    WordDashHazard();
    WordDashPattern();
    hide *;
    ScanIsTranslation(p);
  }

  lemma WordDashPattern()
    requires Members(Re2, WORD_DASH).Some? && Hazard(Inside(false, WORD_DASH))
    ensures var p := Only(Item(Class(false, false, WORD_DASH), Once, End));
            && AltOk(p) && AltAccepted(Re2, p) && !Convertible(p) && UnknownAlt(p).None?
            && AltText(p, "") == ClassText(false, false, WORD_DASH, "")
            && AltText(ToPython(p), "") == ClassText(false, false, ExpandToks(WORD_DASH), "")
  {
    var a := Class(false, false, WORD_DASH);
    var c := Item(a, Once, End);
    var p := Only(c);
    hide Members, Hazard, ToksText, ExpandToks, ClassText, UnknownTok;
    assert !LeadsWithFlags(p);
    assert AtomToPython(a) == Class(false, false, ExpandToks(WORD_DASH));
    assert CatToPython(c) == Item(AtomToPython(a), Once, End);
    assert ToPython(p) == Only(CatToPython(c));
    assert !ConvertibleAtom(a);
    assert UnknownTok(WORD_DASH).None? by { WordDashKnown(); }
    assert Inside(false, WORD_DASH) == WORD_DASH;
  }

  lemma WordDashKnown()
    ensures UnknownTok(WORD_DASH).None?
  {
    assert WORD_DASH[1..] == [Plain('-'), Plain('z')] && [Plain('-'), Plain('z')][1..] == [Plain('z')];
    assert UnknownTok([Plain('z')]).None?;
  }

  lemma WordDashHazard()
    ensures Hazard(Inside(false, WORD_DASH))
  {
    assert Inside(false, WORD_DASH) == WORD_DASH;
    assert TakesDash(WORD_DASH[0]) && WORD_DASH[0 + 1] == Plain('-');
  }

  lemma WordDashHolds(re: seq<Member>, py: seq<Member>)
    requires re == [Spans('0', '9'), Spans('A', 'Z'), Spans('a', 'z'), One(Plain('_')), One(Plain('-')), One(Plain('z'))]
    requires py == [Spans('0', '9'), Spans('A', 'Z'), Spans('a', 'z'), Spans('_', 'z')]
    ensures Holds(re, '-') && !Holds(re, '`') && !Holds(py, '-') && Holds(py, '`')
  {
    assert re[4] == One(Plain('-'));
    assert py[3] == Spans('_', 'z');
  }

  lemma WordDashExpanded()
    ensures ExpandToks(WORD_DASH) == PlainToks("0-9A-Za-z_") + [Plain('-'), Plain('z')]
    ensures ToksText(WORD_DASH, "]") == "[:word:]-z]"
  {
    var dash := [Plain('-'), Plain('z')];
    DashText(dash);
    WordText();
    assert WORD_DASH[1..] == dash && WORD_DASH[0] == Posix("word");
    hide PosixText, PlainToks, TokText;
    assert ToksText(WORD_DASH, "]") == TokText(WORD_DASH[0], "-z]");
    hide *;
  }

  lemma WordText()
    ensures PosixText("word") == Some("0-9A-Za-z_") && TokText(Posix("word"), "-z]") == "[:word:]-z]"
  {
  }

  lemma DashText(dash: seq<ClassTok>)
    requires dash == [Plain('-'), Plain('z')]
    ensures ToksText(dash, "]") == "-z]" && ExpandToks(dash) == dash
  {
    assert dash[1..] == [Plain('z')] && [Plain('z')][1..] == [];
    assert ToksText([Plain('z')], "]") == "z]";
    assert ExpandToks([Plain('z')]) == [Plain('z')];
  }

  lemma WordDashText()
    ensures ClassText(false, false, WORD_DASH, "") == "[[:word:]-z]"
    ensures ClassText(false, false, ExpandToks(WORD_DASH), "") == "[0-9A-Za-z_-z]"
  {
    WordDashExpanded();
    WordDashOutput();
    PlainClassText(WORD_DASH);
    PlainClassText(ExpandToks(WORD_DASH));
    hide *;
    assert "[" + "[:word:]-z]" == "[[:word:]-z]";
    assert "[" + "0-9A-Za-z_-z]" == "[0-9A-Za-z_-z]";
  }

  lemma PlainClassText(toks: seq<ClassTok>)
    ensures ClassText(false, false, toks, "") == "[" + ToksText(toks, "]")
  {
    assert "]" + "" == "]";
  }

  lemma WordDashOutput()
    ensures ToksText(ExpandToks(WORD_DASH), "]") == "0-9A-Za-z_-z]"
  {
    hide *;
    var dash := [Plain('-'), Plain('z')];
    WordDashExpanded();
    DashText(dash);
    PlainToksText("0-9A-Za-z_", dash, "]");
    assert "0-9A-Za-z_" + "-z]" == "0-9A-Za-z_-z]";
  }

  lemma WordDashMembers()
    ensures Members(Re2, WORD_DASH) == Some([Spans('0', '9'), Spans('A', 'Z'), Spans('a', 'z'), One(Plain('_')), One(Plain('-')), One(Plain('z'))])
    ensures Members(Python, ExpandToks(WORD_DASH)) == Some([Spans('0', '9'), Spans('A', 'Z'), Spans('a', 'z'), Spans('_', 'z')])
  {
    WordDashRe2();
    WordDashPython();
    hide *;
  }

  lemma WordDashRe2()
    ensures Members(Re2, WORD_DASH) == Some([Spans('0', '9'), Spans('A', 'Z'), Spans('a', 'z'), One(Plain('_')), One(Plain('-')), One(Plain('z'))])
  {
    var dash := [Plain('-'), Plain('z')];
    DashMembers(dash);
    assert WORD_DASH[1..] == dash && WORD_DASH[0] == Posix("word");
    assert PosixMembers("word") == Some([Spans('0', '9'), Spans('A', 'Z'), Spans('a', 'z'), One(Plain('_'))]);
    assert Members(Re2, WORD_DASH) == Prefix(PosixMembers("word").value, Members(Re2, dash));
    hide Members;
    hide PosixMembers;
    assert [Spans('0', '9'), Spans('A', 'Z'), Spans('a', 'z'), One(Plain('_'))] + [One(Plain('-')), One(Plain('z'))]
        == [Spans('0', '9'), Spans('A', 'Z'), Spans('a', 'z'), One(Plain('_')), One(Plain('-')), One(Plain('z'))];
  }

  lemma WordDashPython()
    ensures Members(Python, ExpandToks(WORD_DASH)) == Some([Spans('0', '9'), Spans('A', 'Z'), Spans('a', 'z'), Spans('_', 'z')])
  {
    var dash := [Plain('-'), Plain('z')];
    WordDashExpanded();
    DashMembers(dash);
    ReadWord(dash);
    hide Members;
    hide ExpandToks;
    hide PlainToks;
    hide LastRead;
    assert [Spans('0', '9'), Spans('A', 'Z'), Spans('a', 'z')] + [Spans('_', 'z')]
        == [Spans('0', '9'), Spans('A', 'Z'), Spans('a', 'z'), Spans('_', 'z')];
  }

  lemma DashMembers(dash: seq<ClassTok>)
    requires dash == [Plain('-'), Plain('z')]
    ensures Members(Re2, dash) == Some([One(Plain('-')), One(Plain('z'))])
    ensures LastRead('_', dash) == Some([Spans('_', 'z')])
  {
    assert dash == [Plain('-')] + [Plain('z')] && [Plain('z')] + [] == [Plain('z')];
    MembersTail(Re2, Plain('z'), []);
    assert Members(Re2, []) == Some([]);
    assert [One(Plain('z'))] + [] == [One(Plain('z'))] && [Spans('_', 'z')] + [] == [Spans('_', 'z')];
    assert [One(Plain('-'))] + [One(Plain('z'))] == [One(Plain('-')), One(Plain('z'))];
    assert Members(Re2, [Plain('z')]) == Some([One(Plain('z'))]);
    MembersTail(Re2, Plain('-'), [Plain('z')]);
    assert [Plain('_')] + dash == [Plain('_'), Plain('-'), Plain('z')] + [];
    MembersSpan(Python, Plain('_'), Plain('z'), []);
    assert Members(Python, []) == Some([]);
  }
}
