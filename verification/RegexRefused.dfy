/** Patterns that RE2 takes and the rule loader drops, one for each reason. */
module RegexRefused {
  import opened Basics
  import opened RegexSyntax
  import opened RegexScan
  import opened RegexTranslation
  import opened RegexMeaning
  import opened RegexUnits
  import opened RegexCorrectness
  import opened RegexConversion

  /** RE2 answers for the pattern on every text, and Python does not take what the scanner makes of it. */
  ghost predicate Dropped(p: Alt, source: string) {
    && AltOk(p) && AltText(p, "") == source && AltAccepted(Re2, p) && !Convertible(p)
    && var out := Scan(source, true, false, [], []);
       && out.Ok?
       && (forall t, text, st :: Outcomes(Re2, source, t, text, st).Some?)
       && (forall t, text, st :: Outcomes(Python, out.value, t, text, st).None?)
  }

  lemma DroppedIs(p: Alt)
    requires AltOk(p) && AltAccepted(Re2, p) && UnknownAlt(p).None? && !PythonAccepts(ToPython(p))
    ensures Dropped(p, AltText(p, ""))
  {
    TranslationKeepsMeaning(p, (l: Leaf, f: set<char>, s: string, n: nat) => None, "");
    ParsePrinted(p);
    hide Scan, Parse, AltText, AltAccepted, PythonAccepts, Match, Convertible;
  }

  function NamedX(name: string): Cat { Item(Group(Named(name), X_ONLY), Once, End) }

  const X_ONLY := Only(Item(Lit('x'), Once, End))

  const NUMBERED := Only(NamedX("1"))
  const TWICE := Only(Item(Group(Named("n"), X_ONLY), Once, NamedX("n")))
  const START_REPEATED := Only(Item(Lit('^'), Repeat("*", false), End))
  const DOUBLED := Only(Item(Class(false, false, DOUBLED_TOKS), Once, End))
  const BLANK := Only(Item(Class(false, false, BLANK_TOKS), Once, End))

  lemma NamedText(name: string, k: string)
    ensures AtomText(Group(Named(name), X_ONLY), k) == "(?P<" + (name + (">" + ("x" + (")" + k))))
  {
    assert CatText(End, ")" + k) == ")" + k;
    assert AltText(X_ONLY, ")" + k) == CatText(X_ONLY.cat, ")" + k) == AtomText(Lit('x'), ")" + k) == "x" + (")" + k);
  }

  lemma NamedKept(name: string)
    ensures AtomToPython(Group(Named(name), X_ONLY)) == Group(Named(name), X_ONLY)
    ensures AltOk(X_ONLY) && AltAccepted(Re2, X_ONLY) && UnknownAlt(X_ONLY).None?
  {
    assert CatToPython(X_ONLY.cat) == X_ONLY.cat;
  }

  /** A group name that starts with a digit. */
  lemma NumberedDropped()
    ensures Dropped(NUMBERED, "(?P<1>x)")
  {
    NumberedParts();
    DroppedIs(NUMBERED);
    hide *;
  }

  lemma NumberedParts()
    ensures AltOk(NUMBERED) && AltAccepted(Re2, NUMBERED) && UnknownAlt(NUMBERED).None? && !PythonAccepts(ToPython(NUMBERED))
    ensures AltText(NUMBERED, "") == "(?P<1>x)"
  {
    NamedText("1", "");
    NamedKept("1");
    assert "(?P<" + ("1" + (">" + ("x" + (")" + "")))) == "(?P<1>x)";
    assert ToPython(NUMBERED) == NUMBERED;
  }

  /** A group name that stands twice. */
  lemma TwiceDropped()
    ensures Dropped(TWICE, "(?P<n>x)(?P<n>x)")
  {
    TwiceParts();
    TwiceNames();
    DroppedIs(TWICE);
    hide *;
  }

  lemma TwiceParts()
    ensures AltOk(TWICE) && AltAccepted(Re2, TWICE) && UnknownAlt(TWICE).None?
    ensures AltText(TWICE, "") == "(?P<n>x)(?P<n>x)"
  {
    NamedText("n", "");
    NamedText("n", "(?P<n>x)");
    NamedKept("n");
    assert "(?P<" + ("n" + (">" + ("x" + (")" + "")))) == "(?P<n>x)";
    assert "(?P<" + ("n" + (">" + ("x" + (")" + "(?P<n>x)")))) == "(?P<n>x)(?P<n>x)";
    assert CatText(NamedX("n"), "") == "(?P<n>x)";
  }

  lemma TwiceNames()
    ensures !PythonAccepts(ToPython(TWICE))
  {
    NamesKept(TWICE);
    assert Names(X_ONLY) == [];
    assert NamesCat(NamedX("n")) == ["n"];
    assert Names(TWICE) == ["n"] + ["n"];
    assert (["n"] + ["n"])[0] == (["n"] + ["n"])[1];
  }

  /** A quantified anchor. */
  lemma StartRepeatedDropped()
    ensures Dropped(START_REPEATED, "^*")
  {
    StartRepeatedParts();
    DroppedIs(START_REPEATED);
    hide *;
  }

  lemma StartRepeatedParts()
    ensures AltOk(START_REPEATED) && AltAccepted(Re2, START_REPEATED) && UnknownAlt(START_REPEATED).None?
    ensures !PythonAccepts(ToPython(START_REPEATED)) && AltText(START_REPEATED, "") == "^*"
  {
  }

  const DOUBLED_TOKS := [Plain('a'), Plain('&'), Plain('&'), Plain('b')]

  /** A doubled sign in a bracket expression, on which Python warns. */
  lemma DoubledDropped()
    ensures Dropped(DOUBLED, "[a&&b]")
  {
    DoubledParts();
    DoubledText();
    DroppedIs(DOUBLED);
    hide *;
  }

  lemma DoubledToks()
    ensures ExpandToks(DOUBLED_TOKS) == DOUBLED_TOKS && UnknownTok(DOUBLED_TOKS).None?
    ensures Members(Re2, DOUBLED_TOKS).Some? && Doubled(DOUBLED_TOKS, false)
  {
    var three, two, one := DOUBLED_TOKS[1..], DOUBLED_TOKS[2..], DOUBLED_TOKS[3..];
    assert three == [Plain('&'), Plain('&'), Plain('b')] && three[1..] == two && two[1..] == one && one[1..] == [];
    assert ExpandToks(one) == one && ExpandToks(two) == two && ExpandToks(three) == three;
    assert UnknownTok(one).None? && UnknownTok(two).None?;
    assert Members(Re2, one).Some? && Members(Re2, two).Some?;
    assert Doubled(three, true);
  }

  lemma DoubledParts()
    ensures AltOk(DOUBLED) && AltAccepted(Re2, DOUBLED) && UnknownAlt(DOUBLED).None? && !PythonAccepts(ToPython(DOUBLED))
  {
    DoubledToks();
    hide ExpandToks, UnknownTok, Members, Doubled;
    var a := Class(false, false, DOUBLED_TOKS);
    assert AtomToPython(a) == a && Inside(false, DOUBLED_TOKS) == DOUBLED_TOKS;
    assert !AtomAccepted(Python, a);
    assert ToPython(DOUBLED) == DOUBLED;
  }

  lemma DoubledText()
    ensures AltText(DOUBLED, "") == "[a&&b]"
  {
    var three, two, one := DOUBLED_TOKS[1..], DOUBLED_TOKS[2..], DOUBLED_TOKS[3..];
    assert three == [Plain('&'), Plain('&'), Plain('b')] && three[1..] == two && two[1..] == one && one[1..] == [];
    assert ToksText(one, "]") == "b" + "]";
    assert ToksText(two, "]") == "&" + ("b" + "]");
    assert ToksText(three, "]") == "&" + ("&" + ("b" + "]"));
    assert ToksText(DOUBLED_TOKS, "]") == "a" + ("&" + ("&" + ("b" + "]"))) == "a&&b]";
    PlainClassText(DOUBLED_TOKS);
    assert "[" + "a&&b]" == "[a&&b]";
  }

  const BLANK_TOKS := [Posix("blank")]

  /** A named class that the scanner's table does not have. */
  lemma BlankRefused()
    ensures AltOk(BLANK) && AltAccepted(Re2, BLANK) && !Convertible(BLANK) && AltText(BLANK, "") == "[[:blank:]]"
    ensures Scan("[[:blank:]]", true, false, [], []) == Err("blank")
  {
    BlankParts();
    BlankText();
    ScanIsTranslation(BLANK);
    hide *;
  }

  lemma BlankParts()
    ensures AltOk(BLANK) && AltAccepted(Re2, BLANK) && !Convertible(BLANK) && UnknownAlt(BLANK) == Some("blank")
  {
    assert BLANK_TOKS[1..] == [] && Inside(false, BLANK_TOKS) == BLANK_TOKS;
    assert Members(Re2, BLANK_TOKS).Some?;
    assert UnknownTok(BLANK_TOKS) == Some("blank");
  }

  lemma BlankText()
    ensures AltText(BLANK, "") == "[[:blank:]]"
  {
    assert BLANK_TOKS[1..] == [];
    assert ToksText(BLANK_TOKS, "]") == "[:" + ("blank" + (":]" + "]"));
    PlainClassText(BLANK_TOKS);
    assert "[" + ("[:" + ("blank" + (":]" + "]"))) == "[[:blank:]]";
  }
}
