/**
 How Python reads a bracket expression after the named classes in it were expanded. It is
 what RE2 reads except where a `-` after an expansion (or an escaped class) makes a range.
 */
module RegexClasses {
  import opened Basics
  import opened RegexSyntax
  import opened RegexScan
  import opened RegexTranslation
  import opened RegexMeaning

  /**
   A unit whose Python reading would take a following `-` as a range: the escapes that are
   sets, and the two named classes whose expansion ends in a single character.
   */
  predicate TakesDash(t: ClassTok) {
    PerlClass(t) || (t.Posix? && (t.name == "word" || t.name == "space"))
  }

  /** Checkable on the pattern: such a unit stands right before `-` and one more unit. */
  predicate Hazard(toks: seq<ClassTok>) {
    exists i :: 0 <= i && i + 2 < |toks| && TakesDash(toks[i]) && toks[i + 1] == Plain('-')
  }

  // ---- bracket expressions --------------------------------------------------------------

  lemma MembersTail(d: Dialect, t: ClassTok, ts: seq<ClassTok>)
    requires !t.Posix? && !(|ts| >= 2 && ts[0] == Plain('-'))
    ensures Members(d, [t] + ts) == Cons(One(t), Members(d, ts))
  {
    assert ([t] + ts)[1..] == ts;
  }

  lemma MembersSpan(d: Dialect, lo: ClassTok, hi: ClassTok, ts: seq<ClassTok>)
    requires !lo.Posix? && !PerlClass(lo) && !hi.Posix? && !PerlClass(hi) && TokValue(lo) <= TokValue(hi)
    ensures Members(d, [lo, Plain('-'), hi] + ts) == Cons(Span(lo, hi), Members(d, ts))
  {
    assert ([lo, Plain('-'), hi] + ts)[3..] == ts;
  }

  lemma PrefixCons(x: Member, xs: seq<Member>, r: Option<seq<Member>>)
    ensures Cons(x, Prefix(xs, r)) == Prefix([x] + xs, r)
  {
    if r.Some? {
      assert [x] + (xs + r.value) == ([x] + xs) + r.value;
    }
  }

  lemma PrefixNothing(r: Option<seq<Member>>)
    ensures Prefix([], r) == r
  {
    if r.Some? {
      assert [] + r.value == r.value;
    }
  }

  /** A range of the expansion table, read off the front. */
  lemma ReadRange(lo: char, hi: char, text: string, ts: seq<ClassTok>)
    requires lo <= hi
    ensures Members(Python, PlainToks([lo, '-', hi] + text) + ts)
         == Cons(Spans(lo, hi), Members(Python, PlainToks(text) + ts))
  {
    var all := PlainToks([lo, '-', hi] + text) + ts;
    assert all == [Plain(lo), Plain('-'), Plain(hi)] + (PlainToks(text) + ts);
    MembersSpan(Python, Plain(lo), Plain(hi), PlainToks(text) + ts);
  }

  lemma ReadNothing(ts: seq<ClassTok>)
    ensures PlainToks("") + ts == ts
  {
  }

  lemma ReadAlnum(ts: seq<ClassTok>)
    ensures Members(Python, PlainToks("a-zA-Z0-9") + ts) == Prefix([Spans('a', 'z'), Spans('A', 'Z'), Spans('0', '9')], Members(Python, ts))
  {
    ReadNothing(ts);
    assert "a-zA-Z0-9" == ['a', '-', 'z'] + "A-Z0-9" && "A-Z0-9" == ['A', '-', 'Z'] + "0-9" && "0-9" == ['0', '-', '9'] + "";
    ReadRange('a', 'z', "A-Z0-9", ts);
    ReadRange('A', 'Z', "0-9", ts);
    ReadRange('0', '9', "", ts);
    ThreeMore(Spans('a', 'z'), Spans('A', 'Z'), Spans('0', '9'), Members(Python, ts));
  }

  lemma ReadAlpha(ts: seq<ClassTok>)
    ensures Members(Python, PlainToks("a-zA-Z") + ts) == Prefix([Spans('a', 'z'), Spans('A', 'Z')], Members(Python, ts))
  {
    ReadNothing(ts);
    assert "a-zA-Z" == ['a', '-', 'z'] + "A-Z" && "A-Z" == ['A', '-', 'Z'] + "";
    ReadRange('a', 'z', "A-Z", ts);
    ReadRange('A', 'Z', "", ts);
    TwoMore(Spans('a', 'z'), Spans('A', 'Z'), Members(Python, ts));
  }

  lemma ReadXdigit(ts: seq<ClassTok>)
    ensures Members(Python, PlainToks("0-9A-Fa-f") + ts) == Prefix([Spans('0', '9'), Spans('A', 'F'), Spans('a', 'f')], Members(Python, ts))
  {
    ReadNothing(ts);
    assert "0-9A-Fa-f" == ['0', '-', '9'] + "A-Fa-f" && "A-Fa-f" == ['A', '-', 'F'] + "a-f" && "a-f" == ['a', '-', 'f'] + "";
    ReadRange('0', '9', "A-Fa-f", ts);
    ReadRange('A', 'F', "a-f", ts);
    ReadRange('a', 'f', "", ts);
    ThreeMore(Spans('0', '9'), Spans('A', 'F'), Spans('a', 'f'), Members(Python, ts));
  }

  lemma ReadSole(lo: char, hi: char, ts: seq<ClassTok>)
    requires lo <= hi
    ensures Members(Python, PlainToks([lo, '-', hi]) + ts) == Prefix([Spans(lo, hi)], Members(Python, ts))
  {
    ReadNothing(ts);
    assert [lo, '-', hi] + "" == [lo, '-', hi];
    ReadRange(lo, hi, "", ts);
    PrefixNothing(Members(Python, ts));
    PrefixCons(Spans(lo, hi), [], Members(Python, ts));
    assert [Spans(lo, hi)] + [] == [Spans(lo, hi)];
  }

  /** The six expansions made of ranges only read as their class, whatever follows. */
  lemma ReadRanges(name: string, ts: seq<ClassTok>)
    requires PosixText(name).Some? && name != "space" && name != "word"
    ensures Members(Python, PlainToks(PosixText(name).value) + ts)
         == Prefix(PosixMembers(name).value, Members(Python, ts))
  {
    hide Members, PlainToks, Prefix;
    if name == "alnum" {
      ReadAlnum(ts);
    } else if name == "alpha" {
      ReadAlpha(ts);
    } else if name == "xdigit" {
      ReadXdigit(ts);
    } else {
      var text := PosixText(name).value;
      assert text == [text[0], '-', text[2]];
      ReadSole(text[0], text[2], ts);
    }
  }

  lemma TwoMore(x: Member, y: Member, r: Option<seq<Member>>)
    ensures Cons(x, Cons(y, r)) == Prefix([x, y], r)
  {
    if r.Some? {
      assert [x] + ([y] + r.value) == [x, y] + r.value;
    }
  }

  lemma ThreeMore(x: Member, y: Member, z: Member, r: Option<seq<Member>>)
    ensures Cons(x, Cons(y, Cons(z, r))) == Prefix([x, y, z], r)
  {
    if r.Some? {
      assert [x] + ([y] + ([z] + r.value)) == [x, y, z] + r.value;
    }
  }

  /** Whether `ts` would make a range out of the single character before it. */
  predicate Dashed(ts: seq<ClassTok>) { |ts| >= 2 && ts[0] == Plain('-') }

  /** What Python reads for the expansion's last, single character before `ts`. */
  function LastRead(c: char, ts: seq<ClassTok>): Option<seq<Member>> {
    Members(Python, [Plain(c)] + ts)
  }

  lemma ReadSingles(text: string, c: char, ts: seq<ClassTok>)
    requires forall i :: 0 <= i < |text| ==> text[i] != '-' && c != '-'
    ensures Members(Python, PlainToks(text + [c]) + ts) == Prefix(Ones(text), LastRead(c, ts))
  {
    if text == "" {
      assert PlainToks([c]) + ts == [Plain(c)] + ts;
      assert text + [c] == [c];
      PrefixNothing(LastRead(c, ts));
    } else {
      var rest := PlainToks(text[1..] + [c]) + ts;
      assert (text + [c])[1..] == text[1..] + [c];
      assert PlainToks(text + [c]) + ts == [Plain(text[0])] + rest;
      assert rest[0] == Plain((text[1..] + [c])[0]);
      MembersTail(Python, Plain(text[0]), rest);
      ReadSingles(text[1..], c, ts);
      PrefixCons(One(Plain(text[0])), Ones(text[1..]), LastRead(c, ts));
    }
  }

  function Ones(text: string): seq<Member> {
    if text == "" then [] else [One(Plain(text[0]))] + Ones(text[1..])
  }

  lemma OnesAre(text: string)
    ensures |Ones(text)| == |text|
    ensures forall i :: 0 <= i < |text| ==> Ones(text)[i] == One(Plain(text[i]))
  {
  }

  lemma ReadWord(ts: seq<ClassTok>)
    ensures Members(Python, PlainToks("0-9A-Za-z_") + ts)
         == Prefix([Spans('0', '9'), Spans('A', 'Z'), Spans('a', 'z')], LastRead('_', ts))
  {
    assert "0-9A-Za-z_" == ['0', '-', '9'] + "A-Za-z_" && "A-Za-z_" == ['A', '-', 'Z'] + "a-z_" && "a-z_" == ['a', '-', 'z'] + "_";
    ReadRange('0', '9', "A-Za-z_", ts);
    ReadRange('A', 'Z', "a-z_", ts);
    ReadRange('a', 'z', "_", ts);
    assert PlainToks("_") + ts == [Plain('_')] + ts;
    ThreeMore(Spans('0', '9'), Spans('A', 'Z'), Spans('a', 'z'), LastRead('_', ts));
  }

  lemma ReadSpace(ts: seq<ClassTok>)
    ensures Members(Python, PlainToks(PosixText("space").value) + ts)
         == Prefix([One(Plain('\t')), One(Plain('\n')), One(Plain(11 as char)), One(Plain(12 as char)), One(Plain('\r'))],
                   LastRead(' ', ts))
  {
    var text: string := ['\t', '\n', 11 as char, 12 as char, '\r'];
    assert PosixText("space").value == text + [' '];
    ReadSingles(text, ' ', ts);
    OnesAre(text);
    assert Ones(text) == [One(Plain('\t')), One(Plain('\n')), One(Plain(11 as char)), One(Plain(12 as char)), One(Plain('\r'))];
  }

  /** `ts` as Python sees it starts with a dash exactly when it does in RE2. */
  lemma ExpandedDash(ts: seq<ClassTok>)
    requires UnknownTok(ts).None?
    ensures |ExpandToks(ts)| >= |ts|
    ensures Dashed(ExpandToks(ts)) <==> Dashed(ts)
  {
    if ts != [] {
      ExpandedDash(ts[1..]);
      ExpandedHead(ts);
    }
  }

  lemma ExpandedHead(ts: seq<ClassTok>)
    requires ts != [] && UnknownTok(ts).None?
    ensures !ts[0].Posix? ==> ExpandToks(ts) == [ts[0]] + ExpandToks(ts[1..])
    ensures ts[0].Posix? ==>
      && |ExpandToks(ts)| > |ExpandToks(ts[1..])|
      && ExpandToks(ts)[0].Plain? && ExpandToks(ts)[0] != Plain('-')
  {
    if ts[0].Posix? {
      PosixTextHead(ts[0].name);
      hide PosixText;
      assert ExpandToks(ts) == PlainToks(PosixText(ts[0].name).value) + ExpandToks(ts[1..]);
    }
  }

  lemma PosixTextHead(name: string)
    requires PosixText(name).Some?
    ensures PosixText(name).value != "" && PosixText(name).value[0] != '-'
    ensures PosixMembers(name).Some?
  {
  }

  lemma HazardStep(toks: seq<ClassTok>)
    requires toks != []
    ensures Hazard(toks) <==> (TakesDash(toks[0]) && Dashed(toks[1..])) || Hazard(toks[1..])
  {
    if TakesDash(toks[0]) && Dashed(toks[1..]) {
      assert TakesDash(toks[0]) && toks[0 + 1] == Plain('-');
    }
    if Hazard(toks[1..]) {
      var i :| 0 <= i && i + 2 < |toks[1..]| && TakesDash(toks[1..][i]) && toks[1..][i + 1] == Plain('-');
      assert TakesDash(toks[i + 1]) && toks[(i + 1) + 1] == Plain('-');
    }
    if Hazard(toks) && !(TakesDash(toks[0]) && Dashed(toks[1..])) {
      var i :| 0 <= i && i + 2 < |toks| && TakesDash(toks[i]) && toks[i + 1] == Plain('-');
      assert i > 0;
      assert TakesDash(toks[1..][i - 1]) && toks[1..][(i - 1) + 1] == Plain('-');
    }
  }

  lemma PrefixCancels(xs: seq<Member>, a: Option<seq<Member>>, b: Option<seq<Member>>)
    ensures Prefix(xs, a) == Prefix(xs, b) <==> a == b
  {
    if a.Some? && b.Some? && xs + a.value == xs + b.value {
      assert a.value == (xs + a.value)[|xs|..];
      assert b.value == (xs + b.value)[|xs|..];
    }
  }

  /** A single character at the end of an expansion: read as RE2 means it, unless a range swallows it. */
  lemma LastReadIs(c: char, ts: seq<ClassTok>)
    ensures !Dashed(ts) ==> LastRead(c, ts) == Cons(One(Plain(c)), Members(Python, ts))
    ensures Dashed(ts) ==> LastRead(c, ts).None? || (LastRead(c, ts).value != [] && LastRead(c, ts).value[0].Span?)
  {
    if !Dashed(ts) {
      MembersTail(Python, Plain(c), ts);
    } else {
      var all := [Plain(c)] + ts;
      assert all[1] == ts[0] && all[2] == ts[1];
    }
  }

  /**
   For a bracket expression RE2 accepts, Python reads the expanded text as the same
   members exactly when no hazard occurs in it.
   */
  lemma {:induction false} ReadsAlike(toks: seq<ClassTok>)
    requires UnknownTok(toks).None? && Members(Re2, toks).Some?
    ensures Members(Python, ExpandToks(toks)) == Members(Re2, toks) <==> !Hazard(toks)
    decreases |toks|
  {
    if toks == [] {
    } else {
      var t, ts := toks[0], toks[1..];
      HazardStep(toks);
      ExpandedHead(toks);
      if t.Posix? {
        ReadsAlike(ts);
        ReadsPosix(t.name, ts);
      } else if |toks| >= 3 && toks[1] == Plain('-') && !PerlClass(t) {
        ReadsSpan(toks);
      } else {
        ReadsAlike(ts);
        assert toks == [t] + ts;
        ReadsOne(t, ts);
      }
    }
  }

  lemma ReadsPosix(name: string, ts: seq<ClassTok>)
    requires PosixText(name).Some? && UnknownTok(ts).None? && Members(Re2, ts).Some?
    requires Members(Python, ExpandToks(ts)) == Members(Re2, ts) <==> !Hazard(ts)
    ensures PosixMembers(name).Some?
    ensures Members(Python, PlainToks(PosixText(name).value) + ExpandToks(ts)) == Prefix(PosixMembers(name).value, Members(Re2, ts))
       <==> !(TakesDash(Posix(name)) && Dashed(ts)) && !Hazard(ts)
  {
    var es := ExpandToks(ts);
    var r := Members(Re2, ts);
    ExpandedDash(ts);
    PosixTextHead(name);
    if name == "word" {
      ReadsWord(es, r);
    } else if name == "space" {
      ReadsSpace(es, r);
    } else {
      ReadRanges(name, es);
      hide PosixText;
      hide PosixMembers;
      PrefixCancels(PosixMembers(name).value, Members(Python, es), r);
    }
  }

  lemma ReadsWord(es: seq<ClassTok>, r: Option<seq<Member>>)
    requires r.Some?
    ensures Members(Python, PlainToks(PosixText("word").value) + es) == Prefix(PosixMembers("word").value, r)
       <==> !Dashed(es) && Members(Python, es) == r
  {
    var front := [Spans('0', '9'), Spans('A', 'Z'), Spans('a', 'z')];
    ReadWord(es);
    assert PosixMembers("word").value == front + [One(Plain('_'))];
    ReadsEnding(front, '_', es, r);
  }

  lemma ReadsSpace(es: seq<ClassTok>, r: Option<seq<Member>>)
    requires r.Some?
    ensures Members(Python, PlainToks(PosixText("space").value) + es) == Prefix(PosixMembers("space").value, r)
       <==> !Dashed(es) && Members(Python, es) == r
  {
    var front := [One(Plain('\t')), One(Plain('\n')), One(Plain(11 as char)), One(Plain(12 as char)), One(Plain('\r'))];
    ReadSpace(es);
    assert PosixMembers("space").value == front + [One(Plain(' '))];
    ReadsEnding(front, ' ', es, r);
  }

  /** An expansion ending in the single character `c` reads as its class unless a dash follows. */
  lemma ReadsEnding(front: seq<Member>, c: char, es: seq<ClassTok>, r: Option<seq<Member>>)
    requires r.Some?
    ensures Prefix(front, LastRead(c, es)) == Prefix(front + [One(Plain(c))], r)
       <==> !Dashed(es) && Members(Python, es) == r
  {
    assert front + ([One(Plain(c))] + r.value) == (front + [One(Plain(c))]) + r.value;
    PrefixCancels(front, LastRead(c, es), Cons(One(Plain(c)), r));
    LastReadIs(c, es);
    ConsCancels(One(Plain(c)), Members(Python, es), r);
  }

  lemma ConsCancels(x: Member, a: Option<seq<Member>>, b: Option<seq<Member>>)
    ensures Cons(x, a) == Cons(x, b) <==> a == b
  {
    if a.Some? && b.Some? && [x] + a.value == [x] + b.value {
      assert a.value == ([x] + a.value)[1..];
      assert b.value == ([x] + b.value)[1..];
    }
  }

  lemma ReadsOne(t: ClassTok, ts: seq<ClassTok>)
    requires !t.Posix? && UnknownTok(ts).None? && Members(Re2, ts).Some? && (Dashed(ts) ==> PerlClass(t))
    requires Members(Python, ExpandToks(ts)) == Members(Re2, ts) <==> !Hazard(ts)
    ensures Members(Python, ExpandToks([t] + ts)) == Members(Re2, [t] + ts)
       <==> !(PerlClass(t) && Dashed(ts)) && !Hazard(ts)
  {
    var es := ExpandToks(ts);
    ExpandedDash(ts);
    ExpandedHead([t] + ts);
    assert ([t] + ts)[1..] == ts;
    assert ExpandToks([t] + ts) == [t] + es;
    assert Members(Re2, [t] + ts) == Cons(One(t), Members(Re2, ts));
    if !Dashed(ts) {
      MembersTail(Python, t, es);
      ConsCancels(One(t), Members(Python, es), Members(Re2, ts));
    } else {
      assert Members(Python, [t] + es) == None;
    }
  }

  lemma {:induction false} ReadsSpan(toks: seq<ClassTok>)
    requires |toks| >= 3 && toks[1] == Plain('-') && !PerlClass(toks[0]) && !toks[0].Posix?
    requires UnknownTok(toks).None? && Members(Re2, toks).Some?
    ensures Members(Python, ExpandToks(toks)) == Members(Re2, toks) <==> !Hazard(toks)
    decreases |toks|, 0
  {
    var lo, hi, ts := toks[0], toks[2], toks[3..];
    assert toks == [lo, Plain('-'), hi] + ts;
    assert toks[1..][1..] == toks[2..] && toks[2..][1..] == ts;
    HazardStep(toks);
    HazardStep(toks[1..]);
    HazardStep(toks[2..]);
    assert UnknownTok(toks[2..]).None?;
    ReadsAlike(ts);
    ExpandedHead(toks);
    ExpandedHead(toks[1..]);
    ExpandedHead(toks[2..]);
    var es := ExpandToks(ts);
    assert ExpandToks(toks) == [lo, Plain('-'), hi] + es;
    MembersSpan(Python, lo, hi, es);
    MembersSpan(Re2, lo, hi, ts);
    ConsCancels(Span(lo, hi), Members(Python, es), Members(Re2, ts));
  }

  // ---- doubled signs ---------------------------------------------------------------------

  lemma DoubledNext(t: ClassTok, ts: seq<ClassTok>, started: bool)
    requires !Dashed(ts) || t.Posix?
    ensures Doubled([t] + ts, started) <==> (started && ts != [] && SetSign(t) && ts[0] == t) || Doubled(ts, true)
  {
    assert ([t] + ts)[1..] == ts;
  }

  lemma DoubledSpan(lo: ClassTok, hi: ClassTok, ts: seq<ClassTok>, started: bool)
    requires !lo.Posix?
    ensures Doubled([lo, Plain('-'), hi] + ts, started) <==> (started && lo == Plain('-')) || hi == Plain('-') || Doubled(ts, true)
  {
    var all := [lo, Plain('-'), hi] + ts;
    assert all[3..] == ts && all[1] == Plain('-');
  }

  lemma DoubledRange(lo: char, hi: char, text: string, ts: seq<ClassTok>, started: bool)
    requires lo != '-' && hi != '-'
    ensures Doubled(PlainToks([lo, '-', hi] + text) + ts, started) == Doubled(PlainToks(text) + ts, true)
  {
    var all := PlainToks([lo, '-', hi] + text) + ts;
    assert all == [Plain(lo), Plain('-'), Plain(hi)] + (PlainToks(text) + ts);
    DoubledSpan(Plain(lo), Plain(hi), PlainToks(text) + ts, started);
  }

  lemma DoubledAlnum(ts: seq<ClassTok>, started: bool)
    ensures Doubled(PlainToks("a-zA-Z0-9") + ts, started) == Doubled(ts, true)
  {
    ReadNothing(ts);
    assert "a-zA-Z0-9" == ['a', '-', 'z'] + "A-Z0-9" && "A-Z0-9" == ['A', '-', 'Z'] + "0-9" && "0-9" == ['0', '-', '9'] + "";
    DoubledRange('a', 'z', "A-Z0-9", ts, started);
    DoubledRange('A', 'Z', "0-9", ts, true);
    DoubledRange('0', '9', "", ts, true);
  }

  lemma DoubledAlpha(ts: seq<ClassTok>, started: bool)
    ensures Doubled(PlainToks("a-zA-Z") + ts, started) == Doubled(ts, true)
  {
    ReadNothing(ts);
    assert "a-zA-Z" == ['a', '-', 'z'] + "A-Z" && "A-Z" == ['A', '-', 'Z'] + "";
    DoubledRange('a', 'z', "A-Z", ts, started);
    DoubledRange('A', 'Z', "", ts, true);
  }

  lemma DoubledXdigit(ts: seq<ClassTok>, started: bool)
    ensures Doubled(PlainToks("0-9A-Fa-f") + ts, started) == Doubled(ts, true)
  {
    ReadNothing(ts);
    assert "0-9A-Fa-f" == ['0', '-', '9'] + "A-Fa-f" && "A-Fa-f" == ['A', '-', 'F'] + "a-f" && "a-f" == ['a', '-', 'f'] + "";
    DoubledRange('0', '9', "A-Fa-f", ts, started);
    DoubledRange('A', 'F', "a-f", ts, true);
    DoubledRange('a', 'f', "", ts, true);
  }

  lemma DoubledSole(lo: char, hi: char, ts: seq<ClassTok>, started: bool)
    requires lo != '-' && hi != '-'
    ensures Doubled(PlainToks([lo, '-', hi]) + ts, started) == Doubled(ts, true)
  {
    ReadNothing(ts);
    assert [lo, '-', hi] + "" == [lo, '-', hi];
    DoubledRange(lo, hi, "", ts, started);
  }

  lemma DoubledRanges(name: string, ts: seq<ClassTok>, started: bool)
    requires PosixText(name).Some? && name != "space" && name != "word"
    ensures Doubled(PlainToks(PosixText(name).value) + ts, started) == Doubled(ts, true)
  {
    hide Doubled, PlainToks;
    if name == "alnum" {
      DoubledAlnum(ts, started);
    } else if name == "alpha" {
      DoubledAlpha(ts, started);
    } else if name == "xdigit" {
      DoubledXdigit(ts, started);
    } else {
      var text := PosixText(name).value;
      assert text == [text[0], '-', text[2]];
      DoubledSole(text[0], text[2], ts, started);
    }
  }

  lemma DoubledSingles(text: string, ts: seq<ClassTok>, started: bool)
    requires text != "" && !Dashed(ts) && forall i :: 0 <= i < |text| ==> !SetSign(Plain(text[i]))
    ensures Doubled(PlainToks(text) + ts, started) == Doubled(ts, true)
    decreases |text|
  {
    var rest := PlainToks(text[1..]) + ts;
    assert PlainToks(text) + ts == [Plain(text[0])] + rest;
    if text[1..] == "" {
      ReadNothing(ts);
    } else {
      assert rest[0] == Plain(text[1]);
      DoubledSingles(text[1..], ts, true);
    }
    DoubledNext(Plain(text[0]), rest, started);
  }

  lemma DoubledWord(ts: seq<ClassTok>, started: bool)
    requires !Dashed(ts)
    ensures Doubled(PlainToks("0-9A-Za-z_") + ts, started) == Doubled(ts, true)
  {
    assert "0-9A-Za-z_" == ['0', '-', '9'] + "A-Za-z_" && "A-Za-z_" == ['A', '-', 'Z'] + "a-z_" && "a-z_" == ['a', '-', 'z'] + "_";
    DoubledRange('0', '9', "A-Za-z_", ts, started);
    DoubledRange('A', 'Z', "a-z_", ts, true);
    DoubledRange('a', 'z', "_", ts, true);
    DoubledSingles("_", ts, true);
  }

  lemma DoubledPosix(name: string, ts: seq<ClassTok>, started: bool)
    requires PosixText(name).Some? && !(TakesDash(Posix(name)) && Dashed(ts))
    ensures Doubled(PlainToks(PosixText(name).value) + ts, started) == Doubled(ts, true)
  {
    if name == "word" {
      DoubledWord(ts, started);
    } else if name == "space" {
      DoubledSingles(PosixText(name).value, ts, started);
    } else {
      DoubledRanges(name, ts, started);
    }
  }

  /** Where no hazard occurs, the expanded text has a doubled sign exactly where the original has one. */
  lemma {:induction false} DoubledAlike(toks: seq<ClassTok>, started: bool)
    requires UnknownTok(toks).None? && Members(Re2, toks).Some? && !Hazard(toks)
    ensures Doubled(ExpandToks(toks), started) == Doubled(toks, started)
    decreases |toks|
  {
    if toks != [] {
      var t, ts := toks[0], toks[1..];
      var es := ExpandToks(ts);
      assert toks == [t] + ts;
      HazardStep(toks);
      ExpandedHead(toks);
      ExpandedDash(ts);
      if t.Posix? {
        DoubledAlike(ts, true);
        DoubledPosix(t.name, es, started);
        DoubledNext(t, ts, started);
      } else if |toks| >= 3 && toks[1] == Plain('-') && !PerlClass(t) {
        DoubledSpans(toks, started);
      } else {
        DoubledAlike(ts, true);
        DoubledNext(t, ts, started);
        DoubledNext(t, es, started);
        if ts != [] {
          ExpandedHead(ts);
          if ts[0].Posix? { HeadNoSign(ts); }
        }
      }
    }
  }

  lemma HeadNoSign(ts: seq<ClassTok>)
    requires ts != [] && UnknownTok(ts).None? && ts[0].Posix?
    ensures ExpandToks(ts) != [] && !SetSign(ExpandToks(ts)[0])
  {
    var text := PosixText(ts[0].name).value;
    TextNoSign(ts[0].name);
    assert ExpandToks(ts)[0] == Plain(text[0]);
  }

  lemma TextNoSign(name: string)
    requires PosixText(name).Some?
    ensures PosixText(name).value != "" && !SetSign(Plain(PosixText(name).value[0]))
  {
  }

  lemma {:induction false} DoubledSpans(toks: seq<ClassTok>, started: bool)
    requires |toks| >= 3 && toks[1] == Plain('-') && !PerlClass(toks[0]) && !toks[0].Posix?
    requires UnknownTok(toks).None? && Members(Re2, toks).Some? && !Hazard(toks)
    ensures Doubled(ExpandToks(toks), started) == Doubled(toks, started)
    decreases |toks|, 0
  {
    var lo, hi, ts := toks[0], toks[2], toks[3..];
    assert toks == [lo, Plain('-'), hi] + ts;
    assert toks[1..][1..] == toks[2..] && toks[2..][1..] == ts;
    HazardStep(toks);
    HazardStep(toks[1..]);
    HazardStep(toks[2..]);
    assert UnknownTok(toks[2..]).None?;
    DoubledAlike(ts, true);
    ExpandedHead(toks);
    ExpandedHead(toks[1..]);
    ExpandedHead(toks[2..]);
    var es := ExpandToks(ts);
    assert ExpandToks(toks) == [lo, Plain('-'), hi] + es;
    DoubledSpan(lo, hi, es, started);
    DoubledSpan(lo, hi, ts, started);
  }
}
