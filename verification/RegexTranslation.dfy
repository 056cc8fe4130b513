/**
 What the translation does to a pattern, as a map on trees, and the proof that the scanner
 computes it on texts. A flag group in the middle of an alternative becomes a scoped group
 around the rest of that alternative, and every later alternative of the same group is
 wrapped in all the scopes before it.
 */
module RegexTranslation {
  import opened Basics
  import opened RegexSyntax
  import opened RegexScan

  datatype FlagSpec = FlagSpec(on: string, off: string)

  function Texts(open: seq<FlagSpec>): (r: seq<string>)
    ensures |r| == |open|
  {
    if open == [] then [] else [FlagText(open[0].on, open[0].off)] + Texts(open[1..])
  }

  function PlainToks(s: string): (r: seq<ClassTok>)
    ensures |r| == |s|
    ensures forall i :: 0 <= i < |s| ==> r[i] == Plain(s[i])
  {
    if s == "" then [] else [Plain(s[0])] + PlainToks(s[1..])
  }

  function ExpandToks(toks: seq<ClassTok>): seq<ClassTok> {
    if toks == [] then []
    else
      match toks[0]
      case Posix(name) =>
        (match PosixText(name) case Some(text) => PlainToks(text) case None => []) + ExpandToks(toks[1..])
      case _ => [toks[0]] + ExpandToks(toks[1..])
  }

  /** The flag groups an alternative opens at its own depth, in order. */
  function Opened(c: Cat): seq<FlagSpec> {
    match c
    case End => []
    case Item(Flags(on, off), _, rest) => [FlagSpec(on, off)] + Opened(rest)
    case Item(_, _, rest) => Opened(rest)
  }

  function OpenedByAll(a: Alt): seq<FlagSpec> {
    match a
    case Only(c) => Opened(c)
    case Or(c, others) => Opened(c) + OpenedByAll(others)
  }

  function Scope(f: FlagSpec, c: Cat): Cat {
    Item(Group(Scoped(f.on, f.off), Only(c)), Once, End)
  }

  function Wrap(open: seq<FlagSpec>, c: Cat): Cat {
    if open == [] then c else Scope(open[0], Wrap(open[1..], c))
  }

  function AtomToPython(a: Atom): Atom {
    match a
    case Escape('z') => Escape('Z')
    case Class(negated, bracket, toks) => Class(negated, bracket, ExpandToks(toks))
    case Group(kind, body) => Group(kind, AltToPython(body, []))
    case _ => a
  }

  function CatToPython(c: Cat): Cat {
    match c
    case End => End
    case Item(Flags(on, off), _, rest) => Scope(FlagSpec(on, off), CatToPython(rest))
    case Item(a, q, rest) => Item(AtomToPython(a), q, CatToPython(rest))
  }

  /** `open`: the flag groups earlier alternatives of the same group have scopes. */
  function AltToPython(a: Alt, open: seq<FlagSpec>): Alt {
    match a
    case Only(c) => Only(Wrap(open, CatToPython(c)))
    case Or(c, others) => Or(Wrap(open, CatToPython(c)), AltToPython(others, open + Opened(c)))
  }

  /** The first alternative, and the same pattern with another one there. */
  function FirstCat(a: Alt): Cat {
    match a
    case Only(c) => c
    case Or(c, _) => c
  }

  function WithFirst(a: Alt, c: Cat): Alt {
    match a
    case Only(_) => Only(c)
    case Or(_, others) => Or(c, others)
  }

  predicate LeadsWithFlags(a: Alt) {
    var c := FirstCat(a);
    c.Item? && c.atom.Flags?
  }

  /** A flag group at position 0 stays where it is. */
  function ToPython(a: Alt): Alt {
    if LeadsWithFlags(a) then
      var c := FirstCat(a);
      var rest := AltToPython(WithFirst(a, c.rest), []);
      WithFirst(rest, Item(c.atom, c.quant, FirstCat(rest)))
    else AltToPython(a, [])
  }

  // ---- names the scanner refuses ----------------------------------------------

  function UnknownTok(toks: seq<ClassTok>): Option<string> {
    if toks == [] then None
    else if toks[0].Posix? && PosixText(toks[0].name).None? then Some(toks[0].name)
    else UnknownTok(toks[1..])
  }

  function UnknownAtom(a: Atom): Option<string> {
    match a
    case Class(_, _, toks) => UnknownTok(toks)
    case Group(_, body) => UnknownAlt(body)
    case _ => None
  }

  function UnknownCat(c: Cat): Option<string> {
    match c
    case End => None
    case Item(a, _, rest) => if UnknownAtom(a).Some? then UnknownAtom(a) else UnknownCat(rest)
  }

  /** The first class name of the pattern that has no expansion. */
  function UnknownAlt(a: Alt): Option<string> {
    match a
    case Only(c) => UnknownCat(c)
    case Or(c, others) => if UnknownCat(c).Some? then UnknownCat(c) else UnknownAlt(others)
  }

  // ---- the text the scanner writes -----------------------------------------------

  /** What is written for an alternative, its scopes still open, in front of `k`. */
  function OutCat(c: Cat, k: string): string {
    match c
    case End => k
    case Item(Flags(on, off), _, rest) => Opener(FlagText(on, off), OutCat(rest, k))
    case Item(a, q, rest) => AtomText(AtomToPython(a), QuantText(q, OutCat(rest, k)))
  }

  /** What is written for the alternatives of one group, `open` already open, in front of `k`. */
  function OutAlt(a: Alt, open: seq<string>, k: string): string {
    match a
    case Only(c) => OutCat(c, k)
    case Or(c, others) =>
      var now := open + Texts(Opened(c));
      OutCat(c, Closers(|now|, "|" + Openers(now, OutAlt(others, now, k))))
  }

  lemma TextsAppend(a: seq<FlagSpec>, b: seq<FlagSpec>)
    ensures Texts(a + b) == Texts(a) + Texts(b)
  {
    if a == [] {
      assert a + b == b;
    } else {
      assert (a + b)[1..] == a[1..] + b;
      TextsAppend(a[1..], b);
    }
  }

  lemma ClosersAppend(n: nat, a: string, b: string)
    ensures Closers(n, a) + b == Closers(n, a + b)
  {
    if n > 0 {
      ClosersAppend(n - 1, a, b);
      assert ")" + (Closers(n - 1, a) + b) == (")" + Closers(n - 1, a)) + b;
    }
  }

  lemma OpenersAppend(open: seq<string>, a: string, b: string)
    ensures Openers(open, a) + b == Openers(open, a + b)
  {
    if open != [] {
      OpenersAppend(open[1..], a, b);
      var tail := Openers(open[1..], a);
      assert Opener(open[0], tail) + b == Opener(open[0], tail + b);
    }
  }

  /** One turn unrolled. */
  lemma ScanTurn(s: string, first: bool, inClass: bool, open: seq<string>, outer: seq<seq<string>>,
                 taken: nat, k: string)
    requires s != "" && taken <= |s| && s[taken..] == k
    requires var t := TurnOf(s, first, inClass, open, outer); t.Go? && t.taken == taken
    ensures var t := TurnOf(s, first, inClass, open, outer);
            Scan(s, first, inClass, open, outer) == Put(t.piece, Scan(k, false, t.inClass, t.open, t.outer))
  {
  }

  lemma ScanRefused(s: string, first: bool, inClass: bool, open: seq<string>, outer: seq<seq<string>>)
    requires s != "" && TurnOf(s, first, inClass, open, outer).Refused?
    ensures Scan(s, first, inClass, open, outer) == Err(TurnOf(s, first, inClass, open, outer).name)
  {
  }

  predicate Copied(p: string) { forall i :: 0 <= i < |p| ==> !Structural(p[i]) }

  lemma {:induction false} ScanCopied(p: string, k: string, first: bool, open: seq<string>, outer: seq<seq<string>>)
    requires Copied(p)
    ensures Scan(p + k, first, false, open, outer) == Put(p, Scan(k, first && p == "", false, open, outer))
  {
    if p == "" {
      assert p + k == k;
      PutNothing(Scan(k, first, false, open, outer));
    } else {
      assert (p + k)[1..] == p[1..] + k;
      ScanTurn(p + k, first, false, open, outer, 1, p[1..] + k);
      ScanCopied(p[1..], k, false, open, outer);
      PutPut([p[0]], p[1..], Scan(k, false, false, open, outer));
      assert [p[0]] + p[1..] == p;
    }
  }

  lemma FindCloseName(name: string, i: nat, k: string)
    requires ':' !in name && i <= |name|
    ensures FindClose(TokText(Posix(name), k), 2 + i) == Some(2 + |name|)
    decreases |name| - i
  {
    var s := TokText(Posix(name), k);
    assert s[2..] == name + ([':', ']'] + k);
    if i < |name| {
      assert s[2 + i] == name[i];
      FindCloseName(name, i + 1, k);
    } else {
      assert s[2 + i] == ':' && s[3 + i] == ']';
    }
  }

  lemma PlainToksText(text: string, ts: seq<ClassTok>, k: string)
    ensures ToksText(PlainToks(text) + ts, k) == text + ToksText(ts, k)
  {
    if text == "" {
      assert PlainToks(text) + ts == ts;
    } else {
      var all := PlainToks(text) + ts;
      assert all[1..] == PlainToks(text[1..]) + ts;
      PlainToksText(text[1..], ts, k);
    }
  }

  lemma ScanTok(t: ClassTok, k: string, open: seq<string>, outer: seq<seq<string>>)
    requires TokOk(t)
    ensures var r := Scan(k, false, true, open, outer);
            Scan(TokText(t, k), false, true, open, outer)
            == match t
               case Posix(name) =>
                 (match PosixText(name) case Some(text) => Put(text, r) case None => Err(name))
               case _ => if r.Err? then r else Ok(TokText(t, r.value))
  {
    hide Scan;
    var s := TokText(t, k);
    match t
    case Plain(c) => ScanTurn(s, false, true, open, outer, 1, k);
    case Quoted(c) => ScanTurn(s, false, true, open, outer, 2, k);
    case HexTok(h, l) =>
      var r := Scan(k, false, true, open, outer);
      ScanTurn(s, false, true, open, outer, 2, [h, l] + k);
      ScanTurn([h, l] + k, false, true, open, outer, 1, [l] + k);
      ScanTurn([l] + k, false, true, open, outer, 1, k);
      if r.Ok? {
        assert s[..2] + ([h] + ([l] + r.value)) == ['\\', 'x', h, l] + r.value;
      }
    case Posix(name) =>
      FindCloseName(name, 0, k);
      assert s[2..2 + |name|] == name;
      assert s[4 + |name|..] == k;
      if PosixText(name).Some? {
        ScanTurn(s, false, true, open, outer, 4 + |name|, k);
      } else {
        ScanRefused(s, false, true, open, outer);
      }
  }

  lemma {:induction false} ScanToks(toks: seq<ClassTok>, k: string, open: seq<string>, outer: seq<seq<string>>)
    requires forall i :: 0 <= i < |toks| ==> TokOk(toks[i])
    ensures var s := ToksText(toks, "]" + k);
            var r := Scan(k, false, false, open, outer);
            Scan(s, false, true, open, outer)
            == if UnknownTok(toks).Some? then Err(UnknownTok(toks).value)
               else if r.Err? then r else Ok(ToksText(ExpandToks(toks), "]" + r.value))
  {
    var r := Scan(k, false, false, open, outer);
    if toks == [] {
      ScanTurn("]" + k, false, true, open, outer, 1, k);
    } else {
      var tail := ToksText(toks[1..], "]" + k);
      assert ToksText(toks, "]" + k) == TokText(toks[0], tail);
      ScanToks(toks[1..], k, open, outer);
      ScanTok(toks[0], tail, open, outer);
      if r.Ok? {
        if toks[0].Posix? && PosixText(toks[0].name).Some? {
          PlainToksText(PosixText(toks[0].name).value, ExpandToks(toks[1..]), "]" + r.value);
        } else if !toks[0].Posix? {
          assert ExpandToks(toks)[1..] == ExpandToks(toks[1..]);
        }
      }
    }
  }

  function ClassHead(negated: bool, bracket: bool): string {
    "[" + (if negated then "^" else "") + (if bracket then "]" else "")
  }

  lemma ClassHeadText(negated: bool, bracket: bool, toks: seq<ClassTok>, k: string)
    ensures ClassText(negated, bracket, toks, k) == ClassHead(negated, bracket) + ToksText(toks, "]" + k)
  {
  }

  lemma ClassHeadLength(negated: bool, bracket: bool, toks: seq<ClassTok>, k: string)
    requires ClassOk(negated, bracket, toks)
    ensures HeadLength(ClassText(negated, bracket, toks, k)) == |ClassHead(negated, bracket)|
  {
    if toks != [] {
      ParseTokText(toks[0], ToksText(toks[1..], "]" + k));
    }
  }

  lemma ScanClass(a: Atom, k: string, first: bool, open: seq<string>, outer: seq<seq<string>>)
    requires a.Class? && AtomOk(a)
    ensures var r := Scan(k, false, false, open, outer);
            Scan(AtomText(a, k), first, false, open, outer)
            == if UnknownAtom(a).Some? then Err(UnknownAtom(a).value)
               else if r.Err? then r else Ok(AtomText(AtomToPython(a), r.value))
  {
    hide Scan;
    var head := ClassHead(a.negated, a.bracket);
    var body := ToksText(a.toks, "]" + k);
    var s := ClassText(a.negated, a.bracket, a.toks, k);
    ClassHeadText(a.negated, a.bracket, a.toks, k);
    ClassHeadLength(a.negated, a.bracket, a.toks, k);
    ScanToks(a.toks, k, open, outer);
    assert s == AtomText(a, k) && s[0] == '[';
    hide ClassText, ToksText, AtomText, ClassHead;
    assert s[..|head|] == head && s[|head|..] == body;
    ScanTurn(s, first, false, open, outer, |head|, body);
    var r := Scan(k, false, false, open, outer);
    if r.Ok? && UnknownTok(a.toks).None? {
      ClassHeadText(a.negated, a.bracket, ExpandToks(a.toks), r.value);
      AtomClassText(a.negated, a.bracket, ExpandToks(a.toks), r.value);
    }
  }

  lemma AtomClassText(negated: bool, bracket: bool, toks: seq<ClassTok>, k: string)
    ensures AtomText(Class(negated, bracket, toks), k) == ClassText(negated, bracket, toks, k)
  {
  }

  /** The shared shape: both flag groups and scoped openings start with these letters. */
  lemma FlagBodyText(on: string, off: string, tail: string)
    requires AllFlags(on) && AllFlags(off)
    requires tail != "" && (tail[0] == ':' || (tail[0] == ')' && (on != "" || off != "")))
    ensures FlagBody(FlagText(on, off) + tail) == if tail[0] == ':' then None else Some(FlagText(on, off))
  {
    if off == "" {
      RunStops(on, tail);
      assert (on + tail)[..|on|] == on;
    } else {
      FlagBodyDashed(on, off, tail);
    }
  }

  lemma FlagBodyDashed(on: string, off: string, tail: string)
    requires AllFlags(on) && AllFlags(off) && off != ""
    requires tail != "" && (tail[0] == ':' || tail[0] == ')')
    ensures FlagBody(FlagText(on, off) + tail) == if tail[0] == ':' then None else Some(FlagText(on, off))
  {
    var t := FlagText(on, off) + tail;
    var dash := "-" + (off + tail);
    RunStops(on, dash);
    RunStops(off, tail);
    DashedText(on, off, tail);
    hide *;
    FlagBodyAt(t, |on|, |off|);
  }

  lemma DashedText(on: string, off: string, tail: string)
    requires off != "" && tail != ""
    ensures var t := FlagText(on, off) + tail;
            && t == on + ("-" + (off + tail)) && t[|on|] == '-' && t[|on| + 1..] == off + tail
            && t[..|on| + 1 + |off|] == FlagText(on, off) && t[|on| + 1 + |off|] == tail[0] && |t| > |on| + 1 + |off|
  {
  }

  lemma FlagBodyAt(t: string, k: nat, m: nat)
    requires k + 1 + m < |t| && t[k] == '-' && k == Run(t) && m == Run(t[k + 1..])
    ensures FlagBody(t) == if m > 0 && t[k + 1 + m] == ')' then Some(t[..k + 1 + m]) else None
  {
  }

  lemma FlagGroupText(on: string, off: string, k: string)
    requires AtomOk(Flags(on, off))
    ensures FlagGroup(AtomText(Flags(on, off), k)) == Some(FlagText(on, off))
    ensures AtomText(Flags(on, off), k)[|FlagText(on, off)| + 3..] == k
  {
    var f := FlagText(on, off);
    var s := AtomText(Flags(on, off), k);
    FlagBodyText(on, off, ")" + k);
    assert s[2..] == f + (")" + k);
    assert s[|f| + 3..] == s[2..][|f| + 1..];
    assert (f + (")" + k))[|f| + 1..] == k;
  }

  /** A scoped group's opening is not taken for a flag group, nor is any other opening. */
  lemma NoFlagGroup(kind: Kind, k: string)
    requires KindOk(kind) && k != "" && k[0] != '?'
    ensures FlagGroup(KindText(kind, k)).None?
  {
    var s := KindText(kind, k);
    match kind
    case Capture => assert s[1] == k[0];
    case Named(name) =>
      assert s[2..] == "P<" + (name + (">" + k));
      RunStops("", s[2..]);
      assert "" + s[2..] == s[2..];
    case Scoped(on, off) =>
      FlagBodyText(on, off, ":" + k);
      assert s[2..] == FlagText(on, off) + (":" + k);
  }

  /** What stands between the parenthesis of an opening and its body. */
  function KindTail(kind: Kind): string {
    match kind
    case Capture => ""
    case Named(name) => "?P<" + (name + ">")
    case Scoped(on, off) => "?" + (FlagText(on, off) + ":")
  }

  lemma KindTailText(kind: Kind, k: string)
    ensures KindText(kind, k) == "(" + (KindTail(kind) + k)
  {
  }

  lemma KindTailCopied(kind: Kind)
    requires KindOk(kind)
    ensures Copied(KindTail(kind))
  {
    match kind
    case Capture =>
    case Named(name) =>
    case Scoped(on, off) =>
      forall i | 0 <= i < |FlagText(on, off)| ensures !Structural(FlagText(on, off)[i]) {
        if off != "" && i > |on| {
          assert FlagText(on, off)[i] == off[i - |on| - 1];
        }
      }
  }

  lemma ScanKind(kind: Kind, k: string, first: bool, open: seq<string>, outer: seq<seq<string>>)
    requires KindOk(kind) && k != "" && k[0] != '?'
    ensures var r := Scan(k, false, false, [], outer + [open]);
            Scan(KindText(kind, k), first, false, open, outer) == if r.Err? then r else Ok(KindText(kind, r.value))
  {
    hide Scan;
    var r := Scan(k, false, false, [], outer + [open]);
    NoFlagGroup(kind, k);
    var p := KindTail(kind);
    KindTailText(kind, k);
    KindTailCopied(kind);
    hide KindText, KindTail;
    assert KindText(kind, k)[1..] == p + k;
    ScanTurn(KindText(kind, k), first, false, open, outer, 1, p + k);
    ScanCopied(p, k, false, [], outer + [open]);
    if r.Ok? {
      KindTailText(kind, r.value);
    }
  }

  lemma ScanQuant(q: Quant, k: string, open: seq<string>, outer: seq<seq<string>>)
    requires QuantOk(q)
    ensures var r := Scan(k, false, false, open, outer);
            Scan(QuantText(q, k), false, false, open, outer) == if r.Err? then r else Ok(QuantText(q, r.value))
  {
    hide Scan;
    if q.Repeat? {
      var p := q.op + (if q.lazy then "?" else "");
      assert QuantText(q, k) == p + k;
      assert Copied(q.op) by { OpCopied(q.op); }
      ScanCopied(p, k, false, open, outer);
      var r := Scan(k, false, false, open, outer);
      if r.Ok? {
        assert p + r.value == QuantText(q, r.value);
      }
    }
  }

  lemma OpCopied(op: string)
    requires OpOk(op)
    ensures Copied(op)
  {
    if |op| >= 3 && op[0] == '{' {
      var inner := op[1..|op| - 1];
      var n := DigitRun(inner);
      forall i | 0 <= i < |op| ensures !Structural(op[i]) {
        if 0 < i < |op| - 1 {
          assert op[i] == inner[i - 1];
          if i - 1 > n {
            assert inner[i - 1] == inner[n + 1..][i - 1 - (n + 1)];
          }
        }
      }
    }
  }

  lemma {:induction false} ScanAtom(a: Atom, k: string, first: bool, open: seq<string>, outer: seq<seq<string>>)
    requires AtomOk(a) && !a.Flags?
    ensures var r := Scan(k, false, false, open, outer);
            Scan(AtomText(a, k), first, false, open, outer)
            == if UnknownAtom(a).Some? then Err(UnknownAtom(a).value)
               else if r.Err? then r else Ok(AtomText(AtomToPython(a), r.value))
    decreases a, 0
  {
    hide Scan;
    match a
    case Lit(_) => ScanUnit(a, k, first, open, outer);
    case Escape(_) => ScanUnit(a, k, first, open, outer);
    case Hex(_, _) => ScanUnit(a, k, first, open, outer);
    case Class(_, _, _) => ScanClass(a, k, first, open, outer);
    case Group(kind, body) => ScanGroup(kind, body, k, first, open, outer);
  }

  lemma ScanUnit(a: Atom, k: string, first: bool, open: seq<string>, outer: seq<seq<string>>)
    requires (a.Lit? || a.Escape? || a.Hex?) && AtomOk(a)
    ensures var r := Scan(k, false, false, open, outer);
            Scan(AtomText(a, k), first, false, open, outer)
            == if r.Err? then r else Ok(AtomText(AtomToPython(a), r.value))
  {
    hide Scan;
    var s := AtomText(a, k);
    match a
    case Lit(_) => ScanTurn(s, first, false, open, outer, 1, k);
    case Escape(_) => ScanTurn(s, first, false, open, outer, 2, k);
    case Hex(h, l) =>
      var r := Scan(k, false, false, open, outer);
      ScanTurn(s, first, false, open, outer, 2, [h, l] + k);
      ScanCopied([h, l], k, false, open, outer);
      if r.Ok? {
        assert s[..2] + ([h, l] + r.value) == ['\\', 'x', h, l] + r.value;
      }
  }

  lemma {:induction false} ScanGroup(kind: Kind, body: Alt, k: string, first: bool, open: seq<string>, outer: seq<seq<string>>)
    requires KindOk(kind) && AltOk(body)
    ensures var a := Group(kind, body);
            var r := Scan(k, false, false, open, outer);
            Scan(AtomText(a, k), first, false, open, outer)
            == if UnknownAtom(a).Some? then Err(UnknownAtom(a).value)
               else if r.Err? then r else Ok(AtomText(AtomToPython(a), r.value))
    decreases body, 1
  {
    hide Scan;
    var inner := AltText(body, ")" + k);
    var frames := outer + [open];
    var scopes := Texts(OpenedByAll(body));
    var r := Scan(k, false, false, open, outer);
    AltTextHead(body, ")" + k);
    ScanKind(kind, inner, first, open, outer);
    ScanAlt(body, ")" + k, [], frames);
    assert [] + scopes == scopes;
    assert frames[|frames| - 1] == open && frames[..|frames| - 1] == outer;
    ScanTurn(")" + k, false, false, scopes, frames, 1, k);
    if r.Ok? && UnknownAlt(body).None? {
      ClosersAppend(|scopes|, ")", r.value);
      OutAltText(body, [], ")" + r.value);
      assert Texts([]) == [];
    }
  }

  lemma ScanFlags(on: string, off: string, k: string, open: seq<string>, outer: seq<seq<string>>)
    requires AtomOk(Flags(on, off))
    ensures var r := Scan(k, false, false, open + [FlagText(on, off)], outer);
            Scan(AtomText(Flags(on, off), k), false, false, open, outer)
            == if r.Err? then r else Ok(Opener(FlagText(on, off), r.value))
  {
    hide Scan;
    var f := FlagText(on, off);
    FlagGroupText(on, off, k);
    ScanTurn(AtomText(Flags(on, off), k), false, false, open, outer, |f| + 3, k);
    var r := Scan(k, false, false, open + [f], outer);
    if r.Ok? {
      assert Opener(f, "") + r.value == Opener(f, r.value);
    }
  }

  lemma {:induction false} ScanCat(c: Cat, k: string, first: bool, open: seq<string>, outer: seq<seq<string>>)
    requires CatOk(c) && (first ==> c.Item? && !c.atom.Flags?)
    ensures var r := Scan(k, false, false, open + Texts(Opened(c)), outer);
            Scan(CatText(c, k), first, false, open, outer)
            == if UnknownCat(c).Some? then Err(UnknownCat(c).value)
               else if r.Err? then r else Ok(OutCat(c, r.value))
    decreases c, 0
  {
    hide Scan;
    match c
    case End =>
      assert open + [] == open;
    case Item(a, q, rest) =>
      var tail := CatText(rest, k);
      if a.Flags? {
        var f := FlagText(a.on, a.off);
        ScanFlags(a.on, a.off, tail, open, outer);
        ScanCat(rest, k, false, open + [f], outer);
        assert (open + [f]) + Texts(Opened(rest)) == open + Texts(Opened(c)) by {
          assert Opened(c)[1..] == Opened(rest);
        }
      } else {
        ScanCat(rest, k, false, open, outer);
        ScanQuant(q, tail, open, outer);
        ScanAtom(a, QuantText(q, tail), first, open, outer);
      }
  }

  lemma {:induction false} ScanAlt(a: Alt, k: string, open: seq<string>, outer: seq<seq<string>>)
    requires AltOk(a)
    ensures var r := Scan(k, false, false, open + Texts(OpenedByAll(a)), outer);
            Scan(AltText(a, k), false, false, open, outer)
            == if UnknownAlt(a).Some? then Err(UnknownAlt(a).value)
               else if r.Err? then r else Ok(OutAlt(a, open, r.value))
    decreases a, 0
  {
    match a
    case Only(c) => ScanCat(c, k, false, open, outer);
    case Or(c, others) =>
      ScanCat(c, "|" + AltText(others, k), false, open, outer);
      ScanRest(c, others, k, open, outer);
  }

  /** From a `|` on: the scopes are closed before it and reopened after it. */
  lemma {:induction false} ScanRest(c: Cat, others: Alt, k: string, open: seq<string>, outer: seq<seq<string>>)
    requires AltOk(others)
    ensures var now := open + Texts(Opened(c));
            var r := Scan(k, false, false, open + Texts(Opened(c) + OpenedByAll(others)), outer);
            Scan("|" + AltText(others, k), false, false, now, outer)
            == if UnknownAlt(others).Some? then Err(UnknownAlt(others).value)
               else if r.Err? then r
               else Ok(Closers(|now|, "|" + Openers(now, OutAlt(others, now, r.value))))
    decreases others, 1
  {
    hide *;
    var now := open + Texts(Opened(c));
    ScanBar(AltText(others, k), now, outer);
    ScanAlt(others, k, now, outer);
    TextsAppend(Opened(c), OpenedByAll(others));
    assert now + Texts(OpenedByAll(others)) == open + Texts(Opened(c) + OpenedByAll(others));
  }

  lemma ScanBar(k: string, now: seq<string>, outer: seq<seq<string>>)
    ensures var r := Scan(k, false, false, now, outer);
            Scan("|" + k, false, false, now, outer)
            == if r.Err? then r else Ok(Closers(|now|, "|" + Openers(now, r.value)))
  {
    hide Scan;
    ScanTurn("|" + k, false, false, now, outer, 1, k);
    var r := Scan(k, false, false, now, outer);
    if r.Ok? {
      BarText(now, r.value);
    }
  }

  lemma BarText(now: seq<string>, out: string)
    ensures Closers(|now|, "|" + Openers(now, "")) + out == Closers(|now|, "|" + Openers(now, out))
  {
    OpenersAppend(now, "", out);
    assert "" + out == out;
    assert ("|" + Openers(now, "")) + out == "|" + Openers(now, out);
    ClosersAppend(|now|, "|" + Openers(now, ""), out);
  }

  // ---- what is written is the text of the translated tree --------------------------

  lemma ScopeText(f: FlagSpec, c: Cat, k: string)
    ensures CatText(Scope(f, c), k) == Opener(FlagText(f.on, f.off), CatText(c, ")" + k))
  {
    var group := Group(Scoped(f.on, f.off), Only(c));
    assert CatText(Scope(f, c), k) == AtomText(group, QuantText(Once, CatText(End, k)));
    assert AltText(Only(c), ")" + k) == CatText(c, ")" + k);
  }

  lemma WrapText(open: seq<FlagSpec>, c: Cat, k: string)
    ensures CatText(Wrap(open, c), k) == Openers(Texts(open), CatText(c, Closers(|open|, k)))
  {
    if open != [] {
      ScopeText(open[0], Wrap(open[1..], c), k);
      WrapText(open[1..], c, ")" + k);
      ClosersInside(|open| - 1, k);
      assert Texts(open)[1..] == Texts(open[1..]);
    }
  }

  lemma ClosersInside(n: nat, k: string)
    ensures Closers(n, ")" + k) == Closers(n + 1, k)
  {
    if n > 0 {
      ClosersInside(n - 1, k);
    }
  }

  lemma OutCatText(c: Cat, k: string)
    ensures OutCat(c, Closers(|Opened(c)|, k)) == CatText(CatToPython(c), k)
  {
    match c
    case End =>
    case Item(Flags(on, off), _, rest) =>
      ScopeText(FlagSpec(on, off), CatToPython(rest), k);
      ClosersInside(|Opened(rest)|, k);
      OutCatText(rest, ")" + k);
    case Item(_, _, rest) => OutCatText(rest, k);
  }

  lemma ClosersSum(n: nat, m: nat, k: string)
    ensures Closers(n, Closers(m, k)) == Closers(n + m, k)
  {
    if n > 0 {
      ClosersSum(n - 1, m, k);
    }
  }

  lemma OutWrapped(c: Cat, open: seq<FlagSpec>, k: string)
    ensures Openers(Texts(open), OutCat(c, Closers(|open| + |Opened(c)|, k)))
         == CatText(Wrap(open, CatToPython(c)), k)
  {
    ClosersSum(|Opened(c)|, |open|, k);
    OutCatText(c, Closers(|open|, k));
    WrapText(open, CatToPython(c), k);
  }

  lemma {:induction false} OutAltText(a: Alt, open: seq<FlagSpec>, k: string)
    ensures Openers(Texts(open), OutAlt(a, Texts(open), Closers(|open| + |OpenedByAll(a)|, k)))
         == AltText(AltToPython(a, open), k)
    decreases a
  {
    match a
    case Only(c) => OutWrapped(c, open, k);
    case Or(c, others) =>
      var now := open + Opened(c);
      TextsAppend(open, Opened(c));
      OutAltText(others, now, k);
      OutWrapped(c, open, "|" + AltText(AltToPython(others, now), k));
  }

  /**
   The scanner on a pattern's text: refused for the first unknown class name, and
   otherwise exactly the text of the translated pattern.
   */
  lemma ScanIsTranslation(p: Alt)
    requires AltOk(p)
    ensures Scan(AltText(p, ""), true, false, [], [])
         == if UnknownAlt(p).Some? then Err(UnknownAlt(p).value) else Ok(AltText(ToPython(p), ""))
  {
    if LeadsWithFlags(p) {
      ScanLead(p);
    } else {
      ScanStart(p);
      ScanTop(p);
    }
  }

  lemma ScanLead(p: Alt)
    requires AltOk(p) && LeadsWithFlags(p)
    ensures Scan(AltText(p, ""), true, false, [], [])
         == if UnknownAlt(p).Some? then Err(UnknownAlt(p).value) else Ok(AltText(ToPython(p), ""))
  {
    var c := FirstCat(p);
    var rest := WithFirst(p, c.rest);
    var out := AltToPython(rest, []);
    assert UnknownCat(c) == UnknownCat(c.rest) by {
      assert UnknownAtom(c.atom) == None;
    }
    assert AltOk(rest) && AtomOk(c.atom) && UnknownAlt(p) == UnknownAlt(rest);
    assert c.quant == Once;
    assert ToPython(p) == WithFirst(out, Item(c.atom, Once, FirstCat(out)));
    LeadText(p, "");
    PutLead(out, c.atom);
    hide *;
    ScanFirstFlags(c.atom, AltText(rest, ""));
    ScanTop(rest);
  }

  lemma PutLead(p: Alt, a: Atom)
    ensures AltText(WithFirst(p, Item(a, Once, FirstCat(p))), "") == AtomText(a, AltText(p, ""))
  {
  }

  lemma ScanFirstFlags(a: Atom, k: string)
    requires a.Flags? && AtomOk(a)
    ensures var r := Scan(k, false, false, [], []);
            Scan(AtomText(a, k), true, false, [], []) == if r.Err? then r else Ok(AtomText(a, r.value))
  {
    hide Scan;
    var f := FlagText(a.on, a.off);
    FlagGroupText(a.on, a.off, k);
    ScanTurn(AtomText(a, k), true, false, [], [], |f| + 3, k);
    var r := Scan(k, false, false, [], []);
    if r.Ok? {
      FlagsHead(a, k, r.value);
    }
  }

  lemma FlagsHead(a: Atom, k: string, k': string)
    requires a.Flags?
    ensures AtomText(a, k)[..|FlagText(a.on, a.off)| + 3] + k' == AtomText(a, k')
  {
    var f := FlagText(a.on, a.off);
    assert AtomText(a, k) == ("(?" + f + ")") + k;
    assert AtomText(a, k') == ("(?" + f + ")") + k';
  }

  lemma LeadText(p: Alt, k: string)
    requires LeadsWithFlags(p) && FirstCat(p).quant == Once
    ensures AltText(p, k) == AtomText(FirstCat(p).atom, AltText(WithFirst(p, FirstCat(p).rest), k))
  {
  }

  /** Without a flag group at position 0 the first turn is like any other. */
  lemma ScanStart(p: Alt)
    requires AltOk(p) && !LeadsWithFlags(p)
    ensures Scan(AltText(p, ""), true, false, [], []) == Scan(AltText(p, ""), false, false, [], [])
  {
    var c := FirstCat(p);
    var k := if p.Or? then "|" + AltText(p.others, "") else "";
    if c.Item? {
      ScanCat(c, k, true, [], []);
      ScanCat(c, k, false, [], []);
    } else if p.Or? {
      ScanTurn(k, true, false, [], [], 1, AltText(p.others, ""));
      ScanTurn(k, false, false, [], [], 1, AltText(p.others, ""));
    }
  }

  lemma ScanTop(p: Alt)
    requires AltOk(p)
    ensures Scan(AltText(p, ""), false, false, [], [])
         == if UnknownAlt(p).Some? then Err(UnknownAlt(p).value) else Ok(AltText(AltToPython(p, []), ""))
  {
    var scopes := Texts(OpenedByAll(p));
    assert [] + scopes == scopes && Texts([]) == [];
    ScanAlt(p, "", [], []);
    OutAltText(p, [], "");
    hide AltOk, UnknownAlt, AltToPython, OpenedByAll, Texts;
  }
}
