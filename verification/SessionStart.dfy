/**
 The session-start payload: `MemoryService.index`, `_fit` and `_compose`. The lines shown
 and the number printed for the rest add up across both truncations, and the framed region
 can be found again in any payload.
 */
module SessionStart {
  import opened Basics
  import opened Packing
  import opened PyText
  import opened TextSearch
  import opened Neutral

  type Unit = char -> nat

  function Utf8Bytes(): Unit { c => if c as int < 0x80 then 1 else if c as int < 0x800 then 2 else if c as int < 0x10000 then 3 else 4 }

  function Utf16Units(): Unit { c => if c as int < 0x10000 then 1 else 2 }

  datatype Harness = ClaudeCode | Codex

  const INLINE_LIMIT: nat := 10000

  function MeasureOf(h: Harness): Unit { if h.ClaudeCode? then Utf16Units() else Utf8Bytes() }

  /** The bytes of a character in UTF-8, and its code units in UTF-16. */
  function Utf8(c: char): seq<nat> {
    var u: nat := c as int;
    if u < 0x80 then [u]
    else if u < 0x800 then [0xC0 + u / 64, 0x80 + u % 64]
    else if u < 0x10000 then [0xE0 + u / 4096, 0x80 + u / 64 % 64, 0x80 + u % 64]
    else [0xF0 + u / 262144, 0x80 + u / 4096 % 64, 0x80 + u / 64 % 64, 0x80 + u % 64]
  }

  function Utf16(c: char): seq<nat> {
    var u: nat := c as int;
    if u < 0x10000 then [u] else [0xD800 + (u - 0x10000) / 1024, 0xDC00 + (u - 0x10000) % 1024]
  }

  /** How long a text is for a harness: Claude Code counts UTF-16 code units, Codex bytes of UTF-8. */
  function Size(h: Harness, s: string): nat {
    if s == "" then 0 else (match h case ClaudeCode => |Utf16(s[0])| case Codex => |Utf8(s[0])|) + Size(h, s[1..])
  }

  lemma {:induction false} SizeIs(h: Harness, s: string)
    ensures Size(h, s) == Weight(s, MeasureOf(h))
  {
    if s != "" { SizeIs(h, s[1..]); }
  }

  // ---- the notice of omitted entries -----------------------------------------------------

  const OMITTED_PREFIX := "\U{2026} ("
  const OMITTED_SUFFIX := " more entries omitted; use memory_search)"

  function Digit(d: nat): char
    requires d < 10
  {
    '0' + d as char
  }

  predicate IsDigit(c: char) { '0' <= c <= '9' }

  /** `str` of a count. */
  function Decimal(n: nat): (s: string)
    ensures s != "" && forall i :: 0 <= i < |s| ==> IsDigit(s[i])
  {
    if n < 10 then [Digit(n)] else Decimal(n / 10) + [Digit(n % 10)]
  }

  function Value(s: string): nat
    requires forall i :: 0 <= i < |s| ==> IsDigit(s[i])
  {
    if s == "" then 0
    else
      assert IsDigit(s[|s| - 1]);
      10 * Value(s[..|s| - 1]) + (s[|s| - 1] as int - '0' as int)
  }

  lemma ValueOfDecimal(n: nat)
    ensures Value(Decimal(n)) == n
  {
    var s := Decimal(n);
    if n >= 10 {
      ValueOfDecimal(n / 10);
      assert s[..|s| - 1] == Decimal(n / 10);
    } else {
      assert s[..|s| - 1] == "";
    }
  }

  /** `_omitted_line`. */
  function OmittedLine(count: nat): string { OMITTED_PREFIX + (Decimal(count) + OMITTED_SUFFIX) }

  predicate EndsWith(s: string, t: string) { |s| >= |t| && s[|s| - |t|..] == t }

  /** `_already_omitted`. */
  function AlreadyOmitted(line: string): Option<nat> {
    if !(OMITTED_PREFIX <= line && EndsWith(line, OMITTED_SUFFIX)) then None
    else if |line| < |OMITTED_PREFIX| + |OMITTED_SUFFIX| then None
    else
      var digits := line[|OMITTED_PREFIX|..|line| - |OMITTED_SUFFIX|];
      if digits != "" && forall i :: 0 <= i < |digits| ==> IsDigit(digits[i]) then Some(Value(digits)) else None
  }

  ghost predicate Notice(line: string, digits: string) {
    && digits != "" && (forall i :: 0 <= i < |digits| ==> IsDigit(digits[i]))
    && line == OMITTED_PREFIX + (digits + OMITTED_SUFFIX)
  }

  /** A line is a notice exactly if it is digits between the two fixed texts. */
  lemma NoticeIff(line: string, n: nat)
    ensures AlreadyOmitted(line) == Some(n) <==> exists digits: string :: Notice(line, digits) && Value(digits) == n
  {
    if AlreadyOmitted(line) == Some(n) { NoticeRead(line, n); }
    forall digits: string | Notice(line, digits) && Value(digits) == n ensures AlreadyOmitted(line) == Some(n) { NoticeTold(line, digits); }
    hide AlreadyOmitted, Value, Notice;
  }

  lemma NoticeRead(line: string, n: nat)
    requires AlreadyOmitted(line) == Some(n)
    ensures exists digits: string :: Notice(line, digits) && Value(digits) == n
  {
    hide Value;
    var digits := line[|OMITTED_PREFIX|..|line| - |OMITTED_SUFFIX|];
    Between(line, OMITTED_PREFIX, OMITTED_SUFFIX);
    assert Notice(line, digits);
  }

  lemma Between(line: string, before: string, after: string)
    requires before <= line && EndsWith(line, after) && |before| + |after| <= |line|
    ensures line == before + (line[|before|..|line| - |after|] + after)
  {
  }

  lemma NoticeTold(line: string, digits: string)
    requires Notice(line, digits)
    ensures AlreadyOmitted(line) == Some(Value(digits))
  {
    hide Value;
    DigitsBetween(OMITTED_PREFIX, digits, OMITTED_SUFFIX);
  }

  /** The printed number is read back. */
  lemma OmittedReadsBack(count: nat)
    ensures AlreadyOmitted(OmittedLine(count)) == Some(count)
    ensures OneLine(OmittedLine(count)) && Neutralized(OmittedLine(count)) == OmittedLine(count)
  {
    hide Decimal, Value, Neutralized;
    var line, digits := OmittedLine(count), Decimal(count);
    ValueOfDecimal(count);
    OmittedPlain(digits);
    Unchanged(line);
    DigitsBetween(OMITTED_PREFIX, digits, OMITTED_SUFFIX);
  }

  lemma DigitsBetween(before: string, digits: string, after: string)
    ensures var line := before + (digits + after);
            before <= line && EndsWith(line, after) && line[|before|..|line| - |after|] == digits
  {
    var line := before + (digits + after);
    assert line[|line| - |after|..] == after;
  }

  /** Neither a newline nor the last letter of the phrase is in the notice. */
  lemma OmittedPlain(digits: string)
    requires forall i :: 0 <= i < |digits| ==> IsDigit(digits[i])
    ensures var line := OMITTED_PREFIX + (digits + OMITTED_SUFFIX);
            forall i :: 0 <= i < |line| ==> line[i] != '\n' && line[i] != 'x'
  {
    assert forall i :: 0 <= i < |OMITTED_PREFIX| ==> OMITTED_PREFIX[i] != '\n' && OMITTED_PREFIX[i] != 'x';
    assert forall i :: 0 <= i < |OMITTED_SUFFIX| ==> OMITTED_SUFFIX[i] != '\n' && OMITTED_SUFFIX[i] != 'x';
  }

  lemma NotPhrase(s: string)
    requires forall i :: 0 <= i < |s| ==> s[i] != 'x'
    ensures !(PHRASE <= s)
  {
    assert PHRASE[13] == 'x' && |PHRASE| == 14;
    if |s| >= 14 { Differs(PHRASE, s, 13); }
  }

  lemma {:induction false} Unchanged(s: string)
    requires forall i :: 0 <= i < |s| ==> s[i] != 'x'
    ensures Neutralized(s) == s
    decreases |s|
  {
    if s != "" {
      NotPhrase(s);
      Unchanged(s[1..]);
      assert s == [s[0]] + s[1..];
    }
  }

  // ---- fitting ---------------------------------------------------------------------------

  /** What stands around the fitted text. */
  datatype Frame = Frame(before: string, after: string) {
    function Wrap(body: string): string { before + (body + after) }
  }

  predicate Within(frame: Frame, body: string, unit: Unit, limit: nat) { Weight(frame.Wrap(body), unit) <= limit }

  /** The lines that can be dropped, without the notice of the store itself. */
  function Droppable(index: string): seq<string> {
    var lines := Split(index);
    if AlreadyOmitted(lines[|lines| - 1]).Some? then lines[..|lines| - 1] else lines
  }

  function DroppedByCore(index: string): nat {
    var lines := Split(index);
    match AlreadyOmitted(lines[|lines| - 1]) case Some(n) => n case None => 0
  }

  /** The first `kept` lines and the count of the rest. */
  function CutOff(lines: seq<string>, already: nat, kept: nat): string
    requires kept <= |lines|
  {
    Joined(lines[..kept] + [OmittedLine(already + |lines| - kept)])
  }

  /** What the loop of `_fit` has added up for some lines, separators included. */
  function Counted(lines: seq<string>, unit: Unit): nat {
    if lines == [] then 0 else Weight(lines[0], unit) + Weight("\n", unit) + Counted(lines[1..], unit)
  }

  lemma CountedMore(lines: seq<string>, line: string, unit: Unit)
    ensures Counted(lines + [line], unit) == Counted(lines, unit) + Weight(line, unit) + Weight("\n", unit)
  {
    if lines == [] {
      assert [line][1..] == [] && lines + [line] == [line];
    } else {
      assert (lines + [line])[1..] == lines[1..] + [line];
      CountedMore(lines[1..], line, unit);
    }
  }

  lemma JoinedWeight(lines: seq<string>, last: string, unit: Unit)
    ensures Weight(Joined(lines + [last]), unit) == Counted(lines, unit) + Weight(last, unit)
  {
    if lines == [] {
      assert lines + [last] == [last];
    } else {
      var rest := lines[1..] + [last];
      assert lines + [last] == [lines[0]] + rest;
      JoinedFront(lines[0], rest);
      JoinedWeight(lines[1..], last, unit);
      WeightJoined("\n", Joined(rest), unit);
      WeightJoined(lines[0], "\n" + Joined(rest), unit);
    }
  }

  /** Both measures add up, so adding up is measuring. */
  lemma CutOffWeight(frame: Frame, lines: seq<string>, already: nat, kept: nat, unit: Unit)
    requires kept <= |lines|
    ensures Weight(frame.Wrap(CutOff(lines, already, kept)), unit)
         == Weight(frame.Wrap(""), unit) + Counted(lines[..kept], unit) + Weight(OmittedLine(already + |lines| - kept), unit)
  {
    var notice := OmittedLine(already + |lines| - kept);
    var body := Joined(lines[..kept] + [notice]);
    JoinedWeight(lines[..kept], notice, unit);
    WeightJoined(body, frame.after, unit);
    WeightJoined(frame.before, body + frame.after, unit);
    WeightJoined("", frame.after, unit);
    WeightJoined(frame.before, "" + frame.after, unit);
  }

  /**
   `_fit`: the text whole if it fits, else the longest proper run of its lines that fits with
   the count of all the entries left out, by this cut or before it.
   */
  method Fit(index: string, frame: Frame, unit: Unit, limit: nat) returns (text: string, ghost kept: nat)
    ensures Within(frame, index, unit, limit) ==> text == frame.Wrap(index)
    ensures kept == 0 || kept < |Droppable(index)|
    ensures !Within(frame, index, unit, limit) ==>
              var lines, already := Droppable(index), DroppedByCore(index);
              && text == frame.Wrap(CutOff(lines, already, kept))
              && (kept > 0 ==> Within(frame, CutOff(lines, already, kept), unit, limit))
              && forall k :: kept < k < |lines| ==> !Within(frame, CutOff(lines, already, k), unit, limit)
  {
    hide Weight;
    hide Counted;
    hide CutOff;
    hide OmittedLine;
    text, kept := frame.Wrap(index), 0;
    if Weight(text, unit) <= limit { return; }
    var lines := Droppable(index);
    var already := DroppedByCore(index);
    var wrapper, separator := Weight(frame.Wrap(""), unit), Weight("\n", unit);
    var best, body: nat := 0, 0;
    var candidate := 1;
    NothingCounted(lines, unit);
    while candidate < |lines|
      invariant 1 <= candidate && (candidate <= |lines| || |lines| == 0)
      invariant body == Counted(lines[..if candidate <= |lines| then candidate - 1 else 0], unit)
      invariant best == 0 || (best < candidate && best < |lines| && Within(frame, CutOff(lines, already, best), unit, limit))
      invariant forall k :: best < k < candidate && k < |lines| ==> !Within(frame, CutOff(lines, already, k), unit, limit)
    {
      OneMoreCounted(lines, candidate, unit);
      CutOffWeight(frame, lines, already, candidate, unit);
      body := body + Weight(lines[candidate - 1], unit) + separator;
      if wrapper + body + Weight(OmittedLine(already + |lines| - candidate), unit) <= limit { best := candidate; }
      candidate := candidate + 1;
    }
    kept := best;
    CutOffIs(lines, already, best);
    text := frame.Wrap(Joined(lines[..best] + [OmittedLine(already + |lines| - best)]));
  }

  lemma NothingCounted(lines: seq<string>, unit: Unit)
    ensures Counted(lines[..0], unit) == 0
  {
  }

  lemma OneMoreCounted(lines: seq<string>, n: nat, unit: Unit)
    requires 0 < n <= |lines|
    ensures Counted(lines[..n], unit) == Counted(lines[..n - 1], unit) + Weight(lines[n - 1], unit) + Weight("\n", unit)
  {
    assert lines[..n] == lines[..n - 1] + [lines[n - 1]];
    CountedMore(lines[..n - 1], lines[n - 1], unit);
  }

  lemma CutOffIs(lines: seq<string>, already: nat, kept: nat)
    requires kept <= |lines|
    ensures CutOff(lines, already, kept) == Joined(lines[..kept] + [OmittedLine(already + |lines| - kept)])
  {
  }

  // ---- the index of the store ------------------------------------------------------------

  const EMPTY_INDEX := "(no memories yet)"

  /** What `_index_line` renders: one line, with its dash and bracket in front. */
  predicate EntryLine(l: string) { OneLine(l) && "- [" <= l }

  function Shown(total: nat, budget: int): nat { if budget <= 0 then 0 else if budget < total then budget else total }

  function WithNotice(lines: seq<string>, omitted: nat): seq<string> {
    lines + (if omitted > 0 then [OmittedLine(omitted)] else [])
  }

  function IndexText(entries: seq<string>, budget: int): string {
    if entries == [] then EMPTY_INDEX
    else
      var shown := Shown(|entries|, budget);
      Joined(WithNotice(entries[..shown], |entries| - shown))
  }

  /** `index`: the project's entries, then global's, in one line budget. */
  method Index(project: seq<string>, global: seq<string>, budget: int) returns (text: string)
    ensures text == IndexText(project + global, budget)
    ensures project + global == [] ==> text == EMPTY_INDEX
    ensures project + global != [] ==> exists shown: nat ::
              && shown <= |project + global| && (shown == 0 || shown <= budget) && (shown == |project + global| || shown >= budget)
              && text == Joined((project + global)[..shown] + if shown < |project + global| then [OmittedLine(|project + global| - shown)] else [])
  {
    var listed := [project, global];
    var total := |project| + |global|;
    if total == 0 {
      assert project + global == [];
      return EMPTY_INDEX;
    }
    var lines: seq<string> := [];
    var i := 0;
    while i < 2
      invariant 0 <= i <= 2
      invariant i == 0 ==> lines == []
      invariant i == 1 ==> lines == project[..Shown(|project|, budget)]
      invariant i == 2 ==> lines == (project + global)[..Shown(total, budget)]
    {
      var room := budget - |lines|;
      lines := lines + listed[i][..Shown(|listed[i]|, room)];
      i := i + 1;
    }
    if total > |lines| { lines := lines + [OmittedLine(total - |lines|)]; }
    ghost var shown := Shown(total, budget);
    assert lines == WithNotice((project + global)[..shown], total - shown);
    text := Joined(lines);
    assert lines == (project + global)[..shown] + if shown < |project + global| then [OmittedLine(|project + global| - shown)] else [];
  }

  lemma EntryNeutralized(l: string)
    requires EntryLine(l)
    ensures OneLine(Neutralized(l)) && Neutralized(l) != "" && Neutralized(l)[0] == '-' && AlreadyOmitted(Neutralized(l)).None?
  {
    NeutralizedLine(l);
    Differs(PHRASE, l, 0);
    var n := Neutralized(l);
    assert n[0] == '-';
    Differs(OMITTED_PREFIX, n, 0);
  }

  lemma EachEntry(entries: seq<string>)
    requires forall l :: l in entries ==> EntryLine(l)
    ensures forall l :: l in EachNeutralized(entries) ==> OneLine(l) && AlreadyOmitted(l).None?
  {
    var each := EachNeutralized(entries);
    forall l | l in each ensures OneLine(l) && AlreadyOmitted(l).None? {
      var i :| 0 <= i < |each| && each[i] == l;
      assert entries[i] in entries;
      EntryNeutralized(entries[i]);
    }
  }

  lemma EachPrefix(entries: seq<string>, n: nat)
    requires n <= |entries|
    ensures EachNeutralized(entries[..n]) == EachNeutralized(entries)[..n]
  {
  }

  lemma EachWithNotice(lines: seq<string>, omitted: nat)
    ensures EachNeutralized(WithNotice(lines, omitted)) == WithNotice(EachNeutralized(lines), omitted)
  {
    if omitted > 0 { OmittedReadsBack(omitted); }
  }

  lemma IndexBody(entries: seq<string>, budget: int)
    requires entries != []
    ensures var shown := Shown(|entries|, budget);
            shown <= |entries|
            && Neutralized(IndexText(entries, budget)) == Joined(WithNotice(EachNeutralized(entries)[..shown], |entries| - shown))
  {
    var shown := Shown(|entries|, budget);
    IndexIs(entries, budget);
    hide *;
    EachPrefix(entries, shown);
    EachWithNotice(entries[..shown], |entries| - shown);
    NeutralizedJoined(WithNotice(entries[..shown], |entries| - shown));
  }

  lemma IndexIs(entries: seq<string>, budget: int)
    requires entries != []
    ensures var shown := Shown(|entries|, budget);
            shown <= |entries| && IndexText(entries, budget) == Joined(WithNotice(entries[..shown], |entries| - shown))
  {
    hide Joined;
    hide WithNotice;
  }

  lemma NoticeLast(lines: seq<string>, omitted: nat)
    requires (forall l :: l in lines ==> OneLine(l) && AlreadyOmitted(l).None?) && (lines != [] || omitted > 0)
    ensures Droppable(Joined(WithNotice(lines, omitted))) == lines && DroppedByCore(Joined(WithNotice(lines, omitted))) == omitted
  {
    var all := WithNotice(lines, omitted);
    if omitted > 0 { OmittedReadsBack(omitted); }
    assert all[|all| - 1] == if omitted > 0 then OmittedLine(omitted) else lines[|lines| - 1];
    assert omitted > 0 ==> all[..|all| - 1] == lines;
    JoinSplits(all);
    hide Joined;
    hide AlreadyOmitted;
    hide OmittedLine;
  }

  /** The neutralized index, line by line: what can be dropped, and what the store dropped itself. */
  lemma {:induction false} IndexLines(entries: seq<string>, budget: int)
    requires entries != [] && forall l :: l in entries ==> EntryLine(l)
    ensures var body, shown := Neutralized(IndexText(entries, budget)), Shown(|entries|, budget);
            && body == Joined(WithNotice(EachNeutralized(entries)[..shown], |entries| - shown))
            && Droppable(body) == EachNeutralized(entries)[..shown]
            && DroppedByCore(body) == |entries| - shown
  {
    var shown := Shown(|entries|, budget);
    IndexBody(entries, budget);
    EachEntry(entries);
    var lines := EachNeutralized(entries)[..shown];
    assert forall l :: l in lines ==> l in EachNeutralized(entries);
    hide Neutralized;
    hide EachNeutralized;
    hide Joined;
    NoticeLast(lines, |entries| - shown);
  }

  /**
   Every way a fitted index can read: the first entries, in order, and the number of all the
   others; the number is missing when there are no others.
   */
  lemma {:induction false} ShownAddsUp(entries: seq<string>, budget: int, kept: nat)
    requires entries != [] && forall l :: l in entries ==> EntryLine(l)
    requires kept == 0 || kept < |Droppable(Neutralized(IndexText(entries, budget)))|
    ensures kept <= |Droppable(Neutralized(IndexText(entries, budget)))| && kept <= |entries|
    ensures var body := Neutralized(IndexText(entries, budget));
            var each, shown := EachNeutralized(entries), Shown(|entries|, budget);
            && body == Joined(WithNotice(each[..shown], |entries| - shown))
            && CutOff(Droppable(body), DroppedByCore(body), kept) == Joined(WithNotice(each[..kept], |entries| - kept))
  {
    hide *;
    IndexLines(entries, budget);
    ShownWithin(|entries|, budget);
    var each, shown := EachNeutralized(entries), Shown(|entries|, budget);
    assert each[..shown][..kept] == each[..kept];
    CutOffIs(each[..shown], |entries| - shown, kept);
    NoticeIs(each[..kept], |entries| - kept);
  }

  lemma ShownWithin(total: nat, budget: int)
    ensures Shown(total, budget) <= total && (total > 0 && Shown(total, budget) == 0 ==> budget <= 0)
  {
  }

  lemma NoticeIs(lines: seq<string>, omitted: nat)
    ensures omitted > 0 ==> WithNotice(lines, omitted) == lines + [OmittedLine(omitted)]
  {
  }

  // ---- framing ---------------------------------------------------------------------------

  const INDEX_BEGIN := "--- " + (PHRASE + " begin ---")
  const INDEX_END := "--- " + (PHRASE + " end ---")

  /** The fixed texts in front of the index, after a start or a compaction, and behind it. */
  datatype Wording = Wording(startPrefix: string, compactPrefix: string, compactSuffix: string) {
    function Prefix(compact: bool): string { if compact then compactPrefix else startPrefix }

    function Closing(compact: bool): string { INDEX_END + (if compact then "\n" + compactSuffix else "") }

    /** None of the fixed texts holds the phrase of the delimiters. */
    predicate Phraseless() { Free(startPrefix) && Free(compactPrefix) && Free(compactSuffix) }
  }

  function Lead(w: Wording, compact: bool, notice: string): string {
    (if notice == "" then "" else Neutralized(notice) + "\n") + w.Prefix(compact)
  }

  function FrameOf(w: Wording, header: string, compact: bool, notice: string): Frame {
    Frame(Lead(w, compact, notice) + ("\n" + (INDEX_BEGIN + ("\n" + (Neutralized(header) + "\n")))), "\n" + w.Closing(compact))
  }

  /** `partition("\n")`: the header, and the index body. */
  function HeaderOf(index: string): string { if index == "" || index[0] == '\n' then "" else [index[0]] + HeaderOf(index[1..]) }

  function BodyOf(index: string): string { if index == "" then "" else if index[0] == '\n' then index[1..] else BodyOf(index[1..]) }

  lemma Partition(header: string, body: string)
    requires OneLine(header)
    ensures HeaderOf(header + ("\n" + body)) == header && BodyOf(header + ("\n" + body)) == body
  {
    var index := header + ("\n" + body);
    if header == "" {
      assert index == "\n" + body;
    } else {
      assert index[1..] == header[1..] + ("\n" + body) && header == [header[0]] + header[1..];
      Partition(header[1..], body);
    }
  }

  lemma NoBody(index: string)
    requires OneLine(index)
    ensures HeaderOf(index) == index && BodyOf(index) == ""
  {
    if index != "" {
      assert index == [index[0]] + index[1..];
      NoBody(index[1..]);
    }
  }

  lemma FreeIs(s: string)
    ensures Free(s) <==> Occurrences(s, PHRASE) == {}
  {
    forall i ensures i in Occurrences(s, PHRASE) <==> OccursAt(s, PHRASE, i) { InRange(s, PHRASE, i); }
  }

  /** No occurrence reaches across a newline. */
  lemma AcrossNewline(a: string, b: string)
    ensures Occurrences(a + ("\n" + b), PHRASE) == Occurrences(a, PHRASE) + Shifted(Occurrences(b, PHRASE), |a| + 1)
  {
    PhraseShape();
    OccurrencesJoined("\n", b, PHRASE);
    OccurrencesJoined(a, "\n" + b, PHRASE);
    NoneInNewline();
    ShiftedAgain(Occurrences(b, PHRASE), 1, |a|);
    hide Occurrences;
    hide Shifted;
  }

  lemma NoneInNewline()
    ensures Occurrences("\n", PHRASE) == {}
  {
  }

  lemma FreeAcross(a: string, b: string)
    requires Free(a) && Free(b)
    ensures Free(a + ("\n" + b))
  {
    FreeIs(a);
    FreeIs(b);
    FreeIs(a + ("\n" + b));
    AcrossNewline(a, b);
    ShiftedAgain({}, |a| + 1, 0);
    hide Occurrences;
    hide Shifted;
    hide Free;
  }

  lemma FreeJoined(lines: seq<string>)
    requires forall l :: l in lines ==> Free(l)
    ensures Free(Joined(lines))
  {
    if |lines| > 1 {
      FreeJoined(lines[1..]);
      FreeAcross(lines[0], Joined(lines[1..]));
    }
  }

  // ---- the payload -----------------------------------------------------------------------

  lemma LeadFree(w: Wording, compact: bool, notice: string)
    requires w.Phraseless()
    ensures Free(Lead(w, compact, notice))
  {
    NeutralizedIsFree(notice);
    var prefix := w.Prefix(compact);
    FreeAcross(Neutralized(notice), prefix);
    Associated(Neutralized(notice), "\n", prefix);
    assert "" + prefix == prefix;
    hide Neutralized;
    hide Free;
  }

  lemma DelimitersHoldIt()
    ensures Occurrences(INDEX_BEGIN, PHRASE) == {4} && Occurrences(INDEX_END, PHRASE) == {4}
    ensures |INDEX_BEGIN| == 28 && |INDEX_END| == 26
  {
    HeldOnce(" begin ---");
    HeldOnce(" end ---");
  }

  lemma HeldOnce(rest: string)
    requires 0 < |rest| < 14 && rest[0] == ' '
    ensures Occurrences("--- " + (PHRASE + rest), PHRASE) == {4}
  {
    PhraseShape();
    OnlyWhole();
    TooShort(rest);
    TooShort("--- ");
    assert PHRASE[13] == 'x' && PHRASE[12] != ' ' && forall k :: 0 < k < 14 && PHRASE[k] == ' ' ==> PHRASE[k - 1] != 'x';
    OccurrencesJoined(PHRASE, rest, PHRASE);
    assert forall k :: 0 < k < 14 && PHRASE[k] == 'm' ==> PHRASE[k - 1] != ' ';
    OccurrencesJoined("--- ", PHRASE + rest, PHRASE);
    ShiftedAgain({}, 14, 0);
    Moved(0, 4);
    hide Occurrences;
    hide Shifted;
  }

  lemma TooShort(s: string)
    requires |s| < 14
    ensures Occurrences(s, PHRASE) == {}
  {
  }

  lemma OnlyWhole()
    ensures Occurrences(PHRASE, PHRASE) == {0}
  {
    assert PHRASE[0..14] == PHRASE;
    forall i ensures i in Occurrences(PHRASE, PHRASE) <==> i == 0 { InRange(PHRASE, PHRASE, i); }
  }

  /** The text between the delimiters, found by the two places of their phrase. */
  function Region(payload: string, first: int, second: int): string
    requires 0 <= first && first + 25 <= second - 5 <= |payload|
  {
    payload[first + 25..second - 5]
  }

  lemma ClosingHoldsIt(w: Wording, compact: bool)
    requires w.Phraseless()
    ensures Occurrences(w.Closing(compact), PHRASE) == {4}
  {
    DelimitersHoldIt();
    if compact {
      FreeIs(w.compactSuffix);
      AcrossNewline(INDEX_END, w.compactSuffix);
      ShiftedAgain({}, |INDEX_END| + 1, 0);
    } else {
      assert INDEX_END + "" == INDEX_END;
    }
    hide Occurrences;
    hide Free;
    hide Shifted;
  }

  /**
   For every header, notice and body without the phrase, whatever they say: the payload holds
   the phrase exactly twice, once in each delimiter, and what stands between the two is the
   header, a newline and the body.
   */
  lemma {:induction false} FramedUniquely(w: Wording, header: string, compact: bool, notice: string, body: string)
    requires w.Phraseless() && Free(body)
    ensures var payload := FrameOf(w, header, compact, notice).Wrap(body);
            var first := |Lead(w, compact, notice)| + 5;
            var second := first + 30 + |Neutralized(header)| + 1 + |body|;
            && Occurrences(payload, PHRASE) == {first, second}
            && second - 5 <= |payload| && Region(payload, first, second) == Neutralized(header) + ("\n" + body)
  {
    hide *;
    var lead, mid, closing := Lead(w, compact, notice), Neutralized(header) + ("\n" + body), w.Closing(compact);
    LeadFree(w, compact, notice);
    NeutralizedIsFree(header);
    FreeAcross(Neutralized(header), body);
    DelimitersHoldIt();
    ClosingHoldsIt(w, compact);
    FreeIs(lead);
    FreeIs(mid);
    FrameText(w, header, compact, notice, body);
    TwoPlaces(lead, INDEX_BEGIN, mid, closing);
    var payload := lead + ("\n" + (INDEX_BEGIN + ("\n" + (mid + ("\n" + closing)))));
    MidIs(lead, INDEX_BEGIN, mid, closing);
    RegionIs(payload, |lead| + 5, |lead| + 35 + |mid|);
  }

  lemma MidIs(lead: string, begin: string, mid: string, closing: string)
    requires |begin| == 28
    ensures var payload := lead + ("\n" + (begin + ("\n" + (mid + ("\n" + closing)))));
            |lead| + 30 + |mid| <= |payload| && payload[|lead| + 30..|lead| + 30 + |mid|] == mid
  {
    var inner := mid + ("\n" + closing);
    assert inner[..|mid|] == mid;
    Nested(lead, begin, inner, |mid|);
  }

  lemma Nested(lead: string, begin: string, inner: string, n: nat)
    requires n <= |inner| && |begin| == 28
    ensures (lead + ("\n" + (begin + ("\n" + inner))))[|lead| + 30..|lead| + 30 + n] == inner[..n]
  {
  }

  lemma RegionIs(payload: string, first: int, second: int)
    requires 0 <= first && first + 25 <= second - 5 <= |payload|
    ensures Region(payload, first, second) == payload[first + 25..second - 5]
  {
  }

  lemma FrameText(w: Wording, header: string, compact: bool, notice: string, body: string)
    ensures var mid := Neutralized(header) + ("\n" + body);
            FrameOf(w, header, compact, notice).Wrap(body)
            == Lead(w, compact, notice) + ("\n" + (INDEX_BEGIN + ("\n" + (mid + ("\n" + w.Closing(compact))))))
  {
    Regrouped(Lead(w, compact, notice), INDEX_BEGIN, Neutralized(header), body, w.Closing(compact));
    hide Neutralized;
    hide Lead;
  }

  lemma Regrouped(lead: string, begin: string, header: string, body: string, closing: string)
    ensures (lead + ("\n" + (begin + ("\n" + (header + "\n"))))) + (body + ("\n" + closing))
         == lead + ("\n" + (begin + ("\n" + ((header + ("\n" + body)) + ("\n" + closing)))))
  {
    var rest := body + ("\n" + closing);
    Associated(header, "\n", rest);
    Associated("\n", body, "\n" + closing);
    Associated(header, "\n" + body, "\n" + closing);
    Associated("\n", header + "\n", rest);
    Associated(begin, "\n" + (header + "\n"), rest);
    Associated("\n", begin + ("\n" + (header + "\n")), rest);
    Associated(lead, "\n" + (begin + ("\n" + (header + "\n"))), rest);
  }

  lemma Associated(a: string, b: string, c: string)
    ensures (a + b) + c == a + (b + c)
  {
  }

  lemma TwoPlaces(lead: string, begin: string, mid: string, closing: string)
    requires Occurrences(lead, PHRASE) == {} && Occurrences(mid, PHRASE) == {} && |begin| == 28
    requires Occurrences(begin, PHRASE) == {4} && Occurrences(closing, PHRASE) == {4}
    ensures Occurrences(lead + ("\n" + (begin + ("\n" + (mid + ("\n" + closing))))), PHRASE) == {|lead| + 5, |lead| + 35 + |mid|}
  {
    var inner := mid + ("\n" + closing);
    AcrossNewline(mid, closing);
    AcrossNewline(begin, inner);
    AcrossNewline(lead, begin + ("\n" + inner));
    hide *;
    Moved(4, |mid| + 1);
    assert Occurrences(inner, PHRASE) == {|mid| + 5};
    Moved(|mid| + 5, 29);
    assert Occurrences(begin + ("\n" + inner), PHRASE) == {4, |mid| + 34};
    MovedTwo(4, |mid| + 34, |lead| + 1);
  }

  lemma Moved(i: int, n: int)
    ensures Shifted({i}, n) == {i + n}
  {
    forall j ensures j in Shifted({i}, n) <==> j == i + n { InShifted({i}, n, j); }
  }

  lemma MovedTwo(i: int, j: int, n: int)
    ensures Shifted({i, j}, n) == {i + n, j + n}
    ensures {i} + {j} == {i, j}
  {
    forall k ensures k in Shifted({i, j}, n) <==> k == i + n || k == j + n { InShifted({i, j}, n, k); }
  }

  /** Whatever `_fit` keeps of a neutralized text does not hold the phrase. */
  lemma {:induction false} KeptIsFree(body: string, kept: nat)
    requires kept <= |Droppable(Neutralized(body))|
    ensures Free(Neutralized(body)) && Free(CutOff(Droppable(Neutralized(body)), DroppedByCore(Neutralized(body)), kept))
  {
    var lines := Droppable(Neutralized(body));
    var count := DroppedByCore(Neutralized(body)) + |lines| - kept;
    NeutralizedIsFree(body);
    LinesFree(body);
    OmittedReadsBack(count);
    NeutralizedIsFree(OmittedLine(count));
    hide *;
    CutOffIs(lines, DroppedByCore(Neutralized(body)), kept);
    FreeJoined(lines[..kept] + [OmittedLine(count)]);
  }

  lemma LinesFree(body: string)
    ensures forall l :: l in Droppable(Neutralized(body)) ==> Free(l)
  {
    var lines := Split(body);
    SplitJoins(body, "");
    SplitLines(body, "");
    assert "" + body == body;
    NeutralizedJoined(lines);
    var each := EachNeutralized(lines);
    forall l | l in each ensures OneLine(l) && Free(l) {
      var i :| 0 <= i < |each| && each[i] == l;
      assert lines[i] in lines;
      NeutralizedLine(lines[i]);
      NeutralizedIsFree(lines[i]);
    }
    JoinSplits(each);
    hide Joined;
    hide Neutralized;
    hide Free;
    hide AlreadyOmitted;
  }

  /** A header line, and the index of a store over its entries. */
  ghost predicate IsIndex(index: string, header: string, entries: seq<string>, budget: int) {
    && OneLine(header) && (forall l :: l in entries ==> EntryLine(l))
    && index == header + ("\n" + IndexText(entries, budget))
  }

  /** The first of the entries, in order, and the number of all the others. */
  ghost predicate AddsUp(body: string, entries: seq<string>) {
    exists shown: nat :: shown <= |entries| && body == Joined(WithNotice(EachNeutralized(entries)[..shown], |entries| - shown))
  }

  /** The body says what the store holds: its line for an empty store, the entries and the count otherwise. */
  ghost predicate Tells(body: string, entries: seq<string>) {
    if entries == [] then body == EMPTY_INDEX else AddsUp(body, entries)
  }

  function Fitted(frame: Frame, whole: string, unit: Unit, limit: nat, kept: nat): string
    requires kept <= |Droppable(whole)|
  {
    if Within(frame, whole, unit, limit) then whole else CutOff(Droppable(whole), DroppedByCore(whole), kept)
  }

  lemma FittedTells(index: string, header: string, entries: seq<string>, budget: int, frame: Frame, unit: Unit, limit: nat, kept: nat)
    requires IsIndex(index, header, entries, budget)
    requires kept == 0 || kept < |Droppable(Neutralized(BodyOf(index)))|
    ensures kept <= |Droppable(Neutralized(BodyOf(index)))|
    ensures var body := Fitted(frame, Neutralized(BodyOf(index)), unit, limit, kept);
            && (Tells(body, entries) <==> entries != [] || Within(frame, EMPTY_INDEX, unit, limit))
            && (!Tells(body, entries) ==> body == OmittedLine(1))
  {
    IsIndexParts(index, header, entries, budget);
    if entries == [] { EmptyLines(); } else { EntriesTold(entries, budget, kept); }
    hide Within, BodyOf, Neutralized, Droppable, DroppedByCore, CutOff, AddsUp, IndexText;
  }

  lemma EntriesTold(entries: seq<string>, budget: int, kept: nat)
    requires entries != [] && forall l :: l in entries ==> EntryLine(l)
    requires kept == 0 || kept < |Droppable(Neutralized(IndexText(entries, budget)))|
    ensures var whole := Neutralized(IndexText(entries, budget));
            AddsUp(whole, entries) && kept <= |Droppable(whole)| && AddsUp(CutOff(Droppable(whole), DroppedByCore(whole), kept), entries)
  {
    hide *;
    ShownAddsUp(entries, budget, kept);
    ShownWithin(|entries|, budget);
    var whole := Neutralized(IndexText(entries, budget));
    AddsUpIs(whole, entries, Shown(|entries|, budget));
    AddsUpIs(CutOff(Droppable(whole), DroppedByCore(whole), kept), entries, kept);
  }

  /** The line of an empty store is one droppable line, and dropping it counts it. */
  lemma EmptyLines()
    ensures Neutralized(EMPTY_INDEX) == EMPTY_INDEX && OmittedLine(1) != EMPTY_INDEX
    ensures |Droppable(EMPTY_INDEX)| == 1 && CutOff(Droppable(EMPTY_INDEX), DroppedByCore(EMPTY_INDEX), 0) == OmittedLine(1)
  {
    assert forall i :: 0 <= i < |EMPTY_INDEX| ==> EMPTY_INDEX[i] != 'x' && EMPTY_INDEX[i] != '\n';
    Unchanged(EMPTY_INDEX);
    Differs(OMITTED_PREFIX, EMPTY_INDEX, 0);
    OnlyLine(EMPTY_INDEX);
    assert OmittedLine(1)[0] != EMPTY_INDEX[0];
  }

  lemma OnlyLine(line: string)
    requires OneLine(line) && AlreadyOmitted(line).None?
    ensures |Droppable(line)| == 1 && CutOff(Droppable(line), DroppedByCore(line), 0) == OmittedLine(1)
  {
    JoinSplits([line]);
    assert Joined([line]) == line && Droppable(line) == [line];
    assert [line][..0] + [OmittedLine(1)] == [OmittedLine(1)];
    hide AlreadyOmitted;
    hide OmittedLine;
    hide Split;
  }

  lemma IsIndexParts(index: string, header: string, entries: seq<string>, budget: int)
    requires IsIndex(index, header, entries, budget)
    ensures (forall l :: l in entries ==> EntryLine(l)) && BodyOf(index) == IndexText(entries, budget) && HeaderOf(index) == header
    ensures entries == [] ==> IndexText(entries, budget) == EMPTY_INDEX
  {
    Partition(header, IndexText(entries, budget));
  }

  lemma AddsUpIs(body: string, entries: seq<string>, shown: nat)
    requires shown <= |entries| && body == Joined(WithNotice(EachNeutralized(entries)[..shown], |entries| - shown))
    ensures AddsUp(body, entries)
  {
  }

  /** The whole body when it fits, and otherwise the most of its lines that do, with the notice. */
  ghost predicate Largest(frame: Frame, whole: string, unit: Unit, limit: nat, body: string) {
    if Within(frame, whole, unit, limit) then body == whole
    else
      var lines, already := Droppable(whole), DroppedByCore(whole);
      exists kept: nat ::
        && (kept == 0 || kept < |lines|) && body == CutOff(lines, already, kept)
        && (kept > 0 ==> Within(frame, body, unit, limit))
        && forall k :: kept < k < |lines| ==> !Within(frame, CutOff(lines, already, k), unit, limit)
  }

  /** For every store the body could be the index of: it says what the store holds, save for an empty one without room. */
  ghost predicate Told(frame: Frame, index: string, unit: Unit, limit: nat, body: string) {
    forall header, entries, budget :: IsIndex(index, header, entries, budget) ==>
      && (Tells(body, entries) <==> entries != [] || Within(frame, EMPTY_INDEX, unit, limit))
      && (!Tells(body, entries) ==> body == OmittedLine(1))
  }

  /** The payload around a body: the notice, the prefix, the index between its delimiters, and after a compaction the suffix. */
  ghost predicate Reads(text: string, w: Wording, header: string, compact: bool, notice: string, body: string) {
    text == (if notice == "" then "" else Neutralized(notice) + "\n") + (if compact then w.compactPrefix else w.startPrefix)
            + ("\n" + (INDEX_BEGIN + ("\n" + ((Neutralized(header) + ("\n" + body)) + ("\n" + (INDEX_END + if compact then "\n" + w.compactSuffix else ""))))))
  }

  lemma FrameReads(w: Wording, header: string, compact: bool, notice: string, body: string)
    ensures Reads(FrameOf(w, header, compact, notice).Wrap(body), w, header, compact, notice, body)
  {
    FrameText(w, header, compact, notice, body);
    hide Neutralized;
    var mid := Neutralized(header) + ("\n" + body);
    assert Lead(w, compact, notice) == (if notice == "" then "" else Neutralized(notice) + "\n") + (if compact then w.compactPrefix else w.startPrefix);
    assert w.Closing(compact) == INDEX_END + if compact then "\n" + w.compactSuffix else "";
  }

  /** As much of the index as the harness shows inline, by its own count: all of it where that fits. */
  ghost predicate FitsInline(harness: Harness, frame: Frame, whole: string, body: string) {
    && (Size(harness, frame.Wrap(whole)) <= INLINE_LIMIT ==> body == whole)
    && (Size(harness, frame.Wrap(body)) <= INLINE_LIMIT || body == CutOff(Droppable(whole), DroppedByCore(whole), 0))
  }

  lemma LargestFits(harness: Harness, frame: Frame, whole: string, body: string)
    requires Largest(frame, whole, MeasureOf(harness), INLINE_LIMIT, body)
    ensures FitsInline(harness, frame, whole, body)
  {
    SizeIs(harness, frame.Wrap(whole));
    SizeIs(harness, frame.Wrap(body));
    hide Size, MeasureOf, Weight, Droppable, DroppedByCore, CutOff;
  }

  /** What a payload is: a body without the phrase in its frame, as much of the index as fits, and no entry unaccounted for. */
  ghost predicate Composed(w: Wording, index: string, compact: bool, harness: Harness, notice: string, text: string, body: string) {
    var frame := FrameOf(w, HeaderOf(index), compact, notice);
    && text == frame.Wrap(body) && Reads(text, w, HeaderOf(index), compact, notice, body) && Free(body)
    && FitsInline(harness, frame, Neutralized(BodyOf(index)), body)
    && Largest(frame, Neutralized(BodyOf(index)), MeasureOf(harness), INLINE_LIMIT, body)
    && Told(frame, index, MeasureOf(harness), INLINE_LIMIT, body)
  }

  /**
   `_compose`: the payload of a session start. Whatever the index says, its body can be framed
   uniquely; it is the whole index or the most of it that fits; and when it is the store's index
   over some entries, the payload shows the first of them, in order, and the number of all the
   others. It is wrong about the store exactly when the store is empty and its one line does not fit.
   */
  method Compose(w: Wording, index: string, compact: bool, harness: Harness, notice: string) returns (text: string)
    ensures exists body: string :: Composed(w, index, compact, harness, notice, text, body)
  {
    var frame := FrameOf(w, HeaderOf(index), compact, notice);
    var whole, unit := Neutralized(BodyOf(index)), MeasureOf(harness);
    ghost var kept;
    text, kept := Fit(whole, frame, unit, INLINE_LIMIT);
    hide *;
    KeptWithin(whole, kept);
    ghost var body := Fitted(frame, whole, unit, INLINE_LIMIT, kept);
    LargestIs(frame, whole, unit, INLINE_LIMIT, kept);
    KeptIsFree(BodyOf(index), kept);
    FittedIs(frame, whole, unit, INLINE_LIMIT, kept);
    forall header, entries, budget | IsIndex(index, header, entries, budget)
      ensures Tells(body, entries) <==> entries != [] || Within(frame, EMPTY_INDEX, unit, INLINE_LIMIT)
      ensures !Tells(body, entries) ==> body == OmittedLine(1)
    {
      FittedTells(index, header, entries, budget, frame, unit, INLINE_LIMIT, kept);
    }
    ComposedIs(w, index, compact, harness, notice, text, body);
  }

  lemma KeptWithin(whole: string, kept: nat)
    requires kept == 0 || kept < |Droppable(whole)|
    ensures kept <= |Droppable(whole)|
  {
  }

  lemma FittedIs(frame: Frame, whole: string, unit: Unit, limit: nat, kept: nat)
    requires kept <= |Droppable(whole)|
    ensures Fitted(frame, whole, unit, limit, kept)
         == if Within(frame, whole, unit, limit) then whole else CutOff(Droppable(whole), DroppedByCore(whole), kept)
  {
  }

  lemma LargestIs(frame: Frame, whole: string, unit: Unit, limit: nat, kept: nat)
    requires kept == 0 || kept < |Droppable(whole)|
    requires !Within(frame, whole, unit, limit) ==>
               var lines, already := Droppable(whole), DroppedByCore(whole);
               && (kept > 0 ==> Within(frame, CutOff(lines, already, kept), unit, limit))
               && forall k :: kept < k < |lines| ==> !Within(frame, CutOff(lines, already, k), unit, limit)
    ensures Largest(frame, whole, unit, limit, Fitted(frame, whole, unit, limit, kept))
  {
    hide Within, Droppable, DroppedByCore, CutOff;
  }

  lemma ComposedIs(w: Wording, index: string, compact: bool, harness: Harness, notice: string, text: string, body: string)
    requires text == FrameOf(w, HeaderOf(index), compact, notice).Wrap(body) && Free(body)
    requires Largest(FrameOf(w, HeaderOf(index), compact, notice), Neutralized(BodyOf(index)), MeasureOf(harness), INLINE_LIMIT, body)
    requires forall header, entries, budget :: IsIndex(index, header, entries, budget) ==>
               && (Tells(body, entries) <==> entries != [] || Within(FrameOf(w, HeaderOf(index), compact, notice), EMPTY_INDEX, MeasureOf(harness), INLINE_LIMIT))
               && (!Tells(body, entries) ==> body == OmittedLine(1))
    ensures Composed(w, index, compact, harness, notice, text, body)
  {
    FrameReads(w, HeaderOf(index), compact, notice, body);
    LargestFits(harness, FrameOf(w, HeaderOf(index), compact, notice), Neutralized(BodyOf(index)), body);
    hide HeaderOf, BodyOf, Neutralized, Largest, FitsInline, Reads, Free, Tells, Within, FrameOf, MeasureOf;
  }

  // ---- an empty store reported as one entry ------------------------------------------------

  lemma WeightAtLeast(s: string, unit: Unit)
    requires forall c :: unit(c) >= 1
    ensures Weight(s, unit) >= |s|
  {
  }

  /** Behind a notice as long as the limit nothing fits. */
  lemma LongNotice(w: Wording, header: string, compact: bool, notice: string, unit: Unit, body: string)
    requires |Neutralized(notice)| >= INLINE_LIMIT && forall c :: unit(c) >= 1
    ensures !Within(FrameOf(w, header, compact, notice), body, unit, INLINE_LIMIT)
  {
    var frame := FrameOf(w, header, compact, notice);
    WeightAtLeast(frame.Wrap(body), unit);
    assert |frame.before| >= |Lead(w, compact, notice)| + 1;
    hide Neutralized, Weight;
  }

  /**
   An empty store behind a notice of ten thousand characters: whatever the wording, the header and
   the harness, the payload reports one entry left out.
   */
  lemma EmptyMiscounts(w: Wording, header: string, compact: bool, harness: Harness)
    requires OneLine(header)
    ensures var index, notice := header + ("\n" + EMPTY_INDEX), seq(INLINE_LIMIT, _ => 'a');
            && IsIndex(index, header, [], 1)
            && forall text, body :: Composed(w, index, compact, harness, notice, text, body) ==> body == OmittedLine(1) && !Tells(body, [])
  {
    var index, notice := header + ("\n" + EMPTY_INDEX), seq(INLINE_LIMIT, _ => 'a');
    Unchanged(notice);
    Partition(header, EMPTY_INDEX);
    assert IsIndex(index, header, [], 1);
    LongNotice(w, header, compact, notice, MeasureOf(harness), EMPTY_INDEX);
    hide Within, Neutralized, Largest, Free;
  }
}
