/**
 Writing the report of a run. However appends fail and wherever the process dies, the file is a
 list of whole lines with at most one change line open at its end; once it is closed, every change
 line tells one outcome, and the outcome told is what happened to the store.
 */
module ReportWriter {
  import opened Basics
  import opened PyText
  import opened DreamReport

  datatype Entry = Plain(line: string) | Change(opening: string, outcome: Outcome)

  function LineOf(e: Entry): string {
    match e
    case Plain(line) => line
    case Change(opening, outcome) => opening + OutcomeText(opening, outcome)
  }

  function Lines(log: seq<Entry>): (r: seq<string>)
    ensures |r| == |log| && forall i :: 0 <= i < |log| ==> r[i] == LineOf(log[i])
  {
    if log == [] then [] else [LineOf(log[0])] + Lines(log[1..])
  }

  predicate IsPlain(line: string) { OneLine(line) && !(APPLYING <= line) }

  predicate GoodEntry(e: Entry) {
    match e
    case Plain(line) => IsPlain(line)
    case Change(opening, outcome) => Opens(opening) && Tellable(outcome)
  }

  function TellingOf(e: Entry): seq<Outcome> { if e.Change? then [e.outcome] else [] }

  function Outcomes(log: seq<Entry>): seq<Outcome> {
    if log == [] then [] else TellingOf(log[0]) + Outcomes(log[1..])
  }

  function Plains(lines: seq<string>): (log: seq<Entry>)
    ensures |log| == |lines| && forall i :: 0 <= i < |lines| ==> log[i] == Plain(lines[i])
  {
    if lines == [] then [] else [Plain(lines[0])] + Plains(lines[1..])
  }

  /** What a line may tell of a call to `apply` that wrote the change `written`, or nothing. */
  predicate Consistent(o: Outcome, written: Option<string>) {
    && (o.Changed? ==> written == Some(o.id))
    && (o.NotApplied? ==> written == None)
  }

  function Content(text: Option<string>): string { if text.Some? then text.value else "" }

  /**
   The file is the lines of `log`, then a change line still open, if any. `written` has one element
   for each change line: the change its call committed.
   */
  ghost predicate Told(text: Option<string>, log: seq<Entry>, dangling: string, written: seq<Option<string>>) {
    && Content(text) == Joined(Lines(log) + [dangling])
    && (forall e :: e in log ==> GoodEntry(e))
    && (dangling == "" || Opens(dangling))
    && |written| == |Outcomes(log)| + (if dangling == "" then 0 else 1)
    && forall k :: 0 <= k < |Outcomes(log)| ==> Consistent(Outcomes(log)[k], written[k])
  }

  lemma OutcomesFront(first: Entry, rest: seq<Entry>)
    ensures Outcomes([first] + rest) == TellingOf(first) + Outcomes(rest) && Outcomes([]) == []
  {
    assert ([first] + rest)[1..] == rest;
  }

  lemma {:induction false} OutcomesAppend(a: seq<Entry>, b: seq<Entry>)
    ensures Outcomes(a + b) == Outcomes(a) + Outcomes(b)
  {
    hide *;
    if a == [] {
      OutcomesFront(Plain(""), []);
      assert a + b == b;
    } else {
      var first, rest := a[0], a[1..];
      OutcomesAppend(rest, b);
      OutcomesFront(first, rest);
      OutcomesFront(first, rest + b);
      assert a == [first] + rest && a + b == [first] + (rest + b);
    }
  }

  lemma {:induction false} PlainsTellNothing(lines: seq<string>)
    ensures Outcomes(Plains(lines)) == []
  {
    if lines != [] { PlainsTellNothing(lines[1..]); }
  }

  lemma ConcatAgain(a: string, b: string, c: string, d: string)
    ensures (a + (b + c)) + d == a + (b + (c + d)) && (a + b) + (c + d) == a + (b + (c + d))
  {
  }

  lemma {:induction false} JoinAppend(lines: seq<string>, left: string, a: string, rest: seq<string>)
    ensures Joined(lines + [left]) + Joined([a] + rest) == Joined(lines + [left + a] + rest)
  {
    hide Joined;
    if lines == [] {
      JoinedFront(left, []);
      JoinedFront(a, rest);
      JoinedFront(left + a, rest);
      ConcatAgain(left, a, "\n", Joined(rest));
      assert lines + [left] == [left] + [] && lines + [left + a] + rest == [left + a] + rest;
    } else {
      var first, more := lines[0], lines[1..];
      JoinAppend(more, left, a, rest);
      JoinedFront(first, more + [left]);
      JoinedFront(first, more + [left + a] + rest);
      assert lines + [left] == [first] + (more + [left]);
      assert lines + [left + a] + rest == [first] + (more + [left + a] + rest);
      ConcatAgain(first, "\n", Joined(more + [left]), Joined([a] + rest));
    }
  }

  lemma LinesAppend(a: seq<Entry>, b: seq<Entry>)
    ensures Lines(a + b) == Lines(a) + Lines(b)
  {
    hide LineOf;
    forall i | 0 <= i < |a| + |b| ensures Lines(a + b)[i] == (Lines(a) + Lines(b))[i] {
      assert (a + b)[i] == if i < |a| then a[i] else b[i - |a|];
    }
  }

  /** The open change line closed with `o`, then whole lines. */
  function Grown(log: seq<Entry>, dangling: string, o: Outcome, lines: seq<string>): seq<Entry> {
    log + (if dangling == "" then [] else [Change(dangling, o)]) + Plains(lines)
  }

  /** The text appended for that, and then for the first part of another change line. */
  function Pieces(dangling: string, o: Outcome, lines: seq<string>, opening: string): seq<string> {
    (if dangling == "" then [] else [OutcomeText(dangling, o)]) + lines + [opening]
  }

  lemma ChangeLine(opening: string, o: Outcome)
    ensures LineOf(Change(opening, o)) == opening + OutcomeText(opening, o)
  {
  }

  lemma PlainLines(lines: seq<string>)
    ensures Lines(Plains(lines)) == lines
  {
  }

  lemma GrownLines(log: seq<Entry>, dangling: string, o: Outcome, lines: seq<string>, opening: string)
    ensures Joined(Lines(log) + [dangling]) + Joined(Pieces(dangling, o, lines, opening))
            == Joined(Lines(Grown(log, dangling, o, lines)) + [opening])
  {
    hide Joined, OutcomeText, LineOf, Lines, Plains;
    var tail := lines + [opening];
    var closing := if dangling == "" then [] else [Change(dangling, o)];
    ChangeLine(dangling, o);
    PlainLines(lines);
    LinesAppend(log + closing, Plains(lines));
    LinesAppend(log, closing);
    OneLineLog(closing);
    if dangling == "" {
      JoinAppend(Lines(log), "", tail[0], tail[1..]);
      assert Pieces(dangling, o, lines, opening) == [tail[0]] + tail[1..];
      assert "" + tail[0] == tail[0];
      assert Lines(log) + [] + lines + [opening] == Lines(log) + [tail[0]] + tail[1..];
    } else {
      JoinAppend(Lines(log), dangling, OutcomeText(dangling, o), tail);
      assert Pieces(dangling, o, lines, opening) == [OutcomeText(dangling, o)] + tail;
      assert Lines(log) + [dangling + OutcomeText(dangling, o)] + lines + [opening]
             == Lines(log) + [dangling + OutcomeText(dangling, o)] + tail;
    }
  }

  lemma OneLineLog(log: seq<Entry>)
    ensures log == [] ==> Lines(log) == []
    ensures |log| == 1 ==> Lines(log) == [LineOf(log[0])]
  {
  }

  lemma GrownOutcomes(log: seq<Entry>, dangling: string, o: Outcome, lines: seq<string>)
    ensures Outcomes(Grown(log, dangling, o, lines)) == Outcomes(log) + if dangling == "" then [] else [o]
  {
    var closing := if dangling == "" then [] else [Change(dangling, o)];
    OutcomesAppend(log + closing, Plains(lines));
    OutcomesAppend(log, closing);
    PlainsTellNothing(lines);
  }

  lemma GrownIsGood(log: seq<Entry>, dangling: string, o: Outcome, lines: seq<string>)
    requires forall e :: e in log ==> GoodEntry(e)
    requires dangling != "" ==> Opens(dangling) && Tellable(o)
    requires forall l :: l in lines ==> IsPlain(l)
    ensures forall e :: e in Grown(log, dangling, o, lines) ==> GoodEntry(e)
  {
    hide Opens, Tellable, IsPlain;
    forall e | e in Grown(log, dangling, o, lines) ensures GoodEntry(e) {
      if e in Plains(lines) {
        var i :| 0 <= i < |lines| && Plains(lines)[i] == e;
        assert lines[i] in lines;
      }
    }
  }

  /** An append of such pieces keeps the file told, when the outcome is the truth. */
  lemma Growing(text: Option<string>, log: seq<Entry>, dangling: string, written: seq<Option<string>>,
                o: Outcome, lines: seq<string>, opening: string)
    requires Told(text, log, dangling, written) && Tellable(o)
    requires dangling != "" ==> Consistent(o, written[|written| - 1])
    requires forall l :: l in lines ==> IsPlain(l)
    requires opening == "" || Opens(opening)
    ensures Told(Some(Content(text) + Joined(Pieces(dangling, o, lines, opening))), Grown(log, dangling, o, lines),
                 opening, if opening == "" then written else written + [None])
  {
    hide Joined, Opens, OutcomeText, IsPlain, Lines, Outcomes, Plains, Grown, Pieces, GoodEntry, Tellable, Consistent;
    GrownLines(log, dangling, o, lines, opening);
    GrownOutcomes(log, dangling, o, lines);
    GrownIsGood(log, dangling, o, lines);
  }

  // ---- reading a report ----

  function ReadingOf(line: string): seq<Option<Outcome>> { if APPLYING <= line then [OutcomeOf(line)] else [] }

  function Readings(lines: seq<string>): seq<Option<Outcome>> {
    if lines == [] then [] else ReadingOf(lines[0]) + Readings(lines[1..])
  }

  function Somes(outcomes: seq<Outcome>): (r: seq<Option<Outcome>>)
    ensures |r| == |outcomes| && forall i :: 0 <= i < |r| ==> r[i] == Some(outcomes[i])
  {
    if outcomes == [] then [] else [Some(outcomes[0])] + Somes(outcomes[1..])
  }

  lemma LineReads(e: Entry)
    requires GoodEntry(e)
    ensures ReadingOf(LineOf(e)) == Somes(TellingOf(e)) && OneLine(LineOf(e))
  {
    hide Opens, Tellable, OutcomeOf, OutcomeText;
    if e.Change? {
      OpensParts(e.opening);
      OutcomeReadsBack(e.opening, e.outcome);
      OutcomeIsOneLine(e.opening, e.outcome);
      assert APPLYING <= e.opening + OutcomeText(e.opening, e.outcome);
    }
  }

  lemma {:induction false} ReadingsAreOutcomes(log: seq<Entry>)
    requires forall e :: e in log ==> GoodEntry(e)
    ensures Readings(Lines(log) + [""]) == Somes(Outcomes(log))
    ensures forall l :: l in Lines(log) ==> OneLine(l)
  {
    if log == [] {
      assert Lines(log) + [""] == [""];
      assert Readings([""]) == ReadingOf("") + Readings([""][1..]);
    } else {
      LineReads(log[0]);
      ReadingsAreOutcomes(log[1..]);
      hide GoodEntry, ReadingOf, LineOf, TellingOf;
      var all := Lines(log) + [""];
      assert all[1..] == Lines(log[1..]) + [""] && all[0] == LineOf(log[0]);
      assert Somes(Outcomes(log)) == Somes(TellingOf(log[0])) + Somes(Outcomes(log[1..]));
    }
  }

  lemma OpensParts(opening: string)
    requires Opens(opening)
    ensures OneLine(opening) && APPLYING <= opening
  {
  }

  lemma OutcomeIsOneLine(opening: string, o: Outcome)
    requires Tellable(o)
    ensures OneLine(OutcomeText(opening, o))
  {
    match o
    case Changed(id) =>
      IdIsPlain(id);
      assert OneLine(" -> change ") && OneLine("; undo: memriver undo ");
    case NotApplied(_) => assert OneLine(" -> not applied: ");
    case Unknown => UnknownIsOneLine(opening);
  }

  lemma TwoLines(a: string, b: string)
    requires OneLine(a) && OneLine(b)
    ensures OneLine(a + b)
  {
  }

  lemma UnknownWords()
    ensures OneLine(" -> outcome unknown") && OneLine(" — ") && OneLine("") && OneLine(CREATED_NOTE)
  {
    TwoLines("; a created memory, if any, is", " not listed — see memriver list");
  }

  lemma UnknownIsOneLine(opening: string)
    ensures OneLine(UnknownText(opening))
  {
    var ids := NamedIds(opening);
    var words := Words(opening);
    IdsAreIds(if |words| < 2 then [] else words[2..]);
    UnknownWords();
    hide OneLine, NamedIds, Words, EndsWith;
    if ids != [] {
      SeeIsOneLine(ids);
      TwoLines(" — ", SeeEach(ids));
    }
    var named := if ids == [] then "" else " — " + SeeEach(ids);
    var created := if EndsWith(opening, CREATES) then CREATED_NOTE else "";
    TwoLines(named, created);
    assert UnknownMore(opening) == named + created;
    TwoLines(" -> outcome unknown", UnknownMore(opening));
  }

  lemma {:induction false} IdsAreIds(words: seq<string>)
    ensures forall w :: w in Ids(words) ==> IsId(w)
  {
    if words != [] { IdsAreIds(words[1..]); }
  }

  lemma {:induction false} SeeIsOneLine(ids: seq<string>)
    requires forall w :: w in ids ==> IsId(w)
    ensures OneLine(SeeEach(ids))
  {
    if ids != [] {
      IdIsPlain(ids[0]);
      SeeIsOneLine(ids[1..]);
      assert OneLine("see memriver history ") && OneLine("; ");
    }
  }

  /**
   A closed report, read line by line: every change line has one outcome, there is one for every
   call that was made, and none tells a change that was not committed or a refusal of one that was.
   */
  lemma ClosedReportTells(text: Option<string>, log: seq<Entry>, written: seq<Option<string>>)
    requires Told(text, log, "", written)
    ensures var read := Readings(Split(Content(text)));
            |read| == |written| && forall k :: 0 <= k < |read| ==> read[k].Some? && Consistent(read[k].value, written[k])
  {
    ReadingsAreOutcomes(log);
    JoinSplits(Lines(log) + [""]);
  }

  /** The last line of the file is the open one. */
  lemma LastIsDangling(text: Option<string>, log: seq<Entry>, dangling: string, written: seq<Option<string>>)
    requires Told(text, log, dangling, written)
    ensures Split(Content(text)) == Lines(log) + [dangling] && Content(text) == Joined(Lines(log) + [dangling])
  {
    ReadingsAreOutcomes(log);
    if dangling != "" { OpensParts(dangling); }
    JoinSplits(Lines(log) + [dangling]);
  }

  // ---- the writer ----

  datatype Fate = Lands | Fails | Dies

  datatype Ended = Went | Raised | Killed

  /** What a call to `apply` did; the change of a call that failed or died may have been committed. */
  datatype Attempt =
    | Landed(id: string, steps: seq<string>)
    | Conflict(reason: string)
    | Policy(rule: string)
    | Broken(committed: Option<string>)
    | Dying(committed: Option<string>)

  function Committed(a: Attempt): Option<string> {
    match a
    case Landed(id, _) => Some(id)
    case Broken(committed) => committed
    case Dying(committed) => committed
    case _ => None
  }

  function EndOf(fate: Fate): Ended { match fate case Lands => Went case Fails => Raised case Dies => Killed }

  predicate GoodAttempt(a: Attempt) { a.Landed? ==> IsId(a.id) }

  /** What a phase does to the report. */
  datatype Command =
    | Heading(title: string)
    | Saying(line: string)
    | Asking(line: string)
    | Changing(kind: string, items: seq<string>, creates: bool, attempt: Attempt)

  predicate GoodCommand(c: Command) {
    match c
    case Heading(_) => true
    case Saying(line) => !(APPLYING <= LineSafe(line))
    case Asking(line) => !(APPLYING <= LineSafe(line))
    case Changing(kind, items, _, attempt) => IsKind(kind) && (forall i :: i in items ==> IsId(i)) && GoodAttempt(attempt)
  }

  // ---- what a report says when every append lands ----

  function Indented(steps: seq<string>): (r: seq<string>)
    ensures |r| == |steps| && forall i :: 0 <= i < |steps| ==> r[i] == LineSafe("  " + steps[i])
  {
    if steps == [] then [] else [LineSafe("  " + steps[0])] + Indented(steps[1..])
  }

  /** The lines of one group: its change line with the outcome and, if it landed, its steps; beyond the limit, a refusal. */
  function GroupSays(kind: string, items: seq<string>, creates: bool, attempt: Attempt, room: bool): seq<Entry> {
    if !room then [Plain(LineSafe("not applied (group limit): " + Spaced([kind] + items)))]
    else
      var opening := ApplyingText(kind, items, creates);
      match attempt
      case Landed(id, steps) => [Change(opening, Changed(id))] + Plains(Indented(steps))
      case Conflict(reason) => [Change(opening, NotApplied(SingleLine("conflict " + reason)))]
      case Policy(rule) => [Change(opening, NotApplied(SingleLine("policy " + rule)))]
      case _ => []
  }

  function Uses(c: Command, limit: nat, used: nat): nat { if c.Changing? && used < limit && c.attempt.Landed? then 1 else 0 }

  function Says(c: Command, limit: nat, used: nat): seq<Entry> {
    match c
    case Heading(title) => Plains(["", "== " + SingleLine(title) + " =="])
    case Saying(line) => Plains([LineSafe(line)])
    case Asking(_) => []
    case Changing(kind, items, creates, attempt) => GroupSays(kind, items, creates, attempt, used < limit)
  }

  function SaysAll(commands: seq<Command>, limit: nat, used: nat): seq<Entry> {
    if commands == [] then []
    else Says(commands[0], limit, used) + SaysAll(commands[1..], limit, used + Uses(commands[0], limit, used))
  }

  /** How the phases end: at the first group within the limit whose call fails or dies. */
  function Ending(commands: seq<Command>, limit: nat, used: nat): Ended {
    if commands == [] then Went
    else
      var c := commands[0];
      if c.Changing? && used < limit && c.attempt.Broken? then Raised
      else if c.Changing? && used < limit && c.attempt.Dying? then Killed
      else Ending(commands[1..], limit, used + Uses(c, limit, used))
  }

  function Asked(commands: seq<Command>): seq<string> {
    if commands == [] then []
    else (if commands[0].Asking? then [LineSafe(commands[0].line)] else []) + Asked(commands[1..])
  }

  function HeaderLines(runId: string, startedAt: string, trigger: string, executor: Option<string>): seq<string> {
    ["memriver dream run " + runId, "started: " + startedAt, "trigger: " + trigger,
     "executor: " + if executor.Some? && executor.value != "" then executor.value else "none"]
  }

  function FooterLines(needs: seq<string>, status: string, finished: string): seq<string> {
    (if needs == [] then [] else ["", "== Needs you =="] + needs) + ["", "status: " + status, "finished: " + finished]
  }

  function SessionSays(header: (string, string, string, Option<string>), commands: seq<Command>, limit: nat,
                       needs: seq<string>, finished: string): seq<Entry> {
    Plains(HeaderLines(header.0, header.1, header.2, header.3)) + SaysAll(commands, limit, 0)
    + Plains(FooterLines(needs + Asked(commands), "completed", finished))
  }

  lemma GrownParts(log: seq<Entry>, dangling: string, lines: seq<string>)
    ensures Grown(log, dangling, Unknown, lines) == Grown(log, dangling, Unknown, []) + Plains(lines)
    ensures dangling == "" ==> Grown(log, dangling, Unknown, []) == log
    ensures |lines| == 1 ==> Plains(lines) == [Plain(lines[0])]
  {
  }

  lemma IndentedNone(log: seq<Entry>, steps: seq<string>)
    ensures log == log + Plains(Indented(steps[..0]))
  {
  }

  lemma IndentedNext(log: seq<Entry>, steps: seq<string>, i: nat)
    requires i < |steps|
    ensures log + Plains(Indented(steps[..i])) + Plains([LineSafe("  " + steps[i])]) == log + Plains(Indented(steps[..i + 1]))
    ensures i + 1 == |steps| ==> steps[..i + 1] == steps
  {
    var a, b := Plains(Indented(steps[..i])) + Plains([LineSafe("  " + steps[i])]), Plains(Indented(steps[..i + 1]));
    forall k | 0 <= k <= i ensures a[k] == b[k] {}
    assert a == b;
  }

  lemma NothingSaid(log: seq<Entry>, commands: seq<Command>)
    ensures SaysAll([], 0, 0) == [] && Asked([]) == [] && log + [] == log && commands[0..] == commands
  {
  }

  lemma SaidNext(log: seq<Entry>, needs: seq<string>, commands: seq<Command>, i: nat, limit: nat, used: nat)
    requires i < |commands|
    ensures var c, rest, more := commands[i], commands[i + 1..], used + Uses(commands[i], limit, used);
            && log + SaysAll(commands[i..], limit, used) == (log + Says(c, limit, used)) + SaysAll(rest, limit, more)
            && needs + Asked(commands[i..]) == (needs + Asked([c])) + Asked(rest)
            && Ending(commands[i..], limit, used) == if Ending([c], limit, used).Went? then Ending(rest, limit, more) else Ending([c], limit, used)
  {
    hide Says, LineSafe;
    assert commands[i..][1..] == commands[i + 1..];
    AskedFront(needs, commands[i..]);
    SaidOnce(log, Says(commands[i], limit, used), SaysAll(commands[i + 1..], limit, used + Uses(commands[i], limit, used)));
  }

  lemma AskedFront(needs: seq<string>, commands: seq<Command>)
    requires commands != []
    ensures needs + Asked(commands) == (needs + Asked([commands[0]])) + Asked(commands[1..])
  {
    AskedOne(commands[0]);
    AskedStep(commands);
    hide *;
  }

  lemma AskedStep(commands: seq<Command>)
    requires commands != []
    ensures Asked(commands) == (if commands[0].Asking? then [LineSafe(commands[0].line)] else []) + Asked(commands[1..])
  {
    hide LineSafe;
  }

  lemma AskedOne(c: Command)
    ensures Asked([c]) == if c.Asking? then [LineSafe(c.line)] else []
  {
    hide LineSafe;
    AskedStep([c]);
  }

  lemma SaidOnce(log: seq<Entry>, says: seq<Entry>, more: seq<Entry>)
    ensures log + (says + more) == (log + says) + more
  {
  }

  class Report {
    var text: Option<string>          // the file, if it is there
    var pending: Option<string>
    var needs: seq<string>
    var used: nat                     // the groups applied, `ctx.groups_used`
    var tick: nat
    const fates: nat -> Fate
    ghost var log: seq<Entry>
    ghost var dangling: string
    ghost var written: seq<Option<string>>

    constructor (fates: nat -> Fate)
      ensures Live() && text == None && written == [] && needs == [] && used == 0
    {
      this.fates := fates;
      text, pending, needs, used, tick := None, None, [], 0, 0;
      log, dangling, written := [], "", [];
    }

    /** What holds wherever the process stops. */
    ghost predicate Valid()
      reads this
    {
      Told(text, log, dangling, written) && forall n :: n in needs ==> IsPlain(n)
    }

    /** What holds while the process lives: it knows whether a line is open. */
    ghost predicate Live()
      reads this
    {
      Valid() && (match pending case None => dangling == "" case Some(p) => p == dangling && p != "")
    }

    /** Every append in a stretch of time lands. */
    predicate Quiet(from: nat, to: nat) { forall k :: from <= k < to ==> fates(k).Lands? }

    method Append(s: string) returns (e: Ended)
      modifies this`text, this`tick
      ensures tick == old(tick) + 1 && e == EndOf(fates(old(tick)))
      ensures text == if e.Went? then Some(Content(old(text)) + s) else old(text)
    {
      var fate := fates(tick);
      tick := tick + 1;
      if fate.Fails? { return Raised; }
      if fate.Dies? { return Killed; }
      text := Some(Content(text) + s);
      e := Went;
    }

    /** `_write`: whole lines, and the first part of a change line, or nothing, after them. */
    method Write(lines: seq<string>, opening: string) returns (e: Ended)
      requires Live() && (forall l :: l in lines ==> IsPlain(l)) && (opening == "" || Opens(opening))
      requires lines != [] || opening != ""
      modifies this
      ensures Live() && needs == old(needs) && used == old(used)
      ensures tick == old(tick) + 1 && e == EndOf(fates(old(tick)))
      ensures e.Went? ==>
                && log == Grown(old(log), old(dangling), Unknown, lines) && dangling == opening
                && written == if opening == "" then old(written) else old(written) + [None]
      ensures !e.Went? ==> log == old(log) && dangling == old(dangling) && written == old(written)
    {
      hide Told;
      Growing(text, log, dangling, written, Unknown, lines, opening);
      var closing := match pending case None => [] case Some(p) => [UnknownText(p)];
      e := Append(Joined(closing + lines + [opening]));
      if e.Went? {
        log, dangling := Grown(log, dangling, Unknown, lines), opening;
        if opening != "" { written := written + [None]; }
        pending := if opening == "" then None else Some(opening);
      }
    }

    /** `_complete`. */
    method Complete(o: Outcome) returns (e: Ended)
      requires Live() && pending.Some? && Tellable(o) && !o.Unknown? && Consistent(o, written[|written| - 1])
      modifies this
      ensures Live() && written == old(written) && needs == old(needs) && used == old(used)
      ensures tick == old(tick) + 1 && e == EndOf(fates(old(tick)))
      ensures e.Went? ==> log == old(log) + [Change(old(dangling), o)] && dangling == ""
      ensures !e.Went? ==> log == old(log) && dangling == old(dangling)
    {
      hide Told;
      Growing(text, log, dangling, written, o, [], "");
      assert Grown(log, dangling, o, []) == log + [Change(dangling, o)];
      assert Pieces(dangling, o, [], "") == [OutcomeText(dangling, o), ""];
      e := Append(Joined([OutcomeText(pending.value, o), ""]));
      if e.Went? {
        log, dangling := Grown(log, dangling, o, []), "";
        pending := None;
      }
    }

    method Line(line: string) returns (e: Ended)
      requires Live() && !(APPLYING <= LineSafe(line))
      modifies this
      ensures Live() && written == old(written) && needs == old(needs) && used == old(used)
      ensures tick == old(tick) + 1 && e == EndOf(fates(old(tick)))
      ensures e.Went? ==> log == Grown(old(log), old(dangling), Unknown, [LineSafe(line)]) && dangling == ""
      ensures !e.Went? ==> log == old(log) && dangling == old(dangling)
    {
      SafeIsOneLine(line);
      e := Write([LineSafe(line)], "");
    }

    method NeedsYou(line: string)
      requires Live() && !(APPLYING <= LineSafe(line))
      modifies this
      ensures Live() && written == old(written) && log == old(log) && dangling == old(dangling) && used == old(used)
      ensures needs == old(needs) + [LineSafe(line)] && tick == old(tick)
    {
      SafeIsOneLine(line);
      needs := needs + [LineSafe(line)];
    }

    /** `footer`: closes the report. */
    method Footer(status: string, finished: string) returns (e: Ended)
      requires Live() && OneLine(status) && OneLine(finished)
      modifies this
      ensures Live() && written == old(written) && used == old(used) && needs == old(needs)
      ensures tick == old(tick) + 1 && e == EndOf(fates(old(tick)))
      ensures e.Went? ==> log == Grown(old(log), old(dangling), Unknown, FooterLines(needs, status, finished)) && dangling == ""
      ensures !e.Went? ==> log == old(log) && dangling == old(dangling)
    {
      assert IsPlain("") && IsPlain("== Needs you ==") by { assert "== Needs you =="[0] != APPLYING[0]; }
      StatusIsPlain(status, finished);
      e := Write(FooterLines(needs, status, finished), "");
    }

    /** `apply_group`: the change id of a group that was applied. */
    method ApplyGroup(kind: string, items: seq<string>, creates: bool, attempt: Attempt, limit: nat)
      returns (e: Ended, id: Option<string>)
      requires Live() && IsKind(kind) && (forall i :: i in items ==> IsId(i)) && GoodAttempt(attempt) && used <= limit
      modifies this
      ensures Valid() && (!e.Killed? ==> Live()) && used <= limit
      ensures written == old(written) || written == old(written) + [Committed(attempt)]
      ensures e.Went? ==> dangling == ""
      ensures e.Went? && old(used) < limit ==>
                && id == Committed(attempt) && written == old(written) + [id] && (attempt.Landed? <==> id.Some?)
                && !attempt.Broken? && !attempt.Dying?
      ensures old(used) == limit ==> written == old(written)
      ensures id.Some? ==> e.Went? && attempt.Landed?
      ensures used == old(used) + (if written != old(written) && attempt.Landed? then 1 else 0)
      ensures needs == old(needs) && old(tick) < tick
      ensures e.Went? ==>
                log == Grown(old(log), old(dangling), Unknown, []) + GroupSays(kind, items, creates, attempt, old(used) < limit)
      ensures Quiet(old(tick), tick) ==>
                e == if old(used) < limit && attempt.Broken? then Raised else if old(used) < limit && attempt.Dying? then Killed else Went
      ensures Quiet(old(tick), tick) && !e.Went? ==>
                log == Grown(old(log), old(dangling), Unknown, []) && dangling == ApplyingText(kind, items, creates)
    {
      hide Told, Consistent, ApplyingText, SingleLine, Spaced, LineSafe, IsPlain, Opens, Tellable;
      id := None;
      if used >= limit {
        LimitIsPlain(kind, items);
        GrownParts(log, dangling, [LineSafe("not applied (group limit): " + Spaced([kind] + items))]);
        e := Line("not applied (group limit): " + Spaced([kind] + items));
        return;
      }
      ApplyingOpens(kind, items, creates);
      e := Write([], ApplyingText(kind, items, creates));
      if !e.Went? { return; }
      RewriteLast(text, log, dangling, written, Committed(attempt));
      written := written[|written| - 1 := Committed(attempt)];
      match attempt
      case Dying(_) => e := Killed;
      case Broken(_) => e := Raised;
      case Conflict(reason) => e := Refuse("conflict " + reason);
      case Policy(rule) => e := Refuse("policy " + rule);
      case Landed(change, steps) =>
        used := used + 1;
        e := Applied(change, steps);
        if e.Went? { id := Some(change); }
    }

    method Refuse(reason: string) returns (e: Ended)
      requires Live() && pending.Some? && written[|written| - 1] == None
      modifies this
      ensures Live() && written == old(written) && used == old(used) && needs == old(needs)
      ensures tick == old(tick) + 1 && e == EndOf(fates(old(tick)))
      ensures e.Went? ==> log == old(log) + [Change(old(dangling), NotApplied(SingleLine(reason)))] && dangling == ""
    {
      SafeIsOneLine(reason);
      e := Complete(NotApplied(SingleLine(reason)));
    }

    /** The outcome of a group that landed, and a line for each of its steps. */
    method Applied(change: string, steps: seq<string>) returns (e: Ended)
      requires Live() && pending.Some? && written[|written| - 1] == Some(change) && IsId(change)
      modifies this
      ensures Live() && written == old(written) && used == old(used) && needs == old(needs) && old(tick) < tick
      ensures Quiet(old(tick), tick) ==> e.Went?
      ensures e.Went? ==> log == old(log) + ([Change(old(dangling), Changed(change))] + Plains(Indented(steps))) && dangling == ""
    {
      hide Told, LineSafe, Indented, Grown, IsPlain, Opens, Plains;
      e := Complete(Changed(change));
      if e.Went? { e := Steps(steps); }
    }

    method Steps(steps: seq<string>) returns (e: Ended)
      requires Live() && dangling == ""
      modifies this
      ensures Live() && written == old(written) && used == old(used) && needs == old(needs) && old(tick) <= tick
      ensures Quiet(old(tick), tick) ==> e.Went?
      ensures e.Went? ==> log == old(log) + Plains(Indented(steps)) && dangling == ""
    {
      hide Told, LineSafe, Indented, Grown, IsPlain, Opens, Plains;
      e := Went;
      var i := 0;
      IndentedNone(log, steps);
      while e.Went? && i < |steps|
        invariant Live() && written == old(written) && used == old(used) && needs == old(needs) && old(tick) <= tick && i <= |steps|
        invariant Quiet(old(tick), tick) ==> e.Went?
        invariant e.Went? ==> log == old(log) + Plains(Indented(steps[..i])) && dangling == ""
        decreases |steps| - i
      {
        IndentedIsPlain("  " + steps[i]);
        IndentedNext(old(log), steps, i);
        GrownParts(log, "", [LineSafe("  " + steps[i])]);
        e := Line("  " + steps[i]);
        i := i + 1;
      }
      assert steps[..|steps|] == steps;
    }

    /** `mark_interrupted`, by a process that has only the file. */
    method MarkInterrupted(readable: bool) returns (e: Ended)
      requires Valid()
      modifies this
      ensures Valid() && written == old(written) && used == old(used) && tick == old(tick) + (if readable then 1 else 0)
      ensures e == if readable then EndOf(fates(old(tick))) else Raised
      ensures e.Went? ==> log == Grown(old(log), old(dangling), Unknown, ["", INTERRUPTED, "status: failed"]) && dangling == ""
      ensures !e.Went? ==> text == old(text) && dangling == old(dangling) && log == old(log)
    {
      hide Told, Grown, Pieces, UnknownText, Joined, SplitFrom, Split, Lines, OneLine, IsPlain;
      if !readable { return Raised; }
      var t := Content(text);
      LastIsDangling(text, log, dangling, written);
      JoinedEnds(Lines(log), dangling);
      var tail := "";
      if t != "" && t[|t| - 1] != '\n' {
        var last := Split(t)[|Split(t)| - 1];
        tail := (if APPLYING <= last then UnknownText(last) else "") + "\n";
      }
      InterruptedIsPlain();
      DanglingOpens(text, log, dangling, written);
      Growing(text, log, dangling, written, Unknown, ["", INTERRUPTED, "status: failed"], "");
      ThreePieces(dangling, INTERRUPTED, "status: failed");
      assert tail == if dangling == "" then "" else UnknownText(dangling) + "\n" by { EndsOpen(Lines(log), dangling); }
      assert "" + ThreeLines(INTERRUPTED, "status: failed") == ThreeLines(INTERRUPTED, "status: failed");
      e := Append(tail + ThreeLines(INTERRUPTED, "status: failed"));
      if e.Went? {
        log, dangling := Grown(log, dangling, Unknown, ["", INTERRUPTED, "status: failed"]), "";
      }
    }

    method Header(runId: string, startedAt: string, trigger: string, executor: Option<string>) returns (e: Ended)
      requires Live() && OneLine(runId) && OneLine(startedAt) && OneLine(trigger) && (executor.Some? ==> OneLine(executor.value))
      modifies this
      ensures Live() && written == old(written) && used == old(used) && needs == old(needs)
      ensures tick == old(tick) + 1 && e == EndOf(fates(old(tick)))
      ensures e.Went? ==> log == Grown(old(log), old(dangling), Unknown, HeaderLines(runId, startedAt, trigger, executor)) && dangling == ""
      ensures !e.Went? ==> log == old(log) && dangling == old(dangling)
    {
      HeaderIsPlain(runId, startedAt, trigger, if executor.Some? && executor.value != "" then executor.value else "none");
      e := Write(HeaderLines(runId, startedAt, trigger, executor), "");
    }

    method Section(title: string) returns (e: Ended)
      requires Live()
      modifies this
      ensures Live() && written == old(written) && used == old(used) && needs == old(needs)
      ensures tick == old(tick) + 1 && e == EndOf(fates(old(tick)))
      ensures e.Went? ==> log == Grown(old(log), old(dangling), Unknown, ["", "== " + SingleLine(title) + " =="]) && dangling == ""
    {
      TitleIsPlain(title);
      e := Write(["", "== " + SingleLine(title) + " =="], "");
    }

    /** The commands of the phases, up to the first that does not go through. */
    method Phases(commands: seq<Command>, limit: nat) returns (e: Ended)
      requires Live() && dangling == "" && used <= limit && forall c :: c in commands ==> GoodCommand(c)
      modifies this
      ensures Valid() && (!e.Killed? ==> Live()) && (e.Went? ==> dangling == "") && used <= limit && old(tick) <= tick
      ensures |written| <= |old(written)| + |commands|
      ensures e.Went? ==> log == old(log) + SaysAll(commands, limit, old(used)) && needs == old(needs) + Asked(commands)
      ensures Quiet(old(tick), tick) ==> e == Ending(commands, limit, old(used))
    {
      hide Told, Says, GroupSays, LineSafe, SingleLine, IsPlain, GoodCommand, Quiet;
      e := Went;
      var i := 0;
      NothingSaid(log, commands);
      QuietTwice(tick, tick, tick);
      while e.Went? && i < |commands|
        invariant i <= |commands| && Valid() && (!e.Killed? ==> Live()) && (e.Went? ==> dangling == "") && used <= limit
        invariant |written| <= |old(written)| + i && old(tick) <= tick
        invariant e.Went? ==> log + SaysAll(commands[i..], limit, used) == old(log) + SaysAll(commands, limit, old(used))
        invariant e.Went? ==> needs + Asked(commands[i..]) == old(needs) + Asked(commands)
        invariant e.Went? ==> Ending(commands[i..], limit, used) == Ending(commands, limit, old(used))
        invariant !e.Went? && Quiet(old(tick), tick) ==> e == Ending(commands, limit, old(used))
        decreases |commands| - i
      {
        assert commands[i] in commands;
        SaidNext(log, needs, commands, i, limit, used);
        ghost var before := tick;
        e := Do(commands[i], limit);
        QuietTwice(old(tick), before, tick);
        i := i + 1;
      }
      assert commands[|commands|..] == [];
      NothingSaid(log, []);
    }

    method Do(c: Command, limit: nat) returns (e: Ended)
      requires Live() && dangling == "" && used <= limit && GoodCommand(c)
      modifies this
      ensures Valid() && (!e.Killed? ==> Live()) && (e.Went? ==> dangling == "") && used <= limit && old(tick) <= tick
      ensures |written| <= |old(written)| + 1
      ensures e.Went? ==>
                && log == old(log) + Says(c, limit, old(used)) && used == old(used) + Uses(c, limit, old(used))
                && needs == old(needs) + Asked([c])
      ensures e.Went? || Quiet(old(tick), tick) ==> e == Ending([c], limit, old(used))
    {
      hide Told, LineSafe, SingleLine, IsPlain, GroupSays, Grown;
      e := Went;
      match c
      case Heading(title) =>
        GrownParts(log, dangling, ["", "== " + SingleLine(title) + " =="]);
        e := Section(title);
      case Saying(line) =>
        GrownParts(log, dangling, [LineSafe(line)]);
        e := Line(line);
      case Asking(line) => NeedsYou(line);
      case Changing(kind, items, creates, attempt) =>
        GrownParts(log, dangling, []);
        var ended, id := ApplyGroup(kind, items, creates, attempt, limit);
        e := ended;
    }

    lemma QuietStep(from: nat, to: nat)
      requires to == from + 1
      ensures Quiet(from, to) <==> fates(from).Lands?
    {
    }

    lemma QuietTwice(from: nat, mid: nat, to: nat)
      requires from <= mid <= to
      ensures Quiet(from, to) <==> Quiet(from, mid) && Quiet(mid, to)
    {
    }

    /**
     One run's report, as `run_dream` writes it: the completed footer, or, after an exception, one
     attempt at a failed one; a row that cannot be marked completed is named in one more line.
     */
    method Session(header: (string, string, string, Option<string>), commands: seq<Command>, limit: nat, finished: string,
                   completes: bool, fails: bool)
      returns (e: Ended, footer: Option<string>)
      requires Live() && dangling == "" && used == 0 && (forall c :: c in commands ==> GoodCommand(c)) && OneLine(finished)
      requires OneLine(header.0) && OneLine(header.1) && OneLine(header.2) && (header.3.Some? ==> OneLine(header.3.value))
      modifies this
      ensures Valid() && used <= limit && old(tick) <= tick
      ensures footer.Some? ==> dangling == ""
      ensures e.Went? ==> footer == Some("completed") && completes
      ensures |written| <= |old(written)| + |commands|
      ensures footer == Some("completed") ==>
                var says := old(log) + SessionSays(header, commands, limit, old(needs), finished);
                log == says || (!completes && log == says + Plains([LineSafe(if fails then NOT_RECORDED else NOT_UPDATED)]))
      ensures footer == Some("failed") ==> exists front :: log == front + Plains(FooterLines(needs, "failed", finished))
      ensures Quiet(old(tick), tick) ==>
                match Ending(commands, limit, 0)
                case Went => footer == Some("completed") && e == if completes then Went else Raised
                case Raised => footer == Some("failed") && e == Raised
                case Killed => footer == None && e == Killed
    {
      hide Told, GoodCommand, LineSafe, IsPlain, SaysAll, Asked, Ending, HeaderLines, FooterLines, Grown, Quiet, Plains;
      ghost var start := tick;
      GrownParts(log, "", HeaderLines(header.0, header.1, header.2, header.3));
      footer := None;
      e := Header(header.0, header.1, header.2, header.3);
      QuietStep(start, tick);
      ghost var headed := tick;
      if e.Went? { e := Phases(commands, limit); }
      ghost var done := tick;
      QuietTwice(start, headed, done);
      var closed := false;
      if e.Went? { e, closed := Close(finished, completes, fails); }
      if closed { footer := Some("completed"); }
      ghost var ended := tick;
      QuietTwice(start, done, ended);
      if e.Raised? && !closed {
        var said := GiveUp(finished);
        if said.Went? { footer := Some("failed"); }
        if said.Killed? { e := Killed; }
      }
      QuietTwice(start, ended, tick);
    }

    /** The completed footer, and the line about a row that could not be marked. */
    method Close(finished: string, completes: bool, fails: bool) returns (e: Ended, closed: bool)
      requires Live() && dangling == "" && OneLine(finished)
      modifies this
      ensures Live() && written == old(written) && used == old(used) && needs == old(needs) && old(tick) <= tick
      ensures (closed ==> dangling == "") && (e.Went? <==> closed && completes)
      ensures Quiet(old(tick), tick) ==> closed && e == if completes then Went else Raised
      ensures closed ==>
                var says := old(log) + Plains(FooterLines(needs, "completed", finished));
                log == says || (!completes && log == says + Plains([LineSafe(if fails then NOT_RECORDED else NOT_UPDATED)]))
    {
      hide Told, LineSafe, IsPlain, FooterLines, Grown, Quiet, Plains;
      closed := false;
      assert OneLine("completed");
      GrownParts(log, "", FooterLines(needs, "completed", finished));
      e := Footer("completed", finished);
      QuietStep(old(tick), tick);
      if !e.Went? { return; }
      closed := true;
      if !completes {
        NotRecordedIsPlain();
        GrownParts(log, "", [LineSafe(if fails then NOT_RECORDED else NOT_UPDATED)]);
        ghost var mid := tick;
        var said := Line(if fails then NOT_RECORDED else NOT_UPDATED);
        QuietStep(mid, tick);
        QuietTwice(old(tick), mid, tick);
        e := if said.Killed? then Killed else Raised;
      }
    }

    method GiveUp(finished: string) returns (e: Ended)
      requires Live() && OneLine(finished)
      modifies this
      ensures Live() && written == old(written) && used == old(used) && needs == old(needs) && old(tick) <= tick
      ensures Quiet(old(tick), tick) ==> e.Went?
      ensures e.Went? ==> dangling == "" && exists front :: log == front + Plains(FooterLines(needs, "failed", finished))
    {
      hide Told, FooterLines, Quiet;
      assert OneLine("failed");
      ghost var front := Grown(log, dangling, Unknown, []);
      GrownParts(log, dangling, FooterLines(needs, "failed", finished));
      e := Footer("failed", finished);
      QuietStep(old(tick), tick);
      hide *;
      if e.Went? { assert log == front + Plains(FooterLines(needs, "failed", finished)); }
    }
  }

  lemma LimitIsPlain(kind: string, items: seq<string>)
    ensures !(APPLYING <= LineSafe("not applied (group limit): " + Spaced([kind] + items)))
  {
    var line := "not applied (group limit): " + Spaced([kind] + items);
    assert line[0] == 'n' && Lead(line) == "" && line[0..] == line;
    FirstStays(line);
    assert LineSafe(line) == "" + SingleLine(line) && LineSafe(line)[0] == 'n' && APPLYING[0] == 'a';
  }

  lemma FirstStays(s: string)
    requires s != "" && !Gap(s[0])
    ensures SingleLine(s) != "" && SingleLine(s)[0] == s[0]
  {
    assert "" + [s[0]] == [s[0]];
    WordBegins(s[1..], [s[0]]);
  }

  lemma {:induction false} WordBegins(s: string, word: string)
    requires word != ""
    ensures var words := WordsFrom(s, word); words != [] && word <= words[0]
    decreases |s|
  {
    if s != "" && !Gap(s[0]) { WordBegins(s[1..], word + [s[0]]); }
  }

  lemma StatusIsPlain(status: string, finished: string)
    requires OneLine(status) && OneLine(finished)
    ensures IsPlain("status: " + status) && IsPlain("finished: " + finished)
  {
    assert ("status: " + status)[0] == 's' && ("finished: " + finished)[0] == 'f' && APPLYING[0] == 'a';
    assert OneLine("status: ") && OneLine("finished: ");
  }

  lemma IndentedIsPlain(line: string)
    requires line != "" && line[0] == ' '
    ensures !(APPLYING <= LineSafe(line))
  {
    assert LineSafe(line)[0] == ' ' && APPLYING[0] == 'a';
  }

  /** Nothing is told yet of a change line still open. */
  lemma RewriteLast(text: Option<string>, log: seq<Entry>, dangling: string, written: seq<Option<string>>, w: Option<string>)
    requires Told(text, log, dangling, written) && dangling != ""
    ensures Told(text, log, dangling, written[|written| - 1 := w])
  {
  }

  lemma DanglingOpens(text: Option<string>, log: seq<Entry>, dangling: string, written: seq<Option<string>>)
    requires Told(text, log, dangling, written)
    ensures dangling != "" ==> APPLYING <= dangling && dangling[|dangling| - 1] != '\n'
  {
  }

  lemma {:induction false} JoinedEnds(lines: seq<string>, d: string)
    ensures var t := Joined(lines + [d]);
            && (d != "" ==> t != "" && t[|t| - 1] == d[|d| - 1])
            && (d == "" && lines != [] ==> t != "" && t[|t| - 1] == '\n')
            && (d == "" && lines == [] ==> t == "")
  {
    if lines == [] {
      assert lines + [d] == [d];
    } else {
      JoinedEnds(lines[1..], d);
      JoinedFront(lines[0], lines[1..] + [d]);
      assert lines + [d] == [lines[0]] + (lines[1..] + [d]);
    }
  }

  lemma EndsOpen(lines: seq<string>, d: string)
    ensures (lines + [d])[|lines + [d]| - 1] == d
  {
  }

  lemma InterruptedIsPlain()
    ensures forall l :: l in ["", INTERRUPTED, "status: failed"] ==> IsPlain(l)
  {
    assert OneLine("run interrupted; ") && OneLine("later sections unknown") && OneLine("status: failed");
    assert INTERRUPTED[0] == 'r' && "status: failed"[0] == 's' && APPLYING[0] == 'a';
  }

  /** Three whole lines, the first empty. */
  function ThreeLines(line: string, status: string): string { "\n" + (line + ("\n" + (status + "\n"))) }

  lemma ThreeAreJoined(line: string, status: string)
    ensures Joined(["", line, status, ""]) == ThreeLines(line, status)
  {
    hide Joined;
    JoinedFront("", []);
    JoinedFront(status, [""]);
    JoinedFront(line, [status, ""]);
    JoinedFront("", [line, status, ""]);
    assert [status] + [""] == [status, ""] && [line] + [status, ""] == [line, status, ""];
    assert [""] + [line, status, ""] == ["", line, status, ""] && [""] + [] == [""];
    assert status + ("\n" + "") == status + "\n";
  }

  lemma ThreePieces(dangling: string, line: string, status: string)
    ensures Joined(Pieces(dangling, Unknown, ["", line, status], ""))
            == if dangling == "" then ThreeLines(line, status) else (UnknownText(dangling) + "\n") + ThreeLines(line, status)
  {
    hide Joined, UnknownText, ThreeLines;
    ThreeAreJoined(line, status);
    var end := ["", line, status, ""];
    var pieces := Pieces(dangling, Unknown, ["", line, status], "");
    JoinedFront(UnknownText(dangling), end);
    if dangling != "" {
      assert pieces == [UnknownText(dangling)] + end;
      ConcatAgain(UnknownText(dangling), "\n", ThreeLines(line, status), "");
      assert (UnknownText(dangling) + "\n") + (ThreeLines(line, status) + "") == (UnknownText(dangling) + "\n") + ThreeLines(line, status);
    } else {
      assert pieces == end;
    }
  }

  lemma HeaderIsPlain(runId: string, startedAt: string, trigger: string, name: string)
    requires OneLine(runId) && OneLine(startedAt) && OneLine(trigger) && OneLine(name)
    ensures IsPlain("memriver dream run " + runId) && IsPlain("started: " + startedAt)
    ensures IsPlain("trigger: " + trigger) && IsPlain("executor: " + name)
  {
    assert OneLine("memriver dream run ") && OneLine("started: ") && OneLine("trigger: ") && OneLine("executor: ");
    assert "memriver dream run "[0] == 'm' && "started: "[0] == 's' && "trigger: "[0] == 't' && "executor: "[0] == 'e';
    assert APPLYING[0] == 'a';
  }

  lemma TitleIsPlain(title: string)
    ensures IsPlain("") && IsPlain("== " + SingleLine(title) + " ==")
  {
    SafeIsOneLine(title);
    assert OneLine("== ") && OneLine(" ==") && "== "[0] == '=' && APPLYING[0] == 'a';
  }

  lemma NotRecordedIsPlain()
    ensures !(APPLYING <= LineSafe(NOT_RECORDED)) && !(APPLYING <= LineSafe(NOT_UPDATED))
  {
    StartsPlain(NOT_RECORDED);
    StartsPlain(NOT_UPDATED);
  }

  lemma StartsPlain(line: string)
    requires line != "" && line[0] == 't'
    ensures !(APPLYING <= LineSafe(line))
  {
    assert Lead(line) == "" && line[0..] == line;
    FirstStays(line);
    assert LineSafe(line) == "" + SingleLine(line) && LineSafe(line)[0] == 't' && APPLYING[0] == 'a';
    StartDiffers(APPLYING, LineSafe(line), 0);
  }

  lemma NoFront(log: seq<Entry>)
    ensures [] + log == log
  {
  }

  lemma EmptyLog(text: Option<string>, log: seq<Entry>, written: seq<Option<string>>)
    requires Told(text, log, "", written) && text == None
    ensures log == []
  {
    JoinedEnds(Lines(log), "");
  }

  /**
   A run, dead or alive, and the next run's closing of its report: if the report is closed, each of
   its change lines tells one outcome, one for each call that was made, and every outcome is true.
   */
  method RunAndClose(report: Report, header: (string, string, string, Option<string>), commands: seq<Command>, limit: nat,
                     finished: string, completes: bool, fails: bool, readable: bool)
    returns (closed: bool)
    requires report.Live() && report.text == None && report.written == [] && report.used == 0 && report.dangling == ""
    requires (forall c :: c in commands ==> GoodCommand(c)) && OneLine(finished)
    requires OneLine(header.0) && OneLine(header.1) && OneLine(header.2) && (header.3.Some? ==> OneLine(header.3.value))
    modifies report
    ensures closed ==>
              var read := Readings(Split(Content(report.text)));
              && |read| == |report.written| <= |commands|
              && forall k :: 0 <= k < |read| ==> read[k].Some? && Consistent(read[k].value, report.written[k])
    ensures report.used <= limit
    ensures old(report.tick) <= report.tick && (report.Quiet(old(report.tick), report.tick) && readable ==> closed)
    ensures report.Quiet(old(report.tick), report.tick) && completes && Ending(commands, limit, 0).Went? ==>
              Content(report.text) == Joined(Lines(SessionSays(header, commands, limit, old(report.needs), finished)) + [""])
  {
    hide Told, SessionSays, Readings, Split, Joined, Lines, Content, Consistent, GoodCommand, OneLine, FooterLines, LineSafe, Plains;
    EmptyLog(report.text, report.log, report.written);
    NoFront(SessionSays(header, commands, limit, report.needs, finished));
    var e, footer := report.Session(header, commands, limit, finished, completes, fails);
    closed := footer.Some?;
    ghost var done := report.tick;
    if !closed {
      var marked := report.MarkInterrupted(readable);
      closed := marked.Went?;
      if readable { report.QuietStep(done, report.tick); }
    }
    report.QuietTwice(old(report.tick), done, report.tick);
    if closed {
      ClosedReportTells(report.text, report.log, report.written);
      LastIsDangling(report.text, report.log, "", report.written);
    }
  }
}
