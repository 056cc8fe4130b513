/** What the calls of a session summary were, why each was due, and what became of each answer. */
module SummaryCourse {
  import opened Basics
  import opened PyText
  import opened TokenCut

  const MAX_CALLS: nat := 12
  const CHUNK_SUMMARY_CHARS: nat := 1500
  const SUMMARY_MAX_CHARS: nat := 1200
  const MIN_CHUNK_ROOM: int := 3

  datatype Template = ChunkPart | MergeParts | WholeSession | WholeParts

  datatype Failure = ContextTooLarge | Other(name: string)

  /** What a call gives back, once it has the schema's shape. */
  datatype Reply = Refused(kind: Failure) | Answer(empty: bool, summary: string)

  datatype Reason = Partial | Incomplete | TooLarge | Executor(name: string) | Schema | Invalid | Rejected

  datatype Ended = Done(empty: bool, summary: string) | Stop(reason: Reason)

  /** The fixed texts, the budget, the policies, and the model: the answer to the n-th call with a prompt. */
  datatype World = World(wide: Wide, system: string, dataRule: string, finalTemplate: string,
                         before: Template -> string, after: Template -> string, budget: int, promptVersion: string,
                         passes: string -> bool, storable: string -> bool, reply: (nat, string) -> Reply)

  /** One call: what it asked, of which chunk, and what came back. */
  datatype Sent = Sent(template: Template, body: string, index: int, reply: Reply)

  function Prompt(w: World, t: Template, body: string): string { w.before(t) + body + w.after(t) }

  /** `input_estimate`. */
  function InputEstimate(w: World, t: Template, body: string): nat {
    Estimate(w.system + w.dataRule + Prompt(w, t, body), w.wide)
  }

  predicate FinalTemplate(t: Template) { t.WholeSession? || t.WholeParts? }

  // ---- what an answer comes to -----------------------------------------------------------------

  function ReasonOf(kind: Failure): Reason { if kind.ContextTooLarge? then TooLarge else Executor(kind.name) }

  /** A partial summary: a chunk's may be empty. */
  function PartAnswer(w: World, t: Template, reply: Reply): (r: Result<string, Reason>)
    ensures r.Err? ==> !r.error.Partial? && !r.error.Incomplete?
  {
    match reply
    case Refused(kind) => Err(ReasonOf(kind))
    case Answer(_, text) =>
      if Strip(text) == "" && t.ChunkPart? then Ok("")
      else if Strip(text) == "" || |text| > CHUNK_SUMMARY_CHARS then Err(Schema)
      else if !w.storable(text) then Err(Invalid)
      else if !w.passes(text) then Err(Rejected)
      else Ok(text)
  }

  /** The final summary: the stripped text is published. */
  function FinalAnswer(w: World, reply: Reply): (r: Ended)
    ensures r.Stop? ==> !r.reason.Partial? && !r.reason.Incomplete?
  {
    match reply
    case Refused(kind) => Stop(ReasonOf(kind))
    case Answer(empty, summary) =>
      var text := Strip(summary);
      if empty then (if text == "" then Done(true, summary) else Stop(Schema))
      else if !(0 < |text| <= SUMMARY_MAX_CHARS) then Stop(Schema)
      else if !w.storable(text) then Stop(Invalid)
      else if !w.passes(text) then Stop(Rejected)
      else Done(false, text)
  }

  /** A partial summary fit to be sent again and stored. */
  predicate Keepable(w: World, p: string) { Strip(p) != "" && |p| <= CHUNK_SUMMARY_CHARS && w.storable(p) && w.passes(p) }

  /** A valid answer: within the limits, and nothing a policy refuses. */
  predicate FitReply(w: World, t: Template, reply: Reply) {
    && reply.Answer?
    && match t
       case ChunkPart => Strip(reply.summary) == "" || Keepable(w, reply.summary)
       case MergeParts => Keepable(w, reply.summary)
       case _ =>
         var text := Strip(reply.summary);
         if reply.empty then text == "" else 0 < |text| <= SUMMARY_MAX_CHARS && w.storable(text) && w.passes(text)
  }

  ghost predicate ValidAnswers(w: World) { forall n, t, body :: FitReply(w, t, w.reply(n, Prompt(w, t, body))) }

  lemma FitIs(w: World, t: Template, reply: Reply)
    ensures FitReply(w, t, reply) <==> if FinalTemplate(t) then FinalAnswer(w, reply).Done? else PartAnswer(w, t, reply).Ok?
    ensures !FinalTemplate(t) && PartAnswer(w, t, reply).Ok? ==>
              var text := PartAnswer(w, t, reply).value; if text == "" then t.ChunkPart? else Keepable(w, text)
  {
    hide Strip;
    NothingStripped();
  }

  /** What is published is the model's own answer: stripped, within the limit, fit to be stored; or empty, and it says so. */
  predicate Published(w: World, reply: Reply, ended: Ended) {
    && reply.Answer? && ended.Done? && ended.empty == reply.empty
    && (if reply.empty then ended.summary == reply.summary && Strip(reply.summary) == ""
        else ended.summary == Strip(reply.summary) && 0 < |ended.summary| <= SUMMARY_MAX_CHARS
             && w.storable(ended.summary) && w.passes(ended.summary))
  }

  /** What a final answer comes to: published, or stopped for the first thing that is wrong with it. */
  lemma FinalReads(w: World, reply: Reply)
    ensures var r := FinalAnswer(w, reply);
            && (r.Done? ==> Published(w, reply, r)) && (r.Done? <==> FitReply(w, WholeSession, reply))
            && (r == Stop(TooLarge) <==> reply == Refused(ContextTooLarge))
            && (reply.Refused? && reply.kind.Other? ==> r == Stop(Executor(reply.kind.name)))
            && (reply.Answer? ==>
                  var text := Strip(reply.summary);
                  && (r == Stop(Schema) <==> if reply.empty then text != "" else !(0 < |text| <= SUMMARY_MAX_CHARS))
                  && (r == Stop(Invalid) <==> !reply.empty && 0 < |text| <= SUMMARY_MAX_CHARS && !w.storable(text))
                  && (r == Stop(Rejected) <==> !reply.empty && 0 < |text| <= SUMMARY_MAX_CHARS && w.storable(text) && !w.passes(text)))
  {
    hide Strip;
  }

  /** What a partial answer comes to: the model's own text, nothing for a chunk without anything, or the first thing wrong with it. */
  lemma PartReads(w: World, t: Template, reply: Reply)
    requires !FinalTemplate(t)
    ensures var r := PartAnswer(w, t, reply);
            && (r.Ok? <==> FitReply(w, t, reply))
            && (r.Ok? ==> reply.Answer? && if Strip(reply.summary) == "" then t.ChunkPart? && r.value == "" else r.value == reply.summary)
            && (r == Err(TooLarge) <==> reply == Refused(ContextTooLarge))
            && (reply.Refused? && reply.kind.Other? ==> r == Err(Executor(reply.kind.name)))
            && (reply.Answer? ==>
                  var text, blank := reply.summary, Strip(reply.summary) == "";
                  && (r == Err(Schema) <==> if blank then !t.ChunkPart? else |text| > CHUNK_SUMMARY_CHARS)
                  && (r == Err(Invalid) <==> !blank && |text| <= CHUNK_SUMMARY_CHARS && !w.storable(text))
                  && (r == Err(Rejected) <==> !blank && |text| <= CHUNK_SUMMARY_CHARS && w.storable(text) && !w.passes(text)))
  {
    hide Strip;
  }

  lemma NothingStripped()
    ensures Strip("") == ""
  {
  }

  /** Why an answer ended the attempt, if it did. */
  function Fault(w: World, s: Sent): Option<Reason> {
    if FinalTemplate(s.template) then (match FinalAnswer(w, s.reply) case Done(_, _) => None case Stop(reason) => Some(reason))
    else match PartAnswer(w, s.template, s.reply) case Ok(_) => None case Err(reason) => Some(reason)
  }

  /** The text of a good partial answer. */
  function Said(w: World, s: Sent): string {
    match PartAnswer(w, s.template, s.reply) case Ok(text) => text case Err(_) => ""
  }

  /** It is the model's own text, and nothing only for a chunk that the model found nothing in. */
  lemma SaidIs(w: World, s: Sent)
    requires !FinalTemplate(s.template) && Fault(w, s).None?
    ensures s.reply.Answer? && if Strip(s.reply.summary) == "" then s.template.ChunkPart? && Said(w, s) == "" else Said(w, s) == s.reply.summary != ""
  {
    PartReads(w, s.template, s.reply);
    NothingStripped();
    hide Strip, PartAnswer, FitReply;
  }

  /** An answer that ended well was published, or there was nothing to ask about. */
  lemma AnsweredIs(w: World, c: Course, ended: Ended)
    requires Answered(w, c, ended)
    ensures if c.rest == [] then ended == Done(true, "") && Parts(w, c.plan.resumed, c.steps) == []
            else
              && c.All() != [] && c.All()[|c.All()| - 1] == c.rest[|c.rest| - 1]
              && FinalTemplate(c.rest[|c.rest| - 1].template) && Published(w, c.rest[|c.rest| - 1].reply, ended)
  {
    hide LastCall, Parts, Calls, Sound, Calm, Published, Strip;
    if c.rest != [] { FinalReads(w, c.rest[|c.rest| - 1].reply) by { hide FinalAnswer; } }
  }

  // ---- the steps of an attempt --------------------------------------------------------------------

  /** What an attempt sets out with: its chunks, its room, and where and with what it resumes. */
  datatype Plan = Plan(chunks: seq<string>, room: int, first: nat, resumed: seq<string>)

  /** A chunk asked about, all parts merged into one, or one round of merges over the packed parts. */
  datatype Step = Chunk(call: Sent) | Whole(call: Sent) | Round(calls: seq<Sent>)

  function CallsOf(step: Step): seq<Sent> { match step case Chunk(s) => [s] case Whole(s) => [s] case Round(ss) => ss }

  function Calls(steps: seq<Step>): seq<Sent> {
    if steps == [] then [] else Calls(steps[..|steps| - 1]) + CallsOf(steps[|steps| - 1])
  }

  function ChunkCount(steps: seq<Step>): nat {
    if steps == [] then 0 else ChunkCount(steps[..|steps| - 1]) + if steps[|steps| - 1].Chunk? then 1 else 0
  }

  function Texts(w: World, calls: seq<Sent>): (r: seq<string>)
    ensures |r| == |calls|
  {
    if calls == [] then [] else Texts(w, calls[..|calls| - 1]) + [Said(w, calls[|calls| - 1])]
  }

  /** An answer with something in it is one part more; a merge leaves its answers only. */
  function PartsAfter(w: World, parts: seq<string>, step: Step): seq<string> {
    match step
    case Chunk(s) => parts + if Said(w, s) == "" then [] else [Said(w, s)]
    case Whole(s) => [Said(w, s)]
    case Round(ss) => Texts(w, ss)
  }

  /** The parts at hand, from the resumed ones on. */
  function Parts(w: World, resumed: seq<string>, steps: seq<Step>): seq<string> {
    if steps == [] then resumed else PartsAfter(w, Parts(w, resumed, steps[..|steps| - 1]), steps[|steps| - 1])
  }

  /** Not more than one part, or all of them within half the room. */
  predicate Bounded(w: World, room: int, parts: seq<string>) {
    |parts| <= 1 || Estimate(Joined(parts), w.wide) <= room / 2
  }

  /** No merge is owed. */
  predicate Calm(w: World, plan: Plan, steps: seq<Step>) {
    steps == [] || steps[|steps| - 1].Round? || Bounded(w, plan.room, Parts(w, plan.resumed, steps))
  }

  /** What a further call would be about, given the steps so far and the calls of a round under way. */
  predicate Due(w: World, plan: Plan, steps: seq<Step>, rest: seq<Sent>, t: Template, body: string) {
    var at, parts := plan.first + ChunkCount(steps), Parts(w, plan.resumed, steps);
    if |plan.chunks| == 1 then t.WholeSession? && body == plan.chunks[0] && steps == [] && rest == []
    else if !Calm(w, plan, steps) then t.MergeParts? && body == Joined(parts) && rest == []
    else if at < |plan.chunks| then t.ChunkPart? && body == plan.chunks[at] && rest == []
    else
      var packed := PlannedChunks(parts, plan.room, w.wide);
      if |packed| > 1 then t.MergeParts? && |rest| < |packed| && body == packed[|rest|]
      else t.WholeParts? && packed == [body] && rest == []
  }

  /** The index a call is made with. */
  function IndexOf(plan: Plan, steps: seq<Step>, t: Template): int { if t.ChunkPart? then plan.first + ChunkCount(steps) else -1 }

  ghost predicate WasDue(w: World, plan: Plan, steps: seq<Step>, rest: seq<Sent>, s: Sent) {
    Due(w, plan, steps, rest, s.template, s.body) && s.index == IndexOf(plan, steps, s.template)
  }

  /** A call that was due, and whose answer was good. */
  ghost predicate WentWell(w: World, plan: Plan, steps: seq<Step>, rest: seq<Sent>, s: Sent) {
    WasDue(w, plan, steps, rest, s) && !FinalTemplate(s.template) && Fault(w, s).None?
  }

  /** Calls of a round, one after the other. */
  ghost predicate Underway(w: World, plan: Plan, steps: seq<Step>, rest: seq<Sent>) {
    forall i :: 0 <= i < |rest| ==> WentWell(w, plan, steps, rest[..i], rest[i])
  }

  /** Each step is made of calls that were due, one after the other, and of all of a round's. */
  ghost predicate StepOk(w: World, plan: Plan, steps: seq<Step>, step: Step) {
    match step
    case Chunk(s) => s.template.ChunkPart? && WentWell(w, plan, steps, [], s)
    case Whole(s) => s.template.MergeParts? && !Calm(w, plan, steps) && WentWell(w, plan, steps, [], s)
    case Round(ss) =>
      && Calm(w, plan, steps) && plan.first + ChunkCount(steps) >= |plan.chunks| && ss != [] && Underway(w, plan, steps, ss)
      && |ss| == |PlannedChunks(Parts(w, plan.resumed, steps), plan.room, w.wide)|
  }

  ghost predicate Sound(w: World, plan: Plan, steps: seq<Step>) {
    steps == [] || (Sound(w, plan, steps[..|steps| - 1]) && StepOk(w, plan, steps[..|steps| - 1], steps[|steps| - 1]))
  }

  /** An attempt: its plan, the calls before it, its steps, and the calls that made no step yet. */
  datatype Course = Course(plan: Plan, before: seq<Sent>, steps: seq<Step>, rest: seq<Sent>) {
    function All(): seq<Sent> { before + Calls(steps) + rest }

    function Reach(): nat { plan.first + ChunkCount(steps) }
  }

  /** A round may be under way. */
  ghost predicate Running(w: World, c: Course) { Sound(w, c.plan, c.steps) && Underway(w, c.plan, c.steps, c.rest) }

  /** The last call was due, and this is what its answer came to. */
  ghost predicate LastCall(w: World, c: Course) {
    && c.rest != []
    && var n := |c.rest| - 1;
       Running(w, c.(rest := c.rest[..n])) && WasDue(w, c.plan, c.steps, c.rest[..n], c.rest[n])
  }

  ghost predicate Answered(w: World, c: Course, ended: Ended) {
    && ended.Done?
    && if c.rest == [] then
         && |c.plan.chunks| != 1 && Sound(w, c.plan, c.steps) && Calm(w, c.plan, c.steps)
         && c.Reach() == |c.plan.chunks| && Parts(w, c.plan.resumed, c.steps) == [] && ended == Done(true, "")
       else
         LastCall(w, c) && FinalTemplate(c.rest[|c.rest| - 1].template) && ended == FinalAnswer(w, c.rest[|c.rest| - 1].reply)
  }

  ghost predicate OverBudget(w: World, c: Course) {
    exists t, body :: Due(w, c.plan, c.steps, c.rest, t, body) && InputEstimate(w, t, body) > w.budget
  }

  /** A further call is due. */
  ghost predicate Awaits(w: World, c: Course) {
    Running(w, c) && exists t, body :: Due(w, c.plan, c.steps, c.rest, t, body)
  }

  /** Why an attempt ended without an answer. */
  ghost predicate Ends(w: World, c: Course, reason: Reason) {
    match reason
    case Partial => Awaits(w, c) && |c.All()| == MAX_CALLS && c.Reach() > 0
    case Incomplete => Awaits(w, c) && |c.All()| == MAX_CALLS && c.Reach() == 0
    case TooLarge =>
      || (c.plan.room <= MIN_CHUNK_ROOM && c.steps == [] && c.rest == [])
      || (Running(w, c) && OverBudget(w, c))
      || (LastCall(w, c) && Fault(w, c.rest[|c.rest| - 1]) == Some(TooLarge))
    case _ => LastCall(w, c) && Fault(w, c.rest[|c.rest| - 1]) == Some(reason)
  }

  // ---- growing -------------------------------------------------------------------------------------

  lemma StepsGrow(w: World, plan: Plan, steps: seq<Step>, step: Step)
    ensures var more := steps + [step];
            && Calls(more) == Calls(steps) + CallsOf(step)
            && ChunkCount(more) == ChunkCount(steps) + (if step.Chunk? then 1 else 0)
            && Parts(w, plan.resumed, more) == PartsAfter(w, Parts(w, plan.resumed, steps), step)
            && (Sound(w, plan, steps) && StepOk(w, plan, steps, step) ==> Sound(w, plan, more))
            && (Calm(w, plan, more) <==> step.Round? || Bounded(w, plan.room, Parts(w, plan.resumed, more)))
  {
    var more := steps + [step];
    assert more[..|more| - 1] == steps && more[|more| - 1] == step;
  }

  lemma RestGrows(w: World, plan: Plan, steps: seq<Step>, rest: seq<Sent>, s: Sent)
    requires Underway(w, plan, steps, rest) && WentWell(w, plan, steps, rest, s)
    ensures Underway(w, plan, steps, rest + [s]) && Texts(w, rest + [s]) == Texts(w, rest) + [Said(w, s)]
  {
    var more := rest + [s];
    assert more[..|more| - 1] == rest;
    hide WentWell;
    forall i | 0 <= i < |more| ensures WentWell(w, plan, steps, more[..i], more[i]) {
      if i < |rest| { assert more[..i] == rest[..i]; } else { assert more[..i] == rest; }
    }
  }

  // ---- one call more ---------------------------------------------------------------------------------

  function Extended(c: Course, s: Sent): Course { c.(rest := c.rest + [s]) }

  /** A call was due, whatever comes back. */
  ghost predicate Calling(w: World, c: Course, t: Template, body: string, index: int) {
    Running(w, c) && Due(w, c.plan, c.steps, c.rest, t, body) && index == IndexOf(c.plan, c.steps, t)
  }

  lemma CallWell(w: World, c: Course, s: Sent)
    requires Calling(w, c, s.template, s.body, s.index) && !FinalTemplate(s.template) && Fault(w, s).None?
    ensures WentWell(w, c.plan, c.steps, c.rest, s) && Running(w, Extended(c, s)) && Extended(c, s).All() == c.All() + [s]
    ensures Texts(w, Extended(c, s).rest) == Texts(w, c.rest) + [Said(w, s)]
  {
    RestGrows(w, c.plan, c.steps, c.rest, s);
    hide Due, Fault, Underway, Sound;
    assert c.before + Calls(c.steps) + (c.rest + [s]) == (c.before + Calls(c.steps) + c.rest) + [s];
  }

  lemma CallLast(w: World, c: Course, s: Sent)
    requires Calling(w, c, s.template, s.body, s.index)
    ensures LastCall(w, Extended(c, s)) && Extended(c, s).rest[|c.rest|] == s && Extended(c, s).All() == c.All() + [s]
    ensures Fault(w, s).Some? ==> Ends(w, Extended(c, s), Fault(w, s).value)
    ensures FinalTemplate(s.template) && Fault(w, s).None? ==> Answered(w, Extended(c, s), FinalAnswer(w, s.reply))
  {
    var e := Extended(c, s);
    assert e.rest[..|e.rest| - 1] == c.rest && e.(rest := c.rest) == c;
    assert c.before + Calls(c.steps) + (c.rest + [s]) == (c.before + Calls(c.steps) + c.rest) + [s];
    FaultIs(w, s);
    hide Due, Underway, Sound, Running, Fault, FinalAnswer, Calls;
  }

  lemma FaultIs(w: World, s: Sent)
    ensures Fault(w, s).Some? ==> !Fault(w, s).value.Partial? && !Fault(w, s).value.Incomplete?
    ensures FinalTemplate(s.template) ==>
              if Fault(w, s).None? then FinalAnswer(w, s.reply).Done? else FinalAnswer(w, s.reply) == Stop(Fault(w, s).value)
    ensures !FinalTemplate(s.template) ==>
              match PartAnswer(w, s.template, s.reply)
              case Ok(text) => Fault(w, s).None? && Said(w, s) == text
              case Err(reason) => Fault(w, s) == Some(reason)
  {
    hide PartAnswer, FinalAnswer;
  }

  lemma CallEnds(w: World, c: Course, t: Template, body: string, index: int)
    requires Calling(w, c, t, body, index)
    ensures Awaits(w, c) && (InputEstimate(w, t, body) > w.budget ==> Ends(w, c, TooLarge))
    ensures |c.All()| == MAX_CALLS ==> Ends(w, c, if c.Reach() == 0 then Incomplete else Partial)
  {
    hide Running, InputEstimate;
  }

  /** A whole step is made of what came back. */
  function Stepped(c: Course, step: Step): Course { Course(c.plan, c.before, c.steps + [step], []) }

  lemma StepMade(w: World, c: Course, step: Step)
    requires Sound(w, c.plan, c.steps) && StepOk(w, c.plan, c.steps, step)
    ensures var e := Stepped(c, step);
            && Running(w, e) && e.All() == c.before + Calls(c.steps) + CallsOf(step)
            && e.Reach() == c.Reach() + (if step.Chunk? then 1 else 0)
            && Parts(w, c.plan.resumed, e.steps) == PartsAfter(w, Parts(w, c.plan.resumed, c.steps), step)
            && (Calm(w, c.plan, e.steps) <==> step.Round? || Bounded(w, c.plan.room, Parts(w, c.plan.resumed, e.steps)))
  {
    StepsGrow(w, c.plan, c.steps, step);
    hide Sound, StepOk, Calm, Parts, PartsAfter, Calls, ChunkCount;
    assert c.before + (Calls(c.steps) + CallsOf(step)) + [] == c.before + Calls(c.steps) + CallsOf(step);
  }

  lemma MergedAll(w: World, parts: seq<string>, room: int, s: Sent)
    ensures PartsAfter(w, parts, Whole(s)) == [Said(w, s)] && Bounded(w, room, [Said(w, s)])
  {
  }

  // ---- what the steps say --------------------------------------------------------------------------

  /** The chunks asked about, in the order of asking. */
  ghost function ChunksAsked(sent: seq<Sent>): seq<int> {
    if sent == [] then []
    else
      var last := sent[|sent| - 1];
      ChunksAsked(sent[..|sent| - 1]) + (if last.template.ChunkPart? then [last.index] else [])
  }

  ghost function Range(a: int, b: int): seq<int>
    decreases if a < b then b - a else 0
  {
    if a >= b then [] else Range(a, b - 1) + [b - 1]
  }

  lemma AskedJoined(a: seq<Sent>, b: seq<Sent>)
    ensures ChunksAsked(a + b) == ChunksAsked(a) + ChunksAsked(b)
  {
    if b == [] {
      assert a + b == a;
    } else {
      assert (a + b)[..|a + b| - 1] == a + b[..|b| - 1];
      AskedJoined(a, b[..|b| - 1]);
    }
  }

  lemma NoneAsked(calls: seq<Sent>)
    requires forall i :: 0 <= i < |calls| ==> !calls[i].template.ChunkPart?
    ensures ChunksAsked(calls) == []
  {
  }

  lemma UnderwayMerges(w: World, plan: Plan, steps: seq<Step>, rest: seq<Sent>)
    requires Underway(w, plan, steps, rest) && plan.first + ChunkCount(steps) >= |plan.chunks|
    ensures forall i :: 0 <= i < |rest| ==> rest[i].template.MergeParts?
  {
    forall i | 0 <= i < |rest| ensures rest[i].template.MergeParts? {
      assert WentWell(w, plan, steps, rest[..i], rest[i]);
    }
    hide Calm, Parts, PlannedChunks;
  }

  lemma StepAsks(w: World, plan: Plan, steps: seq<Step>, step: Step)
    requires StepOk(w, plan, steps, step)
    ensures ChunksAsked(CallsOf(step)) == if step.Chunk? then [plan.first + ChunkCount(steps)] else []
    ensures step.Chunk? ==> plan.first + ChunkCount(steps) < |plan.chunks|
  {
    if step.Chunk? {
      assert [step.call][..0] == [];
      assert ChunksAsked([step.call]) == ChunksAsked([]) + [step.call.index];
    } else {
      if step.Round? { UnderwayMerges(w, plan, steps, step.calls); }
      NoneAsked(CallsOf(step));
    }
    hide Calm, Parts, PlannedChunks, Underway, ChunkCount;
  }

  /** The chunks from the resume point on were asked about, in order, once each, and none else. */
  lemma {:induction false} CoversInOrder(w: World, plan: Plan, steps: seq<Step>)
    requires Sound(w, plan, steps)
    ensures ChunksAsked(Calls(steps)) == Range(plan.first, plan.first + ChunkCount(steps))
    ensures ChunkCount(steps) > 0 ==> plan.first + ChunkCount(steps) <= |plan.chunks|
  {
    hide StepOk, ChunksAsked;
    if steps != [] {
      var earlier, last := steps[..|steps| - 1], steps[|steps| - 1];
      CoversInOrder(w, plan, earlier);
      AskedJoined(Calls(earlier), CallsOf(last));
      StepAsks(w, plan, earlier, last);
    } else {
      NoneAsked([]);
    }
  }

  /** The calls of a round ask about no chunk. */
  lemma RestAsks(w: World, c: Course)
    requires Awaits(w, c)
    ensures c.rest == [] || (c.Reach() >= |c.plan.chunks| && |c.plan.chunks| != 1)
    ensures ChunksAsked(c.rest) == []
  {
    var t, body :| Due(w, c.plan, c.steps, c.rest, t, body);
    if c.rest != [] { UnderwayMerges(w, c.plan, c.steps, c.rest); }
    NoneAsked(c.rest);
  }

  /** Where no chunk was asked about and nothing is at hand, no step was made. */
  lemma {:induction false} NothingMade(w: World, plan: Plan, steps: seq<Step>)
    requires Sound(w, plan, steps) && ChunkCount(steps) == 0 && (plan.first < |plan.chunks| || plan.resumed == [])
    ensures steps == []
  {
    if steps != [] {
      var earlier, last := steps[..|steps| - 1], steps[|steps| - 1];
      NothingMade(w, plan, earlier);
      NothingPacked(plan.room, w.wide);
    }
  }

  lemma NothingPacked(room: int, wide: Wide)
    ensures PlannedChunks([], room, wide) == []
  {
    assert AllPieces([], room, wide) == [];
  }

  /** Out of calls, an attempt that had one to start with is further on. */
  lemma FurtherOn(w: World, c: Course)
    requires Ends(w, c, Partial) && |c.before| < MAX_CALLS && c.plan.first < |c.plan.chunks|
    ensures c.Reach() > c.plan.first
  {
    RestAsks(w, c);
    if ChunkCount(c.steps) == 0 { NothingMade(w, c.plan, c.steps); }
  }

  /** Out of calls with nothing covered: there was none left to start with. */
  lemma NoneToStart(w: World, c: Course)
    requires Ends(w, c, Incomplete) && (c.plan.first == 0 ==> c.plan.resumed == [])
    ensures |c.before| == MAX_CALLS
  {
    NothingMade(w, c.plan, c.steps);
    NothingPacked(c.plan.room, w.wide);
    RestAsks(w, c);
    var t, body :| Due(w, c.plan, c.steps, c.rest, t, body);
  }

  ghost predicate Oracle(w: World, sent: seq<Sent>) {
    forall i :: 0 <= i < |sent| ==> sent[i].reply == w.reply(i, Prompt(w, sent[i].template, sent[i].body))
  }

  /** Every answer that came was valid. */
  predicate AnswersFit(w: World, sent: seq<Sent>) { forall i :: 0 <= i < |sent| ==> FitReply(w, sent[i].template, sent[i].reply) }

  lemma ValidFits(w: World, sent: seq<Sent>)
    requires ValidAnswers(w) && Oracle(w, sent)
    ensures AnswersFit(w, sent)
  {
    hide FitReply;
    forall i | 0 <= i < |sent| ensures FitReply(w, sent[i].template, sent[i].reply) {
      assert FitReply(w, sent[i].template, w.reply(i, Prompt(w, sent[i].template, sent[i].body)));
    }
  }

  /** With valid answers an attempt ends for want of calls or room only. */
  lemma ValidEnds(w: World, c: Course, reason: Reason)
    requires AnswersFit(w, c.All()) && Ends(w, c, reason)
    ensures reason.Partial? || reason.Incomplete? || reason.TooLarge?
  {
    if LastCall(w, c) {
      var s, n := c.rest[|c.rest| - 1], |c.All()| - 1;
      assert c.All()[n] == s;
      FitIs(w, s.template, s.reply);
    }
    hide LastCall, Awaits, Running, OverBudget, FitReply, PartAnswer, FinalAnswer;
  }

  /** What was asked over a whole attempt. */
  lemma AttemptAsks(w: World, c: Course)
    requires Awaits(w, c) && c.plan.first <= |c.plan.chunks|
    ensures ChunksAsked(Calls(c.steps) + c.rest) == Range(c.plan.first, c.Reach()) && c.Reach() <= |c.plan.chunks|
  {
    hide *;
    AwaitsSound(w, c);
    AsksJoined(w, c);
    ReachIs(c);
  }

  lemma AwaitsSound(w: World, c: Course)
    requires Awaits(w, c)
    ensures Sound(w, c.plan, c.steps) && ChunksAsked(c.rest) == []
  {
    RestAsks(w, c);
    hide Sound, Underway, Due, ChunksAsked;
  }

  lemma ReachIs(c: Course)
    ensures c.Reach() == c.plan.first + ChunkCount(c.steps)
  {
  }

  lemma AsksJoined(w: World, c: Course)
    requires Sound(w, c.plan, c.steps) && ChunksAsked(c.rest) == []
    ensures ChunksAsked(Calls(c.steps) + c.rest) == Range(c.plan.first, c.plan.first + ChunkCount(c.steps))
    ensures ChunkCount(c.steps) > 0 ==> c.plan.first + ChunkCount(c.steps) <= |c.plan.chunks|
  {
    hide *;
    CoversInOrder(w, c.plan, c.steps);
    AskedJoined(Calls(c.steps), c.rest);
    assert Range(c.plan.first, c.plan.first + ChunkCount(c.steps)) + [] == Range(c.plan.first, c.plan.first + ChunkCount(c.steps));
  }

  /** An answer after several chunks comes when all of them were asked about. */
  lemma AnswerAsks(w: World, c: Course, ended: Ended)
    requires Answered(w, c, ended) && |c.plan.chunks| != 1 && c.plan.first <= |c.plan.chunks|
    ensures ChunksAsked(Calls(c.steps) + c.rest) == Range(c.plan.first, |c.plan.chunks|)
  {
    hide *;
    AnswerCovers(w, c, ended);
    AsksJoined(w, c);
    ReachIs(c);
  }

  lemma AnswerCovers(w: World, c: Course, ended: Ended)
    requires Answered(w, c, ended) && |c.plan.chunks| != 1
    ensures Sound(w, c.plan, c.steps) && c.Reach() >= |c.plan.chunks| && ChunksAsked(c.rest) == []
  {
    hide Sound, Underway, Calm, Parts, PlannedChunks, FinalAnswer, ChunksAsked;
    if c.rest != [] {
      var n := |c.rest| - 1;
      assert Due(w, c.plan, c.steps, c.rest[..n], c.rest[n].template, c.rest[n].body);
      assert n == 0;
    }
    NoneAsked(c.rest);
  }

  /** Without a merge the parts are the resumed ones and every answer with something in it, in order. */
  lemma {:induction false} UnmergedParts(w: World, plan: Plan, steps: seq<Step>)
    requires forall i :: 0 <= i < |steps| ==> steps[i].Chunk?
    ensures Parts(w, plan.resumed, steps) == plan.resumed + Nonempty(Texts(w, Calls(steps)))
  {
    hide *;
    if steps != [] {
      var earlier, last := steps[..|steps| - 1], steps[|steps| - 1];
      UnmergedParts(w, plan, earlier);
      UnmergedMore(w, plan, earlier, last);
      assert steps == earlier + [last];
    } else {
      NoSteps(w, plan);
    }
  }

  lemma UnmergedMore(w: World, plan: Plan, steps: seq<Step>, step: Step)
    requires step.Chunk? && Parts(w, plan.resumed, steps) == plan.resumed + Nonempty(Texts(w, Calls(steps)))
    ensures Parts(w, plan.resumed, steps + [step]) == plan.resumed + Nonempty(Texts(w, Calls(steps + [step])))
  {
    hide *;
    var more := if Said(w, step.call) == "" then [] else [Said(w, step.call)];
    StepsGrow(w, plan, steps, step);
    ChunkStep(w, Parts(w, plan.resumed, steps), step);
    TextsMore(w, Calls(steps), step.call);
    NonemptyMore(Texts(w, Calls(steps)), Said(w, step.call));
    assert plan.resumed + (Nonempty(Texts(w, Calls(steps))) + more) == (plan.resumed + Nonempty(Texts(w, Calls(steps)))) + more;
  }

  lemma NoSteps(w: World, plan: Plan)
    ensures Parts(w, plan.resumed, []) == plan.resumed + Nonempty(Texts(w, Calls([])))
  {
  }

  lemma ChunkStep(w: World, parts: seq<string>, step: Step)
    requires step.Chunk?
    ensures PartsAfter(w, parts, step) == parts + if Said(w, step.call) == "" then [] else [Said(w, step.call)]
    ensures CallsOf(step) == [step.call]
  {
  }

  lemma TextsMore(w: World, calls: seq<Sent>, s: Sent)
    ensures Texts(w, calls + [s]) == Texts(w, calls) + [Said(w, s)]
  {
    assert (calls + [s])[..|calls|] == calls;
  }

  function Nonempty(texts: seq<string>): seq<string> {
    if texts == [] then [] else Nonempty(texts[..|texts| - 1]) + if texts[|texts| - 1] == "" then [] else [texts[|texts| - 1]]
  }

  lemma NonemptyMore(texts: seq<string>, text: string)
    ensures Nonempty(texts + [text]) == Nonempty(texts) + if text == "" then [] else [text]
  {
    assert (texts + [text])[..|texts|] == texts;
  }

  // ---- what is kept ----------------------------------------------------------------------------------

  ghost predicate AllKept(w: World, partials: seq<string>) {
    forall i :: 0 <= i < |partials| ==> partials[i] != "" && w.storable(partials[i]) && w.passes(partials[i])
  }

  lemma GoodText(w: World, s: Sent)
    requires !FinalTemplate(s.template) && Fault(w, s).None?
    ensures if Said(w, s) == "" then s.template.ChunkPart? else AllKept(w, [Said(w, s)])
  {
    FitIs(w, s.template, s.reply);
  }

  lemma RoundKept(w: World, plan: Plan, steps: seq<Step>, calls: seq<Sent>)
    requires Underway(w, plan, steps, calls) && plan.first + ChunkCount(steps) >= |plan.chunks|
    ensures AllKept(w, Texts(w, calls))
  {
    UnderwayMerges(w, plan, steps, calls);
    TextsAre(w, calls);
    forall i | 0 <= i < |calls| ensures Texts(w, calls)[i] != "" && AllKept(w, [Texts(w, calls)[i]]) {
      assert WentWell(w, plan, steps, calls[..i], calls[i]);
      GoodText(w, calls[i]);
    }
    hide WentWell, Said;
    forall i | 0 <= i < |calls| ensures w.storable(Texts(w, calls)[i]) && w.passes(Texts(w, calls)[i]) {
      assert AllKept(w, [Texts(w, calls)[i]]);
      assert [Texts(w, calls)[i]][0] == Texts(w, calls)[i];
    }
  }

  lemma TextsAre(w: World, calls: seq<Sent>)
    ensures forall i :: 0 <= i < |calls| ==> Texts(w, calls)[i] == Said(w, calls[i])
  {
    hide Said;
  }

  /** Whatever is at hand may be sent again and stored. */
  lemma {:induction false} PartsKept(w: World, plan: Plan, steps: seq<Step>)
    requires Sound(w, plan, steps) && AllKept(w, plan.resumed)
    ensures AllKept(w, Parts(w, plan.resumed, steps))
  {
    if steps != [] {
      var earlier, last := steps[..|steps| - 1], steps[|steps| - 1];
      PartsKept(w, plan, earlier);
      StepKept(w, plan, earlier, last);
    }
  }

  lemma StepKept(w: World, plan: Plan, steps: seq<Step>, step: Step)
    requires StepOk(w, plan, steps, step) && AllKept(w, Parts(w, plan.resumed, steps))
    ensures AllKept(w, PartsAfter(w, Parts(w, plan.resumed, steps), step))
  {
    match step
    case Chunk(s) => GoodText(w, s);
    case Whole(s) => GoodText(w, s);
    case Round(ss) => RoundKept(w, plan, steps, ss);
  }
}
