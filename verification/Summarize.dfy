/**
 Session summaries under a call limit: chunks, merges, room halvings and checkpoints
 (`_Attempt`, `_summarize`). What the model answers is an oracle; what the code asks, and
 what it does with the answers, whatever they are, is proved.
 */
module Summarize {
  import opened Basics
  import opened Packing
  import opened PyText
  import opened TokenCut
  import opened SummaryCourse

  const MAX_ROOM_HALVINGS: nat := 3
  const NOTHING_KEPT := "[nothing kept]"

  datatype Progress = Progress(fingerprint: string, promptVersion: string, room: int, nextChunk: int, partials: seq<string>)

  function InputRoom(w: World): int { w.budget - Estimate(w.system + w.dataRule + w.finalTemplate, w.wide) }

  /** `_valid_progress`, for values of the right types. */
  predicate ValidProgress(w: World, p: Progress) {
    && p.fingerprint != "" && w.storable(p.fingerprint) && p.promptVersion != "" && w.storable(p.promptVersion)
    && p.room >= 1 && p.nextChunk >= 1 && p.partials != []
    && forall i :: 0 <= i < |p.partials| ==> p.partials[i] != "" && w.storable(p.partials[i])
  }

  /** `_resumable`. */
  predicate Resumable(w: World, p: Progress, fingerprint: string) {
    && ValidProgress(w, p) && p.fingerprint == fingerprint && p.promptVersion == w.promptVersion
    && forall i :: 0 <= i < |p.partials| ==> w.passes(p.partials[i])
  }

  function Kept(partials: seq<string>): (r: seq<string>)
    ensures forall i :: 0 <= i < |r| ==> r[i] in partials && r[i] != NOTHING_KEPT
  {
    if partials == [] then [] else (if partials[0] != NOTHING_KEPT then [partials[0]] else []) + Kept(partials[1..])
  }

  /** The parts as a checkpoint holds them. */
  function Held(partials: seq<string>): seq<string> { if partials == [] then [NOTHING_KEPT] else partials }

  /** A checkpoint gives its parts back, unless the model wrote the placeholder itself. */
  lemma HeldComesBack(partials: seq<string>)
    ensures Kept(Held(partials)) == partials <==> NOTHING_KEPT !in partials
  {
    if partials == [] {
      assert [NOTHING_KEPT][1..] == [];
    } else {
      KeptAll(partials);
    }
  }

  lemma {:induction false} KeptAll(partials: seq<string>)
    ensures Kept(partials) == partials <==> NOTHING_KEPT !in partials
    ensures |Kept(partials)| <= |partials|
  {
    if partials != [] {
      KeptAll(partials[1..]);
      assert partials == [partials[0]] + partials[1..];
      if partials[0] != NOTHING_KEPT { assert Kept(partials)[1..] == Kept(partials[1..]); }
    }
  }

  /** What an attempt at a room sets out with. */
  function PlanOf(w: World, lines: seq<string>, room: int, stored: Option<Progress>): Plan {
    if room <= MIN_CHUNK_ROOM then Plan([], room, 0, [])
    else
      var chunks := PlannedChunks(lines, room, w.wide);
      if |chunks| != 1 && stored.Some? && stored.value.room == room && 0 <= stored.value.nextChunk <= |chunks|
      then Plan(chunks, room, stored.value.nextChunk, Kept(stored.value.partials))
      else Plan(chunks, room, 0, [])
  }

  /** The next attempt at that room goes on where the checkpoint was made, with the parts it had, unless one of them is the placeholder. */
  lemma CheckpointResumes(w: World, lines: seq<string>, fingerprint: string, room: int, nextChunk: nat, partials: seq<string>)
    requires room > MIN_CHUNK_ROOM && |PlannedChunks(lines, room, w.wide)| != 1 && nextChunk <= |PlannedChunks(lines, room, w.wide)|
    ensures var stored := Some(Progress(fingerprint, w.promptVersion, room, nextChunk, Held(partials)));
            var plan := Plan(PlannedChunks(lines, room, w.wide), room, nextChunk, partials);
            PlanOf(w, lines, room, stored) == plan <==> NOTHING_KEPT !in partials
  {
    hide PlannedChunks, Kept, Held;
    HeldComesBack(partials);
  }

  function Halved(room: int, k: nat): int { if k == 0 then room else Halved(room, k - 1) / 2 }

  lemma HalvedMore(room: int, k: nat)
    ensures Halved(room, 0) == room && Halved(room, k + 1) == Halved(room, k) / 2
  {
  }

  /** The attempts that ended too large, one after the other, each at half the room of the one before. */
  ghost predicate Tried(w: World, past: seq<Course>, lines: seq<string>, stored: Option<Progress>) {
    forall j :: 0 <= j < |past| ==>
      && past[j].plan == PlanOf(w, lines, Halved(InputRoom(w), j), stored) && Ends(w, past[j], TooLarge)
      && past[j].before == SentBy(past[..j])
  }

  ghost function SentBy(past: seq<Course>): seq<Sent> { if past == [] then [] else past[|past| - 1].All() }

  lemma OneMoreTried(w: World, past: seq<Course>, lines: seq<string>, stored: Option<Progress>, c: Course)
    requires Tried(w, past, lines, stored) && Ends(w, c, TooLarge) && c.before == SentBy(past)
    requires c.plan == PlanOf(w, lines, Halved(InputRoom(w), |past|), stored)
    ensures Tried(w, past + [c], lines, stored) && SentBy(past + [c]) == c.All()
  {
    hide Ends, PlanOf, Halved;
    var more := past + [c];
    forall j | 0 <= j < |more|
      ensures more[j].plan == PlanOf(w, lines, Halved(InputRoom(w), j), stored) && Ends(w, more[j], TooLarge) && more[j].before == SentBy(more[..j])
    {
      if j < |past| { assert more[..j] == past[..j] && more[j] == past[j]; } else { assert more[..j] == past; }
    }
  }

  lemma PlanNonempty(lines: seq<string>, room: int, wide: Wide)
    requires lines != []
    ensures PlannedChunks(lines, room, wide) != []
  {
    assert PiecesOf(lines[0], room, wide) != [] by {
      if Estimate(lines[0], wide) >= room { CutNonempty(lines[0], Quarters(wide), 4 * (room - Estimate(CUT_MARK, wide) - 1), "", 0); }
    }
    PackedNonempty(AllPieces(lines, room, wide), Cost(wide), room, [], 0);
  }

  lemma CutNonempty(text: string, w: char -> nat, limit: int, current: string, cost: nat)
    ensures CutOn(text, w, limit, current, cost) != []
    decreases |text|
  {
  }

  lemma PackedNonempty(items: seq<string>, w: string -> nat, cap: int, current: seq<string>, used: nat)
    requires items != [] || current != []
    ensures Packed(items, w, cap, current, used) != []
    decreases |items|
  {
  }

  datatype Got = Text(text: string) | Halt(ended: Ended)

  class Summarizer {
    const world: World
    const fingerprint: string
    var calls: nat
    var stored: Option<Progress>
    var room: int
    var nextChunk: nat
    var partials: seq<string>
    ghost var sent: seq<Sent>
    ghost var course: Course        // of the attempt under way
    ghost var past: seq<Course>     // of those before it

    constructor (world: World, fingerprint: string, stored: Option<Progress>)
      ensures this.world == world && this.fingerprint == fingerprint && this.stored == stored
      ensures calls == 0 && sent == [] && past == [] && Valid()
    {
      this.world, this.fingerprint, this.stored := world, fingerprint, stored;
      calls, sent, room, nextChunk, partials := 0, [], 0, 0, [];
      course, past := Course(Plan([], 0, 0, []), [], [], []), [];
    }

    /** At most so many calls, none of them over the budget, each answered by the model. */
    ghost predicate Valid()
      reads `calls, `sent
    {
      && calls == |sent| <= MAX_CALLS && Oracle(world, sent)
      && forall i :: 0 <= i < |sent| ==> InputEstimate(world, sent[i].template, sent[i].body) <= world.budget
    }

    /** The checkpoint of an attempt that has covered `nextChunk` chunks. */
    function Checkpoint(): Progress
      reads this
    {
      Progress(fingerprint, world.promptVersion, room, nextChunk, Held(partials))
    }

    /** The fields are what the steps of the attempt made of them. */
    ghost predicate Placed()
      reads this
    {
      && Valid() && sent == course.All() && room == course.plan.room && nextChunk == course.Reach()
      && partials == Parts(world, course.plan.resumed, course.steps) && course.plan.first <= |course.plan.chunks|
    }

    ghost predicate Reached()
      reads this
    {
      Placed() && Running(world, course)
    }

    /** Between two steps. */
    ghost predicate Covering()
      reads this
    {
      Reached() && course.rest == [] && |course.plan.chunks| != 1
    }

    /** An attempt that ended without an answer, for this reason; out of calls it left a checkpoint. */
    ghost predicate Halted(ended: Ended, was: Option<Progress>)
      reads this
    {
      ended.Stop? && Placed() && Ends(world, course, ended.reason) && stored == if ended.reason.Partial? then Some(Checkpoint()) else was
    }

    /** One call, if it fits the budget and one is left; without one left, a checkpoint of what is covered. */
    method Send(t: Template, body: string, index: int) returns (r: Result<Reply, Ended>)
      requires Valid()
      modifies this`calls, this`stored, this`sent
      ensures Valid()
      ensures if InputEstimate(world, t, body) > world.budget then r == Err(Stop(TooLarge)) && sent == old(sent) && stored == old(stored)
              else if old(calls) == MAX_CALLS then
                && sent == old(sent) && r == Err(Stop(if nextChunk == 0 then Incomplete else Partial))
                && stored == if nextChunk == 0 then old(stored) else Some(Checkpoint())
              else
                && r == Ok(world.reply(old(calls), Prompt(world, t, body))) && stored == old(stored)
                && sent == old(sent) + [Sent(t, body, index, r.value)]
    {
      hide InputEstimate;
      var estimate := InputEstimate(world, t, body);
      if estimate > world.budget { return Err(Stop(TooLarge)); }
      if calls >= MAX_CALLS {
        if nextChunk == 0 { return Err(Stop(Incomplete)); }
        stored := Some(Checkpoint());
        return Err(Stop(Partial));
      }
      r := Ok(world.reply(calls, Prompt(world, t, body)));
      calls := calls + 1;
      sent := sent + [Sent(t, body, index, r.value)];
    }

    /** The call that is made now, with the answer that comes back. */
    ghost function Next(t: Template, body: string, index: int): Sent
      reads `calls
    {
      Sent(t, body, index, world.reply(calls, Prompt(world, t, body)))
    }

    function Failed(kind: Failure): Ended { Stop(ReasonOf(kind)) }

    /** `_partial`: a call that is due. */
    method Summary(t: Template, body: string, index: int, mayBeEmpty: bool) returns (r: Got)
      requires Reached() && Calling(world, course, t, body, index) && !FinalTemplate(t) && mayBeEmpty == t.ChunkPart?
      modifies this`calls, this`stored, this`sent, this`course
      ensures r.Text? ==>
                && Reached() && stored == old(stored) && calls == old(calls) + 1 && course == Extended(old(course), old(Next(t, body, index)))
                && r.text == Said(world, old(Next(t, body, index))) && Fault(world, old(Next(t, body, index))).None?
                && var reply := old(Next(t, body, index)).reply;
                   reply.Answer? && if Strip(reply.summary) == "" then t.ChunkPart? && r.text == "" else r.text == reply.summary
      ensures r.Halt? ==> Halted(r.ended, old(stored)) && course.plan == old(course).plan && course.before == old(course).before
    {
      hide Calling, Running, Ends, Fault, Said, Strip, Parts, Calls, ChunkCount, LastCall, Oracle;
      CallEnds(world, course, t, body, index);
      ghost var c, s := course, Next(t, body, index);
      CallAny(world, c, s);
      var reply := Send(t, body, index);
      if reply.Err? { return Halt(reply.error); }
      course := Extended(c, s);
      match reply.value
      case Refused(kind) => return Halt(Failed(kind));
      case Answer(_, text) =>
        if Strip(text) == "" && mayBeEmpty { return Text(""); }
        if Strip(text) == "" || |text| > CHUNK_SUMMARY_CHARS { return Halt(Stop(Schema)); }
        if !world.storable(text) { return Halt(Stop(Invalid)); }
        if !world.passes(text) { return Halt(Stop(Rejected)); }
        return Text(text);
    }

    /** `_final`: a call that is due. */
    method Final(body: string, t: Template) returns (r: Ended)
      requires Reached() && Calling(world, course, t, body, -1) && FinalTemplate(t)
      modifies this`calls, this`stored, this`sent, this`course
      ensures r.Done? ==> Placed() && stored == old(stored) && Answered(world, course, r)
                          && calls == old(calls) + 1 && Published(world, old(Next(t, body, -1)).reply, r)
      ensures r.Stop? ==> Halted(r, old(stored))
      ensures course.plan == old(course).plan && course.before == old(course).before
    {
      hide Calling, Running, Ends, Fault, Answered, Strip, Parts, Calls, ChunkCount, LastCall, Oracle;
      CallEnds(world, course, t, body, -1);
      ghost var c, s := course, Next(t, body, -1);
      CallAny(world, c, s);
      var reply := Send(t, body, -1);
      if reply.Err? { return reply.error; }
      course := Extended(c, s);
      match reply.value
      case Refused(kind) => return Failed(kind);
      case Answer(empty, summary) =>
        var text := Strip(summary);
        if empty { return if text == "" then Done(true, summary) else Stop(Schema); }
        if !(0 < |text| <= SUMMARY_MAX_CHARS) { return Stop(Schema); }
        if !world.storable(text) { return Stop(Invalid); }
        if !world.passes(text) { return Stop(Rejected); }
        return Done(false, text);
    }

    /** `_merge`: all parts become one, the answer to the parts joined. */
    method Merge() returns (stop: Option<Ended>)
      requires Covering() && !Calm(world, course.plan, course.steps)
      modifies this`calls, this`stored, this`sent, this`partials, this`course
      ensures stop.None? ==>
                && Covering() && Calm(world, course.plan, course.steps) && stored == old(stored) && calls == old(calls) + 1
                && course == Stepped(old(course), Whole(old(Next(MergeParts, Joined(partials), -1))))
                && partials == [Said(world, old(Next(MergeParts, Joined(partials), -1)))]
      ensures stop.Some? ==> Halted(stop.value, old(stored)) && course.plan == old(course).plan && course.before == old(course).before
    {
      hide Running, Calling, Ends, Parts, Calls, ChunkCount, Calm, Due, StepOk, Said, Fault, Oracle,
           InputEstimate, Estimate, Joined, Nonempty, Strip;
      ghost var c, s := course, Next(MergeParts, Joined(partials), -1);
      MergeDue(world, c);
      var merged := Summary(MergeParts, Joined(partials), -1, false);
      match merged
      case Halt(ended) => return Some(ended);
      case Text(text) =>
        WholeMade(world, c, s);
        course, partials := Stepped(c, Whole(s)), [text];
        return None;
    }

    /**
     One chunk: asked about; what its answer holds is one part more; and the parts are merged into one
     before they outgrow half the room.
     */
    method NextChunk(chunks: seq<string>) returns (stop: Option<Ended>)
      requires Covering() && Calm(world, course.plan, course.steps) && chunks == course.plan.chunks && nextChunk < |chunks|
      modifies this`calls, this`stored, this`sent, this`partials, this`nextChunk, this`course
      ensures stop.None? ==>
                && Covering() && Calm(world, course.plan, course.steps) && stored == old(stored) && nextChunk == old(nextChunk) + 1
                && Bounded(world, room, partials)
                && var asked := old(course.steps + [Chunk(Next(ChunkPart, chunks[nextChunk], nextChunk))]);
                   && asked <= course.steps && |course.steps| <= |asked| + 1
                   && (course.steps == asked ==> partials == old(partials) + Nonempty([Said(world, old(Next(ChunkPart, chunks[nextChunk], nextChunk)))]))
                   && (course.steps != asked ==> |partials| == 1)
      ensures course.plan == old(course).plan && course.before == old(course).before
      ensures stop.Some? ==> Halted(stop.value, old(stored))
    {
      hide Running, Calling, Ends, Parts, Calls, ChunkCount, Calm, Due, StepOk, Said, Fault, Oracle,
           InputEstimate, Estimate, Joined, Nonempty, Strip;
      ghost var c, s := course, Next(ChunkPart, chunks[nextChunk], nextChunk);
      ChunkDue(world, c);
      var part := Summary(ChunkPart, chunks[nextChunk], nextChunk, true);
      match part
      case Halt(ended) => return Some(ended);
      case Text(text) =>
        ChunkMade(world, c, s);
        if text != "" { partials := partials + [text]; }
        nextChunk := nextChunk + 1;
        course := Stepped(c, Chunk(s));
        NonemptyOne(text);
        if |partials| > 1 && Estimate(Joined(partials), world.wide) > room / 2 {
          stop := Merge();
        } else {
          stop := None;
        }
    }

    /** The merge rounds: they need not shrink, but each of them spends calls. */
    method MergeRounds() returns (stop: Option<Ended>, body: string)
      requires Covering() && Calm(world, course.plan, course.steps) && nextChunk == |course.plan.chunks| && partials != []
      modifies this`calls, this`stored, this`sent, this`partials, this`course
      ensures stop.None? ==>
                && Covering() && Calm(world, course.plan, course.steps) && stored == old(stored) && nextChunk == |course.plan.chunks|
                && partials != [] && PlannedChunks(partials, room, world.wide) == [body]
      ensures course.plan == old(course).plan && course.before == old(course).before
      ensures stop.Some? ==> Halted(stop.value, old(stored))
    {
      hide Running, Calling, Ends, Parts, Calls, ChunkCount, Calm, Due, StepOk, Said, Fault, Oracle,
           InputEstimate, Estimate, Joined, Nonempty, PlannedChunks, Texts, Strip;
      var rounds := PlanChunks(partials, room, world.wide);
      PlanNonempty(partials, room, world.wide);
      while |rounds| > 1
        invariant rounds != [] && rounds == PlannedChunks(partials, room, world.wide) && partials != []
        invariant Covering() && Calm(world, course.plan, course.steps) && stored == old(stored) && nextChunk == |course.plan.chunks|
        invariant course.plan == old(course).plan && course.before == old(course).before
        decreases MAX_CALLS - calls
      {
        ghost var c, spent := course, calls;
        var merged: seq<string> := [];
        var i := 0;
        NothingMerged(world);
        while i < |rounds|
          invariant 0 <= i <= |rounds| && Reached() && stored == old(stored) && calls == spent + i
          invariant course == c.(rest := course.rest) && |course.rest| == i && merged == Texts(world, course.rest)
        {
          ghost var d, s := course, Next(MergeParts, rounds[i], -1);
          RoundDue(world, c, d);
          var part := Summary(MergeParts, rounds[i], -1, false);
          if part.Halt? { return Some(part.ended), ""; }
          OneMerged(world, d, s);
          merged := merged + [part.text];
          i := i + 1;
        }
        RoundMade(world, c, course);
        course, partials := Stepped(c, Round(course.rest)), merged;
        rounds := PlanChunks(partials, room, world.wide);
        PlanNonempty(partials, room, world.wide);
      }
      return None, rounds[0];
    }

    /** The rest of an attempt: the chunks still to do, the merges, and the final call. */
    method Cover(chunks: seq<string>) returns (ended: Ended)
      requires Covering() && course.steps == [] && chunks == course.plan.chunks
      modifies this`calls, this`stored, this`sent, this`partials, this`nextChunk, this`course
      ensures ended.Done? ==> Placed() && stored == old(stored) && Answered(world, course, ended)
      ensures ended.Stop? ==> Halted(ended, old(stored))
      ensures course.plan == old(course).plan && course.before == old(course).before
    {
      hide Running, Calling, Ends, Parts, Calls, ChunkCount, Calm, Due, StepOk, Said, Fault, Oracle,
           InputEstimate, Estimate, Joined, Nonempty, PlannedChunks, Answered;
      StartsCalm(world, course);
      while nextChunk < |chunks|
        invariant Covering() && Calm(world, course.plan, course.steps) && stored == old(stored) && nextChunk <= |chunks|
        invariant course.plan == old(course).plan && course.before == old(course).before
      {
        var stop := NextChunk(chunks);
        if stop.Some? {
          HaltedStops(stop.value, old(stored));
          return stop.value;
        }
      }
      if partials == [] {
        NothingFound(world, course);
        return Done(true, "");
      }
      var stop, body := MergeRounds();
      if stop.Some? {
        HaltedStops(stop.value, old(stored));
        return stop.value;
      }
      FinalDue(world, course, body);
      ended := Final(body, WholeParts);
    }

    lemma HaltedStops(ended: Ended, was: Option<Progress>)
      requires Halted(ended, was)
      ensures ended.Stop?
    {
    }

    /** `_Attempt.summarize`, at one room size. */
    method Attempt(lines: seq<string>, atRoom: int) returns (ended: Ended)
      requires Valid() && (stored.Some? ==> Resumable(world, stored.value, fingerprint))
      modifies this`calls, this`stored, this`sent, this`room, this`partials, this`nextChunk, this`course
      ensures course.plan == PlanOf(world, lines, atRoom, old(stored)) && course.before == old(sent)
      ensures ended.Done? ==> Placed() && stored == old(stored) && Answered(world, course, ended)
      ensures ended.Stop? ==> Halted(ended, old(stored))
      ensures ended == Stop(Partial) ==> room > MIN_CHUNK_ROOM
    {
      hide Running, Calling, Ends, Parts, Calls, ChunkCount, Calm, Due, Oracle, PlannedChunks, Answered, Resumable, InputEstimate;
      room, nextChunk, partials := atRoom, 0, [];
      course := Course(PlanOf(world, lines, atRoom, stored), sent, [], []);
      Outset(world, course);
      if room <= MIN_CHUNK_ROOM {
        NoRoom(world, course);
        return Stop(TooLarge);
      }
      var chunks := PlanChunks(lines, room, world.wide);
      if |chunks| == 1 {
        SessionDue(world, course);
        ended := Final(chunks[0], WholeSession);
        return;
      }
      if stored.Some? && stored.value.room == room && 0 <= stored.value.nextChunk <= |chunks| {
        nextChunk, partials := stored.value.nextChunk, Kept(stored.value.partials);
      }
      ended := Cover(chunks);
    }

    /** A stored checkpoint that can never be resumed is dropped. */
    function Usable(p: Option<Progress>): Option<Progress> {
      if p.Some? && Resumable(world, p.value, fingerprint) then p else None
    }

    /**
     `_summarize`: attempts at ever smaller rooms while the input is too large, each of which made
     the calls that were due, in order, and ended for one of the reasons in `Ends`. Whatever the model
     answers, the whole of it makes at most `MAX_CALLS` calls, each within the budget.
     */
    method Run(lines: seq<string>) returns (ended: Ended)
      requires Valid() && calls == 0 && past == []
      modifies this
      ensures Placed() && Tried(world, past, lines, Usable(old(stored))) && |past| <= MAX_ROOM_HALVINGS
      ensures course.before == SentBy(past) && course.plan == PlanOf(world, lines, Halved(InputRoom(world), |past|), Usable(old(stored)))
      // an answer, or a reason not to have one; too large only at the smallest room
      ensures ended.Done? ==> stored == Usable(old(stored)) && Answered(world, course, ended)
      ensures ended.Stop? ==> Halted(ended, Usable(old(stored)))
      ensures ended == Stop(TooLarge) ==> |past| == MAX_ROOM_HALVINGS
      // what is published is the model's own answer to the last call, or nothing where no part was kept
      ensures ended.Done? ==>
                if course.rest == [] then ended == Done(true, "") && partials == []
                else sent != [] && FinalTemplate(sent[|sent| - 1].template) && Published(world, sent[|sent| - 1].reply, ended)
      // every chunk from the resume point on, or as many of them as the checkpoint says, in order
      ensures ended.Done? && |course.plan.chunks| != 1 ==>
                ChunksAsked(sent[|course.before|..]) == Range(course.plan.first, |course.plan.chunks|)
      ensures ended == Stop(Partial) ==>
                && stored == Some(Checkpoint()) && 1 <= nextChunk <= |course.plan.chunks|
                && ChunksAsked(sent[|course.before|..]) == Range(course.plan.first, nextChunk)
                && (Sane(world, fingerprint) ==> Resumable(world, stored.value, fingerprint))
                && (|course.before| < MAX_CALLS && course.plan.first < |course.plan.chunks| ==> nextChunk > course.plan.first)
      // where every answer was valid it finishes or gets further, unless a room was too large
      ensures ended == Stop(Incomplete) ==> past != [] && |course.before| == MAX_CALLS
      ensures AnswersFit(world, sent) && ended.Stop? ==> ended.reason.Partial? || ended.reason.Incomplete? || ended.reason.TooLarge?
      ensures AnswersFit(world, sent) && ended != Stop(TooLarge) && past == [] ==>
                || ended.Done?
                || (ended == Stop(Partial) && (course.plan.first < |course.plan.chunks| ==> stored.value.nextChunk > course.plan.first))
    {
      hide Ends, Parts, Calls, ChunkCount, Answered, Resumable, Tried, PlanOf, Oracle, InputEstimate,
           AnswersFit, InputRoom, Sane, Halted, Placed, ChunksAsked, Range, Halved, SentBy, Published, FinalTemplate;
      if stored.Some? && !Resumable(world, stored.value, fingerprint) { stored := None; }
      ghost var was := stored;
      var at := InputRoom(world);
      var i := 0;
      NoneTried(world, lines, was);
      HalvedMore(at, 0);
      while i < MAX_ROOM_HALVINGS + 1
        invariant 0 <= i <= MAX_ROOM_HALVINGS + 1 && Valid() && stored == was
        invariant at == Halved(InputRoom(world), i)
        invariant i == 0 ==> past == [] && sent == SentBy(past) && Tried(world, past, lines, was)
        invariant i > 0 ==> |past| == i - 1 && Placed() && Ends(world, course, TooLarge) && course.before == SentBy(past) && sent == course.All()
                            && course.plan == PlanOf(world, lines, Halved(InputRoom(world), |past|), was) && Tried(world, past, lines, was)
        decreases MAX_ROOM_HALVINGS + 1 - i
      {
        if i > 0 {
          OneMoreTried(world, past, lines, was, course);
          past := past + [course];
        }
        ended := Attempt(lines, at);
        if ended != Stop(TooLarge) {
          Concluded(lines, ended, was);
          return;
        }
        TooLargeHalted(was);
        HalvedMore(InputRoom(world), i);
        at := at / 2;
        i := i + 1;
      }
      TooLargeHalted(was);
      return Stop(TooLarge);
    }

    lemma TooLargeHalted(was: Option<Progress>)
      ensures Halted(Stop(TooLarge), was) ==> Placed() && Ends(world, course, TooLarge) && stored == was && Valid() && sent == course.All()
      ensures Placed() && Ends(world, course, TooLarge) && stored == was ==> Halted(Stop(TooLarge), was)
    {
    }

    /** What follows from how an attempt ended. */
    lemma Concluded(lines: seq<string>, ended: Ended, was: Option<Progress>)
      requires course.before == SentBy(past) && (was.Some? ==> Resumable(world, was.value, fingerprint))
      requires course.plan == PlanOf(world, lines, Halved(InputRoom(world), |past|), was)
      requires ended.Done? ==> Placed() && Answered(world, course, ended)
      requires ended.Stop? ==> Halted(ended, was)
      requires ended == Stop(Partial) ==> room > MIN_CHUNK_ROOM
      ensures Placed()
      ensures ended.Done? ==>
                if course.rest == [] then ended == Done(true, "") && partials == []
                else sent != [] && FinalTemplate(sent[|sent| - 1].template) && Published(world, sent[|sent| - 1].reply, ended)
      ensures ended.Done? && |course.plan.chunks| != 1 ==>
                ChunksAsked(sent[|course.before|..]) == Range(course.plan.first, |course.plan.chunks|)
      ensures ended == Stop(Partial) ==>
                && stored == Some(Checkpoint()) && 1 <= nextChunk <= |course.plan.chunks|
                && ChunksAsked(sent[|course.before|..]) == Range(course.plan.first, nextChunk)
                && (Sane(world, fingerprint) ==> Resumable(world, stored.value, fingerprint))
                && (|course.before| < MAX_CALLS && course.plan.first < |course.plan.chunks| ==> nextChunk > course.plan.first)
      ensures ended == Stop(Incomplete) ==> past != [] && |course.before| == MAX_CALLS
      ensures AnswersFit(world, sent) && ended.Stop? ==> ended.reason.Partial? || ended.reason.Incomplete? || ended.reason.TooLarge?
    {
      hide Ends, Parts, Calls, ChunkCount, Answered, Resumable, PlanOf, Oracle, InputEstimate, AnswersFit,
           InputRoom, Sane, ChunksAsked, Range, Awaits, Running, Published, FinalTemplate;
      SinceBefore(course);
      PlanStarts(world, lines, Halved(InputRoom(world), |past|), was, fingerprint);
      if ended.Done? {
        AnsweredIs(world, course, ended);
        if |course.plan.chunks| != 1 { AnswerAsks(world, course, ended); }
      } else {
        if AnswersFit(world, sent) { ValidEnds(world, course, ended.reason); }
        if ended == Stop(Incomplete) { NoneToStart(world, course); }
        if ended == Stop(Partial) {
          PartialAwaits(world, course);
          AttemptAsks(world, course);
          if |course.before| < MAX_CALLS && course.plan.first < |course.plan.chunks| { FurtherOn(world, course); }
          CheckpointKept(lines, was);
        }
      }
    }

    /** The checkpoint can be resumed. */
    lemma CheckpointKept(lines: seq<string>, was: Option<Progress>)
      requires Placed() && Awaits(world, course) && nextChunk > 0 && room > MIN_CHUNK_ROOM
      requires was.Some? ==> Resumable(world, was.value, fingerprint)
      requires course.plan == PlanOf(world, lines, Halved(InputRoom(world), |past|), was)
      ensures Sane(world, fingerprint) ==> Resumable(world, Checkpoint(), fingerprint)
    {
      hide Parts, Calls, ChunkCount, Sound, Awaits, PlanOf, Oracle, InputEstimate, Sane, Resumable, AllKept, Held;
      PlanKept(world, lines, Halved(InputRoom(world), |past|), was, fingerprint);
      AwaitsSound(world, course);
      PartsKept(world, course.plan, course.steps);
      HeldKept(world, fingerprint, room, nextChunk, partials);
    }
  }

  /** The texts a checkpoint is made of are themselves storable, and the placeholder passes the policy. */
  predicate Sane(w: World, fingerprint: string) {
    && fingerprint != "" && w.storable(fingerprint) && w.promptVersion != "" && w.storable(w.promptVersion)
    && w.storable(NOTHING_KEPT) && w.passes(NOTHING_KEPT)
  }

  lemma HeldKept(w: World, fingerprint: string, room: int, nextChunk: nat, partials: seq<string>)
    requires AllKept(w, partials) && room >= 1 && nextChunk >= 1
    ensures Sane(w, fingerprint) ==> Resumable(w, Progress(fingerprint, w.promptVersion, room, nextChunk, Held(partials)), fingerprint)
  {
  }

  lemma PlanKept(w: World, lines: seq<string>, room: int, was: Option<Progress>, fingerprint: string)
    requires was.Some? ==> Resumable(w, was.value, fingerprint)
    ensures AllKept(w, PlanOf(w, lines, room, was).resumed)
  {
    hide PlannedChunks;
  }

  lemma PlanStarts(w: World, lines: seq<string>, room: int, was: Option<Progress>, fingerprint: string)
    requires was.Some? ==> Resumable(w, was.value, fingerprint)
    ensures var plan := PlanOf(w, lines, room, was); plan.first <= |plan.chunks| && (plan.first == 0 ==> plan.resumed == [])
  {
    hide PlannedChunks;
  }

  lemma NoneTried(w: World, lines: seq<string>, was: Option<Progress>)
    ensures Tried(w, [], lines, was) && SentBy([]) == []
  {
  }

  lemma SinceBefore(c: Course)
    ensures |c.before| <= |c.All()| && c.All()[|c.before|..] == Calls(c.steps) + c.rest
  {
    hide Calls;
  }

  lemma PartialAwaits(w: World, c: Course)
    requires Ends(w, c, Partial)
    ensures Awaits(w, c) && c.Reach() > 0
  {
    hide Awaits;
  }

  lemma NonemptyOne(text: string)
    ensures Nonempty([text]) == if text == "" then [] else [text]
  {
    assert [text][..0] == [];
  }

  // ---- which call is due -----------------------------------------------------------------------------

  lemma MergeDue(w: World, c: Course)
    requires Running(w, c) && c.rest == [] && |c.plan.chunks| != 1 && !Calm(w, c.plan, c.steps)
    ensures Calling(w, c, MergeParts, Joined(Parts(w, c.plan.resumed, c.steps)), -1)
  {
    hide Running, Calm, Parts, Joined;
  }

  lemma ChunkDue(w: World, c: Course)
    requires Running(w, c) && c.rest == [] && |c.plan.chunks| != 1 && Calm(w, c.plan, c.steps) && c.Reach() < |c.plan.chunks|
    ensures Calling(w, c, ChunkPart, c.plan.chunks[c.Reach()], c.Reach())
  {
    hide Running, Calm, Parts;
  }

  lemma RoundDue(w: World, c: Course, d: Course)
    requires Running(w, d) && d == c.(rest := d.rest) && |c.plan.chunks| != 1 && Calm(w, c.plan, c.steps) && c.Reach() >= |c.plan.chunks|
    requires var packed := PlannedChunks(Parts(w, c.plan.resumed, c.steps), c.plan.room, w.wide); |packed| > 1 && |d.rest| < |packed|
    ensures Calling(w, d, MergeParts, PlannedChunks(Parts(w, c.plan.resumed, c.steps), c.plan.room, w.wide)[|d.rest|], -1)
  {
    hide Running, Calm, Parts, PlannedChunks;
  }

  lemma FinalDue(w: World, c: Course, body: string)
    requires Running(w, c) && c.rest == [] && |c.plan.chunks| != 1 && Calm(w, c.plan, c.steps) && c.Reach() >= |c.plan.chunks|
    requires PlannedChunks(Parts(w, c.plan.resumed, c.steps), c.plan.room, w.wide) == [body]
    ensures Calling(w, c, WholeParts, body, -1)
  {
    hide Running, Calm, Parts, PlannedChunks;
  }

  lemma SessionDue(w: World, c: Course)
    requires Running(w, c) && c.rest == [] && c.steps == [] && |c.plan.chunks| == 1
    ensures Calling(w, c, WholeSession, c.plan.chunks[0], -1)
  {
    hide Running;
  }

  lemma StartsCalm(w: World, c: Course)
    requires c.steps == []
    ensures Calm(w, c.plan, c.steps) && c.Reach() == c.plan.first
  {
  }

  lemma Outset(w: World, c: Course)
    requires c.steps == [] && c.rest == []
    ensures Running(w, c) && c.All() == c.before && c.Reach() == c.plan.first && Parts(w, c.plan.resumed, c.steps) == c.plan.resumed
  {
    assert c.before + [] + [] == c.before;
  }

  lemma NoRoom(w: World, c: Course)
    requires c.steps == [] && c.rest == [] && c.plan.room <= MIN_CHUNK_ROOM
    ensures Ends(w, c, TooLarge)
  {
  }

  lemma NothingFound(w: World, c: Course)
    requires Running(w, c) && c.rest == [] && |c.plan.chunks| != 1 && Calm(w, c.plan, c.steps) && c.Reach() == |c.plan.chunks|
    requires Parts(w, c.plan.resumed, c.steps) == []
    ensures Answered(w, c, Done(true, ""))
  {
    hide Sound, Underway, Calm, Parts;
  }

  // ---- which step was made -----------------------------------------------------------------------------

  lemma WholeMade(w: World, c: Course, s: Sent)
    requires Running(w, c) && c.rest == [] && |c.plan.chunks| != 1 && !Calm(w, c.plan, c.steps)
    requires s.template.MergeParts? && s.body == Joined(Parts(w, c.plan.resumed, c.steps)) && s.index == -1 && Fault(w, s).None?
    ensures var e := Stepped(c, Whole(s));
            && Running(w, e) && e.All() == c.All() + [s] && e.Reach() == c.Reach()
            && Parts(w, c.plan.resumed, e.steps) == [Said(w, s)] && Calm(w, c.plan, e.steps)
  {
    MergeDue(w, c);
    CallWell(w, c, s);
    StepMade(w, c, Whole(s));
    MergedAll(w, Parts(w, c.plan.resumed, c.steps), c.plan.room, s);
    hide Sound, Underway, Calm, Parts, WentWell, Fault, Said, Bounded, PartsAfter, Calls, ChunkCount;
    assert c.before + Calls(c.steps) + [] == c.before + Calls(c.steps);
  }

  lemma ChunkMade(w: World, c: Course, s: Sent)
    requires Running(w, c) && c.rest == [] && |c.plan.chunks| != 1 && Calm(w, c.plan, c.steps) && c.Reach() < |c.plan.chunks|
    requires s.template.ChunkPart? && s.body == c.plan.chunks[c.Reach()] && s.index == c.Reach() && Fault(w, s).None?
    ensures var e, parts := Stepped(c, Chunk(s)), Parts(w, c.plan.resumed, c.steps) + (if Said(w, s) == "" then [] else [Said(w, s)]);
            && Running(w, e) && e.All() == c.All() + [s] && e.Reach() == c.Reach() + 1
            && Parts(w, c.plan.resumed, e.steps) == parts
            && (Calm(w, c.plan, e.steps) <==> |parts| <= 1 || Estimate(Joined(parts), w.wide) <= c.plan.room / 2)
  {
    ChunkDue(w, c);
    CallWell(w, c, s);
    StepMade(w, c, Chunk(s));
    hide Sound, Underway, Calm, Parts, WentWell, Fault, Said, Calls, ChunkCount, Joined;
    assert c.before + Calls(c.steps) + [] == c.before + Calls(c.steps);
  }

  lemma RoundMade(w: World, c: Course, d: Course)
    requires Running(w, d) && d == c.(rest := d.rest) && c.rest == [] && Calm(w, c.plan, c.steps) && c.Reach() >= |c.plan.chunks|
    requires d.rest != [] && |d.rest| == |PlannedChunks(Parts(w, c.plan.resumed, c.steps), c.plan.room, w.wide)|
    ensures var e := Stepped(c, Round(d.rest));
            && Running(w, e) && e.All() == d.All() && e.Reach() == c.Reach()
            && Parts(w, c.plan.resumed, e.steps) == Texts(w, d.rest) && Calm(w, c.plan, e.steps)
  {
    StepMade(w, c, Round(d.rest));
    hide Sound, Underway, Calm, Parts, Calls, ChunkCount, PlannedChunks, Texts;
  }

  lemma NothingMerged(w: World)
    ensures Texts(w, []) == []
  {
  }

  lemma OneMerged(w: World, d: Course, s: Sent)
    requires Calling(w, d, s.template, s.body, s.index) && !FinalTemplate(s.template) && Fault(w, s).None?
    ensures Extended(d, s).rest == d.rest + [s] && Texts(w, Extended(d, s).rest) == Texts(w, d.rest) + [Said(w, s)]
  {
    CallWell(w, d, s);
    hide Calling, Fault, Said, Texts, Running, WentWell;
  }

  /** A call that is due, whatever comes back. */
  lemma CallAny(w: World, c: Course, s: Sent)
    requires Calling(w, c, s.template, s.body, s.index)
    ensures var e := Extended(c, s);
            && e.All() == c.All() + [s] && e.Reach() == c.Reach() && e.plan == c.plan && e.steps == c.steps
            && if FinalTemplate(s.template) then
                 (match FinalAnswer(w, s.reply)
                  case Done(empty, summary) => Answered(w, e, Done(empty, summary))
                  case Stop(reason) => Ends(w, e, reason))
               else
                 (match PartAnswer(w, s.template, s.reply)
                  case Ok(text) => Running(w, e) && Fault(w, s).None? && Said(w, s) == text
                  case Err(reason) => Ends(w, e, reason))
  {
    hide Calling, Running, Ends, Fault, Answered, LastCall, FinalAnswer, PartAnswer, Said, WentWell;
    FaultIs(w, s);
    CallLast(w, c, s);
    if !FinalTemplate(s.template) && Fault(w, s).None? { CallWell(w, c, s); }
  }
}
