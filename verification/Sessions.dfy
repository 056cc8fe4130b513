/** The session registry, one transaction on the tables for each store call. */
module Sessions {
  import opened Basics

  // A service call reads, asks the directories outside any transaction, and then writes once, so between its
  // read and its write other processes may run any transactions of their own.

  type ProjectId = string
  type Time = int

  datatype SessionKey = SessionKey(harness: string, id: string)
  datatype Status = Registered | Pending
  datatype Origin = Start | FirstSeen
  datatype Prompt = Text(at: Time, text: string) | Omitted(at: Time, reason: string)
  datatype Project = Project(root: Option<string>, isGlobal: bool)

  datatype Session = Session(
    key: SessionKey, status: Status, origin: Origin,
    project: Option<ProjectId>, candidate: Option<ProjectId>, candidateRoot: Option<string>,
    entry: string, branch: Option<string>, transcript: Option<string>,
    startedAt: Time, lastActiveAt: Time, endedAt: Option<Time>,
    prompts: int, lastWrite: int, lastNudge: int,
    firstPrompt: Option<Prompt>, recentPrompts: seq<Prompt>, summary: Option<(string, Time)>)

  datatype Tables = Tables(projects: map<ProjectId, Project>, rows: map<SessionKey, Session>)

  datatype Failure = BadValue | StorageFailure | CandidateChanged | SessionMoved

  datatype Answer = Row(row: Option<Session>) | Counted(session: Session, created: bool) | Due(due: bool) | Done

  /** What the read path accepts of a row. */
  predicate Readable(s: Session) {
    && (s.status.Pending? ==> s.project.None? && s.origin.FirstSeen?)
    && 0 <= s.lastWrite <= s.prompts && 0 <= s.lastNudge <= s.prompts
  }

  /** The foreign keys of a row. */
  predicate Known(projects: map<ProjectId, Project>, s: Session) {
    (s.project.Some? ==> s.project.value in projects) && (s.candidate.Some? ==> s.candidate.value in projects)
  }

  function Later(a: Time, b: Time): Time { if a < b then b else a }

  function Last<T>(s: seq<T>, n: nat): seq<T> { if |s| <= n then s else s[|s| - n..] }

  function Found(t: Tables, key: SessionKey): Result<Option<Session>, Failure> {
    if key !in t.rows then Ok(None) else if Readable(t.rows[key]) then Ok(Some(t.rows[key])) else Err(StorageFailure)
  }

  function Save(t: Tables, s: Session): Result<Tables, Failure> {
    if !Readable(s) then Err(BadValue)
    else if !Known(t.projects, s) then Err(StorageFailure)
    else Ok(t.(rows := t.rows[s.key := s]))
  }

  /** Insert if absent, never overwrite. */
  function Insert(t: Tables, seed: Session): Result<Tables, Failure> {
    if seed.key in t.rows then (if Readable(seed) then Ok(t) else Err(BadValue)) else Save(t, seed)
  }

  /** One transaction: of the session store, or of the project store on the projects it names. */
  datatype Event =
    | Registering(seed: Session)
    | Touching(key: SessionKey, at: Time, transcript: Option<string>)
    | Prompting(key: SessionKey, prompt: Prompt, seed: Session, keep: int)
    | Ending(key: SessionKey, at: Time)
    | Stopping(key: SessionKey, at: Time, least: int, interval: int)
    | Saving(key: SessionKey)
    | Confirming(key: SessionKey)
    | Assigning(key: SessionKey, project: ProjectId)
    | Publishing(key: SessionKey, text: string, expected: Time, at: Time)
    | AddingProject(id: ProjectId, added: Project)
    | Rooting(id: ProjectId, root: Option<string>)

  function Saved(t: Tables, s: Session, answer: Answer): Result<(Tables, Answer), Failure> {
    match Save(t, s)
    case Err(e) => Err(e)
    case Ok(t') => Ok((t', answer))
  }

  predicate IsDue(s: Session, least: int, interval: int) {
    && s.project.Some? && s.prompts - s.lastWrite >= least
    && (s.lastNudge == 0 || s.prompts - s.lastNudge >= interval)
  }

  function WithPrompt(s: Session, prompt: Prompt, keep: nat): Session {
    s.(prompts := s.prompts + 1,
       firstPrompt := if s.firstPrompt.None? then Some(prompt) else s.firstPrompt,
       recentPrompts := Last(s.recentPrompts + [prompt], keep),
       lastActiveAt := Later(s.lastActiveAt, prompt.at))
  }

  function Prompted(t: Tables, key: SessionKey, prompt: Prompt, seed: Session, keep: int): Result<(Tables, Answer), Failure> {
    if seed.key != key || keep < 1 then Err(BadValue)
    else match Insert(t, seed)
      case Err(e) => Err(e)
      case Ok(t') =>
        match Found(t', key)
        case Err(e) => Err(e)
        case Ok(None) => Err(StorageFailure)
        case Ok(Some(s)) => Saved(t', WithPrompt(s, prompt, keep), Counted(WithPrompt(s, prompt, keep), key !in t.rows))
  }

  function Confirmed(t: Tables, s: Session): Result<(Tables, Answer), Failure> {
    if s.status.Registered? then Ok((t, Row(Some(s))))
    else if s.candidate.Some? &&
            !(s.candidate.value in t.projects && t.projects[s.candidate.value] == Project(s.candidateRoot, false)) then
      Err(CandidateChanged)
    else
      var s' := s.(status := Registered, project := s.candidate);
      Saved(t, s', Row(Some(s')))
  }

  function Published(t: Tables, s: Session, text: string, expected: Time, at: Time): Result<(Tables, Answer), Failure> {
    if s.status.Registered? && s.project.Some? && s.project.value in t.projects && !t.projects[s.project.value].isGlobal
       && s.lastActiveAt == expected
    then Saved(t, s.(summary := Some((text, at))), Done)
    else Err(SessionMoved)
  }

  /** A transaction on the row of a session that has one. */
  function OnRow(t: Tables, s: Session, e: Event): Result<(Tables, Answer), Failure> {
    match e
    case Touching(_, at, transcript) =>
      var s' := s.(lastActiveAt := Later(s.lastActiveAt, at), transcript := if transcript.None? then s.transcript else transcript);
      Saved(t, s', Row(Some(s')))
    case Ending(_, at) => Saved(t, s.(endedAt := Some(at), lastActiveAt := Later(s.lastActiveAt, at)), Done)
    case Stopping(_, at, least, interval) =>
      if s.status.Pending? then Ok((t, Due(false)))
      else
        var due := IsDue(s, least, interval);
        Saved(t, s.(lastActiveAt := Later(s.lastActiveAt, at), lastNudge := if due then s.prompts else s.lastNudge), Due(due))
    case Confirming(_) => Confirmed(t, s)
    case Assigning(_, project) =>
      if s.project.Some? || s.candidate.Some? then Ok((t, Row(Some(s))))
      else
        var s' := s.(status := Registered, project := Some(project));
        Saved(t, s', Row(Some(s')))
    case Publishing(_, text, expected, at) => Published(t, s, text, expected, at)
    case _ => Ok((t, Done))
  }

  function WithoutRow(e: Event): Result<Answer, Failure> {
    match e
    case Publishing(_, _, _, _) => Err(SessionMoved)
    case Stopping(_, _, _, _) => Ok(Due(false))
    case Ending(_, _) => Ok(Done)
    case _ => Ok(Row(None))
  }

  function Transaction(t: Tables, e: Event): Result<(Tables, Answer), Failure> {
    match e
    case Registering(seed) =>
      (match Insert(t, seed)
       case Err(f) => Err(f)
       case Ok(t') =>
         match Found(t', seed.key)
         case Err(f) => Err(f)
         case Ok(row) => Ok((t', Row(row))))
    case Prompting(key, prompt, seed, keep) => Prompted(t, key, prompt, seed, keep)
    case Saving(key) =>
      Ok((if key in t.rows then t.(rows := t.rows[key := t.rows[key].(lastWrite := t.rows[key].prompts)]) else t, Done))
    case AddingProject(id, added) => Ok((if id in t.projects then t else t.(projects := t.projects[id := added]), Done))
    case Rooting(id, root) =>
      Ok((if id in t.projects then t.(projects := t.projects[id := t.projects[id].(root := root)]) else t, Done))
    case _ =>
      match Found(t, e.key)
      case Err(f) => Err(f)
      case Ok(None) => (match WithoutRow(e) case Err(f) => Err(f) case Ok(a) => Ok((t, a)))
      case Ok(Some(s)) => OnRow(t, s, e)
  }

  /** A transaction that fails is rolled back. */
  function After(t: Tables, e: Event): Tables {
    var r := Transaction(t, e); if r.Ok? then r.value.0 else t
  }

  function Run(t: Tables, events: seq<Event>): Tables
    decreases |events|
  {
    if events == [] then t else After(Run(t, events[..|events| - 1]), events[|events| - 1])
  }

  lemma RunOne(t: Tables, events: seq<Event>, e: Event)
    ensures Run(t, events + [e]) == After(Run(t, events), e)
  {
    assert (events + [e])[..|events|] == events;
  }

  // ---- what every transaction keeps ----

  ghost predicate Sound(t: Tables) {
    forall k :: k in t.rows ==> t.rows[k].key == k && Readable(t.rows[k]) && Known(t.projects, t.rows[k])
  }

  /** How a row may stand to what it was: nothing a session was given is taken back. */
  ghost predicate Follows(s: Session, s': Session) {
    && s'.key == s.key && s'.origin == s.origin && s'.entry == s.entry && s'.branch == s.branch && s'.startedAt == s.startedAt
    && s'.candidate == s.candidate && s'.candidateRoot == s.candidateRoot
    && (s.status.Registered? ==> s'.status.Registered?)
    && (s.project.Some? ==> s'.project == s.project)
    && (s.project.None? && s'.project.Some? && s.candidate.Some? ==> s'.project == s.candidate)
    && s.prompts <= s'.prompts && s.lastWrite <= s'.lastWrite && s.lastNudge <= s'.lastNudge && s.lastActiveAt <= s'.lastActiveAt
    && (s.firstPrompt.Some? ==> s'.firstPrompt == s.firstPrompt)
  }

  ghost predicate RowsFollow(t: Tables, t': Tables) {
    && (forall k :: k in t.rows ==> k in t'.rows && Follows(t.rows[k], t'.rows[k]))
    && forall p :: p in t.projects ==> p in t'.projects && t'.projects[p].isGlobal == t.projects[p].isGlobal
  }

  /** Rows are addressed one at a time: a transaction on `key` leaves every other row. */
  ghost predicate OnlyRow(t: Tables, t': Tables, key: SessionKey) {
    forall k :: k != key ==> (k in t'.rows <==> k in t.rows) && (k in t.rows ==> t'.rows[k] == t.rows[k])
  }

  function Subject(e: Event): Option<SessionKey> {
    match e
    case Registering(seed) => Some(seed.key)
    case AddingProject(_, _) => None
    case Rooting(_, _) => None
    case _ => Some(e.key)
  }

  lemma SaveKeeps(t: Tables, s: Session)
    requires Sound(t) && Save(t, s).Ok?
    requires s.key in t.rows ==> Follows(t.rows[s.key], s)
    ensures Sound(Save(t, s).value) && RowsFollow(t, Save(t, s).value) && OnlyRow(t, Save(t, s).value, s.key)
  {
    var t' := Save(t, s).value;
    forall k | k in t'.rows ensures t'.rows[k].key == k && Readable(t'.rows[k]) && Known(t'.projects, t'.rows[k]) {
      if k != s.key { assert k in t.rows; }
    }
  }

  lemma PromptKeeps(t: Tables, e: Event)
    requires Sound(t) && e.Prompting?
    ensures Sound(After(t, e)) && RowsFollow(t, After(t, e)) && OnlyRow(t, After(t, e), e.key)
  {
    if Transaction(t, e).Ok? {
      var t' := Insert(t, e.seed).value;
      if e.key !in t.rows { SaveKeeps(t, e.seed); }
      var s := t'.rows[e.key];
      assert RowsFollow(t, t') && Sound(t');
      assert Follows(s, WithPrompt(s, e.prompt, e.keep));
      SaveKeeps(t', WithPrompt(s, e.prompt, e.keep));
      var u := After(t, e);
      forall k | k in t.rows ensures k in u.rows && Follows(t.rows[k], u.rows[k]) { assert k in t'.rows && t'.rows[k] == t.rows[k]; }
    }
  }

  lemma OnRowKeeps(t: Tables, s: Session, e: Event)
    requires Sound(t) && s.key in t.rows && t.rows[s.key] == s
    requires OnRow(t, s, e).Ok?
    ensures Sound(OnRow(t, s, e).value.0) && RowsFollow(t, OnRow(t, s, e).value.0) && OnlyRow(t, OnRow(t, s, e).value.0, s.key)
  {
    var u := OnRow(t, s, e).value.0;
    if u != t {
      var s' := u.rows[s.key];
      assert Save(t, s') == Ok(u);
      assert Follows(s, s');
      SaveKeeps(t, s');
    }
  }

  lemma RegisterKeeps(t: Tables, e: Event)
    requires Sound(t) && e.Registering?
    ensures Sound(After(t, e)) && RowsFollow(t, After(t, e)) && OnlyRow(t, After(t, e), e.seed.key)
  {
    if Transaction(t, e).Ok? && e.seed.key !in t.rows { SaveKeeps(t, e.seed); }
  }

  lemma SavingKeeps(t: Tables, e: Event)
    requires Sound(t) && e.Saving?
    ensures Sound(After(t, e)) && RowsFollow(t, After(t, e)) && OnlyRow(t, After(t, e), e.key)
  {
    if e.key in t.rows {
      var s := t.rows[e.key].(lastWrite := t.rows[e.key].prompts);
      assert Save(t, s) == Ok(After(t, e));
      SaveKeeps(t, s);
    }
  }

  lemma ProjectKeeps(t: Tables, e: Event)
    requires Sound(t) && Subject(e).None?
    ensures Sound(After(t, e)) && RowsFollow(t, After(t, e)) && After(t, e).rows == t.rows
  {
  }

  lemma OtherKeeps(t: Tables, e: Event)
    requires Sound(t) && Subject(e).Some? && !e.Registering? && !e.Prompting? && !e.Saving?
    ensures Sound(After(t, e)) && RowsFollow(t, After(t, e)) && OnlyRow(t, After(t, e), e.key)
  {
    if Transaction(t, e).Ok? && e.key in t.rows { OnRowKeeps(t, t.rows[e.key], e); }
  }

  /** Every transaction keeps the tables sound and every row a follower of what it was. */
  lemma TransactionKeeps(t: Tables, e: Event)
    requires Sound(t)
    ensures Sound(After(t, e)) && RowsFollow(t, After(t, e))
    ensures Subject(e).Some? ==> OnlyRow(t, After(t, e), Subject(e).value)
    ensures Subject(e).None? ==> After(t, e).rows == t.rows
  {
    hide Sound, RowsFollow, OnlyRow, After;
    if Subject(e).None? { ProjectKeeps(t, e); }
    else if e.Registering? { RegisterKeeps(t, e); }
    else if e.Prompting? { PromptKeeps(t, e); }
    else if e.Saving? { SavingKeeps(t, e); }
    else { OtherKeeps(t, e); }
  }

  /** No row a transaction wrote is one the read path rejects, and none of its writes is refused for it. */
  lemma NothingUnreadable(t: Tables, e: Event)
    requires Sound(t)
    requires e.Registering? || e.Prompting? ==> Readable(e.seed)
    requires e.Prompting? ==> e.seed.key == e.key && e.keep >= 1
    ensures Transaction(t, e) != Err(BadValue)
  {
    if e.Prompting? && Insert(t, e.seed).Ok? {
      var t' := Insert(t, e.seed).value;
      assert Readable(t'.rows[e.key]);
    } else if !e.Registering? && !e.Prompting? && Subject(e).Some? && e.key in t.rows {
      var s := t.rows[e.key];
      assert Readable(s);
    }
  }

  // ---- over every run ----

  lemma {:induction false} RunKeeps(t: Tables, events: seq<Event>)
    requires Sound(t)
    ensures Sound(Run(t, events))
    decreases |events|
  {
    if events != [] {
      RunKeeps(t, events[..|events| - 1]);
      TransactionKeeps(Run(t, events[..|events| - 1]), events[|events| - 1]);
    }
  }

  /**
   However the transactions of any number of processes interleave: a session once registered stays
   registered, a project once given is never changed, a candidate is the only project its session
   can get, the watermarks and the times only grow, and neither watermark passes the prompt count.
   */
  lemma {:induction false} NothingTakenBack(t: Tables, events: seq<Event>, i: nat, j: nat)
    requires Sound(t) && i <= j <= |events|
    ensures RowsFollow(Run(t, events[..i]), Run(t, events[..j])) && Sound(Run(t, events[..j]))
    decreases j
  {
    RunKeeps(t, events[..j]);
    if i < j {
      NothingTakenBack(t, events, i, j - 1);
      var a, b := Run(t, events[..i]), Run(t, events[..j - 1]);
      assert events[..j] == events[..j - 1] + [events[j - 1]];
      RunOne(t, events[..j - 1], events[j - 1]);
      TransactionKeeps(b, events[j - 1]);
      var c := Run(t, events[..j]);
      forall k | k in a.rows ensures k in c.rows && Follows(a.rows[k], c.rows[k]) {
        assert k in b.rows && Follows(a.rows[k], b.rows[k]) && Follows(b.rows[k], c.rows[k]);
      }
    }
  }

  /** The change of a session from pending to registered. */
  ghost predicate Registers(t: Tables, t': Tables, key: SessionKey) {
    key in t.rows && key in t'.rows && t.rows[key].status.Pending? && t'.rows[key].status.Registered?
  }

  /** ... happens at most once in a run. */
  lemma RegisteredOnce(t: Tables, events: seq<Event>, key: SessionKey, i: nat, j: nat)
    requires Sound(t) && i < |events| && j < |events|
    requires Registers(Run(t, events[..i]), Run(t, events[..i + 1]), key)
    requires Registers(Run(t, events[..j]), Run(t, events[..j + 1]), key)
    ensures i == j
  {
    if i < j { NothingTakenBack(t, events, i + 1, j); }
    if j < i { NothingTakenBack(t, events, j + 1, i); }
  }

  // ---- the save nudges ----

  predicate Nudged(t: Tables, e: Event, key: SessionKey) {
    e.Stopping? && e.key == key && Transaction(t, e).Ok? && Transaction(t, e).value.1 == Due(true)
  }

  function Nudges(t: Tables, events: seq<Event>, key: SessionKey): nat
    decreases |events|
  {
    if events == [] then 0
    else
      var before := events[..|events| - 1];
      Nudges(t, before, key) + if Nudged(Run(t, before), events[|events| - 1], key) then 1 else 0
  }

  function Watermark(t: Tables, key: SessionKey): int { if key in t.rows then t.rows[key].lastNudge else 0 }

  /** No nudge is asked with fewer than `n` prompts as its minimum and its interval. */
  ghost predicate Spaced(events: seq<Event>, n: nat) {
    forall e :: e in events && e.Stopping? ==> e.least >= n && e.interval >= n
  }

  lemma NudgeMoves(t: Tables, e: Event, key: SessionKey, n: nat)
    requires Sound(t) && (e.Stopping? ==> e.least >= n && e.interval >= n)
    ensures Watermark(After(t, e), key) >= Watermark(t, key) + if Nudged(t, e, key) then n else 0
  {
    TransactionKeeps(t, e);
    if Nudged(t, e, key) {
      assert key in t.rows && IsDue(t.rows[key], e.least, e.interval);
    } else if key in t.rows {
      assert Follows(t.rows[key], After(t, e).rows[key]);
    } else if key in After(t, e).rows {
      assert Readable(After(t, e).rows[key]);
    }
  }

  lemma {:induction false} NudgesMove(t: Tables, events: seq<Event>, key: SessionKey, n: nat)
    requires Sound(t) && Spaced(events, n)
    ensures Watermark(Run(t, events), key) >= Watermark(t, key) + n * Nudges(t, events, key)
    decreases |events|
  {
    if events != [] {
      var before, e := events[..|events| - 1], events[|events| - 1];
      assert e in events;
      NudgesMove(t, before, key, n);
      RunKeeps(t, before);
      NudgeMoves(Run(t, before), e, key, n);
      var one := if Nudged(Run(t, before), e, key) then 1 else 0;
      assert n * (Nudges(t, before, key) + one) == n * Nudges(t, before, key) + n * one;
    }
  }

  /** In any run from an empty store, n times the nudges a session got is at most its prompts. */
  lemma NudgesSpaced(events: seq<Event>, projects: map<ProjectId, Project>, key: SessionKey, n: nat)
    requires Spaced(events, n)
    ensures var t := Tables(projects, map[]);
            var end := Run(t, events);
            n * Nudges(t, events, key) <= Watermark(end, key)
            && (key in end.rows ==> Watermark(end, key) <= end.rows[key].prompts)
  {
    var t := Tables(projects, map[]);
    NudgesMove(t, events, key, n);
    RunKeeps(t, events);
  }

  // ---- the prompts a session keeps ----

  /** A row as `_new_session` builds it. */
  predicate Unused(s: Session) {
    && Readable(s) && s.prompts == s.lastWrite == s.lastNudge == 0
    && s.firstPrompt.None? && s.recentPrompts == [] && s.summary.None?
  }

  /** A transaction as the service sends it: the seed is new, or the row it was read from is there. */
  ghost predicate Sent(t: Tables, e: Event, keep: nat) {
    && (e.Registering? ==> Unused(e.seed))
    && (e.Prompting? ==> e.keep == keep && (Unused(e.seed) || e.key in t.rows))
  }

  ghost predicate AllSent(t: Tables, events: seq<Event>, keep: nat) {
    forall i :: 0 <= i < |events| ==> Sent(Run(t, events[..i]), events[i], keep)
  }

  /** The prompts of a session that were counted, oldest first. */
  function Spoken(t: Tables, events: seq<Event>, key: SessionKey): seq<Prompt>
    decreases |events|
  {
    if events == [] then []
    else
      var before, e := events[..|events| - 1], events[|events| - 1];
      Spoken(t, before, key)
      + if e.Prompting? && e.key == key && Transaction(Run(t, before), e).Ok? then [e.prompt] else []
  }

  ghost predicate Keeps(s: Session, spoken: seq<Prompt>, keep: nat) {
    && s.prompts == |spoken| && s.recentPrompts == Last(spoken, keep)
    && s.firstPrompt == if spoken == [] then None else Some(spoken[0])
  }

  ghost predicate RowKeeps(t: Tables, key: SessionKey, spoken: seq<Prompt>, keep: nat) {
    if key in t.rows then Keeps(t.rows[key], spoken, keep) else spoken == []
  }

  lemma LastOfLast<T>(s: seq<T>, x: T, n: nat)
    requires n >= 1
    ensures Last(Last(s, n) + [x], n) == Last(s + [x], n)
  {
  }

  lemma PromptAnswers(t: Tables, key: SessionKey, prompt: Prompt, seed: Session, keep: nat)
    requires Sound(t) && Readable(seed) && seed.key == key && keep >= 1
    ensures var r := Transaction(t, Prompting(key, prompt, seed, keep));
            if key !in t.rows && !Known(t.projects, seed) then r.Err?
            else r.Ok? && key in r.value.0.rows && r.value.1 == Counted(r.value.0.rows[key], key !in t.rows)
                 && r.value.0.rows[key] == WithPrompt(if key in t.rows then t.rows[key] else seed, prompt, keep)
  {
    if key in t.rows || Known(t.projects, seed) {
      var t' := Insert(t, seed).value;
      var s := t'.rows[key];
      assert s == if key in t.rows then t.rows[key] else seed;
      assert Found(t', key) == Ok(Some(s));
      assert Save(t', WithPrompt(s, prompt, keep)).Ok?;
    }
  }

  lemma PromptReads(t: Tables, e: Event)
    requires Sound(t) && e.Prompting? && Transaction(t, e).Ok?
    ensures Readable(e.seed) && e.seed.key == e.key
  {
  }

  lemma LastOfNone<T>(n: nat)
    ensures Last<T>([], n) == []
  {
  }

  lemma SpokenPrompt(t: Tables, e: Event, spoken: seq<Prompt>)
    requires Sound(t) && e.Prompting? && e.keep >= 1 && RowKeeps(t, e.key, spoken, e.keep)
    requires Sent(t, e, e.keep) && Transaction(t, e).Ok?
    ensures RowKeeps(After(t, e), e.key, spoken + [e.prompt], e.keep)
  {
    hide Transaction, Sound, Last;
    PromptReads(t, e);
    PromptAnswers(t, e.key, e.prompt, e.seed, e.keep);
    var s := if e.key in t.rows then t.rows[e.key] else e.seed;
    LastOfLast(spoken, e.prompt, e.keep);
    LastOfNone<Prompt>(e.keep);
    assert Keeps(s, spoken, e.keep);
    assert After(t, e).rows[e.key] == WithPrompt(s, e.prompt, e.keep);
  }

  lemma SpokenOther(t: Tables, e: Event, key: SessionKey, spoken: seq<Prompt>, keep: nat)
    requires Sound(t) && RowKeeps(t, key, spoken, keep) && Subject(e) == Some(key) && !e.Prompting?
    requires e.Registering? ==> Unused(e.seed)
    ensures RowKeeps(After(t, e), key, spoken, keep)
  {
    if key in t.rows { assert t.rows[key].key == key; }
  }

  lemma SpokenStep(t: Tables, e: Event, key: SessionKey, spoken: seq<Prompt>, keep: nat)
    requires Sound(t) && keep >= 1 && RowKeeps(t, key, spoken, keep)
    requires Sent(t, e, keep)
    ensures var said := if e.Prompting? && e.key == key && Transaction(t, e).Ok? then [e.prompt] else [];
            RowKeeps(After(t, e), key, spoken + said, keep)
  {
    hide Transaction, Sound, Unused, Keeps;
    assert spoken + [] == spoken;
    if Subject(e) != Some(key) {
      TransactionKeeps(t, e);
    } else if !e.Prompting? {
      SpokenOther(t, e, key, spoken, keep);
    } else if Transaction(t, e).Ok? {
      SpokenPrompt(t, e, spoken);
    }
  }

  /**
   In every run of the service's own calls from an empty store: a session's counter is the number of
   prompts counted for it, its first prompt is the first of them and never replaced, and its recent
   prompts are the last ones, in order.
   */
  lemma {:induction false} PromptsKept(projects: map<ProjectId, Project>, events: seq<Event>, key: SessionKey, keep: nat)
    requires keep >= 1 && AllSent(Tables(projects, map[]), events, keep)
    ensures var t := Tables(projects, map[]); RowKeeps(Run(t, events), key, Spoken(t, events, key), keep)
    decreases |events|
  {
    var t := Tables(projects, map[]);
    if events != [] {
      var before, e := events[..|events| - 1], events[|events| - 1];
      assert Sent(Run(t, before), e, keep);
      forall i | 0 <= i < |before| ensures Sent(Run(t, before[..i]), before[i], keep) {
        assert before[..i] == events[..i] && before[i] == events[i];
      }
      PromptsKept(projects, before, key, keep);
      RunKeeps(t, before);
      SpokenStep(Run(t, before), e, key, Spoken(t, before, key), keep);
    }
  }
}
