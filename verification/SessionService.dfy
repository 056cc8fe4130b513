/**
 The session service over the registry. Between its read and its write a call leaves the tables
 to others, whose transactions are the `meanwhile` of its methods: every interleaving of calls is
 therefore a run of transactions, and the answer is what the stored row grants.
 */
module SessionService {
  import opened Basics
  import opened Sessions

  const STOP_NUDGE_MIN_PROMPTS := 5
  const STOP_NUDGE_INTERVAL_PROMPTS := 5

  /** An entry directory as the injected directory questions and the project store resolve it. */
  datatype Entry = Unresolved | Resolved(path: string, project: Option<(ProjectId, Option<string>)>)

  datatype Context = Granted(project: ProjectId) | Awaiting(hasCandidate: bool) | Unbound | Gone | Degraded | Unavailable

  datatype Refusal = Store(failure: Failure) | Unidentified | StillPending

  /** What a stored row grants. */
  function ContextOf(t: Tables, s: Session): Context {
    if s.status.Pending? then Awaiting(s.candidate.Some?)
    else if s.project.None? then Unbound
    else if s.project.value !in t.projects || t.projects[s.project.value].isGlobal then Gone
    else Granted(s.project.value)
  }

  /** What each kind of row grants, and nothing else does. */
  lemma ContextIs(t: Tables, s: Session)
    ensures var c := ContextOf(t, s);
            && (c.Awaiting? <==> s.status.Pending?) && (c.Awaiting? ==> (c.hasCandidate <==> s.candidate.Some?))
            && (c.Unbound? <==> s.status.Registered? && s.project.None?)
            && (c.Granted? <==> s.status.Registered? && s.project.Some? && s.project.value in t.projects && !t.projects[s.project.value].isGlobal)
            && (c.Granted? ==> s.project == Some(c.project))
            && (c.Gone? <==> s.status.Registered? && s.project.Some? && (s.project.value in t.projects ==> t.projects[s.project.value].isGlobal))
  {
  }

  /** A row as it is opened: bound to the directory's project by a start, and with it as a candidate by anything else. */
  predicate Opened(s: Session, key: SessionKey, entry: Entry, starting: bool, branch: Option<string>, transcript: Option<string>, at: Time) {
    && entry.Resolved? && Unused(s) && s.key == key && s.entry == entry.path && s.branch == branch && s.transcript == transcript
    && s.startedAt == at && s.lastActiveAt == at && s.endedAt.None?
    && (if starting then s.status.Registered? && s.origin.Start? else s.status.Pending? && s.origin.FirstSeen?)
    && (entry.project.None? ==> s.project.None? && s.candidate.None? && s.candidateRoot.None?)
    && (entry.project.Some? ==>
          if starting then s.project == Some(entry.project.value.0) && s.candidate.None? && s.candidateRoot.None?
          else s.project.None? && s.candidate == Some(entry.project.value.0) && s.candidateRoot == entry.project.value.1)
  }

  function NewSession(key: SessionKey, entry: Entry, branch: Option<string>, transcript: Option<string>, starting: bool, at: Time): (s: Session)
    requires entry.Resolved?
    ensures Unused(s) && s.key == key && Opened(s, key, entry, starting, branch, transcript, at)
  {
    var project := match entry.project case None => None case Some(p) => Some(p.0);
    var root := match entry.project case None => None case Some(p) => p.1;
    Session(key, if starting then Registered else Pending, if starting then Start else FirstSeen,
            if starting then project else None, if starting then None else project, if starting then None else root,
            entry.path, branch, transcript, at, at, None, 0, 0, 0, None, [], None)
  }

  /** The context is the one the stored row of `key` grants. */
  ghost predicate Stands(t: Tables, key: SessionKey, c: Context) {
    key in t.rows && c == ContextOf(t, t.rows[key])
  }

  /** Once a session is granted a project, it is granted that project in the rest of every run. */
  lemma GrantStands(t: Tables, events: seq<Event>, key: SessionKey, p: ProjectId, i: nat, j: nat)
    requires Sound(t) && i <= j <= |events|
    requires Stands(Run(t, events[..i]), key, Granted(p))
    ensures Stands(Run(t, events[..j]), key, Granted(p))
  {
    NothingTakenBack(t, events, i, j);
    RunKeeps(t, events[..i]);
    var a, b := Run(t, events[..i]), Run(t, events[..j]);
    assert Follows(a.rows[key], b.rows[key]) && Known(a.projects, a.rows[key]);
  }

  /** A pending session got its candidate, or no project when it had none. */
  ghost predicate TookCandidate(t: Tables, s: Session, intact: string -> bool, c: Context) {
    && s.key in t.rows && t.rows[s.key].project == s.candidate
    && (s.candidate.Some? ==>
          && s.candidateRoot.Some? && intact(s.candidateRoot.value)
          && s.candidate.value in t.projects && t.projects[s.candidate.value] == Project(s.candidateRoot, false)
          && c == Granted(s.candidate.value))
  }

  /** What a call may rely on when others act before its write. */
  lemma Meantime(t: Tables, meanwhile: seq<Event>, e: Event)
    requires Sound(t)
    ensures Sound(Run(t, meanwhile)) && RowsFollow(t, Run(t, meanwhile))
    ensures meanwhile + [] == meanwhile && Run(t, meanwhile + [e]) == After(Run(t, meanwhile), e)
  {
    RunKeeps(t, meanwhile);
    NothingTakenBack(t, meanwhile, 0, |meanwhile|);
    assert meanwhile[..|meanwhile|] == meanwhile;
    RunOne(t, meanwhile, e);
  }

  lemma SoundFinds(t: Tables, key: SessionKey)
    requires Sound(t)
    ensures Found(t, key) == Ok(if key in t.rows then Some(t.rows[key]) else None)
    ensures key in t.rows ==> t.rows[key].key == key
  {
  }

  lemma SeedReads(t: Tables, seed: Session)
    requires Sound(t) && (Unused(seed) || (seed.key in t.rows && seed == t.rows[seed.key]))
    ensures Readable(seed)
  {
  }

  /** The later of two times. */
  predicate IsLater(x: Time, a: Time, b: Time) { x >= a && x >= b && (x == a || x == b) }

  /** Seen again: the time, and the transcript where there is one. */
  predicate SeenAgain(s: Session, s': Session, at: Time, transcript: Option<string>) {
    && s' == s.(lastActiveAt := s'.lastActiveAt, transcript := s'.transcript) && IsLater(s'.lastActiveAt, s.lastActiveAt, at)
    && s'.transcript == if transcript.Some? then transcript else s.transcript
  }

  lemma TouchAnswers(t: Tables, key: SessionKey, at: Time, transcript: Option<string>)
    requires Sound(t) && key in t.rows
    ensures var r := Transaction(t, Touching(key, at, transcript));
            && r.Ok? && key in r.value.0.rows && r.value.1 == Row(Some(r.value.0.rows[key]))
            && r.value.0 == t.(rows := t.rows[key := r.value.0.rows[key]]) && SeenAgain(t.rows[key], r.value.0.rows[key], at, transcript)
  {
  }

  lemma RegisterAnswers(t: Tables, seed: Session)
    requires Sound(t) && Readable(seed)
    ensures var r := Transaction(t, Registering(seed));
            if seed.key !in t.rows && !Known(t.projects, seed) then r.Err?
            else r.Ok? && seed.key in r.value.0.rows && r.value.1 == Row(Some(r.value.0.rows[seed.key]))
                 && r.value.0.rows[seed.key] == if seed.key in t.rows then t.rows[seed.key] else seed
  {
  }

  /** One prompt more: counted, the first one kept for good, and the last ones in order. */
  predicate Counts(s: Session, s': Session, prompt: Prompt, keep: nat) {
    && s' == s.(prompts := s.prompts + 1, firstPrompt := s'.firstPrompt, recentPrompts := s'.recentPrompts, lastActiveAt := s'.lastActiveAt)
    && s'.firstPrompt == (if s.firstPrompt.Some? then s.firstPrompt else Some(prompt)) && IsLater(s'.lastActiveAt, s.lastActiveAt, prompt.at)
    && |s'.recentPrompts| == (if |s.recentPrompts| + 1 <= keep then |s.recentPrompts| + 1 else keep)
    && s'.recentPrompts == (s.recentPrompts + [prompt])[|s.recentPrompts| + 1 - |s'.recentPrompts|..]
  }

  lemma PromptCounts(s: Session, prompt: Prompt, keep: nat)
    ensures Counts(s, WithPrompt(s, prompt, keep), prompt, keep)
  {
    LastIs(s.recentPrompts + [prompt], keep);
    hide Last;
  }

  lemma LastIs<T>(s: seq<T>, n: nat)
    ensures |Last(s, n)| == (if |s| <= n then |s| else n) && Last(s, n) == s[|s| - |Last(s, n)|..]
  {
  }

  /** The prompt is in the row of the session: in the one that was there, or in one just opened. */
  ghost predicate SpokeTo(t: Tables, t': Tables, key: SessionKey, prompt: Prompt, keep: nat,
                          entry: Entry, branch: Option<string>, transcript: Option<string>, at: Time) {
    && key in t'.rows
    && (if key in t.rows then Counts(t.rows[key], t'.rows[key], prompt, keep)
        else exists first :: Opened(first, key, entry, false, branch, transcript, at) && Counts(first, t'.rows[key], prompt, keep))
  }

  lemma PromptSpoken(t: Tables, t': Tables, key: SessionKey, prompt: Prompt, keep: nat, seed: Session,
                     entry: Entry, branch: Option<string>, transcript: Option<string>, at: Time)
    requires key !in t.rows ==> Opened(seed, key, entry, false, branch, transcript, at)
    ensures key in t'.rows && t'.rows[key] == WithPrompt(if key in t.rows then t.rows[key] else seed, prompt, keep) ==>
              SpokeTo(t, t', key, prompt, keep, entry, branch, transcript, at)
  {
    PromptCounts(if key in t.rows then t.rows[key] else seed, prompt, keep);
    hide Opened, Counts, WithPrompt;
  }

  /** A save nudge is due: enough prompts since the last save, and since the last nudge if there was one. */
  predicate NudgeDue(t: Tables, key: SessionKey, least: int, interval: int) {
    && key in t.rows && t.rows[key].status.Registered? && t.rows[key].project.Some?
    && t.rows[key].prompts - t.rows[key].lastWrite >= least
    && (t.rows[key].lastNudge == 0 || t.rows[key].prompts - t.rows[key].lastNudge >= interval)
  }

  lemma StopAnswers(t: Tables, key: SessionKey, at: Time, least: int, interval: int)
    requires Sound(t)
    ensures var e := Stopping(key, at, least, interval);
            var t', due := After(t, e), NudgeDue(t, key, least, interval);
            && Transaction(t, e).Ok? && Transaction(t, e).value.1 == Due(due) && (Nudged(t, e, key) <==> due)
            && (if key in t.rows && t.rows[key].status.Registered? then
                  && t' == t.(rows := t.rows[key := t'.rows[key]])
                  && t'.rows[key] == t.rows[key].(lastNudge := if due then t.rows[key].prompts else t.rows[key].lastNudge,
                                                  lastActiveAt := t'.rows[key].lastActiveAt)
                  && IsLater(t'.rows[key].lastActiveAt, t.rows[key].lastActiveAt, at)
                else t' == t)
  {
  }

  lemma EndAnswers(t: Tables, key: SessionKey, at: Time)
    requires Sound(t)
    ensures var t' := After(t, Ending(key, at));
            if key in t.rows then
              && t' == t.(rows := t.rows[key := t'.rows[key]])
              && t'.rows[key] == t.rows[key].(endedAt := Some(at), lastActiveAt := t'.rows[key].lastActiveAt)
              && IsLater(t'.rows[key].lastActiveAt, t.rows[key].lastActiveAt, at)
            else t' == t
  {
  }

  /** `mark_saved`: the watermark is where the prompts are, and nothing else moves. */
  lemma SaveAnswers(t: Tables, key: SessionKey)
    ensures var t' := After(t, Saving(key));
            if key in t.rows then t' == t.(rows := t.rows[key := t.rows[key].(lastWrite := t.rows[key].prompts)]) else t' == t
  {
  }

  /** A candidate can be taken: its project is there, is not the global one, and has the root it was computed from. */
  predicate CandidateStands(t: Tables, s: Session) {
    s.candidate.Some? ==> s.candidate.value in t.projects && t.projects[s.candidate.value] == Project(s.candidateRoot, false)
  }

  lemma ConfirmAnswers(t: Tables, key: SessionKey)
    requires Sound(t)
    ensures var r := Transaction(t, Confirming(key));
            if key !in t.rows then r == Ok((t, Row(None)))
            else if t.rows[key].status.Registered? then r == Ok((t, Row(Some(t.rows[key]))))
            else if !CandidateStands(t, t.rows[key]) then r == Err(CandidateChanged)
            else
              var s := t.rows[key].(status := Registered, project := t.rows[key].candidate);
              r == Ok((t.(rows := t.rows[key := s]), Row(Some(s))))
  {
  }

  lemma AssignAnswers(t: Tables, key: SessionKey, project: ProjectId)
    requires Sound(t)
    ensures var r := Transaction(t, Assigning(key, project));
            if key !in t.rows then r == Ok((t, Row(None)))
            else if t.rows[key].project.Some? || t.rows[key].candidate.Some? then r == Ok((t, Row(Some(t.rows[key]))))
            else if project !in t.projects then r == Err(StorageFailure)
            else
              var s := t.rows[key].(status := Registered, project := Some(project));
              r == Ok((t.(rows := t.rows[key := s]), Row(Some(s))))
  {
  }

  /** `publish_summary`: only for a session still bound, and active last when its summary was made. */
  lemma PublishAnswers(t: Tables, key: SessionKey, text: string, expected: Time, at: Time)
    requires Sound(t)
    ensures var r := Transaction(t, Publishing(key, text, expected, at));
            if key in t.rows && ContextOf(t, t.rows[key]).Granted? && t.rows[key].lastActiveAt == expected then
              r == Ok((t.(rows := t.rows[key := t.rows[key].(summary := Some((text, at)))]), Done))
            else r == Err(SessionMoved)
  {
  }

  class Service {
    var tables: Tables

    constructor (projects: map<ProjectId, Project>)
      ensures tables == Tables(projects, map[]) && Sound(tables)
    {
      tables := Tables(projects, map[]);
    }

    method Transact(e: Event) returns (r: Result<Answer, Failure>)
      modifies this
      ensures tables == After(old(tables), e)
      ensures var spec := Transaction(old(tables), e);
              r == match spec case Err(f) => Err(f) case Ok(landed) => Ok(landed.1)
    {
      match Transaction(tables, e)
      case Err(f) => r := Err(f);
      case Ok((t, answer)) =>
        tables := t;
        r := Ok(answer);
    }

    /** What others do between two transactions of a call. */
    method Others(events: seq<Event>)
      modifies this
      ensures tables == Run(old(tables), events)
    {
      var i := 0;
      while i < |events|
        invariant i <= |events| && tables == Run(old(tables), events[..i])
      {
        assert events[..i + 1] == events[..i] + [events[i]];
        RunOne(old(tables), events[..i], events[i]);
        var _ := Transact(events[i]);
        i := i + 1;
      }
      assert events[..i] == events;
    }

    /** `start_session`: whoever registered the session, the stored row answers. */
    method StartSession(key: SessionKey, starting: bool, at: Time, entry: Entry, branch: Option<string>,
                        transcript: Option<string>, meanwhile: seq<Event>)
      returns (c: Context, ghost sent: seq<Event>)
      requires Sound(tables)
      modifies this
      ensures tables == Run(old(tables), meanwhile + sent) && |sent| <= 1
      ensures forall e :: e in sent ==> e.Touching? || (e.Registering? && Unused(e.seed))
      ensures c.Degraded? || c.Unavailable? || Stands(tables, key, c)
      ensures c.Degraded? <==> key !in old(tables).rows && entry.Unresolved?
      ensures c.Unavailable? <==>
                && key !in Run(old(tables), meanwhile).rows && entry.Resolved? && entry.project.Some?
                && entry.project.value.0 !in Run(old(tables), meanwhile).projects
      ensures Stands(tables, key, c) ==>
                var before := Run(old(tables), meanwhile);
                if key !in before.rows then Opened(tables.rows[key], key, entry, starting, branch, transcript, at)
                else if key in old(tables).rows then SeenAgain(before.rows[key], tables.rows[key], at, transcript)
                else entry.Resolved? ==> tables.rows[key] == before.rows[key]
    {
      hide Transaction, Sound, Follows, Readable;
      SoundFinds(tables, key);
      var stored := Found(tables, key);
      if stored.Err? { return Unavailable, []; }
      if stored.value.Some? {
        sent := [Touching(key, at, transcript)];
        Meantime(tables, meanwhile, sent[0]);
        Others(meanwhile);
        TouchAnswers(tables, key, at, transcript);
        var touched := Transact(Touching(key, at, transcript));
        if touched.Err? { return Unavailable, sent; }
        // no row is ever removed, so the touched row is there and `touched or stored` is it
        c := ContextOf(tables, touched.value.row.value);
      } else if entry.Unresolved? {
        Meantime(tables, meanwhile, Saving(key));
        Others(meanwhile);
        c, sent := Degraded, [];
      } else {
        var seed := NewSession(key, entry, branch, transcript, starting, at);
        sent := [Registering(seed)];
        Meantime(tables, meanwhile, sent[0]);
        Others(meanwhile);
        RegisterAnswers(tables, seed);
        var winner := Transact(Registering(seed));
        if winner.Err? { return Unavailable, sent; }
        c := ContextOf(tables, winner.value.row.value);
      }
    }

    /** `observe_prompt`: `created` of exactly the call whose prompt inserted the row. */
    method ObservePrompt(key: SessionKey, prompt: Prompt, at: Time, entry: Entry, branch: Option<string>,
                         transcript: Option<string>, keep: nat, meanwhile: seq<Event>)
      returns (c: Context, created: bool, ghost sent: seq<Event>)
      requires Sound(tables) && keep >= 1
      modifies this
      ensures tables == Run(old(tables), meanwhile + sent) && |sent| <= 1
      ensures forall e :: e in sent ==> e.Prompting? && e.prompt == prompt && e.key == key && Sent(old(tables), e, keep)
      ensures c.Degraded? || c.Unavailable? || Stands(tables, key, c)
      ensures c.Degraded? <==> key !in old(tables).rows && entry.Unresolved?
      ensures c.Unavailable? <==>
                && key !in Run(old(tables), meanwhile).rows && entry.Resolved? && entry.project.Some?
                && entry.project.value.0 !in Run(old(tables), meanwhile).projects
      ensures created <==> key in tables.rows && key !in Run(old(tables), meanwhile).rows
      ensures !c.Degraded? && !c.Unavailable? ==>
                SpokeTo(Run(old(tables), meanwhile), tables, key, prompt, keep, entry, branch, transcript, at)
    {
      hide Transaction, Sound, Follows, Readable, Counts, Opened, Unused, SpokeTo, WithPrompt;
      SoundFinds(tables, key);
      var stored := Found(tables, key);
      if stored.Err? { return Unavailable, false, []; }
      if stored.value.None? && entry.Unresolved? {
        Meantime(tables, meanwhile, Saving(key));
        Others(meanwhile);
        return Degraded, false, [];
      }
      var seed := if stored.value.Some? then stored.value.value else NewSession(key, entry, branch, transcript, false, at);
      SeedReads(tables, seed);
      sent := [Prompting(key, prompt, seed, keep)];
      Meantime(tables, meanwhile, sent[0]);
      Others(meanwhile);
      PromptAnswers(tables, key, prompt, seed, keep);
      PromptSpoken(tables, After(tables, sent[0]), key, prompt, keep, seed, entry, branch, transcript, at);
      var added := Transact(Prompting(key, prompt, seed, keep));
      if added.Err? { return Unavailable, false, sent; }
      c, created := ContextOf(tables, added.value.session), added.value.created;
    }

    /** `end_session`. */
    method EndSession(key: SessionKey, at: Time)
      modifies this
      ensures tables == After(old(tables), Ending(key, at))
      ensures Sound(old(tables)) ==> if key in old(tables).rows then key in tables.rows && tables.rows[key].endedAt == Some(at) else tables == old(tables)
    {
      if Sound(tables) { EndAnswers(tables, key, at); }
      var _ := Transact(Ending(key, at));
    }

    /** `stop_decision`: true of exactly the nudges that are recorded. */
    method StopDecision(key: SessionKey, at: Time) returns (nudge: bool)
      modifies this
      ensures var e := Stopping(key, at, STOP_NUDGE_MIN_PROMPTS, STOP_NUDGE_INTERVAL_PROMPTS);
              tables == After(old(tables), e) && nudge == Nudged(old(tables), e, key)
      ensures Sound(old(tables)) ==>
                && (nudge <==> NudgeDue(old(tables), key, STOP_NUDGE_MIN_PROMPTS, STOP_NUDGE_INTERVAL_PROMPTS))
                && (nudge ==> key in tables.rows && tables.rows[key].lastNudge == old(tables).rows[key].prompts)
    {
      if Sound(tables) { StopAnswers(tables, key, at, STOP_NUDGE_MIN_PROMPTS, STOP_NUDGE_INTERVAL_PROMPTS); }
      var r := Transact(Stopping(key, at, STOP_NUDGE_MIN_PROMPTS, STOP_NUDGE_INTERVAL_PROMPTS));
      nudge := r.Ok? && r.value.Due? && r.value.due;
    }

    /** `confirm_session`: a candidate is taken only with the root it was computed from, seen intact. */
    method ConfirmSession(key: SessionKey, intact: string -> bool, meanwhile: seq<Event>)
      returns (r: Result<Context, Refusal>, ghost sent: seq<Event>)
      requires Sound(tables)
      modifies this
      ensures tables == Run(old(tables), meanwhile + sent) && sent <= [Confirming(key)]
      ensures r.Ok? ==> Stands(tables, key, r.value) && !r.value.Awaiting?
      ensures var before := Run(old(tables), meanwhile);
              r.Ok? && key in old(tables).rows && key in before.rows && before.rows[key].status.Pending? ==>
                TookCandidate(tables, before.rows[key], intact, r.value)
      ensures r.Err? ==> tables == Run(old(tables), meanwhile)
      ensures var before := Run(old(tables), meanwhile);
              var doubted := key in old(tables).rows && old(tables).rows[key].status.Pending? && old(tables).rows[key].candidate.Some?
                             && (old(tables).rows[key].candidateRoot.None? || !intact(old(tables).rows[key].candidateRoot.value));
              && (r == Err(Unidentified) <==> !doubted && key !in before.rows)
              && (r == Err(Store(CandidateChanged)) <==>
                    doubted || (key in before.rows && before.rows[key].status.Pending? && !CandidateStands(before, before.rows[key])))
              && (r.Err? ==> r == Err(Unidentified) || r == Err(Store(CandidateChanged)))
              && (r.Ok? && key in before.rows && before.rows[key].status.Registered? ==> tables == before)
    {
      RunKeeps(tables, meanwhile);
      assert meanwhile + [] == meanwhile;
      NothingTakenBack(tables, meanwhile, 0, |meanwhile|);
      assert meanwhile[..|meanwhile|] == meanwhile;
      ConfirmAnswers(Run(tables, meanwhile), key);
      var stored := Found(tables, key);
      assert stored.Ok?;
      if stored.value.Some? && stored.value.value.status.Pending? && stored.value.value.candidate.Some?
         && (stored.value.value.candidateRoot.None? || !intact(stored.value.value.candidateRoot.value)) {
        Others(meanwhile);
        return Err(Store(CandidateChanged)), [];
      }
      RunOne(tables, meanwhile, Confirming(key));
      Others(meanwhile);
      TransactionKeeps(tables, Confirming(key));
      sent := [Confirming(key)];
      var confirmed := Transact(Confirming(key));
      match confirmed
      case Err(f) => r := Err(Store(f));
      case Ok(answer) => r := if answer.row.None? then Err(Unidentified) else Ok(ContextOf(tables, answer.row.value));
    }

    /** `register_session`: only a session without project and candidate is given one. */
    method RegisterSession(key: SessionKey, resolve: string -> Entry, meanwhile: seq<Event>)
      returns (r: Result<Context, Refusal>, ghost sent: seq<Event>)
      requires Sound(tables)
      modifies this
      ensures tables == Run(old(tables), meanwhile + sent) && |sent| <= 1
      ensures r.Ok? && r.value.Granted? ==> Stands(tables, key, r.value)
      ensures key in old(tables).rows && old(tables).rows[key].project.Some? ==> sent == [] && r.Ok?
      ensures key in old(tables).rows && old(tables).rows[key].project.None? && old(tables).rows[key].candidate.Some? ==>
                sent == [] && r == Err(StillPending)
      ensures forall e :: e in sent ==>
                && e.Assigning? && e.key == key && key in old(tables).rows
                && var found := resolve(old(tables).rows[key].entry);
                   found.Resolved? && found.project.Some? && found.project.value.0 == e.project
      ensures key !in old(tables).rows <==> r == Err(Unidentified)
      ensures key in old(tables).rows && old(tables).rows[key].project.None? && old(tables).rows[key].candidate.None? ==>
                var before, found := Run(old(tables), meanwhile), resolve(old(tables).rows[key].entry);
                key in before.rows &&
                if found.Unresolved? then r == Ok(Degraded) && tables == before
                else if found.project.None? then tables == before && r.Ok?
                else if before.rows[key].project.Some? then tables == before && r == Ok(ContextOf(before, before.rows[key]))
                else if found.project.value.0 !in before.projects then tables == before && r == Err(Store(StorageFailure))
                else
                  && key in tables.rows && tables.rows[key].status.Registered? && tables.rows[key].project == Some(found.project.value.0)
                  && r == Ok(ContextOf(tables, tables.rows[key]))
    {
      RunKeeps(tables, meanwhile);
      assert meanwhile + [] == meanwhile;
      NothingTakenBack(tables, meanwhile, 0, |meanwhile|);
      assert meanwhile[..|meanwhile|] == meanwhile;
      if key in tables.rows {
        assert Follows(tables.rows[key], Run(tables, meanwhile).rows[key]);
        var hint := resolve(tables.rows[key].entry);
        if hint.Resolved? && hint.project.Some? { AssignAnswers(Run(tables, meanwhile), key, hint.project.value.0); }
      }
      var stored := Found(tables, key);
      assert stored.Ok?;
      if stored.value.None? {
        Others(meanwhile);
        return Err(Unidentified), [];
      }
      var s := stored.value.value;
      var found := resolve(s.entry);
      if s.project.None? && s.candidate.None? && found.Resolved? && found.project.Some? {
        var e := Assigning(key, found.project.value.0);
        RunOne(tables, meanwhile, e);
        Others(meanwhile);
        TransactionKeeps(tables, e);
        sent := [e];
        var outcome := Transact(e);
        match outcome
        case Err(f) => r := Err(Store(f));
        case Ok(answer) => r := Ok(if answer.row.None? then Unbound else ContextOf(tables, answer.row.value));
      } else {
        Others(meanwhile);
        sent := [];
        if s.project.Some? {
          r := Ok(ContextOf(tables, s));
        } else if s.candidate.Some? {
          r := Err(StillPending);
        } else {
          r := Ok(if found.Unresolved? then Degraded else ContextOf(tables, s));
        }
      }
    }
  }
}
