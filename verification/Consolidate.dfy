/**
 One consolidation pass over a scope: the model's judgments, each checked against what was sent
 and carried out as one change at the versions sent, while others go on writing to the store.
 */
module Consolidate {
  import opened Basics
  import opened PyText
  import opened Kernel
  import opened KernelAgent
  import opened KernelContents
  import opened KernelInvariant
  import opened KernelUndo
  import opened KernelRuns
  import opened KernelVersions
  import M = MemoryStore

  datatype JudgmentKind = Merge | Rewrite | Supersede | Contradiction | InstructionLike | NoChange

  /** `id` and `newer` (the source's `by`) are None when the model left them empty. */
  datatype Judgment = Judgment(kind: JudgmentKind, ids: seq<Id>, id: Option<Id>, newer: Option<Id>, evidence: seq<Id>,
                               type_: Option<Kind>, description: string, body: string, reason: string)

  datatype Problem = Invalid | Refused

  /** The memories sent, and the sources each had at that version. */
  datatype Input = Input(project: Id, sent: map<Id, Row>, sources: map<Id, seq<Ref>>)

  /** What no UTF-8 column takes, and what the content policy hits. */
  datatype Rules = Rules(storable: string -> bool, rejected: string -> bool)

  predicate Repeats(ids: seq<Id>) { exists i, j :: 0 <= i < j < |ids| && ids[i] == ids[j] }

  function IdsProblem(ids: seq<Id>, sent: map<Id, Row>, minimum: nat): Option<Problem> {
    if exists i :: i in ids && i !in sent then Some(Invalid)
    else if |ids| < minimum || Repeats(ids) then Some(Refused)
    else None
  }

  function TextProblem(raw: Judgment, rules: Rules): Option<Problem> {
    if !rules.storable(raw.description) || !rules.storable(raw.body) then Some(Invalid)
    else if Strip(raw.description) == "" || Strip(raw.body) == "" then Some(Refused)
    else None
  }

  function ReasonFails(reason: string, rules: Rules): bool { !rules.storable(reason) || rules.rejected(reason) }

  /** Each memory at the version sent. */
  function AtSent(ids: seq<Id>, sent: map<Id, Row>): (refs: seq<Ref>)
    requires forall i :: i in ids ==> i in sent
    ensures |refs| == |ids| && forall k :: 0 <= k < |ids| ==> refs[k] == Ref(ids[k], sent[ids[k]].version)
  {
    seq(|ids|, k requires 0 <= k < |ids| => Ref(ids[k], sent[ids[k]].version))
  }

  function RetireAll(ids: seq<Id>, sent: map<Id, Row>): (ops: seq<Op>)
    requires forall i :: i in ids ==> i in sent
    ensures |ops| == |ids| && forall k :: 0 <= k < |ids| ==> ops[k] == SoftDelete(ids[k], sent[ids[k]].version, None)
  {
    seq(|ids|, k requires 0 <= k < |ids| => SoftDelete(ids[k], sent[ids[k]].version, None))
  }

  /** The sources kept: those of memories the evidence does not name. */
  function KeptSources(refs: seq<Ref>, evidence: seq<Id>): (kept: seq<Ref>)
    ensures forall r :: r in kept <==> r in refs && r.memory !in evidence
  {
    if refs == [] then []
    else (if refs[0].memory in evidence then [] else [refs[0]]) + KeptSources(refs[1..], evidence)
  }

  /** The change a judgment asks for: the memories it changes and its operations. */
  datatype Group = Group(items: seq<Id>, ops: seq<Op>)

  function MergeGroup(raw: Judgment, input: Input, rules: Rules): Result<Group, Problem> {
    var ids := IdsProblem(raw.ids, input.sent, 2);
    if ids.Some? then Err(ids.value)
    else
      var text := TextProblem(raw, rules);
      if text.Some? then Err(text.value)
      else if !exists i :: i in raw.ids && raw.type_ == Some(input.sent[i].kind) then Err(Refused)
      else
        Ok(Group(raw.ids,
                [Create(input.project, raw.type_.value, Strip(raw.description), Strip(raw.body), AtSent(raw.ids, input.sent), Agent, true)]
                + RetireAll(raw.ids, input.sent)))
  }

  function RewriteGroup(raw: Judgment, input: Input, rules: Rules): Result<Group, Problem> {
    if raw.id.None? || raw.id.value !in input.sent then Err(Invalid)
    else
      var target := raw.id.value;
      var ids := IdsProblem(raw.evidence, input.sent, 1);
      if ids.Some? then Err(ids.value)
      else
        var text := TextProblem(raw, rules);
        if text.Some? then Err(text.value)
        else if target in raw.evidence then Err(Refused)
        else
          var current := if target in input.sources then input.sources[target] else [];
          Ok(Group([target],
                  [Update(target, input.sent[target].version, Some(Strip(raw.description)), Some(Strip(raw.body)),
                          Some(Sorted(KeptSources(current, raw.evidence) + AtSent(raw.evidence, input.sent))))]))
  }

  function SupersedeGroup(raw: Judgment, input: Input): Result<Group, Problem> {
    if raw.id.None? || raw.newer.None? || raw.id.value !in input.sent || raw.newer.value !in input.sent then Err(Invalid)
    else
      var target, newer := raw.id.value, raw.newer.value;
      if newer == target || input.sent[newer].updated <= input.sent[target].updated then Err(Refused)
      else Ok(Group([target], [SoftDelete(target, input.sent[target].version, None)]))
  }

  predicate Plans(kind: JudgmentKind) { kind.Merge? || kind.Rewrite? || kind.Supersede? }

  function GroupOf(raw: Judgment, input: Input, rules: Rules): Result<Group, Problem>
    requires Plans(raw.kind)
  {
    match raw.kind
    case Merge => MergeGroup(raw, input, rules)
    case Rewrite => RewriteGroup(raw, input, rules)
    case Supersede => SupersedeGroup(raw, input)
  }

  function ProblemOf(r: Result<Group, Problem>): Option<Problem> { match r case Err(p) => Some(p) case Ok(_) => None }

  function OptionSet(id: Option<Id>): set<Id> { if id.Some? then {id.value} else {} }

  function SetOf(ids: seq<Id>): set<Id> { set i | i in ids }

  /** `_touched_ids`. */
  function TouchedIds(raw: Judgment): set<Id> {
    match raw.kind
    case Merge => SetOf(raw.ids)
    case Rewrite => OptionSet(raw.id) + SetOf(raw.evidence)
    case _ => OptionSet(raw.id) + OptionSet(raw.newer)
  }

  function InstructionIds(raw: Judgment): seq<Id> { if raw.id.None? then raw.ids else [raw.id.value] }

  /** An instruction-like judgment whose ids stand flags them, whatever its reason. */
  predicate Flags(raw: Judgment, sent: map<Id, Row>) {
    raw.kind.InstructionLike? && IdsProblem(InstructionIds(raw), sent, 1).None?
  }

  /** What `_flagged_ids` collects. */
  function FlaggedIds(judgments: seq<Judgment>, sent: map<Id, Row>): set<Id> {
    set raw, i | raw in judgments && Flags(raw, sent) && i in InstructionIds(raw) :: i
  }

  /** What comes of a judgment. */
  datatype Verdict = LeftAlone | Flagged | Malformed | Declined | Reported | Carried | NotCarried

  /** The verdicts that let the pass finish. */
  predicate Fine(v: Verdict) { v.LeftAlone? || v.Declined? || v.Reported? || v.Carried? }

  /** The verdict on a judgment before anything is written; None when its plan is to be carried out. */
  function Ruling(raw: Judgment, input: Input, rules: Rules, flagged: set<Id>): Option<Verdict>
    requires !raw.kind.NoChange?
  {
    if Plans(raw.kind) && !(flagged !! TouchedIds(raw)) then Some(LeftAlone)
    else if Flags(raw, input.sent) then Some(Flagged)
    else if ReasonFails(raw.reason, rules) then Some(Malformed)
    else
      var problem :=
        if raw.kind.InstructionLike? then IdsProblem(InstructionIds(raw), input.sent, 1)
        else if raw.kind.Contradiction? then IdsProblem(raw.ids, input.sent, 2)
        else ProblemOf(GroupOf(raw, input, rules));
      match problem
      case Some(Invalid) => Some(Malformed)
      case Some(Refused) => Some(Declined)
      case None => if raw.kind.Contradiction? then Some(Reported) else None
  }

  // ---- what a plan may touch -------------------------------------------------------------

  /** A citation at the version sent of a memory the judgment names, or one that was there. */
  ghost predicate CitesSent(r: Ref, raw: Judgment, input: Input) {
    || (r.memory in TouchedIds(raw) && r.memory in input.sent && r.version == input.sent[r.memory].version)
    || (raw.id.Some? && raw.id.value in input.sources && r in input.sources[raw.id.value])
  }

  /** An operation on a memory of the group, at the version sent. */
  ghost predicate OnSent(op: Op, items: seq<Id>, input: Input) {
    op.Create? || (op.memory in items && op.memory in input.sent && op.expected == input.sent[op.memory].version)
  }

  ghost predicate CitingSent(op: Op, raw: Judgment, input: Input) {
    && (op.Create? ==> op.project == input.project && forall r :: r in op.cites ==> CitesSent(r, raw, input))
    && (op.Update? && op.newCites.Some? ==> forall r :: r in op.newCites.value ==> CitesSent(r, raw, input))
  }

  /** A memory of the group: sent, named by the judgment, and by an operation. */
  ghost predicate IsItem(i: Id, raw: Judgment, group: Group, input: Input) {
    i in input.sent && i in TouchedIds(raw) && exists j :: Names(group.ops, j, i)
  }

  ghost predicate Safe(raw: Judgment, group: Group, input: Input, flagged: set<Id>) {
    && flagged !! TouchedIds(raw)
    && (forall i :: i in group.items ==> IsItem(i, raw, group, input))
    && (forall j :: 0 <= j < |group.ops| ==> OnSent(group.ops[j], group.items, input) && CitingSent(group.ops[j], raw, input))
  }

  lemma IdsStand(ids: seq<Id>, sent: map<Id, Row>, minimum: nat)
    requires IdsProblem(ids, sent, minimum).None?
    ensures forall i :: i in ids ==> i in sent
    ensures |ids| >= minimum && !Repeats(ids)
  {
  }

  lemma SentCites(ids: seq<Id>, raw: Judgment, input: Input)
    requires forall i :: i in ids ==> i in input.sent && i in TouchedIds(raw)
    ensures forall r :: r in AtSent(ids, input.sent) ==> CitesSent(r, raw, input)
  {
    var refs := AtSent(ids, input.sent);
    forall r | r in refs ensures CitesSent(r, raw, input) {
      var k :| 0 <= k < |refs| && refs[k] == r;
      assert ids[k] in ids;
    }
  }

  lemma MergeParts(raw: Judgment, input: Input, rules: Rules) returns (create: Op)
    requires raw.kind.Merge? && MergeGroup(raw, input, rules).Ok?
    ensures forall i :: i in raw.ids ==> i in input.sent && i in TouchedIds(raw)
    ensures create.Create? && create.project == input.project && create.cites == AtSent(raw.ids, input.sent)
    ensures MergeGroup(raw, input, rules).value == Group(raw.ids, [create] + RetireAll(raw.ids, input.sent))
  {
    IdsStand(raw.ids, input.sent, 2);
    hide IdsProblem, TextProblem, Strip;
    create := MergeGroup(raw, input, rules).value.ops[0];
  }

  lemma ItemIs(i: Id, j: int, raw: Judgment, group: Group, input: Input)
    requires i in input.sent && i in TouchedIds(raw) && Names(group.ops, j, i)
    ensures IsItem(i, raw, group, input)
  {
  }

  lemma SafeIs(raw: Judgment, group: Group, input: Input, flagged: set<Id>)
    requires flagged !! TouchedIds(raw)
    requires forall i :: i in group.items ==> IsItem(i, raw, group, input)
    requires forall j :: 0 <= j < |group.ops| ==> OnSent(group.ops[j], group.items, input) && CitingSent(group.ops[j], raw, input)
    ensures Safe(raw, group, input, flagged)
  {
  }

  lemma RetiredIs(create: Op, raw: Judgment, input: Input, k: nat)
    requires (forall i :: i in raw.ids ==> i in input.sent) && k < |raw.ids|
    ensures var ops := [create] + RetireAll(raw.ids, input.sent);
            Names(ops, k + 1, raw.ids[k]) && OnSent(ops[k + 1], raw.ids, input) && CitingSent(ops[k + 1], raw, input)
  {
    assert ([create] + RetireAll(raw.ids, input.sent))[k + 1] == SoftDelete(raw.ids[k], input.sent[raw.ids[k]].version, None);
  }

  lemma CreateIs(create: Op, raw: Judgment, input: Input)
    requires create.Create? && create.project == input.project && forall r :: r in create.cites ==> CitesSent(r, raw, input)
    ensures OnSent(create, raw.ids, input) && CitingSent(create, raw, input)
  {
  }

  lemma MergeIsSafe(raw: Judgment, input: Input, rules: Rules, flagged: set<Id>)
    requires raw.kind.Merge? && flagged !! TouchedIds(raw) && MergeGroup(raw, input, rules).Ok?
    ensures Safe(raw, MergeGroup(raw, input, rules).value, input, flagged)
  {
    hide *;
    var create := MergeParts(raw, input, rules);
    SentCites(raw.ids, raw, input);
    CreateIs(create, raw, input);
    var group := Group(raw.ids, [create] + RetireAll(raw.ids, input.sent));
    forall i | i in group.items ensures IsItem(i, raw, group, input) {
      var k :| 0 <= k < |raw.ids| && raw.ids[k] == i;
      RetiredIs(create, raw, input, k);
      ItemIs(i, k + 1, raw, group, input);
    }
    forall j | 0 <= j < |group.ops| ensures OnSent(group.ops[j], group.items, input) && CitingSent(group.ops[j], raw, input) {
      if j > 0 { RetiredIs(create, raw, input, j - 1); }
    }
    SafeIs(raw, group, input, flagged);
  }

  lemma InSorted(refs: seq<Ref>, r: Ref)
    ensures r in Sorted(refs) <==> r in refs
  {
    assert r in Sorted(refs) <==> r in multiset(Sorted(refs));
    assert r in refs <==> r in multiset(refs);
  }

  lemma RewriteParts(raw: Judgment, input: Input, rules: Rules) returns (update: Op, current: seq<Ref>)
    requires raw.kind.Rewrite? && RewriteGroup(raw, input, rules).Ok?
    ensures raw.id.Some? && raw.id.value in input.sent && raw.id.value in TouchedIds(raw)
    ensures forall i :: i in raw.evidence ==> i in input.sent && i in TouchedIds(raw)
    ensures update.Update? && update.memory == raw.id.value && update.expected == input.sent[raw.id.value].version
    ensures update.newCites == Some(Sorted(KeptSources(current, raw.evidence) + AtSent(raw.evidence, input.sent)))
    ensures forall r :: r in current ==> raw.id.value in input.sources && r in input.sources[raw.id.value]
    ensures RewriteGroup(raw, input, rules).value == Group([raw.id.value], [update])
  {
    IdsStand(raw.evidence, input.sent, 1);
    hide IdsProblem, TextProblem, Strip, Sorted, KeptSources;
    update := RewriteGroup(raw, input, rules).value.ops[0];
    current := if raw.id.value in input.sources then input.sources[raw.id.value] else [];
  }

  lemma UpdateIs(update: Op, raw: Judgment, input: Input)
    requires update.Update? && raw.id.Some? && update.memory == raw.id.value && update.memory in input.sent
    requires update.expected == input.sent[update.memory].version && update.newCites.Some?
    requires forall r :: r in update.newCites.value ==> CitesSent(r, raw, input)
    ensures OnSent(update, [raw.id.value], input) && CitingSent(update, raw, input) && Names([update], 0, raw.id.value)
  {
  }

  lemma CurrentIs(r: Ref, raw: Judgment, input: Input)
    requires raw.id.Some? && raw.id.value in input.sources && r in input.sources[raw.id.value]
    ensures CitesSent(r, raw, input)
  {
  }

  lemma RewriteIsSafe(raw: Judgment, input: Input, rules: Rules, flagged: set<Id>)
    requires raw.kind.Rewrite? && flagged !! TouchedIds(raw) && RewriteGroup(raw, input, rules).Ok?
    ensures Safe(raw, RewriteGroup(raw, input, rules).value, input, flagged)
  {
    hide *;
    var update, current := RewriteParts(raw, input, rules);
    SentCites(raw.evidence, raw, input);
    forall r | r in update.newCites.value ensures CitesSent(r, raw, input) {
      InSorted(KeptSources(current, raw.evidence) + AtSent(raw.evidence, input.sent), r);
      if r !in AtSent(raw.evidence, input.sent) { CurrentIs(r, raw, input); }
    }
    UpdateIs(update, raw, input);
    var group := Group([raw.id.value], [update]);
    ItemIs(raw.id.value, 0, raw, group, input);
    SafeIs(raw, group, input, flagged);
  }

  lemma SupersedeIsSafe(raw: Judgment, input: Input, flagged: set<Id>)
    requires raw.kind.Supersede? && flagged !! TouchedIds(raw) && SupersedeGroup(raw, input).Ok?
    ensures Safe(raw, SupersedeGroup(raw, input).value, input, flagged)
  {
    assert Names(SupersedeGroup(raw, input).value.ops, 0, raw.id.value);
  }

  /**
   What is carried out names no flagged memory, as target, source or evidence; changes only memories
   that were sent, each at the version sent; and cites only what was sent or already cited.
   */
  lemma RulingIsSafe(raw: Judgment, input: Input, rules: Rules, flagged: set<Id>)
    requires !raw.kind.NoChange? && Ruling(raw, input, rules, flagged).None?
    ensures Plans(raw.kind) && GroupOf(raw, input, rules).Ok?
    ensures Safe(raw, GroupOf(raw, input, rules).value, input, flagged)
  {
    hide Safe, IdsProblem, TextProblem, ReasonFails;
    match raw.kind
    case Merge => MergeIsSafe(raw, input, rules, flagged);
    case Rewrite => RewriteIsSafe(raw, input, rules, flagged);
    case Supersede => SupersedeIsSafe(raw, input, flagged);
    case _ =>
  }

  // ---- which verdict ---------------------------------------------------------------------

  /** Every memory a judgment names was sent. */
  predicate NamesSent(raw: Judgment, sent: map<Id, Row>) {
    match raw.kind
    case Rewrite => raw.id.Some? && raw.id.value in sent && forall i :: i in raw.evidence ==> i in sent
    case Supersede => raw.id.Some? && raw.id.value in sent && raw.newer.Some? && raw.newer.value in sent
    case InstructionLike => forall i :: i in InstructionIds(raw) ==> i in sent
    case _ => forall i :: i in raw.ids ==> i in sent
  }

  /** It names enough of them, none twice. */
  predicate NamesEnough(raw: Judgment) {
    match raw.kind
    case Rewrite => |raw.evidence| >= 1 && !Repeats(raw.evidence)
    case Supersede => true
    case InstructionLike => |InstructionIds(raw)| >= 1 && !Repeats(InstructionIds(raw))
    case _ => |raw.ids| >= 2 && !Repeats(raw.ids)
  }

  predicate TextsStorable(raw: Judgment, rules: Rules) {
    raw.kind.Merge? || raw.kind.Rewrite? ==> rules.storable(raw.description) && rules.storable(raw.body)
  }

  /** What is left of the rules: texts with something in them, a type one of the ids has, no evidence for itself, a newer one that is newer. */
  predicate Fitting(raw: Judgment, sent: map<Id, Row>)
    requires NamesSent(raw, sent)
  {
    && (raw.kind.Merge? || raw.kind.Rewrite? ==> Strip(raw.description) != "" && Strip(raw.body) != "")
    && (raw.kind.Merge? ==> exists i :: i in raw.ids && raw.type_ == Some(sent[i].kind))
    && (raw.kind.Rewrite? ==> raw.id.value !in raw.evidence)
    && (raw.kind.Supersede? ==> raw.newer != raw.id && sent[raw.newer.value].updated > sent[raw.id.value].updated)
  }

  /** Of the rules, the first a judgment breaks. */
  ghost predicate Breaks(raw: Judgment, sent: map<Id, Row>, rules: Rules, problem: Option<Problem>) {
    match problem
    case Some(Invalid) => !NamesSent(raw, sent) || (NamesEnough(raw) && !TextsStorable(raw, rules))
    case Some(Refused) => NamesSent(raw, sent) && (!NamesEnough(raw) || (TextsStorable(raw, rules) && !Fitting(raw, sent)))
    case None => NamesSent(raw, sent) && NamesEnough(raw) && TextsStorable(raw, rules) && Fitting(raw, sent)
  }

  lemma IdsProblemIs(ids: seq<Id>, sent: map<Id, Row>, minimum: nat)
    ensures IdsProblem(ids, sent, minimum) == Some(Invalid) <==> !forall i :: i in ids ==> i in sent
    ensures IdsProblem(ids, sent, minimum).None? <==> (forall i :: i in ids ==> i in sent) && |ids| >= minimum && !Repeats(ids)
  {
  }

  lemma GroupBreaks(raw: Judgment, input: Input, rules: Rules)
    requires Plans(raw.kind)
    ensures Breaks(raw, input.sent, rules, ProblemOf(GroupOf(raw, input, rules)))
  {
    hide MergeGroup, RewriteGroup, SupersedeGroup, Breaks;
    match raw.kind
    case Merge => MergeBreaks(raw, input, rules);
    case Rewrite => RewriteBreaks(raw, input, rules);
    case Supersede => SupersedeBreaks(raw, input, rules);
  }

  lemma TextProblemIs(raw: Judgment, rules: Rules)
    ensures TextProblem(raw, rules)
         == if !rules.storable(raw.description) || !rules.storable(raw.body) then Some(Invalid)
            else if Strip(raw.description) == "" || Strip(raw.body) == "" then Some(Refused)
            else None
  {
    hide Strip;
  }

  lemma MergeAnswer(raw: Judgment, input: Input, rules: Rules)
    ensures var ids, text := IdsProblem(raw.ids, input.sent, 2), TextProblem(raw, rules);
            ProblemOf(MergeGroup(raw, input, rules))
            == if ids.Some? then ids
               else if text.Some? then text
               else if (forall i :: i in raw.ids && i in input.sent ==> raw.type_ != Some(input.sent[i].kind)) then Some(Refused)
               else None
  {
    IdsProblemIs(raw.ids, input.sent, 2);
    hide IdsProblem, TextProblem, Strip, AtSent, RetireAll;
  }

  /** The rules in the order they are looked at. */
  lemma BreaksIs(raw: Judgment, sent: map<Id, Row>, rules: Rules)
    ensures Breaks(raw, sent, rules, Some(Invalid)) <==> !NamesSent(raw, sent) || (NamesEnough(raw) && !TextsStorable(raw, rules))
    ensures Breaks(raw, sent, rules, Some(Refused)) <==>
              NamesSent(raw, sent) && (!NamesEnough(raw) || (TextsStorable(raw, rules) && !Fitting(raw, sent)))
    ensures Breaks(raw, sent, rules, None) <==> NamesSent(raw, sent) && NamesEnough(raw) && TextsStorable(raw, rules) && Fitting(raw, sent)
  {
    hide NamesSent, NamesEnough, TextsStorable, Fitting;
  }

  lemma MergeRules(raw: Judgment, sent: map<Id, Row>, rules: Rules)
    requires raw.kind.Merge?
    ensures NamesSent(raw, sent) <==> forall i :: i in raw.ids ==> i in sent
    ensures NamesEnough(raw) <==> |raw.ids| >= 2 && !Repeats(raw.ids)
    ensures TextsStorable(raw, rules) <==> rules.storable(raw.description) && rules.storable(raw.body)
    ensures NamesSent(raw, sent) ==>
              (Fitting(raw, sent) <==> Strip(raw.description) != "" && Strip(raw.body) != ""
                                       && exists i :: i in raw.ids && i in sent && raw.type_ == Some(sent[i].kind))
  {
    hide Repeats, Strip;
  }

  lemma MergeBreaks(raw: Judgment, input: Input, rules: Rules)
    requires raw.kind.Merge?
    ensures Breaks(raw, input.sent, rules, ProblemOf(MergeGroup(raw, input, rules)))
  {
    hide *;
    MergeAnswer(raw, input, rules);
    IdsProblemIs(raw.ids, input.sent, 2);
    TextProblemIs(raw, rules);
    BreaksIs(raw, input.sent, rules);
    MergeRules(raw, input.sent, rules);
    var p := ProblemOf(MergeGroup(raw, input, rules));
    assert p.Some? ==> p.value.Invalid? || p.value.Refused?;
  }

  lemma RewriteRules(raw: Judgment, sent: map<Id, Row>, rules: Rules)
    requires raw.kind.Rewrite?
    ensures NamesSent(raw, sent) <==> raw.id.Some? && raw.id.value in sent && forall i :: i in raw.evidence ==> i in sent
    ensures NamesEnough(raw) <==> |raw.evidence| >= 1 && !Repeats(raw.evidence)
    ensures TextsStorable(raw, rules) <==> rules.storable(raw.description) && rules.storable(raw.body)
    ensures NamesSent(raw, sent) ==>
              (Fitting(raw, sent) <==> Strip(raw.description) != "" && Strip(raw.body) != "" && raw.id.value !in raw.evidence)
  {
    hide Repeats, Strip;
  }

  lemma RewriteAnswer(raw: Judgment, input: Input, rules: Rules)
    ensures var ids, text := IdsProblem(raw.evidence, input.sent, 1), TextProblem(raw, rules);
            ProblemOf(RewriteGroup(raw, input, rules))
            == if raw.id.None? || raw.id.value !in input.sent then Some(Invalid)
               else if ids.Some? then ids
               else if text.Some? then text
               else if raw.id.value in raw.evidence then Some(Refused)
               else None
  {
    IdsProblemIs(raw.evidence, input.sent, 1);
    hide IdsProblem, TextProblem, Strip, AtSent, Sorted, KeptSources;
  }

  lemma RewriteBreaks(raw: Judgment, input: Input, rules: Rules)
    requires raw.kind.Rewrite?
    ensures Breaks(raw, input.sent, rules, ProblemOf(RewriteGroup(raw, input, rules)))
  {
    hide *;
    RewriteAnswer(raw, input, rules);
    IdsProblemIs(raw.evidence, input.sent, 1);
    TextProblemIs(raw, rules);
    BreaksIs(raw, input.sent, rules);
    RewriteRules(raw, input.sent, rules);
    var p := ProblemOf(RewriteGroup(raw, input, rules));
    assert p.Some? ==> p.value.Invalid? || p.value.Refused?;
  }

  lemma SupersedeBreaks(raw: Judgment, input: Input, rules: Rules)
    requires raw.kind.Supersede?
    ensures Breaks(raw, input.sent, rules, ProblemOf(SupersedeGroup(raw, input)))
  {
  }

  /** The verdict on each judgment, in terms of what it names and says. */
  lemma RulingIs(raw: Judgment, input: Input, rules: Rules, flagged: set<Id>)
    requires !raw.kind.NoChange?
    ensures var v, sent := Ruling(raw, input, rules, flagged), input.sent;
            var left, flags := Plans(raw.kind) && !(flagged !! TouchedIds(raw)), raw.kind.InstructionLike? && NamesSent(raw, sent) && NamesEnough(raw);
            && (v == Some(LeftAlone) <==> left)
            && (v == Some(Flagged) <==> flags)
            && (v == Some(Malformed) <==> !left && !flags && (ReasonFails(raw.reason, rules) || Breaks(raw, sent, rules, Some(Invalid))))
            && (v == Some(Declined) <==> !left && !flags && !ReasonFails(raw.reason, rules) && Breaks(raw, sent, rules, Some(Refused)))
            && (v == Some(Reported) <==> raw.kind.Contradiction? && !ReasonFails(raw.reason, rules) && Breaks(raw, sent, rules, None))
            && (v == None <==> Plans(raw.kind) && !left && !ReasonFails(raw.reason, rules) && Breaks(raw, sent, rules, None))
  {
    IdsProblemIs(raw.ids, input.sent, 2);
    IdsProblemIs(InstructionIds(raw), input.sent, 1);
    if Plans(raw.kind) { GroupBreaks(raw, input, rules); }
    hide IdsProblem, Repeats, GroupOf, TouchedIds, ReasonFails, InstructionIds;
  }

  // ---- what a plan does --------------------------------------------------------------------

  /** Deleted, and otherwise as it was. */
  ghost predicate Retired(t: Tables, t': Tables, i: Id) {
    && i in t.rows && i in t'.rows && t'.rows[i].deletedAt.Some?
    && StateOf(t', i, t'.rows[i]) == StateOf(t, i, t.rows[i]).(deleted := true)
  }

  /** No other memory has moved or appeared. */
  ghost predicate NoOther(t: Tables, t': Tables, ids: set<Id>) {
    forall i :: i !in ids ==> (i in t'.rows <==> i in t.rows) && (i in t.rows ==> t'.rows[i] == t.rows[i])
  }

  /** The older one is retired; the newer one, sent with a later time, is as it was. */
  ghost predicate Superseded(raw: Judgment, input: Input, t: Tables, t': Tables) {
    && raw.id.Some? && raw.newer.Some? && raw.id != raw.newer && raw.id.value in input.sent && raw.newer.value in input.sent
    && input.sent[raw.newer.value].updated > input.sent[raw.id.value].updated
    && Retired(t, t', raw.id.value) && NoOther(t, t', {raw.id.value})
  }

  /** One new memory, of a type one of them has, which cites each of them at the version sent; and all of them retired. */
  ghost predicate Merged(raw: Judgment, input: Input, t: Tables, t': Tables, new_: Id) {
    && |raw.ids| >= 2 && !Repeats(raw.ids) && (forall i :: i in raw.ids ==> i in input.sent && Retired(t, t', i))
    && new_ !in t.rows && new_ in t'.rows && t'.rows[new_].project == input.project && t'.rows[new_].version == 1
    && var s := StateOf(t', new_, t'.rows[new_]);
       && !s.deleted && s.description == Strip(raw.description) != "" && s.body == Strip(raw.body) != ""
       && raw.type_ == Some(s.kind) && (exists i :: i in raw.ids && input.sent[i].kind == s.kind)
       && (forall r :: r in s.sources <==> r.memory in raw.ids && r.version == input.sent[r.memory].version)
       && NoOther(t, t', SetOf(raw.ids) + {new_})
  }

  /** The new texts, which cite the evidence at the versions sent and what was cited before and is not evidence now. */
  ghost predicate Rewritten(raw: Judgment, input: Input, t: Tables, t': Tables) {
    && raw.id.Some? && raw.id.value in input.sent && raw.id.value !in raw.evidence && raw.evidence != []
    && (forall i :: i in raw.evidence ==> i in input.sent)
    && var m := raw.id.value;
       && m in t.rows && m in t'.rows && NoOther(t, t', {m})
       && var was, s := StateOf(t, m, t.rows[m]), StateOf(t', m, t'.rows[m]);
          && s.kind == was.kind && !s.deleted && s.description == Strip(raw.description) != "" && s.body == Strip(raw.body) != ""
          && forall r :: r in s.sources <==>
               if r.memory in raw.evidence then r.version == input.sent[r.memory].version
               else m in input.sources && r in input.sources[m]
  }

  /** What a judgment that was carried out did to the store. */
  ghost predicate CarriedOut(raw: Judgment, input: Input, t: Tables, t': Tables) {
    match raw.kind
    case Merge => exists new_ :: Merged(raw, input, t, t', new_)
    case Rewrite => Rewritten(raw, input, t, t')
    case Supersede => Superseded(raw, input, t, t')
    case _ => false
  }

  /** An operation of a committed change, seen from the memory it is about. */
  lemma RecordedAt(t: Tables, t': Tables, op: Op, c: Call, index: nat, step: Step)
    requires Inv(t) && Inv(t') && Wrote(t, t', op, c, index, step) && Accepts(t, op, None, c, index)
    ensures var m := Touched(op, c, index);
            && m in t'.rows && Records(t, op, StateOf(t', m, t'.rows[m])) && NewRow(t, op, c, t'.rows[m], StateOf(t', m, t'.rows[m]))
            && (if op.Create? then m !in t.rows
                else m == op.memory && m in t.rows && WasThere(t, op) && Was(t, op) == StateOf(t, m, t.rows[m]))
  {
    hide *;
    var s := AcceptsParts(t, op, None, c, index);
    RecordedNow(t, t', op, c, index, step);
    if !op.Create? { ThereBefore(t, op); }
    TouchedIs(op, c, index);
  }

  lemma RecordedNow(t: Tables, t': Tables, op: Op, c: Call, index: nat, step: Step)
    requires Inv(t') && Wrote(t, t', op, c, index, step)
    ensures var m := Touched(op, c, index);
            m in t'.rows && Records(t, op, StateOf(t', m, t'.rows[m])) && NewRow(t, op, c, t'.rows[m], StateOf(t', m, t'.rows[m]))
  {
    var m := Touched(op, c, index);
    InvSound(t');
    hide Inv, Records, StateOf;
    assert t'.rows[m].version == step.after;
    StoredState(t', m);
  }

  lemma StoredState(t: Tables, m: Id)
    requires Sound(t) && m in t.rows
    ensures Ref(m, t.rows[m].version) in t.versions && StateOf(t, m, t.rows[m]) == t.versions[Ref(m, t.rows[m].version)].state
  {
    assert RowOk(t, m);
    hide KeysOk, SourcesOk;
  }

  lemma ThereBefore(t: Tables, op: Op)
    requires Inv(t) && MayChange(t, None, op)
    ensures op.memory in t.rows && WasThere(t, op) && Was(t, op) == StateOf(t, op.memory, t.rows[op.memory])
  {
    InvSound(t);
    StoredState(t, op.memory);
    hide Inv, Sound, StateOf;
  }

  /** Those a change does not name stay as they are. */
  lemma OthersStay(t: Tables, t': Tables, ops: seq<Op>, c: Call, change: Change, ids: set<Id>)
    requires Recorded(t, t', ops, c, change, None) && Extends(t, t') && forall j :: 0 <= j < |ops| ==> Touched(ops[j], c, j) in ids
    ensures NoOther(t, t', ids)
  {
    hide *;
    RecordedIs(t, t', ops, c, change, None);
    forall s | s in change.steps ensures s.memory in ids {
      var j :| 0 <= j < |change.steps| && change.steps[j] == s;
      WroteRecords(t, t', ops[j], c, j, s);
    }
    UntouchedStay(t, t', change.steps, ids);
  }

  lemma UntouchedStay(t: Tables, t': Tables, steps: seq<Step>, ids: set<Id>)
    requires Untouched(t, t', steps) && Extends(t, t') && forall s :: s in steps ==> s.memory in ids
    ensures NoOther(t, t', ids)
  {
    forall i | i !in ids ensures !Touches(steps, i) {}
  }

  /** A change of the store, on its way from one state to the next. */
  ghost predicate Landed(t: Tables, t': Tables, ops: seq<Op>, c: Call, change: Change) {
    Inv(t) && ApplyOps(t, ops, None, c, None) == Ok((t', change))
  }

  lemma LandedParts(t: Tables, t': Tables, ops: seq<Op>, c: Call, change: Change)
    requires Landed(t, t', ops, c, change)
    ensures Inv(t) && Inv(t') && Extends(t, t') && Recorded(t, t', ops, c, change, None) && |change.steps| == |ops|
    ensures forall j :: 0 <= j < |ops| ==> Accepts(t, ops[j], None, c, j) && Wrote(t, t', ops[j], c, j, change.steps[j])
  {
    hide *;
    LandedIs(t, t', ops, c, change);
    ChangeDecides(t, ops, None, c, None);
    ApplyKeeps(t, ops, None, c, None);
    ChangedByParts(t, t', c.newId(0), change);
    AcceptableIs(t, ops, None, c);
    RecordedIs(t, t', ops, c, change, None);
  }

  lemma LandedIs(t: Tables, t': Tables, ops: seq<Op>, c: Call, change: Change)
    ensures Landed(t, t', ops, c, change) <==> Inv(t) && ApplyOps(t, ops, None, c, None) == Ok((t', change))
  {
    hide Inv, ApplyOps;
  }

  lemma RetiredBy(t: Tables, t': Tables, op: Op, c: Call, index: nat, step: Step)
    requires op.SoftDelete? && Inv(t) && Inv(t') && Wrote(t, t', op, c, index, step) && Accepts(t, op, None, c, index)
    ensures Retired(t, t', op.memory) && Touched(op, c, index) == op.memory
  {
    RecordedAt(t, t', op, c, index, step);
    hide Inv, Wrote, Accepts, StateOf, Was, WasThere;
    var m := op.memory;
    assert StateOf(t', m, t'.rows[m]) == StateOf(t, m, t.rows[m]).(deleted := true);
  }

  lemma SupersedeDoes(raw: Judgment, input: Input, t: Tables, t': Tables, c: Call, change: Change)
    requires SupersedeGroup(raw, input).Ok? && Landed(t, t', SupersedeGroup(raw, input).value.ops, c, change)
    ensures Superseded(raw, input, t, t')
  {
    hide *;
    var target := SupersedeParts(raw, input);
    var op := SoftDelete(target, input.sent[target].version, None);
    LandedParts(t, t', [op], c, change);
    assert [op][0] == op;
    RetiredBy(t, t', op, c, 0, change.steps[0]);
    OthersStay(t, t', [op], c, change, {target});
    SupersededIs(raw, input, t, t');
  }

  lemma SupersededIs(raw: Judgment, input: Input, t: Tables, t': Tables)
    requires raw.id.Some? && raw.newer.Some? && raw.id != raw.newer && raw.id.value in input.sent && raw.newer.value in input.sent
    requires input.sent[raw.newer.value].updated > input.sent[raw.id.value].updated
    requires Retired(t, t', raw.id.value) && NoOther(t, t', {raw.id.value})
    ensures Superseded(raw, input, t, t')
  {
    hide Retired, NoOther;
  }

  lemma SupersedeParts(raw: Judgment, input: Input) returns (target: Id)
    requires SupersedeGroup(raw, input).Ok?
    ensures raw.id == Some(target) && raw.newer.Some? && raw.id != raw.newer && target in input.sent && raw.newer.value in input.sent
    ensures input.sent[raw.newer.value].updated > input.sent[target].updated
    ensures SupersedeGroup(raw, input).value == Group([target], [SoftDelete(target, input.sent[target].version, None)])
  {
    target := raw.id.value;
  }

  lemma InAtSent(ids: seq<Id>, sent: map<Id, Row>, r: Ref)
    requires forall i :: i in ids ==> i in sent
    ensures r in AtSent(ids, sent) <==> r.memory in ids && r.version == sent[r.memory].version
  {
    var refs := AtSent(ids, sent);
    if r.memory in ids && r.version == sent[r.memory].version {
      var k :| 0 <= k < |ids| && ids[k] == r.memory;
      assert refs[k] == r;
    }
  }

  lemma MergeCreates(raw: Judgment, input: Input, rules: Rules) returns (create: Op, kind: Kind)
    requires MergeGroup(raw, input, rules).Ok?
    ensures |raw.ids| >= 2 && !Repeats(raw.ids) && forall i :: i in raw.ids ==> i in input.sent
    ensures Strip(raw.description) != "" && Strip(raw.body) != ""
    ensures raw.type_ == Some(kind) && exists i :: i in raw.ids && input.sent[i].kind == kind
    ensures create == Create(input.project, kind, Strip(raw.description), Strip(raw.body), AtSent(raw.ids, input.sent), Agent, true)
    ensures MergeGroup(raw, input, rules).value == Group(raw.ids, [create] + RetireAll(raw.ids, input.sent))
  {
    IdsStand(raw.ids, input.sent, 2);
    hide IdsProblem, Strip, Repeats;
    kind := raw.type_.value;
    create := MergeGroup(raw, input, rules).value.ops[0];
  }

  lemma MergeDoes(raw: Judgment, input: Input, rules: Rules, t: Tables, t': Tables, c: Call, change: Change)
    requires MergeGroup(raw, input, rules).Ok? && Landed(t, t', MergeGroup(raw, input, rules).value.ops, c, change)
    ensures Merged(raw, input, t, t', c.newId(1))
  {
    hide *;
    var create, kind := MergeCreates(raw, input, rules);
    var retire := RetireAll(raw.ids, input.sent);
    var ops := [create] + retire;
    LandedParts(t, t', ops, c, change);
    TouchedIs(create, c, 0);
    forall i | i in raw.ids ensures Retired(t, t', i) {
      var k :| 0 <= k < |raw.ids| && raw.ids[k] == i;
      assert ops[k + 1] == retire[k];
      RetiredBy(t, t', ops[k + 1], c, k + 1, change.steps[k + 1]);
    }
    forall j | 0 <= j < |ops| ensures Touched(ops[j], c, j) in SetOf(raw.ids) + {c.newId(1)} {
      if j > 0 {
        assert ops[j] == retire[j - 1];
        TouchedIs(ops[j], c, j);
        InSetOf(raw.ids, j - 1);
      }
    }
    OthersStay(t, t', ops, c, change, SetOf(raw.ids) + {c.newId(1)});
    RecordedAt(t, t', create, c, 0, change.steps[0]);
    MergedIs(raw, input, t, t', c, create, kind);
  }

  lemma InSetOf(ids: seq<Id>, k: nat)
    requires k < |ids|
    ensures ids[k] in SetOf(ids)
  {
  }

  lemma MergedIs(raw: Judgment, input: Input, t: Tables, t': Tables, c: Call, create: Op, kind: Kind)
    requires |raw.ids| >= 2 && !Repeats(raw.ids) && forall i :: i in raw.ids ==> i in input.sent && Retired(t, t', i)
    requires Strip(raw.description) != "" && Strip(raw.body) != ""
    requires raw.type_ == Some(kind) && exists i :: i in raw.ids && input.sent[i].kind == kind
    requires create == Create(input.project, kind, Strip(raw.description), Strip(raw.body), AtSent(raw.ids, input.sent), Agent, true)
    requires var m := c.newId(1);
             && m !in t.rows && m in t'.rows && NoOther(t, t', SetOf(raw.ids) + {m})
             && Records(t, create, StateOf(t', m, t'.rows[m])) && NewRow(t, create, c, t'.rows[m], StateOf(t', m, t'.rows[m]))
    ensures Merged(raw, input, t, t', c.newId(1))
  {
    hide *;
    var m := c.newId(1);
    var s := StateOf(t', m, t'.rows[m]);
    StripTwice(raw.description);
    StripTwice(raw.body);
    CreatedState(t, create, c, t'.rows[m], s);
    SameElements(s.sources, AtSent(raw.ids, input.sent));
    MergedUnfolds(raw, input, t, t', m);
    forall r ensures r in s.sources <==> r.memory in raw.ids && r.version == input.sent[r.memory].version { InAtSent(raw.ids, input.sent, r); }
  }

  lemma CreatedState(t: Tables, op: Op, c: Call, row: Row, s: State)
    requires op.Create? && Records(t, op, s) && NewRow(t, op, c, row, s)
    ensures s.kind == op.kind && !s.deleted && s.description == Strip(op.description) && s.body == Strip(op.body)
    ensures multiset(s.sources) == multiset(op.cites) && row.project == op.project && row.version == 1
  {
    hide Lowest, Strip;
  }

  lemma UpdatedState(t: Tables, op: Op, s: State)
    requires op.Update? && op.newDescription.Some? && op.newBody.Some? && op.newCites.Some? && Records(t, op, s)
    ensures WasThere(t, op) && s.kind == Was(t, op).kind && s.deleted == Was(t, op).deleted
    ensures s.description == Strip(op.newDescription.value) && s.body == Strip(op.newBody.value)
    ensures multiset(s.sources) == multiset(op.newCites.value)
  {
    hide Lowest, Strip;
  }

  lemma MergedUnfolds(raw: Judgment, input: Input, t: Tables, t': Tables, new_: Id)
    requires new_ in t'.rows
    ensures Merged(raw, input, t, t', new_) <==>
      && |raw.ids| >= 2 && !Repeats(raw.ids) && (forall i :: i in raw.ids ==> i in input.sent && Retired(t, t', i))
      && new_ !in t.rows && t'.rows[new_].project == input.project && t'.rows[new_].version == 1
      && var s := StateOf(t', new_, t'.rows[new_]);
         && !s.deleted && s.description == Strip(raw.description) != "" && s.body == Strip(raw.body) != ""
         && raw.type_ == Some(s.kind) && (exists i :: i in raw.ids && input.sent[i].kind == s.kind)
         && (forall r :: r in s.sources <==> r.memory in raw.ids && r.version == input.sent[r.memory].version)
         && NoOther(t, t', SetOf(raw.ids) + {new_})
  {
    hide Repeats, Retired, NoOther, Strip, StateOf;
  }

  lemma RewriteUpdates(raw: Judgment, input: Input, rules: Rules) returns (update: Op, current: seq<Ref>)
    requires RewriteGroup(raw, input, rules).Ok?
    ensures raw.id.Some? && raw.id.value in input.sent && raw.id.value !in raw.evidence && raw.evidence != []
    ensures forall i :: i in raw.evidence ==> i in input.sent
    ensures Strip(raw.description) != "" && Strip(raw.body) != ""
    ensures current == if raw.id.value in input.sources then input.sources[raw.id.value] else []
    ensures update == Update(raw.id.value, input.sent[raw.id.value].version, Some(Strip(raw.description)), Some(Strip(raw.body)),
                             Some(Sorted(KeptSources(current, raw.evidence) + AtSent(raw.evidence, input.sent))))
    ensures RewriteGroup(raw, input, rules).value == Group([raw.id.value], [update])
  {
    IdsStand(raw.evidence, input.sent, 1);
    hide IdsProblem, Strip, Repeats, Sorted, KeptSources;
    current := if raw.id.value in input.sources then input.sources[raw.id.value] else [];
    update := RewriteGroup(raw, input, rules).value.ops[0];
  }

  lemma RewriteDoes(raw: Judgment, input: Input, rules: Rules, t: Tables, t': Tables, c: Call, change: Change)
    requires RewriteGroup(raw, input, rules).Ok? && Landed(t, t', RewriteGroup(raw, input, rules).value.ops, c, change)
    ensures Rewritten(raw, input, t, t')
  {
    hide *;
    var op, current := RewriteUpdates(raw, input, rules);
    LandedParts(t, t', [op], c, change);
    assert [op][0] == op;
    TouchedIs(op, c, 0);
    OthersStay(t, t', [op], c, change, {op.memory});
    RecordedAt(t, t', op, c, 0, change.steps[0]);
    NotDeleted(t, op, c);
    RewrittenIs(raw, input, t, t', c, op, current);
  }

  lemma NotDeleted(t: Tables, op: Op, c: Call)
    requires op.Update? && Accepts(t, op, None, c, 0)
    ensures op.memory in t.rows && t.rows[op.memory].deletedAt.None?
  {
    hide Records;
  }

  lemma RewrittenIs(raw: Judgment, input: Input, t: Tables, t': Tables, c: Call, op: Op, current: seq<Ref>)
    requires raw.id.Some? && raw.id.value in input.sent && raw.id.value !in raw.evidence && raw.evidence != []
    requires forall i :: i in raw.evidence ==> i in input.sent
    requires Strip(raw.description) != "" && Strip(raw.body) != ""
    requires current == if raw.id.value in input.sources then input.sources[raw.id.value] else []
    requires op == Update(raw.id.value, input.sent[raw.id.value].version, Some(Strip(raw.description)), Some(Strip(raw.body)),
                          Some(Sorted(KeptSources(current, raw.evidence) + AtSent(raw.evidence, input.sent))))
    requires var m := raw.id.value;
             && m in t.rows && t.rows[m].deletedAt.None? && m in t'.rows && NoOther(t, t', {m})
             && WasThere(t, op) && Was(t, op) == StateOf(t, m, t.rows[m]) && Records(t, op, StateOf(t', m, t'.rows[m]))
    ensures Rewritten(raw, input, t, t')
  {
    hide *;
    var m := raw.id.value;
    var s, cited := StateOf(t', m, t'.rows[m]), KeptSources(current, raw.evidence) + AtSent(raw.evidence, input.sent);
    StripTwice(raw.description);
    StripTwice(raw.body);
    UpdatedState(t, op, s);
    SameElements(s.sources, Sorted(cited));
    StateDeleted(t, m);
    forall r
      ensures r in s.sources <==> if r.memory in raw.evidence then r.version == input.sent[r.memory].version
                                  else m in input.sources && r in input.sources[m]
    {
      InSorted(cited, r);
      InAtSent(raw.evidence, input.sent, r);
    }
    RewrittenUnfolds(raw, input, t, t');
  }

  lemma RewrittenUnfolds(raw: Judgment, input: Input, t: Tables, t': Tables)
    requires raw.id.Some? && raw.id.value in input.sent && raw.id.value !in raw.evidence && raw.evidence != []
    requires forall i :: i in raw.evidence ==> i in input.sent
    requires raw.id.value in t.rows && raw.id.value in t'.rows && NoOther(t, t', {raw.id.value})
    requires var m := raw.id.value;
             var was, s := StateOf(t, m, t.rows[m]), StateOf(t', m, t'.rows[m]);
             && s.kind == was.kind && !s.deleted && s.description == Strip(raw.description) != "" && s.body == Strip(raw.body) != ""
             && forall r :: r in s.sources <==>
                  if r.memory in raw.evidence then r.version == input.sent[r.memory].version
                  else m in input.sources && r in input.sources[m]
    ensures Rewritten(raw, input, t, t')
  {
    hide NoOther, Strip, StateOf;
  }

  lemma StateDeleted(t: Tables, m: Id)
    requires m in t.rows
    ensures StateOf(t, m, t.rows[m]).deleted == t.rows[m].deletedAt.Some?
  {
  }

  /** Whatever a judgment was carried out as is what it says. */
  lemma GroupDoes(raw: Judgment, input: Input, rules: Rules, t: Tables, t': Tables, c: Call, change: Change)
    requires Plans(raw.kind) && GroupOf(raw, input, rules).Ok? && Landed(t, t', GroupOf(raw, input, rules).value.ops, c, change)
    ensures CarriedOut(raw, input, t, t')
  {
    hide Landed, MergeGroup, RewriteGroup, SupersedeGroup, Merged, Rewritten, Superseded;
    match raw.kind
    case Merge => MergeDoes(raw, input, rules, t, t', c, change);
    case Rewrite => RewriteDoes(raw, input, rules, t, t', c, change);
    case Supersede => SupersedeDoes(raw, input, t, t', c, change);
  }

  // ---- the pass ----------------------------------------------------------------------------

  /** The store lives through calls of others. */
  method Replay(store: M.Store, events: seq<Event>)
    requires Inv(store.Contents())
    modifies store
    ensures store.Contents() == Run(old(store.Contents()), events) && Inv(store.Contents())
  {
    hide Inv, After;
    ghost var start := store.Contents();
    var i := 0;
    while i < |events|
      invariant i <= |events| && store.Contents() == Run(start, events[..i]) && Inv(store.Contents())
    {
      assert events[..i + 1][..i] == events[..i];
      AfterKeeps(store.Contents(), events[i]);
      One(store, events[i]);
      i := i + 1;
    }
    assert events[..i] == events;
  }

  lemma InvIsSound(t: Tables)
    requires Inv(t)
    ensures Sound(t)
  {
  }

  method One(store: M.Store, e: Event)
    requires Inv(store.Contents())
    modifies store
    ensures store.Contents() == After(old(store.Contents()), e)
  {
    AfterIs(store.Contents(), e);
    InvIsSound(store.Contents());
    hide Inv, Sound, ApplyOps, Undo, Write;
    match e
    case AddProject(id, isGlobal) =>
      if id !in store.projects { store.projects := store.projects[id := isGlobal]; }
    case Applying(ops, c) => var _ := store.Apply(ops, c);
    case Undoing(change, c) => var _ := store.UndoChange(change, c);
    case AgentWriting(op, rw, c) => var _ := store.AgentWrite(op, rw, c);
    case HardDeleting(target, expected, code, hash) => var _ := store.HardDelete(target, expected, code, hash);
    case Reading(id, at) => store.Touch(id, at);
  }

  /** The version sent is past. */
  ghost predicate Past(t: Tables, sent: map<Id, Row>, i: Id) {
    i in sent && (i in t.rows ==> t.rows[i].version > sent[i].version)
  }

  ghost predicate AllPast(t: Tables, sent: map<Id, Row>, done: seq<seq<Id>>) {
    forall g, i :: 0 <= g < |done| && i in done[g] ==> Past(t, sent, i)
  }

  ghost predicate Disjoint(done: seq<seq<Id>>) {
    forall a, b, i :: 0 <= a < b < |done| && i in done[a] ==> i !in done[b]
  }

  lemma StaysPast(t: Tables, events: seq<Event>, sent: map<Id, Row>, done: seq<seq<Id>>)
    requires AllPast(t, sent, done) && forall e, m :: e in events && m in sent ==> EventSpares(e, m)
    ensures AllPast(Run(t, events), sent, done)
  {
    forall g, i | 0 <= g < |done| && i in done[g] ensures Past(Run(t, events), sent, i) {
      assert Past(t, sent, i);
      RunIsForward(t, events, i);
    }
  }

  lemma LandedIsPast(t: Tables, group: Group, raw: Judgment, input: Input, flagged: set<Id>, c: Call, done: seq<seq<Id>>)
    requires Safe(raw, group, input, flagged) && (forall m :: m in input.sent ==> Spares(c, m))
    requires AllPast(t, input.sent, done) && Disjoint(done) && ApplyOps(t, group.ops, None, c, None).Ok?
    ensures AllPast(ApplyOps(t, group.ops, None, c, None).value.0, input.sent, done + [group.items])
    ensures Disjoint(done + [group.items])
    ensures forall i :: i in group.items ==> i in input.sent && i in t.rows && t.rows[i].version == input.sent[i].version
  {
    hide ApplyOps, Spares, TouchedIds;
    var t' := ApplyOps(t, group.ops, None, c, None).value.0;
    forall i | i in group.items
      ensures i in input.sent && i in t.rows && t.rows[i].version == input.sent[i].version && Past(t', input.sent, i)
    {
      ChangeLands(t, group.ops, None, c, None, i);
      var j :| Names(group.ops, j, i);
      assert OnSent(group.ops[j], group.items, input);
    }
    forall g, i | 0 <= g < |done| && i in done[g] ensures Past(t', input.sent, i) && i !in group.items {
      assert Past(t, input.sent, i);
      ChangeIsForward(t, group.ops, None, c, None, i);
    }
  }

  function Judged(judgments: seq<Judgment>): (kept: seq<Judgment>)
    ensures forall raw :: raw in kept <==> raw in judgments && !raw.kind.NoChange?
  {
    if judgments == [] then []
    else (if judgments[0].kind.NoChange? then [] else [judgments[0]]) + Judged(judgments[1..])
  }

  /** No no-change answer hides a reason that fails its checks. */
  predicate NoChangeFine(judgments: seq<Judgment>, rules: Rules) {
    forall raw :: raw in judgments && raw.kind.NoChange? ==> !ReasonFails(raw.reason, rules)
  }

  /** The verdict given is the ruling, or says whether the plan could be carried out. */
  ghost predicate Fits(v: Verdict, raw: Judgment, input: Input, rules: Rules, flagged: set<Id>) {
    !raw.kind.NoChange?
    && match Ruling(raw, input, rules, flagged) case Some(r) => v == r case None => v.Carried? || v.NotCarried?
  }

  /** A flag, wherever it stands among the judgments, keeps the pass from finishing. */
  lemma FlagUnfinishes(judgments: seq<Judgment>, input: Input, rules: Rules, log: seq<Entry>)
    requires |log| == |judgments|
    requires forall k :: 0 <= k < |judgments| ==> Fits(log[k].verdict, judgments[k], input, rules, FlaggedIds(judgments, input.sent))
    requires FlaggedIds(judgments, input.sent) != {}
    ensures exists k :: 0 <= k < |log| && log[k].verdict.Flagged?
  {
    var i :| i in FlaggedIds(judgments, input.sent);
    var raw :| raw in judgments && Flags(raw, input.sent) && i in InstructionIds(raw);
    var k :| 0 <= k < |judgments| && judgments[k] == raw;
    assert Fits(log[k].verdict, judgments[k], input, rules, FlaggedIds(judgments, input.sent));
    assert log[k].verdict.Flagged?;
  }

  datatype PassResult = PassResult(finished: bool, digest: Option<string>)

  /** A judgment of the pass: what came of it, what the store held and holds then; `at` is the turn of the others before it. */
  datatype Entry = Entry(raw: Judgment, verdict: Verdict, found: Tables, left: Tables, at: Option<nat>, call: Call, used: nat)

  /** A pass that finished over judgments that were all carried out, reported, or refused by a rule. */
  ghost predicate Clean(judgments: seq<Judgment>, input: Input, rules: Rules, log: seq<Entry>) {
    && NoChangeFine(judgments, rules) && FlaggedIds(Judged(judgments), input.sent) == {}
    && |log| == |Judged(judgments)|
    && forall k :: 0 <= k < |log| ==> log[k].verdict.Carried? || log[k].verdict.Declined? || log[k].verdict.Reported?
  }

  /**
   A plan that was carried out names no flagged memory, as the item, as evidence or as the newer one;
   each of its operations acts at a version sent and cites what was sent; at those versions it found its
   memories; and it did to the store what the judgment says.
   */
  ghost predicate WasRight(e: Entry, group: Group, input: Input, flagged: set<Id>) {
    && Safe(e.raw, group, input, flagged) && CarriedOut(e.raw, input, e.found, e.left)
    && forall i :: i in group.items ==> i in input.sent && i in e.found.rows && e.found.rows[i].version == input.sent[i].version
  }

  /** What came of one judgment, and that nothing else was done for it. */
  ghost predicate Told(e: Entry, input: Input, rules: Rules, flagged: set<Id>, limit: nat) {
    && Fits(e.verdict, e.raw, input, rules, flagged)
    && (match e.verdict
        case Carried => e.used < limit && WasRight(e, GroupOf(e.raw, input, rules).value, input, flagged)
        case NotCarried => e.left == e.found && (e.used >= limit || !Acceptable(e.found, GroupOf(e.raw, input, rules).value.ops, None, e.call))
        case _ => e.left == e.found)
  }

  lemma FitsPlans(v: Verdict, raw: Judgment, input: Input, rules: Rules, flagged: set<Id>)
    requires Fits(v, raw, input, rules, flagged) && (v.Carried? || v.NotCarried?)
    ensures Plans(raw.kind) && GroupOf(raw, input, rules).Ok?
  {
    hide GroupOf, TouchedIds, ReasonFails, IdsProblem, InstructionIds;
  }

  /** Of the judgments, in their order. */
  ghost predicate AllTold(log: seq<Entry>, kept: seq<Judgment>, input: Input, rules: Rules, flagged: set<Id>, limit: nat) {
    |log| <= |kept| && forall k :: 0 <= k < |log| ==> log[k].raw == kept[k] && Told(log[k], input, rules, flagged, limit)
  }

  /** The memories of a plan that was carried out. */
  ghost function ItemsOf(e: Entry, input: Input, rules: Rules): seq<seq<Id>> {
    if e.verdict.Carried? && Plans(e.raw.kind) && GroupOf(e.raw, input, rules).Ok? then [GroupOf(e.raw, input, rules).value.items] else []
  }

  ghost function DoneBy(log: seq<Entry>, input: Input, rules: Rules): seq<seq<Id>> {
    if log == [] then [] else DoneBy(log[..|log| - 1], input, rules) + ItemsOf(log[|log| - 1], input, rules)
  }

  /** The store after some judgments. */
  ghost function LeftBy(start: Tables, log: seq<Entry>): Tables { if log == [] then start else log[|log| - 1].left }

  /** Between two judgments only others act, and how many were carried out by then is counted. */
  ghost predicate Linked(start: Tables, log: seq<Entry>, others: nat -> seq<Event>, used: nat) {
    log != [] ==>
      var earlier, last := log[..|log| - 1], log[|log| - 1];
      && Linked(start, earlier, others, used) && last.used == used + CarriedIn(earlier)
      && last.found == if last.at.Some? then Run(LeftBy(start, earlier), others(last.at.value)) else LeftBy(start, earlier)
  }

  ghost function CarriedIn(log: seq<Entry>): nat {
    if log == [] then 0 else CarriedIn(log[..|log| - 1]) + if log[|log| - 1].verdict.Carried? then 1 else 0
  }

  lemma NoneTold(start: Tables, kept: seq<Judgment>, input: Input, rules: Rules, flagged: set<Id>, limit: nat, others: nat -> seq<Event>, used: nat)
    ensures AllTold([], kept, input, rules, flagged, limit) && DoneBy([], input, rules) == [] && Linked(start, [], others, used) && CarriedIn([]) == 0
  {
  }

  lemma OneTold(start: Tables, log: seq<Entry>, kept: seq<Judgment>, input: Input, rules: Rules, flagged: set<Id>, limit: nat,
                others: nat -> seq<Event>, used: nat, e: Entry)
    requires AllTold(log, kept, input, rules, flagged, limit) && |log| < |kept| && e.raw == kept[|log|] && Told(e, input, rules, flagged, limit)
    requires Linked(start, log, others, used) && e.used == used + CarriedIn(log)
    requires e.found == if e.at.Some? then Run(LeftBy(start, log), others(e.at.value)) else LeftBy(start, log)
    ensures AllTold(log + [e], kept, input, rules, flagged, limit) && Linked(start, log + [e], others, used)
    ensures LeftBy(start, log + [e]) == e.left && CarriedIn(log + [e]) == CarriedIn(log) + if e.verdict.Carried? then 1 else 0
    ensures DoneBy(log + [e], input, rules) == DoneBy(log, input, rules) + ItemsOf(e, input, rules)
  {
    hide *;
    MoreTold(log, kept, input, rules, flagged, limit, e);
    MoreLinked(start, log, others, used, e);
    MoreDone(log, input, rules, e);
  }

  lemma MoreTold(log: seq<Entry>, kept: seq<Judgment>, input: Input, rules: Rules, flagged: set<Id>, limit: nat, e: Entry)
    requires AllTold(log, kept, input, rules, flagged, limit) && |log| < |kept| && e.raw == kept[|log|] && Told(e, input, rules, flagged, limit)
    ensures AllTold(log + [e], kept, input, rules, flagged, limit)
  {
    hide Told;
  }

  lemma MoreLinked(start: Tables, log: seq<Entry>, others: nat -> seq<Event>, used: nat, e: Entry)
    requires Linked(start, log, others, used) && e.used == used + CarriedIn(log)
    requires e.found == if e.at.Some? then Run(LeftBy(start, log), others(e.at.value)) else LeftBy(start, log)
    ensures Linked(start, log + [e], others, used) && LeftBy(start, log + [e]) == e.left
    ensures CarriedIn(log + [e]) == CarriedIn(log) + if e.verdict.Carried? then 1 else 0
  {
    hide Run;
    var more := log + [e];
    assert more[..|more| - 1] == log;
  }

  lemma MoreDone(log: seq<Entry>, input: Input, rules: Rules, e: Entry)
    ensures DoneBy(log + [e], input, rules) == DoneBy(log, input, rules) + ItemsOf(e, input, rules)
  {
    hide ItemsOf;
    var more := log + [e];
    assert more[..|more| - 1] == log;
  }

  class Pass {
    const store: M.Store
    const rules: Rules
    const limit: nat
    const others: nat -> seq<Event>      // what others do before each group
    const calls: nat -> Call
    var tick: nat
    var used: nat
    var excluded: set<Id>
    var digests: map<string, string>     // the digest stored for each scope
    ghost var done: seq<seq<Id>>         // the memories each applied group changed
    ghost var log: seq<Entry>            // and each judgment of the pass

    constructor (store: M.Store, rules: Rules, limit: nat, others: nat -> seq<Event>, calls: nat -> Call)
      ensures this.store == store && this.rules == rules && this.limit == limit && this.others == others && this.calls == calls
      ensures used == 0 && excluded == {} && digests == map[] && done == [] && log == []
    {
      this.store, this.rules, this.limit, this.others, this.calls := store, rules, limit, others, calls;
      tick, used, excluded, digests, done, log := 0, 0, {}, map[], [], [];
    }

    /** Ids are random: no call draws one of a memory that was sent. */
    ghost predicate IdsSpared(sent: map<Id, Row>) {
      && (forall n, m :: m in sent ==> Spares(calls(n), m))
      && forall n, e, m :: e in others(n) && m in sent ==> EventSpares(e, m)
    }

    /** Each memory was changed by one group at most, and what was changed is past its version sent. */
    ghost predicate OnceEach(input: Input)
      reads this, store
    {
      Inv(store.Contents()) && AllPast(store.Contents(), input.sent, done) && Disjoint(done) && used <= limit
    }

    /** `apply_group`: none beyond the limit, and otherwise carried out unless the store as it is by then refuses it. */
    method Carry(raw: Judgment, group: Group, input: Input, ghost flagged: set<Id>) returns (ok: bool, ghost e: Entry)
      requires OnceEach(input) && IdsSpared(input.sent) && Safe(raw, group, input, flagged)
      requires Plans(raw.kind) && GroupOf(raw, input, rules) == Ok(group)
      modifies this, store
      ensures OnceEach(input) && excluded == old(excluded) && log == old(log) && digests == old(digests)
      ensures done == old(done) + (if ok then [group.items] else []) && used == old(used) + if ok then 1 else 0
      ensures e.raw == raw && e.used == old(used) && e.left == store.Contents() && (e.at.None? <==> e.used >= limit)
      ensures e.found == if e.at.Some? then Run(old(store.Contents()), others(e.at.value)) else old(store.Contents())
      ensures if ok then e.verdict.Carried? && e.used < limit && WasRight(e, group, input, flagged)
              else e.verdict.NotCarried? && e.left == e.found && (e.used >= limit || !Acceptable(e.found, group.ops, None, e.call))
    {
      hide Inv, Safe, AllPast, Disjoint, ApplyOps, Spares, Acceptable, CarriedOut, Recorded, AllApart, Justified, GroupOf;
      var c := calls(tick);
      ghost var start := store.Contents();
      if used >= limit { return false, Entry(raw, NotCarried, start, start, None, c, used); }
      StaysPast(store.Contents(), others(tick), input.sent, done);
      Replay(store, others(tick));
      ghost var t, turn, before := store.Contents(), tick, used;
      assert ApplyOps(t, group.ops, None, c, None).Ok? ==> LandedGroup(t, group, raw, input, flagged, c, done) by {
        if ApplyOps(t, group.ops, None, c, None).Ok? { LandedIsPast(t, group, raw, input, flagged, c, done); }
      }
      assert ApplyOps(t, group.ops, None, c, None).Ok? ==> CarriedOut(raw, input, t, ApplyOps(t, group.ops, None, c, None).value.0) by {
        if ApplyOps(t, group.ops, None, c, None).Ok? { OpsDo(raw, input, rules, t, c); }
      }
      var applied := store.Apply(group.ops, c);
      tick := tick + 1;
      ok := applied.Ok?;
      e := Entry(raw, if ok then Carried else NotCarried, t, store.Contents(), Some(turn), c, before);
      if ok {
        used := used + 1;
        done := done + [group.items];
      }
    }

    /** One judgment. */
    method Judge(raw: Judgment, input: Input, flagged: set<Id>) returns (v: Verdict, ghost e: Entry)
      requires OnceEach(input) && IdsSpared(input.sent) && !raw.kind.NoChange?
      modifies this, store
      ensures OnceEach(input) && log == old(log) && digests == old(digests)
      ensures e.raw == raw && e.verdict == v && e.used == old(used) && e.left == store.Contents() && Told(e, input, rules, flagged, limit)
      ensures e.found == if e.at.Some? then Run(old(store.Contents()), others(e.at.value)) else old(store.Contents())
      ensures excluded == old(excluded) + if v.Flagged? then SetOf(InstructionIds(raw)) else {}
      ensures used == old(used) + if v.Carried? then 1 else 0
      ensures done == old(done) + ItemsOf(e, input, rules)
    {
      hide Inv, AllPast, Disjoint, IdsSpared, Safe, WasRight, GroupOf, Acceptable, TouchedIds, ReasonFails;
      var ruling := Ruling(raw, input, rules, flagged);
      if ruling.Some? {
        v := ruling.value;
        if v.Flagged? { excluded := excluded + SetOf(InstructionIds(raw)); }
        e := Entry(raw, v, store.Contents(), store.Contents(), None, calls(tick), used);
        NotTried(v, raw, input, rules, flagged);
      } else {
        RulingIsSafe(raw, input, rules, flagged);
        var group := GroupOf(raw, input, rules).value;
        var ok;
        ok, e := Carry(raw, group, input, flagged);
        v := if ok then Carried else NotCarried;
      }
    }

    /** The judgments of an answer, in order; flags are collected before any of them runs. */
    method JudgeAll(judgments: seq<Judgment>, input: Input) returns (finished: bool)
      requires OnceEach(input) && IdsSpared(input.sent) && done == [] && log == []
      modifies this, store
      ensures OnceEach(input) && digests == old(digests)
      ensures finished <==> Clean(judgments, input, rules, log)
      ensures |log| == |Judged(judgments)|
              && AllTold(log, Judged(judgments), input, rules, FlaggedIds(Judged(judgments), input.sent), limit)
      ensures Linked(old(store.Contents()), log, others, old(used)) && store.Contents() == LeftBy(old(store.Contents()), log)
      ensures done == DoneBy(log, input, rules) && used == old(used) + CarriedIn(log)
      ensures excluded == old(excluded) + FlaggedIds(Judged(judgments), input.sent)
    {
      hide Inv, AllPast, Disjoint, IdsSpared, Ruling, FlaggedIds, AllTold, Told, Fits, DoneBy, ItemsOf, Linked, CarriedIn, Run, GroupOf;
      var kept := Judged(judgments);
      finished := NoChangeFine(judgments, rules);
      var flagged := FlaggedIds(kept, input.sent);
      ghost var start, before := store.Contents(), used;
      var k := 0;
      NoneFlagged(input.sent);
      NoneTold(start, kept, input, rules, flagged, limit, others, before);
      assert kept[..0] == [];
      while k < |kept|
        invariant k <= |kept| && OnceEach(input) && |log| == k && digests == old(digests)
        invariant finished <==> NoChangeFine(judgments, rules) && forall e :: e in log ==> Fine(e.verdict)
        invariant AllTold(log, kept, input, rules, flagged, limit) && Linked(start, log, others, before)
        invariant store.Contents() == LeftBy(start, log) && done == DoneBy(log, input, rules) && used == before + CarriedIn(log)
        invariant excluded == old(excluded) + FlaggedIds(kept[..k], input.sent)
      {
        FlaggedMore(kept, k, input, rules, flagged);
        assert kept[k] in kept;
        ghost var earlier := log;
        ghost var e: Entry;
        var v;
        v, e := Judge(kept[k], input, flagged);
        ToldFits(e, input, rules, flagged, limit);
        OneTold(start, earlier, kept, input, rules, flagged, limit, others, before, e);
        log := log + [e];
        finished := finished && Fine(v);
        k := k + 1;
      }
      assert kept[..k] == kept;
      ToldAll(log, kept, input, rules, flagged, limit);
      CleanIff(judgments, input, rules, log);
    }

    /** What a pass works on: the scope's memories, not deleted and not excluded. */
    function Usable(project: Id): (sent: map<Id, Row>)
      reads this, store
    {
      map i | i in store.rows && store.rows[i].project == project && Kernel.Joined(store.Contents(), i, false).Some? && i !in excluded
        :: store.rows[i]
    }

    /**
     `run`, and `_passed` after it: others act between the listing and the sources, and before each
     group. Nothing is asked about an empty or an unchanged scope, nor once a memory is gone; otherwise the
     answer is judged. A digest is stored only for a pass every judgment of which came to a good end.
     */
    method RunScope(scope: string, project: Id, digest: map<Id, int> -> string, meanwhile: seq<Event>, answer: Option<seq<Judgment>>)
      returns (result: PassResult, ghost input: Input)
      requires Inv(store.Contents()) && used <= limit
      requires IdsSpared(store.rows) && forall e, m :: e in meanwhile && m in store.rows ==> EventSpares(e, m)
      modifies this, store
      ensures Inv(store.Contents()) && used <= limit && Disjoint(done) && input.sent == old(Usable(project)) && input.project == project
      ensures var sent, d := old(Usable(project)), digest(Versions(old(Usable(project))));
              var asked := Run(old(store.Contents()), meanwhile);
              if sent == map[] then Quiet(result, true, None) && store.Contents() == old(store.Contents()) && digests == old(digests)
              else if scope in old(digests) && old(digests)[scope] == d then
                Quiet(result, true, None) && store.Contents() == old(store.Contents()) && digests == old(digests)
              else if exists i :: i in sent && i !in asked.rows then
                Quiet(result, false, None) && store.Contents() == asked && digests == old(digests)
              else if answer.None? then Quiet(result, false, Some(d)) && store.Contents() == asked && digests == old(digests)
              else
                var flagged := FlaggedIds(Judged(answer.value), sent);
                && (forall i :: i in sent ==> i in input.sources && input.sources[i] == SourcesOf(asked, Ref(i, sent[i].version)))
                && result == PassResult(Clean(answer.value, input, rules, log), Some(d))
                && |log| == |Judged(answer.value)| && AllTold(log, Judged(answer.value), input, rules, flagged, limit)
                && Linked(asked, log, others, old(used)) && store.Contents() == LeftBy(asked, log)
                && done == DoneBy(log, input, rules) && excluded == old(excluded) + flagged
                && digests == if result.finished then old(digests)[scope := d] else old(digests)
    {
      hide Inv, AllPast, Disjoint, Clean, AllTold, FlaggedIds, Linked, DoneBy, Run, CarriedIn, Judged;
      done, log := [], [];
      NothingDone();
      var sent := Usable(project);
      input := Input(project, sent, map[]);
      if sent == map[] { return PassResult(true, None), input; }
      var d := digest(Versions(sent));
      if scope in digests && digests[scope] == d { return PassResult(true, None), input; }
      SubsetSpared(sent);
      Replay(store, meanwhile);
      if exists i :: i in sent && i !in store.rows { return PassResult(false, None), input; }
      var asked := Input(project, sent, map i | i in sent :: SourcesOf(store.Contents(), Ref(i, sent[i].version)));
      input := asked;
      if answer.None? { return PassResult(false, Some(d)), input; }
      NothingPast(store.Contents(), sent);
      var finished := JudgeAll(answer.value, asked);
      result := PassResult(finished, Some(d));
      if finished { digests := digests[scope := d]; }
    }

    /** Nothing was judged. */
    ghost predicate Quiet(result: PassResult, finished: bool, digest: Option<string>)
      reads this
    {
      result == PassResult(finished, digest) && log == [] && done == []
    }

    lemma SubsetSpared(sent: map<Id, Row>)
      requires IdsSpared(store.rows) && forall m :: m in sent ==> m in store.rows
      ensures IdsSpared(sent)
    {
    }
  }

  /** What comes of a plan in a store that takes it. */
  lemma OpsDo(raw: Judgment, input: Input, rules: Rules, t: Tables, c: Call)
    requires Inv(t) && Plans(raw.kind) && GroupOf(raw, input, rules).Ok? && ApplyOps(t, GroupOf(raw, input, rules).value.ops, None, c, None).Ok?
    ensures CarriedOut(raw, input, t, ApplyOps(t, GroupOf(raw, input, rules).value.ops, None, c, None).value.0)
  {
    hide *;
    var ops := GroupOf(raw, input, rules).value.ops;
    var (t', change) := ApplyOps(t, ops, None, c, None).value;
    LandedIs(t, t', ops, c, change);
    GroupDoes(raw, input, rules, t, t', c, change);
  }

  lemma NotTried(v: Verdict, raw: Judgment, input: Input, rules: Rules, flagged: set<Id>)
    requires !raw.kind.NoChange? && Ruling(raw, input, rules, flagged) == Some(v)
    ensures !v.Carried? && !v.NotCarried?
  {
    hide TouchedIds, ReasonFails, GroupOf;
  }

  lemma ToldFits(e: Entry, input: Input, rules: Rules, flagged: set<Id>, limit: nat)
    requires Told(e, input, rules, flagged, limit)
    ensures Fits(e.verdict, e.raw, input, rules, flagged)
    ensures e.verdict.Carried? || e.verdict.NotCarried? ==> Plans(e.raw.kind) && GroupOf(e.raw, input, rules).Ok?
  {
    hide Fits, WasRight, Acceptable, GroupOf;
    if e.verdict.Carried? || e.verdict.NotCarried? { FitsPlans(e.verdict, e.raw, input, rules, flagged); }
  }

  lemma ToldAll(log: seq<Entry>, kept: seq<Judgment>, input: Input, rules: Rules, flagged: set<Id>, limit: nat)
    requires AllTold(log, kept, input, rules, flagged, limit)
    ensures forall k :: 0 <= k < |log| ==> Fits(log[k].verdict, kept[k], input, rules, flagged)
  {
    hide Told, Fits;
    forall k | 0 <= k < |log| ensures Fits(log[k].verdict, kept[k], input, rules, flagged) { ToldFits(log[k], input, rules, flagged, limit); }
  }

  ghost predicate LandedGroup(t: Tables, group: Group, raw: Judgment, input: Input, flagged: set<Id>, c: Call, done: seq<seq<Id>>) {
    var r := ApplyOps(t, group.ops, None, c, None);
    && r.Ok? && AllPast(r.value.0, input.sent, done + [group.items]) && Disjoint(done + [group.items])
    && forall i :: i in group.items ==> i in input.sent && i in t.rows && t.rows[i].version == input.sent[i].version
  }

  lemma NoneFlagged(sent: map<Id, Row>)
    ensures FlaggedIds([], sent) == {}
  {
  }

  lemma FlaggedMore(kept: seq<Judgment>, k: nat, input: Input, rules: Rules, flagged: set<Id>)
    requires k < |kept| && !kept[k].kind.NoChange?
    ensures FlaggedIds(kept[..k + 1], input.sent) == FlaggedIds(kept[..k], input.sent)
            + if Flags(kept[k], input.sent) then SetOf(InstructionIds(kept[k])) else {}
    ensures forall v :: Fits(v, kept[k], input, rules, flagged) ==> (v.Flagged? <==> Flags(kept[k], input.sent))
  {
    assert kept[..k + 1] == kept[..k] + [kept[k]];
  }

  /** A finished pass is a clean one: had anything been flagged, it would not have finished. */
  lemma CleanIff(judgments: seq<Judgment>, input: Input, rules: Rules, log: seq<Entry>)
    requires |log| == |Judged(judgments)|
    requires forall k :: 0 <= k < |log| ==> Fits(log[k].verdict, Judged(judgments)[k], input, rules, FlaggedIds(Judged(judgments), input.sent))
    ensures Clean(judgments, input, rules, log) <==> NoChangeFine(judgments, rules) && forall e :: e in log ==> Fine(e.verdict)
  {
    var kept := Judged(judgments);
    var flagged := FlaggedIds(kept, input.sent);
    if flagged != {} {
      FlagUnfinishes(kept, input, rules, log);
      var k :| 0 <= k < |log| && log[k].verdict.Flagged?;
      assert log[k] in log && !Fine(log[k].verdict);
    } else {
      forall k | 0 <= k < |log| ensures log[k] in log && !log[k].verdict.LeftAlone? {
        assert Fits(log[k].verdict, kept[k], input, rules, flagged);
        NeverLeftAlone(log[k].verdict, kept[k], input, rules);
      }
    }
    hide FlaggedIds, Fits, Judged;
  }

  lemma NeverLeftAlone(v: Verdict, raw: Judgment, input: Input, rules: Rules)
    requires Fits(v, raw, input, rules, {})
    ensures !v.LeftAlone?
  {
    assert {} !! TouchedIds(raw);
  }

  function Versions(sent: map<Id, Row>): map<Id, int> { map i | i in sent :: sent[i].version }

  lemma NothingDone()
    ensures Disjoint([])
  {
  }

  lemma NothingPast(t: Tables, sent: map<Id, Row>)
    ensures AllPast(t, sent, [])
  {
  }
}
