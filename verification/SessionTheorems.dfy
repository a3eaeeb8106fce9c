/** What every run of a session keeps: the order of the records, the finality of a review,
    and a weight that bounds how many decisions a mission can still ask for. */
module SessionTheorems {
  import opened Common
  import opened Text
  import opened Registry
  import opened Authority
  import opened Builder
  import opened QueueProtocol
  import opened QueueTable
  import opened QueueRules
  import opened Lifecycle
  import opened Session

  // ---------------------------------------------------------------- one action leaves `proposed`

  /** Row k left `proposed`; everything else in the queue is as before. */
  predicate Decided(q: Queue, q': Queue, k: nat) {
    && k < |q.actions| == |q'.actions| && q' == q.(actions := q.actions[k := q'.actions[k]])
    && q.actions[k].status.Proposed? && !q'.actions[k].status.Proposed?
    && q'.actions[k].skill == q.actions[k].skill
  }

  lemma {:induction false} FindUpdated(actions: seq<Action>, id: string, b: Action)
    requires Find(actions, id).Some? && b.id == id
    ensures Find(actions[Find(actions, id).value := b], id) == Find(actions, id)
  {
    var k := Find(actions, id).value;
    if actions[0].id != id {
      FindUpdated(actions[1..], id, b);
      assert actions[k := b][1..] == actions[1..][k - 1 := b];
    }
  }

  lemma TransitionMoves(
    claims: map<string, ClaimFile>, q: Queue, id: string, expected: Status, hash: string, next: Status, evidence: Evidence)
    requires Transition(claims, q, id, expected, hash, next, evidence).Ok?
    ensures
      var q' := Transition(claims, q, id, expected, hash, next, evidence).value;
      var k := Find(q.actions, id);
      && k.Some? && q.actions[k.value].status == expected
      && var b := q.actions[k.value].(status := next, evidence := Some(evidence));
         q' == q.(actions := q.actions[k.value := b]) && Find(q'.actions, id) == k && Row(q', id) == Ok(b)
  {
    hide VerifyClaim;
    var k := Find(q.actions, id).value;
    FindUpdated(q.actions, id, q.actions[k].(status := next, evidence := Some(evidence)));
  }

  lemma BlockMoves(
    rules: Rules, claims: map<string, ClaimFile>, receipt: File<Receipt>, view: View, q: Queue, id: string, hash: string)
    requires Block(rules, claims, receipt, view, q, id, Running, hash).Ok?
    ensures
      var q' := Block(rules, claims, receipt, view, q, id, Running, hash).value;
      var k := Find(q.actions, id);
      k.Some? && q' == q.(actions := q.actions[k.value := q.actions[k.value].(status := Blocked)])
  {
    hide VerifyClaim;
  }

  /** The result of an approval whose start mark has been written. */
  predicate Ran(q: Queue, k: nat, d: Desk, d': Desk, r: Result<Action>) {
    && d' == d.(queue := d'.queue, log := d'.log) && |d.log| <= |d'.log| <= |d.log| + 1
    && d'.queue.Doc? && k < |q.actions| == |d'.queue.value.actions|
    && d'.queue.value == q.(actions := q.actions[k := d'.queue.value.actions[k]])
    && !d'.queue.value.actions[k].status.Proposed? && d'.queue.value.actions[k].skill == q.actions[k].skill
    && (r.Ok? ==> r.value == d'.queue.value.actions[k] && r.value.status.Completed?)
  }

  lemma FinishRuns(d: Desk, q: Queue, op: Op, hash: string, w: World, k: nat)
    requires op.Approve? && d.queue == Doc(q) && Find(q.actions, op.id) == Some(k) && q.actions[k].status.Running?
    ensures
      var (d', r) := FinishCall(d, q, op, hash, w);
      Ran(q, k, d, d', r) && d'.log == d.log
  {
    hide Transition, Row;
    var report := if w.outcome.Returns? then Some(w.outcome.report) else None;
    var next := if w.outcome.Returns? then Completed else Failed;
    var evidence := Approval(op, hash, report);
    assert q == q.(actions := q.actions[k := q.actions[k]]);
    if Transition(d.claims, q, op.id, Running, hash, next, evidence).Ok? {
      TransitionMoves(d.claims, q, op.id, Running, hash, next, evidence);
    }
  }

  lemma RunRuns(rules: Rules, d: Desk, q: Queue, act: Action, op: Op, w: World, k: nat)
    requires op.Approve? && d.queue == Doc(q) && Find(q.actions, op.id) == Some(k) && q.actions[k].status.Running?
    ensures
      var (d', r) := RunCall(rules, d, q, act, op, w);
      Ran(q, k, d, d', r)
  {
    hide Transition, Row, FinishCall, Block, VerifyClaim;
    assert q == q.(actions := q.actions[k := q.actions[k]]);
    FinishRuns(d.(log := d.log + [act]), q, op, act.argumentsHash, w, k);
    if Block(rules, d.claims, d.receipt, w.recheck, q, op.id, Running, act.argumentsHash).Ok? {
      BlockMoves(rules, d.claims, d.receipt, w.recheck, q, op.id, act.argumentsHash);
    }
  }

  /** An approval either leaves the queue and the dispatch log alone and fails, or moves
      exactly one action out of `proposed`; it succeeds only with that action completed. */
  ghost predicate Approves(d: Desk, d': Desk, r: Result<Action>) {
    && d'.papers == d.papers && d'.receipt == d.receipt && d'.charter == d.charter && d'.decision == d.decision
    && if d'.queue == d.queue then d'.log == d.log && r.Err?
       else
         && d.queue.Doc? && d'.queue.Doc? && |d'.log| <= |d.log| + 1
         && exists k: nat :: Decided(d.queue.value, d'.queue.value, k)
                     && (r.Ok? ==> r.value == d'.queue.value.actions[k] && r.value.status.Completed?)
  }

  lemma StartApproves(rules: Rules, d: Desk, q: Queue, a: Action, op: Op, w: World)
    requires op.Approve? && LoadQueue(d.queue) == Ok(q)
    ensures
      var (d', r) := StartCall(rules, d, q, a, op, w);
      Approves(d, d', r)
  {
    hide Transition, Row, RunCall, FinishCall, Block, VerifyClaim;
    var evidence := Approval(op, a.argumentsHash, None);
    var started := Transition(d.claims, q, op.id, Proposed, a.argumentsHash, Running, evidence);
    if started.Ok? {
      TransitionMoves(d.claims, q, op.id, Proposed, a.argumentsHash, Running, evidence);
      var k := Find(q.actions, op.id).value;
      var q' := started.value;
      RunRuns(rules, d.(queue := Doc(q')), q', Row(q', op.id).value, op, w, k);
      var (d', r) := StartCall(rules, d, q, a, op, w);
      assert d'.queue.value.actions == q.actions[k := d'.queue.value.actions[k]];
      assert Decided(q, d'.queue.value, k);
    }
  }

  lemma ApproveDecides(rules: Rules, d: Desk, op: Op, w: World)
    requires op.Approve?
    ensures
      var (d', r) := ApproveAndDispatch(rules, d, op, w);
      Approves(d, d', r)
  {
    hide StartCall, Row, PublishClaim;
    var vetted := VetCall(rules, d, op, w);
    if vetted.Ok? {
      var claimed := d.(claims := d.claims[op.id := Written(me, ClaimFor(op, vetted.value))]);
      StartApproves(rules, claimed, LoadQueue(d.queue).value, vetted.value, op, w);
    }
  }

  // ---------------------------------------------------------------- the weight of a queue

  /** What a proposed action can still cost: an audit may ask for a patch and a patch for
      tests. */
  function SkillPrice(skill: SkillId): nat {
    match skill
    case ModelAudit => 3
    case ApplyPatch => 2
    case _ => 1
  }

  function Price(a: Action): nat {
    if a.status.Proposed? then SkillPrice(a.skill) else 0
  }

  function Weight(actions: seq<Action>): nat {
    if actions == [] then 0 else Weight(actions[..|actions| - 1]) + Price(actions[|actions| - 1])
  }

  lemma {:induction false} WeightUpdate(actions: seq<Action>, k: nat, b: Action)
    requires k < |actions|
    ensures Weight(actions[k := b]) + Price(actions[k]) == Weight(actions) + Price(b)
  {
    var n := |actions| - 1;
    if k < n {
      WeightUpdate(actions[..n], k, b);
      assert actions[k := b][..n] == actions[..n][k := b];
    } else {
      assert actions[k := b][..n] == actions[..n];
    }
  }

  lemma WeightAppend(actions: seq<Action>, a: Action)
    ensures Weight(actions + [a]) == Weight(actions) + Price(a)
  {
    assert (actions + [a])[..|actions|] == actions;
  }

  lemma {:induction false} WeightBound(actions: seq<Action>)
    ensures Weight(actions) <= 3 * |actions|
  {
    if actions != [] { WeightBound(actions[..|actions| - 1]); }
  }

  /** Deciding on an action frees its price. */
  lemma DecisionFreesPrice(q: Queue, q': Queue, k: nat)
    requires Decided(q, q', k)
    ensures Weight(q'.actions) + SkillPrice(q'.actions[k].skill) == Weight(q.actions)
  {
    WeightUpdate(q.actions, k, q'.actions[k]);
  }

  predicate KeepsSkillOn(rules: Rules, op: Op, q: Queue, view: View, receipt: File<Receipt>) {
    op.Append? && rules.candidate(op, q, view, receipt).Ok? ==> rules.candidate(op, q, view, receipt).value.skill == op.skill
  }

  /** Appending builds actions for the skill that was asked for. */
  ghost predicate KeepsSkills(rules: Rules) {
    forall op, q, view, receipt :: KeepsSkillOn(rules, op, q, view, receipt)
  }

  lemma KonohaKeepsSkills(cfg: Config)
    ensures KeepsSkills(Konoha(cfg))
  {
    hide LoadAuthoritativeState, BuildArguments, InitialActions, AfterDash, Upper;
  }

  lemma RulesKeepSkills(cfg: Config, mission: string)
    ensures KeepsSkills(RulesOf(cfg, mission))
  {
    hide Konoha, KeepsSkills;
    KonohaKeepsSkills(cfg.(directory := mission));
  }

  function FollowPrice(followup: Result<Option<Op>>): nat {
    if followup.Ok? && followup.value.Some? && followup.value.value.Append? then SkillPrice(followup.value.value.skill) else 0
  }

  predicate Appends(followup: Result<Option<Op>>) {
    followup.Ok? && followup.value.Some? ==> followup.value.value.Append?
  }

  /** Follow-ups are cheaper than what called for them. */
  lemma FollowupsAreCheaper(a: Action)
    ensures Appends(FollowupOf(a)) && FollowPrice(FollowupOf(a)) < SkillPrice(a.skill)
  {
  }

  lemma AppendCosts(rules: Rules, d: Desk, op: Op, view: View)
    requires KeepsSkills(rules) && op.Append?
    ensures
      var d' := AppendChecked(rules, d, op, view).0;
      && d' == d.(queue := d'.queue) && (d.queue.Doc? ==> d'.queue.Doc?)
      && Weight(RowsOf(d'.queue)) <= Weight(RowsOf(d.queue)) + SkillPrice(op.skill)
  {
    hide SameProposal;
    var q := LoadQueue(d.queue);
    if q.Ok? {
      var built := rules.candidate(op, q.value, view, d.receipt);
      assert KeepsSkillOn(rules, op, q.value, view, d.receipt);
      if built.Ok? { WeightAppend(q.value.actions, built.value); }
    }
  }

  // ---------------------------------------------------------------- the gates

  /** What every reachable desk satisfies. */
  predicate Kept(d: Desk) {
    && Ordered(d.papers)
    && (d.papers.review.Some? ==>
          && Settled(RowsOf(d.queue)) && d.queue.Doc?
          && d.papers.review.value.counts == Tally(RowsOf(d.queue))
          && d.papers.review.value.missionId == d.queue.value.mission)
  }

  /** What an operation behind the action gate may do while there is no review. */
  predicate Spends(d: Desk, d': Desk, budget: nat) {
    && Weight(RowsOf(d'.queue)) <= Weight(RowsOf(d.queue)) + budget
    && d'.log == d.log && Kept(d') && (d.queue.Doc? ==> d'.queue.Doc?) && d'.receipt == d.receipt
  }

  lemma AdvanceKeeps(d: Desk, w: World)
    requires d.papers == NoPapers
    ensures Advance(d, w).0 == d.(papers := Advance(d, w).0.papers) && Kept(Advance(d, w).0)
  {
    hide Proven, CountOf;
  }

  lemma FollowSpends(rules: Rules, d: Desk, followup: Result<Option<Op>>, w: World)
    requires KeepsSkills(rules) && Appends(followup) && d.papers == NoPapers
    ensures Spends(d, Follow(rules, d, followup, w).0, FollowPrice(followup))
  {
    hide Advance, AppendChecked, Weight, Validation, KeepsSkills, Kept;
    AdvanceKeeps(d, w);
    assert Kept(d) by { NoPapersKept(d); }
    if followup.Ok? && followup.value.Some? {
      AppendCosts(rules, d, followup.value.value, w.append);
      var d' := AppendChecked(rules, d, followup.value.value, w.append).0;
      NoPapersKept(d');
      AdvanceKeeps(d', w);
    }
  }

  lemma NoPapersKept(d: Desk)
    requires d.papers == NoPapers
    ensures Kept(d)
  {
  }

  /** Either nothing in queue and log changed, or the weight dropped. */
  predicate Progress(d: Desk, d': Desk) {
    || (d'.queue == d.queue && d'.log == d.log)
    || (d'.queue.Doc? && Weight(RowsOf(d'.queue)) < Weight(RowsOf(d.queue)) && |d'.log| <= |d.log| + 1)
  }

  /** An approval that takes an action out of `proposed` lowers the weight, follow-ups
      included; any other leaves queue and log alone. */
  lemma ApprovalSpends(rules: Rules, d: Desk, op: Op, w: World)
    requires KeepsSkills(rules) && op.Approve? && d.papers == NoPapers
    ensures Progress(d, ApproveAction(rules, d, op, w).0) && Kept(ApproveAction(rules, d, op, w).0)
    ensures ApproveAction(rules, d, op, w).0.receipt == d.receipt
  {
    hide ApproveAndDispatch, Follow, Weight, KeepsSkills, Kept, FollowupOf, FollowPrice, Appends, SkillPrice;
    ApproveDecides(rules, d, op, w);
    var (d', done) := ApproveAndDispatch(rules, d, op, w);
    NoPapersKept(d');
    if d'.queue != d.queue {
      var k: nat :| Decided(d.queue.value, d'.queue.value, k)
                 && (done.Ok? ==> done.value == d'.queue.value.actions[k] && done.value.status.Completed?);
      DecisionFreesPrice(d.queue.value, d'.queue.value, k);
      FollowupsAreCheaper(d'.queue.value.actions[k]);
      if done.Ok? {
        FollowSpends(rules, d', FollowupOf(done.value), w);
      }
    }
  }

  lemma RejectDecides(rules: Rules, d: Desk, op: Op, w: World)
    requires op.Reject?
    ensures
      var (d', r) := RejectChecked(rules, d, op, w);
      && d' == d.(queue := d'.queue)
      && (r.Err? ==> d' == d)
      && (r.Ok? ==>
            && d.queue.Doc? && d'.queue.Doc? && Find(d.queue.value.actions, op.id).Some?
            && Decided(d.queue.value, d'.queue.value, Find(d.queue.value.actions, op.id).value)
            && Row(d.queue.value, op.id).Ok? && r.value == Row(d.queue.value, op.id).value.(status := Rejected)
            && Row(d.queue.value, op.id).value.status.Proposed?)
  {
    hide VerifyClaim;
  }

  /** If the id finds a proposed action, it has this skill. */
  predicate OffersSkill(d: Desk, id: string, skill: SkillId) {
    d.queue.Doc? && Row(d.queue.value, id).Ok? && Row(d.queue.value, id).value.status.Proposed? ==>
      Row(d.queue.value, id).value.skill == skill
  }

  /** The same for rejections. The tests that follow a rejected patch are paid for by the
      patch; `skill` is read off the action the console offers. */
  lemma RejectionSpends(rules: Rules, d: Desk, op: Op, skill: SkillId, w: World)
    requires KeepsSkills(rules) && op.Reject? && d.papers == NoPapers
    requires OffersSkill(d, op.id, skill)
    ensures Progress(d, RejectAction(rules, d, op, skill, w).0) && Kept(RejectAction(rules, d, op, skill, w).0)
    ensures RejectAction(rules, d, op, skill, w).0.receipt == d.receipt
  {
    hide RejectChecked, Follow, Weight, KeepsSkills, Kept;
    RejectDecides(rules, d, op, w);
    var (d', rejected) := RejectChecked(rules, d, op, w);
    NoPapersKept(d');
    if rejected.Ok? {
      DecisionFreesPrice(d.queue.value, d'.queue.value, Find(d.queue.value.actions, op.id).value);
      FollowSpends(rules, d', Ok(if skill.ApplyPatch? then Some(TestsAfter(rejected.value)) else None), w);
    }
  }

  /** The action the console offers is the one its id finds. */
  lemma {:induction false} OfferedIsFound(actions: seq<Action>, id: string)
    requires NextPending(actions).Some? && NextPending(actions).value.id == id
    ensures Find(actions, id).Some?
    ensures actions[Find(actions, id).value].status.Proposed? ==> actions[Find(actions, id).value] == NextPending(actions).value
  {
    if !actions[0].status.Proposed? && actions[0].id != id { OfferedIsFound(actions[1..], id); }
  }

  /** Behind the record gates nothing touches the queue, the claims or the log. */
  lemma RecordsKeep(d: Desk, line: Line, w: World)
    requires Kept(d)
    ensures
      var d' := AtRecords(d, line, w).0;
      && Kept(d') && d' == d.(papers := d'.papers)
      && (d.papers.review.Some? <==> d'.papers.review.Some?)
  {
    hide Explains, Upper, Settled, Tally;
  }

  lemma ActionsKeep(rules: Rules, d: Desk, a: Action, line: Line, w: World)
    requires KeepsSkills(rules) && d.papers == NoPapers && NextPending(RowsOf(d.queue)) == Some(a)
    ensures
      var d' := AtAction(rules, d, a, line, w).0;
      Progress(d, d') && Kept(d') && d'.receipt == d.receipt
  {
    hide ApproveAction, RejectAction, Weight, KeepsSkills, Kept;
    NoPapersKept(d);
    OfferedIsFound(RowsOf(d.queue), a.id);
    if line.text == a.approvalPhrase {
      ApprovalSpends(rules, d, Approve(a.id, line.text, line.actor, line.time), w);
    } else if line.text == a.rejectionPhrase {
      RejectionSpends(rules, d, Reject(a.id, line.text, a.argumentsHash), a.skill, w);
    }
  }

  // ---------------------------------------------------------------- one input, one mission

  /** What one input may do to the files of one mission. */
  predicate Follows(d: Desk, d': Desk) {
    && Kept(d')
    && (d.queue.Missing? || Progress(d, d'))
    && (d.papers.review.Some? ==> d'.papers.review.Some? && d'.queue == d.queue && d'.claims == d.claims && d'.log == d.log)
    && (!d.receipt.Missing? ==> d'.receipt == d.receipt)
  }

  /** Everything but the charter and decision files is as before. */
  predicate OnlyDocuments(d: Desk, d': Desk) {
    d' == d.(charter := d'.charter, decision := d'.decision)
  }

  lemma DocumentsFollow(d: Desk, d': Desk)
    requires Kept(d) && OnlyDocuments(d, d')
    ensures Follows(d, d')
  {
  }

  lemma UnqueuedHasNoPapers(d: Desk)
    requires Kept(d) && d.queue.Missing?
    ensures d.papers == NoPapers
  {
    assert !Settled([]);
  }

  /** A receipt stops every further approval before it writes; without one, approval leaves
      records, claims and log alone, and an existing queue as it is. */
  lemma CharterKeeps(cfg: Config, mission: string, d: Desk, c: Charter, dec: Decision, line: Line, w: World)
    requires Kept(d)
    ensures
      var d' := ApproveCharter(cfg, mission, d, c, dec, line, w).0;
      && Follows(d, d') && (!d.receipt.Missing? ==> d' == d) && (!d.queue.Missing? ==> d'.queue == d.queue)
  {
    hide FreezeCharter, OpenQueue, RulesOf, Follows, Kept;
    FreezeKeeps(cfg, d, c, dec, line, w);
    var (frozen, done) := FreezeCharter(cfg, d, c, dec, line, w);
    FrozenFollows(d, frozen);
    OpeningFollows(RulesOf(cfg, mission), d, frozen, Initialize(mission, mission + "-plan"), w.restore);
  }

  lemma FreezeKeeps(cfg: Config, d: Desk, c: Charter, dec: Decision, line: Line, w: World)
    ensures
      var (d', done) := FreezeCharter(cfg, d, c, dec, line, w);
      && d' == d.(charter := d'.charter, decision := d'.decision, receipt := d'.receipt)
      && (!d.receipt.Missing? ==> d' == d && done.Stop?)
  {
    hide ValidateCharterConstruction, ReceiptPreconditions, MakeReceipt, Strip;
  }

  lemma FrozenFollows(d: Desk, d': Desk)
    requires Kept(d) && d' == d.(charter := d'.charter, decision := d'.decision, receipt := d'.receipt)
    requires !d.receipt.Missing? ==> d' == d
    ensures Follows(d, d')
  {
    hide Weight, Settled, Tally;
  }

  lemma OpeningFollows(rules: Rules, d: Desk, frozen: Desk, op: Op, view: View)
    requires Kept(d) && op.Initialize?
    requires frozen == d.(charter := frozen.charter, decision := frozen.decision, receipt := frozen.receipt)
    requires !d.receipt.Missing? ==> frozen == d
    ensures
      var d' := OpenQueue(rules, frozen, op, view).0;
      && Follows(d, d') && (!d.queue.Missing? ==> d'.queue == d.queue)
  {
    hide Restorable, Weight, Tally, Settled;
    if d.queue.Missing? { UnqueuedHasNoPapers(d); }
  }

  lemma ProposalKeeps(cfg: Config, h: House, w: World, mission: string)
    ensures OnlyDocuments(DeskOf(h, mission), DeskOf(ProposeMission(cfg, h, w).0, mission))
  {
    hide ValidateCharterConstruction;
  }

  lemma FocusKeeps(cfg: Config, h: House, line: Line, w: World)
    requires h.focus.Some? && h.charter.None? && Kept(DeskOf(h, h.focus.value))
    ensures Follows(DeskOf(h, h.focus.value), DeskOf(Handle(cfg, h, line, w).0, h.focus.value))
  {
    hide AtAction, AtRecords, ProposeMission, Weight, KeepsSkills, Tally, RulesOf;
    var m := h.focus.value;
    var d := DeskOf(h, m);
    var next := NextPending(RowsOf(d.queue));
    ProposalKeeps(cfg, h, w, m);
    if next.Some? {
      assert !Settled(RowsOf(d.queue)) by { assert Pending(next.value); }
      RulesKeepSkills(cfg, m);
      ActionsKeep(RulesOf(cfg, m), d, next.value, line, w);
    } else {
      RecordsKeep(d, line, w);
    }
  }

  lemma OthersKeep(cfg: Config, h: House, line: Line, w: World, mission: string)
    requires Some(mission) != h.focus
    ensures OnlyDocuments(DeskOf(h, mission), DeskOf(Handle(cfg, h, line, w).0, mission))
  {
    hide AtAction, AtRecords, ProposeMission, ApproveCharter, RulesOf;
    ProposalKeeps(cfg, h, w, mission);
  }

  /** Whatever is typed, restarted or edited, the files of every mission follow the rules. */
  lemma ReactKeeps(cfg: Config, h: House, input: Input, mission: string)
    requires Kept(DeskOf(h, mission))
    ensures Follows(DeskOf(h, mission), DeskOf(React(cfg, h, input), mission))
  {
    hide Handle, Follows, Kept, Reopen, OnlyDocuments;
    var d, d' := DeskOf(h, mission), DeskOf(React(cfg, h, input), mission);
    match input
    case Type(line, w) =>
      if h.focus != Some(mission) {
        OthersKeep(cfg, h, line, w, mission);
        DocumentsFollow(d, d');
      } else if h.charter.None? {
        FocusKeeps(cfg, h, line, w);
      } else {
        CharterGateKeeps(cfg, h, line, w);
      }
    case Restart(active) =>
      assert d' == d by { ReopenKeeps(h, active, mission); }
      assert OnlyDocuments(d, d') by { SameIsOnlyDocuments(d); }
      DocumentsFollow(d, d');
    case OneShot(active, w) =>
      OneShotKeeps(cfg, h, active, w, mission);
      DocumentsFollow(d, d');
    case Edit(m, charter, decision) =>
      assert OnlyDocuments(d, d') by { EditKeeps(h, m, charter, decision, mission); }
      DocumentsFollow(d, d');
  }

  lemma CharterGateKeeps(cfg: Config, h: House, line: Line, w: World)
    requires h.focus.Some? && h.charter.Some? && Kept(DeskOf(h, h.focus.value))
    ensures
      var d, d' := DeskOf(h, h.focus.value), DeskOf(Handle(cfg, h, line, w).0, h.focus.value);
      Follows(d, d') && (!d.receipt.Missing? ==> d' == d)
  {
    hide ApproveCharter, Follows, Kept;
    var d := DeskOf(h, h.focus.value);
    assert Follows(d, d) by { SameIsOnlyDocuments(d); DocumentsFollow(d, d); }
    if h.decision.Some? {
      CharterKeeps(cfg, h.focus.value, d, h.charter.value, h.decision.value, line, w);
    }
  }

  lemma SameIsOnlyDocuments(d: Desk)
    ensures OnlyDocuments(d, d)
  {
  }

  lemma ReopenKeeps(h: House, active: Option<string>, mission: string)
    ensures DeskOf(Reopen(h, active), mission) == DeskOf(h, mission)
  {
  }

  lemma OneShotKeeps(cfg: Config, h: House, active: Option<string>, w: World, mission: string)
    ensures OnlyDocuments(DeskOf(h, mission), DeskOf(React(cfg, h, OneShot(active, w)), mission))
  {
    hide ProposeMission;
    ReopenKeeps(h, active, mission);
    ProposalKeeps(cfg, Reopen(h, active), w, mission);
  }

  lemma EditKeeps(h: House, m: string, charter: File<Charter>, decision: File<Decision>, mission: string)
    ensures OnlyDocuments(DeskOf(h, mission),
                          DeskOf(WithDesk(h, m, DeskOf(h, m).(charter := charter, decision := decision)), mission))
  {
  }

  // ---------------------------------------------------------------- whole sessions

  const EmptyHouse: House := House(map[], None, None, None)

  /** A console from an empty workspace on, input by input. */
  ghost predicate IsSession(cfg: Config, houses: seq<House>, inputs: seq<Input>) {
    && |houses| == |inputs| + 1 && houses[0] == EmptyHouse
    && forall i :: 0 <= i < |inputs| ==> houses[i + 1] == React(cfg, houses[i], inputs[i])
  }

  lemma {:induction false} KeptHolds(cfg: Config, houses: seq<House>, inputs: seq<Input>, i: nat, mission: string)
    requires IsSession(cfg, houses, inputs) && i < |houses|
    ensures Kept(DeskOf(houses[i], mission))
  {
    hide React, Kept;
    if i == 0 {
      NoPapersKept(EmptyDesk);
    } else {
      KeptHolds(cfg, houses, inputs, i - 1, mission);
      assert Follows(DeskOf(houses[i - 1], mission), DeskOf(houses[i], mission)) by {
        ReactKeeps(cfg, houses[i - 1], inputs[i - 1], mission);
      }
    }
  }

  /** In every reachable state of every mission: closed means the Teachback is recorded; a
      Teachback request means the review is recorded; a review means that something was
      completed, that nothing failed or is pending, and that its counts are those of the
      queue as it is. */
  lemma ClosedMeansReviewedMeansSettled(cfg: Config, houses: seq<House>, inputs: seq<Input>, i: nat, mission: string)
    requires IsSession(cfg, houses, inputs) && i < |houses|
    ensures
      var d := DeskOf(houses[i], mission);
      var p, rows := d.papers, RowsOf(d.queue);
      && (p.closure.Some? && p.closure.value.closed ==> p.teachback == Some(TeachbackRecorded))
      && (p.closure.Some? ==> p.teachback == Some(TeachbackRecorded))
      && (p.teachback.Some? ==> IsRecorded(p.review))
      && (p.review.Some? ==>
            && Settled(rows) && p.review.value.counts == Tally(rows)
            && d.queue.Doc? && p.review.value.missionId == d.queue.value.mission)
  {
    hide React;
    KeptHolds(cfg, houses, inputs, i, mission);
  }

  /** Once a review has been proposed, nothing of that mission is dispatched, queued or
      claimed any more, whatever is typed, proposed again, restarted or edited. */
  lemma {:induction false} ReviewIsFinal(
    cfg: Config, houses: seq<House>, inputs: seq<Input>, i: nat, j: nat, mission: string)
    requires IsSession(cfg, houses, inputs) && i <= j < |houses| && DeskOf(houses[i], mission).papers.review.Some?
    ensures
      var d, d' := DeskOf(houses[i], mission), DeskOf(houses[j], mission);
      d'.papers.review.Some? && d'.queue == d.queue && d'.claims == d.claims && d'.log == d.log
  {
    hide React, Kept;
    if i < j {
      ReviewIsFinal(cfg, houses, inputs, i, j - 1, mission);
      KeptHolds(cfg, houses, inputs, j - 1, mission);
      ReactKeeps(cfg, houses[j - 1], inputs[j - 1], mission);
    }
  }

  /** How many inputs between i and j changed the mission's queue or dispatched something. */
  function Decisions(houses: seq<House>, mission: string, i: nat, j: nat): nat
    requires i <= j < |houses|
  {
    if i == j then 0
    else
      var d, d' := DeskOf(houses[j - 1], mission), DeskOf(houses[j], mission);
      Decisions(houses, mission, i, j - 1) + if d'.queue == d.queue && d'.log == d.log then 0 else 1
  }

  /** Every mission ends: once it has a queue, the inputs that change it or dispatch something
      are paid for by its weight, follow-ups included. */
  lemma {:induction false} DecisionsAreBounded(
    cfg: Config, houses: seq<House>, inputs: seq<Input>, i: nat, j: nat, mission: string)
    requires IsSession(cfg, houses, inputs) && i <= j < |houses| && !DeskOf(houses[i], mission).queue.Missing?
    ensures
      var d, d' := DeskOf(houses[i], mission), DeskOf(houses[j], mission);
      && !d'.queue.Missing?
      && Decisions(houses, mission, i, j) + Weight(RowsOf(d'.queue)) <= Weight(RowsOf(d.queue)) <= 3 * |RowsOf(d.queue)|
      && |d'.log| <= |d.log| + Decisions(houses, mission, i, j)
  {
    hide React, Kept, Weight;
    WeightBound(RowsOf(DeskOf(houses[i], mission).queue));
    if i < j {
      DecisionsAreBounded(cfg, houses, inputs, i, j - 1, mission);
      KeptHolds(cfg, houses, inputs, j - 1, mission);
      ReactKeeps(cfg, houses[j - 1], inputs[j - 1], mission);
    }
  }

  // ---------------------------------------------------------------- where a mission gets stuck

  /** A claimed action is never approved again, whoever claimed it and however far the claim
      got: the call fails and leaves every file alone. */
  lemma ClaimedIsNeverTakenOver(rules: Rules, d: Desk, op: Op, w: World)
    requires op.Approve? && op.id in d.claims
    ensures ApproveAndDispatch(rules, d, op, w).0 == d && ApproveAndDispatch(rules, d, op, w).1.Err?
  {
    hide StartCall;
  }

  /** A mission with a receipt that offers nothing: no proposed action and no record. */
  predicate Stalled(d: Desk) {
    NextPending(RowsOf(d.queue)).None? && d.papers == NoPapers && !d.receipt.Missing?
  }

  /** A stalled mission stays as it is: the console passes the line on to `propose`, which can
      overwrite its charter and decision files, but a charter proposed again cannot be
      approved, and only an approval or rejection prepares a review. */
  lemma StalledStays(cfg: Config, h: House, input: Input, mission: string)
    requires Stalled(DeskOf(h, mission))
    ensures OnlyDocuments(DeskOf(h, mission), DeskOf(React(cfg, h, input), mission))
  {
    hide ProposeMission, ApproveCharter, AtAction, AtRecords, NextPending, RulesOf;
    var d := DeskOf(h, mission);
    NoPapersKept(d);
    match input
    case Type(line, w) =>
      if h.focus != Some(mission) {
        OthersKeep(cfg, h, line, w, mission);
      } else if h.charter.Some? {
        CharterGateKeeps(cfg, h, line, w);
      } else {
        ProposalKeeps(cfg, h, w, mission);
      }
    case Restart(active) =>
    case OneShot(active, w) => OneShotKeeps(cfg, h, active, w, mission);
    case Edit(m, charter, decision) =>
  }

  /** Over every sequence of later inputs, new proposals and charter phrases included, a
      stalled mission's queue, claims, receipt, log and records never change: in particular
      no review is ever prepared. */
  lemma {:induction false} StalledForEver(
    cfg: Config, houses: seq<House>, inputs: seq<Input>, i: nat, j: nat, mission: string)
    requires |houses| == |inputs| + 1 && i <= j < |houses| && Stalled(DeskOf(houses[i], mission))
    requires forall k :: 0 <= k < |inputs| ==> houses[k + 1] == React(cfg, houses[k], inputs[k])
    ensures OnlyDocuments(DeskOf(houses[i], mission), DeskOf(houses[j], mission))
  {
    hide React, NextPending;
    if i < j {
      StalledForEver(cfg, houses, inputs, i, j - 1, mission);
      StalledStays(cfg, houses[j - 1], inputs[j - 1], mission);
    }
  }

  /** If the last pending action completes but its follow-up is refused, the exception leaves
      the console before a review is prepared, and the mission is stalled. */
  lemma RefusedFollowupStalls(rules: Rules, d: Desk, op: Op, w: World)
    requires op.Approve? && d.papers == NoPapers && !d.receipt.Missing? && !w.halt.AtFollowups?
    requires
      var (d', done) := ApproveAndDispatch(rules, d, op, w);
      && done.Ok? && NextPending(RowsOf(d'.queue)).None?
      && FollowupOf(done.value).Ok? && FollowupOf(done.value).value.Some?
      && AppendChecked(rules, d', FollowupOf(done.value).value.value, w.append).1.Stop?
    ensures
      var (d', answer) := ApproveAction(rules, d, op, w);
      answer.Declined? && Stalled(d') && d' == ApproveAndDispatch(rules, d, op, w).0
  {
    hide ApproveAndDispatch, FollowupOf, NextPending;
    ApproveDecides(rules, d, op, w);
    var (d', done) := ApproveAndDispatch(rules, d, op, w);
    StoppedAppendKeeps(rules, d', FollowupOf(done.value).value.value, w.append);
  }

  lemma StoppedAppendKeeps(rules: Rules, d: Desk, op: Op, view: View)
    requires AppendChecked(rules, d, op, view).1.Stop?
    ensures AppendChecked(rules, d, op, view).0 == d
  {
  }

  // ---------------------------------------------------------------- now or never

  /** The exact fate of a mission with a receipt and no proposed action: it has a review at some
      later moment if and only if it has one now. */
  lemma ReviewNowOrNever(cfg: Config, houses: seq<House>, inputs: seq<Input>, i: nat, j: nat, mission: string)
    requires IsSession(cfg, houses, inputs) && i <= j < |houses|
    requires !DeskOf(houses[i], mission).receipt.Missing? && NextPending(RowsOf(DeskOf(houses[i], mission).queue)).None?
    ensures DeskOf(houses[j], mission).papers.review.Some? <==> DeskOf(houses[i], mission).papers.review.Some?
  {
    hide React, NextPending;
    KeptHolds(cfg, houses, inputs, i, mission);
    if DeskOf(houses[i], mission).papers.review.Some? {
      ReviewIsFinal(cfg, houses, inputs, i, j, mission);
    } else {
      StalledForEver(cfg, houses, inputs, i, j, mission);
    }
  }

  /** How an approval or rejection of a mission without records ends. */
  predicate Concludes(d: Desk, d': Desk, answer: Answer) {
    && d'.receipt == d.receipt
    && match answer
       case Passed(Some(next), None) => NextPending(RowsOf(d'.queue)) == Some(next) && d'.papers == NoPapers
       case Passed(None, Some(review)) => d'.papers.review == Some(review)
       case Declined(_) => d'.papers == NoPapers
       case _ => false
  }

  lemma AdvanceConcludes(d: Desk, w: World)
    requires d.papers == NoPapers
    ensures Concludes(d, Advance(d, w).0, Advance(d, w).1)
  {
    hide Validation, NextPending;
  }

  lemma FollowConcludes(rules: Rules, d: Desk, followup: Result<Option<Op>>, w: World)
    requires d.papers == NoPapers && Appends(followup)
    ensures Concludes(d, Follow(rules, d, followup, w).0, Follow(rules, d, followup, w).1)
  {
    hide Advance, NextPending;
    AdvanceConcludes(d, w);
    if followup.Ok? && followup.value.Some? {
      AppendOnlyQueues(rules, d, followup.value.value, w.append);
      AdvanceConcludes(AppendChecked(rules, d, followup.value.value, w.append).0, w);
    }
    hide AppendChecked;
  }

  lemma AppendOnlyQueues(rules: Rules, d: Desk, op: Op, view: View)
    ensures AppendChecked(rules, d, op, view).0 == d.(queue := AppendChecked(rules, d, op, view).0.queue)
  {
    hide SameProposal, Find;
  }

  lemma ApprovalConcludes(rules: Rules, d: Desk, op: Op, w: World)
    requires op.Approve? && d.papers == NoPapers
    ensures Concludes(d, ApproveAction(rules, d, op, w).0, ApproveAction(rules, d, op, w).1)
  {
    hide ApproveAndDispatch, Follow, FollowupOf, FollowPrice, Appends, NextPending;
    ApproveDecides(rules, d, op, w);
    var (d', done) := ApproveAndDispatch(rules, d, op, w);
    if done.Ok? {
      FollowupsAreCheaper(done.value);
      FollowConcludes(rules, d', FollowupOf(done.value), w);
    }
  }

  lemma RejectionConcludes(rules: Rules, d: Desk, op: Op, skill: SkillId, w: World)
    requires op.Reject? && d.papers == NoPapers
    ensures Concludes(d, RejectAction(rules, d, op, skill, w).0, RejectAction(rules, d, op, skill, w).1)
  {
    hide RejectChecked, Follow, NextPending;
    RejectDecides(rules, d, op, w);
    var (d', rejected) := RejectChecked(rules, d, op, w);
    if rejected.Ok? {
      FollowConcludes(rules, d', Ok(if skill.ApplyPatch? then Some(TestsAfter(rejected.value)) else None), w);
    }
  }

  /** Whatever line at the action gate leaves no proposed action behind: it ends with a review,
      or it has stalled the mission. Failed, blocked, left running, cut short, or with its
      follow-up or its review refused: all of these stall. */
  lemma LastDecisionReviewsOrStalls(rules: Rules, d: Desk, a: Action, line: Line, w: World)
    requires d.papers == NoPapers && !d.receipt.Missing? && NextPending(RowsOf(d.queue)) == Some(a)
    requires NextPending(RowsOf(AtAction(rules, d, a, line, w).0.queue)).None?
    ensures
      var (d', answer) := AtAction(rules, d, a, line, w);
      (answer.Passed? <==> d'.papers.review.Some?) && (answer.Passed? || Stalled(d'))
  {
    hide ApproveAction, RejectAction, NextPending;
    if line.text == a.approvalPhrase {
      ApprovalConcludes(rules, d, Approve(a.id, line.text, line.actor, line.time), w);
    } else if line.text == a.rejectionPhrase {
      RejectionConcludes(rules, d, Reject(a.id, line.text, a.argumentsHash), a.skill, w);
    }
  }

  /** An approval of the charter that has published a receipt but not opened the queue leaves a
      mission that never gets one: nothing else opens queues, and a receipt stops approval. */
  lemma OpeningCutShortStalls(cfg: Config, mission: string, d: Desk, c: Charter, dec: Decision, line: Line, w: World)
    requires d.queue.Missing? && d.papers == NoPapers
    requires
      var (d', guard) := ApproveCharter(cfg, mission, d, c, dec, line, w);
      guard.Stop? && !d'.receipt.Missing?
    ensures
      var d' := ApproveCharter(cfg, mission, d, c, dec, line, w).0;
      d'.queue.Missing? && Stalled(d')
  {
    hide FreezeCharter, RulesOf;
    FreezeKeeps(cfg, d, c, dec, line, w);
  }

  // ---------------------------------------------------------------- asking again

  predicate Loads(cfg: Config, mission: string, d: Desk) {
    LoadAuthoritativeState(cfg.(directory := mission), d.charter, d.decision, d.receipt).Ok?
  }

  /** The request is for this mission, can be built, and gets as far as replacing a document by
      another: the charter by a proposal, or at least the decision. */
  predicate Replaces(cfg: Config, d: Desk, mission: string, w: World) {
    && w.offer.Some? && w.offer.value.decision.missionId == mission == w.offer.value.charter.missionId
    && w.offer.value.charter.state.CharterProposed?
    && ValidateCharterConstruction(cfg, w.offer.value.charter, w.offer.value.decision).Pass?
    && (w.halt.AtOffer? ==> d.decision != Doc(w.offer.value.decision))
  }

  /** A request is not held to the receipt: a mission whose documents load keeps them through a
      request if and only if the request does not replace one. */
  lemma ReproposalUnloadsIff(cfg: Config, h: House, w: World, mission: string)
    requires CollisionFree(cfg) && Loads(cfg, mission, DeskOf(h, mission))
    ensures Loads(cfg, mission, DeskOf(ProposeMission(cfg, h, w).0, mission)) <==> !Replaces(cfg, DeskOf(h, mission), mission, w)
  {
    hide ValidateCharterConstruction;
    var d := DeskOf(h, mission);
    var d' := DeskOf(ProposeMission(cfg, h, w).0, mission);
    if Replaces(cfg, d, mission, w) {
      if w.halt.AtOffer? {
        CollisionFreeEverywhere(cfg, mission);
        OtherDecisionUnloads(cfg.(directory := mission), d, w.offer.value.decision);
      } else {
        ProposedCharterUnloads(cfg.(directory := mission), d');
      }
    } else {
      assert d' == d;
    }
    hide LoadAuthoritativeState;
  }

  lemma CollisionFreeEverywhere(cfg: Config, mission: string)
    requires CollisionFree(cfg)
    ensures CollisionFree(cfg.(directory := mission))
  {
    forall x, y ensures !Collides(cfg.(directory := mission), x, y) { assert !Collides(cfg, x, y); }
  }

  lemma OtherDecisionUnloads(cfg: Config, d: Desk, dec: Decision)
    requires CollisionFree(cfg)
    requires LoadAuthoritativeState(cfg, d.charter, d.decision, d.receipt).Ok? && d.decision != Doc(dec)
    ensures LoadAuthoritativeState(cfg, d.charter, Doc(dec), d.receipt).Err?
  {
    hide VerifyReceipt, RegistrationOk, DecisionShapeOk, CharterShapeOk;
    assert !Collides(cfg, DecisionText(d.decision.value), DecisionText(dec));
  }

  lemma ProposedCharterUnloads(cfg: Config, d: Desk)
    requires d.charter.Doc? && d.charter.value.state.CharterProposed?
    ensures LoadAuthoritativeState(cfg, d.charter, d.decision, d.receipt).Err?
  {
    hide VerifyReceipt, RegistrationOk, DecisionShapeOk, NamesOk;
  }

  /** While a mission's documents do not load, and the check reads these files, no phrase does
      anything to its actions. */
  lemma UnloadedActionsRest(cfg: Config, mission: string, d: Desk, a: Action, line: Line, w: World)
    requires !Loads(cfg, mission, d) && w.restore == View(d.charter, d.decision)
    ensures
      var (d', answer) := AtAction(RulesOf(cfg, mission), d, a, line, w);
      d' == d && !answer.Passed?
  {
    var rules := RulesOf(cfg, mission);
    assert forall b :: !rules.check(b, Restore, w.restore, d.receipt) by {
      forall b ensures !rules.check(b, Restore, w.restore, d.receipt) {
        UnloadedFails(cfg.(directory := mission), b, w.restore, d.receipt);
      }
    }
    hide Konoha, RulesOf, Follow, StartCall, LoadAuthoritativeState, VerifyClaim, PublishClaim;
  }

  lemma UnloadedFails(cfg: Config, a: Action, view: View, receipt: File<Receipt>)
    requires LoadAuthoritativeState(cfg, view.charter, view.decision, receipt).Err?
    ensures !Konoha(cfg).check(a, Restore, view, receipt)
  {
    hide LoadAuthoritativeState, CheckIdentity, CheckBinding;
  }

  /** A mission with a receipt whose charter file is a mere proposal. */
  predicate Unapproved(d: Desk) {
    !d.receipt.Missing? && d.charter.Doc? && d.charter.value.state.CharterProposed?
  }

  /** The checks of a turn read the files of the open mission. */
  predicate Attentive(h: House, input: Input) {
    input.Type? && h.focus.Some? ==>
      input.world.restore == View(DeskOf(h, h.focus.value).charter, DeskOf(h, h.focus.value).decision)
  }

  predicate Edits(input: Input, mission: string) {
    input.Edit? && input.mission == mission
  }

  /** Queue, claims, receipt and log are as before. */
  predicate Rests(d: Desk, d': Desk) {
    d'.queue == d.queue && d'.claims == d.claims && d'.receipt == d.receipt && d'.log == d.log
  }

  lemma UnapprovedTurnRests(cfg: Config, h: House, line: Line, w: World)
    requires h.focus.Some? && Unapproved(DeskOf(h, h.focus.value)) && Attentive(h, Type(line, w))
    ensures
      var d, d' := DeskOf(h, h.focus.value), DeskOf(Handle(cfg, h, line, w).0, h.focus.value);
      Unapproved(d') && Rests(d, d')
  {
    hide AtAction, AtRecords, ApproveCharter, RulesOf, NextPending, ValidateCharterConstruction;
    var m := h.focus.value;
    var d := DeskOf(h, m);
    ProposedCharterUnloads(cfg.(directory := m), d);
    if h.charter.Some? {
      if h.decision.Some? { ReceiptStopsApproval(cfg, m, d, h.charter.value, h.decision.value, line, w); }
    } else if NextPending(RowsOf(d.queue)).Some? {
      UnloadedActionsRest(cfg, m, d, NextPending(RowsOf(d.queue)).value, line, w);
    } else {
      RecordsOnlyPapers(d, line, w);
    }
    hide LoadAuthoritativeState;
  }

  lemma ReceiptStopsApproval(cfg: Config, mission: string, d: Desk, c: Charter, dec: Decision, line: Line, w: World)
    requires !d.receipt.Missing?
    ensures ApproveCharter(cfg, mission, d, c, dec, line, w).0 == d
  {
    hide FreezeCharter, OpenQueue;
    FreezeKeeps(cfg, d, c, dec, line, w);
  }

  lemma RecordsOnlyPapers(d: Desk, line: Line, w: World)
    ensures AtRecords(d, line, w).0 == d.(papers := AtRecords(d, line, w).0.papers)
  {
    hide Explains, Upper;
  }

  lemma UnapprovedRests(cfg: Config, h: House, input: Input, mission: string)
    requires Unapproved(DeskOf(h, mission)) && Attentive(h, input) && !Edits(input, mission)
    ensures
      var d, d' := DeskOf(h, mission), DeskOf(React(cfg, h, input), mission);
      Unapproved(d') && Rests(d, d')
  {
    hide Handle, ProposeMission, Reopen;
    match input
    case Type(line, w) =>
      if h.focus == Some(mission) {
        UnapprovedTurnRests(cfg, h, line, w);
      } else {
        OthersKeep(cfg, h, line, w, mission);
        OthersStayUnapproved(cfg, h, line, w, mission);
      }
    case Restart(active) => ReopenKeeps(h, active, mission);
    case OneShot(active, w) =>
      ReopenKeeps(h, active, mission);
      ProposalKeeps(cfg, Reopen(h, active), w, mission);
      ProposalStaysUnapproved(cfg, Reopen(h, active), w, mission);
    case Edit(m, charter, decision) =>
  }

  lemma ProposalStaysUnapproved(cfg: Config, h: House, w: World, mission: string)
    requires Unapproved(DeskOf(h, mission))
    ensures Unapproved(DeskOf(ProposeMission(cfg, h, w).0, mission))
  {
    hide ValidateCharterConstruction;
  }

  lemma OthersStayUnapproved(cfg: Config, h: House, line: Line, w: World, mission: string)
    requires Some(mission) != h.focus && Unapproved(DeskOf(h, mission))
    ensures Unapproved(DeskOf(Handle(cfg, h, line, w).0, mission))
  {
    hide AtAction, AtRecords, ProposeMission, ApproveCharter, RulesOf;
    ProposalStaysUnapproved(cfg, h, w, mission);
  }

  /** What asking again for an approved mission costs it: as long as nobody edits its documents
      and the checks read the files, nothing of it is ever dispatched, queued, rejected or
      claimed again, whatever is typed, approved, proposed or restarted. */
  lemma {:induction false} UnapprovedForEver(
    cfg: Config, houses: seq<House>, inputs: seq<Input>, i: nat, j: nat, mission: string)
    requires |houses| == |inputs| + 1 && i <= j < |houses| && Unapproved(DeskOf(houses[i], mission))
    requires forall k :: 0 <= k < |inputs| ==> houses[k + 1] == React(cfg, houses[k], inputs[k])
    requires forall k :: i <= k < |inputs| ==> Attentive(houses[k], inputs[k]) && !Edits(inputs[k], mission)
    ensures Unapproved(DeskOf(houses[j], mission)) && Rests(DeskOf(houses[i], mission), DeskOf(houses[j], mission))
  {
    hide React, Attentive;
    if i < j {
      UnapprovedForEver(cfg, houses, inputs, i, j - 1, mission);
      UnapprovedRests(cfg, houses[j - 1], inputs[j - 1], mission);
    }
  }
}
