/** When an approval goes through: not only is nothing bad dispatched, a proper approval of an
    untouched mission does complete. */
module Progress {
  import opened Common
  import opened Registry
  import opened Authority
  import opened Builder
  import opened QueueProtocol
  import opened QueueTable
  import opened QueueInvariant
  import opened QueueRules
  import opened Planning
  import opened Lifecycle
  import opened Session
  import opened SessionTheorems

  /** The action as the start mark writes it. */
  function Begun(op: Op, a: Action): Action
    requires op.Approve?
  {
    a.(status := Running, evidence := Some(Approval(op, a.argumentsHash, None)))
  }

  predicate RunsThrough(halt: Halt) {
    !halt.AtClaimWrite? && !halt.AtLease? && !halt.AtPreDispatch? && !halt.AtFinish?
  }

  /** Everything an approval depends on. */
  predicate Favourable(rules: Rules, d: Desk, op: Op, w: World)
    requires op.Approve?
  {
    var q := LoadQueue(d.queue);
    && q.Ok? && Row(q.value, op.id).Ok?
    && var a := Row(q.value, op.id).value;
       && a.status.Proposed? && op.phrase == a.approvalPhrase && op.approver != "" && op.id !in d.claims
       && rules.check(a, Restore, w.restore, d.receipt)
       && RunsThrough(w.halt)
       && rules.check(Begun(op, a), PreDispatch, w.preDispatch, d.receipt)
       && w.outcome.Returns?
  }

  predicate FreshRow(d: Desk, id: string) {
    LoadQueue(d.queue).Ok? && Row(LoadQueue(d.queue).value, id).Ok? ==>
      Row(LoadQueue(d.queue).value, id).value.evidence.None?
  }

  lemma WrittenClaimCovers(claims: map<string, ClaimFile>, op: Op, a: Action, b: Action)
    requires op.Approve? && a.id == op.id && b == a.(status := b.status, evidence := b.evidence)
    requires b.evidence.None? || exists report :: b.evidence == Some(Approval(op, a.argumentsHash, report))
    ensures VerifyClaim(claims[op.id := Written(me, ClaimFor(op, a))], b).Pass?
  {
  }

  /** With the claim written, marking the action running cannot fail. */
  lemma StartSucceeds(claims: map<string, ClaimFile>, q: Queue, op: Op, a: Action)
    requires op.Approve? && Row(q, op.id) == Ok(a) && a.status.Proposed? && a.evidence.None?
    ensures
      var held, hash := claims[op.id := Written(me, ClaimFor(op, a))], a.argumentsHash;
      var started := Transition(held, q, op.id, Proposed, hash, Running, Approval(op, hash, None));
      started.Ok? && Row(started.value, op.id) == Ok(Begun(op, a)) && VerifyClaim(held, Begun(op, a)).Pass?
  {
    var held, hash := claims[op.id := Written(me, ClaimFor(op, a))], a.argumentsHash;
    WrittenClaimCovers(claims, op, a, a);
    WrittenClaimCovers(claims, op, a, Begun(op, a));
    hide VerifyClaim;
    TransitionMoves(held, q, op.id, Proposed, hash, Running, Approval(op, hash, None));
  }

  /** Nor can the final mark. */
  lemma FinishSucceeds(d: Desk, q: Queue, op: Op, act: Action, w: World)
    requires op.Approve? && Row(q, op.id) == Ok(act) && act.status.Running? && w.outcome.Returns?
    requires VerifyClaim(d.claims, act).Pass?
    ensures FinishCall(d, q, op, act.argumentsHash, w).1.Ok?
  {
    hide VerifyClaim;
    var evidence := Approval(op, act.argumentsHash, Some(w.outcome.report));
    TransitionMoves(d.claims, q, op.id, Running, act.argumentsHash, Completed, evidence);
  }

  lemma FavourableSucceeds(rules: Rules, d: Desk, op: Op, w: World)
    requires op.Approve? && FreshRow(d, op.id) && Favourable(rules, d, op, w)
    ensures ApproveAndDispatch(rules, d, op, w).1.Ok?
  {
    var q := LoadQueue(d.queue).value;
    var a := Row(q, op.id).value;
    var held := d.claims[op.id := Written(me, ClaimFor(op, a))];
    var hash := a.argumentsHash;
    StartSucceeds(d.claims, q, op, a);
    var started := Transition(held, q, op.id, Proposed, hash, Running, Approval(op, hash, None)).value;
    var d' := d.(claims := held, queue := Doc(started));
    FinishSucceeds(d'.(log := d'.log + [Begun(op, a)]), started, op, Begun(op, a), w);
    hide Transition, VerifyClaim, FinishCall, ClaimFor, LoadQueue;
  }

  lemma SuccessIsFavourable(rules: Rules, d: Desk, op: Op, w: World)
    requires op.Approve? && FreshRow(d, op.id) && ApproveAndDispatch(rules, d, op, w).1.Ok?
    ensures Favourable(rules, d, op, w)
  {
    hide VerifyClaim, Block, Transition;
    var q := LoadQueue(d.queue).value;
    var a := Row(q, op.id).value;
    StartSucceeds(d.claims, q, op, a);
  }

  /** The approval of a fresh proposal succeeds if and only if the queue and the action are
      there, it is proposed and unclaimed, phrase and approver are right, authority holds
      before the claim and again before the dispatch, nothing cuts the call short, and the
      dispatcher returns. */
  lemma ApprovalSucceedsIff(rules: Rules, d: Desk, op: Op, w: World)
    requires op.Approve? && FreshRow(d, op.id)
    ensures ApproveAndDispatch(rules, d, op, w).1.Ok? <==> Favourable(rules, d, op, w)
  {
    hide ApproveAndDispatch, Favourable, FreshRow;
    if ApproveAndDispatch(rules, d, op, w).1.Ok? { SuccessIsFavourable(rules, d, op, w); }
    if Favourable(rules, d, op, w) { FavourableSucceeds(rules, d, op, w); }
  }

  /** A running mark does not hurt restore either. */
  lemma RestoreSurvivesStart(cfg: Config, op: Op, a: Action, view: View, receipt: File<Receipt>)
    requires op.Approve? && op.approver != "" && op.time != "" && a.status.Proposed?
    requires Konoha(cfg).check(a, Restore, view, receipt)
    ensures Konoha(cfg).check(Begun(op, a), Restore, view, receipt)
  {
    hide LoadAuthoritativeState, IsName, SkillFits, ActionId, EffectiveCapabilities;
  }

  /** With the documents as they were, the second authority check adds nothing: a proposal
      that passes restore passes pre_dispatch once it is marked running. */
  lemma SecondCheckFollows(cfg: Config, op: Op, a: Action, view: View, receipt: File<Receipt>)
    requires op.Approve? && op.approver != "" && op.time != "" && a.status.Proposed?
    requires Konoha(cfg).check(a, Restore, view, receipt)
    ensures Konoha(cfg).check(Begun(op, a), PreDispatch, view, receipt)
  {
    hide LoadAuthoritativeState, IsName, SkillFits, ActionId, EffectiveCapabilities;
  }

  lemma UniqueIsFoundAt(q: Queue, i: nat)
    requires UniqueIds(q.actions) && i < |q.actions|
    ensures Find(q.actions, q.actions[i].id) == Some(i) && Row(q, q.actions[i].id) == Ok(q.actions[i])
  {
  }

  lemma InitialActionIsBuilt(cfg: Config, c: Charter, d: Decision, at: string, who: string, plan: string, i: nat)
    requires HashingSound(cfg) && cfg.directory == c.missionId && at != "" && plan != "" && i < |c.proposed|
    requires ValidateCharterConstruction(cfg, c, d).Pass?
    ensures
      var k := Approved(c, at, who);
      var receipt, view := Doc(MakeReceipt(cfg, k, d)), View(Doc(k), Doc(d));
      var r := InitialActions(cfg, receipt, view, Initialize(k.missionId, plan));
      && r.Ok? && |r.value| == |c.proposed| && UniqueIds(r.value) && IsFresh(r.value[i])
      && Konoha(cfg).check(r.value[i], Restore, view, receipt)
  {
    var k := Approved(c, at, who);
    var receipt, view := Doc(MakeReceipt(cfg, k, d)), View(Doc(k), Doc(d));
    ApprovedMissionStarts(cfg, c, d, at, who, plan);
    InitialActionsAreFresh(cfg, receipt, view, Initialize(k.missionId, plan));
    ApprovedPairLoads(cfg, c, d, at, who);
    BuiltActionsPass(cfg, c, d, at, who, plan, c.proposed[i], Initial, map[]);
    hide ValidateCharterConstruction, LoadAuthoritativeState, HexDigests, MakeReceipt, CheckAll, BuildAction,
         ValidateActionAuthority;
  }

  /** A mission that was approved and not touched since can be worked off: the right phrase for
      any of its initial actions dispatches that action and completes it. */
  lemma EveryInitialActionCanComplete(
    cfg: Config, c: Charter, d: Decision, at: string, who: string, plan: string, i: nat,
    approver: string, time: string, w: World)
    requires HashingSound(cfg) && cfg.directory == c.missionId && at != "" && plan != "" && i < |c.proposed|
    requires ValidateCharterConstruction(cfg, c, d).Pass? && approver != "" && time != ""
    requires w.restore == w.preDispatch == View(Doc(Approved(c, at, who)), Doc(d)) && RunsThrough(w.halt) && w.outcome.Returns?
    ensures
      var k := Approved(c, at, who);
      var receipt := Doc(MakeReceipt(cfg, k, d));
      var r := InitialActions(cfg, receipt, w.restore, Initialize(k.missionId, plan));
      && r.Ok? && |r.value| == |c.proposed|
      && var a := r.value[i];
         var desk := Desk(Doc(Queue(Some(k.missionId), plan, r.value)), map[], receipt, NoPapers, [], Doc(k), Doc(d));
         var (after, done) := ApproveAndDispatch(Konoha(cfg), desk, Approve(a.id, a.approvalPhrase, approver, time), w);
         && done.Ok? && done.value.id == a.id && done.value.status.Completed?
         && |after.log| == 1 && after.log[0].id == a.id && after.log[0].arguments == a.arguments
  {
    var k := Approved(c, at, who);
    var receipt := Doc(MakeReceipt(cfg, k, d));
    InitialActionIsBuilt(cfg, c, d, at, who, plan, i);
    var actions := InitialActions(cfg, receipt, w.restore, Initialize(k.missionId, plan)).value;
    var q, a := Queue(Some(k.missionId), plan, actions), actions[i];
    var op := Approve(a.id, a.approvalPhrase, approver, time);
    var desk := Desk(Doc(q), map[], receipt, NoPapers, [], Doc(k), Doc(d));
    UniqueIsFoundAt(q, i);
    SecondCheckFollows(cfg, op, a, w.restore, receipt);
    hide ValidateCharterConstruction, InitialActions, Konoha, MakeReceipt, HashingSound;
    assert Approvable(Konoha(cfg), desk, op, w, q, i) by { UniqueIsFoundAt(q, i); }
    SuccessIsExact(Konoha(cfg), desk, op, w, q, i);
  }

  /** The action as the final mark of a successful dispatch writes it. */
  function Done(op: Op, a: Action, report: Report): Action
    requires op.Approve?
  {
    a.(status := Completed, evidence := Some(Approval(op, a.argumentsHash, Some(report))))
  }

  function ClaimsWith(d: Desk, op: Op, a: Action): map<string, ClaimFile>
    requires op.Approve?
  {
    d.claims[op.id := Written(me, ClaimFor(op, a))]
  }

  function WithAction(d: Desk, q: Queue, k: nat, b: Action): Desk
    requires k < |q.actions|
  {
    d.(queue := Doc(q.(actions := q.actions[k := b])))
  }

  /** A fresh, vetted action and where it stands in the queue. */
  predicate Approvable(rules: Rules, d: Desk, op: Op, w: World, q: Queue, k: nat) {
    && op.Approve? && LoadQueue(d.queue) == Ok(q) && Find(q.actions, op.id) == Some(k)
    && IsFresh(q.actions[k]) && VetCall(rules, d, op, w) == Ok(q.actions[k])
  }

  /** The start mark, exactly. */
  lemma StartIsExact(rules: Rules, d: Desk, op: Op, w: World, q: Queue, k: nat)
    requires Approvable(rules, d, op, w, q, k) && RunsThrough(w.halt)
    ensures
      var a := q.actions[k];
      var q' := q.(actions := q.actions[k := Begun(op, a)]);
      && Find(q'.actions, op.id) == Some(k) && Row(q', op.id) == Ok(Begun(op, a))
      && VerifyClaim(ClaimsWith(d, op, a), Begun(op, a)).Pass?
      && ApproveAndDispatch(rules, d, op, w)
           == RunCall(rules, WithAction(d, q, k, Begun(op, a)).(claims := ClaimsWith(d, op, a)), q', Begun(op, a), op, w)
  {
    var a, hash := q.actions[k], q.actions[k].argumentsHash;
    StartSucceeds(d.claims, q, op, a);
    TransitionMoves(ClaimsWith(d, op, a), q, op.id, Proposed, hash, Running, Approval(op, hash, None));
    hide Transition, VerifyClaim, Row, VetCall, RunCall, LoadQueue, Find;
  }

  /** A successful approval leaves exactly this. */
  lemma SuccessIsExact(rules: Rules, d: Desk, op: Op, w: World, q: Queue, k: nat)
    requires Approvable(rules, d, op, w, q, k) && RunsThrough(w.halt) && w.outcome.Returns?
    requires rules.check(Begun(op, q.actions[k]), PreDispatch, w.preDispatch, d.receipt)
    ensures
      var a := q.actions[k];
      var done := Done(op, a, w.outcome.report);
      ApproveAndDispatch(rules, d, op, w)
        == (WithAction(d, q, k, done).(claims := ClaimsWith(d, op, a), log := d.log + [Begun(op, a)]), Ok(done))
  {
    StartIsExact(rules, d, op, w, q, k);
    var a, hash := q.actions[k], q.actions[k].argumentsHash;
    var q' := q.(actions := q.actions[k := Begun(op, a)]);
    var evidence := Approval(op, hash, Some(w.outcome.report));
    hide VerifyClaim, VetCall, LoadQueue, ApproveAndDispatch, Find;
    assert Transition(ClaimsWith(d, op, a), q', op.id, Running, hash, Completed, evidence).Ok?;
    TransitionMoves(ClaimsWith(d, op, a), q', op.id, Running, hash, Completed, evidence);
    hide Transition, Row;
    assert q'.actions[k := Done(op, a, w.outcome.report)] == q.actions[k := Done(op, a, w.outcome.report)];
  }

  /** And spelled out: the row completed with approver, time, hash and report, the claim with the
      action's own fields and the same approver and time, one dispatch of the running action. */
  lemma SuccessLeaves(rules: Rules, d: Desk, op: Op, w: World, q: Queue, k: nat)
    requires Approvable(rules, d, op, w, q, k) && RunsThrough(w.halt) && w.outcome.Returns?
    requires rules.check(Begun(op, q.actions[k]), PreDispatch, w.preDispatch, d.receipt)
    ensures
      var a := q.actions[k];
      var started := Some(Evidence(op.approver, op.time, a.argumentsHash, None));
      var finished := Some(Evidence(op.approver, op.time, a.argumentsHash, Some(w.outcome.report)));
      ApproveAndDispatch(rules, d, op, w).0 == d.(
        queue := Doc(q.(actions := q.actions[k := a.(status := Completed, evidence := finished)])),
        claims := d.claims[op.id := Written(0, Claim(a.missionId, a.planId, a.id, a.argumentsHash, op.approver, op.time))],
        log := d.log + [a.(status := Running, evidence := started)])
  {
    SuccessIsExact(rules, d, op, w, q, k);
    hide ApproveAndDispatch, VetCall, Find, LoadQueue;
  }

  /** A dispatcher that raises leaves the action failed. */
  lemma FailureIsExact(rules: Rules, d: Desk, op: Op, w: World, q: Queue, k: nat)
    requires Approvable(rules, d, op, w, q, k) && RunsThrough(w.halt) && w.outcome.Raises?
    requires rules.check(Begun(op, q.actions[k]), PreDispatch, w.preDispatch, d.receipt)
    ensures
      var a := q.actions[k];
      var failed := Begun(op, a).(status := Failed);
      var (d', r) := ApproveAndDispatch(rules, d, op, w);
      d' == WithAction(d, q, k, failed).(claims := ClaimsWith(d, op, a), log := d.log + [Begun(op, a)]) && r.Err?
  {
    StartIsExact(rules, d, op, w, q, k);
    var a, hash := q.actions[k], q.actions[k].argumentsHash;
    var q' := q.(actions := q.actions[k := Begun(op, a)]);
    var evidence := Approval(op, hash, None);
    hide VerifyClaim, VetCall, LoadQueue, ApproveAndDispatch, Find;
    assert Transition(ClaimsWith(d, op, a), q', op.id, Running, hash, Failed, evidence).Ok?;
    TransitionMoves(ClaimsWith(d, op, a), q', op.id, Running, hash, Failed, evidence);
    hide Transition, Row;
    assert q'.actions[k := Begun(op, a).(status := Failed)] == q.actions[k := Begun(op, a).(status := Failed)];
  }

  /** A refused one leaves the action blocked if the repeated check passes, and running if not. */
  lemma RefusalIsExact(rules: Rules, d: Desk, op: Op, w: World, q: Queue, k: nat)
    requires Approvable(rules, d, op, w, q, k) && RunsThrough(w.halt)
    requires !rules.check(Begun(op, q.actions[k]), PreDispatch, w.preDispatch, d.receipt)
    ensures
      var a := q.actions[k];
      var again := rules.check(Begun(op, a), Restore, w.recheck, d.receipt);
      var b := if again then Begun(op, a).(status := Blocked) else Begun(op, a);
      var (d', r) := ApproveAndDispatch(rules, d, op, w);
      d' == WithAction(d, q, k, b).(claims := ClaimsWith(d, op, a)) && r.Err?
  {
    StartIsExact(rules, d, op, w, q, k);
    var a := q.actions[k];
    var q' := q.(actions := q.actions[k := Begun(op, a)]);
    hide VerifyClaim, VetCall, LoadQueue, ApproveAndDispatch, Find, FinishCall;
    assert q'.actions[k := Begun(op, a).(status := Blocked)] == q.actions[k := Begun(op, a).(status := Blocked)];
  }

  // ---------------------------------------------------------------- and where it does not

  lemma UnlistedFollowupFails(cfg: Config, a: Action, stage: Stage, c: Charter, d: Decision, view: View, receipt: File<Receipt>)
    requires LoadAuthoritativeState(cfg, view.charter, view.decision, receipt) == Ok((c, d))
    requires a.tier.Followup? && a.skill !in c.followups
    ensures !Konoha(cfg).check(a, stage, view, receipt)
  {
    hide CheckIdentity, LoadAuthoritativeState, CheckProvider, SkillFits;
  }

  /** A follow-up that the charter does not list is refused, new or already queued. */
  lemma UnlistedFollowupStops(cfg: Config, desk: Desk, op: Op, c: Charter, d: Decision, view: View)
    requires op.Append? && op.skill !in c.followups
    requires LoadAuthoritativeState(cfg, view.charter, view.decision, desk.receipt) == Ok((c, d))
    ensures AppendChecked(Konoha(cfg), desk, op, view).1.Stop?
  {
    var q := LoadQueue(desk.queue);
    if q.Ok? {
      var built := Konoha(cfg).candidate(op, q.value, view, desk.receipt);
      if built.Ok? {
        CandidateIsAFollowup(cfg, op, q.value, c, d, view, desk.receipt);
        UnlistedFollowupFails(cfg, built.value, FollowupAppend, c, d, view, desk.receipt);
        var found := Find(q.value.actions, built.value.id);
        if found.Some? && SameProposal(q.value.actions[found.value], built.value) {
          UnlistedFollowupFails(cfg, q.value.actions[found.value], Restore, c, d, view, desk.receipt);
        }
      }
    }
    hide Konoha, LoadAuthoritativeState, LoadQueue;
  }

  lemma CandidateIsAFollowup(cfg: Config, op: Op, q: Queue, c: Charter, d: Decision, view: View, receipt: File<Receipt>)
    requires op.Append? && Konoha(cfg).candidate(op, q, view, receipt).Ok?
    ensures Konoha(cfg).candidate(op, q, view, receipt).value.skill == op.skill
    ensures Konoha(cfg).candidate(op, q, view, receipt).value.tier.Followup?
  {
    hide LoadAuthoritativeState, BuildArguments, AfterDash, Upper;
  }

  lemma PatchlessCharterLoads(
    cfg: Config, intent: Intent, dec: Decision, limits: Constraints, charterId: string, body: string, at: string, who: string)
    requires HexDigests(cfg) && cfg.directory == dec.missionId && at != "" && !PatchImplied(intent)
    requires BuildCharter(cfg, intent, dec, limits, charterId, body).Ok?
    ensures
      var k := Approved(BuildCharter(cfg, intent, dec, limits, charterId, body).value, at, who);
      k.followups == [] && LoadAuthoritativeState(cfg, Doc(k), Doc(dec), Doc(MakeReceipt(cfg, k, dec))) == Ok((k, dec))
  {
    ApprovedPairLoads(cfg, BuildCharter(cfg, intent, dec, limits, charterId, body).value, dec, at, who);
    hide LoadAuthoritativeState, MakeReceipt, HexDigests, ValidateCharterConstruction;
  }

  /** An audit-only mission cannot be finished by completing its audit: the charter that was
      built for it refuses the tests that every completed audit calls for, and if the audit
      was the last pending action the mission is stalled: over every sequence of later inputs
      its queue, claims, receipt, log and records never change, and no review is prepared. */
  lemma AuditOnlyMissionStalls(
    cfg: Config, intent: Intent, dec: Decision, limits: Constraints, charterId: string, body: string,
    at: string, who: string, desk: Desk, op: Op, w: World)
    requires HexDigests(cfg) && cfg.directory == dec.missionId && at != "" && !PatchImplied(intent)
    requires BuildCharter(cfg, intent, dec, limits, charterId, body).Ok?
    requires
      var k := Approved(BuildCharter(cfg, intent, dec, limits, charterId, body).value, at, who);
      w.append == View(Doc(k), Doc(dec)) && desk.receipt == Doc(MakeReceipt(cfg, k, dec))
    requires op.Approve? && desk.papers == NoPapers && !w.halt.AtFollowups?
    requires
      var (after, done) := ApproveAndDispatch(Konoha(cfg), desk, op, w);
      && done.Ok? && done.value.skill.ModelAudit? && FollowupOf(done.value).Ok? && NextPending(RowsOf(after.queue)).None?
    ensures
      var (after, answer) := ApproveAction(Konoha(cfg), desk, op, w);
      answer.Declined? && Stalled(after) && after == ApproveAndDispatch(Konoha(cfg), desk, op, w).0
  {
    hide Konoha, ApproveAndDispatch, BuildCharter, LoadAuthoritativeState, MakeReceipt, HexDigests, NextPending, PatchImplied,
         ApproveAction, Approved, AppendChecked, Stalled;
    var k := Approved(BuildCharter(cfg, intent, dec, limits, charterId, body).value, at, who);
    PatchlessCharterLoads(cfg, intent, dec, limits, charterId, body, at, who);
    ApproveDecides(Konoha(cfg), desk, op, w);
    var (after, done) := ApproveAndDispatch(Konoha(cfg), desk, op, w);
    var call := FollowupOf(done.value).value.value;
    UnlistedFollowupStops(cfg, after, call, k, dec, w.append);
    RefusedFollowupStalls(Konoha(cfg), desk, op, w);
  }
}
