/** What a decision appends: an audit that reports a bound patch is followed by exactly that
    patch, an audit without one and a patch by the tests, everything else by nothing. */
module Followups {
  import opened Common
  import opened Registry
  import opened Authority
  import opened Builder
  import opened QueueProtocol
  import opened QueueTable
  import opened QueueInvariant
  import opened QueueRules
  import opened Lifecycle
  import opened Session
  import opened SessionTheorems
  import Patch

  // ---------------------------------------------------------------- the follow-ups, by their content

  predicate Carries(args: Arguments, key: ArgKey, value: ArgValue) {
    key in args && args[key] == value
  }

  /** The action reports a patch of at least one operation. */
  predicate ReportsPatch(a: Action) {
    && a.evidence.Some? && a.evidence.value.report.Some? && a.evidence.value.report.value.patch.Some?
    && a.evidence.value.report.value.patch.value.operationCount > 0
  }

  predicate AppliesReport(b: Action, p: PatchProposal) {
    && b.skill == ApplyPatch
    && Carries(b.arguments, PatchIdKey, ArgValue.Text(p.patchId)) && Carries(b.arguments, PatchShaKey, ArgValue.Text(p.patchSha))
    && Carries(b.arguments, PatchPlanKey, ArgValue.Text(p.patchPlan))
    && Carries(b.arguments, ChangedPathsKey, ArgValue.Texts(p.changedPaths))
  }

  predicate RunsTests(b: Action) {
    && b.skill == PostPatchTests
    && Carries(b.arguments, Extra("suite_profile"), ArgValue.Text("v3.6.0_post_patch"))
    && Carries(b.arguments, ExternalKey, ArgValue.Text("blocked"))
  }

  /** b is what a completed a calls for. */
  predicate FollowsUp(a: Action, b: Action) {
    && IsFresh(b) && b.tier == Followup && b.missionId == a.missionId && b.planId == a.planId
    && match a.skill
       case ModelAudit => if ReportsPatch(a) then AppliesReport(b, a.evidence.value.report.value.patch.value) else RunsTests(b)
       case ApplyPatch => RunsTests(b)
       case _ => false
  }

  /** Extra arguments outside the binding keys reach the built action untouched. */
  lemma ExtrasSurvive(
    cfg: Config, mission: string, plan: string, skill: SkillId, c: Charter, d: Decision, extra: Arguments, key: ArgKey)
    requires BuildAction(cfg, mission, plan, skill, Followup, c, d, extra).Ok? && !IsProviderSkill(skill)
    requires key in extra
    requires key !in {SkillKey, TierKey, PlanKey, CharterIdKey, CharterDigestKey, DecisionIdKey, DecisionDigestKey}
    ensures Carries(BuildAction(cfg, mission, plan, skill, Followup, c, d, extra).value.arguments, key, extra[key])
  {
    hide AfterDash, Upper, ActionId;
  }

  lemma BuiltFresh(
    cfg: Config, mission: string, plan: string, skill: SkillId, c: Charter, d: Decision, extra: Arguments)
    requires BuildAction(cfg, mission, plan, skill, Followup, c, d, extra).Ok?
    ensures
      var b := BuildAction(cfg, mission, plan, skill, Followup, c, d, extra).value;
      IsFresh(b) && b.tier == Followup && b.missionId == mission && b.planId == plan && b.skill == skill
  {
    hide AfterDash, Upper, ActionId, BuildArguments;
  }

  lemma BuiltPatchApplies(cfg: Config, a: Action, p: PatchProposal, c: Charter, d: Decision)
    requires BuildAction(cfg, a.missionId, a.planId, ApplyPatch, Followup, c, d, PatchAfter(a, p).extra).Ok?
    ensures AppliesReport(BuildAction(cfg, a.missionId, a.planId, ApplyPatch, Followup, c, d, PatchAfter(a, p).extra).value, p)
  {
    hide BuildAction;
    var extra := PatchAfter(a, p).extra;
    BuiltFresh(cfg, a.missionId, a.planId, ApplyPatch, c, d, extra);
    ExtrasSurvive(cfg, a.missionId, a.planId, ApplyPatch, c, d, extra, PatchIdKey);
    ExtrasSurvive(cfg, a.missionId, a.planId, ApplyPatch, c, d, extra, PatchShaKey);
    ExtrasSurvive(cfg, a.missionId, a.planId, ApplyPatch, c, d, extra, PatchPlanKey);
    ExtrasSurvive(cfg, a.missionId, a.planId, ApplyPatch, c, d, extra, ChangedPathsKey);
  }

  lemma BuiltTestsRun(cfg: Config, a: Action, c: Charter, d: Decision)
    requires BuildAction(cfg, a.missionId, a.planId, PostPatchTests, Followup, c, d, TestsAfter(a).extra).Ok?
    ensures RunsTests(BuildAction(cfg, a.missionId, a.planId, PostPatchTests, Followup, c, d, TestsAfter(a).extra).value)
  {
    hide BuildAction;
    var extra := TestsAfter(a).extra;
    BuiltFresh(cfg, a.missionId, a.planId, PostPatchTests, c, d, extra);
    ExtrasSurvive(cfg, a.missionId, a.planId, PostPatchTests, c, d, extra, Extra("suite_profile"));
    ExtrasSurvive(cfg, a.missionId, a.planId, PostPatchTests, c, d, extra, ExternalKey);
  }

  // ---------------------------------------------------------------- on the result of a decision

  /** The rows are as they were, or there is exactly one more. */
  predicate Grows(rows: seq<Action>, rows': seq<Action>, cause: Action) {
    || rows' == rows
    || (|rows'| == |rows| + 1 && rows' == rows + [rows'[|rows|]] && FollowsUp(cause, rows'[|rows|]))
  }

  /** What a candidate for this operation is. */
  lemma CandidateFollows(cfg: Config, receipt: File<Receipt>, view: View, op: Op, q: Queue, a: Action)
    requires FollowupOf(a) == Ok(Some(op)) && op.Append? && Konoha(cfg).candidate(op, q, view, receipt).Ok?
    ensures FollowsUp(a, Konoha(cfg).candidate(op, q, view, receipt).value)
  {
    hide LoadAuthoritativeState, BuildAction, AppliesReport, RunsTests;
    var (c, d) := LoadAuthoritativeState(cfg, view.charter, view.decision, receipt).value;
    BuiltFresh(cfg, op.mission, op.plan, op.skill, c, d, op.extra);
    if a.skill.ModelAudit? && ReportsPatch(a) {
      BuiltPatchApplies(cfg, a, a.evidence.value.report.value.patch.value, c, d);
    } else {
      BuiltTestsRun(cfg, a, c, d);
    }
  }

  lemma AppendGrows(cfg: Config, d: Desk, op: Op, view: View, a: Action)
    requires FollowupOf(a) == Ok(Some(op)) && op.Append?
    ensures Grows(RowsOf(d.queue), RowsOf(AppendChecked(Konoha(cfg), d, op, view).0.queue), a)
  {
    hide Konoha, FollowupOf, FollowsUp, SameProposal, Find;
    var q := LoadQueue(d.queue);
    if q.Ok? && Konoha(cfg).candidate(op, q.value, view, d.receipt).Ok? {
      CandidateFollows(cfg, d.receipt, view, op, q.value, a);
    }
  }

  lemma AdvanceKeepsQueue(d: Desk, w: World)
    ensures Advance(d, w).0.queue == d.queue
  {
    hide Validation, NextPending;
  }

  lemma FollowGrows(cfg: Config, d: Desk, a: Action, w: World)
    ensures Grows(RowsOf(d.queue), RowsOf(Follow(Konoha(cfg), d, FollowupOf(a), w).0.queue), a)
  {
    hide Konoha, FollowupOf, FollowsUp, AppendChecked, Advance;
    FollowupsAppend(a);
    AdvanceKeepsQueue(d, w);
    if FollowupOf(a).Ok? && FollowupOf(a).value.Some? {
      var op := FollowupOf(a).value.value;
      AppendGrows(cfg, d, op, w.append, a);
      AdvanceKeepsQueue(AppendChecked(Konoha(cfg), d, op, w.append).0, w);
    }
  }

  lemma FollowupsAppend(a: Action)
    ensures FollowupOf(a).Ok? && FollowupOf(a).value.Some? ==> FollowupOf(a).value.value.Append?
  {
  }

  /** A successful approval leaves the rows of its dispatch, and at most one more: for an audit
      that reports a patch, the application of exactly that patch; for an audit without one and
      for a patch, the tests; for anything else nothing. */
  lemma ApprovalAppendsFollowup(cfg: Config, d: Desk, op: Op, w: World)
    requires op.Approve? && ApproveAndDispatch(Konoha(cfg), d, op, w).1.Ok?
    ensures
      var (e, done) := ApproveAndDispatch(Konoha(cfg), d, op, w);
      Grows(RowsOf(e.queue), RowsOf(ApproveAction(Konoha(cfg), d, op, w).0.queue), done.value)
  {
    hide Konoha, ApproveAndDispatch, Follow, FollowupOf, Grows;
    var (e, done) := ApproveAndDispatch(Konoha(cfg), d, op, w);
    FollowGrows(cfg, e, done.value, w);
  }

  // ---------------------------------------------------------------- and it does happen

  /** What a completed action should be followed by: the skill and the arguments. */
  function Wanted(a: Action): Option<(SkillId, Arguments)> {
    var tests := map[Extra("suite_profile") := ArgValue.Text("v3.6.0_post_patch"), ExternalKey := ArgValue.Text("blocked")];
    if a.skill == ModelAudit && ReportsPatch(a) then
      var p := a.evidence.value.report.value.patch.value;
      Some((ApplyPatch, map[PatchIdKey := ArgValue.Text(p.patchId), PatchShaKey := ArgValue.Text(p.patchSha),
                            PatchPlanKey := ArgValue.Text(p.patchPlan), ChangedPathsKey := ArgValue.Texts(p.changedPaths)]))
    else if a.skill == ModelAudit || a.skill == ApplyPatch then Some((PostPatchTests, tests))
    else None
  }

  /** A reported patch names itself. */
  predicate Bound(a: Action) {
    a.skill == ModelAudit && ReportsPatch(a) ==>
      a.evidence.value.report.value.patch.value.patchSha != "" && a.evidence.value.report.value.patch.value.patchId != ""
  }

  lemma FollowupIsWanted(a: Action)
    ensures !Bound(a) ==> FollowupOf(a).Err?
    ensures Bound(a) ==>
      FollowupOf(a) ==
        Ok(if Wanted(a).None? then None else Some(Append(a.missionId, a.planId, Wanted(a).value.0, Wanted(a).value.1)))
  {
  }

  /** The follow-up that the documents allow: built for them, accepted, and new in the queue. */
  predicate Acceptable(cfg: Config, e: Desk, a: Action, w: World, b: Action) {
    && Wanted(a).Some? && Bound(a) && e.queue.Doc? && e.queue.value.mission == Some(a.missionId)
    && var docs := LoadAuthoritativeState(cfg, w.append.charter, w.append.decision, e.receipt);
       && docs.Ok?
       && BuildAction(cfg, a.missionId, a.planId, Wanted(a).value.0, Followup, docs.value.0, docs.value.1, Wanted(a).value.1)
            == Ok(b)
       && ValidateActionAuthority(cfg, b, FollowupAppend, w.append.charter, w.append.decision, e.receipt).Pass?
       && forall row | row in e.queue.value.actions :: row.id != b.id
  }

  /** An acceptable follow-up is appended; where none is wanted, nothing is. */
  lemma AcceptableFollowupIsAppended(cfg: Config, d: Desk, op: Op, w: World, b: Action)
    requires op.Approve? && ApproveAndDispatch(Konoha(cfg), d, op, w).1.Ok? && !w.halt.AtFollowups?
    ensures
      var (e, done) := ApproveAndDispatch(Konoha(cfg), d, op, w);
      var rows' := RowsOf(ApproveAction(Konoha(cfg), d, op, w).0.queue);
      && (Acceptable(cfg, e, done.value, w, b) ==> rows' == RowsOf(e.queue) + [b] && FollowsUp(done.value, b))
      && (Wanted(done.value).None? ==> rows' == RowsOf(e.queue))
  {
    var (e, done) := ApproveAndDispatch(Konoha(cfg), d, op, w);
    FollowupIsWanted(done.value);
    ApprovalAppendsFollowup(cfg, d, op, w);
    if Acceptable(cfg, e, done.value, w, b) {
      AcceptableIsAppended(cfg, e, done.value, w, b);
      AdvanceKeepsQueue(e.(queue := Doc(e.queue.value.(actions := e.queue.value.actions + [b]))), w);
    }
    AdvanceKeepsQueue(e, w);
    hide Konoha, ApproveAndDispatch, FollowupOf, FollowsUp, Wanted, Bound, Acceptable, AppendChecked, Advance;
  }

  lemma AcceptableIsAppended(cfg: Config, e: Desk, a: Action, w: World, b: Action)
    requires Acceptable(cfg, e, a, w, b)
    ensures
      var op := Append(a.missionId, a.planId, Wanted(a).value.0, Wanted(a).value.1);
      AppendChecked(Konoha(cfg), e, op, w.append)
        == (e.(queue := Doc(e.queue.value.(actions := e.queue.value.actions + [b]))), Clear)
  {
    hide LoadAuthoritativeState, BuildAction, ValidateActionAuthority, Wanted, Bound;
  }

  lemma RejectionAppendsTests(cfg: Config, d: Desk, op: Op, skill: SkillId, w: World)
    requires op.Reject? && RejectChecked(Konoha(cfg), d, op, w).1.Ok?
    ensures
      var (e, rejected) := RejectChecked(Konoha(cfg), d, op, w);
      var rows, rows' := RowsOf(e.queue), RowsOf(RejectAction(Konoha(cfg), d, op, skill, w).0.queue);
      || rows' == rows
      || (skill == ApplyPatch && |rows'| == |rows| + 1 && rows' == rows + [rows'[|rows|]]
          && FollowsUp(rejected.value.(skill := ApplyPatch), rows'[|rows|]))
  {
    hide Konoha, RejectChecked, FollowupOf, AppendChecked, Advance, FollowsUp;
    var (e, rejected) := RejectChecked(Konoha(cfg), d, op, w);
    AdvanceKeepsQueue(e, w);
    if skill.ApplyPatch? {
      var cause := rejected.value.(skill := ApplyPatch);
      TestsFollowAPatch(cause, rejected.value);
      AppendGrows(cfg, e, TestsAfter(rejected.value), w.append, cause);
      AdvanceKeepsQueue(AppendChecked(Konoha(cfg), e, TestsAfter(rejected.value), w.append).0, w);
    }
  }

  /** After a rejected patch the tests are appended whenever the documents allow them. */
  lemma AcceptableTestsAreAppended(cfg: Config, d: Desk, op: Op, w: World, b: Action)
    requires op.Reject? && RejectChecked(Konoha(cfg), d, op, w).1.Ok? && !w.halt.AtFollowups?
    ensures
      var (e, rejected) := RejectChecked(Konoha(cfg), d, op, w);
      Acceptable(cfg, e, rejected.value.(skill := ApplyPatch), w, b) ==>
        RowsOf(RejectAction(Konoha(cfg), d, op, ApplyPatch, w).0.queue) == RowsOf(e.queue) + [b] && RunsTests(b)
  {
    var (e, rejected) := RejectChecked(Konoha(cfg), d, op, w);
    var cause := rejected.value.(skill := ApplyPatch);
    RejectionAppendsTests(cfg, d, op, ApplyPatch, w);
    if Acceptable(cfg, e, cause, w, b) {
      AcceptableIsAppended(cfg, e, cause, w, b);
      TestsFollowAPatch(cause, rejected.value);
      FollowupIsWanted(cause);
      AdvanceKeepsQueue(e.(queue := Doc(e.queue.value.(actions := e.queue.value.actions + [b]))), w);
    }
    hide Konoha, RejectChecked, FollowupOf, Wanted, Bound, Acceptable, AppendChecked, Advance;
  }

  lemma TestsFollowAPatch(cause: Action, a: Action)
    requires cause == a.(skill := ApplyPatch)
    ensures FollowupOf(cause) == Ok(Some(TestsAfter(a))) && TestsAfter(a).Append?
  {
  }

  // ---------------------------------------------------------------- from the audit to the patch tool

  lemma AppendedIsBuilt(cfg: Config, d: Desk, op: Op, view: View) returns (c: Charter, dec: Decision)
    requires op.Append? && RowsOf(AppendChecked(Konoha(cfg), d, op, view).0.queue) != RowsOf(d.queue)
    ensures
      var rows, rows' := RowsOf(d.queue), RowsOf(AppendChecked(Konoha(cfg), d, op, view).0.queue);
      && |rows'| == |rows| + 1
      && d.queue.Doc? && d.queue.value.mission == Some(op.mission)
      && LoadAuthoritativeState(cfg, view.charter, view.decision, d.receipt) == Ok((c, dec))
      && BuildAction(cfg, op.mission, op.plan, op.skill, Followup, c, dec, op.extra) == Ok(rows'[|rows|])
  {
    hide LoadAuthoritativeState, BuildAction, ValidateActionAuthority, SameProposal, Find;
    var docs := LoadAuthoritativeState(cfg, view.charter, view.decision, d.receipt).value;
    c, dec := docs.0, docs.1;
  }

  predicate Reports(a: Action, p: PatchProposal) {
    a.skill == ModelAudit && ReportsPatch(a) && a.evidence.value.report.value.patch.value == p
  }

  lemma FollowedPatchIsBuilt(cfg: Config, e: Desk, a: Action, p: PatchProposal, w: World, b: Action)
    returns (c: Charter, dec: Decision)
    requires Reports(a, p) && RowsOf(Follow(Konoha(cfg), e, FollowupOf(a), w).0.queue) == RowsOf(e.queue) + [b]
    ensures BuildAction(cfg, a.missionId, a.planId, ApplyPatch, Followup, c, dec, PatchAfter(a, p).extra) == Ok(b)
  {
    hide BuildAction, AppendChecked, Advance, Konoha;
    var op := PatchAfter(a, p);
    AdvanceKeepsQueue(e, w);
    AdvanceKeepsQueue(AppendChecked(Konoha(cfg), e, op, w.append).0, w);
    assert RowsOf(e.queue) + [b] != RowsOf(e.queue);
    c, dec := AppendedIsBuilt(cfg, e, op, w.append);
  }

  /** From the audit to the patch tool. A completed audit reports the proposal made for `ops`,
      and its approval appends b. Whatever is dispatched under b's id, in any run and however
      the queue was edited: if the checks before the patch tool pass, the operations in the
      plan file are `ops`, for the audited mission, with the same preview, and the live
      proposal is the reported one. */
  lemma AuditedPatchIsApplied(
    cfg: Config, d: Desk, op: Op, w: World, b: Action, states: seq<State>, moves: seq<Move>, i: nat, k: nat,
    mission: string, repo: Patch.Repo, ops: seq<Operation>, planPath: string,
    mission': string, repo': Patch.Repo, live: PatchProposal, status: string, ops': seq<Operation>)
    requires HashingSound(cfg) && op.Approve?
    requires
      var (e, done) := ApproveAndDispatch(Konoha(cfg), d, op, w);
      && done.Ok? && Reports(done.value, Patch.Propose(cfg, mission, repo, ops, planPath))
      && RowsOf(ApproveAction(Konoha(cfg), d, op, w).0.queue) == RowsOf(e.queue) + [b]
    requires IsRun(Konoha(cfg), states, moves) && i < |states| && k < |states[i].log| && states[i].log[k].action.id == b.id
    requires Patch.ApplyChecksPass(cfg, mission', repo', states[i].log[k].action, live, status, ops')
    ensures ops' == ops && mission' == mission && Patch.Preview(repo', ops) == Patch.Preview(repo, ops)
    ensures status == "proposed"
    ensures
      var p := Patch.Propose(cfg, mission, repo, ops, planPath);
      live.patchId == p.patchId && live.patchSha == p.patchSha && live.changedPaths == p.changedPaths
  {
    hide Konoha, ApproveAndDispatch, Follow, FollowupOf, Reports, BuildAction, HashingSound, IsRun,
         Patch.Propose, Patch.ApplyChecksPass, Patch.Preview, PatchAfter;
    var (e, done) := ApproveAndDispatch(Konoha(cfg), d, op, w);
    var a, p := done.value, Patch.Propose(cfg, mission, repo, ops, planPath);
    var c, dec := FollowedPatchIsBuilt(cfg, e, a, p, w, b);
    Patch.AppliedPatchIsTheApprovedOne(
      cfg, states, moves, i, k, a, a.planId, c, dec, mission, repo, ops, planPath, mission', repo', live, status, ops');
  }
}
