/** The program's own authority rules, as the queue protocol consults them. */
module QueueRules {
  import opened Common
  import opened Registry
  import opened Authority
  import opened Builder
  import opened QueueProtocol
  import opened QueueClaims
  import opened QueueTable
  import opened QueueInvariant

  /** The follow-up that append_action_checked proposes. */
  function Candidate(cfg: Config, receipt: File<Receipt>, view: View, op: Op, q: Queue): Result<Action>
    requires op.Append?
  {
    if q.mission != Some(op.mission) then Err(MissionBinding) else
    var docs :- LoadAuthoritativeState(cfg, view.charter, view.decision, receipt);
    BuildAction(cfg, op.mission, op.plan, op.skill, Followup, docs.0, docs.1, op.extra)
  }

  /** One initial action per proposed skill, in order. */
  function BuildAll(cfg: Config, mission: string, plan: string, skills: seq<SkillId>, c: Charter, d: Decision)
    : (r: Result<seq<Action>>)
    ensures r.Ok? ==> |r.value| == |skills|
    ensures r.Ok? ==> forall i | 0 <= i < |skills| ::
      BuildAction(cfg, mission, plan, skills[i], Initial, c, d, map[]) == Ok(r.value[i])
  {
    if skills == [] then Ok([])
    else
      var first :- BuildAction(cfg, mission, plan, skills[0], Initial, c, d, map[]);
      var rest :- BuildAll(cfg, mission, plan, skills[1..], c, d);
      Ok([first] + rest)
  }

  function CheckAll(cfg: Config, actions: seq<Action>, view: View, receipt: File<Receipt>): Check {
    if actions == [] then Pass
    else
      :- ValidateActionAuthority(cfg, actions[0], QueueInit, view.charter, view.decision, receipt);
      CheckAll(cfg, actions[1..], view, receipt)
  }

  function InitialActions(cfg: Config, receipt: File<Receipt>, view: View, op: Op): Result<seq<Action>>
    requires op.Initialize?
  {
    var docs :- LoadAuthoritativeState(cfg, view.charter, view.decision, receipt);
    :- Need(docs.0.missionId == op.mission, MissionBinding);
    var actions :- BuildAll(cfg, op.mission, op.plan, docs.0.proposed, docs.0, docs.1);
    :- Ensure(CheckAll(cfg, actions, view, receipt));
    Ok(actions)
  }

  function Konoha(cfg: Config): Rules {
    Rules(
      (a: Action, stage: Stage, view: View, receipt: File<Receipt>) =>
        ValidateActionAuthority(cfg, a, stage, view.charter, view.decision, receipt).Pass?,
      (op: Op, q: Queue, view: View, receipt: File<Receipt>) =>
        if op.Append? then Candidate(cfg, receipt, view, op, q) else Err(ValueInvalid),
      (op: Op, view: View, receipt: File<Receipt>) =>
        if op.Initialize? then InitialActions(cfg, receipt, view, op) else Err(ValueInvalid))
  }

  // ---------------------------------------------------------------- fresh actions

  lemma LoadedSkillsAreDistinct(cfg: Config, receipt: File<Receipt>, view: View)
    requires LoadAuthoritativeState(cfg, view.charter, view.decision, receipt).Ok?
    ensures Distinct(LoadAuthoritativeState(cfg, view.charter, view.decision, receipt).value.0.proposed)
  {
    hide VerifyReceipt, RegistrationOk, DecisionShapeOk;
  }

  lemma InitialActionsAreFresh(cfg: Config, receipt: File<Receipt>, view: View, op: Op)
    requires HashingSound(cfg) && op.Initialize?
    ensures InitialAreFresh(InitialActions(cfg, receipt, view, op))
  {
    hide BuildArguments, HashingSound, CheckAll, AfterDash, Upper, LoadAuthoritativeState;
    var r := InitialActions(cfg, receipt, view, op);
    if r.Ok? {
      LoadedSkillsAreDistinct(cfg, receipt, view);
      var (c, d) := LoadAuthoritativeState(cfg, view.charter, view.decision, receipt).value;
      forall i, j | 0 <= i < j < |r.value| ensures r.value[i].id != r.value[j].id {
        if r.value[i].id == r.value[j].id {
          BuiltIdsDistinct(cfg, op.mission, op.plan, c, d, c.proposed[i], Initial, map[], c.proposed[j], Initial, map[]);
        }
      }
    }
  }

  /** The program's rules never queue anything but fresh proposals under different ids. */
  lemma KonohaIsFresh(cfg: Config)
    requires HashingSound(cfg)
    ensures FreshActions(Konoha(cfg))
  {
    hide InitialActions, HashingSound, BuildArguments, LoadAuthoritativeState, AfterDash, Upper;
    forall op, view, receipt ensures InitialAreFresh(Konoha(cfg).initial(op, view, receipt)) {
      if op.Initialize? { InitialActionsAreFresh(cfg, receipt, view, op); }
    }
  }

  // ---------------------------------------------------------------- what every dispatch was allowed by

  /** The bindings of a dispatched action: receipt, charter and decision name each other, the
      arguments carry every document and provider binding, the charter allows the skill in
      this tier, and no human constraint is broken. */
  predicate Authorised(cfg: Config, r: Receipt, c: Charter, d: Decision, a: Action) {
    && r.charterDigest == cfg.sha(CharterText(c)) && r.charterId == c.charterId
    && r.decisionDigest == cfg.sha(DecisionText(d)) && r.decisionId == d.decisionId == c.decisionId
    && r.missionId == a.missionId == c.missionId == d.missionId == cfg.directory
    && c.state.CharterApproved? && c.decisionDigest == r.decisionDigest
    && DocumentsBound(cfg, a.arguments, a.planId, a.skill, a.tier, c, d)
    && Registered(a.skill) && a.skill !in c.forbidden
    && (match a.tier
        case Initial => a.skill in c.proposed
        case Followup => a.skill in c.followups
        case OtherTier(_) => false)
    && (IsProviderSkill(a.skill) ==>
          && EffectiveCapabilities(a.skill, Some(d.selection.provider)).Ok?
          && ProviderBound(a.arguments, d.selection, EffectiveCapabilities(a.skill, Some(d.selection.provider)).value)
          && !(c.limits.localModelOnly && IsRemote(d.selection.provider)))
    && SkillFits(c.limits, d.selection.provider, a.skill)
    && a.id == ActionId(cfg, a.missionId, a.skill, cfg.sha(ArgumentsText(a.arguments)))
    && a.status.Running? && EvidenceComplete(a)
  }

  /** A check that passes has read all three documents. */
  lemma PassedMeansDocuments(cfg: Config, a: Action, stage: Stage, view: View, receipt: File<Receipt>)
    requires Konoha(cfg).check(a, stage, view, receipt)
    ensures view.charter.Doc? && view.decision.Doc? && receipt.Doc?
  {
    hide CheckIdentity, CheckBinding, CharterShapeOk, DecisionShapeOk, ReceiptShapeOk, RegistrationOk;
  }

  lemma LoadedMeansNamed(cfg: Config, c: Charter, d: Decision, r: Receipt)
    requires LoadAuthoritativeState(cfg, Doc(c), Doc(d), Doc(r)).Ok?
    ensures LoadAuthoritativeState(cfg, Doc(c), Doc(d), Doc(r)) == Ok((c, d))
    ensures r.charterDigest == cfg.sha(CharterText(c)) && r.charterId == c.charterId && c.state.CharterApproved?
    ensures r.decisionDigest == cfg.sha(DecisionText(d)) == c.decisionDigest && r.decisionId == d.decisionId == c.decisionId
    ensures r.missionId == c.missionId == d.missionId == cfg.directory
  {
    hide RegistrationOk, DecisionShapeOk, ReceiptShapeOk, NamesOk;
  }

  lemma CheckedMeansBound(cfg: Config, a: Action, stage: Stage, c: Charter, d: Decision)
    requires CheckIdentity(cfg, a, stage).Pass? && CheckBinding(cfg, a, c, d).Pass?
    ensures DocumentsBound(cfg, a.arguments, a.planId, a.skill, a.tier, c, d) && a.missionId == c.missionId
    ensures IsProviderSkill(a.skill) ==>
      && EffectiveCapabilities(a.skill, Some(d.selection.provider)).Ok?
      && ProviderBound(a.arguments, d.selection, EffectiveCapabilities(a.skill, Some(d.selection.provider)).value)
      && !(c.limits.localModelOnly && IsRemote(d.selection.provider))
    ensures Registered(a.skill) && a.skill !in c.forbidden && TierAllows(c, a) && !a.tier.OtherTier?
    ensures SkillFits(c.limits, d.selection.provider, a.skill)
    ensures a.id == ActionId(cfg, a.missionId, a.skill, cfg.sha(ArgumentsText(a.arguments)))
    ensures a.argumentsHash == cfg.sha(ArgumentsText(a.arguments))
    ensures (stage.QueueInit? ==> a.tier.Initial?) && (stage.FollowupAppend? ==> a.tier.Followup?)
    ensures stage.PreDispatch? ==> a.status.Running? && EvidenceComplete(a)
  {
    hide EffectiveCapabilities, Spell, IsName, ActionId, EvidenceComplete, SkillFits;
  }

  lemma PassedMeansAuthorised(cfg: Config, a: Action, c: Charter, d: Decision, r: Receipt)
    requires ValidateActionAuthority(cfg, a, PreDispatch, Doc(c), Doc(d), Doc(r)).Pass?
    ensures Authorised(cfg, r, c, d, a)
  {
    hide LoadAuthoritativeState, CheckIdentity, CheckBinding, DocumentsBound, ProviderBound, SkillFits, ActionId,
         EffectiveCapabilities, EvidenceComplete;
    LoadedMeansNamed(cfg, c, d, r);
    CheckedMeansBound(cfg, a, PreDispatch, c, d);
  }

  /** In every run, even one in which the queue, charter and decision files are rewritten at
      will, each dispatched action is bound to the digests in the receipt, is allowed by the
      charter those digests name, runs on exactly the decided provider, model and strategy,
      and breaks no human constraint. */
  lemma EveryDispatchIsAuthorised(cfg: Config, states: seq<State>, moves: seq<Move>, i: nat, k: nat)
    requires IsRun(Konoha(cfg), states, moves) && i < |states| && k < |states[i].log|
    ensures
      var entry := states[i].log[k];
      && states[i].receipt.Doc?
      && Authorised(cfg, states[i].receipt.value, entry.basis.charter, entry.basis.decision, entry.action)
  {
    hide After, ValidateActionAuthority, Authorised;
    AccountableHolds(Konoha(cfg), states, moves, i);
    var s := states[i];
    var entry := s.log[k];
    assert Vouched(Konoha(cfg), s, entry.pid, entry.action, entry.basis);
    PassedMeansAuthorised(cfg, entry.action, entry.basis.charter, entry.basis.decision, s.receipt.value);
  }

  /** All dispatches of a run were authorised by one charter and one decision. */
  lemma OneCharterPerRun(cfg: Config, states: seq<State>, moves: seq<Move>, i: nat, k: nat, m: nat)
    requires CollisionFree(cfg) && IsRun(Konoha(cfg), states, moves) && i < |states|
    requires k < |states[i].log| && m < |states[i].log|
    ensures states[i].log[k].basis == states[i].log[m].basis
  {
    hide After, Konoha;
    EveryDispatchIsAuthorised(cfg, states, moves, i, k);
    EveryDispatchIsAuthorised(cfg, states, moves, i, m);
    var x, y := states[i].log[k].basis, states[i].log[m].basis;
    assert !Collides(cfg, CharterText(x.charter), CharterText(y.charter));
    assert !Collides(cfg, DecisionText(x.decision), DecisionText(y.decision));
  }

  /** Approval binds content: whatever was done to the queue file between proposal and
      approval, a dispatch under the id of a built proposal has that proposal's mission,
      skill and arguments. */
  lemma ApprovalBindsContent(
    cfg: Config, states: seq<State>, moves: seq<Move>, i: nat, k: nat,
    mission: string, plan: string, skill: SkillId, tier: Tier, c: Charter, d: Decision, extra: Arguments)
    requires HashingSound(cfg) && IsRun(Konoha(cfg), states, moves) && i < |states| && k < |states[i].log|
    requires BuildAction(cfg, mission, plan, skill, tier, c, d, extra).Ok?
    requires BuildAction(cfg, mission, plan, skill, tier, c, d, extra).value.id == states[i].log[k].action.id
    ensures
      var built, sent := BuildAction(cfg, mission, plan, skill, tier, c, d, extra).value, states[i].log[k].action;
      sent.missionId == built.missionId && sent.skill == built.skill && sent.arguments == built.arguments
  {
    hide After, Konoha, BuildArguments, HashingSound, IdMaterial, AfterDash, Upper;
    EveryDispatchIsAuthorised(cfg, states, moves, i, k);
    var built, sent := BuildAction(cfg, mission, plan, skill, tier, c, d, extra).value, states[i].log[k].action;
    ActionIdIsInjective(cfg, mission, skill, built.arguments, sent.missionId, sent.skill, sent.arguments);
  }
}
