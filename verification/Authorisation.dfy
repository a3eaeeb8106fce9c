/** The authority checkpoint from outside: which documents load, which charters can be built,
    and which actions pass, each as one exact condition on the plain fields. */
module Authorisation {
  import opened Common
  import opened Registry
  import opened Authority
  import opened Builder
  import opened QueueProtocol
  import opened QueueClaims
  import opened QueueRules

  // ---------------------------------------------------------------- skills against constraints

  /** Which skill may run where. */
  predicate MayRun(limits: Constraints, provider: Provider, skill: SkillId) {
    match skill
    case ApplyPatch => !limits.mutationForbidden
    case TechnicalPlan => provider.Ollama? || (provider.Codex? && !limits.networkBlocked)
    case ModelAudit => provider.Ollama?
    case Unregistered(_) => false
    case _ => true
  }

  lemma FitsIff(limits: Constraints, provider: Provider, skill: SkillId)
    ensures SkillFits(limits, provider, skill) <==> MayRun(limits, provider, skill)
  {
  }

  // ---------------------------------------------------------------- documents

  /** The three skill lists: known names, none twice, none both forbidden and allowed. */
  predicate ListsInOrder(c: Charter) {
    && Distinct(c.proposed) && Distinct(c.forbidden) && Distinct(c.followups)
    && (forall k | k in c.proposed :: !k.Unregistered? && k !in c.forbidden)
    && (forall k | k in c.followups :: !k.Unregistered? && k !in c.forbidden)
    && (forall k | k in c.forbidden :: !k.Unregistered?)
  }

  predicate NamedProvider(d: Decision) {
    && d.decisionId != "" && d.missionId != "" && d.selection.provider != OtherProvider("")
    && d.selection.model != "" && d.selection.strategy != "" && d.selection.source != ""
  }

  /** Charter and decision belong together. */
  predicate Paired(cfg: Config, c: Charter, d: Decision) {
    && c.missionId == d.missionId && c.decisionId == d.decisionId
    && c.charterId != "" && c.approvalPhrase != "" && NamedProvider(d)
    && c.decisionDigest != "" && c.decisionDigest == cfg.sha(DecisionText(d))
    && ListsInOrder(c)
  }

  /** The receipt speaks of exactly this pair. */
  predicate Receipted(cfg: Config, c: Charter, d: Decision, r: Receipt) {
    && r.missionId == d.missionId && r.charterId == c.charterId && r.decisionId == d.decisionId
    && r.charterDigest != "" && r.charterDigest == cfg.sha(CharterText(c))
    && r.decisionDigest == cfg.sha(DecisionText(d)) && r.approvedAt != "" && r.phraseHash != ""
  }

  lemma ListsIff(c: Charter)
    ensures NamesOk(c.proposed) && NamesOk(c.forbidden) && NamesOk(c.followups) && RegistrationOk(c) <==> ListsInOrder(c)
  {
    var all := c.proposed + c.forbidden + c.followups;
    assert forall k :: k in all <==> k in c.proposed || k in c.forbidden || k in c.followups;
    if ListsInOrder(c) {
      NoUnregistered(c.proposed);
      NoUnregistered(c.forbidden);
      NoUnregistered(c.followups);
    }
  }

  lemma NoUnregistered(skills: seq<SkillId>)
    requires forall k | k in skills :: !k.Unregistered?
    ensures forall i :: 0 <= i < |skills| ==> skills[i] != Unregistered("")
  {
    forall i | 0 <= i < |skills| ensures skills[i] != Unregistered("") {
      assert skills[i] in skills;
    }
  }

  /** Documents load exactly if they are an approved charter, its decision and their receipt,
      in the directory of their mission. */
  lemma LoadIff(cfg: Config, cf: File<Charter>, df: File<Decision>, rf: File<Receipt>)
    ensures LoadAuthoritativeState(cfg, cf, df, rf).Ok? <==>
      && cf.Doc? && df.Doc? && rf.Doc? && cf.value.state.CharterApproved? && cfg.directory == cf.value.missionId
      && Paired(cfg, cf.value, df.value) && Receipted(cfg, cf.value, df.value, rf.value)
  {
    if cf.Doc? { ListsIff(cf.value); }
    hide RegistrationOk, NamesOk, ListsInOrder;
  }

  /** A charter can be built exactly if it belongs to its decision, keeps the locality it was
      given, writes memory unless that is restricted, and every listed skill may run. */
  lemma ConstructionIff(cfg: Config, c: Charter, d: Decision)
    ensures ValidateCharterConstruction(cfg, c, d).Pass? <==>
      && !c.state.CharterOther? && Paired(cfg, c, d)
      && (c.limits.localModelOnly ==> !d.selection.provider.Codex? && !d.selection.provider.Claude?)
      && c.memoryWrite == !c.limits.privateRestricted
      && (forall k | k in c.proposed :: MayRun(c.limits, d.selection.provider, k))
      && (forall k | k in c.followups :: MayRun(c.limits, d.selection.provider, k))
  {
    ListsIff(c);
    if ListsInOrder(c) { EverySkillMayRunIff(c, d.selection.provider); }
    hide RegistrationOk, NamesOk, ListsInOrder, CheckSkills, MayRun;
  }

  lemma EverySkillMayRunIff(c: Charter, provider: Provider)
    requires ListsInOrder(c)
    ensures CheckSkills(SortedSkills, c.proposed + c.followups, c.limits, provider).Pass? <==>
      && (forall k | k in c.proposed :: MayRun(c.limits, provider, k))
      && (forall k | k in c.followups :: MayRun(c.limits, provider, k))
  {
    forall k | k in c.proposed || k in c.followups ensures k in SortedSkills {
      SortedSkillsComplete(k);
    }
    forall k ensures SkillFits(c.limits, provider, k) <==> MayRun(c.limits, provider, k) {
      FitsIff(c.limits, provider, k);
    }
    assert forall k :: k in c.proposed + c.followups <==> k in c.proposed || k in c.followups;
    hide SkillFits, MayRun, ListsInOrder;
  }

  // ---------------------------------------------------------------- actions

  predicate Bears(args: Arguments, key: ArgKey, value: ArgValue) {
    key in args && args[key] == value
  }

  /** Id and hash are those of the content. */
  predicate Genuine(cfg: Config, a: Action) {
    && a.id != "" && a.missionId != "" && a.planId != "" && a.argumentsHash != ""
    && a.argumentsHash == cfg.sha(ArgumentsText(a.arguments))
    && a.id == cfg.shortId(a.missionId + "|" + Spell(a.skill) + "|" + a.argumentsHash)
  }

  /** The approval recorded in a running action. */
  predicate Evidenced(a: Action) {
    && a.evidence.Some? && a.evidence.value.approvedBy != "" && a.evidence.value.approvedAt != ""
    && a.evidence.value.argumentsHash == a.argumentsHash
  }

  /** What a stage asks of tier, status and evidence. */
  predicate FitsStage(a: Action, stage: Stage) {
    match stage
    case QueueInit => a.tier.Initial?
    case FollowupAppend => a.tier.Followup?
    case Restore => !a.tier.OtherTier? && (a.status.Running? ==> Evidenced(a))
    case PreDispatch => !a.tier.OtherTier? && a.status.Running? && Evidenced(a)
  }

  /** The arguments name skill, tier, plan and both documents by id and digest. */
  predicate NamesDocuments(cfg: Config, a: Action, c: Charter, d: Decision) {
    && Bears(a.arguments, SkillKey, SkillName(a.skill)) && Bears(a.arguments, TierKey, TierName(a.tier))
    && Bears(a.arguments, PlanKey, Text(a.planId))
    && Bears(a.arguments, CharterIdKey, Text(c.charterId))
    && Bears(a.arguments, CharterDigestKey, Text(cfg.sha(CharterText(c))))
    && Bears(a.arguments, DecisionIdKey, Text(d.decisionId))
    && Bears(a.arguments, DecisionDigestKey, Text(cfg.sha(DecisionText(d))))
  }

  /** The arguments of a provider skill name the decided provider, model, strategy and source,
      and say truly whether the network or a local transport is used. */
  predicate NamesSelection(a: Action, s: Selection) {
    && Bears(a.arguments, ProviderKey, ProviderName(s.provider)) && Bears(a.arguments, ModelKey, Text(s.model))
    && Bears(a.arguments, StrategyKey, Text(s.strategy)) && Bears(a.arguments, SourceKey, Text(s.source))
    && Bears(a.arguments, ExternalKey, Flag(s.provider.Codex?)) && Bears(a.arguments, LocalKey, Flag(s.provider.Ollama?))
  }

  /** The charter allows the skill in this tier, to this provider. */
  predicate AllowedBy(c: Charter, d: Decision, a: Action) {
    && !a.skill.Unregistered? && a.skill !in c.forbidden && a.missionId == c.missionId
    && (if a.tier.Initial? then a.skill in c.proposed else a.skill in c.followups)
    && MayRun(c.limits, d.selection.provider, a.skill)
    && (a.skill.TechnicalPlan? || a.skill.ModelAudit? ==>
          && NamesSelection(a, d.selection)
          && (c.limits.localModelOnly ==> !d.selection.provider.Codex? && !d.selection.provider.Claude?))
  }

  lemma IdentityIff(cfg: Config, a: Action, stage: Stage)
    requires Registered(a.skill)
    ensures CheckIdentity(cfg, a, stage).Pass? <==>
      && Genuine(cfg, a) && FitsStage(a, stage)
      && Bears(a.arguments, SkillKey, SkillName(a.skill)) && Bears(a.arguments, TierKey, TierName(a.tier))
      && Bears(a.arguments, PlanKey, Text(a.planId))
  {
    hide Spell;
  }

  lemma ProviderIff(a: Action, c: Charter, d: Decision)
    requires IsProviderSkill(a.skill) && NamedProvider(d)
    ensures CheckProvider(a, c, d).Pass? && SkillFits(c.limits, d.selection.provider, a.skill) <==>
      && NamesSelection(a, d.selection) && MayRun(c.limits, d.selection.provider, a.skill)
      && (c.limits.localModelOnly ==> !d.selection.provider.Codex? && !d.selection.provider.Claude?)
  {
  }

  lemma BindingIff(cfg: Config, a: Action, c: Charter, d: Decision)
    requires NamedProvider(d)
    ensures CheckBinding(cfg, a, c, d).Pass? <==>
      && AllowedBy(c, d, a)
      && Bears(a.arguments, CharterIdKey, Text(c.charterId))
      && Bears(a.arguments, CharterDigestKey, Text(cfg.sha(CharterText(c))))
      && Bears(a.arguments, DecisionIdKey, Text(d.decisionId))
      && Bears(a.arguments, DecisionDigestKey, Text(cfg.sha(DecisionText(d))))
  {
    FitsIff(c.limits, d.selection.provider, a.skill);
    if IsProviderSkill(a.skill) { ProviderIff(a, c, d); }
    hide SkillFits, MayRun, CheckProvider, NamesSelection;
  }

  /** An action passes the checkpoint exactly if the documents load, it is what its id and hash
      say, its arguments name these documents, the charter allows it, and tier, status and
      evidence fit the stage. */
  lemma CheckpointIff(
    cfg: Config, a: Action, stage: Stage, cf: File<Charter>, df: File<Decision>, rf: File<Receipt>)
    ensures ValidateActionAuthority(cfg, a, stage, cf, df, rf).Pass? <==>
      && cf.Doc? && df.Doc? && LoadAuthoritativeState(cfg, cf, df, rf) == Ok((cf.value, df.value))
      && Genuine(cfg, a) && FitsStage(a, stage)
      && NamesDocuments(cfg, a, cf.value, df.value) && AllowedBy(cf.value, df.value, a)
  {
    LoadIff(cfg, cf, df, rf);
    LoadAnswersItsReads(cfg, cf, df, rf);
    hide LoadAuthoritativeState, CheckIdentity, CheckBinding, Genuine, FitsStage, AllowedBy, Receipted, ListsInOrder;
    if LoadAuthoritativeState(cfg, cf, df, rf).Ok? {
      BindingIff(cfg, a, cf.value, df.value);
      if Registered(a.skill) { IdentityIff(cfg, a, stage); }
      AllowedIsRegistered(cf.value, df.value, a);
    }
  }

  lemma AllowedIsRegistered(c: Charter, d: Decision, a: Action)
    ensures AllowedBy(c, d, a) ==> Registered(a.skill)
  {
  }

  lemma LoadAnswersItsReads(cfg: Config, cf: File<Charter>, df: File<Decision>, rf: File<Receipt>)
    ensures LoadAuthoritativeState(cfg, cf, df, rf).Ok? ==>
      cf.Doc? && df.Doc? && LoadAuthoritativeState(cfg, cf, df, rf) == Ok((cf.value, df.value))
  {
    hide CharterShapeOk, RegistrationOk, DecisionShapeOk, VerifyReceipt;
  }

  /** So every dispatch of every run, however the files were rewritten meanwhile, was of a
      genuine, evidenced action that the receipt's charter allows and that names it. */
  lemma EveryDispatchWasCleared(cfg: Config, states: seq<State>, moves: seq<Move>, i: nat, k: nat)
    requires IsRun(Konoha(cfg), states, moves) && i < |states| && k < |states[i].log|
    ensures
      var a, c, d := states[i].log[k].action, states[i].log[k].basis.charter, states[i].log[k].basis.decision;
      && states[i].receipt.Doc? && Receipted(cfg, c, d, states[i].receipt.value)
      && c.state.CharterApproved? && cfg.directory == c.missionId && Paired(cfg, c, d)
      && Genuine(cfg, a) && FitsStage(a, PreDispatch) && NamesDocuments(cfg, a, c, d) && AllowedBy(c, d, a)
  {
    hide After, Genuine, FitsStage, NamesDocuments, AllowedBy, Paired, Receipted;
    AccountableHolds(Konoha(cfg), states, moves, i);
    var s := states[i];
    var entry := s.log[k];
    assert Vouched(Konoha(cfg), s, entry.pid, entry.action, entry.basis);
    var cf, df := Doc(entry.basis.charter), Doc(entry.basis.decision);
    CheckpointIff(cfg, entry.action, PreDispatch, cf, df, s.receipt);
    LoadIff(cfg, cf, df, s.receipt);
    hide LoadAuthoritativeState, ValidateActionAuthority;
  }

  // ---------------------------------------------------------------- diagnoses

  /** The fault that a code of a failed load speaks of. */
  predicate LoadFault(
    cfg: Config, cf: File<Charter>, df: File<Decision>, rf: File<Receipt>, code: Code)
  {
    match code
    case MigrationRequired => cf.OldSchema? || df.OldSchema? || rf.OldSchema?
    case CharterBinding => cf.Doc? ==> !CharterShapeOk(cf.value, true)
    case SkillForbidden => cf.Doc? && !ListsInOrder(cf.value)
    case DecisionBinding =>
      cf.Doc? && df.Doc? && NamedProvider(df.value) ==>
        cf.value.decisionId != df.value.decisionId || cf.value.decisionDigest != cfg.sha(DecisionText(df.value))
    case MissionBinding =>
      && cf.Doc? && df.Doc?
      && (|| cf.value.missionId != df.value.missionId || cfg.directory != cf.value.missionId
          || (rf.Doc? && rf.value.missionId != cf.value.missionId))
    case ReceiptMissing => rf.Missing?
    case ReceiptInvalid => rf.Malformed? || (rf.Doc? && !ReceiptShapeOk(rf.value))
    case CharterImmutable =>
      && cf.Doc? && rf.Doc?
      && (rf.value.charterId != cf.value.charterId || rf.value.charterDigest != cfg.sha(CharterText(cf.value)))
    case DecisionImmutable =>
      && df.Doc? && rf.Doc?
      && (rf.value.decisionId != df.value.decisionId || rf.value.decisionDigest != cfg.sha(DecisionText(df.value)))
    case _ => false
  }

  /** Whatever a failed load says is so. */
  lemma LoadDiagnosisIsTrue(cfg: Config, cf: File<Charter>, df: File<Decision>, rf: File<Receipt>)
    requires LoadAuthoritativeState(cfg, cf, df, rf).Err?
    ensures LoadFault(cfg, cf, df, rf, LoadAuthoritativeState(cfg, cf, df, rf).code)
  {
    if cf.Doc? { ListsIff(cf.value); }
    hide RegistrationOk, NamesOk, ListsInOrder;
  }

  /** The fault that a code of a failed check speaks of, once the documents are loaded. */
  predicate ActionFault(cfg: Config, a: Action, stage: Stage, c: Charter, d: Decision, code: Code) {
    var args, s := a.arguments, d.selection;
    match code
    case MissionBinding => a.missionId == "" || a.missionId != c.missionId
    case ArgumentsHash => !Genuine(cfg, a) || !Bears(args, PlanKey, Text(a.planId))
    case ApprovalBinding => !FitsStage(a, stage)
    case CharterBinding =>
      || a.skill == Unregistered("") || a.tier.OtherTier?
      || (stage.QueueInit? && !a.tier.Initial?) || (stage.FollowupAppend? && !a.tier.Followup?)
      || !Bears(args, SkillKey, SkillName(a.skill)) || !Bears(args, TierKey, TierName(a.tier))
      || !Bears(args, CharterIdKey, Text(c.charterId)) || !Bears(args, CharterDigestKey, Text(cfg.sha(CharterText(c))))
    case DecisionBinding =>
      !Bears(args, DecisionIdKey, Text(d.decisionId)) || !Bears(args, DecisionDigestKey, Text(cfg.sha(DecisionText(d))))
    case SkillForbidden =>
      a.skill.Unregistered? || a.skill in c.forbidden || a.skill !in (if a.tier.Initial? then c.proposed else c.followups)
    case ProviderMismatch => !Bears(args, ProviderKey, ProviderName(s.provider))
    case ModelMismatch => !Bears(args, ModelKey, Text(s.model))
    case StrategyMismatch => !Bears(args, StrategyKey, Text(s.strategy))
    case SourceMismatch => !Bears(args, SourceKey, Text(s.source))
    case CapabilityBinding =>
      || EffectiveCapabilities(a.skill, Some(s.provider)).Err?
      || !Bears(args, ExternalKey, Flag(s.provider.Codex?)) || !Bears(args, LocalKey, Flag(s.provider.Ollama?))
    case ConstraintViolation =>
      !MayRun(c.limits, s.provider, a.skill) || (c.limits.localModelOnly && (s.provider.Codex? || s.provider.Claude?))
    case _ => false
  }

  lemma IdentityDiagnosis(cfg: Config, a: Action, stage: Stage, c: Charter, d: Decision)
    requires CheckIdentity(cfg, a, stage).Fail?
    ensures ActionFault(cfg, a, stage, c, d, CheckIdentity(cfg, a, stage).code)
  {
    hide Spell, MayRun, EffectiveCapabilities;
  }

  lemma ProviderDiagnosis(cfg: Config, a: Action, stage: Stage, c: Charter, d: Decision)
    requires NamedProvider(d) && CheckProvider(a, c, d).Fail?
    ensures ActionFault(cfg, a, stage, c, d, CheckProvider(a, c, d).code)
  {
    CapabilitiesAreExact(a.skill, Some(d.selection.provider));
    hide Genuine, FitsStage, EffectiveCapabilities, MayRun;
  }

  lemma BindingDiagnosis(cfg: Config, a: Action, stage: Stage, c: Charter, d: Decision)
    requires NamedProvider(d) && CheckBinding(cfg, a, c, d).Fail?
    ensures ActionFault(cfg, a, stage, c, d, CheckBinding(cfg, a, c, d).code)
  {
    FitsIff(c.limits, d.selection.provider, a.skill);
    hide SkillFits, MayRun, Genuine, FitsStage, EffectiveCapabilities, CheckProvider, NamedProvider;
    if CheckProvider(a, c, d).Fail? {
      ProviderDiagnosis(cfg, a, stage, c, d);
    }
  }

  /** Whatever a failed check says of an action is so. */
  lemma DiagnosisIsTrue(cfg: Config, a: Action, stage: Stage, c: Charter, d: Decision, r: Receipt)
    requires LoadAuthoritativeState(cfg, Doc(c), Doc(d), Doc(r)).Ok?
    requires ValidateActionAuthority(cfg, a, stage, Doc(c), Doc(d), Doc(r)).Fail?
    ensures ActionFault(cfg, a, stage, c, d, ValidateActionAuthority(cfg, a, stage, Doc(c), Doc(d), Doc(r)).code)
  {
    LoadIff(cfg, Doc(c), Doc(d), Doc(r));
    LoadAnswersItsReads(cfg, Doc(c), Doc(d), Doc(r));
    hide LoadAuthoritativeState, CheckIdentity, CheckBinding, ActionFault, ListsInOrder, Receipted;
    if CheckIdentity(cfg, a, stage).Fail? {
      IdentityDiagnosis(cfg, a, stage, c, d);
    } else {
      BindingDiagnosis(cfg, a, stage, c, d);
    }
  }
}
