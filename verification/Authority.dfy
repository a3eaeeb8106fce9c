/** The authoritative documents of a mission and the single checkpoint that every
    post-approval operation passes through. Hashing is a parameter: `sha` stands for
    SHA-256 of canonical JSON and `shortId` for the truncated digest behind an action id. */
module Authority {
  import opened Common
  import opened Registry

  datatype Selection = Selection(provider: Provider, model: string, strategy: string, source: string)

  /** `body` stands for the remaining, never consulted, display fields. */
  datatype Decision = Decision(decisionId: string, missionId: string, selection: Selection, body: string)

  datatype CharterState = CharterProposed | CharterApproved | CharterOther

  datatype Charter = Charter(
    charterId: string, missionId: string, state: CharterState, limits: Constraints,
    proposed: seq<SkillId>, forbidden: seq<SkillId>, followups: seq<SkillId>,
    memoryWrite: bool, decisionId: string, decisionDigest: string, approvalPhrase: string,
    approvedAt: string, approvedBy: string, body: string)

  datatype Receipt = Receipt(
    missionId: string, charterId: string, charterDigest: string,
    decisionId: string, decisionDigest: string, approvedAt: string, phraseHash: string)

  datatype Tier = Initial | Followup | OtherTier(name: string)

  /** Argument names; `Extra` is any name outside the code-owned ones. */
  datatype ArgKey =
    | SkillKey | TierKey | PlanKey | CharterIdKey | CharterDigestKey | DecisionIdKey | DecisionDigestKey
    | ProviderKey | ModelKey | StrategyKey | SourceKey | ExternalKey | LocalKey
    | PatchIdKey | PatchShaKey | PatchPlanKey | ChangedPathsKey
    | Extra(name: string)

  datatype ArgValue =
    | Text(text: string) | Flag(flag: bool) | Texts(texts: seq<string>)
    | SkillName(skill: SkillId) | TierName(tier: Tier) | ProviderName(provider: Provider)

  type Arguments = map<ArgKey, ArgValue>

  /** One append-once edit of a documentation file. */
  datatype Operation = Operation(kind: string, path: string, marker: string, content: string)

  /** Everything the program ever digests. */
  datatype Material =
    | CharterText(charter: Charter) | DecisionText(decision: Decision) | ArgumentsText(arguments: Arguments)
    | PatchText(missionId: string, operations: seq<Operation>, preview: string) | PlainText(text: string)

  datatype Config = Config(sha: Material -> string, shortId: string -> string, directory: string)

  datatype Status = Proposed | Running | Completed | Failed | Rejected | Blocked

  datatype PatchProposal = PatchProposal(
    patchId: string, patchSha: string, patchPlan: string, changedPaths: seq<string>, operationCount: nat)

  /** What a finished dispatch reports, as far as later steps read it. */
  datatype Report = Report(patch: Option<PatchProposal>, outputs: seq<string>)

  datatype Evidence = Evidence(approvedBy: string, approvedAt: string, argumentsHash: string, report: Option<Report>)

  datatype Action = Action(
    id: string, missionId: string, planId: string, skill: SkillId, tier: Tier,
    arguments: Arguments, argumentsHash: string, approvalPhrase: string, rejectionPhrase: string,
    status: Status, evidence: Option<Evidence>)

  datatype Stage = QueueInit | FollowupAppend | Restore | PreDispatch

  // ---------------------------------------------------------------- hashing assumptions

  ghost predicate Collides(cfg: Config, x: Material, y: Material) {
    x != y && cfg.sha(x) == cfg.sha(y)
  }

  ghost predicate ShortIdsCollide(cfg: Config, x: string, y: string) {
    x != y && cfg.shortId(x) == cfg.shortId(y)
  }

  ghost predicate IsHexDigest(cfg: Config, x: Material) {
    '|' !in cfg.sha(x) && cfg.sha(x) != ""
  }

  ghost predicate IsShortId(cfg: Config, x: string) {
    cfg.shortId(x) != ""
  }

  /** The assumption under which digests stand for documents. */
  ghost predicate CollisionFree(cfg: Config) {
    forall x, y :: !Collides(cfg, x, y)
  }

  /** The assumption under which truncated ids stand for their material. */
  ghost predicate ShortIdsDistinct(cfg: Config) {
    forall x, y :: !ShortIdsCollide(cfg, x, y)
  }

  /** Digests are non-empty hexadecimal text; ids carry a non-empty prefix. */
  ghost predicate HexDigests(cfg: Config) {
    && (forall x :: IsHexDigest(cfg, x))
    && (forall x :: IsShortId(cfg, x))
  }

  function IdMaterial(missionId: string, skill: SkillId, argumentsHash: string): string {
    missionId + "|" + Spell(skill) + "|" + argumentsHash
  }

  function ActionId(cfg: Config, missionId: string, skill: SkillId, argumentsHash: string): string {
    cfg.shortId(IdMaterial(missionId, skill, argumentsHash))
  }

  // ---------------------------------------------------------------- shapes

  predicate NamesOk(skills: seq<SkillId>) {
    && (forall i :: 0 <= i < |skills| ==> skills[i] != Unregistered(""))
    && Distinct(skills)
  }

  predicate CharterShapeOk(c: Charter, requireApproved: bool) {
    && (if requireApproved then c.state.CharterApproved? else !c.state.CharterOther?)
    && c.charterId != "" && c.missionId != "" && c.decisionId != "" && c.decisionDigest != "" && c.approvalPhrase != ""
    && NamesOk(c.proposed) && NamesOk(c.forbidden) && NamesOk(c.followups)
  }

  predicate DecisionShapeOk(d: Decision) {
    && d.decisionId != "" && d.missionId != ""
    && d.selection.provider != OtherProvider("")
    && d.selection.model != "" && d.selection.strategy != "" && d.selection.source != ""
  }

  predicate ReceiptShapeOk(r: Receipt) {
    && r.missionId != "" && r.charterId != "" && r.charterDigest != ""
    && r.decisionId != "" && r.decisionDigest != "" && r.approvedAt != "" && r.phraseHash != ""
  }

  predicate RegistrationOk(c: Charter) {
    && (forall k | k in c.proposed + c.forbidden + c.followups :: Registered(k))
    && (forall k | k in c.forbidden :: k !in c.proposed && k !in c.followups)
  }

  // ---------------------------------------------------------------- the receipt

  function MakeReceipt(cfg: Config, c: Charter, d: Decision): Receipt {
    Receipt(c.missionId, c.charterId, cfg.sha(CharterText(c)), d.decisionId, cfg.sha(DecisionText(d)),
            c.approvedAt, cfg.sha(PlainText(c.approvalPhrase)))
  }

  /** The identity fields on which a re-published receipt counts as the same one. */
  predicate SameReceipt(a: Receipt, b: Receipt) {
    && a.missionId == b.missionId && a.charterId == b.charterId && a.charterDigest == b.charterDigest
    && a.decisionId == b.decisionId && a.decisionDigest == b.decisionDigest && a.phraseHash == b.phraseHash
  }

  /** The checks write_authority_receipt makes before it touches the receipt file. The
      phrase passed in is the human's, already compared with the charter's. */
  function ReceiptPreconditions(cfg: Config, c: Charter, d: Decision): Check {
    var digest := cfg.sha(DecisionText(d));
    :- Require(CharterShapeOk(c, true), CharterBinding);
    :- Require(DecisionShapeOk(d), DecisionBinding);
    :- Require(c.missionId == d.missionId, MissionBinding);
    :- Require(c.decisionId == d.decisionId && c.decisionDigest == digest, DecisionBinding);
    Require(c.approvedAt != "", ReceiptInvalid)
  }

  function VerifyReceipt(cfg: Config, file: File<Receipt>, c: Charter, d: Decision): Check {
    match file
    case Missing => Fail(ReceiptMissing)
    case Malformed => Fail(ReceiptInvalid)
    case OldSchema => Fail(MigrationRequired)
    case Doc(r) =>
      :- Require(ReceiptShapeOk(r), ReceiptInvalid);
      :- Require(r.missionId == c.missionId && r.missionId == d.missionId, MissionBinding);
      :- Require(r.charterId == c.charterId && r.charterDigest == cfg.sha(CharterText(c)), CharterImmutable);
      Require(r.decisionId == d.decisionId && r.decisionDigest == cfg.sha(DecisionText(d)), DecisionImmutable)
  }

  function ReadDocument<T>(file: File<T>, code: Code): Result<T> {
    match file
    case Doc(value) => Ok(value)
    case OldSchema => Err(MigrationRequired)
    case _ => Err(code)
  }

  /** What load_authoritative_state answers when its three reads yield these contents. */
  function LoadAuthoritativeState(cfg: Config, cf: File<Charter>, df: File<Decision>, rf: File<Receipt>)
    : Result<(Charter, Decision)>
  {
    var c :- ReadDocument(cf, CharterBinding);
    :- Need(CharterShapeOk(c, true), CharterBinding);
    :- Need(RegistrationOk(c), SkillForbidden);
    var d :- ReadDocument(df, DecisionBinding);
    :- Need(DecisionShapeOk(d), DecisionBinding);
    :- Need(c.decisionId == d.decisionId && c.decisionDigest == cfg.sha(DecisionText(d)), DecisionBinding);
    :- Need(c.missionId == d.missionId && cfg.directory == c.missionId, MissionBinding);
    :- Ensure(VerifyReceipt(cfg, rf, c, d));
    Ok((c, d))
  }

  // ---------------------------------------------------------------- construction

  predicate SkillFits(limits: Constraints, provider: Provider, skill: SkillId) {
    var caps := EffectiveCapabilities(skill, if IsProviderSkill(skill) then Some(provider) else None);
    caps.Ok? && !Violates(limits, caps.value)
  }

  /** The registered skills in the order of their spelling, the order in which a charter's
      skills are examined. */
  const SortedSkills: seq<SkillId> :=
    [ApplyPatch, InspectGit, InspectPython, ModelAudit, AuditChecks, PostPatchTests, TechnicalPlan]

  function CheckSkills(order: seq<SkillId>, skills: seq<SkillId>, limits: Constraints, provider: Provider): (r: Check)
    ensures r.Pass? <==> forall k | k in order && k in skills :: SkillFits(limits, provider, k)
  {
    if order == [] then Pass
    else if order[0] !in skills then CheckSkills(order[1..], skills, limits, provider)
    else
      var caps := EffectiveCapabilities(order[0], if IsProviderSkill(order[0]) then Some(provider) else None);
      :- Require(caps.Ok?, CapabilityBinding);
      :- Require(!Violates(limits, caps.value), ConstraintViolation);
      CheckSkills(order[1..], skills, limits, provider)
  }

  /** Pre-persistence check of in-memory candidates; no file is consulted. */
  function ValidateCharterConstruction(cfg: Config, c: Charter, d: Decision): Check {
    var digest := cfg.sha(DecisionText(d));
    :- Require(CharterShapeOk(c, false), CharterBinding);
    :- Require(DecisionShapeOk(d), DecisionBinding);
    :- Require(RegistrationOk(c), SkillForbidden);
    :- Require(c.missionId == d.missionId, MissionBinding);
    :- Require(c.decisionId == d.decisionId && c.decisionDigest == digest, DecisionBinding);
    :- Require(!(c.limits.localModelOnly && IsRemote(d.selection.provider)), ConstraintViolation);
    :- Require(c.memoryWrite == !c.limits.privateRestricted, ConstraintViolation);
    CheckSkills(SortedSkills, c.proposed + c.followups, c.limits, d.selection.provider)
  }

  // ---------------------------------------------------------------- the checkpoint

  predicate EvidenceComplete(a: Action) {
    && a.evidence.Some?
    && a.evidence.value.approvedBy != "" && a.evidence.value.approvedAt != ""
    && a.evidence.value.argumentsHash != "" && a.evidence.value.argumentsHash == a.argumentsHash
  }

  predicate Has(args: Arguments, key: ArgKey, value: ArgValue) {
    key in args && args[key] == value
  }

  /** A non-empty string. */
  predicate IsName(v: ArgValue) {
    match v
    case Text(t) => t != ""
    case SkillName(k) => k != Unregistered("")
    case TierName(t) => t != OtherTier("")
    case ProviderName(p) => p != OtherProvider("")
    case _ => false
  }

  /** Identity and argument integrity: everything decided before any file is read. */
  function CheckIdentity(cfg: Config, a: Action, stage: Stage): Check {
    var args := a.arguments;
    :- Require(a.missionId != "", MissionBinding);
    :- Require(a.id != "", ArgumentsHash);
    :- Require(a.skill != Unregistered("") && a.tier != OtherTier(""), CharterBinding);
    :- Require(a.planId != "" && a.argumentsHash != "", ArgumentsHash);
    :- Require(!a.tier.OtherTier?, CharterBinding);
    :- Require((stage.QueueInit? ==> a.tier.Initial?) && (stage.FollowupAppend? ==> a.tier.Followup?), CharterBinding);
    :- Require(cfg.sha(ArgumentsText(args)) == a.argumentsHash, ArgumentsHash);
    :- Require(ActionId(cfg, a.missionId, a.skill, a.argumentsHash) == a.id, ArgumentsHash);
    :- Require(Has(args, SkillKey, SkillName(a.skill)), CharterBinding);
    :- Require(Has(args, TierKey, TierName(a.tier)), CharterBinding);
    :- Require(Has(args, PlanKey, Text(a.planId)), ArgumentsHash);
    :- Require(stage.PreDispatch? ==> a.status.Running?, ApprovalBinding);
    Require((stage.PreDispatch? || (stage.Restore? && a.status.Running?)) ==> EvidenceComplete(a), ApprovalBinding)
  }

  /** The charter lists that an action's tier draws on. */
  predicate TierAllows(c: Charter, a: Action) {
    if a.tier.Initial? then a.skill in c.proposed else a.skill in c.followups
  }

  function CheckProvider(a: Action, c: Charter, d: Decision): Check {
    var want := d.selection;
    var args := a.arguments;
    :- Require(ProviderKey in args, ProviderMismatch);
    :- Require(ModelKey in args, ModelMismatch);
    :- Require(StrategyKey in args, StrategyMismatch);
    :- Require(SourceKey in args, SourceMismatch);
    :- Require(ExternalKey in args && LocalKey in args, CapabilityBinding);
    :- Require(IsName(args[ProviderKey]), ProviderMismatch);
    :- Require(IsName(args[ModelKey]), ModelMismatch);
    :- Require(IsName(args[StrategyKey]), StrategyMismatch);
    :- Require(IsName(args[SourceKey]), SourceMismatch);
    :- Require(args[ExternalKey].Flag? && args[LocalKey].Flag?, CapabilityBinding);
    :- Require(Has(args, ProviderKey, ProviderName(want.provider)), ProviderMismatch);
    :- Require(Has(args, ModelKey, Text(want.model)), ModelMismatch);
    :- Require(Has(args, StrategyKey, Text(want.strategy)), StrategyMismatch);
    :- Require(Has(args, SourceKey, Text(want.source)), SourceMismatch);
    var caps := EffectiveCapabilities(a.skill, Some(want.provider));
    :- Require(caps.Ok?, CapabilityBinding);
    :- Require(Has(args, ExternalKey, Flag(caps.value.externalNetwork)), CapabilityBinding);
    :- Require(Has(args, LocalKey, Flag(caps.value.localTransport)), CapabilityBinding);
    Require(!(c.limits.localModelOnly && IsRemote(want.provider)), ConstraintViolation)
  }

  /** Every charter, decision, mission and capability binding of an action. */
  function CheckBinding(cfg: Config, a: Action, c: Charter, d: Decision): Check {
    var args := a.arguments;
    :- Require(a.missionId == c.missionId, MissionBinding);
    :- Require(Registered(a.skill) && a.skill !in c.forbidden && TierAllows(c, a), SkillForbidden);
    :- Require(Has(args, CharterIdKey, Text(c.charterId)), CharterBinding);
    :- Require(Has(args, CharterDigestKey, Text(cfg.sha(CharterText(c)))), CharterBinding);
    :- Require(Has(args, DecisionIdKey, Text(d.decisionId)), DecisionBinding);
    :- Require(Has(args, DecisionDigestKey, Text(cfg.sha(DecisionText(d)))), DecisionBinding);
    :- if IsProviderSkill(a.skill) then CheckProvider(a, c, d) else Pass;
    Require(SkillFits(c.limits, d.selection.provider, a.skill), ConstraintViolation)
  }

  /** validate_action_authority, given what its three file reads yielded. */
  function ValidateActionAuthority(
    cfg: Config, a: Action, stage: Stage, cf: File<Charter>, df: File<Decision>, rf: File<Receipt>): Check
  {
    var identity := CheckIdentity(cfg, a, stage);
    :- identity;
    match LoadAuthoritativeState(cfg, cf, df, rf)
    case Err(code) => Fail(code)
    case Ok((c, d)) => CheckBinding(cfg, a, c, d)
  }
}
