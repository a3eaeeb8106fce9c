/** The action builder, its agreement with the checkpoint, and what an action id pins down. */
module Builder {
  import opened Common
  import opened Registry
  import opened Authority

  /** The seven updates every action's arguments receive, in order, over the caller's own. */
  function BindDocuments(
    cfg: Config, plan: string, skill: SkillId, tier: Tier, c: Charter, d: Decision, extra: Arguments): Arguments
  {
    extra[SkillKey := SkillName(skill)][TierKey := TierName(tier)][PlanKey := Text(plan)]
         [CharterIdKey := Text(c.charterId)][CharterDigestKey := Text(cfg.sha(CharterText(c)))]
         [DecisionIdKey := Text(d.decisionId)][DecisionDigestKey := Text(cfg.sha(DecisionText(d)))]
  }

  /** The six further updates of a provider skill. */
  function BindProvider(s: Selection, caps: Capabilities, base: Arguments): Arguments {
    base[ProviderKey := ProviderName(s.provider)][ModelKey := Text(s.model)][StrategyKey := Text(s.strategy)]
        [SourceKey := Text(s.source)][ExternalKey := Flag(caps.externalNetwork)][LocalKey := Flag(caps.localTransport)]
  }

  function Upper(text: string): string {
    seq(|text|, i requires 0 <= i < |text| => if 'a' <= text[i] <= 'z' then text[i] - 'a' + 'A' else text[i])
  }

  /** The part of an id after its first dash, or the whole id when it has none. */
  function AfterDash(text: string): string {
    if '-' !in text then text
    else if text[0] == '-' then text[1..]
    else AfterDash(text[1..])
  }

  /** The challenge that human recovery of an interrupted action must repeat. */
  function RecoveryPhrase(id: string): string {
    "BLOQUEAR INTERRUMPIDA-" + Upper(AfterDash(id))
  }

  function BuildArguments(
    cfg: Config, plan: string, skill: SkillId, tier: Tier, c: Charter, d: Decision, extra: Arguments): Result<Arguments>
  {
    var base := BindDocuments(cfg, plan, skill, tier, c, d, extra);
    if IsProviderSkill(skill) then
      var caps :- EffectiveCapabilities(skill, Some(d.selection.provider));
      Ok(BindProvider(d.selection, caps, base))
    else Ok(base)
  }

  function BuildAction(
    cfg: Config, mission: string, plan: string, skill: SkillId, tier: Tier, c: Charter, d: Decision, extra: Arguments)
    : Result<Action>
  {
    if !Registered(skill) then Err(KeyMissing) else
    var arguments :- BuildArguments(cfg, plan, skill, tier, c, d, extra);
    var hash := cfg.sha(ArgumentsText(arguments));
    var id := ActionId(cfg, mission, skill, hash);
    Ok(Action(id, mission, plan, skill, tier, arguments, hash,
              "APROBAR ACCION-" + Upper(AfterDash(id)), "RECHAZAR ACCION-" + Upper(AfterDash(id)), Proposed, None))
  }

  // ---------------------------------------------------------------- builder and checker agree

  /** Approval of a constructed charter: state and the two approval fields change. */
  function Approved(c: Charter, at: string, who: string): Charter {
    c.(state := CharterApproved, approvedAt := at, approvedBy := who)
  }

  predicate DocumentsBound(
    cfg: Config, args: Arguments, plan: string, skill: SkillId, tier: Tier, c: Charter, d: Decision)
  {
    && Has(args, SkillKey, SkillName(skill)) && Has(args, TierKey, TierName(tier)) && Has(args, PlanKey, Text(plan))
    && Has(args, CharterIdKey, Text(c.charterId)) && Has(args, CharterDigestKey, Text(cfg.sha(CharterText(c))))
    && Has(args, DecisionIdKey, Text(d.decisionId)) && Has(args, DecisionDigestKey, Text(cfg.sha(DecisionText(d))))
  }

  predicate ProviderBound(args: Arguments, s: Selection, caps: Capabilities) {
    && Has(args, ProviderKey, ProviderName(s.provider)) && Has(args, ModelKey, Text(s.model))
    && Has(args, StrategyKey, Text(s.strategy)) && Has(args, SourceKey, Text(s.source))
    && Has(args, ExternalKey, Flag(caps.externalNetwork)) && Has(args, LocalKey, Flag(caps.localTransport))
  }

  lemma DocumentsAreBound(
    cfg: Config, plan: string, skill: SkillId, tier: Tier, c: Charter, d: Decision, extra: Arguments)
    ensures DocumentsBound(cfg, BindDocuments(cfg, plan, skill, tier, c, d, extra), plan, skill, tier, c, d)
  {
  }

  lemma ProviderIsBound(
    cfg: Config, plan: string, skill: SkillId, tier: Tier, c: Charter, d: Decision, caps: Capabilities, base: Arguments)
    requires DocumentsBound(cfg, base, plan, skill, tier, c, d)
    ensures ProviderBound(BindProvider(d.selection, caps, base), d.selection, caps)
    ensures DocumentsBound(cfg, BindProvider(d.selection, caps, base), plan, skill, tier, c, d)
  {
  }

  /** Extra arguments never reach a binding key: whatever the caller adds, the bound part of
      the arguments is read from the plan, the skill, the charter and the decision. */
  lemma ExtrasNeverOverride(
    cfg: Config, plan: string, skill: SkillId, tier: Tier, c: Charter, d: Decision, extra: Arguments)
    requires BuildArguments(cfg, plan, skill, tier, c, d, extra).Ok?
    ensures
      var args := BuildArguments(cfg, plan, skill, tier, c, d, extra).value;
      && DocumentsBound(cfg, args, plan, skill, tier, c, d)
      && (IsProviderSkill(skill) ==>
            var caps := EffectiveCapabilities(skill, Some(d.selection.provider));
            caps.Ok? && ProviderBound(args, d.selection, caps.value))
  {
    DocumentsAreBound(cfg, plan, skill, tier, c, d, extra);
    if IsProviderSkill(skill) {
      var caps := EffectiveCapabilities(skill, Some(d.selection.provider)).value;
      ProviderIsBound(cfg, plan, skill, tier, c, d, caps, BindDocuments(cfg, plan, skill, tier, c, d, extra));
    }
  }

  /** The freshly written receipt lets the approved pair load. */
  lemma ApprovedPairLoads(cfg: Config, c: Charter, d: Decision, at: string, who: string)
    requires HexDigests(cfg) && cfg.directory == c.missionId && at != ""
    requires ValidateCharterConstruction(cfg, c, d).Pass?
    ensures
      var k := Approved(c, at, who);
      && ReceiptPreconditions(cfg, k, d).Pass?
      && LoadAuthoritativeState(cfg, Doc(k), Doc(d), Doc(MakeReceipt(cfg, k, d))) == Ok((k, d))
  {
    var k := Approved(c, at, who);
    assert IsHexDigest(cfg, CharterText(k)) && IsHexDigest(cfg, DecisionText(d));
    assert IsHexDigest(cfg, PlainText(k.approvalPhrase));
  }

  lemma SortedSkillsComplete(skill: SkillId)
    requires Registered(skill)
    ensures skill in SortedSkills
  {
    var at := match skill
      case ApplyPatch => 0 case InspectGit => 1 case InspectPython => 2 case ModelAudit => 3
      case AuditChecks => 4 case PostPatchTests => 5 case _ => 6;
    assert SortedSkills[at] == skill;
  }

  /** Construction passes exactly when the shapes and cross-references hold and every
      proposed or follow-up skill fits the constraints with the selected provider. */
  lemma ConstructionMeansEverySkillFits(cfg: Config, c: Charter, d: Decision, skill: SkillId)
    requires ValidateCharterConstruction(cfg, c, d).Pass?
    requires skill in c.proposed || skill in c.followups
    ensures Registered(skill) && skill !in c.forbidden
    ensures SkillFits(c.limits, d.selection.provider, skill)
    ensures !(c.limits.localModelOnly && IsRemote(d.selection.provider))
  {
    assert skill in c.proposed + c.forbidden + c.followups;
    SortedSkillsComplete(skill);
    assert skill in c.proposed + c.followups;
  }

  /** An action whose arguments carry every binding passes both halves of the checkpoint. */
  lemma BoundActionPasses(cfg: Config, a: Action, c: Charter, d: Decision, stage: Stage)
    requires HexDigests(cfg) && a.status.Proposed? && stage != PreDispatch
    requires a.missionId == c.missionId != "" && a.planId != "" && DecisionShapeOk(d)
    requires a.argumentsHash == cfg.sha(ArgumentsText(a.arguments))
    requires a.id == ActionId(cfg, a.missionId, a.skill, a.argumentsHash)
    requires a.tier == (if stage.QueueInit? then Initial else if stage.FollowupAppend? then Followup else a.tier)
    requires !a.tier.OtherTier? && TierAllows(c, a)
    requires Registered(a.skill) && a.skill !in c.forbidden && SkillFits(c.limits, d.selection.provider, a.skill)
    requires !(c.limits.localModelOnly && IsRemote(d.selection.provider))
    requires DocumentsBound(cfg, a.arguments, a.planId, a.skill, a.tier, c, d)
    requires IsProviderSkill(a.skill) ==>
      ProviderBound(a.arguments, d.selection, EffectiveCapabilities(a.skill, Some(d.selection.provider)).value)
    ensures CheckIdentity(cfg, a, stage).Pass? && CheckBinding(cfg, a, c, d).Pass?
  {
    assert IsHexDigest(cfg, ArgumentsText(a.arguments));
    assert IsShortId(cfg, IdMaterial(c.missionId, a.skill, a.argumentsHash));
    assert IsProviderSkill(a.skill) ==> CheckProvider(a, c, d).Pass?;
  }

  /** Every action built for a proposed skill (or an allowed follow-up, with any extra
      arguments) of a constructed and approved charter passes the checkpoint stage at which
      it enters the queue, and keeps passing `restore` while it is proposed. */
  lemma BuiltActionsPass(
    cfg: Config, c: Charter, d: Decision, at: string, who: string,
    plan: string, skill: SkillId, tier: Tier, extra: Arguments)
    requires HexDigests(cfg) && cfg.directory == c.missionId && at != "" && plan != ""
    requires ValidateCharterConstruction(cfg, c, d).Pass?
    requires (tier.Initial? && skill in c.proposed) || (tier.Followup? && skill in c.followups)
    ensures
      var k := Approved(c, at, who);
      var built := BuildAction(cfg, k.missionId, plan, skill, tier, k, d, extra);
      var stage := if tier.Initial? then QueueInit else FollowupAppend;
      var receipt := Doc(MakeReceipt(cfg, k, d));
      && built.Ok?
      && ValidateActionAuthority(cfg, built.value, stage, Doc(k), Doc(d), receipt).Pass?
      && ValidateActionAuthority(cfg, built.value, Restore, Doc(k), Doc(d), receipt).Pass?
  {
    var k := Approved(c, at, who);
    ConstructionMeansEverySkillFits(cfg, c, d, skill);
    ApprovedPairLoads(cfg, c, d, at, who);
    assert BuildArguments(cfg, plan, skill, tier, k, d, extra).Ok?;
    ExtrasNeverOverride(cfg, plan, skill, tier, k, d, extra);
    var a := BuildAction(cfg, k.missionId, plan, skill, tier, k, d, extra).value;
    BoundActionPasses(cfg, a, k, d, if tier.Initial? then QueueInit else FollowupAppend);
    BoundActionPasses(cfg, a, k, d, Restore);
  }

  // ---------------------------------------------------------------- phrases

  predicate NoCapitals(text: string) {
    forall i :: 0 <= i < |text| ==> !('A' <= text[i] <= 'Z')
  }

  lemma UpperIsInjective(a: string, b: string)
    requires NoCapitals(a) && NoCapitals(b) && Upper(a) == Upper(b)
    ensures a == b
  {
    assert |a| == |Upper(a)| == |Upper(b)| == |b|;
    forall i | 0 <= i < |a| ensures a[i] == b[i] {
      assert Upper(a)[i] == Upper(b)[i];
    }
  }

  lemma {:induction false} AfterFirstDash(front: string, rest: string)
    requires '-' !in front
    ensures AfterDash(front + "-" + rest) == rest
  {
    var id := front + "-" + rest;
    assert id[|front|] == '-';
    if front == "" {
      assert id[1..] == rest;
    } else {
      assert id[1..] == front[1..] + "-" + rest;
      AfterFirstDash(front[1..], rest);
    }
  }

  /** Ids are `action-` and lower-case hexadecimal digits, so a phrase fits one id only, and
      no phrase that approves one action rejects another or recovers it. */
  lemma PhrasesAreSpecific(x: string, y: string)
    requires NoCapitals(x) && NoCapitals(y)
    ensures
      var (a, b) := ("action-" + x, "action-" + y);
      && ("APROBAR ACCION-" + Upper(AfterDash(a)) == "APROBAR ACCION-" + Upper(AfterDash(b)) ==> x == y)
      && ("RECHAZAR ACCION-" + Upper(AfterDash(a)) == "RECHAZAR ACCION-" + Upper(AfterDash(b)) ==> x == y)
      && (RecoveryPhrase(a) == RecoveryPhrase(b) ==> x == y)
      && "APROBAR ACCION-" + Upper(AfterDash(a)) != "RECHAZAR ACCION-" + Upper(AfterDash(b))
      && "APROBAR ACCION-" + Upper(AfterDash(a)) != RecoveryPhrase(b)
      && "RECHAZAR ACCION-" + Upper(AfterDash(a)) != RecoveryPhrase(b)
  {
    AfterFirstDash("action", x);
    AfterFirstDash("action", y);
    assert "action" + "-" + x == "action-" + x && "action" + "-" + y == "action-" + y;
    var u, v := Upper(x), Upper(y);
    if u == v { UpperIsInjective(x, y); }
    hide Upper, AfterDash;
    SameTail("APROBAR ACCION-", u, v);
    SameTail("RECHAZAR ACCION-", u, v);
    SameTail("BLOQUEAR INTERRUMPIDA-", u, v);
    DifferentHeads("APROBAR ACCION-", u, "RECHAZAR ACCION-", v);
    DifferentHeads("APROBAR ACCION-", u, "BLOQUEAR INTERRUMPIDA-", v);
    DifferentHeads("RECHAZAR ACCION-", u, "BLOQUEAR INTERRUMPIDA-", v);
  }

  lemma SameTail(head: string, u: string, v: string)
    ensures head + u == head + v ==> u == v
  {
    assert u == (head + u)[|head|..] && v == (head + v)[|head|..];
  }

  lemma DifferentHeads(p: string, u: string, q: string, v: string)
    requires p != "" && q != "" && p[0] != q[0]
    ensures p + u != q + v
  {
    assert (p + u)[0] == p[0] && (q + v)[0] == q[0];
  }

  // ---------------------------------------------------------------- what an id determines

  /** Separator parsing: two lines `m|s|h` whose last two parts hold no separator are equal
      only part by part, whatever the first part holds. */
  lemma SplitAtLastBar(a: string, x: string, b: string, y: string)
    requires a + "|" + x == b + "|" + y
    requires '|' !in x && '|' !in y
    ensures a == b && x == y
  {
    var line := a + "|" + x;
    assert line[|a|] == '|' && line[|b|] == '|';
    assert a == line[..|a|] && b == line[..|b|];
    assert x == line[|a| + 1..] && y == line[|b| + 1..];
  }

  lemma IdMaterialIsInjective(m: string, s: SkillId, h: string, m': string, s': SkillId, h': string)
    requires Registered(s) && Registered(s') && '|' !in h && '|' !in h'
    requires IdMaterial(m, s, h) == IdMaterial(m', s', h')
    ensures m == m' && s == s' && h == h'
  {
    SpellIsInjective(s, s');
    SpellIsInjective(s', s);
    SplitAtLastBar(m + "|" + Spell(s), h, m' + "|" + Spell(s'), h');
    SplitAtLastBar(m, Spell(s), m', Spell(s'));
  }

  ghost predicate HashingSound(cfg: Config) {
    CollisionFree(cfg) && ShortIdsDistinct(cfg) && HexDigests(cfg)
  }

  /** Under the hashing assumptions an action id determines mission, skill and arguments. */
  lemma ActionIdIsInjective(
    cfg: Config, m: string, s: SkillId, args: Arguments, m': string, s': SkillId, args': Arguments)
    requires HashingSound(cfg) && Registered(s) && Registered(s')
    requires ActionId(cfg, m, s, cfg.sha(ArgumentsText(args))) == ActionId(cfg, m', s', cfg.sha(ArgumentsText(args')))
    ensures m == m' && s == s' && args == args'
  {
    var x, y := ArgumentsText(args), ArgumentsText(args');
    assert IsHexDigest(cfg, x) && IsHexDigest(cfg, y);
    assert !ShortIdsCollide(cfg, IdMaterial(m, s, cfg.sha(x)), IdMaterial(m', s', cfg.sha(y)));
    IdMaterialIsInjective(m, s, cfg.sha(x), m', s', cfg.sha(y));
    assert !Collides(cfg, x, y);
  }

  /** What the identity half of a passed checkpoint establishes. */
  lemma PassedIdentity(
    cfg: Config, a: Action, stage: Stage, cf: File<Charter>, df: File<Decision>, rf: File<Receipt>)
    requires ValidateActionAuthority(cfg, a, stage, cf, df, rf).Pass?
    ensures a.argumentsHash == cfg.sha(ArgumentsText(a.arguments)) && a.id == ActionId(cfg, a.missionId, a.skill, a.argumentsHash)
    ensures Registered(a.skill) && Has(a.arguments, PlanKey, Text(a.planId)) && Has(a.arguments, TierKey, TierName(a.tier))
  {
    hide LoadAuthoritativeState, CheckProvider, SkillFits, IsName, EvidenceComplete, ActionId;
  }

  /** An action id is permission for one content: two actions with the same id that both
      pass the checkpoint, at any stages and against any files, agree on mission, skill,
      arguments, plan and tier. */
  lemma IdBindsContent(
    cfg: Config, a: Action, b: Action, stageA: Stage, stageB: Stage,
    cf: File<Charter>, df: File<Decision>, rf: File<Receipt>,
    cf': File<Charter>, df': File<Decision>, rf': File<Receipt>)
    requires HashingSound(cfg)
    requires ValidateActionAuthority(cfg, a, stageA, cf, df, rf).Pass?
    requires ValidateActionAuthority(cfg, b, stageB, cf', df', rf').Pass?
    requires a.id == b.id
    ensures a.missionId == b.missionId && a.skill == b.skill && a.arguments == b.arguments
    ensures a.planId == b.planId && a.tier == b.tier && a.argumentsHash == b.argumentsHash
  {
    PassedIdentity(cfg, a, stageA, cf, df, rf);
    PassedIdentity(cfg, b, stageB, cf', df', rf');
    hide ValidateActionAuthority, HashingSound, ActionId;
    ActionIdIsInjective(cfg, a.missionId, a.skill, a.arguments, b.missionId, b.skill, b.arguments);
  }

  /** Two built actions share an id only when they are the same proposal. */
  lemma BuiltIdsDistinct(
    cfg: Config, mission: string, plan: string, c: Charter, d: Decision,
    skill: SkillId, tier: Tier, extra: Arguments, skill': SkillId, tier': Tier, extra': Arguments)
    requires HashingSound(cfg)
    requires BuildAction(cfg, mission, plan, skill, tier, c, d, extra).Ok?
    requires BuildAction(cfg, mission, plan, skill', tier', c, d, extra').Ok?
    requires BuildAction(cfg, mission, plan, skill, tier, c, d, extra).value.id
          == BuildAction(cfg, mission, plan, skill', tier', c, d, extra').value.id
    ensures skill == skill'
    ensures BuildAction(cfg, mission, plan, skill, tier, c, d, extra).value.arguments
         == BuildAction(cfg, mission, plan, skill', tier', c, d, extra').value.arguments
  {
    var a := BuildAction(cfg, mission, plan, skill, tier, c, d, extra).value;
    var b := BuildAction(cfg, mission, plan, skill', tier', c, d, extra').value;
    ActionIdIsInjective(cfg, mission, skill, a.arguments, mission, skill', b.arguments);
  }
}
