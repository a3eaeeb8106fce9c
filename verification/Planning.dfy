/** From an interpreted intent to a decision and a charter: which skills a mission proposes,
    which provider it uses, and when a charter can be built at all. */
module Planning {
  import opened Common
  import opened Text
  import opened Registry
  import opened Authority
  import opened Builder
  import opened QueueProtocol
  import opened QueueRules

  datatype Intent = Intent(kind: string, outputs: set<string>, category: string, complexity: string)

  // ---------------------------------------------------------------- skills of a mission

  predicate AuditRequested(intent: Intent) {
    || "findings" in intent.outputs || "patch_proposal" in intent.outputs
    || intent.kind in {"inspect_and_review", "validate_project"}
  }

  predicate PatchImplied(intent: Intent) {
    "patch_proposal" in intent.outputs || intent.kind == "implement_change"
  }

  /** real_proposed_skills. */
  function ProposedSkills(intent: Intent): seq<SkillId> {
    (if intent.kind in {"inspect_and_review", "validate_project", "implement_change"} then [InspectPython, InspectGit] else [])
    + (if AuditRequested(intent) then [AuditChecks, ModelAudit] else [])
  }

  /** real_allowed_followup_skills. */
  function FollowupSkills(intent: Intent): seq<SkillId> {
    if PatchImplied(intent) then [ApplyPatch, PostPatchTests] else []
  }

  /** The provider skill among the proposed ones; there is never more than one. */
  function ProviderSkill(intent: Intent): Option<SkillId> {
    if AuditRequested(intent) then Some(ModelAudit) else None
  }

  /** The stripped values without empties and repetitions, in order of first appearance. */
  function Deduped(values: seq<string>): seq<string> {
    if values == [] then []
    else
      var front, value := Deduped(values[..|values| - 1]), Strip(values[|values| - 1]);
      if value != "" && value !in front then front + [value] else front
  }

  /** _dedupe, with its list and its set of seen values. */
  method DedupeNames(values: seq<string>) returns (r: seq<string>)
    ensures r == Deduped(values) && Distinct(r)
    ensures forall name :: name in r <==> name != "" && exists i :: 0 <= i < |values| && Strip(values[i]) == name
  {
    hide Strip;
    r := [];
    var seen: set<string> := {};
    for k := 0 to |values|
      invariant r == Deduped(values[..k]) && Distinct(r) && seen == (set name | name in r)
      invariant forall name :: name in r <==> name != "" && exists i :: 0 <= i < k && Strip(values[i]) == name
    {
      assert values[..k + 1][..k] == values[..k];
      var value := Strip(values[k]);
      if value != "" && value !in seen {
        seen := seen + {value};
        r := r + [value];
      }
    }
    assert values[..|values|] == values;
  }

  predicate Clean(name: string) { name != "" && Strip(name) == name }

  lemma {:induction false} CleanNamesStay(values: seq<string>)
    requires Distinct(values) && forall i :: 0 <= i < |values| ==> Clean(values[i])
    ensures Deduped(values) == values
  {
    hide Strip;
    if values != [] {
      var n := |values| - 1;
      CleanNamesStay(values[..n]);
      assert Clean(values[n]) && values[n] !in values[..n];
      assert values == values[..n] + [values[n]];
    }
  }

  function Names(skills: seq<SkillId>): seq<string> {
    seq(|skills|, i requires 0 <= i < |skills| => Spell(skills[i]))
  }

  lemma SkillNameIsClean(skill: SkillId)
    requires Registered(skill)
    ensures Clean(Spell(skill))
  {
    var name := Spell(skill);
    assert !IsSpace(name[0]) && !IsSpace(name[|name| - 1]);
    hide StripLeft, StripRight, Spell;
  }

  /** Both skill lists are built free of repetitions, so dropping them changes nothing. */
  lemma SkillListsNeedNoDedupe(intent: Intent)
    ensures Deduped(Names(ProposedSkills(intent))) == Names(ProposedSkills(intent))
    ensures Deduped(Names(FollowupSkills(intent))) == Names(FollowupSkills(intent))
  {
    SkillListsAreSound(intent);
    hide ProposedSkills, FollowupSkills, Deduped, AuditRequested, PatchImplied;
    DistinctSkillsHaveCleanNames(ProposedSkills(intent), ProposedSkills(intent) + FollowupSkills(intent));
    DistinctSkillsHaveCleanNames(FollowupSkills(intent), ProposedSkills(intent) + FollowupSkills(intent));
  }

  lemma DistinctSkillsHaveCleanNames(skills: seq<SkillId>, all: seq<SkillId>)
    requires Distinct(skills) && (forall k | k in skills :: k in all) && forall k | k in all :: Registered(k)
    ensures Deduped(Names(skills)) == Names(skills)
  {
    hide Deduped, Spell, Strip;
    forall i | 0 <= i < |skills| ensures Clean(Names(skills)[i]) {
      assert skills[i] in skills;
      SkillNameIsClean(skills[i]);
    }
    forall i, j | 0 <= i < j < |skills| ensures Names(skills)[i] != Names(skills)[j] {
      assert skills[i] in skills && skills[j] in skills;
      SpellIsInjective(skills[i], skills[j]);
    }
    CleanNamesStay(Names(skills));
  }

  // ---------------------------------------------------------------- provider selection

  /** The candidates in order of priority, and why this order. */
  function Priority(skill: SkillId, category: string, limits: Constraints): seq<Provider> {
    if limits.localModelOnly || skill.ModelAudit? then [Ollama]
    else if category == "knowledge_processing" then [Ollama, Codex, Claude]
    else if category in {"research", "general_supervised_task"} then [Claude, Codex, Ollama]
    else [Codex, Claude, Ollama]
  }

  function Source(skill: SkillId, limits: Constraints): string {
    if limits.localModelOnly then "human_constraint_local_model_only"
    else if skill.ModelAudit? then "provider_skill_ollama_only"
    else "deterministic_classification_and_readiness"
  }

  /** Ready, supported by the skill, and compatible with every constraint. */
  predicate Eligible(ready: set<Provider>, skill: SkillId, limits: Constraints, provider: Provider) {
    && provider in ready
    && EffectiveCapabilities(skill, Some(provider)).Ok?
    && !Violates(limits, EffectiveCapabilities(skill, Some(provider)).value)
  }

  function Selected(intent: Intent, limits: Constraints, localModel: string, skill: SkillId, provider: Provider): Selection {
    Selection(provider,
      if provider.Ollama? then localModel else "provider_default",
      if provider.Ollama? && intent.complexity == "high" && !limits.localModelOnly then "hybrid_review_required"
      else if provider.Ollama? then "local" else "remote",
      Source(skill, limits))
  }

  /** Candidate k is eligible and none before it is. */
  predicate IsFirst(order: seq<Provider>, ready: set<Provider>, skill: SkillId, limits: Constraints, k: nat) {
    && k < |order| && Eligible(ready, skill, limits, order[k])
    && forall i :: 0 <= i < k ==> !Eligible(ready, skill, limits, order[i])
  }

  function Pick(order: seq<Provider>, ready: set<Provider>, skill: SkillId, limits: Constraints): Option<Provider> {
    if order == [] then None
    else if Eligible(ready, skill, limits, order[0]) then Some(order[0])
    else Pick(order[1..], ready, skill, limits)
  }

  lemma {:induction false} PickIsFirst(order: seq<Provider>, ready: set<Provider>, skill: SkillId, limits: Constraints, k: nat)
    requires IsFirst(order, ready, skill, limits, k)
    ensures Pick(order, ready, skill, limits) == Some(order[k])
  {
    hide Eligible;
    if k > 0 { PickIsFirst(order[1..], ready, skill, limits, k - 1); }
  }

  /** select_provider_and_model_1_1 as a function. */
  function Select(
    intent: Intent, limits: Constraints, ready: set<Provider>, localModel: string, providerSkill: Option<SkillId>)
    : Result<Selection>
  {
    match providerSkill
    case None => Ok(Selection(NoProvider, "none", "deterministic_only", "no_provider_skill_requested"))
    case Some(skill) =>
      :- Need(IsProviderSkill(skill), ValueInvalid);
      var picked := Pick(Priority(skill, intent.category, limits), ready, skill, limits);
      if picked.None? then Err(ValueInvalid) else Ok(Selected(intent, limits, localModel, skill, picked.value))
  }

  /** The search loop. It answers with the first provider in priority order that is ready,
      supported and compatible, and fails exactly when there is none. */
  method SelectProvider(
    intent: Intent, limits: Constraints, ready: set<Provider>, localModel: string, providerSkill: Option<SkillId>)
    returns (r: Result<Selection>)
    ensures r == Select(intent, limits, ready, localModel, providerSkill)
    ensures providerSkill.Some? && IsProviderSkill(providerSkill.value) ==>
      var skill := providerSkill.value;
      var order := Priority(skill, intent.category, limits);
      && (r.Err? <==> forall i :: 0 <= i < |order| ==> !Eligible(ready, skill, limits, order[i]))
      && (r.Ok? ==> exists k: nat :: IsFirst(order, ready, skill, limits, k)
                                  && r.value == Selected(intent, limits, localModel, skill, order[k]))
  {
    if providerSkill.None? {
      return Ok(Selection(NoProvider, "none", "deterministic_only", "no_provider_skill_requested"));
    }
    var skill := providerSkill.value;
    if !IsProviderSkill(skill) { return Err(ValueInvalid); }
    var order := Priority(skill, intent.category, limits);
    for k := 0 to |order|
      invariant forall i :: 0 <= i < k ==> !Eligible(ready, skill, limits, order[i])
      invariant Pick(order, ready, skill, limits) == Pick(order[k..], ready, skill, limits)
    {
      if order[k] !in ready { continue; }
      var caps := EffectiveCapabilities(skill, Some(order[k]));
      if caps.Err? { continue; }
      if limits.networkBlocked && caps.value.externalNetwork { continue; }
      if limits.mutationForbidden && caps.value.mutatesFiles { continue; }
      if limits.privateRestricted && caps.value.privateContext { continue; }
      assert IsFirst(order, ready, skill, limits, k);
      return Ok(Selected(intent, limits, localModel, skill, order[k]));
    }
    r := Err(ValueInvalid);
  }

  /** A selected provider fits the skill it was selected for, and is local under
      local_model_only. */
  lemma SelectionFits(
    intent: Intent, limits: Constraints, ready: set<Provider>, localModel: string, skill: SkillId)
    requires IsProviderSkill(skill) && Select(intent, limits, ready, localModel, Some(skill)).Ok?
    ensures
      var s := Select(intent, limits, ready, localModel, Some(skill)).value;
      && s.provider in ready && SkillFits(limits, s.provider, skill)
      && !(limits.localModelOnly && IsRemote(s.provider))
      && (skill.ModelAudit? ==> s.provider.Ollama?)
  {
    var order := Priority(skill, intent.category, limits);
    PickIsEligible(order, ready, skill, limits);
  }

  lemma {:induction false} PickIsEligible(order: seq<Provider>, ready: set<Provider>, skill: SkillId, limits: Constraints)
    requires Pick(order, ready, skill, limits).Some?
    ensures
      var p := Pick(order, ready, skill, limits).value;
      p in order && Eligible(ready, skill, limits, p)
  {
    hide Eligible;
    if !Eligible(ready, skill, limits, order[0]) { PickIsEligible(order[1..], ready, skill, limits); }
  }

  /** The provider, case by case. The audit always runs locally, and so does a plan under a
      constraint on locality or network. Otherwise the category decides whether Codex or Ollama
      is preferred, and the other one stands in if it alone is ready. */
  function Choice(category: string, limits: Constraints, ready: set<Provider>, skill: SkillId): Option<Provider> {
    if skill.ModelAudit? || limits.localModelOnly || limits.networkBlocked then (if Ollama in ready then Some(Ollama) else None)
    else if Codex in ready && (category != "knowledge_processing" || Ollama !in ready) then Some(Codex)
    else if Ollama in ready then Some(Ollama)
    else None
  }

  lemma PickIsChoice(category: string, limits: Constraints, ready: set<Provider>, skill: SkillId)
    requires skill.TechnicalPlan? || skill.ModelAudit?
    ensures Pick(Priority(skill, category, limits), ready, skill, limits) == Choice(category, limits, ready, skill)
  {
    EligibleIff(ready, skill, limits);
    var order := Priority(skill, category, limits);
    if |order| == 1 {
      PickOne(order[0], ready, skill, limits);
    } else {
      PickThree(order[0], order[1], order[2], ready, skill, limits);
    }
    hide Eligible, EffectiveCapabilities, Pick;
  }

  /** What is selected: the provider by choice, its model, how it is used, and on what ground. */
  lemma SelectionByCategory(
    intent: Intent, limits: Constraints, ready: set<Provider>, localModel: string, skill: SkillId)
    requires skill.TechnicalPlan? || skill.ModelAudit?
    ensures
      var r, picked := Select(intent, limits, ready, localModel, Some(skill)), Choice(intent.category, limits, ready, skill);
      && (r.Ok? <==> picked.Some?)
      && (r.Ok? ==>
            && r.value.provider == picked.value
            && r.value.model == (if picked == Some(Ollama) then localModel else "provider_default")
            && r.value.strategy ==
                 (if picked == Some(Codex) then "remote"
                  else if intent.complexity == "high" && !limits.localModelOnly then "hybrid_review_required" else "local")
            && r.value.source ==
                 (if limits.localModelOnly then "human_constraint_local_model_only"
                  else if skill.ModelAudit? then "provider_skill_ollama_only"
                  else "deterministic_classification_and_readiness"))
  {
    PickIsChoice(intent.category, limits, ready, skill);
    hide Pick, Priority;
  }

  lemma PickOne(x: Provider, ready: set<Provider>, skill: SkillId, limits: Constraints)
    ensures Pick([x], ready, skill, limits) == if Eligible(ready, skill, limits, x) then Some(x) else None
  {
    hide Eligible;
  }

  lemma PickThree(x: Provider, y: Provider, z: Provider, ready: set<Provider>, skill: SkillId, limits: Constraints)
    ensures Pick([x, y, z], ready, skill, limits)
         == if Eligible(ready, skill, limits, x) then Some(x)
            else if Eligible(ready, skill, limits, y) then Some(y)
            else if Eligible(ready, skill, limits, z) then Some(z) else None
  {
    hide Eligible;
    assert [x, y, z][1..] == [y, z] && [y, z][1..] == [z];
    PickOne(z, ready, skill, limits);
  }

  lemma EligibleIff(ready: set<Provider>, skill: SkillId, limits: Constraints)
    requires skill.TechnicalPlan? || skill.ModelAudit?
    ensures Eligible(ready, skill, limits, Ollama) <==> Ollama in ready
    ensures Eligible(ready, skill, limits, Codex) <==> Codex in ready && skill.TechnicalPlan? && !limits.networkBlocked
    ensures !Eligible(ready, skill, limits, Claude)
  {
  }

  /** A mission without a provider skill needs no provider. */
  lemma NoSkillNoProvider(intent: Intent, limits: Constraints, ready: set<Provider>, localModel: string)
    ensures Select(intent, limits, ready, localModel, None)
         == Ok(Selection(NoProvider, "none", "deterministic_only", "no_provider_skill_requested"))
  {
  }

  // ---------------------------------------------------------------- the charter

  /** build_charter_1_1 before its own validation; no skill is forbidden by the console. */
  function Draft(
    cfg: Config, intent: Intent, d: Decision, limits: Constraints, charterId: string, body: string): Charter
  {
    Charter(charterId, d.missionId, CharterProposed, limits, ProposedSkills(intent), [], FollowupSkills(intent),
            !limits.privateRestricted, d.decisionId, cfg.sha(DecisionText(d)),
            "APROBAR CHARTER-" + Upper(AfterDash(charterId)), "", "", body)
  }

  function BuildCharter(
    cfg: Config, intent: Intent, d: Decision, limits: Constraints, charterId: string, body: string): Result<Charter>
  {
    var c := Draft(cfg, intent, d, limits, charterId, body);
    :- Ensure(ValidateCharterConstruction(cfg, c, d));
    Ok(c)
  }

  const Inspections: seq<SkillId> := [InspectPython, InspectGit]
  const Audits: seq<SkillId> := [AuditChecks, ModelAudit]

  lemma ProposedCases(intent: Intent)
    ensures ProposedSkills(intent) == (if AuditRequested(intent) then Inspections + Audits else Inspections)
         || ProposedSkills(intent) == (if AuditRequested(intent) then Audits else [])
  {
    hide AuditRequested;
    assert Inspections + [] == Inspections && [] + Audits == Audits;
    var none: seq<SkillId> := [];
    assert none + none == none;
  }

  lemma ProposedAreSound(intent: Intent)
    ensures NamesOk(ProposedSkills(intent))
    ensures forall k | k in ProposedSkills(intent) :: k in [InspectPython, InspectGit, AuditChecks, ModelAudit]
    ensures ModelAudit in ProposedSkills(intent) <==> AuditRequested(intent)
  {
    ProposedCases(intent);
    hide ProposedSkills, AuditRequested;
    assert Inspections + Audits == [InspectPython, InspectGit, AuditChecks, ModelAudit];
    assert Audits[1] == ModelAudit && (Inspections + Audits)[3] == ModelAudit;
  }

  lemma SkillListsAreSound(intent: Intent)
    ensures NamesOk(ProposedSkills(intent)) && NamesOk(FollowupSkills(intent))
    ensures forall k | k in ProposedSkills(intent) + FollowupSkills(intent) :: Registered(k)
    ensures forall k | k in ProposedSkills(intent) :: k in [InspectPython, InspectGit, AuditChecks, ModelAudit]
    ensures ModelAudit in ProposedSkills(intent) <==> AuditRequested(intent)
    ensures ApplyPatch in FollowupSkills(intent) <==> PatchImplied(intent)
    ensures PostPatchTests in FollowupSkills(intent) <==> PatchImplied(intent)
  {
    ProposedAreSound(intent);
    hide ProposedSkills, AuditRequested, PatchImplied;
    assert [ApplyPatch, PostPatchTests][0] == ApplyPatch && [ApplyPatch, PostPatchTests][1] == PostPatchTests;
  }

  /** The skill lists, from the words of the intent. */
  lemma SkillListsByIntent(intent: Intent)
    ensures
      var inspects := intent.kind in {"inspect_and_review", "validate_project", "implement_change"};
      var audits := "findings" in intent.outputs || "patch_proposal" in intent.outputs
                    || intent.kind == "inspect_and_review" || intent.kind == "validate_project";
      ProposedSkills(intent) ==
        (if inspects && audits then [InspectPython, InspectGit, AuditChecks, ModelAudit]
         else if inspects then [InspectPython, InspectGit]
         else if audits then [AuditChecks, ModelAudit] else [])
    ensures FollowupSkills(intent) ==
      if "patch_proposal" in intent.outputs || intent.kind == "implement_change" then [ApplyPatch, PostPatchTests] else []
    ensures ProviderSkill(intent).Some? <==> ModelAudit in ProposedSkills(intent)
  {
    assert Inspections + Audits == [InspectPython, InspectGit, AuditChecks, ModelAudit];
    assert Inspections + [] == Inspections && [] + Audits == Audits;
    ProposedAreSound(intent);
  }

  /** A decision whose selection is the one made for this intent. */
  predicate DecidedFor(d: Decision, intent: Intent, limits: Constraints, ready: set<Provider>, localModel: string) {
    && d.decisionId != "" && d.missionId != "" && localModel != ""
    && Select(intent, limits, ready, localModel, ProviderSkill(intent)) == Ok(d.selection)
  }

  lemma EverySkillFitsUnlessPatchForbidden(
    intent: Intent, limits: Constraints, ready: set<Provider>, localModel: string, d: Decision)
    requires DecidedFor(d, intent, limits, ready, localModel)
    ensures (forall k | k in SortedSkills && k in ProposedSkills(intent) + FollowupSkills(intent) ::
               SkillFits(limits, d.selection.provider, k))
       <==> !(limits.mutationForbidden && PatchImplied(intent))
    ensures !(limits.localModelOnly && IsRemote(d.selection.provider))
  {
    SkillListsAreSound(intent);
    if AuditRequested(intent) { SelectionFits(intent, limits, ready, localModel, ModelAudit); }
    var all := ProposedSkills(intent) + FollowupSkills(intent);
    hide ProposedSkills, FollowupSkills, Select, AuditRequested, PatchImplied;
    forall k | k in all && !k.ApplyPatch? ensures SkillFits(limits, d.selection.provider, k) {
      assert k.ModelAudit? ==> AuditRequested(intent);
    }
    assert SortedSkills[0] == ApplyPatch;
    assert SkillFits(limits, d.selection.provider, ApplyPatch) <==> !limits.mutationForbidden;
  }

  /** With the decision made for it, a charter can be built exactly unless mutation is
      forbidden while a patch follow-up is implied. */
  lemma CharterFailsExactlyOnForbiddenPatch(
    cfg: Config, intent: Intent, limits: Constraints, ready: set<Provider>, localModel: string,
    d: Decision, charterId: string, body: string)
    requires HexDigests(cfg) && charterId != "" && DecidedFor(d, intent, limits, ready, localModel)
    ensures BuildCharter(cfg, intent, d, limits, charterId, body).Ok? <==> !(limits.mutationForbidden && PatchImplied(intent))
  {
    EverySkillFitsUnlessPatchForbidden(intent, limits, ready, localModel, d);
    SkillListsAreSound(intent);
    SelectedIsNamed(intent, limits, ready, localModel, ProviderSkill(intent));
    assert IsHexDigest(cfg, DecisionText(d));
    hide ProposedSkills, FollowupSkills, Select, AuditRequested, PatchImplied, SkillFits, Upper, AfterDash, HexDigests;
    assert RegistrationOk(Draft(cfg, intent, d, limits, charterId, body));
  }

  lemma SelectedIsNamed(
    intent: Intent, limits: Constraints, ready: set<Provider>, localModel: string, providerSkill: Option<SkillId>)
    requires localModel != "" && Select(intent, limits, ready, localModel, providerSkill).Ok?
    ensures
      var s := Select(intent, limits, ready, localModel, providerSkill).value;
      s.provider != OtherProvider("") && s.model != "" && s.strategy != "" && s.source != ""
  {
    if providerSkill.Some? {
      PickIsEligible(Priority(providerSkill.value, intent.category, limits), ready, providerSkill.value, limits);
    }
  }

  // ---------------------------------------------------------------- from proposal to queue

  lemma {:induction false} BuildAllSucceeds(
    cfg: Config, c: Charter, d: Decision, at: string, who: string, plan: string, skills: seq<SkillId>)
    requires HexDigests(cfg) && cfg.directory == c.missionId && at != "" && plan != ""
    requires ValidateCharterConstruction(cfg, c, d).Pass? && forall k | k in skills :: k in c.proposed
    ensures
      var k := Approved(c, at, who);
      var built := BuildAll(cfg, k.missionId, plan, skills, k, d);
      && built.Ok?
      && CheckAll(cfg, built.value, View(Doc(k), Doc(d)), Doc(MakeReceipt(cfg, k, d))).Pass?
  {
    hide ValidateCharterConstruction, ValidateActionAuthority, BuildAction, HexDigests, MakeReceipt;
    if skills != [] {
      BuiltActionsPass(cfg, c, d, at, who, plan, skills[0], Initial, map[]);
      BuildAllSucceeds(cfg, c, d, at, who, plan, skills[1..]);
    }
  }

  /** Every charter that could be built and was approved in the directory of its mission
      yields a queue: one proposed action per proposed skill, in order. */
  lemma ApprovedMissionStarts(cfg: Config, c: Charter, d: Decision, at: string, who: string, plan: string)
    requires HexDigests(cfg) && cfg.directory == c.missionId && at != "" && plan != ""
    requires ValidateCharterConstruction(cfg, c, d).Pass?
    ensures
      var k := Approved(c, at, who);
      var r := InitialActions(cfg, Doc(MakeReceipt(cfg, k, d)), View(Doc(k), Doc(d)), Initialize(k.missionId, plan));
      && r.Ok? && |r.value| == |c.proposed|
      && forall i | 0 <= i < |c.proposed| ::
           r.value[i].skill == c.proposed[i] && r.value[i].status.Proposed? && StartsWith(r.value[i].approvalPhrase, "APROBAR ")
  {
    ApprovedPairLoads(cfg, c, d, at, who);
    BuildAllSucceeds(cfg, c, d, at, who, plan, c.proposed);
    hide ValidateCharterConstruction, LoadAuthoritativeState, HexDigests, MakeReceipt, CheckAll, BuildAction;
    var k := Approved(c, at, who);
    forall i | 0 <= i < |c.proposed| {
      BuiltKeepsSkill(cfg, k.missionId, plan, c.proposed[i], k, d);
    }
  }

  lemma BuiltKeepsSkill(cfg: Config, mission: string, plan: string, skill: SkillId, c: Charter, d: Decision)
    requires BuildAction(cfg, mission, plan, skill, Initial, c, d, map[]).Ok?
    ensures
      var a := BuildAction(cfg, mission, plan, skill, Initial, c, d, map[]).value;
      a.skill == skill && a.status.Proposed? && StartsWith(a.approvalPhrase, "APROBAR ")
  {
    hide BuildArguments, AfterDash, Upper;
  }

  /** The follow-ups of an audit are appended only if the charter lists them: for a charter
      built from an intent, the tests that follow a completed audit are accepted exactly when
      a patch was implied, so an audit-only mission has its follow-up refused. */
  lemma FollowupsAcceptedIffPatchImplied(
    cfg: Config, intent: Intent, d: Decision, limits: Constraints, charterId: string, body: string,
    at: string, who: string, plan: string, skill: SkillId, extra: Arguments)
    requires HexDigests(cfg) && cfg.directory == d.missionId && at != "" && plan != ""
    requires BuildCharter(cfg, intent, d, limits, charterId, body).Ok? && skill in [ApplyPatch, PostPatchTests]
    ensures
      var k := Approved(BuildCharter(cfg, intent, d, limits, charterId, body).value, at, who);
      var built := BuildAction(cfg, k.missionId, plan, skill, Followup, k, d, extra);
      && built.Ok?
      && (ValidateActionAuthority(cfg, built.value, FollowupAppend, Doc(k), Doc(d), Doc(MakeReceipt(cfg, k, d))).Pass?
          <==> PatchImplied(intent))
  {
    var c := BuildCharter(cfg, intent, d, limits, charterId, body).value;
    SkillListsAreSound(intent);
    ApprovedPairLoads(cfg, c, d, at, who);
    var k := Approved(c, at, who);
    BuildsFollowup(cfg, k.missionId, plan, skill, k, d, extra);
    hide ValidateCharterConstruction, ValidateActionAuthority, LoadAuthoritativeState, HexDigests, MakeReceipt, BuildAction,
         ProposedSkills, FollowupSkills, PatchImplied;
    if PatchImplied(intent) {
      BuiltActionsPass(cfg, c, d, at, who, plan, skill, Followup, extra);
    } else {
      UnlistedIsRefused(cfg, BuildAction(cfg, k.missionId, plan, skill, Followup, k, d, extra).value, k, d);
    }
  }

  lemma BuildsFollowup(
    cfg: Config, mission: string, plan: string, skill: SkillId, c: Charter, d: Decision, extra: Arguments)
    requires Registered(skill) && !IsProviderSkill(skill)
    ensures
      var built := BuildAction(cfg, mission, plan, skill, Followup, c, d, extra);
      built.Ok? && built.value.skill == skill && built.value.tier.Followup?
  {
    hide AfterDash, Upper, BindDocuments;
  }

  lemma UnlistedIsRefused(cfg: Config, a: Action, c: Charter, d: Decision)
    requires a.tier.Followup? && a.skill !in c.followups
    requires LoadAuthoritativeState(cfg, Doc(c), Doc(d), Doc(MakeReceipt(cfg, c, d))) == Ok((c, d))
    ensures ValidateActionAuthority(cfg, a, FollowupAppend, Doc(c), Doc(d), Doc(MakeReceipt(cfg, c, d))).Fail?
  {
    hide CheckIdentity, LoadAuthoritativeState, MakeReceipt, CheckProvider, SkillFits;
  }

  /** Such missions exist: an inspection proposes the audit and implies no patch. */
  lemma InspectionAuditsWithoutPatch(category: string, complexity: string)
    ensures
      var intent := Intent("inspect_and_review", {"findings"}, category, complexity);
      ModelAudit in ProposedSkills(intent) && !PatchImplied(intent)
  {
    SkillListsAreSound(Intent("inspect_and_review", {"findings"}, category, complexity));
  }
}
