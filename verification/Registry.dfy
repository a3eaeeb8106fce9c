/** The code-owned skill registry, its provider table and the four human constraints. */
module Registry {
  import opened Common

  datatype SkillId =
    | InspectPython | InspectGit | AuditChecks | TechnicalPlan | ModelAudit
    | ApplyPatch | PostPatchTests
    | Unregistered(name: string)

  datatype Provider = Codex | Ollama | Claude | NoProvider | OtherProvider(name: string)

  datatype Capabilities = Capabilities(
    mutatesFiles: bool, externalNetwork: bool, localTransport: bool, privateContext: bool)

  datatype Constraints = Constraints(
    mutationForbidden: bool, networkBlocked: bool, localModelOnly: bool, privateRestricted: bool)

  predicate Registered(skill: SkillId) {
    !skill.Unregistered?
  }

  predicate IsProviderSkill(skill: SkillId) {
    skill.TechnicalPlan? || skill.ModelAudit?
  }

  predicate IsRemote(provider: Provider) {
    provider.Codex? || provider.Claude?
  }

  /** The registry key, as it enters the action id material. */
  function Spell(skill: SkillId): string {
    match skill
    case InspectPython => "inspect_python_runtime"
    case InspectGit => "inspect_git_status"
    case AuditChecks => "run_deterministic_audit_checks"
    case TechnicalPlan => "run_technical_plan"
    case ModelAudit => "invoke_local_model_audit"
    case ApplyPatch => "apply_validated_patch"
    case PostPatchTests => "run_post_patch_tests"
    case Unregistered(name) => name
  }

  function ProviderTable(skill: SkillId, provider: Provider): Option<Capabilities> {
    match (skill, provider)
    case (TechnicalPlan, Codex) => Some(Capabilities(false, true, false, false))
    case (TechnicalPlan, Ollama) => Some(Capabilities(false, false, true, false))
    case (ModelAudit, Ollama) => Some(Capabilities(false, false, true, false))
    case _ => None
  }

  /** Capability profile of a skill; every lookup failure is closed. */
  function EffectiveCapabilities(skill: SkillId, provider: Option<Provider>): Result<Capabilities> {
    if !Registered(skill) then Err(KeyMissing)
    else if IsProviderSkill(skill) then
      if provider.None? || ProviderTable(skill, provider.value).None? then Err(ValueInvalid)
      else Ok(ProviderTable(skill, provider.value).value)
    else if provider.Some? then Err(ValueInvalid)
    else Ok(Capabilities(skill.ApplyPatch?, false, false, false))
  }

  /** Only the patch mutates files, only a plan by Codex uses the network, only Ollama the local
      transport, nothing reads private context; Claude and unknown providers run nothing. */
  lemma CapabilitiesAreExact(skill: SkillId, provider: Option<Provider>)
    ensures
      var caps := EffectiveCapabilities(skill, provider);
      && (caps.Ok? <==>
            || (provider.None? && skill in {InspectPython, InspectGit, AuditChecks, ApplyPatch, PostPatchTests})
            || (provider == Some(Ollama) && skill in {TechnicalPlan, ModelAudit})
            || (provider == Some(Codex) && skill == TechnicalPlan))
      && (caps.Ok? ==>
            && (caps.value.mutatesFiles <==> skill == ApplyPatch) && (caps.value.externalNetwork <==> provider == Some(Codex))
            && (caps.value.localTransport <==> provider == Some(Ollama)) && !caps.value.privateContext)
  {
  }

  predicate Violates(limits: Constraints, caps: Capabilities) {
    || (limits.mutationForbidden && caps.mutatesFiles)
    || (limits.networkBlocked && caps.externalNetwork)
    || (limits.privateRestricted && caps.privateContext)
  }

  /** Length and first letter tell the registered spellings apart. */
  function Shape(skill: SkillId): (nat, char) {
    match skill
    case InspectPython => (22, 'i')
    case InspectGit => (18, 'i')
    case AuditChecks => (30, 'r')
    case TechnicalPlan => (18, 'r')
    case ModelAudit => (24, 'i')
    case ApplyPatch => (21, 'a')
    case PostPatchTests => (20, 'r')
    case Unregistered(_) => (0, ' ')
  }

  lemma SpellHasShape(a: SkillId)
    requires Registered(a)
    ensures |Spell(a)| == Shape(a).0 && Spell(a)[0] == Shape(a).1 && '|' !in Spell(a)
  {
  }

  /** Registered spellings are pairwise different and never contain the separator, so a
      skill can be read back from the id material. */
  lemma SpellIsInjective(a: SkillId, b: SkillId)
    requires Registered(a) && Registered(b)
    ensures '|' !in Spell(a)
    ensures Spell(a) == Spell(b) ==> a == b
  {
    SpellHasShape(a);
    SpellHasShape(b);
    hide Spell;
  }
}
