/** What a ready proposal is, in the contract's own words: operations, risks, levels, tokens, ids,
    digests and paths spelled out. */
module ProposalReady {
  import opened Common
  import opened Text
  import opened ProposalPaths
  import opened ProposalEvidence
  import opened ProposalValidator

  // ---------------------------------------------------------------- the vocabulary

  predicate AltersByName(operation: string) {
    || operation == "execute_command" || operation == "apply_patch" || operation == "git_stage" || operation == "git_commit"
    || operation == "git_push" || operation == "write_private_memory" || operation == "close_mission"
  }

  predicate SensitiveByName(operation: string) {
    AltersByName(operation) || operation == "invoke_local_model"
  }

  predicate KnownByName(operation: string) {
    || SensitiveByName(operation) || operation == "inspect_repository" || operation == "read_public_files"
    || operation == "run_deterministic_checks" || operation == "propose_command" || operation == "record_external_result"
  }

  lemma OperationsByName(operation: string)
    ensures operation in Changing <==> AltersByName(operation)
    ensures operation in Sensitive <==> SensitiveByName(operation)
    ensures operation in Operations <==> KnownByName(operation)
  {
  }

  /** No riskier than. */
  predicate WithinRisk(risk: string, limit: string) {
    match limit
    case "critical" => risk in {"low", "medium", "high", "critical"}
    case "high" => risk in {"low", "medium", "high"}
    case "medium" => risk in {"low", "medium"}
    case _ => risk == "low"
  }

  lemma RiskIff(risk: string, limit: string)
    ensures RiskOk(risk, limit) <==> WithinRisk(risk, limit)
  {
  }

  /** At least as strict as. */
  predicate AtLeast(level: string, floor: string) {
    match floor
    case "critical" => level == "critical"
    case "strict" => level in {"strict", "critical"}
    case _ => level in {"standard", "strict", "critical"}
  }

  lemma LevelIff(level: string, floor: string)
    ensures ReviewRank(level).Some? && (ReviewRank(floor).Some? ==> ReviewRank(floor).value <= ReviewRank(level).value)
       <==> AtLeast(level, floor)
  {
  }

  // ---------------------------------------------------------------- readiness, part by part

  /** A path in normal form that the contract admits. */
  predicate AdmittedPath(c: Contract, path: Option<string>) {
    && path.Some? && Normalize(path.value).Some?
    && NormalForm(Normalize(path.value).value) && c.admits(Normalize(path.value).value)
  }

  lemma PathsAreAdmitted(c: Contract, paths: seq<Option<string>>)
    requires PathsOk(c.admits, paths)
    ensures forall i :: 0 <= i < |paths| ==> AdmittedPath(c, paths[i])
    ensures forall i, j :: 0 <= i < j < |paths| && paths[i].Some? && paths[j].Some? ==>
      Normalize(paths[i].value) != Normalize(paths[j].value)
  {
    hide Normalize, NormalForm;
    forall i | 0 <= i < |paths| ensures AdmittedPath(c, paths[i]) {
      assert NormalOf(paths[i]).Some?;
      AcceptedIsNormal(paths[i].value);
    }
  }

  /** A proposed action of a ready proposal. */
  predicate ActionInOrder(c: Contract, items: seq<Option<Item>>, limit: string, a: ProposedAction) {
    && KnownByName(a.operation) && a.operation in c.allowed && a.operation !in c.blocked
    && (a.operation == "git_push" ==> c.networkPolicy == "explicit_approval_required")
    && (a.operation == "write_private_memory" ==> c.privatePolicy == "explicit_approval_required")
    && WithinRisk(a.risk, limit) && !a.irreversible
    && a.paths != [] && (forall i :: 0 <= i < |a.paths| ==> AdmittedPath(c, a.paths[i]))
    && a.evidenceIds != [] && (forall i :: 0 <= i < |a.evidenceIds| ==> HasId(items, a.evidenceIds[i]))
    && (SensitiveByName(a.operation) || a.operation in Gates(c.approvals) ==> a.requiresApproval)
  }

  /** An item of the bundle carries this id. */
  predicate HasId(items: seq<Option<Item>>, id: string) {
    exists i :: 0 <= i < |items| && items[i].Some? && items[i].value.id == Some(id)
  }

  lemma IdsAreItems(items: seq<Option<Item>>, id: string)
    requires id in ItemIds(items)
    ensures HasId(items, id)
  {
  }

  lemma ActionIsInOrder(c: Contract, items: seq<Option<Item>>, limit: string, a: ProposedAction)
    requires ActionOk(c, ItemIds(items), limit, Some(a))
    ensures ActionInOrder(c, items, limit, a)
  {
    OperationsByName(a.operation);
    RiskIff(a.risk, limit);
    PathsAreAdmitted(c, a.paths);
    hide PathsOk, AdmittedPath, RiskOk, SafeId, Gates, KnownByName, SensitiveByName, WithinRisk, ItemIds;
    forall i | 0 <= i < |a.evidenceIds| ensures HasId(items, a.evidenceIds[i]) {
      IdsAreItems(items, a.evidenceIds[i]);
    }
  }

  /** Every action is there and in order. */
  lemma ReadyActions(tree: Tree, c: Contract, items: seq<Option<Item>>, p: Proposal, i: nat)
    requires ProposalOk(tree, Some(c), Some(items), p) && i < |p.actions|
    ensures p.actions[i].Some? && ActionInOrder(c, items, p.risk, p.actions[i].value)
  {
    hide EvidenceOk, ApprovalsOk, Normals, TotalOf, Texts, PathsOk, RollbackOk, ReviewOk, ActionOk, ListOk, ItemIds,
         ActionInOrder;
    ListMeansEach(c, ItemIds(items), p.risk, p.actions, i);
    assert p.actions[i].Some? by { SomeAction(c, ItemIds(items), p.risk, p.actions[i]); }
    ActionIsInOrder(c, items, p.risk, p.actions[i].value);
  }

  lemma SomeAction(c: Contract, known: set<string>, limit: string, action: Option<ProposedAction>)
    requires ActionOk(c, known, limit, action)
    ensures action.Some?
  {
    hide HeadOk, PathsOk, KnowsAll;
  }

  lemma ListStep(c: Contract, known: set<string>, limit: string, actions: seq<Option<ProposedAction>>)
    requires ListOk(c, known, limit, actions) && actions != []
    ensures
      var n := |actions| - 1;
      && ListOk(c, known, limit, actions[..n]) && ActionOk(c, known, limit, actions[n])
      && actions[n].Some? && actions[n].value.id.Some? && actions[n].value.id.value !in TotalOf(actions[..n]).ids
  {
    hide ActionOk, TotalOf, SafeId;
    ActionHasId(c, known, limit, actions[|actions| - 1]);
  }

  lemma ActionHasId(c: Contract, known: set<string>, limit: string, action: Option<ProposedAction>)
    requires ActionOk(c, known, limit, action)
    ensures action.Some? && action.value.id.Some? && SafeId(action.value.id.value)
  {
    hide PathsOk, KnowsAll, OperationOk, RiskOk, SafeId;
  }

  lemma {:induction false} ListIdsDiffer(
    c: Contract, known: set<string>, limit: string, actions: seq<Option<ProposedAction>>, i: nat, j: nat)
    requires ListOk(c, known, limit, actions) && i < j < |actions|
    ensures actions[i].Some? && actions[j].Some? && actions[i].value.id.Some? && actions[i].value.id != actions[j].value.id
  {
    hide ListOk, ActionOk, TotalOf, SafeId;
    ListStep(c, known, limit, actions);
    var front := actions[..|actions| - 1];
    if j < |front| {
      ListIdsDiffer(c, known, limit, front, i, j);
    } else {
      EarlierIdIsCollected(c, known, limit, front, i);
      assert actions[i] == front[i];
    }
  }

  /** No two actions share an id. */
  lemma ReadyIdsDiffer(tree: Tree, c: Contract, items: seq<Option<Item>>, p: Proposal, i: nat, j: nat)
    requires ProposalOk(tree, Some(c), Some(items), p) && i < j < |p.actions|
    ensures p.actions[i].Some? && p.actions[j].Some? && p.actions[i].value.id.Some?
    ensures p.actions[i].value.id != p.actions[j].value.id
  {
    hide EvidenceOk, ApprovalsOk, Normals, TotalOf, Texts, PathsOk, RollbackOk, ReviewOk, ListOk, ItemIds;
    ListIdsDiffer(c, ItemIds(items), p.risk, p.actions, i, j);
  }

  lemma EarlierIdIsCollected(c: Contract, known: set<string>, limit: string, actions: seq<Option<ProposedAction>>, i: nat)
    requires ListOk(c, known, limit, actions) && i < |actions|
    ensures actions[i].Some? && actions[i].value.id.Some? && actions[i].value.id.value in TotalOf(actions).ids
  {
    hide ListOk, ActionOk, TotalOf, SafeId;
    ListMeansEach(c, known, limit, actions, i);
    ActionHasId(c, known, limit, actions[i]);
    IdsAreCollected(actions, i);
  }

  lemma {:induction false} IdsAreCollected(actions: seq<Option<ProposedAction>>, i: nat)
    requires i < |actions| && actions[i].Some? && actions[i].value.id.Some? && SafeId(actions[i].value.id.value)
    ensures actions[i].value.id.value in TotalOf(actions).ids
  {
    hide SafeId, Normals;
    if i < |actions| - 1 { IdsAreCollected(actions[..|actions| - 1], i); }
  }

  /** The review of a ready proposal: required, with reviewers, not below the contract's level,
      strict for a high risk and critical for a critical one. */
  lemma ReadyReview(tree: Tree, c: Contract, items: seq<Option<Item>>, p: Proposal)
    requires ProposalOk(tree, Some(c), Some(items), p)
    ensures c.review.Some? && c.review.value.required && p.review.Some? && p.risk in {"low", "medium", "high", "critical"}
    ensures
      var r := p.review.value;
      && r.required && r.reviewers > 0 && AtLeast(r.level, c.review.value.level)
      && (p.risk == "high" ==> r.level == "strict" || r.level == "critical")
      && (p.risk == "critical" ==> r.level == "critical")
  {
    hide EvidenceOk, ApprovalsOk, Normals, TotalOf, Texts, PathsOk, RollbackOk, ListOk, ItemIds;
    LevelIff(p.review.value.level, c.review.value.level);
  }

  /** The way back: whatever alters state has one by hand or by commands, and what needs none
      lists no commands. */
  lemma ReadyRollback(tree: Tree, c: Contract, items: seq<Option<Item>>, p: Proposal, i: nat)
    requires ProposalOk(tree, Some(c), Some(items), p) && i < |p.actions| && p.actions[i].Some?
    ensures p.rollback.Some?
    ensures
      var back, a := p.rollback.value, p.actions[i].value;
      && back.mode in {"not_required", "manual", "command_proposal"}
      && (AltersByName(a.operation) || a.destructive ==> back.mode != "not_required")
      && (back.mode == "not_required" ==> back.commands == 0) && (back.mode == "command_proposal" ==> back.commands > 0)
  {
    hide EvidenceOk, ApprovalsOk, Normals, TotalOf, Texts, PathsOk, ReviewOk, ActionsOk, ItemIds;
    OperationsByName(p.actions[i].value.operation);
    TotalIsUnion(p.actions, "", "");
    assert Alters(p.actions[i]) ==> AltersState(p.actions);
    hide AltersByName;
  }

  /** The listed paths are admitted, in normal form, and different. */
  lemma ReadyPathsAreNormal(tree: Tree, c: Contract, items: seq<Option<Item>>, p: Proposal)
    requires ProposalOk(tree, Some(c), Some(items), p)
    ensures p.paths != [] && forall i :: 0 <= i < |p.paths| ==> AdmittedPath(c, p.paths[i])
    ensures forall i, j :: 0 <= i < j < |p.paths| && p.paths[i].Some? && p.paths[j].Some? ==>
      Normalize(p.paths[i].value) != Normalize(p.paths[j].value)
  {
    hide EvidenceOk, ApprovalsOk, Normals, TotalOf, Texts, PathsOk, RollbackOk, ReviewOk, ActionsOk, ItemIds, AdmittedPath;
    PathsAreAdmitted(c, p.paths);
  }

  // ---------------------------------------------------------------- tokens and digests

  predicate Capital(c: char) { 'A' <= c <= 'Z' }
  predicate Digit(c: char) { '0' <= c <= '9' }
  predicate Small(c: char) { 'a' <= c <= 'z' }

  /** Each declared approval: a token of 3 to 128 capitals, digits and underscores that begins
      with a capital, the one the contract demands for this operation, and a reason. */
  lemma ReadyApprovals(tree: Tree, c: Contract, items: seq<Option<Item>>, p: Proposal, i: nat)
    requires ProposalOk(tree, Some(c), Some(items), p) && i < |p.approvals|
    ensures p.approvals[i].Some? && p.approvals[i].value.token.Some? && !Blank(p.approvals[i].value.reason)
    ensures
      var a, gates := p.approvals[i].value, Gates(c.approvals);
      var token := a.token.value;
      && a.operation in gates && gates[a.operation] == token && KnownByName(a.operation)
      && 3 <= |token| <= 128 && Capital(token[0])
      && forall k :: 0 <= k < |token| ==> Capital(token[k]) || Digit(token[k]) || token[k] == '_'
  {
    hide EvidenceOk, Normals, Texts, PathsOk, RollbackOk, ReviewOk, ActionsOk, ItemIds, Gates, Strip;
    var ops := TotalOf(p.actions).ops;
    assert ApprovalOk(Gates(c.approvals), ops, p.approvals[i]);
    TotalIsUnion(p.actions, p.approvals[i].value.operation, "");
    OperationsByName(p.approvals[i].value.operation);
    if Blank(p.approvals[i].value.reason) { BlankIsStripped(p.approvals[i].value.reason); }
    hide TotalOf, Uses, KnownByName, Blank;
  }

  /** A source names a file of the repository by a normal path and by its own SHA-256 digest. */
  predicate SourceInOrder(tree: Tree, s: Source) {
    && s.path.Some? && s.sha.Some? && Normalize(s.path.value).Some? && NormalForm(Normalize(s.path.value).value)
    && tree(Normalize(s.path.value).value) == s.sha
    && |s.sha.value| == 64 && (forall k :: 0 <= k < 64 ==> Digit(s.sha.value[k]) || 'a' <= s.sha.value[k] <= 'f')
    && s.id.Some? && PlainId(s.id.value)
  }

  predicate PlainId(id: string) {
    && 1 <= |id| <= 80 && (Small(id[0]) || Digit(id[0]))
    && forall k :: 0 <= k < |id| ==> Small(id[k]) || Digit(id[k]) || id[k] in {'.', '_', '-'}
  }

  lemma SourceIsInOrder(tree: Tree, source: Option<Source>)
    requires SourceOk(tree, source)
    ensures source.Some? && SourceInOrder(tree, source.value)
  {
    hide Normalize, NormalForm;
    AcceptedIsNormal(source.value.path.value);
  }

  lemma {:induction false} SourcesAreCollected(items: seq<Option<Item>>, i: nat, source: Option<Source>)
    requires i < |items| && items[i].Some? && source in items[i].value.sources
    ensures source in AllSources(items)
  {
    if i < |items| - 1 { SourcesAreCollected(items[..|items| - 1], i, source); }
  }

  /** Each item of the bundle is satisfied, and all its sources exist as they say. */
  lemma ReadyEvidence(tree: Tree, c: Contract, items: seq<Option<Item>>, p: Proposal, i: nat)
    requires ProposalOk(tree, Some(c), Some(items), p) && i < |items|
    ensures items[i].Some? && items[i].value.status == "satisfied" && items[i].value.sources != []
    ensures items[i].value.id.Some? && PlainId(items[i].value.id.value)
    ensures forall source | source in items[i].value.sources :: source.Some? && SourceInOrder(tree, source.value)
  {
    hide ApprovalsOk, Normals, Texts, PathsOk, RollbackOk, ReviewOk, ActionsOk, ItemIds, TotalOf, AllSources, SourceOk,
         SourceInOrder;
    assert ItemOk(Texts(c.requirements), items[i]);
    forall source | source in items[i].value.sources ensures source.Some? && SourceInOrder(tree, source.value) {
      SourcesAreCollected(items, i, source);
      SourceIsInOrder(tree, source);
    }
  }
}
