/** The supervised action proposal: operations, approvals, paths, review and rollback. Every
    validator appends to one shared list of blockers; a proposal is ready for review exactly
    when the list stays empty. */
module ProposalValidator {
  import opened Common
  import opened Text
  import opened ProposalFindings
  import opened ProposalPaths
  import opened ProposalEvidence

  datatype Approval = Approval(operation: string, token: Option<string>, reason: string)

  datatype ProposedAction = ProposedAction(
    id: Option<string>, operation: string, risk: string, irreversible: bool, destructive: bool,
    paths: seq<Option<string>>, evidenceIds: seq<string>, requiresApproval: bool)

  datatype ReviewRule = ReviewRule(required: bool, level: string)

  datatype ReviewPlan = ReviewPlan(required: bool, level: string, reviewers: nat)

  datatype Rollback = Rollback(mode: string, commands: nat)

  /** `admits` is the contract's verdict on one normalised path. */
  datatype Contract = Contract(
    requirements: seq<Option<string>>, approvals: seq<Option<Approval>>, review: Option<ReviewRule>,
    allowed: set<string>, blocked: set<string>, admits: string -> bool, networkPolicy: string, privatePolicy: string)

  datatype Proposal = Proposal(
    risk: string, paths: seq<Option<string>>, actions: seq<Option<ProposedAction>>,
    approvals: seq<Option<Approval>>, review: Option<ReviewPlan>, rollback: Option<Rollback>)

  const Changing: set<string> :=
    {"execute_command", "apply_patch", "git_stage", "git_commit", "git_push", "write_private_memory", "close_mission"}

  const Sensitive: set<string> := Changing + {"invoke_local_model"}

  const Operations: set<string> :=
    Sensitive + {"inspect_repository", "read_public_files", "run_deterministic_checks", "propose_command",
                 "record_external_result"}

  const ByApproval: string := "explicit_approval_required"

  function RiskRank(level: string): Option<nat> {
    match level
    case "low" => Some(0)
    case "medium" => Some(1)
    case "high" => Some(2)
    case "critical" => Some(3)
    case _ => None
  }

  function ReviewRank(level: string): Option<nat> {
    match level
    case "standard" => Some(0)
    case "strict" => Some(1)
    case "critical" => Some(2)
    case _ => None
  }

  predicate IsToken(s: string) {
    && 3 <= |s| <= 128 && 'A' <= s[0] <= 'Z'
    && forall i :: 0 <= i < |s| ==> 'A' <= s[i] <= 'Z' || '0' <= s[i] <= '9' || s[i] == '_'
  }

  // ---------------------------------------------------------------- paths

  function NormalOf(path: Option<string>): Option<string> {
    if path.None? then None
    else
      var n := Normalize(path.value);
      if n == Some(".") then None else n
  }

  /** The usable paths of a list. */
  function Normals(paths: seq<Option<string>>): set<string> {
    set p | p in paths && NormalOf(p).Some? :: NormalOf(p).value
  }

  predicate PathsOk(admits: string -> bool, paths: seq<Option<string>>) {
    && (forall i :: 0 <= i < |paths| ==> NormalOf(paths[i]).Some? && admits(NormalOf(paths[i]).value))
    && (forall i, j :: 0 <= i < j < |paths| ==> NormalOf(paths[i]) != NormalOf(paths[j]))
  }

  lemma PathsStep(admits: string -> bool, paths: seq<Option<string>>, next: Option<string>)
    ensures PathsOk(admits, paths + [next]) <==>
      && PathsOk(admits, paths)
      && NormalOf(next).Some? && admits(NormalOf(next).value) && NormalOf(next).value !in Normals(paths)
    ensures Normals(paths + [next]) == Normals(paths) + if NormalOf(next).Some? then {NormalOf(next).value} else {}
  {
    hide NormalOf;
    var all := paths + [next];
    assert all[|paths|] == next && forall i :: 0 <= i < |paths| ==> all[i] == paths[i];
    if NormalOf(next).Some? && NormalOf(next).value in Normals(paths) {
      var i :| 0 <= i < |paths| && NormalOf(paths[i]) == NormalOf(next);
      assert NormalOf(all[i]) == NormalOf(all[|paths|]);
    }
    if PathsOk(admits, paths) && NormalOf(next).Some? && NormalOf(next).value !in Normals(paths) {
      forall i | 0 <= i < |paths| ensures NormalOf(paths[i]) != NormalOf(next) {
        assert paths[i] in paths;
      }
    }
  }

  /** The loop over affected paths, of one action or of the whole proposal. */
  method CheckPaths(admits: string -> bool, paths: seq<Option<string>>, findings: Findings) returns (seen: set<string>)
    modifies findings
    ensures old(findings.blockers) <= findings.blockers
    ensures |findings.blockers| == |old(findings.blockers)| <==> paths != [] && PathsOk(admits, paths)
    ensures seen == Normals(paths)
  {
    hide NormalOf, PathsOk, Normals;
    ghost var n := |findings.blockers|;
    seen := {};
    if paths == [] { findings.Add("paths_invalid"); }
    NoPaths(admits);
    assert paths[..0] == [];
    for k := 0 to |paths|
      invariant old(findings.blockers) <= findings.blockers
      invariant |findings.blockers| == n <==> paths != [] && PathsOk(admits, paths[..k])
      invariant seen == Normals(paths[..k])
    {
      assert paths[..k + 1] == paths[..k] + [paths[k]];
      PathsStep(admits, paths[..k], paths[k]);
      var normal := NormalOf(paths[k]);
      if normal.None? {
        findings.Add("path_invalid");
        continue;
      }
      if normal.value in seen { findings.Add("path_duplicate"); }
      seen := seen + {normal.value};
      if !admits(normal.value) { findings.Add("path_outside_contract"); }
    }
    assert paths[..|paths|] == paths;
  }

  lemma NoPaths(admits: string -> bool)
    ensures PathsOk(admits, []) && Normals([]) == {}
  {
  }

  // ---------------------------------------------------------------- approvals

  /** approval_map: the contract's gates; a later entry for an operation replaces an earlier. */
  function Gates(items: seq<Option<Approval>>): map<string, string> {
    if items == [] then map[]
    else
      var front, last := Gates(items[..|items| - 1]), items[|items| - 1];
      if last.Some? && last.value.operation in Operations && last.value.token.Some? && IsToken(last.value.token.value)
      then front[last.value.operation := last.value.token.value]
      else front
  }

  method ApprovalMap(items: seq<Option<Approval>>) returns (gates: map<string, string>)
    ensures gates == Gates(items)
  {
    gates := map[];
    for k := 0 to |items|
      invariant gates == Gates(items[..k])
    {
      assert items[..k + 1][..k] == items[..k];
      if items[k].None? { continue; }
      var item := items[k].value;
      if item.operation in Operations && item.token.Some? && IsToken(item.token.value) {
        gates := gates[item.operation := item.token.value];
      }
    }
    assert items[..|items|] == items;
  }

  predicate ApprovalOk(gates: map<string, string>, ops: set<string>, item: Option<Approval>) {
    && item.Some? && item.value.operation in ops && item.value.token.Some? && IsToken(item.value.token.value)
    && Strip(item.value.reason) != ""
    && item.value.operation in gates && gates[item.value.operation] == item.value.token.value
  }

  function Declared(items: seq<Option<Approval>>): set<string> {
    set item | item in items && item.Some? :: item.value.operation
  }

  predicate DeclarationsOk(gates: map<string, string>, ops: set<string>, items: seq<Option<Approval>>) {
    && (forall i :: 0 <= i < |items| ==> ApprovalOk(gates, ops, items[i]))
    && (forall i, j :: 0 <= i < j < |items| && items[i].Some? && items[j].Some? ==>
          items[i].value.operation != items[j].value.operation)
  }

  predicate ApprovalsOk(gates: map<string, string>, ops: set<string>, items: seq<Option<Approval>>) {
    && DeclarationsOk(gates, ops, items)
    && (forall o | o in ops * Sensitive :: o in gates)
    && (forall o | o in ops * (Sensitive + gates.Keys) :: o in Declared(items))
  }

  lemma DeclarationsStep(gates: map<string, string>, ops: set<string>, items: seq<Option<Approval>>, next: Option<Approval>)
    ensures DeclarationsOk(gates, ops, items + [next]) <==>
      && DeclarationsOk(gates, ops, items) && ApprovalOk(gates, ops, next) && next.value.operation !in Declared(items)
    ensures Declared(items + [next]) == Declared(items) + if next.Some? then {next.value.operation} else {}
  {
    hide IsToken, Strip;
    var all := items + [next];
    assert all[|items|] == next && forall i :: 0 <= i < |items| ==> all[i] == items[i];
    if next.Some? && next.value.operation in Declared(items) {
      var i :| 0 <= i < |items| && items[i].Some? && items[i].value.operation == next.value.operation;
      assert all[i].value.operation == all[|items|].value.operation;
    }
    if DeclarationsOk(gates, ops, items) && next.Some? && next.value.operation !in Declared(items) {
      forall i | 0 <= i < |items| && items[i].Some? ensures items[i].value.operation != next.value.operation {
        assert items[i] in items;
      }
    }
  }

  /** One declared approval. */
  method CheckApproval(
    gates: map<string, string>, ops: set<string>, item: Option<Approval>, declared: set<string>, findings: Findings)
    returns (declared': set<string>)
    modifies findings
    ensures old(findings.blockers) <= findings.blockers
    ensures |findings.blockers| == |old(findings.blockers)| <==>
      ApprovalOk(gates, ops, item) && item.value.operation !in declared
    ensures |findings.blockers| == |old(findings.blockers)| ==> declared' == declared + {item.value.operation}
  {
    hide IsToken, Strip;
    declared' := declared;
    if item.None? {
      findings.Add("proposal_approval_invalid");
      return;
    }
    var a := item.value;
    if a.operation !in ops {
      findings.Add("approval_operation_not_proposed");
      return;
    }
    if a.operation in declared {
      findings.Add("proposal_approval_duplicate");
      return;
    }
    declared' := declared + {a.operation};
    if a.token.None? || !IsToken(a.token.value) { findings.Add("proposal_approval_token_invalid"); }
    if Strip(a.reason) == "" { findings.Add("proposal_approval_reason_missing"); }
    if a.operation !in gates {
      findings.Add("approval_not_declared_by_contract");
    } else if a.token != Some(gates[a.operation]) {
      findings.Add("approval_token_mismatch");
    }
  }

  /** A loop that reports every member of one set that is missing from another. */
  method ReportMissing(wanted: set<string>, present: set<string>, code: string, findings: Findings)
    modifies findings
    ensures old(findings.blockers) <= findings.blockers
    ensures |findings.blockers| == |old(findings.blockers)| <==> wanted <= present
  {
    ghost var n := |findings.blockers|;
    var rest := wanted;
    while rest != {}
      invariant rest <= wanted && old(findings.blockers) <= findings.blockers
      invariant |findings.blockers| == n <==> wanted - rest <= present
      decreases |rest|
    {
      var o :| o in rest;
      assert wanted - (rest - {o}) == (wanted - rest) + {o};
      if o !in present { findings.Add(code); }
      rest := rest - {o};
    }
  }

  method ValidateApprovals(contract: Contract, ops: set<string>, items: seq<Option<Approval>>, findings: Findings)
    modifies findings
    ensures old(findings.blockers) <= findings.blockers
    ensures |findings.blockers| == |old(findings.blockers)| <==> ApprovalsOk(Gates(contract.approvals), ops, items)
  {
    hide DeclarationsOk, Declared, ApprovalOk;
    ghost var n := |findings.blockers|;
    var gates := ApprovalMap(contract.approvals);
    var declared: set<string> := {};
    NoDeclarations(gates, ops);
    assert items[..0] == [];
    for k := 0 to |items|
      invariant old(findings.blockers) <= findings.blockers
      invariant |findings.blockers| == n <==> DeclarationsOk(gates, ops, items[..k])
      invariant |findings.blockers| == n ==> declared == Declared(items[..k])
    {
      assert items[..k + 1] == items[..k] + [items[k]];
      DeclarationsStep(gates, ops, items[..k], items[k]);
      if DeclarationsOk(gates, ops, items[..k + 1]) { OkIsPresent(gates, ops, items[k]); }
      declared := CheckApproval(gates, ops, items[k], declared, findings);
    }
    assert items[..|items|] == items;
    ReportMissing(ops * Sensitive, gates.Keys, "sensitive_operation_not_approved_by_contract", findings);
    ReportMissing(ops * (Sensitive + gates.Keys), declared, "operation_without_declared_approval", findings);
  }

  lemma NoDeclarations(gates: map<string, string>, ops: set<string>)
    ensures DeclarationsOk(gates, ops, []) && Declared([]) == {}
  {
  }

  lemma OkIsPresent(gates: map<string, string>, ops: set<string>, item: Option<Approval>)
    requires ApprovalOk(gates, ops, item)
    ensures item.Some?
  {
  }

  function Restricted(gates: map<string, string>, ops: set<string>): map<string, string> {
    map o | o in gates && o in ops :: gates[o]
  }

  /** The declared approvals as a map, for declarations that are in order. */
  ghost predicate DeclareExactly(items: seq<Option<Approval>>, tokens: map<string, string>) {
    && (forall i :: 0 <= i < |items| ==>
          items[i].Some? && items[i].value.operation in tokens && items[i].value.token == Some(tokens[items[i].value.operation]))
    && Declared(items) == tokens.Keys
  }

  /** Accepted declarations are exactly the gates of the contract on the proposed operations,
      token by token, and every sensitive operation among them has a gate. */
  lemma DeclarationsAreTheGates(gates: map<string, string>, ops: set<string>, items: seq<Option<Approval>>)
    requires ApprovalsOk(gates, ops, items)
    ensures DeclareExactly(items, Restricted(gates, ops))
    ensures ops * Sensitive <= Declared(items)
    ensures |items| == |Restricted(gates, ops)|
  {
    hide IsToken, Strip;
    forall i | 0 <= i < |items| ensures items[i].Some? && items[i].value.operation in Restricted(gates, ops) {
      assert ApprovalOk(gates, ops, items[i]);
    }
    forall o ensures o in Declared(items) <==> o in Restricted(gates, ops) {
      if o in Declared(items) {
        var i :| 0 <= i < |items| && items[i].Some? && items[i].value.operation == o;
        assert ApprovalOk(gates, ops, items[i]);
      }
    }
    DeclaredSize(gates, ops, items);
    assert |Restricted(gates, ops)| == |Restricted(gates, ops).Keys|;
  }

  lemma {:induction false} DeclaredSize(gates: map<string, string>, ops: set<string>, items: seq<Option<Approval>>)
    requires DeclarationsOk(gates, ops, items)
    ensures |Declared(items)| == |items|
  {
    hide ApprovalOk;
    if items != [] {
      var front, last := items[..|items| - 1], items[|items| - 1];
      assert items == front + [last];
      hide DeclarationsOk;
      DeclarationsStep(gates, ops, front, last);
      OkIsPresent(gates, ops, last);
      DeclaredSize(gates, ops, front);
    }
  }

  // ---------------------------------------------------------------- proposed actions

  predicate OperationOk(c: Contract, operation: string) {
    && operation in Operations && operation in c.allowed && operation !in c.blocked
    && (operation == "git_push" ==> c.networkPolicy == ByApproval)
    && (operation == "write_private_memory" ==> c.privatePolicy == ByApproval)
  }

  /** Action risk against proposal risk; an unknown proposal risk counts as low. */
  predicate RiskOk(risk: string, limit: string) {
    RiskRank(risk).Some? && RiskRank(risk).value <= if RiskRank(limit).Some? then RiskRank(limit).value else 0
  }

  predicate KnowsAll(known: set<string>, ids: seq<string>) {
    ids != [] && forall i :: 0 <= i < |ids| ==> ids[i] in known
  }

  predicate HeadOk(c: Contract, limit: string, a: ProposedAction) {
    a.id.Some? && SafeId(a.id.value) && OperationOk(c, a.operation) && RiskOk(a.risk, limit) && !a.irreversible
  }

  predicate ActionOk(c: Contract, known: set<string>, limit: string, action: Option<ProposedAction>) {
    && action.Some?
    && var a := action.value;
       && HeadOk(c, limit, a)
       && a.paths != [] && PathsOk(c.admits, a.paths) && KnowsAll(known, a.evidenceIds)
       && (a.operation in Sensitive || a.operation in Gates(c.approvals) ==> a.requiresApproval)
  }

  /** What a list of actions adds up to, as validate_actions returns it. */
  datatype Total = Total(ids: set<string>, ops: set<string>, paths: set<string>, changes: bool)

  function With(total: Total, a: ProposedAction): Total {
    Total(
      total.ids + (if a.id.Some? && SafeId(a.id.value) then {a.id.value} else {}),
      total.ops + (if a.operation in Operations then {a.operation} else {}),
      total.paths + Normals(a.paths),
      total.changes || a.operation in Changing || a.destructive)
  }

  function TotalOf(actions: seq<Option<ProposedAction>>): Total {
    if actions == [] then Total({}, {}, {}, false)
    else
      var front, last := TotalOf(actions[..|actions| - 1]), actions[|actions| - 1];
      if last.None? then front else With(front, last.value)
  }

  predicate ListOk(c: Contract, known: set<string>, limit: string, actions: seq<Option<ProposedAction>>) {
    if actions == [] then true
    else
      var front, last := actions[..|actions| - 1], actions[|actions| - 1];
      && ListOk(c, known, limit, front) && ActionOk(c, known, limit, last)
      && last.value.id.Some? && last.value.id.value !in TotalOf(front).ids
  }

  predicate ActionsOk(c: Contract, known: set<string>, limit: string, actions: seq<Option<ProposedAction>>) {
    FrameOk(c, limit, actions) && ListOk(c, known, limit, actions)
  }

  predicate FrameOk(c: Contract, limit: string, actions: seq<Option<ProposedAction>>) {
    c.allowed !! c.blocked && Operations <= c.allowed + c.blocked && RiskRank(limit).Some? && actions != []
  }

  method CheckFrame(c: Contract, limit: string, actions: seq<Option<ProposedAction>>, findings: Findings)
    modifies findings
    ensures old(findings.blockers) <= findings.blockers
    ensures |findings.blockers| == |old(findings.blockers)| <==> FrameOk(c, limit, actions)
  {
    if !(c.allowed !! c.blocked) { findings.Add("contract_operation_overlap"); }
    if !(Operations <= c.allowed + c.blocked) { findings.Add("contract_operation_coverage_incomplete"); }
    if RiskRank(limit).None? { findings.Add("proposal_risk_invalid"); }
    if actions == [] { findings.Add("proposed_actions_invalid"); }
  }

  method CheckOperation(c: Contract, operation: string, findings: Findings)
    modifies findings
    ensures old(findings.blockers) <= findings.blockers
    ensures |findings.blockers| == |old(findings.blockers)| <==> OperationOk(c, operation)
  {
    if operation !in Operations {
      findings.Add("action_operation_invalid");
      return;
    }
    if operation !in c.allowed { findings.Add("action_operation_not_allowed"); }
    if operation in c.blocked { findings.Add("action_operation_blocked"); }
    if operation == "git_push" && c.networkPolicy != ByApproval { findings.Add("git_push_network_policy_invalid"); }
    if operation == "write_private_memory" && c.privatePolicy != ByApproval { findings.Add("private_memory_policy_invalid"); }
  }

  method CheckEvidenceIds(known: set<string>, ids: seq<string>, findings: Findings)
    modifies findings
    ensures old(findings.blockers) <= findings.blockers
    ensures |findings.blockers| == |old(findings.blockers)| <==> KnowsAll(known, ids)
  {
    ghost var n := |findings.blockers|;
    if ids == [] { findings.Add("action_evidence_ids_invalid"); }
    for k := 0 to |ids|
      invariant old(findings.blockers) <= findings.blockers
      invariant |findings.blockers| == n <==> ids != [] && forall i :: 0 <= i < k ==> ids[i] in known
    {
      if ids[k] !in known { findings.Add("action_evidence_unknown"); }
    }
  }

  method CheckHead(c: Contract, limit: string, action: ProposedAction, ids: set<string>, findings: Findings)
    modifies findings
    ensures old(findings.blockers) <= findings.blockers
    ensures |findings.blockers| == |old(findings.blockers)| <==> HeadOk(c, limit, action) && action.id.value !in ids
    ensures HeadOk(c, limit, action) ==> action.id.Some?
  {
    hide SafeId, OperationOk, RiskOk;
    if action.id.None? || !SafeId(action.id.value) {
      findings.Add("safe_id_invalid");
    } else if action.id.value in ids {
      findings.Add("action_id_duplicate");
    }
    CheckOperation(c, action.operation, findings);
    if !RiskOk(action.risk, limit) { findings.Add("action_risk_exceeds_proposal"); }
    if action.irreversible { findings.Add("irreversible_action_blocked"); }
  }

  method CheckAction(
    c: Contract, gates: map<string, string>, known: set<string>, limit: string, action: ProposedAction, ids: set<string>,
    findings: Findings) returns (paths: set<string>)
    requires gates == Gates(c.approvals)
    modifies findings
    ensures old(findings.blockers) <= findings.blockers
    ensures |findings.blockers| == |old(findings.blockers)| <==>
      ActionOk(c, known, limit, Some(action)) && action.id.Some? && action.id.value !in ids
    ensures paths == Normals(action.paths)
  {
    hide HeadOk, KnowsAll, PathsOk, Normals, Gates;
    ghost var n := |findings.blockers|;
    CheckHead(c, limit, action, ids, findings);
    paths := CheckPaths(c.admits, action.paths, findings);
    CheckEvidenceIds(known, action.evidenceIds, findings);
    if (action.operation in Sensitive || action.operation in gates) && !action.requiresApproval {
      findings.Add("action_approval_flag_missing");
    }
  }

  method ValidateActions(
    c: Contract, known: set<string>, limit: string, actions: seq<Option<ProposedAction>>, findings: Findings)
    returns (total: Total)
    modifies findings
    ensures old(findings.blockers) <= findings.blockers
    ensures |findings.blockers| == |old(findings.blockers)| <==> ActionsOk(c, known, limit, actions)
    ensures total == TotalOf(actions)
  {
    hide ActionOk, Normals, Gates, SafeId, FrameOk;
    ghost var n := |findings.blockers|;
    CheckFrame(c, limit, actions, findings);
    var gates := ApprovalMap(c.approvals);
    total := Total({}, {}, {}, false);
    ghost var clean := |findings.blockers| == n;
    for k := 0 to |actions|
      invariant old(findings.blockers) <= findings.blockers
      invariant |findings.blockers| == n <==> clean && ListOk(c, known, limit, actions[..k])
      invariant total == TotalOf(actions[..k])
    {
      assert actions[..k + 1][..k] == actions[..k];
      if actions[k].None? {
        NothingIsNoAction(c, known, limit);
        findings.Add("proposed_action_invalid");
        continue;
      }
      var action := actions[k].value;
      var paths := CheckAction(c, gates, known, limit, action, total.ids, findings);
      total := Total(
        total.ids + (if action.id.Some? && SafeId(action.id.value) then {action.id.value} else {}),
        total.ops + (if action.operation in Operations then {action.operation} else {}),
        total.paths + paths, total.changes || action.operation in Changing || action.destructive);
    }
    assert actions[..|actions|] == actions;
  }

  lemma NothingIsNoAction(c: Contract, known: set<string>, limit: string)
    ensures !ActionOk(c, known, limit, None)
  {
  }

  // ---------------------------------------------------------------- review and rollback

  /** What validate_review checks. The comparison with the risk sits in the branch for a
      contract that has a review rule. */
  predicate ReviewOk(c: Contract, risk: string, review: Option<ReviewPlan>) {
    && review.Some? && review.value.required && review.value.reviewers > 0
    && var rank := ReviewRank(review.value.level);
       && rank.Some?
       && (c.review.Some? ==>
             && (ReviewRank(c.review.value.level).Some? ==> ReviewRank(c.review.value.level).value <= rank.value)
             && (risk == "high" ==> rank.value >= 1)
             && (risk == "critical" ==> rank.value == 2))
  }

  method ValidateReview(c: Contract, risk: string, review: Option<ReviewPlan>, findings: Findings)
    modifies findings
    ensures old(findings.blockers) <= findings.blockers
    ensures |findings.blockers| == |old(findings.blockers)| <==> ReviewOk(c, risk, review)
  {
    if review.None? {
      findings.Add("proposal_review_invalid");
      return;
    }
    if !review.value.required { findings.Add("proposal_review_not_required"); }
    var rank := ReviewRank(review.value.level);
    if rank.None? {
      findings.Add("proposal_review_level_invalid");
    } else if c.review.Some? {
      var floor := ReviewRank(c.review.value.level);
      if floor.Some? && rank.value < floor.value { findings.Add("proposal_review_below_contract"); }
      if risk == "high" && rank.value < 1 { findings.Add("high_risk_review_too_low"); }
      if risk == "critical" && review.value.level != "critical" { findings.Add("critical_risk_review_too_low"); }
    }
    if review.value.reviewers == 0 { findings.Add("proposal_reviewers_invalid"); }
  }

  predicate RollbackOk(rollback: Option<Rollback>, changes: bool) {
    && rollback.Some?
    && rollback.value.mode in {"not_required", "manual", "command_proposal"}
    && (changes ==> rollback.value.mode != "not_required")
    && (rollback.value.mode == "not_required" ==> rollback.value.commands == 0)
    && (rollback.value.mode == "command_proposal" ==> rollback.value.commands > 0)
  }

  method ValidateRollback(rollback: Option<Rollback>, changes: bool, findings: Findings)
    modifies findings
    ensures old(findings.blockers) <= findings.blockers
    ensures |findings.blockers| == |old(findings.blockers)| <==> RollbackOk(rollback, changes)
  {
    if rollback.None? {
      findings.Add("rollback_plan_invalid");
      return;
    }
    var mode, commands := rollback.value.mode, rollback.value.commands;
    if mode !in {"not_required", "manual", "command_proposal", "irreversible"} {
      findings.Add("rollback_mode_invalid");
      return;
    }
    if changes && mode == "not_required" { findings.Add("rollback_required_for_state_change"); }
    if mode == "irreversible" { findings.Add("irreversible_rollback_mode_blocked"); }
    if mode == "not_required" && commands > 0 { findings.Add("rollback_commands_unexpected"); }
    if mode == "command_proposal" && commands == 0 { findings.Add("rollback_commands_required"); }
  }

  // ---------------------------------------------------------------- the whole proposal

  /** The textual requirements; entries of another type are passed over. */
  function Texts(entries: seq<Option<string>>): seq<string> {
    if entries == [] then []
    else
      var front, last := Texts(entries[..|entries| - 1]), entries[|entries| - 1];
      if last.Some? then front + [last.value] else front
  }

  predicate ContractReviewed(c: Contract) {
    c.review.Some? && c.review.value.required
  }

  predicate BodyOk(tree: Tree, c: Contract, items: seq<Option<Item>>, p: Proposal) {
    && ContractReviewed(c)
    && EvidenceOk(tree, Texts(c.requirements), items)
    && p.paths != [] && PathsOk(c.admits, p.paths)
    && ReviewOk(c, p.risk, p.review)
    && ActionsOk(c, ItemIds(items), p.risk, p.actions)
    && Normals(p.paths) == TotalOf(p.actions).paths
    && ApprovalsOk(Gates(c.approvals), TotalOf(p.actions).ops, p.approvals)
  }

  predicate ProposalOk(tree: Tree, contract: Option<Contract>, bundle: Option<seq<Option<Item>>>, p: Proposal) {
    && contract.Some? && bundle.Some?
    && BodyOk(tree, contract.value, bundle.value, p)
    && RollbackOk(p.rollback, TotalOf(p.actions).changes)
  }

  method CollectTexts(entries: seq<Option<string>>) returns (texts: seq<string>)
    ensures texts == Texts(entries)
  {
    texts := [];
    for k := 0 to |entries|
      invariant texts == Texts(entries[..k])
    {
      assert entries[..k + 1][..k] == entries[..k];
      if entries[k].Some? { texts := texts + [entries[k].value]; }
    }
    assert entries[..|entries|] == entries;
  }

  method ValidateBody(tree: Tree, c: Contract, items: seq<Option<Item>>, p: Proposal, findings: Findings)
    returns (changes: bool)
    modifies findings
    ensures old(findings.blockers) <= findings.blockers
    ensures |findings.blockers| == |old(findings.blockers)| <==> BodyOk(tree, c, items, p)
    ensures changes == TotalOf(p.actions).changes
  {
    hide EvidenceOk, PathsOk, ReviewOk, ActionsOk, ApprovalsOk, TotalOf, Normals, ItemIds, Gates, Texts;
    if !ContractReviewed(c) { findings.Add("contract_review_not_required"); }
    var requirements := CollectTexts(c.requirements);
    var byId := ValidateEvidence(tree, requirements, items, findings);
    var paths := CheckPaths(c.admits, p.paths, findings);
    ValidateReview(c, p.risk, p.review, findings);
    var total := ValidateActions(c, byId.Keys, p.risk, p.actions, findings);
    if paths != total.paths { findings.Add("affected_path_union_mismatch"); }
    ValidateApprovals(c, total.ops, p.approvals, findings);
    changes := total.changes;
  }

  /** validate_proposal: no blockers exactly for proposals that are in order. */
  method ValidateProposal(tree: Tree, contract: Option<Contract>, bundle: Option<seq<Option<Item>>>, p: Proposal)
    returns (blockers: seq<string>)
    ensures blockers == [] <==> ProposalOk(tree, contract, bundle, p)
  {
    hide BodyOk, RollbackOk, TotalOf;
    var findings := new Findings();
    var changes := false;
    if contract.None? { findings.Add("reference_invalid"); }
    if bundle.None? { findings.Add("reference_invalid"); }
    if contract.Some? && bundle.Some? {
      changes := ValidateBody(tree, contract.value, bundle.value, p, findings);
    }
    ValidateRollback(p.rollback, changes, findings);
    blockers := findings.blockers;
  }

  // ---------------------------------------------------------------- what readiness means

  predicate Uses(actions: seq<Option<ProposedAction>>, operation: string) {
    exists i :: 0 <= i < |actions| && actions[i].Some? && actions[i].value.operation == operation
  }

  predicate Touches(actions: seq<Option<ProposedAction>>, path: string) {
    exists i :: 0 <= i < |actions| && actions[i].Some? && path in Normals(actions[i].value.paths)
  }

  predicate Alters(action: Option<ProposedAction>) {
    action.Some? && (action.value.operation in Changing || action.value.destructive)
  }

  predicate AltersState(actions: seq<Option<ProposedAction>>) {
    exists i :: 0 <= i < |actions| && Alters(actions[i])
  }

  lemma {:induction false} TotalIsUnion(actions: seq<Option<ProposedAction>>, operation: string, path: string)
    ensures operation in TotalOf(actions).ops <==> operation in Operations && Uses(actions, operation)
    ensures path in TotalOf(actions).paths <==> Touches(actions, path)
    ensures TotalOf(actions).changes <==> AltersState(actions)
  {
    hide Normals, SafeId;
    if actions != [] {
      var n := |actions| - 1;
      var front := actions[..n];
      TotalIsUnion(front, operation, path);
      assert forall i :: 0 <= i < n ==> front[i] == actions[i];
      if Uses(front, operation) {
        var i :| 0 <= i < n && front[i].Some? && front[i].value.operation == operation;
        assert actions[i].value.operation == operation;
      }
      if Touches(front, path) {
        var i :| 0 <= i < n && front[i].Some? && path in Normals(front[i].value.paths);
        assert path in Normals(actions[i].value.paths);
      }
      if AltersState(front) {
        var i :| 0 <= i < n && Alters(front[i]);
        assert Alters(actions[i]);
      }
    }
  }

  lemma {:induction false} ListMeansEach(
    c: Contract, known: set<string>, limit: string, actions: seq<Option<ProposedAction>>, i: nat)
    requires ListOk(c, known, limit, actions) && i < |actions|
    ensures ActionOk(c, known, limit, actions[i])
  {
    hide ActionOk;
    if i < |actions| - 1 { ListMeansEach(c, known, limit, actions[..|actions| - 1], i); }
  }

  predicate ReviewFitsRisk(risk: string, level: string) {
    && ReviewRank(level).Some?
    && (risk == "high" ==> ReviewRank(level).value >= ReviewRank("strict").value)
    && (risk == "critical" ==> level == "critical")
  }

  lemma ReadyPaths(tree: Tree, contract: Option<Contract>, bundle: Option<seq<Option<Item>>>, p: Proposal)
    requires ProposalOk(tree, contract, bundle, p)
    ensures forall path :: path in Normals(p.paths) <==> Touches(p.actions, path)
    ensures AltersState(p.actions) ==> p.rollback.Some? && p.rollback.value.mode in {"manual", "command_proposal"}
  {
    hide EvidenceOk, ApprovalsOk, ActionsOk, Touches, Normals, TotalOf, Texts, AltersState, ReviewOk, PathsOk;
    forall path ensures path in Normals(p.paths) <==> Touches(p.actions, path) {
      TotalIsUnion(p.actions, "", path);
    }
    TotalIsUnion(p.actions, "", "");
  }

  lemma ReadyRisk(tree: Tree, contract: Option<Contract>, bundle: Option<seq<Option<Item>>>, p: Proposal)
    requires ProposalOk(tree, contract, bundle, p)
    ensures p.review.Some? && ReviewFitsRisk(p.risk, p.review.value.level)
    ensures forall i :: 0 <= i < |p.actions| ==>
      p.actions[i].Some? && RiskOk(p.actions[i].value.risk, p.risk) && !p.actions[i].value.irreversible
  {
    hide EvidenceOk, ApprovalsOk, Normals, TotalOf, Texts, RiskOk, PathsOk, RollbackOk, SafeId, OperationOk, KnowsAll, ListOk;
    forall i | 0 <= i < |p.actions|
      ensures p.actions[i].Some? && RiskOk(p.actions[i].value.risk, p.risk) && !p.actions[i].value.irreversible
    {
      ListMeansEach(contract.value, ItemIds(bundle.value), p.risk, p.actions, i);
    }
  }

  /** A ready proposal: evidence items and requirements correspond one to one; the listed
      paths are the paths its actions touch; no action is riskier than the proposal says or
      irreversible, and the review level fits that risk; whatever alters state comes with a
      way back. */
  lemma ReadyMeans(tree: Tree, contract: Option<Contract>, bundle: Option<seq<Option<Item>>>, p: Proposal)
    requires ProposalOk(tree, contract, bundle, p)
    ensures |bundle.value| == |Texts(contract.value.requirements)|
    ensures forall r :: 0 <= r < |Texts(contract.value.requirements)| ==>
      HasItem(Texts(contract.value.requirements), bundle.value, r)
    ensures forall path :: path in Normals(p.paths) <==> Touches(p.actions, path)
    ensures AltersState(p.actions) ==> p.rollback.Some? && p.rollback.value.mode in {"manual", "command_proposal"}
    ensures p.review.Some? && ReviewFitsRisk(p.risk, p.review.value.level)
    ensures forall i :: 0 <= i < |p.actions| ==>
      p.actions[i].Some? && RiskOk(p.actions[i].value.risk, p.risk) && !p.actions[i].value.irreversible
  {
    ReadyPaths(tree, contract, bundle, p);
    ReadyRisk(tree, contract, bundle, p);
    hide EvidenceOk, ApprovalsOk, ActionsOk, Touches, Normals, TotalOf, Texts, RiskOk, AltersState, ReviewOk,
         PathsOk, RollbackOk,
         HasItem, ReviewFitsRisk;
    EvidenceIsABijection(tree, Texts(contract.value.requirements), bundle.value);
  }

  /** The approvals of a ready proposal, operation by operation. */
  lemma ReadyMeansGated(tree: Tree, contract: Option<Contract>, bundle: Option<seq<Option<Item>>>, p: Proposal, operation: string)
    requires ProposalOk(tree, contract, bundle, p)
    ensures
      var gates := Gates(contract.value.approvals);
      && DeclareExactly(p.approvals, Restricted(gates, TotalOf(p.actions).ops))
      && (operation in Declared(p.approvals) <==> operation in gates && operation in Operations && Uses(p.actions, operation))
      && (Uses(p.actions, operation) && operation in Sensitive ==> operation in Declared(p.approvals))
  {
    var gates, ops := Gates(contract.value.approvals), TotalOf(p.actions).ops;
    hide EvidenceOk, PathsOk, ReviewOk, ActionsOk, RollbackOk, Uses, TotalOf, Gates, ApprovalsOk;
    DeclarationsAreTheGates(gates, ops, p.approvals);
    TotalIsUnion(p.actions, operation, "");
  }

  /** validate_review alone does not tie the level to the risk: without a review rule in the
      contract a critical proposal passes it with a standard review. Only together with the
      evidence check, which insists on the rule, does it. */
  lemma ReviewAloneMissesRisk(c: Contract)
    requires c.review.None?
    ensures ReviewOk(c, "critical", Some(ReviewPlan(true, "standard", 1))) && !ReviewFitsRisk("critical", "standard")
  {
  }

  /** The rule is what it takes: validate_review accepts only fitting levels, for every plan
      and risk, if and only if the contract has a review rule. */
  lemma ReviewFitsRiskIffRule(c: Contract)
    ensures (forall risk, plan: ReviewPlan :: ReviewOk(c, risk, Some(plan)) ==> ReviewFitsRisk(risk, plan.level))
       <==> c.review.Some?
  {
    if c.review.None? {
      ReviewAloneMissesRisk(c);
      var plan := ReviewPlan(true, "standard", 1);
      assert ReviewOk(c, "critical", Some(plan)) && !ReviewFitsRisk("critical", plan.level);
    }
  }

  // ---------------------------------------------------------------- a ready proposal

  lemma PlainLetter()
    ensures Normalize("a") == Some("a")
  {
    assert Strip("a") == "a";
    assert Slashes("a") == "a";
    assert DropDots("a") == "a";
    assert Split("") == [""];
    SplitStep("a", "");
    assert |Split("a")| == 1 && Split("a")[0] == "a";
    hide Strip, Slashes, DropDots, Split;
    PlainBySplit("a");
  }

  /** The conditions can be met: a one-line inspection with one piece of evidence. */
  lemma ReadyProposalExists(tree: Tree, sha: string) returns (c: Contract, items: seq<Option<Item>>, p: Proposal)
    requires IsSha256(sha) && tree("a") == Some(sha)
    ensures ProposalOk(tree, Some(c), Some(items), p)
  {
    c := Contract([Some("r")], [], Some(ReviewRule(true, "standard")), Operations, {}, path => true, "", "");
    items := [Some(Item(Some("e"), Some(0), Some("r"), "satisfied", [Some(Source(Some("s"), Some("a"), Some(sha)))]))];
    var action := ProposedAction(Some("x"), "inspect_repository", "low", false, false, [Some("a")], ["e"], false);
    var review, rollback := Some(ReviewPlan(true, "standard", 1)), Some(Rollback("not_required", 0));
    p := Proposal("low", [Some("a")], [Some(action)], [], review, rollback);
    PlainLetter();
    SampleEvidence(tree, sha, items);
    SampleActions(c, ItemIds(items), action);
    SampleApprovals();
    SamplePaths(c.admits);
    SampleReview(c);
    hide Normalize, PathsOk, Texts, IsSha256, EvidenceOk, ActionsOk, TotalOf, ItemIds, Normals, ApprovalsOk, Gates,
         ReviewOk, RollbackOk;
  }

  lemma SampleReview(c: Contract)
    requires c.requirements == [Some("r")] && c.review == Some(ReviewRule(true, "standard"))
    ensures Texts(c.requirements) == ["r"]
    ensures ReviewOk(c, "low", Some(ReviewPlan(true, "standard", 1))) && RollbackOk(Some(Rollback("not_required", 0)), false)
  {
    assert c.requirements[..0] == [];
  }

  lemma SamplePaths(admits: string -> bool)
    requires Normalize("a") == Some("a") && admits("a")
    ensures PathsOk(admits, [Some("a")])
  {
    hide Normalize;
  }

  lemma SampleApprovals()
    ensures ApprovalsOk(Gates([]), {"inspect_repository"}, [])
  {
    assert "inspect_repository" !in Sensitive;
  }

  lemma SampleEvidence(tree: Tree, sha: string, items: seq<Option<Item>>)
    requires IsSha256(sha) && tree("a") == Some(sha) && Normalize("a") == Some("a")
    requires items == [Some(Item(Some("e"), Some(0), Some("r"), "satisfied", [Some(Source(Some("s"), Some("a"), Some(sha)))]))]
    ensures EvidenceOk(tree, ["r"], items) && "e" in ItemIds(items)
  {
    hide Normalize, IsSha256;
    var sources := [Some(Source(Some("s"), Some("a"), Some(sha)))];
    assert items[..0] == [];
    assert AllSources(items) == [] + sources == sources;
    assert SourceOk(tree, sources[0]);
    assert items[0] in items;
    assert forall r :: 0 <= r < 1 ==> Covers(items, r);
  }

  lemma SampleActions(c: Contract, known: set<string>, action: ProposedAction)
    requires c.allowed == Operations && c.blocked == {} && c.approvals == [] && (forall path :: c.admits(path))
    requires "e" in known && Normalize("a") == Some("a")
    requires action == ProposedAction(Some("x"), "inspect_repository", "low", false, false, [Some("a")], ["e"], false)
    ensures ActionsOk(c, known, "low", [Some(action)])
    ensures TotalOf([Some(action)]) == Total({"x"}, {"inspect_repository"}, Normals([Some("a")]), false)
  {
    hide Normalize;
    var actions := [Some(action)];
    assert actions[..0] == [];
    assert SafeId("x");
    assert PathsOk(c.admits, [Some("a")]);
    hide Normals, PathsOk;
    assert ActionOk(c, known, "low", actions[0]);
    hide ActionOk;
    assert Operations <= c.allowed + c.blocked;
    assert FrameOk(c, "low", actions);
    assert ListOk(c, known, "low", actions[..0]);
    assert ListOk(c, known, "low", actions);
  }
}
