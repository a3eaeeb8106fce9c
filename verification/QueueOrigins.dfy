/** Where the actions of a queue come from: every row was built by the program's builder and
    accepted by the checkpoint when it entered, so it has its own phrases and its place in the
    charter the receipt names. */
module QueueOrigins {
  import opened Common
  import opened Registry
  import opened Authority
  import opened Builder
  import opened QueueProtocol
  import opened QueueClaims
  import opened QueueTable
  import opened QueueInvariant
  import opened QueueTheorems
  import opened QueueRules

  /** This move brings this action into the queue. */
  predicate Enters(rules: Rules, s: State, move: Move, a: Action) {
    var ph := PhaseOf(s, move.pid);
    match move.step
    case CommitAppend(view) =>
      && ph.Loaded? && ph.op.Append? && rules.candidate(ph.op, ph.snap, view, s.receipt) == Ok(a)
      && rules.check(a, FollowupAppend, view, s.receipt)
    case CommitInitialize(view) =>
      && ph.Locked? && ph.op.Initialize? && rules.initial(ph.op, view, s.receipt).Ok?
      && a in rules.initial(ph.op, view, s.receipt).value
    case _ => false
  }

  /** The action entered before moment i; only status and evidence have changed since. */
  ghost predicate Originates(rules: Rules, states: seq<State>, moves: seq<Move>, i: nat, a: Action) {
    exists j, b :: 0 <= j < i <= |moves| < |states| && Enters(rules, states[j], moves[j], b) && SameContent(b, a)
  }

  lemma OriginStays(rules: Rules, states: seq<State>, moves: seq<Move>, i: nat, a: Action, b: Action)
    requires i < |moves| < |states| && Originates(rules, states, moves, i, a) && SameContent(a, b)
    ensures Originates(rules, states, moves, i + 1, b)
  {
    hide Enters;
    var j, c :| 0 <= j < i <= |moves| < |states| && Enters(rules, states[j], moves[j], c) && SameContent(c, a);
    assert SameContent(c, b);
  }

  /** A row after a step was there before, with the same content, or it has just entered. */
  lemma RowsStayOrEnter(rules: Rules, s: State, move: Move, s': State, a: Action)
    requires FreshActions(rules) && HonestInvariant(s) && After(rules, s, move.pid, move.step) == Some(s')
    requires !move.step.EditQueue? && a in RowsOf(s'.queue)
    ensures (exists b :: b in RowsOf(s.queue) && SameContent(b, a)) || Enters(rules, s, move, a)
  {
    if move.step.CommitAppend? {
      AppendedRows(rules, s, move.pid, move.step.view, s', a);
    } else if move.step.CommitInitialize? {
      InitializedRows(rules, s, move.pid, move.step.view, s', a);
    } else {
      OtherRows(rules, s, move.pid, move.step, s', a);
    }
  }

  lemma AppendedRows(rules: Rules, s: State, p: Pid, view: View, s': State, a: Action)
    requires HonestInvariant(s) && After(rules, s, p, CommitAppend(view)) == Some(s') && a in RowsOf(s'.queue)
    ensures (exists b :: b in RowsOf(s.queue) && SameContent(b, a)) || Enters(rules, s, Move(p, CommitAppend(view)), a)
  {
    hide Find, Safe, Ledger, QueueOk, Table, VerifyClaim;
    assert Consistent(s, p, PhaseOf(s, p));
    assert a in RowsOf(s.queue) ==> SameContent(a, a);
  }

  lemma InitializedRows(rules: Rules, s: State, p: Pid, view: View, s': State, a: Action)
    requires After(rules, s, p, CommitInitialize(view)) == Some(s') && a in RowsOf(s'.queue)
    ensures Enters(rules, s, Move(p, CommitInitialize(view)), a)
  {
  }

  lemma OtherRows(rules: Rules, s: State, p: Pid, step: Step, s': State, a: Action)
    requires FreshActions(rules) && HonestInvariant(s) && After(rules, s, p, step) == Some(s')
    requires !step.EditQueue? && !step.CommitAppend? && !step.CommitInitialize? && a in RowsOf(s'.queue)
    ensures exists b :: b in RowsOf(s.queue) && SameContent(b, a)
  {
    hide After, HonestInvariant, FreshActions;
    EveryStepIsAbstract(rules, s, p, step, s');
    OnlyAppendAdds(rules, s, p, step, s');
    var k :| 0 <= k < |RowsOf(s'.queue)| && RowsOf(s'.queue)[k] == a;
    assert SameContent(RowsOf(s.queue)[k], a);
    assert RowsOf(s.queue)[k] in RowsOf(s.queue);
  }

  /** Only appends and openings make a queue longer. */
  lemma OnlyAppendAdds(rules: Rules, s: State, p: Pid, step: Step, s': State)
    requires HonestInvariant(s) && After(rules, s, p, step) == Some(s')
    requires !step.EditQueue? && !step.CommitAppend? && !step.CommitInitialize?
    ensures |RowsOf(s'.queue)| == |RowsOf(s.queue)|
  {
    hide Safe, Ledger, QueueOk, Table, VerifyClaim, Find, TableOf, ClaimsApproval, Authored;
    assert Consistent(s, p, PhaseOf(s, p));
  }

  /** Every row of an honest run entered it, and only its status and evidence have changed. */
  lemma {:induction false} EveryRowOriginates(rules: Rules, states: seq<State>, moves: seq<Move>, i: nat, a: Action)
    requires FreshActions(rules) && IsHonestRun(rules, states, moves) && i < |states| && a in RowsOf(states[i].queue)
    ensures Originates(rules, states, moves, i, a)
  {
    hide After, FreshActions, Enters, HonestInvariant;
    var s, move := states[i - 1], moves[i - 1];
    assert After(rules, s, move.pid, move.step) == Some(states[i]);
    HonestInvariantHolds(rules, states, moves, i - 1);
    RowsStayOrEnter(rules, s, move, states[i], a);
    if Enters(rules, s, move, a) {
      assert SameContent(a, a);
      assert Originates(rules, states, moves, i, a);
    } else {
      var b :| b in RowsOf(s.queue) && SameContent(b, a);
      EveryRowOriginates(rules, states, moves, i - 1, b);
      OriginStays(rules, states, moves, i - 1, b, a);
    }
  }

  // ---------------------------------------------------------------- what entering means

  /** The phrases of a row are made from its id, its id from its content. */
  predicate WellMade(cfg: Config, a: Action) {
    && a.argumentsHash == cfg.sha(ArgumentsText(a.arguments))
    && a.id == ActionId(cfg, a.missionId, a.skill, a.argumentsHash)
    && a.approvalPhrase == "APROBAR ACCION-" + Upper(AfterDash(a.id))
    && a.rejectionPhrase == "RECHAZAR ACCION-" + Upper(AfterDash(a.id))
  }

  /** The place of a row in the charter and decision that the receipt names. */
  predicate Admitted(cfg: Config, r: Receipt, c: Charter, d: Decision, a: Action) {
    && r.charterDigest == cfg.sha(CharterText(c)) && r.charterId == c.charterId && c.state.CharterApproved?
    && r.decisionDigest == cfg.sha(DecisionText(d)) && r.decisionId == d.decisionId == c.decisionId
    && r.missionId == a.missionId == c.missionId == d.missionId == cfg.directory
    && DocumentsBound(cfg, a.arguments, a.planId, a.skill, a.tier, c, d)
    && Registered(a.skill) && a.skill !in c.forbidden && SkillFits(c.limits, d.selection.provider, a.skill)
    && (match a.tier
        case Initial => a.skill in c.proposed
        case Followup => a.skill in c.followups
        case OtherTier(_) => false)
  }

  ghost predicate AdmittedNow(cfg: Config, s: State, a: Action) {
    s.receipt.Doc? && exists c, d :: Admitted(cfg, s.receipt.value, c, d, a)
  }

  lemma BuiltIsWellMade(
    cfg: Config, mission: string, plan: string, skill: SkillId, tier: Tier, c: Charter, d: Decision, extra: Arguments)
    requires BuildAction(cfg, mission, plan, skill, tier, c, d, extra).Ok?
    ensures
      var a := BuildAction(cfg, mission, plan, skill, tier, c, d, extra).value;
      WellMade(cfg, a) && a.skill == skill && a.tier == tier && a.missionId == mission && a.planId == plan
  {
    hide BuildArguments, AfterDash, Upper, ActionId;
  }

  lemma PassedMeansAdmitted(cfg: Config, a: Action, stage: Stage, view: View, receipt: File<Receipt>)
    requires ValidateActionAuthority(cfg, a, stage, view.charter, view.decision, receipt).Pass?
    ensures receipt.Doc? && view.charter.Doc? && view.decision.Doc?
    ensures Admitted(cfg, receipt.value, view.charter.value, view.decision.value, a)
  {
    PassedMeansDocuments(cfg, a, stage, view, receipt);
    hide LoadAuthoritativeState, CheckIdentity, CheckBinding, DocumentsBound, SkillFits, ActionId, EffectiveCapabilities,
         EvidenceComplete, ProviderBound;
    LoadedMeansNamed(cfg, view.charter.value, view.decision.value, receipt.value);
    CheckedMeansBound(cfg, a, stage, view.charter.value, view.decision.value);
  }

  lemma {:induction false} CheckAllMeansEach(cfg: Config, actions: seq<Action>, view: View, receipt: File<Receipt>, a: Action)
    requires CheckAll(cfg, actions, view, receipt).Pass? && a in actions
    ensures ValidateActionAuthority(cfg, a, QueueInit, view.charter, view.decision, receipt).Pass?
  {
    hide ValidateActionAuthority;
    if actions[0] != a { CheckAllMeansEach(cfg, actions[1..], view, receipt, a); }
  }

  lemma InitialIsMade(cfg: Config, receipt: File<Receipt>, view: View, op: Op, a: Action)
    requires op.Initialize? && InitialActions(cfg, receipt, view, op).Ok? && a in InitialActions(cfg, receipt, view, op).value
    ensures WellMade(cfg, a) && ValidateActionAuthority(cfg, a, QueueInit, view.charter, view.decision, receipt).Pass?
  {
    hide ValidateActionAuthority, LoadAuthoritativeState, BuildAction, WellMade;
    var (c, d) := LoadAuthoritativeState(cfg, view.charter, view.decision, receipt).value;
    var r := InitialActions(cfg, receipt, view, op).value;
    var k :| 0 <= k < |r| && r[k] == a;
    CheckAllMeansEach(cfg, r, view, receipt, a);
    BuiltIsWellMade(cfg, op.mission, op.plan, c.proposed[k], Initial, c, d, map[]);
  }

  lemma CandidateIsMade(cfg: Config, receipt: File<Receipt>, view: View, op: Op, q: Queue)
    requires op.Append? && Candidate(cfg, receipt, view, op, q).Ok?
    ensures WellMade(cfg, Candidate(cfg, receipt, view, op, q).value)
  {
    hide LoadAuthoritativeState, BuildAction, WellMade;
    var (c, d) := LoadAuthoritativeState(cfg, view.charter, view.decision, receipt).value;
    BuiltIsWellMade(cfg, op.mission, op.plan, op.skill, Followup, c, d, op.extra);
  }

  lemma EnteredIsMade(cfg: Config, s: State, move: Move, a: Action)
    requires Enters(Konoha(cfg), s, move, a)
    ensures WellMade(cfg, a) && AdmittedNow(cfg, s, a)
  {
    hide ValidateActionAuthority, Candidate, InitialActions, WellMade, Admitted;
    var op := PhaseOf(s, move.pid).op;
    match move.step
    case CommitAppend(view) =>
      CandidateIsMade(cfg, s.receipt, view, op, PhaseOf(s, move.pid).snap);
      PassedMeansAdmitted(cfg, a, FollowupAppend, view, s.receipt);
      assert Admitted(cfg, s.receipt.value, view.charter.value, view.decision.value, a);
    case CommitInitialize(view) =>
      InitialIsMade(cfg, s.receipt, view, op, a);
      PassedMeansAdmitted(cfg, a, QueueInit, view, s.receipt);
      assert Admitted(cfg, s.receipt.value, view.charter.value, view.decision.value, a);
    case _ =>
  }

  lemma {:induction false} ReceiptStays(rules: Rules, states: seq<State>, moves: seq<Move>, j: nat, i: nat)
    requires IsRun(rules, states, moves) && j <= i < |states| && states[j].receipt.Doc?
    ensures states[i].receipt == states[j].receipt
  {
    hide After;
    if j < i {
      ReceiptStays(rules, states, moves, j, i - 1);
      ReceiptIsWriteOnce(rules, states[i - 1], moves[i - 1].pid, moves[i - 1].step, states[i]);
    }
  }

  /** Every action of every honest run was made by the builder and admitted by the charter that
      the receipt names: its id from its content, its phrases from its id, its skill in the
      list of its tier. */
  lemma EveryRowWasAdmitted(cfg: Config, states: seq<State>, moves: seq<Move>, i: nat, a: Action)
    requires HashingSound(cfg) && IsHonestRun(Konoha(cfg), states, moves) && i < |states| && a in RowsOf(states[i].queue)
    ensures WellMade(cfg, a) && AdmittedNow(cfg, states[i], a)
  {
    hide After, Konoha, HashingSound, FreshActions, Enters, Admitted;
    var rules := Konoha(cfg);
    KonohaIsFresh(cfg);
    EveryRowOriginates(rules, states, moves, i, a);
    var j, b :| 0 <= j < i <= |moves| < |states| && Enters(rules, states[j], moves[j], b) && SameContent(b, a);
    EnteredIsMade(cfg, states[j], moves[j], b);
    ReceiptStays(rules, states, moves, j, i);
    var c, d :| Admitted(cfg, states[j].receipt.value, c, d, b);
    assert Admitted(cfg, states[i].receipt.value, c, d, a) by { AdmissionIsContent(cfg, states[i].receipt.value, c, d, b, a); }
  }

  lemma AdmissionIsContent(cfg: Config, r: Receipt, c: Charter, d: Decision, a: Action, b: Action)
    requires Admitted(cfg, r, c, d, a) && SameContent(a, b)
    ensures Admitted(cfg, r, c, d, b)
  {
  }

  // ---------------------------------------------------------------- one phrase, one row

  ghost predicate HexId(cfg: Config, x: string) {
    exists y :: cfg.shortId(x) == "action-" + y && NoCapitals(y)
  }

  /** Action ids are `action-` and text without capitals. */
  ghost predicate HexIds(cfg: Config) {
    forall x :: HexId(cfg, x)
  }

  /** Rows that share an approval phrase, or a rejection phrase, are one row, and no row's
      approval phrase rejects or recovers any row. */
  lemma PhrasesNameRows(cfg: Config, states: seq<State>, moves: seq<Move>, i: nat, a: Action, b: Action)
    requires HashingSound(cfg) && HexIds(cfg) && IsHonestRun(Konoha(cfg), states, moves) && i < |states|
    requires a in RowsOf(states[i].queue) && b in RowsOf(states[i].queue)
    ensures a.approvalPhrase == b.approvalPhrase || a.rejectionPhrase == b.rejectionPhrase ==> a == b
    ensures a.approvalPhrase != b.rejectionPhrase && a.approvalPhrase != RecoveryPhrase(b.id)
    ensures a.rejectionPhrase != RecoveryPhrase(b.id)
  {
    hide After, Konoha, HashingSound, FreshActions, Upper, AfterDash, RecoveryPhrase, IdMaterial, AdmittedNow, HonestInvariant;
    EveryRowWasAdmitted(cfg, states, moves, i, a);
    EveryRowWasAdmitted(cfg, states, moves, i, b);
    MadePhrases(cfg, a, b);
    KonohaIsFresh(cfg);
    HonestInvariantHolds(Konoha(cfg), states, moves, i);
    if a.id == b.id { SameIdIsSameRow(states[i], a, b); }
  }

  lemma MadePhrases(cfg: Config, a: Action, b: Action)
    requires HexIds(cfg) && WellMade(cfg, a) && WellMade(cfg, b)
    ensures a.approvalPhrase == b.approvalPhrase || a.rejectionPhrase == b.rejectionPhrase ==> a.id == b.id
    ensures a.approvalPhrase != b.rejectionPhrase && a.approvalPhrase != RecoveryPhrase(b.id)
    ensures a.rejectionPhrase != RecoveryPhrase(b.id)
  {
    hide Upper, AfterDash, RecoveryPhrase, IdMaterial, NoCapitals;
    assert HexId(cfg, IdMaterial(a.missionId, a.skill, a.argumentsHash));
    assert HexId(cfg, IdMaterial(b.missionId, b.skill, b.argumentsHash));
    var x :| a.id == "action-" + x && NoCapitals(x);
    var y :| b.id == "action-" + y && NoCapitals(y);
    PhrasesAreSpecific(x, y);
  }

  lemma SameIdIsSameRow(s: State, a: Action, b: Action)
    requires HonestInvariant(s) && a in RowsOf(s.queue) && b in RowsOf(s.queue) && a.id == b.id
    ensures a == b
  {
    hide Table, RowOk, Safe, Ledger, Consistent;
    var rows := RowsOf(s.queue);
    var i :| 0 <= i < |rows| && rows[i] == a;
    var j :| 0 <= j < |rows| && rows[j] == b;
    UniqueRowsAreVisible(rows, i);
    UniqueRowsAreVisible(rows, j);
  }

  /** The same of any two built actions: equal approval phrases or equal rejection phrases mean
      equal ids, and no approval phrase is a rejection or a recovery phrase. */
  lemma BuiltPhrasesAreSpecific(
    cfg: Config, mission: string, plan: string, skill: SkillId, tier: Tier, c: Charter, d: Decision, extra: Arguments,
    mission': string, plan': string, skill': SkillId, tier': Tier, c': Charter, d': Decision, extra': Arguments)
    requires HexIds(cfg)
    requires BuildAction(cfg, mission, plan, skill, tier, c, d, extra).Ok?
    requires BuildAction(cfg, mission', plan', skill', tier', c', d', extra').Ok?
    ensures
      var a := BuildAction(cfg, mission, plan, skill, tier, c, d, extra).value;
      var b := BuildAction(cfg, mission', plan', skill', tier', c', d', extra').value;
      && (a.approvalPhrase == b.approvalPhrase || a.rejectionPhrase == b.rejectionPhrase ==> a.id == b.id)
      && a.approvalPhrase != b.rejectionPhrase && a.approvalPhrase != RecoveryPhrase(b.id)
      && a.rejectionPhrase != RecoveryPhrase(b.id)
  {
    hide BuildAction, WellMade, RecoveryPhrase, HexIds;
    BuiltIsWellMade(cfg, mission, plan, skill, tier, c, d, extra);
    BuiltIsWellMade(cfg, mission', plan', skill', tier', c', d', extra');
    MadePhrases(cfg, BuildAction(cfg, mission, plan, skill, tier, c, d, extra).value,
                BuildAction(cfg, mission', plan', skill', tier', c', d', extra').value);
  }
}
