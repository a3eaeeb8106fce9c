/** Charter approval and authoritative loads as a protocol: racing approvers, loaders whose
    three reads are separate, proposals and arbitrary edits of the charter and decision
    files, crashes, and the write-once receipt that freezes one pair of digests. */
module ReceiptProtocol {
  import opened Common
  import opened Registry
  import opened Authority
  import opened Builder

  type Pid = nat

  datatype Pair = Pair(charter: Charter, decision: Decision)

  datatype Phase =
    | Idle
    // approve_charter_1_1
    | Cleared(pair: Pair)
    | WroteDecision(pair: Pair)
    | WroteCharter(pair: Pair)
    | Creating(pair: Pair)
    // load_authoritative_state
    | HasCharter(charterRead: File<Charter>)
    | HasBoth(charterRead: File<Charter>, decisionRead: File<Decision>)

  /** `frozen` and `loads` are history: the pair digested by whoever created the receipt file,
      and everything a load has returned so far. */
  datatype State = State(
    charter: File<Charter>, decision: File<Decision>, receipt: File<Receipt>,
    procs: map<Pid, Phase>, frozen: Option<Pair>, loads: seq<Pair>)

  datatype Step =
    | BeginApproval(candidate: Charter, proposal: Decision, phrase: string, who: string, time: string)
    | WriteDecision | WriteCharter | CreateReceipt | JoinReceipt | FillReceipt
    | ReadCharter | ReadDecision | FinishLoad
    | Crash
    | EditCharter(charter: File<Charter>) | EditDecision(decision: File<Decision>)

  function PhaseOf(s: State, p: Pid): Phase {
    if p in s.procs then s.procs[p] else Idle
  }

  function Put(s: State, p: Pid, next: Phase): State {
    s.(procs := s.procs[p := next])
  }

  function DoBegin(cfg: Config, s: State, p: Pid, c: Charter, d: Decision, phrase: string, who: string, time: string)
    : Option<State>
  {
    if && PhaseOf(s, p).Idle? && phrase == c.approvalPhrase && who != "" && c.state.CharterProposed?
       && ValidateCharterConstruction(cfg, c, d).Pass? && s.receipt.Missing?
    then Some(Put(s, p, Cleared(Pair(Approved(c, time, who), d)))) else None
  }

  function DoCreate(cfg: Config, s: State, p: Pid): Option<State> {
    var ph := PhaseOf(s, p);
    if ph.WroteCharter? && ReceiptPreconditions(cfg, ph.pair.charter, ph.pair.decision).Pass? && s.receipt.Missing?
    then Some(Put(s, p, Creating(ph.pair)).(receipt := Malformed, frozen := Some(ph.pair))) else None
  }

  /** The exclusive create lost: the published receipt must carry the same identity. */
  function DoJoin(cfg: Config, s: State, p: Pid): Option<State> {
    var ph := PhaseOf(s, p);
    if && ph.WroteCharter? && ReceiptPreconditions(cfg, ph.pair.charter, ph.pair.decision).Pass? && s.receipt.Doc?
       && SameReceipt(s.receipt.value, MakeReceipt(cfg, ph.pair.charter, ph.pair.decision))
    then Some(Put(s, p, Idle)) else None
  }

  function DoFill(cfg: Config, s: State, p: Pid): Option<State> {
    var ph := PhaseOf(s, p);
    if ph.Creating?
    then Some(Put(s, p, Idle).(receipt := Doc(MakeReceipt(cfg, ph.pair.charter, ph.pair.decision)))) else None
  }

  function DoFinishLoad(cfg: Config, s: State, p: Pid): Option<State> {
    var ph := PhaseOf(s, p);
    if !ph.HasBoth? then None
    else
      match LoadAuthoritativeState(cfg, ph.charterRead, ph.decisionRead, s.receipt)
      case Err(_) => Some(Put(s, p, Idle))
      case Ok((c, d)) => Some(Put(s, p, Idle).(loads := s.loads + [Pair(c, d)]))
  }

  function After(cfg: Config, s: State, p: Pid, step: Step): Option<State> {
    var ph := PhaseOf(s, p);
    match step
    case BeginApproval(c, d, phrase, who, time) => DoBegin(cfg, s, p, c, d, phrase, who, time)
    case WriteDecision =>
      if ph.Cleared? then Some(Put(s, p, WroteDecision(ph.pair)).(decision := Doc(ph.pair.decision))) else None
    case WriteCharter =>
      if ph.WroteDecision? then Some(Put(s, p, WroteCharter(ph.pair)).(charter := Doc(ph.pair.charter))) else None
    case CreateReceipt => DoCreate(cfg, s, p)
    case JoinReceipt => DoJoin(cfg, s, p)
    case FillReceipt => DoFill(cfg, s, p)
    case ReadCharter => if ph.Idle? then Some(Put(s, p, HasCharter(s.charter))) else None
    case ReadDecision => if ph.HasCharter? then Some(Put(s, p, HasBoth(ph.charterRead, s.decision))) else None
    case FinishLoad => DoFinishLoad(cfg, s, p)
    case Crash => Some(Put(s, p, Idle))
    case EditCharter(file) => Some(s.(charter := file))
    case EditDecision(file) => Some(s.(decision := file))
  }

  datatype Move = Move(pid: Pid, step: Step)

  predicate FreshDirectory(s: State) {
    s.receipt.Missing? && s.procs == map[] && s.frozen.None? && s.loads == []
  }

  /** A stretch of execution from the first state. */
  ghost predicate IsPath(cfg: Config, states: seq<State>, moves: seq<Move>) {
    && |states| == |moves| + 1
    && forall i :: 0 <= i < |moves| ==> After(cfg, states[i], moves[i].pid, moves[i].step) == Some(states[i + 1])
  }

  // ---------------------------------------------------------------- one pair for ever

  /** The receipt is what its creator promised, and every load returned documents with the
      frozen digests. */
  ghost predicate Frozen(cfg: Config, s: State) {
    && (s.receipt.Missing? <==> s.frozen.None?)
    && (s.receipt.Doc? ==> s.receipt.value == MakeReceipt(cfg, s.frozen.value.charter, s.frozen.value.decision))
    && !s.receipt.OldSchema?
    && (forall p :: PhaseOf(s, p).Creating? ==> s.frozen == Some(PhaseOf(s, p).pair))
    && (s.loads != [] ==> s.receipt.Doc?)
    && (forall i :: 0 <= i < |s.loads| ==> SameDigests(cfg, s.loads[i], s.frozen.value))
  }

  predicate SameDigests(cfg: Config, x: Pair, y: Pair) {
    && cfg.sha(CharterText(x.charter)) == cfg.sha(CharterText(y.charter))
    && cfg.sha(DecisionText(x.decision)) == cfg.sha(DecisionText(y.decision))
  }

  lemma LoadMatchesReceipt(cfg: Config, cf: File<Charter>, df: File<Decision>, rf: File<Receipt>)
    requires LoadAuthoritativeState(cfg, cf, df, rf).Ok?
    ensures
      var (c, d) := LoadAuthoritativeState(cfg, cf, df, rf).value;
      && rf.Doc? && rf.value.charterDigest == cfg.sha(CharterText(c)) && rf.value.decisionDigest == cfg.sha(DecisionText(d))
  {
    hide CharterShapeOk, DecisionShapeOk, ReceiptShapeOk, RegistrationOk;
  }

  lemma LoadKeepsFrozen(cfg: Config, s: State, p: Pid, s': State)
    requires Frozen(cfg, s) && DoFinishLoad(cfg, s, p) == Some(s')
    ensures Frozen(cfg, s')
  {
    hide LoadAuthoritativeState;
    forall q | q != p ensures PhaseOf(s', q) == PhaseOf(s, q) {}
    var ph := PhaseOf(s, p);
    if LoadAuthoritativeState(cfg, ph.charterRead, ph.decisionRead, s.receipt).Ok? {
      LoadMatchesReceipt(cfg, ph.charterRead, ph.decisionRead, s.receipt);
    }
  }

  /** A step that publishes nothing and records no load. */
  lemma QuietKeepsFrozen(cfg: Config, s: State, p: Pid, s': State)
    requires Frozen(cfg, s) && s'.receipt == s.receipt && s'.frozen == s.frozen && s'.loads == s.loads
    requires s'.procs == s.procs || (s' == Put(s', p, PhaseOf(s', p)) && s'.procs == s.procs[p := PhaseOf(s', p)])
    requires PhaseOf(s', p).Creating? ==> PhaseOf(s, p) == PhaseOf(s', p)
    ensures Frozen(cfg, s')
  {
    hide SameDigests, MakeReceipt;
    forall q | q != p ensures PhaseOf(s', q) == PhaseOf(s, q) {}
  }

  lemma PublishingKeepsFrozen(cfg: Config, s: State, p: Pid, s': State)
    requires Frozen(cfg, s) && (DoCreate(cfg, s, p) == Some(s') || DoFill(cfg, s, p) == Some(s'))
    ensures Frozen(cfg, s') && (s.frozen.Some? ==> s'.frozen == s.frozen)
  {
    hide ReceiptPreconditions, SameDigests, MakeReceipt;
    forall q | q != p ensures PhaseOf(s', q) == PhaseOf(s, q) {}
  }

  lemma FrozenStep(cfg: Config, s: State, p: Pid, step: Step, s': State)
    requires Frozen(cfg, s) && After(cfg, s, p, step) == Some(s')
    ensures Frozen(cfg, s') && (s.frozen.Some? ==> s'.frozen == s.frozen)
  {
    hide ValidateCharterConstruction, ReceiptPreconditions, LoadAuthoritativeState, SameReceipt, Frozen;
    if step.FinishLoad? {
      LoadKeepsFrozen(cfg, s, p, s');
    } else if step.CreateReceipt? || step.FillReceipt? {
      PublishingKeepsFrozen(cfg, s, p, s');
    } else {
      QuietKeepsFrozen(cfg, s, p, s');
    }
  }

  lemma {:induction false} FrozenHolds(cfg: Config, states: seq<State>, moves: seq<Move>, i: nat, j: nat)
    requires IsPath(cfg, states, moves) && FreshDirectory(states[0]) && i <= j < |states|
    ensures Frozen(cfg, states[j])
    ensures states[i].frozen.Some? ==> states[j].frozen == states[i].frozen
    decreases j
  {
    hide After;
    if j > 0 {
      FrozenHolds(cfg, states, moves, if i < j then i else j - 1, j - 1);
      FrozenStep(cfg, states[j - 1], moves[j - 1].pid, moves[j - 1].step, states[j]);
    }
  }

  /** All successful loads of a run return the pair digested by whoever created the receipt,
      despite racing approvers, re-proposals, edits, crashes and non-atomic reads. */
  lemma AllLoadsAgree(cfg: Config, states: seq<State>, moves: seq<Move>, i: nat, k: nat)
    requires CollisionFree(cfg) && IsPath(cfg, states, moves) && FreshDirectory(states[0])
    requires i < |states| && k < |states[i].loads|
    ensures states[i].frozen == Some(states[i].loads[k])
  {
    hide After;
    FrozenHolds(cfg, states, moves, i, i);
    var x, y := states[i].loads[k], states[i].frozen.value;
    assert SameDigests(cfg, x, y);
    assert !Collides(cfg, CharterText(x.charter), CharterText(y.charter));
    assert !Collides(cfg, DecisionText(x.decision), DecisionText(y.decision));
  }

  // ---------------------------------------------------------------- whose pair it is

  /** A process on its way through an approval. */
  predicate Approving(ph: Phase) {
    ph.Cleared? || ph.WroteDecision? || ph.WroteCharter? || ph.Creating?
  }

  /** Move j begins the approval of this pair: the charter's own phrase, by somebody, over a
      proposal that can be built, while there is no receipt. */
  predicate AsksFor(cfg: Config, s: State, step: Step, pair: Pair) {
    && step.BeginApproval? && s.receipt.Missing?
    && step.phrase == step.candidate.approvalPhrase && step.who != "" && step.candidate.state == CharterProposed
    && ValidateCharterConstruction(cfg, step.candidate, step.proposal).Pass?
    && pair.decision == step.proposal
    && pair.charter == step.candidate.(state := CharterApproved, approvedAt := step.time, approvedBy := step.who)
  }

  ghost predicate WasAskedFor(cfg: Config, states: seq<State>, moves: seq<Move>, i: nat, pair: Pair)
    requires i < |states| == |moves| + 1
  {
    exists j | 0 <= j < i :: AsksFor(cfg, states[j], moves[j].step, pair)
  }

  lemma ApprovingStep(cfg: Config, s: State, p: Pid, step: Step, s': State, q: Pid)
    requires After(cfg, s, p, step) == Some(s')
    ensures Approving(PhaseOf(s', q)) ==>
      || (Approving(PhaseOf(s, q)) && PhaseOf(s', q).pair == PhaseOf(s, q).pair)
      || AsksFor(cfg, s, step, PhaseOf(s', q).pair)
    ensures s'.frozen.Some? && s'.frozen != s.frozen ==>
      Approving(PhaseOf(s, p)) && s'.frozen.value == PhaseOf(s, p).pair
  {
    hide ValidateCharterConstruction, ReceiptPreconditions, LoadAuthoritativeState, SameReceipt, MakeReceipt;
  }

  lemma {:induction false} ApprovalsWereAskedFor(cfg: Config, states: seq<State>, moves: seq<Move>, i: nat, q: Pid)
    requires IsPath(cfg, states, moves) && FreshDirectory(states[0]) && i < |states| && Approving(PhaseOf(states[i], q))
    ensures WasAskedFor(cfg, states, moves, i, PhaseOf(states[i], q).pair)
  {
    hide After, AsksFor;
    if i > 0 {
      var s, move := states[i - 1], moves[i - 1];
      ApprovingStep(cfg, s, move.pid, move.step, states[i], q);
      if !AsksFor(cfg, s, move.step, PhaseOf(states[i], q).pair) {
        ApprovalsWereAskedFor(cfg, states, moves, i - 1, q);
      }
    }
  }

  /** The frozen pair was approved by somebody, by the charter's own phrase, before there was a
      receipt: the charter as proposed, stamped with that name and time, and its decision. */
  lemma {:induction false} FrozenWasApproved(cfg: Config, states: seq<State>, moves: seq<Move>, i: nat)
    requires IsPath(cfg, states, moves) && FreshDirectory(states[0]) && i < |states| && states[i].frozen.Some?
    ensures WasAskedFor(cfg, states, moves, i, states[i].frozen.value)
  {
    hide After, AsksFor;
    if i > 0 {
      var s, move := states[i - 1], moves[i - 1];
      ApprovingStep(cfg, s, move.pid, move.step, states[i], move.pid);
      if states[i].frozen == s.frozen {
        FrozenWasApproved(cfg, states, moves, i - 1);
      } else {
        ApprovalsWereAskedFor(cfg, states, moves, i - 1, move.pid);
      }
    }
  }

  /** An approver who loses the race succeeds only if it approved the very same pair. */
  lemma JoinedAgrees(cfg: Config, states: seq<State>, moves: seq<Move>, i: nat)
    requires CollisionFree(cfg) && IsPath(cfg, states, moves) && FreshDirectory(states[0]) && i < |moves|
    requires moves[i].step.JoinReceipt?
    ensures Approving(PhaseOf(states[i], moves[i].pid)) && states[i].frozen == Some(PhaseOf(states[i], moves[i].pid).pair)
  {
    FrozenHolds(cfg, states, moves, i, i);
    var s, p := states[i], moves[i].pid;
    assert After(cfg, s, p, moves[i].step) == Some(states[i + 1]);
    var pair, frozen := PhaseOf(s, p).pair, s.frozen.value;
    assert !Collides(cfg, CharterText(pair.charter), CharterText(frozen.charter));
    assert !Collides(cfg, DecisionText(pair.decision), DecisionText(frozen.decision));
    hide ReceiptPreconditions;
  }

  // ---------------------------------------------------------------- frozen files

  /** Both files hold the frozen pair. */
  predicate FilesFrozen(s: State) {
    s.frozen.Some? && s.charter == Doc(s.frozen.value.charter) && s.decision == Doc(s.frozen.value.decision)
  }

  /** No approver that passed its receipt check earlier is still about to write other content. */
  ghost predicate NoLateApprover(s: State) {
    && s.frozen.Some?
    && (forall p :: PhaseOf(s, p).Cleared? ==> PhaseOf(s, p).pair == s.frozen.value)
    && (forall p :: PhaseOf(s, p).WroteDecision? ==> PhaseOf(s, p).pair.charter == s.frozen.value.charter)
  }

  ghost predicate EditFree(moves: seq<Move>) {
    forall i :: 0 <= i < |moves| ==> !moves[i].step.EditCharter? && !moves[i].step.EditDecision?
  }

  lemma NoLateApproverStep(cfg: Config, s: State, p: Pid, step: Step, s': State)
    requires NoLateApprover(s) && FilesFrozen(s) && !s.receipt.Missing? && After(cfg, s, p, step) == Some(s')
    requires !step.EditCharter? && !step.EditDecision?
    ensures NoLateApprover(s') && FilesFrozen(s') && !s'.receipt.Missing?
  {
    hide ValidateCharterConstruction, ReceiptPreconditions, LoadAuthoritativeState, SameReceipt;
    forall q | q != p ensures PhaseOf(s', q) == PhaseOf(s, q) {}
  }

  lemma {:induction false} FilesStayFrozen(cfg: Config, states: seq<State>, moves: seq<Move>, i: nat)
    requires IsPath(cfg, states, moves) && EditFree(moves) && i < |states|
    requires NoLateApprover(states[0]) && FilesFrozen(states[0]) && !states[0].receipt.Missing?
    ensures FilesFrozen(states[i]) && NoLateApprover(states[i]) && !states[i].receipt.Missing?
  {
    hide After;
    if i > 0 {
      FilesStayFrozen(cfg, states, moves, i - 1);
      NoLateApproverStep(cfg, states[i - 1], moves[i - 1].pid, moves[i - 1].step, states[i]);
    }
  }

  /** A late approver overwrites a frozen file within two moves of its own. */
  lemma LateApproverOverwrites(cfg: Config, s: State) returns (states: seq<State>, moves: seq<Move>)
    requires FilesFrozen(s) && !NoLateApprover(s)
    ensures IsPath(cfg, states, moves) && EditFree(moves) && states[0] == s && !FilesFrozen(states[|states| - 1])
  {
    if p :| PhaseOf(s, p).WroteDecision? && PhaseOf(s, p).pair.charter != s.frozen.value.charter {
      states, moves := [s, After(cfg, s, p, WriteCharter).value], [Move(p, WriteCharter)];
    } else {
      var p :| PhaseOf(s, p).Cleared? && PhaseOf(s, p).pair != s.frozen.value;
      var t := After(cfg, s, p, WriteDecision).value;
      states, moves := [s, t, After(cfg, t, p, WriteCharter).value], [Move(p, WriteDecision), Move(p, WriteCharter)];
      if PhaseOf(s, p).pair.decision != s.frozen.value.decision {
        states, moves := [s, t], [Move(p, WriteDecision)];
      }
    }
  }

  /** The approval routine promises that frozen files are never overwritten by another
      approval. That holds exactly when no approver was still between its receipt check and
      its charter write, with other content, at the time. */
  lemma FrozenFilesAreSafeIff(cfg: Config, s: State)
    requires FilesFrozen(s) && !s.receipt.Missing?
    ensures NoLateApprover(s) <==>
      forall states, moves :: IsPath(cfg, states, moves) && EditFree(moves) && states[0] == s ==>
        FilesFrozen(states[|states| - 1])
  {
    hide After;
    if NoLateApprover(s) {
      forall states, moves | IsPath(cfg, states, moves) && EditFree(moves) && states[0] == s
        ensures FilesFrozen(states[|states| - 1])
      {
        FilesStayFrozen(cfg, states, moves, |states| - 1);
      }
    } else {
      var states, moves := LateApproverOverwrites(cfg, s);
    }
  }

  lemma ConstructedCharterCanBeReceipted(cfg: Config, c: Charter, d: Decision, who: string, time: string)
    requires ValidateCharterConstruction(cfg, c, d).Pass? && time != ""
    ensures ReceiptPreconditions(cfg, Approved(c, time, who), d).Pass?
  {
    hide RegistrationOk, CheckSkills;
  }

  /** The condition is not idle: for every charter that can be approved at all, two approvals
      of it at different times can race into a state with a published receipt, frozen files
      and a late approver. */
  lemma ApprovalsCanRace(cfg: Config, c: Charter, d: Decision, who: string, t0: string, t1: string)
    returns (states: seq<State>, moves: seq<Move>)
    requires ValidateCharterConstruction(cfg, c, d).Pass? && c.state.CharterProposed?
    requires who != "" && t0 != "" && t0 != t1
    ensures IsPath(cfg, states, moves) && FreshDirectory(states[0]) && EditFree(moves)
    ensures var last := states[|states| - 1]; last.receipt.Doc? && FilesFrozen(last) && !NoLateApprover(last)
  {
    hide ValidateCharterConstruction, ReceiptPreconditions, MakeReceipt;
    ConstructedCharterCanBeReceipted(cfg, c, d, who, t0);
    var s0 := State(Missing, Missing, Missing, map[], None, []);
    var begin0, begin1 := BeginApproval(c, d, c.approvalPhrase, who, t0), BeginApproval(c, d, c.approvalPhrase, who, t1);
    var s1 := After(cfg, s0, 0, begin0).value;
    var s2 := After(cfg, s1, 1, begin1).value;
    var s3 := After(cfg, s2, 0, WriteDecision).value;
    var s4 := After(cfg, s3, 0, WriteCharter).value;
    var s5 := After(cfg, s4, 0, CreateReceipt).value;
    var s6 := After(cfg, s5, 0, FillReceipt).value;
    states := [s0, s1, s2, s3, s4, s5, s6];
    moves := [Move(0, begin0), Move(1, begin1), Move(0, WriteDecision), Move(0, WriteCharter),
              Move(0, CreateReceipt), Move(0, FillReceipt)];
    assert PhaseOf(s6, 1) == Cleared(Pair(Approved(c, t1, who), d));
  }
}
