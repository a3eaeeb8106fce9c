/** Every decision was spoken: what a process dispatches, rejects or blocks was named by the
    phrase of exactly that action when its operation began. */
module QueueSpoken {
  import opened Common
  import opened Authority
  import opened Builder
  import opened QueueProtocol
  import opened QueueClaims

  // ---------------------------------------------------------------- what a process remembers

  /** The row the operation is about has the phrase that was spoken, and the approver a name. */
  predicate RowSpoken(op: Op, snap: Queue) {
    && op.Approve? && Row(snap, op.id).Ok? && Row(snap, op.id).value.approvalPhrase == op.phrase && op.approver != ""
  }

  /** The running action carries the phrase that was spoken and the approval as its evidence. */
  predicate ActSpoken(op: Op, act: Action) {
    && op.Approve? && act.id == op.id && act.approvalPhrase == op.phrase && op.approver != ""
    && act.evidence == Some(Evidence(op.approver, op.time, act.argumentsHash, None))
  }

  predicate RejectionSpoken(op: Op, snap: Queue) {
    op.Reject? && Row(snap, op.id).Ok? && Row(snap, op.id).value.argumentsHash == op.hash
  }

  predicate RecoverySpoken(op: Op, snap: Queue) {
    op.Recover? && Row(snap, op.id).Ok? && Row(snap, op.id).value.argumentsHash == op.hash && op.phrase == RecoveryPhrase(op.id)
  }

  /** What each phase remembers of the words that led to it. */
  predicate Spoken(ph: Phase) {
    match ph
    case Vetted(op, snap) => RowSpoken(op, snap)
    case Creating(op, snap) => RowSpoken(op, snap)
    case Claimed(op, snap) => RowSpoken(op, snap)
    case Leased(op, snap) => RowSpoken(op, snap)
    case Started(op, snap) => op.Approve? && Row(snap, op.id).Ok? && ActSpoken(op, Row(snap, op.id).value)
    case Refused(op, snap) => op.Approve? && Row(snap, op.id).Ok? && ActSpoken(op, Row(snap, op.id).value)
    case Ready(op, act, _) => ActSpoken(op, act)
    case Launch(op, act, _) => ActSpoken(op, act)
    case Unclaimed(op, snap) => RejectionSpoken(op, snap)
    case Examined(op, snap) => RecoverySpoken(op, snap)
    case Seized(op, snap) => RecoverySpoken(op, snap)
    case _ => true
  }

  lemma RowAfterWrite(q: Queue, id: string, a: Action)
    requires Find(q.actions, id).Some? && a.id == id
    ensures Row(WithRow(q, id, a), id) == Ok(a)
  {
    FindAfterWrite(q.actions, id, a);
  }

  lemma {:induction false} FindAfterWrite(actions: seq<Action>, id: string, a: Action)
    requires Find(actions, id).Some? && a.id == id
    ensures Find(actions[Find(actions, id).value := a], id) == Find(actions, id)
  {
    var k := Find(actions, id).value;
    if actions[0].id != id {
      FindAfterWrite(actions[1..], id, a);
      assert actions[k := a][1..] == actions[1..][k - 1 := a];
    }
  }

  lemma StartIsSpoken(s: State, p: Pid, s': State)
    requires Spoken(PhaseOf(s, p)) && DoStart(s, p) == Some(s')
    ensures Spoken(PhaseOf(s', p))
  {
    hide VerifyClaim, WithRow;
    var ph := PhaseOf(s, p);
    var a := Row(ph.snap, ph.op.id).value;
    RowHasId(ph.snap, ph.op.id);
    RowAfterWrite(ph.snap, ph.op.id, a.(status := Running, evidence := Some(Approval(ph.op, a.argumentsHash, None))));
  }

  /** Only the words of the operation lead a process on. */
  lemma StepIsSpoken(rules: Rules, s: State, p: Pid, step: Step, s': State)
    requires Spoken(PhaseOf(s, p)) && After(rules, s, p, step) == Some(s')
    ensures Spoken(PhaseOf(s', p))
    ensures forall q :: q != p ==> PhaseOf(s', q) == PhaseOf(s, q)
  {
    hide Spoken, After, QuietStep;
    forall q | q != p ensures PhaseOf(s', q) == PhaseOf(s, q) { OthersStand(rules, s, p, step, s', q); }
    if step.Start? {
      assert DoStart(s, p) == Some(s') by { StartIsStart(rules, s, p, s'); }
      StartIsSpoken(s, p, s');
    } else if step.Vet? || step.PreDispatchCheck? || step.Balk? || step.SeeNoClaim? || step.Examine? {
      CheckIsSpoken(rules, s, p, step, s');
    } else {
      RestIsSpoken(rules, s, p, step, s');
    }
  }

  lemma StartIsStart(rules: Rules, s: State, p: Pid, s': State)
    ensures After(rules, s, p, Start) == DoStart(s, p)
  {
    hide DoStart;
  }

  lemma CheckIsSpoken(rules: Rules, s: State, p: Pid, step: Step, s': State)
    requires Spoken(PhaseOf(s, p)) && After(rules, s, p, step) == Some(s')
    requires step.Vet? || step.PreDispatchCheck? || step.Balk? || step.SeeNoClaim? || step.Examine?
    ensures Spoken(PhaseOf(s', p))
  {
    hide Row, VerifyClaim, RecoveryPhrase, ActSpoken;
  }

  lemma RestIsSpoken(rules: Rules, s: State, p: Pid, step: Step, s': State)
    requires Spoken(PhaseOf(s, p)) && After(rules, s, p, step) == Some(s')
    requires !step.Start? && !step.Vet? && !step.PreDispatchCheck? && !step.Balk? && !step.SeeNoClaim? && !step.Examine?
    ensures Spoken(PhaseOf(s', p))
  {
    hide Row, VerifyClaim, Block, StartedQueue, FinishedQueue, Find, LoadQueue, RecoveryPhrase, ActSpoken, RowSpoken,
         RejectionSpoken, RecoverySpoken;
  }

  // ---------------------------------------------------------------- where an operation came from

  predicate HasOp(ph: Phase, op: Op) {
    !ph.Idle? && ph.op == op
  }

  /** The operation a process is in is the one it was in before, or the one it has just begun. */
  lemma OpIsKept(rules: Rules, s: State, p: Pid, step: Step, s': State, op: Op)
    requires After(rules, s, p, step) == Some(s') && HasOp(PhaseOf(s', p), op)
    ensures HasOp(PhaseOf(s, p), op) || step == Begin(op)
  {
    hide Row, VerifyClaim, Block, StartedQueue, FinishedQueue, Find, LoadQueue, RecoveryPhrase;
  }

  /** This process began this operation before moment i. */
  ghost predicate Began(moves: seq<Move>, i: nat, p: Pid, op: Op) {
    exists j :: 0 <= j < i <= |moves| && moves[j] == Move(p, Begin(op))
  }

  /** This process looked at this action, with the authority check accepting it, before moment i. */
  ghost predicate CheckedBefore(rules: Rules, states: seq<State>, moves: seq<Move>, i: nat, p: Pid, a: Action) {
    exists j, view ::
      && 0 <= j < i <= |moves| < |states| && moves[j] == Move(p, Vet(view))
      && rules.check(a, Restore, view, states[j].receipt)
  }

  predicate BeforeClaim(ph: Phase) {
    ph.Vetted? && ph.op.Approve? && Row(ph.snap, ph.op.id).Ok?
  }

  /** The past of one process, as far as its phase tells. */
  ghost predicate Remembers(rules: Rules, states: seq<State>, moves: seq<Move>, i: nat, p: Pid)
    requires i < |states|
  {
    var ph := PhaseOf(states[i], p);
    && Spoken(ph)
    && (!ph.Idle? ==> Began(moves, i, p, ph.op))
    && (BeforeClaim(ph) ==> CheckedBefore(rules, states, moves, i, p, Row(ph.snap, ph.op.id).value))
  }

  lemma BeganStays(moves: seq<Move>, i: nat, p: Pid, op: Op)
    requires i < |moves|
    ensures Began(moves, i, p, op) || moves[i] == Move(p, Begin(op)) ==> Began(moves, i + 1, p, op)
  {
  }

  lemma VouchedStays(rules: Rules, states: seq<State>, moves: seq<Move>, i: nat, p: Pid, a: Action)
    requires i < |moves| && CheckedBefore(rules, states, moves, i, p, a)
    ensures CheckedBefore(rules, states, moves, i + 1, p, a)
  {
  }

  /** Only the vetting step leads to a vetted phase. */
  lemma VettedByVetting(rules: Rules, s: State, p: Pid, step: Step, s': State)
    requires After(rules, s, p, step) == Some(s') && BeforeClaim(PhaseOf(s', p))
    ensures PhaseOf(s', p) == PhaseOf(s, p)
      || (step.Vet? && rules.check(Row(PhaseOf(s', p).snap, PhaseOf(s', p).op.id).value, Restore, step.view, s.receipt))
  {
    hide Row, VerifyClaim, Block, StartedQueue, FinishedQueue, Find, LoadQueue, RecoveryPhrase;
  }

  lemma RemembersStep(rules: Rules, states: seq<State>, moves: seq<Move>, i: nat, p: Pid)
    requires IsRun(rules, states, moves) && i < |moves| && Remembers(rules, states, moves, i, p)
    ensures Remembers(rules, states, moves, i + 1, p)
  {
    var s, s' := states[i], states[i + 1];
    var mover, step := moves[i].pid, moves[i].step;
    hide After, Spoken, Row;
    var ph, ph' := PhaseOf(s, p), PhaseOf(s', p);
    assert After(rules, s, mover, step) == Some(s');
    if mover == p {
      StepIsSpoken(rules, s, p, step, s');
      if !ph'.Idle? {
        OpIsKept(rules, s, p, step, s', ph'.op);
        BeganStays(moves, i, p, ph'.op);
      }
      if BeforeClaim(ph') {
        VettedByVetting(rules, s, p, step, s');
        var a := Row(ph'.snap, ph'.op.id).value;
        if ph' == ph {
          VouchedStays(rules, states, moves, i, p, a);
        } else {
          assert moves[i] == Move(p, Vet(step.view));
        }
      }
    } else {
      OthersStand(rules, s, mover, step, s', p);
      if !ph.Idle? { BeganStays(moves, i, p, ph.op); }
      if BeforeClaim(ph) { VouchedStays(rules, states, moves, i, p, Row(ph.snap, ph.op.id).value); }
    }
  }

  lemma OthersStand(rules: Rules, s: State, mover: Pid, step: Step, s': State, p: Pid)
    requires After(rules, s, mover, step) == Some(s') && p != mover
    ensures PhaseOf(s', p) == PhaseOf(s, p)
  {
    hide Row, VerifyClaim, Block, StartedQueue, FinishedQueue, Find, LoadQueue, RecoveryPhrase;
  }

  lemma {:induction false} RemembersHolds(rules: Rules, states: seq<State>, moves: seq<Move>, i: nat, p: Pid)
    requires IsRun(rules, states, moves) && i < |states|
    ensures Remembers(rules, states, moves, i, p)
  {
    hide After, Spoken;
    if i == 0 {
      assert Spoken(Idle) by { IdleIsSpoken(); }
    } else {
      RemembersHolds(rules, states, moves, i - 1, p);
      RemembersStep(rules, states, moves, i - 1, p);
    }
  }

  lemma IdleIsSpoken()
    ensures Spoken(Idle)
  {
  }

  // ---------------------------------------------------------------- dispatches

  /** A dispatch was asked for by its own process, by the phrase of exactly this action, in the
      name that stands in its claim and in its evidence. */
  ghost predicate AskedFor(moves: seq<Move>, i: nat, s: State, entry: Dispatch, phrase: string, who: string, time: string) {
    var a := entry.action;
    && Began(moves, i, entry.pid, Approve(a.id, phrase, who, time))
    && phrase == a.approvalPhrase && who != ""
    && a.id in s.claims && s.claims[a.id].Written? && s.claims[a.id].author == entry.pid
    && s.claims[a.id].claim.approvedBy == who && s.claims[a.id].claim.approvedAt == time
    && a.evidence == Some(Evidence(who, time, a.argumentsHash, None))
  }

  ghost predicate EntryAskedFor(moves: seq<Move>, i: nat, s: State, entry: Dispatch) {
    exists phrase, who, time :: AskedFor(moves, i, s, entry, phrase, who, time)
  }

  lemma AskedForStays(moves: seq<Move>, i: nat, s: State, s': State, mover: Pid, entry: Dispatch)
    requires i < |moves| && EntryAskedFor(moves, i, s, entry) && Rely(s, s', mover)
    ensures EntryAskedFor(moves, i + 1, s', entry)
  {
    var phrase, who, time :| AskedFor(moves, i, s, entry, phrase, who, time);
    BeganStays(moves, i, entry.pid, Approve(entry.action.id, phrase, who, time));
    hide Began;
    assert AskedFor(moves, i + 1, s', entry, phrase, who, time);
  }

  lemma LaunchIsAskedFor(moves: seq<Move>, i: nat, s: State, s': State, p: Pid, basis: Basis)
    requires i < |moves| && PhaseOf(s, p).Launch? && Spoken(PhaseOf(s, p)) && Safe(s, p, PhaseOf(s, p))
    requires Began(moves, i, p, PhaseOf(s, p).op) && s'.claims == s.claims
    ensures EntryAskedFor(moves, i + 1, s', Dispatch(p, PhaseOf(s, p).act, basis))
  {
    hide Dispatches;
    var ph := PhaseOf(s, p);
    BeganStays(moves, i, p, ph.op);
    hide Began;
    assert ph.op == Approve(ph.op.id, ph.op.phrase, ph.op.approver, ph.op.time);
    assert AskedFor(moves, i + 1, s', Dispatch(p, ph.act, basis), ph.op.phrase, ph.op.approver, ph.op.time);
  }

  lemma DispatchKeepsClaims(s: State, p: Pid, s': State)
    requires DoDispatch(s, p) == Some(s')
    ensures PhaseOf(s, p).Launch? && s'.claims == s.claims
    ensures s'.log == s.log + [Dispatch(p, PhaseOf(s, p).act, PhaseOf(s, p).basis)]
  {
  }

  /** In every run, even one in which the queue file is rewritten at will, each dispatch was
      begun by its own process with the approval phrase of exactly that action, by a named
      approver, whose name and time stand in the claim and in the evidence. */
  lemma {:induction false} EveryDispatchWasAskedFor(rules: Rules, states: seq<State>, moves: seq<Move>, i: nat, k: nat)
    requires IsRun(rules, states, moves) && i < |states| && k < |states[i].log|
    ensures EntryAskedFor(moves, i, states[i], states[i].log[k])
  {
    hide After, EntryAskedFor, Safe, Ledger, Spoken, Began, CheckedBefore;
    var s, p, step := states[i - 1], moves[i - 1].pid, moves[i - 1].step;
    assert After(rules, s, p, step) == Some(states[i]);
    ClaimsInvariantHolds(rules, states, moves, i - 1);
    EveryMoveIsGood(rules, s, p, step, states[i]);
    LogGrowsByDispatch(rules, s, p, step, states[i]);
    if k < |s.log| {
      EveryDispatchWasAskedFor(rules, states, moves, i - 1, k);
      assert states[i].log[k] == s.log[k];
      AskedForStays(moves, i - 1, s, states[i], p, s.log[k]);
    } else {
      RemembersHolds(rules, states, moves, i - 1, p);
      DispatchKeepsClaims(s, p, states[i]);
      LaunchIsAskedFor(moves, i - 1, s, states[i], p, PhaseOf(s, p).basis);
    }
  }

  lemma LogGrowsByDispatch(rules: Rules, s: State, p: Pid, step: Step, s': State)
    requires After(rules, s, p, step) == Some(s')
    ensures s'.log == s.log || DoDispatch(s, p) == Some(s')
  {
    hide Row, VerifyClaim, Block, StartedQueue, FinishedQueue, Find, LoadQueue, RecoveryPhrase;
  }

  // ---------------------------------------------------------------- claims, rejections, recoveries

  /** No claim file is created but for an action that is proposed, by its phrase, by a named
      approver, after the authority check accepted it. */
  lemma EveryClaimWasAskedFor(rules: Rules, states: seq<State>, moves: seq<Move>, j: nat)
    requires IsRun(rules, states, moves) && j < |moves| && moves[j].step.CreateClaim?
    ensures
      var p := moves[j].pid;
      exists op: Op, a: Action ::
        && Began(moves, j, p, op) && op.Approve? && op.id !in states[j].claims && op.id in states[j + 1].claims
        && a.id == op.id && a.approvalPhrase == op.phrase && op.approver != ""
        && CheckedBefore(rules, states, moves, j, p, a)
  {
    hide After, CheckedBefore, Began;
    var s, p := states[j], moves[j].pid;
    RemembersHolds(rules, states, moves, j, p);
    CreateMeans(rules, s, p, states[j + 1]);
    var ph := PhaseOf(s, p);
    RowHasId(ph.snap, ph.op.id);
    var a := Row(ph.snap, ph.op.id).value;
    hide Row;
    assert Began(moves, j, p, ph.op) && CheckedBefore(rules, states, moves, j, p, a);
  }

  lemma CreateMeans(rules: Rules, s: State, p: Pid, s': State)
    requires After(rules, s, p, CreateClaim) == Some(s')
    ensures PhaseOf(s, p).Vetted? && PhaseOf(s, p).op.Approve?
    ensures PhaseOf(s, p).op.id !in s.claims && PhaseOf(s, p).op.id in s'.claims
  {
  }

  /** No action is rejected but a proposed, unclaimed one, by its own rejection phrase and hash,
      with the authority check accepting it. */
  lemma EveryRejectionWasAskedFor(rules: Rules, states: seq<State>, moves: seq<Move>, j: nat)
    requires IsRun(rules, states, moves) && j < |moves| && moves[j].step.CommitReject?
    ensures
      var p, s := moves[j].pid, states[j];
      exists op: Op, a: Action ::
        && Began(moves, j, p, op) && op.Reject? && a.id == op.id
        && op.phrase == a.rejectionPhrase && op.hash == a.argumentsHash
        && rules.check(a, Restore, moves[j].step.view, s.receipt)
  {
    hide After, Began, CheckedBefore;
    var s, p := states[j], moves[j].pid;
    RemembersHolds(rules, states, moves, j, p);
    RejectMeans(rules, s, p, moves[j].step.view, states[j + 1]);
    var ph := PhaseOf(s, p);
    RowHasId(ph.snap, ph.op.id);
    var a := Row(ph.snap, ph.op.id).value;
    hide Row;
    assert Began(moves, j, p, ph.op);
    assert a.id == ph.op.id;
  }

  lemma RejectMeans(rules: Rules, s: State, p: Pid, view: View, s': State)
    requires After(rules, s, p, CommitReject(view)) == Some(s')
    ensures PhaseOf(s, p).Unclaimed? && PhaseOf(s, p).op.Reject? && Row(PhaseOf(s, p).snap, PhaseOf(s, p).op.id).Ok?
    ensures
      var a := Row(PhaseOf(s, p).snap, PhaseOf(s, p).op.id).value;
      rules.check(a, Restore, view, s.receipt) && PhaseOf(s, p).op.phrase == a.rejectionPhrase
  {
    hide Row, WithRow;
  }

  /** Nobody's interrupted action is blocked by recovery but by its own recovery phrase and hash,
      with the authority check accepting it. */
  lemma EveryRecoveryWasAskedFor(rules: Rules, states: seq<State>, moves: seq<Move>, j: nat)
    requires IsRun(rules, states, moves) && j < |moves| && moves[j].step.CommitBlock?
    ensures
      var p, s := moves[j].pid, states[j];
      exists op: Op, a: Action ::
        && Began(moves, j, p, op) && op.Recover? && a.id == op.id
        && op.phrase == RecoveryPhrase(a.id) && op.hash == a.argumentsHash
        && rules.check(a, Restore, moves[j].step.view, s.receipt)
  {
    hide After, Began, CheckedBefore, RecoveryPhrase;
    var s, p := states[j], moves[j].pid;
    RemembersHolds(rules, states, moves, j, p);
    RecoverMeans(rules, s, p, moves[j].step.view, states[j + 1]);
    var ph := PhaseOf(s, p);
    RowHasId(ph.snap, ph.op.id);
    var a := Row(ph.snap, ph.op.id).value;
    hide Row;
    assert Began(moves, j, p, ph.op);
    assert a.id == ph.op.id;
  }

  lemma RecoverMeans(rules: Rules, s: State, p: Pid, view: View, s': State)
    requires After(rules, s, p, CommitBlock(view)) == Some(s')
    ensures PhaseOf(s, p).Seized? && PhaseOf(s, p).op.Recover? && Row(PhaseOf(s, p).snap, PhaseOf(s, p).op.id).Ok?
    ensures rules.check(Row(PhaseOf(s, p).snap, PhaseOf(s, p).op.id).value, Restore, view, s.receipt)
  {
    hide Row, WithRow, VerifyClaim, Find;
    BlockMeansChecked(rules, s, view, PhaseOf(s, p));
  }

  lemma BlockMeansChecked(rules: Rules, s: State, view: View, ph: Phase)
    ensures ph.Seized? && ph.op.Recover? && Row(ph.snap, ph.op.id).Ok?
         && Block(rules, s.claims, s.receipt, view, ph.snap, ph.op.id, Row(ph.snap, ph.op.id).value.status, ph.op.hash).Ok?
         ==> rules.check(Row(ph.snap, ph.op.id).value, Restore, view, s.receipt)
  {
    hide Row, WithRow, VerifyClaim, Find;
  }
}
