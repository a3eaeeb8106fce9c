/** What the claim files alone guarantee, even when the queue file is rewritten arbitrarily
    at any moment: at most one dispatch per action id, by the process that created the claim. */
module QueueClaims {
  import opened Common
  import opened Authority
  import Builder
  import opened QueueProtocol

  predicate HoldsLock(ph: Phase) {
    !(ph.Idle? || ph.Launch? || ph.Dispatching? || ph.Returned? || ph.FinUnlocked?)
  }

  /** The process is past its exclusive create and has not called the dispatcher yet. */
  predicate BeforeDispatch(ph: Phase) {
    ph.Creating? || ph.Claimed? || ph.Leased? || ph.Started? || ph.Refused? || ph.Ready? || ph.Launch?
  }

  predicate AfterDispatch(ph: Phase) {
    ph.Dispatching? || ph.Returned? || ph.FinLocked? || ph.FinLoaded? || ph.FinWritten? || ph.FinUnlocked?
  }

  predicate Owns(ph: Phase) {
    BeforeDispatch(ph) || AfterDispatch(ph)
  }

  predicate HasLease(ph: Phase) {
    (Owns(ph) && !ph.Creating? && !ph.Claimed?) || ph.Seized?
  }

  function IdOf(ph: Phase): string {
    if ph.Idle? then ""
    else match ph.op
      case Approve(id, _, _, _) => id
      case Reject(id, _, _) => id
      case Recover(id, _, _) => id
      case _ => ""
  }

  /** The operation a phase belongs to. */
  predicate OpFits(ph: Phase) {
    && (ph.Vetted? || Owns(ph) ==> ph.op.Approve?)
    && (ph.Unclaimed? ==> ph.op.Reject?)
    && (ph.Examined? || ph.Seized? ==> ph.op.Recover?)
  }

  predicate Authored(claims: map<string, ClaimFile>, id: string, p: Pid) {
    id in claims && claims[id].author == p
  }

  /** The written claim carries this approval. */
  predicate ClaimsApproval(file: ClaimFile, op: Op) {
    op.Approve? && file.Written? && file.claim.id == op.id
    && file.claim.approvedBy == op.approver && file.claim.approvedAt == op.time
  }

  /** What a process in a given phase can rely on, whatever the others do. */
  predicate Safe(s: State, p: Pid, ph: Phase) {
    && OpFits(ph)
    && (HoldsLock(ph) ==> s.lock == Some(p))
    && (HasLease(ph) ==> IdOf(ph) in s.leases && s.leases[IdOf(ph)] == p)
    && (Owns(ph) ==> Authored(s.claims, IdOf(ph), p))
    && (ph.Examined? || ph.Seized? ==> IdOf(ph) in s.claims)
    && (ph.Creating? || ph.Claimed? ==> IdOf(ph) !in s.leases)
    && (ph.Creating? ==> s.claims[IdOf(ph)].Torn?)
    && (Owns(ph) && !ph.Creating? ==> ClaimsApproval(s.claims[IdOf(ph)], ph.op))
    && (ph.Ready? || ph.Launch? || AfterDispatch(ph) ==> ph.act.id == IdOf(ph))
    && (BeforeDispatch(ph) ==> Dispatches(s.log, IdOf(ph)) == 0)
    && (AfterDispatch(ph) ==> Dispatches(s.log, IdOf(ph)) == 1)
  }

  /** What one step of process `p` may do to everybody else. */
  ghost predicate Rely(s: State, s': State, p: Pid) {
    && (forall q :: q != p ==> PhaseOf(s', q) == PhaseOf(s, q))
    && (s'.lock == s.lock || s.lock == Some(p) || s.lock == None)
    && (forall id :: id in s.leases && s.leases[id] != p ==> id in s'.leases && s'.leases[id] == s.leases[id])
    && (s.lock != Some(p) ==> forall id :: id in s'.leases ==> id in s.leases)
    && (s.lock != Some(p) ==> forall id :: id in s'.claims ==> id in s.claims)
    && (forall id :: id in s.claims ==>
          id in s'.claims && (s.claims[id].author != p || s.claims[id].Written? ==> s'.claims[id] == s.claims[id]))
    && (s'.log == s.log
        || exists d: Dispatch :: s'.log == s.log + [d] && Authored(s.claims, d.action.id, p))
  }

  lemma DispatchesAppend(log: seq<Dispatch>, d: Dispatch, id: string)
    ensures Dispatches(log + [d], id) == Dispatches(log, id) + if d.action.id == id then 1 else 0
  {
    assert (log + [d])[..|log + [d]| - 1] == log;
  }

  /** Nothing a process relies on can be taken away by another one. */
  lemma SafetyIsStable(s: State, s': State, p: Pid, q: Pid)
    requires p != q && Rely(s, s', p) && Safe(s, q, PhaseOf(s, q))
    ensures Safe(s', q, PhaseOf(s', q))
  {
    if s'.log != s.log {
      var d: Dispatch :| s'.log == s.log + [d] && Authored(s.claims, d.action.id, p);
      DispatchesAppend(s.log, d, IdOf(PhaseOf(s, q)));
    }
  }

  // Steps, grouped by what they touch.

  /** Takes or drops the queue lock, or reads the queue. */
  predicate LockStep(s: State, p: Pid, step: Step, s': State) {
    match step
    case Begin(op) => DoBegin(s, p, op) == Some(s')
    case Load => DoLoad(s, p) == Some(s')
    case Unlock => DoUnlock(s, p) == Some(s')
    case Relock => DoRelock(s, p) == Some(s')
    case Reload => DoReload(s, p) == Some(s')
    case _ => false
  }

  /** Checks, or notes a result, without touching a file. */
  predicate QuietStep(rules: Rules, s: State, p: Pid, step: Step, s': State) {
    match step
    case Vet(view) => DoVet(rules, s, p, view) == Some(s')
    case PreDispatchCheck(view) => DoPreDispatch(rules, s, p, view) == Some(s')
    case Balk(view) => DoBalk(rules, s, p, view) == Some(s')
    case Return(outcome) => DoReturn(s, p, outcome) == Some(s')
    case SeeNoClaim => DoSeeNoClaim(s, p) == Some(s')
    case Examine(view) => DoExamine(rules, s, p, view) == Some(s')
    case _ => false
  }

  /** Writes the queue file only. */
  predicate SaveStep(rules: Rules, s: State, p: Pid, step: Step, s': State) {
    match step
    case Start => DoStart(s, p) == Some(s')
    case Finish => DoFinish(s, p) == Some(s')
    case CommitReject(view) => DoCommitReject(rules, s, p, view) == Some(s')
    case CommitAppend(view) => DoCommitAppend(rules, s, p, view) == Some(s')
    case CommitInitialize(view) => DoCommitInitialize(rules, s, p, view) == Some(s')
    case _ => false
  }

  /** Takes or drops a lease. */
  predicate LeaseStep(s: State, p: Pid, step: Step, s': State) {
    match step
    case TakeLease => DoTakeLease(s, p) == Some(s')
    case ReleaseLease => DoReleaseLease(s, p) == Some(s')
    case Seize => DoSeize(s, p) == Some(s')
    case _ => false
  }

  /** Saves a blocked action and drops its lease. */
  predicate BlockStep(rules: Rules, s: State, p: Pid, step: Step, s': State) {
    match step
    case MarkBlocked(view) => DoMarkBlocked(rules, s, p, view) == Some(s')
    case CommitBlock(view) => DoCommitBlock(rules, s, p, view) == Some(s')
    case _ => false
  }

  /** Somebody outside the protocol. */
  predicate OutsideStep(s: State, step: Step, s': State) {
    match step
    case CreateReceipt => DoCreateReceipt(s) == Some(s')
    case FillReceipt(r) => DoFillReceipt(s, r) == Some(s')
    case EditQueue(file) => s' == s.(queue := file)
    case _ => false
  }

  lemma StepsAreGrouped(rules: Rules, s: State, p: Pid, step: Step, s': State)
    requires After(rules, s, p, step) == Some(s')
    ensures
      || LockStep(s, p, step, s') || QuietStep(rules, s, p, step, s') || SaveStep(rules, s, p, step, s')
      || LeaseStep(s, p, step, s') || BlockStep(rules, s, p, step, s') || OutsideStep(s, step, s')
      || (step.Crash? && DoCrash(s, p) == Some(s'))
      || (step.CreateClaim? && DoCreateClaim(s, p) == Some(s')) || (step.WriteClaim? && DoWriteClaim(s, p) == Some(s'))
      || (step.CallDispatch? && DoDispatch(s, p) == Some(s'))
  {
  }

  // ---------------------------------------------------------------- what others see

  /** The mover keeps what it relied on, and the others see only what Rely allows. */
  ghost predicate GoodMove(s: State, p: Pid, s': State) {
    Rely(s, s', p) && Safe(s', p, PhaseOf(s', p)) && Ledger(s')
  }

  /** Facts about the shared files that no single process owns. */
  ghost predicate Ledger(s: State) {
    && (forall id :: Dispatches(s.log, id) <= 1)
    && (forall id :: Dispatches(s.log, id) > 0 ==> id in s.claims)
    && (forall id :: id in s.leases ==> id in s.claims)
    && (forall id :: id in s.leases ==> LeaseLive(s, id))
  }

  /** A held lease belongs to a live process that is working on that id. */
  predicate LeaseLive(s: State, id: string)
    requires id in s.leases
  {
    HasLease(PhaseOf(s, s.leases[id])) && IdOf(PhaseOf(s, s.leases[id])) == id
  }

  /** Only the lock, the queue file and the mover's phase may differ, and a lease survives
      the change of phase. */
  predicate SameShared(s: State, p: Pid, s': State) {
    && s'.claims == s.claims && s'.leases == s.leases && s'.log == s.log
    && (HasLease(PhaseOf(s, p)) ==> HasLease(PhaseOf(s', p)) && IdOf(PhaseOf(s', p)) == IdOf(PhaseOf(s, p)))
  }

  lemma LockStepIsSeen(s: State, p: Pid, step: Step, s': State)
    requires Safe(s, p, PhaseOf(s, p)) && LockStep(s, p, step, s')
    ensures Rely(s, s', p) && SameShared(s, p, s')
  {
    hide LoadQueue, Dispatches, OpFits, ClaimsApproval, Authored;
  }

  lemma LockStepIsSafe(s: State, p: Pid, step: Step, s': State)
    requires Safe(s, p, PhaseOf(s, p)) && LockStep(s, p, step, s')
    ensures Safe(s', p, PhaseOf(s', p))
  {
    hide LoadQueue, Dispatches, ClaimsApproval, Authored;
  }

  lemma RowHasId(q: Queue, id: string)
    ensures Row(q, id).Ok? ==> Row(q, id).value.id == id
  {
  }

  lemma VerifiedIsClaimed(claims: map<string, ClaimFile>, a: Action)
    ensures VerifyClaim(claims, a).Pass? ==> a.id in claims && claims[a.id].Written? && ClaimBinds(claims[a.id].claim, a)
  {
  }

  lemma QuietStepIsSeen(rules: Rules, s: State, p: Pid, step: Step, s': State)
    requires Safe(s, p, PhaseOf(s, p)) && QuietStep(rules, s, p, step, s')
    ensures Rely(s, s', p) && SameShared(s, p, s')
  {
    hide Row, VerifyClaim, Dispatches, Builder.RecoveryPhrase, OpFits, ClaimsApproval, Authored;
  }

  /** A step from `Loaded` to a phase that owns nothing yet. */
  lemma ChecksAreSafe(rules: Rules, s: State, p: Pid, step: Step, s': State)
    requires Safe(s, p, PhaseOf(s, p)) && QuietStep(rules, s, p, step, s')
    requires step.Vet? || step.SeeNoClaim? || step.Examine?
    ensures Safe(s', p, PhaseOf(s', p))
  {
    hide Row, VerifyClaim, Dispatches, Builder.RecoveryPhrase, ClaimsApproval, Authored;
    var ph := PhaseOf(s, p);
    RowHasId(ph.snap, IdOf(ph));
    VerifiedIsClaimed(s.claims, Row(ph.snap, IdOf(ph)).value);
  }

  lemma QuietStepIsSafe(rules: Rules, s: State, p: Pid, step: Step, s': State)
    requires Safe(s, p, PhaseOf(s, p)) && QuietStep(rules, s, p, step, s')
    ensures Safe(s', p, PhaseOf(s', p))
  {
    hide Row, VerifyClaim, Dispatches, Builder.RecoveryPhrase, ClaimsApproval, Authored;
    if step.Vet? || step.SeeNoClaim? || step.Examine? {
      ChecksAreSafe(rules, s, p, step, s');
    } else {
      var ph := PhaseOf(s, p);
      if ph.Started? { RowHasId(ph.snap, IdOf(ph)); }
    }
  }

  lemma SaveStepIsGood(rules: Rules, s: State, p: Pid, step: Step, s': State)
    requires Safe(s, p, PhaseOf(s, p)) && SaveStep(rules, s, p, step, s')
    ensures Rely(s, s', p) && Safe(s', p, PhaseOf(s', p)) && SameShared(s, p, s')
  {
    hide Row, Transition, Dispatches, StartedQueue, FinishedQueue, WithRow, Find;
  }

  lemma OutsideStepIsGood(s: State, p: Pid, step: Step, s': State)
    requires Safe(s, p, PhaseOf(s, p)) && OutsideStep(s, step, s')
    ensures Rely(s, s', p) && Safe(s', p, PhaseOf(s', p)) && SameShared(s, p, s')
  {
  }

  lemma LedgerIsKept(s: State, p: Pid, s': State)
    requires Ledger(s) && Rely(s, s', p) && SameShared(s, p, s')
    ensures Ledger(s')
  {
    forall id | id in s'.leases ensures LeaseLive(s', id) { assert LeaseLive(s, id); }
  }

  lemma LeaseStepIsSeen(s: State, p: Pid, step: Step, s': State)
    requires Safe(s, p, PhaseOf(s, p)) && Ledger(s) && LeaseStep(s, p, step, s')
    ensures Rely(s, s', p) && Ledger(s')
  {
    hide Dispatches, ClaimsApproval;
  }

  lemma LeaseStepIsSafe(s: State, p: Pid, step: Step, s': State)
    requires Safe(s, p, PhaseOf(s, p)) && LeaseStep(s, p, step, s')
    ensures Safe(s', p, PhaseOf(s', p))
  {
    hide Dispatches, ClaimsApproval, Authored;
  }

  lemma CrashIsGood(s: State, p: Pid, s': State)
    requires Safe(s, p, PhaseOf(s, p)) && Ledger(s) && DoCrash(s, p) == Some(s')
    ensures GoodMove(s, p, s')
  {
    hide Dispatches, ClaimsApproval;
  }

  lemma BlockStepIsGood(rules: Rules, s: State, p: Pid, step: Step, s': State)
    requires Safe(s, p, PhaseOf(s, p)) && Ledger(s) && BlockStep(rules, s, p, step, s')
    ensures GoodMove(s, p, s')
  {
    hide Row, Block, Dispatches, ClaimsApproval, Authored;
  }

  /** A fresh claim belongs to an id that was neither dispatched nor leased. */
  lemma CreateIsGood(s: State, p: Pid, s': State)
    requires Safe(s, p, PhaseOf(s, p)) && Ledger(s) && DoCreateClaim(s, p) == Some(s')
    ensures GoodMove(s, p, s')
  {
  }

  lemma WriteIsGood(s: State, p: Pid, s': State)
    requires Safe(s, p, PhaseOf(s, p)) && Ledger(s) && DoWriteClaim(s, p) == Some(s')
    ensures GoodMove(s, p, s')
  {
    hide Row, Dispatches;
    RowHasId(PhaseOf(s, p).snap, IdOf(PhaseOf(s, p)));
  }

  lemma DispatchIsGood(s: State, p: Pid, s': State)
    requires Safe(s, p, PhaseOf(s, p)) && Ledger(s) && DoDispatch(s, p) == Some(s')
    ensures GoodMove(s, p, s')
  {
    var ph := PhaseOf(s, p);
    var d := Dispatch(p, ph.act, ph.basis);
    assert s'.log == s.log + [d] && Authored(s.claims, d.action.id, p);
    forall id { DispatchesAppend(s.log, d, id); }
  }

  lemma EveryMoveIsGood(rules: Rules, s: State, p: Pid, step: Step, s': State)
    requires Safe(s, p, PhaseOf(s, p)) && Ledger(s) && After(rules, s, p, step) == Some(s')
    ensures GoodMove(s, p, s')
  {
    hide LockStep, QuietStep, SaveStep, LeaseStep, BlockStep, OutsideStep, After, DoCrash, DoCreateClaim, DoWriteClaim,
      DoDispatch, Safe, Ledger, Rely, SameShared;
    StepsAreGrouped(rules, s, p, step, s');
    if LeaseStep(s, p, step, s') {
      LeaseStepIsSeen(s, p, step, s');
      LeaseStepIsSafe(s, p, step, s');
    } else if step.Crash? && DoCrash(s, p) == Some(s') {
      CrashIsGood(s, p, s');
    } else if BlockStep(rules, s, p, step, s') {
      BlockStepIsGood(rules, s, p, step, s');
    } else if step.CreateClaim? && DoCreateClaim(s, p) == Some(s') {
      CreateIsGood(s, p, s');
    } else if step.WriteClaim? && DoWriteClaim(s, p) == Some(s') {
      WriteIsGood(s, p, s');
    } else if step.CallDispatch? && DoDispatch(s, p) == Some(s') {
      DispatchIsGood(s, p, s');
    } else {
      if LockStep(s, p, step, s') {
        LockStepIsSeen(s, p, step, s');
        LockStepIsSafe(s, p, step, s');
      } else if QuietStep(rules, s, p, step, s') {
        QuietStepIsSeen(rules, s, p, step, s');
        QuietStepIsSafe(rules, s, p, step, s');
      } else if SaveStep(rules, s, p, step, s') {
        SaveStepIsGood(rules, s, p, step, s');
      } else {
        OutsideStepIsGood(s, p, step, s');
      }
      LedgerIsKept(s, p, s');
    }
  }

  // ---------------------------------------------------------------- whole runs

  ghost predicate ClaimsInvariant(s: State) {
    Ledger(s) && forall p :: Safe(s, p, PhaseOf(s, p))
  }

  lemma ClaimsInvariantStep(rules: Rules, s: State, p: Pid, step: Step, s': State)
    requires ClaimsInvariant(s) && After(rules, s, p, step) == Some(s')
    ensures ClaimsInvariant(s')
  {
    hide After, Safe, Ledger, Rely;
    EveryMoveIsGood(rules, s, p, step, s');
    forall q ensures Safe(s', q, PhaseOf(s', q)) {
      if q != p { SafetyIsStable(s, s', p, q); }
    }
  }

  lemma {:induction false} ClaimsInvariantHolds(rules: Rules, states: seq<State>, moves: seq<Move>, i: nat)
    requires IsRun(rules, states, moves) && i < |states|
    ensures ClaimsInvariant(states[i])
  {
    hide After;
    if i > 0 {
      ClaimsInvariantHolds(rules, states, moves, i - 1);
      ClaimsInvariantStep(rules, states[i - 1], moves[i - 1].pid, moves[i - 1].step, states[i]);
    }
  }

  /** In every run, with any number of processes, crashes anywhere and arbitrary rewrites of
      the queue file, an action id reaches the dispatcher at most once. */
  lemma AtMostOneDispatch(rules: Rules, states: seq<State>, moves: seq<Move>, i: nat, id: string)
    requires IsRun(rules, states, moves) && i < |states|
    ensures Dispatches(states[i].log, id) <= 1
  {
    ClaimsInvariantHolds(rules, states, moves, i);
  }

  /** Right after its claim is written, an approval always finds the lease free; and while a
      process owns a dispatch nobody else can take the lease. */
  lemma LeaseBelongsToTheClaimant(rules: Rules, states: seq<State>, moves: seq<Move>, i: nat, p: Pid)
    requires IsRun(rules, states, moves) && i < |states|
    ensures
      var s, ph := states[i], PhaseOf(states[i], p);
      && (ph.Claimed? ==> DoTakeLease(s, p).Some?)
      && (HasLease(ph) ==> IdOf(ph) in s.leases && s.leases[IdOf(ph)] == p)
      && (HasLease(ph) ==> forall q :: DoTakeLease(s, q).Some? ==> IdOf(PhaseOf(s, q)) != IdOf(ph))
      && (HasLease(ph) ==> forall q :: DoSeize(s, q).Some? ==> IdOf(PhaseOf(s, q)) != IdOf(ph))
  {
    ClaimsInvariantHolds(rules, states, moves, i);
    assert Safe(states[i], p, PhaseOf(states[i], p));
  }

  // ---------------------------------------------------------------- every dispatch is vouched for

  /** The action is covered by a written claim of this process, and the pre-dispatch check
      accepted it against these documents and the receipt now on disk. */
  predicate Vouched(rules: Rules, s: State, p: Pid, a: Action, basis: Basis) {
    && Authored(s.claims, a.id, p) && s.claims[a.id].Written? && ClaimBinds(s.claims[a.id].claim, a)
    && s.receipt.Doc?
    && rules.check(a, PreDispatch, View(Doc(basis.charter), Doc(basis.decision)), s.receipt)
  }

  ghost predicate Accountable(rules: Rules, s: State) {
    && (forall i :: 0 <= i < |s.log| ==> Vouched(rules, s, s.log[i].pid, s.log[i].action, s.log[i].basis))
    && (forall p :: PhaseOf(s, p).Ready? || PhaseOf(s, p).Launch? ==>
          Vouched(rules, s, p, PhaseOf(s, p).act, PhaseOf(s, p).basis))
  }

  lemma ReceiptIsWriteOnce(rules: Rules, s: State, p: Pid, step: Step, s': State)
    requires After(rules, s, p, step) == Some(s') && s.receipt.Doc?
    ensures s'.receipt == s.receipt
  {
    hide Row, VerifyClaim, Block, StartedQueue, FinishedQueue, Find, LoadQueue;
  }

  /** A process becomes ready only through the pre-dispatch check, and launches only when ready. */
  lemma ReadyOnlyByCheck(rules: Rules, s: State, p: Pid, step: Step, s': State)
    requires Safe(s, p, PhaseOf(s, p)) && After(rules, s, p, step) == Some(s')
    ensures PhaseOf(s', p).Ready? && PhaseOf(s', p) != PhaseOf(s, p) ==> step.PreDispatchCheck?
    ensures PhaseOf(s', p).Launch? && PhaseOf(s', p) != PhaseOf(s, p) ==>
      PhaseOf(s, p) == Ready(PhaseOf(s', p).op, PhaseOf(s', p).act, PhaseOf(s', p).basis)
    ensures s'.log == s.log ||
      (PhaseOf(s, p).Launch? && s'.log == s.log + [Dispatch(p, PhaseOf(s, p).act, PhaseOf(s, p).basis)])
  {
    hide Row, VerifyClaim, Block, StartedQueue, FinishedQueue, Find, LoadQueue, Safe;
  }

  lemma CheckVouches(rules: Rules, s: State, p: Pid, view: View, s': State)
    requires Safe(s, p, PhaseOf(s, p)) && DoPreDispatch(rules, s, p, view) == Some(s')
    ensures PhaseOf(s', p).Ready? && Vouched(rules, s', p, PhaseOf(s', p).act, PhaseOf(s', p).basis)
  {
    hide Row, VerifyClaim;
    var ph := PhaseOf(s, p);
    RowHasId(ph.snap, IdOf(ph));
    VerifiedIsClaimed(s.claims, Row(ph.snap, IdOf(ph)).value);
    assert view == View(Doc(view.charter.value), Doc(view.decision.value));
  }

  lemma VouchingIsStable(rules: Rules, s: State, mover: Pid, step: Step, s': State, p: Pid, a: Action, basis: Basis)
    requires Vouched(rules, s, p, a, basis) && Rely(s, s', mover) && After(rules, s, mover, step) == Some(s')
    ensures Vouched(rules, s', p, a, basis)
  {
    hide After;
    ReceiptIsWriteOnce(rules, s, mover, step, s');
  }

  lemma AccountableStep(rules: Rules, s: State, p: Pid, step: Step, s': State)
    requires ClaimsInvariant(s) && Accountable(rules, s) && After(rules, s, p, step) == Some(s')
    ensures Accountable(rules, s')
  {
    hide After, Safe, Ledger, Vouched;
    EveryMoveIsGood(rules, s, p, step, s');
    ReadyOnlyByCheck(rules, s, p, step, s');
    forall i | 0 <= i < |s'.log| ensures Vouched(rules, s', s'.log[i].pid, s'.log[i].action, s'.log[i].basis) {
      VouchingIsStable(rules, s, p, step, s', s'.log[i].pid, s'.log[i].action, s'.log[i].basis);
    }
    forall q | PhaseOf(s', q).Ready? || PhaseOf(s', q).Launch?
      ensures Vouched(rules, s', q, PhaseOf(s', q).act, PhaseOf(s', q).basis)
    {
      var ph := PhaseOf(s', q);
      if q == p && ph.Ready? && ph != PhaseOf(s, p) {
        StepIsPreDispatch(rules, s, p, step, s');
      } else {
        VouchingIsStable(rules, s, p, step, s', q, ph.act, ph.basis);
      }
    }
  }

  lemma StepIsPreDispatch(rules: Rules, s: State, p: Pid, step: Step, s': State)
    requires Safe(s, p, PhaseOf(s, p)) && After(rules, s, p, step) == Some(s') && step.PreDispatchCheck?
    ensures PhaseOf(s', p).Ready? && Vouched(rules, s', p, PhaseOf(s', p).act, PhaseOf(s', p).basis)
  {
    hide Safe, Vouched, DoPreDispatch;
    CheckVouches(rules, s, p, step.view, s');
  }

  lemma {:induction false} AccountableHolds(rules: Rules, states: seq<State>, moves: seq<Move>, i: nat)
    requires IsRun(rules, states, moves) && i < |states|
    ensures Accountable(rules, states[i])
  {
    hide After, Vouched;
    if i > 0 {
      AccountableHolds(rules, states, moves, i - 1);
      ClaimsInvariantHolds(rules, states, moves, i - 1);
      AccountableStep(rules, states[i - 1], moves[i - 1].pid, moves[i - 1].step, states[i]);
    }
  }

  /** A lease changes hands only by being free in between, in whatever state. */
  lemma LeasesAreExclusive(rules: Rules, s: State, p: Pid, step: Step, s': State, id: string)
    requires After(rules, s, p, step) == Some(s') && id in s.leases && id in s'.leases
    ensures s'.leases[id] == s.leases[id]
  {
    hide Row, LoadQueue, VerifyClaim, Block, FinishedQueue, StartedQueue, WithRow, Find;
  }
}
