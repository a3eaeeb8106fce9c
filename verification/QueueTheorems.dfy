/** The main results about the action queue, over whole runs. */
module QueueTheorems {
  import opened Common
  import opened Authority
  import opened QueueProtocol
  import opened QueueClaims
  import opened QueueTable
  import opened QueueInvariant

  predicate ClaimCovers(claims: map<string, ClaimFile>, a: Action) {
    a.id in claims && claims[a.id].Written? && ClaimBinds(claims[a.id].claim, a)
  }

  /** Every action of every reachable queue: running, completed, failed or blocked means a
      written claim bound to it; rejected means no claim file at all; proposed or rejected
      means never dispatched; completed or failed means dispatched exactly once. */
  lemma StatusMatchesHistory(rules: Rules, states: seq<State>, moves: seq<Move>, i: nat, a: Action)
    requires FreshActions(rules) && IsHonestRun(rules, states, moves) && i < |states| && a in RowsOf(states[i].queue)
    ensures
      var s := states[i];
      && (a.status.Running? || a.status.Completed? || a.status.Failed? || a.status.Blocked? ==> ClaimCovers(s.claims, a))
      && (a.status.Rejected? ==> a.id !in s.claims)
      && (a.status.Proposed? || a.status.Rejected? ==> Dispatches(s.log, a.id) == 0)
      && (a.status.Completed? || a.status.Failed? ==> Dispatches(s.log, a.id) == 1)
      && Dispatches(s.log, a.id) <= 1
  {
    hide After, FreshActions, Table, Dispatches;
    HonestInvariantHolds(rules, states, moves, i);
    var rows := RowsOf(states[i].queue);
    var k :| 0 <= k < |rows| && rows[k] == a;
    UniqueRowsAreVisible(rows, k);
    assert RowOk(states[i].claims, states[i].log, TableOf(states[i])[a.id]);
    VerifiedIsClaimed(states[i].claims, a);
  }

  predicate OwnsDispatch(ph: Phase) {
    ph.Launch? || ph.Dispatching? || ph.Returned? || ph.FinLocked? || ph.FinLoaded?
  }

  /** While a live process owns a dispatch its action stays running and leased, so recovery
      cannot seize it, and its final move to completed or failed succeeds. */
  lemma OwnedDispatchIsProtected(rules: Rules, states: seq<State>, moves: seq<Move>, i: nat, p: Pid)
    requires FreshActions(rules) && IsHonestRun(rules, states, moves) && i < |states|
    requires OwnsDispatch(PhaseOf(states[i], p))
    ensures
      var s, ph := states[i], PhaseOf(states[i], p);
      && StatusIs(s, IdOf(ph), Running) && TableOf(s)[IdOf(ph)] == ph.act
      && IdOf(ph) in s.leases && s.leases[IdOf(ph)] == p
      && (forall q :: DoSeize(s, q).Some? ==> IdOf(PhaseOf(s, q)) != IdOf(ph))
      && (ph.FinLoaded? ==> DoFinish(s, p).Some?)
  {
    hide After, FreshActions, Table, Dispatches, VerifyClaim;
    HonestInvariantHolds(rules, states, moves, i);
    var s := states[i];
    assert Safe(s, p, PhaseOf(s, p)) && Consistent(s, p, PhaseOf(s, p));
    if PhaseOf(s, p).FinLoaded? { FinishCannotFail(s, p); }
  }

  /** An action whose pre-dispatch check raised becomes blocked exactly when the repeated
      authority check passes; otherwise it is left running, although nobody runs it. */
  lemma RefusedIsBlockedIffRecheckPasses(rules: Rules, states: seq<State>, moves: seq<Move>, i: nat, p: Pid, view: View)
    requires FreshActions(rules) && IsHonestRun(rules, states, moves) && i < |states| && PhaseOf(states[i], p).Refused?
    ensures
      var s, id := states[i], IdOf(PhaseOf(states[i], p));
      && StatusIs(s, id, Running)
      && (DoMarkBlocked(rules, s, p, view).Some? <==> rules.check(TableOf(s)[id], Restore, view, s.receipt))
      && (DoMarkBlocked(rules, s, p, view).Some? ==> StatusIs(DoMarkBlocked(rules, s, p, view).value, id, Blocked))
      && StatusIs(DoCrash(s, p).value, id, Running) && id !in DoCrash(s, p).value.leases
  {
    hide After, FreshActions, Table, Dispatches, VerifyClaim, Row, WithRow, LoadQueue;
    HonestInvariantHolds(rules, states, moves, i);
    var s, ph := states[i], PhaseOf(states[i], p);
    assert Safe(s, p, ph) && Consistent(s, p, ph);
    RowIsTable(s, ph.snap, IdOf(ph));
    assert RowOk(s.claims, s.log, TableOf(s)[IdOf(ph)]);
    if DoMarkBlocked(rules, s, p, view).Some? {
      var s' := DoMarkBlocked(rules, s, p, view).value;
      SavedRow(s, s', ph.snap, IdOf(ph), TableOf(s)[IdOf(ph)].(status := Blocked));
    }
  }

  // ---------------------------------------------------------------- no lost updates

  predicate SameContent(a: Action, b: Action) {
    b == a.(status := b.status, evidence := b.evidence)
  }

  /** The legal status changes. */
  predicate Moves(a: Action, b: Action) {
    && SameContent(a, b)
    && match a.status
       case Proposed => b.status.Running? || b.status.Rejected? || b.status.Blocked?
       case Running => b.status.Completed? || b.status.Failed? || b.status.Blocked?
       case _ => false
  }

  /** Action k advances; mission, plan and every other action stay. */
  predicate Advances(q: Queue, q': Queue, k: nat) {
    && k < |q.actions| == |q'.actions| && q' == q.(actions := q.actions[k := q'.actions[k]])
    && Moves(q.actions[k], q'.actions[k])
  }

  /** One fresh action is added under a new id; mission, plan and every other action stay. */
  predicate Adds(q: Queue, q': Queue, a: Action) {
    q' == q.(actions := q.actions + [a]) && IsFresh(a) && Find(q.actions, a.id).None?
  }

  /** A missing queue is filled with fresh actions under different ids. */
  predicate Fills(f: File<Queue>, q': Queue) {
    f.Missing? && UniqueIds(q'.actions) && forall a | a in q'.actions :: IsFresh(a)
  }

  /** The abstract queue: nothing changes, one action advances, one is added, or a missing
      queue is filled. */
  ghost predicate AbstractStep(f: File<Queue>, f': File<Queue>) {
    || f' == f
    || (f'.Doc? && Fills(f, f'.value))
    || (f'.Doc? && f.Doc? && exists k: nat :: Advances(f.value, f'.value, k))
    || (f'.Doc? && LoadQueue(f).Ok? && exists a :: Adds(LoadQueue(f).value, f'.value, a))
  }

  lemma SaveIsAbstract(s: State, p: Pid, s': State, id: string, a: Action, b: Action)
    requires Saves(s, p, s', id, a, b) && Moves(a, b)
    ensures AbstractStep(s.queue, s'.queue)
  {
    var snap := PhaseOf(s, p).snap;
    var k := Find(snap.actions, id).value;
    assert s.queue == Doc(snap) && s'.queue.value.actions[k] == b;
    assert Advances(snap, s'.queue.value, k);
  }

  lemma SaveStepIsAbstract(rules: Rules, s: State, p: Pid, step: Step, s': State)
    requires FreshActions(rules) && Safe(s, p, PhaseOf(s, p)) && Consistent(s, p, PhaseOf(s, p)) && QueueOk(s)
    requires SaveStep(rules, s, p, step, s')
    ensures AbstractStep(s.queue, s'.queue)
  {
    hide Table, Dispatches, VerifyClaim, Row, WithRow, RowOk, Saves, AbstractStep, StartedQueue, FinishedQueue;
    var ph := PhaseOf(s, p);
    match step
    case Start =>
      StartSaves(s, p, s');
      var a := TableOf(s)[IdOf(ph)];
      SaveIsAbstract(s, p, s', IdOf(ph), a, a.(status := Running, evidence := Some(Approval(ph.op, a.argumentsHash, None))));
    case Finish =>
      FinishCannotFail(s, p);
      SaveIsAbstract(s, p, s', IdOf(ph), ph.act, Ending(ph));
    case CommitReject(view) =>
      RejectSaves(rules, s, p, view, s');
      SaveIsAbstract(s, p, s', IdOf(ph), TableOf(s)[IdOf(ph)], TableOf(s)[IdOf(ph)].(status := Rejected));
    case CommitAppend(view) => AppendIsAbstract(rules, s, p, view, s');
    case CommitInitialize(view) => InitializeIsAbstract(rules, s, p, view, s');
    case _ =>
  }

  lemma AppendIsAbstract(rules: Rules, s: State, p: Pid, view: View, s': State)
    requires FreshActions(rules) && Consistent(s, p, PhaseOf(s, p)) && DoCommitAppend(rules, s, p, view) == Some(s')
    ensures AbstractStep(s.queue, s'.queue)
  {
    hide Table, VerifyClaim;
    var ph := PhaseOf(s, p);
    assert CandidateIsFresh(rules.candidate(ph.op, ph.snap, view, s.receipt));
    assert Adds(LoadQueue(s.queue).value, s'.queue.value, rules.candidate(ph.op, ph.snap, view, s.receipt).value);
  }

  lemma InitializeIsAbstract(rules: Rules, s: State, p: Pid, view: View, s': State)
    requires FreshActions(rules) && DoCommitInitialize(rules, s, p, view) == Some(s')
    ensures AbstractStep(s.queue, s'.queue)
  {
    assert InitialAreFresh(rules.initial(PhaseOf(s, p).op, view, s.receipt));
  }

  /** Refinement: every step of the concurrent protocol, with its stale-able snapshots and
      whole-file writes, is one step of the abstract queue. */
  lemma EveryStepIsAbstract(rules: Rules, s: State, p: Pid, step: Step, s': State)
    requires FreshActions(rules) && HonestInvariant(s) && After(rules, s, p, step) == Some(s') && !step.EditQueue?
    ensures AbstractStep(s.queue, s'.queue)
  {
    hide LockStep, QuietStep, SaveStep, LeaseStep, BlockStep, OutsideStep, After, DoCrash, DoCreateClaim, DoWriteClaim,
      DoDispatch, Safe, Ledger, Consistent, QueueOk, FreshActions, SameShared, Rely, Saves, TableOf, RowOk, Moves;
    StepsAreGrouped(rules, s, p, step, s');
    assert Safe(s, p, PhaseOf(s, p)) && Consistent(s, p, PhaseOf(s, p));
    if SaveStep(rules, s, p, step, s') {
      SaveStepIsAbstract(rules, s, p, step, s');
    } else if BlockStep(rules, s, p, step, s') {
      BlockStepIsAbstract(rules, s, p, step, s');
    } else {
      OtherStepsKeepTheQueue(rules, s, p, step, s');
    }
  }

  lemma BlockStepIsAbstract(rules: Rules, s: State, p: Pid, step: Step, s': State)
    requires Safe(s, p, PhaseOf(s, p)) && Consistent(s, p, PhaseOf(s, p)) && BlockStep(rules, s, p, step, s')
    ensures AbstractStep(s.queue, s'.queue)
  {
    hide Table, TableOf, Dispatches, VerifyClaim, Row, WithRow, RowOk, Saves, AbstractStep, Block, Safe;
    BlockSaves(rules, s, p, step, s');
    var id := IdOf(PhaseOf(s, p));
    SaveIsAbstract(s, p, s', id, TableOf(s)[id], TableOf(s)[id].(status := Blocked));
  }

  lemma OtherStepsKeepTheQueue(rules: Rules, s: State, p: Pid, step: Step, s': State)
    requires After(rules, s, p, step) == Some(s') && !step.EditQueue?
    requires !SaveStep(rules, s, p, step, s') && !BlockStep(rules, s, p, step, s')
    ensures s'.queue == s.queue
  {
    hide Row, VerifyClaim, Block, StartedQueue, FinishedQueue, Find, LoadQueue;
  }

  /** Later states keep every action where it was, with the same content; an action that has
      reached a final status never changes again. */
  predicate Continues(a: Action, b: Action) {
    && SameContent(a, b)
    && match a.status
       case Proposed => true
       case Running => b == a || b.status.Completed? || b.status.Failed? || b.status.Blocked?
       case _ => b == a
  }

  predicate Evolves(rows: seq<Action>, rows': seq<Action>) {
    |rows| <= |rows'| && forall k :: 0 <= k < |rows| ==> Continues(rows[k], rows'[k])
  }

  lemma AbstractStepEvolves(f: File<Queue>, f': File<Queue>)
    requires AbstractStep(f, f')
    ensures Evolves(RowsOf(f), RowsOf(f'))
  {
  }

  /** No lost updates: between any two moments of any honest run, nothing queued disappears,
      no content changes, and no finished action is touched, however long a dispatch took
      and whoever wrote in between. */
  lemma {:induction false} NoLostUpdates(rules: Rules, states: seq<State>, moves: seq<Move>, i: nat, j: nat)
    requires FreshActions(rules) && IsHonestRun(rules, states, moves) && i <= j < |states|
    ensures Evolves(RowsOf(states[i].queue), RowsOf(states[j].queue))
    decreases j - i
  {
    hide After, FreshActions, HonestInvariant, AbstractStep;
    if i < j {
      NoLostUpdates(rules, states, moves, i, j - 1);
      HonestInvariantHolds(rules, states, moves, j - 1);
      EveryStepIsAbstract(rules, states[j - 1], moves[j - 1].pid, moves[j - 1].step, states[j]);
      AbstractStepEvolves(states[j - 1].queue, states[j].queue);
    }
  }
}
