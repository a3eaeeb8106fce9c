/** What every reachable queue looks like when the queue file is written by the protocol
    only: statuses agree with claims and dispatches, and no update is ever lost. */
module QueueInvariant {
  import opened Common
  import opened Authority
  import Builder
  import opened QueueProtocol
  import opened QueueClaims
  import opened QueueTable

  /** Rules whose actions enter the queue fresh, initial ones under different ids. */
  ghost predicate FreshActions(rules: Rules) {
    && (forall op, q, view, receipt :: CandidateIsFresh(rules.candidate(op, q, view, receipt)))
    && (forall op, view, receipt :: InitialAreFresh(rules.initial(op, view, receipt)))
  }

  predicate IsFresh(a: Action) {
    a.status.Proposed? && a.evidence.None?
  }

  predicate CandidateIsFresh(r: Result<Action>) {
    r.Ok? ==> IsFresh(r.value)
  }

  predicate InitialAreFresh(r: Result<seq<Action>>) {
    r.Ok? ==> UniqueIds(r.value) && forall a | a in r.value :: IsFresh(a)
  }

  /** Status against claim file and dispatch log, for one action. */
  predicate RowOk(claims: map<string, ClaimFile>, log: seq<Dispatch>, a: Action) {
    match a.status
    case Proposed =>
      && Dispatches(log, a.id) == 0 && a.evidence.None?
      && (a.id in claims && claims[a.id].Written? ==> VerifyClaim(claims, a).Pass?)
    case Rejected => Dispatches(log, a.id) == 0 && a.id !in claims
    case Running => VerifyClaim(claims, a).Pass?
    case Blocked => VerifyClaim(claims, a).Pass?
    case Completed => VerifyClaim(claims, a).Pass? && Dispatches(log, a.id) == 1
    case Failed => VerifyClaim(claims, a).Pass? && Dispatches(log, a.id) == 1
  }

  ghost predicate QueueOk(s: State) {
    && (s.queue.Missing? || s.queue.Doc?)
    && UniqueIds(RowsOf(s.queue))
    && (forall id :: id in TableOf(s) ==> RowOk(s.claims, s.log, TableOf(s)[id]))
    && (forall id :: Dispatches(s.log, id) > 0 ==> id in TableOf(s))
    && (forall id :: id in s.claims ==> id in TableOf(s))
  }

  predicate HasSnapshot(ph: Phase) {
    ph.Loaded? || ph.Vetted? || ph.Creating? || ph.Claimed? || ph.Leased? || ph.Started? || ph.Refused?
    || ph.FinLoaded? || ph.Unclaimed? || ph.Examined? || ph.Seized?
  }

  /** The action in the queue under this id has this status. */
  predicate StatusIs(s: State, id: string, status: Status) {
    id in TableOf(s) && TableOf(s)[id].status == status
  }

  /** The queue still shows the very action this process is running. */
  predicate Shows(s: State, ph: Phase)
    requires ph.Ready? || ph.Launch? || ph.Dispatching? || ph.Returned? || ph.FinLocked? || ph.FinLoaded?
  {
    && IdOf(ph) in TableOf(s) && TableOf(s)[IdOf(ph)] == ph.act && ph.act.status.Running?
  }

  /** A process's memory agrees with the queue on disk. */
  predicate Consistent(s: State, p: Pid, ph: Phase) {
    && (HasSnapshot(ph) ==> LoadQueue(s.queue) == Ok(ph.snap))
    && (ph.Vetted? || ph.Creating? || ph.Claimed? || ph.Leased? || ph.Unclaimed? ==> StatusIs(s, IdOf(ph), Proposed))
    && (ph.Claimed? || ph.Leased? ==> VerifyClaim(s.claims, TableOf(s)[IdOf(ph)]).Pass?)
    && (ph.Unclaimed? ==> IdOf(ph) !in s.claims)
    && (ph.Started? || ph.Refused? ==> StatusIs(s, IdOf(ph), Running))
    && (ph.Ready? || ph.Launch? || ph.Dispatching? || ph.Returned? || ph.FinLocked? || ph.FinLoaded? ==> Shows(s, ph))
    && (ph.FinWritten? || ph.FinUnlocked? ==> StatusIs(s, IdOf(ph), Completed) || StatusIs(s, IdOf(ph), Failed))
    && (ph.Examined? || ph.Seized? ==>
          && (StatusIs(s, IdOf(ph), Proposed) || StatusIs(s, IdOf(ph), Running))
          && VerifyClaim(s.claims, TableOf(s)[IdOf(ph)]).Pass?)
  }

  /** What a step of `p` may do to the table: add ids, or change an action that is proposed or
      that `p` itself holds the lease of; and only while `p` has the queue lock. */
  ghost predicate TableRely(s: State, s': State, p: Pid) {
    || s'.queue == s.queue
    || (&& s.lock == Some(p)
        && (forall id :: id in TableOf(s) ==>
              && id in TableOf(s')
              && (TableOf(s')[id] == TableOf(s)[id] || TableOf(s)[id].status.Proposed? || (id in s.leases && s.leases[id] == p))))
  }

  lemma VerifiedStays(s: State, s': State, mover: Pid, a: Action)
    requires Rely(s, s', mover) && VerifyClaim(s.claims, a).Pass?
    ensures VerifyClaim(s'.claims, a).Pass?
  {
  }

  /** Nobody can pull the queue out from under another process. */
  lemma ConsistencyIsStable(s: State, s': State, p: Pid, q: Pid)
    requires p != q && Rely(s, s', p) && TableRely(s, s', p)
    requires Safe(s, q, PhaseOf(s, q)) && Consistent(s, q, PhaseOf(s, q))
    ensures Consistent(s', q, PhaseOf(s', q))
  {
    hide VerifyClaim, Table, LoadQueue;
    var ph := PhaseOf(s, q);
    if ph.Claimed? || ph.Leased? || ph.Examined? || ph.Seized? {
      VerifiedStays(s, s', p, TableOf(s)[IdOf(ph)]);
    }
  }

  // ---------------------------------------------------------------- steps that leave the queue alone

  lemma RowIsTable(s: State, snap: Queue, id: string)
    requires LoadQueue(s.queue) == Ok(snap)
    ensures Row(snap, id).Ok? <==> id in TableOf(s)
    ensures Row(snap, id).Ok? ==> Row(snap, id).value == TableOf(s)[id] && TableOf(s)[id].id == id
  {
    hide Table;
    TableIsFind(snap.actions, id);
  }

  lemma SameTable(s: State, s': State)
    requires s'.queue == s.queue
    ensures TableOf(s') == TableOf(s)
  {
  }

  lemma LockStepConsistent(s: State, p: Pid, step: Step, s': State)
    requires Consistent(s, p, PhaseOf(s, p)) && LockStep(s, p, step, s')
    ensures s'.queue == s.queue && Consistent(s', p, PhaseOf(s', p))
  {
    hide VerifyClaim, TableOf, LoadQueue;
    SameTable(s, s');
  }

  lemma ChecksAreConsistent(rules: Rules, s: State, p: Pid, step: Step, s': State)
    requires Safe(s, p, PhaseOf(s, p)) && Consistent(s, p, PhaseOf(s, p)) && QuietStep(rules, s, p, step, s')
    requires step.Vet? || step.SeeNoClaim? || step.Examine?
    ensures s'.queue == s.queue && Consistent(s', p, PhaseOf(s', p))
  {
    hide VerifyClaim, TableOf, Row, LoadQueue, ClaimsApproval, Authored, Dispatches, Builder.RecoveryPhrase;
    var ph := PhaseOf(s, p);
    SameTable(s, s');
    RowIsTable(s, ph.snap, IdOf(ph));
  }

  lemma QuietStepConsistent(rules: Rules, s: State, p: Pid, step: Step, s': State)
    requires Safe(s, p, PhaseOf(s, p)) && Consistent(s, p, PhaseOf(s, p)) && QuietStep(rules, s, p, step, s')
    ensures s'.queue == s.queue && Consistent(s', p, PhaseOf(s', p))
  {
    hide VerifyClaim, TableOf, Row, LoadQueue, ClaimsApproval, Authored, Dispatches, Builder.RecoveryPhrase;
    if step.Vet? || step.SeeNoClaim? || step.Examine? {
      ChecksAreConsistent(rules, s, p, step, s');
    } else {
      var ph := PhaseOf(s, p);
      SameTable(s, s');
      if ph.Started? { RowIsTable(s, ph.snap, IdOf(ph)); }
    }
  }

  lemma LeaseStepConsistent(s: State, p: Pid, step: Step, s': State)
    requires Safe(s, p, PhaseOf(s, p)) && Consistent(s, p, PhaseOf(s, p)) && LeaseStep(s, p, step, s')
    ensures s'.queue == s.queue && s'.claims == s.claims && s'.log == s.log && Consistent(s', p, PhaseOf(s', p))
  {
    hide VerifyClaim, Table, Row, LoadQueue;
  }

  lemma CrashConsistent(s: State, p: Pid, s': State)
    requires DoCrash(s, p) == Some(s')
    ensures s'.queue == s.queue && s'.claims == s.claims && s'.log == s.log && Consistent(s', p, PhaseOf(s', p))
  {
  }

  /** An action's row depends only on its own claim file and its own dispatches. */
  lemma RowOkElsewhere(s: State, s': State, a: Action)
    requires RowOk(s.claims, s.log, a)
    requires a.id in s'.claims <==> a.id in s.claims
    requires a.id in s.claims ==> s'.claims[a.id] == s.claims[a.id]
    requires Dispatches(s'.log, a.id) == Dispatches(s.log, a.id)
    ensures RowOk(s'.claims, s'.log, a)
  {
    hide Dispatches;
  }

  lemma QueueOkUnchanged(s: State, s': State)
    requires QueueOk(s) && s'.queue == s.queue && s'.claims == s.claims && s'.log == s.log
    ensures QueueOk(s')
  {
    hide RowOk, Table, Dispatches;
    assert TableOf(s') == TableOf(s);
  }

  // ---------------------------------------------------------------- claims and dispatches

  /** A change confined to one id's claim file or dispatches leaves the queue well-formed as
      soon as that id's own row still is. */
  lemma QueueOkAround(s: State, s': State, changed: string)
    requires QueueOk(s) && s'.queue == s.queue && changed in TableOf(s)
    requires forall id :: id != changed ==>
      && (id in s'.claims <==> id in s.claims) && (id in s.claims ==> s'.claims[id] == s.claims[id])
      && Dispatches(s'.log, id) == Dispatches(s.log, id)
    requires RowOk(s'.claims, s'.log, TableOf(s)[changed])
    ensures QueueOk(s')
  {
    hide RowOk, Table, Dispatches;
    assert TableOf(s') == TableOf(s);
    forall id | id in TableOf(s') ensures RowOk(s'.claims, s'.log, TableOf(s')[id]) {
      TableKeysAreIds(RowsOf(s.queue), id);
      if id != changed { RowOkElsewhere(s, s', TableOf(s)[id]); }
    }
  }

  lemma CreateConsistent(s: State, p: Pid, s': State)
    requires Safe(s, p, PhaseOf(s, p)) && Consistent(s, p, PhaseOf(s, p)) && QueueOk(s) && DoCreateClaim(s, p) == Some(s')
    ensures s'.queue == s.queue && Consistent(s', p, PhaseOf(s', p)) && QueueOk(s')
  {
    hide Table, LoadQueue, Dispatches, VerifyClaim;
    var id := IdOf(PhaseOf(s, p));
    TableKeysAreIds(RowsOf(s.queue), id);
    assert RowOk(s.claims, s.log, TableOf(s)[id]);
    QueueOkAround(s, s', id);
  }

  lemma WrittenClaimVerifies(claims: map<string, ClaimFile>, p: Pid, op: Op, a: Action)
    requires op.Approve? && a.evidence.None? && a.id in claims && claims[a.id] == Written(p, ClaimFor(op, a))
    ensures VerifyClaim(claims, a).Pass?
  {
  }

  lemma WriteVerifies(s: State, p: Pid, s': State)
    requires Safe(s, p, PhaseOf(s, p)) && Consistent(s, p, PhaseOf(s, p)) && QueueOk(s) && DoWriteClaim(s, p) == Some(s')
    ensures
      var ph := PhaseOf(s, p);
      && IdOf(ph) in TableOf(s) && VerifyClaim(s'.claims, TableOf(s)[IdOf(ph)]).Pass?
      && RowOk(s'.claims, s'.log, TableOf(s)[IdOf(ph)])
  {
    hide TableOf, LoadQueue, Dispatches, Row, VerifyClaim;
    var ph := PhaseOf(s, p);
    RowIsTable(s, ph.snap, IdOf(ph));
    var a := TableOf(s)[IdOf(ph)];
    assert RowOk(s.claims, s.log, a);
    WrittenClaimVerifies(s'.claims, p, ph.op, a);
  }

  lemma WriteConsistent(s: State, p: Pid, s': State)
    requires Safe(s, p, PhaseOf(s, p)) && Consistent(s, p, PhaseOf(s, p)) && QueueOk(s) && DoWriteClaim(s, p) == Some(s')
    ensures s'.queue == s.queue && Consistent(s', p, PhaseOf(s', p)) && QueueOk(s')
  {
    hide TableOf, LoadQueue, Dispatches, Row, VerifyClaim, QueueOk, RowOk;
    WriteVerifies(s, p, s');
    SameTable(s, s');
    QueueOkAround(s, s', IdOf(PhaseOf(s, p)));
  }

  lemma DispatchConsistent(s: State, p: Pid, s': State)
    requires Safe(s, p, PhaseOf(s, p)) && Consistent(s, p, PhaseOf(s, p)) && QueueOk(s) && DoDispatch(s, p) == Some(s')
    ensures s'.queue == s.queue && Consistent(s', p, PhaseOf(s', p)) && QueueOk(s')
  {
    hide Table, LoadQueue, VerifyClaim, Dispatches;
    var ph := PhaseOf(s, p);
    forall id | id != IdOf(ph) ensures Dispatches(s'.log, id) == Dispatches(s.log, id) {
      DispatchesAppend(s.log, Dispatch(p, ph.act, ph.basis), id);
    }
    assert RowOk(s.claims, s.log, TableOf(s)[IdOf(ph)]);
    QueueOkAround(s, s', IdOf(ph));
  }

  // ---------------------------------------------------------------- queue writes

  /** A write from an up-to-date snapshot changes one table entry and nothing else. */
  lemma SavedRow(s: State, s': State, snap: Queue, id: string, a: Action)
    requires QueueOk(s) && LoadQueue(s.queue) == Ok(snap) && Row(snap, id).Ok? && a.id == id
    requires s'.queue == Doc(WithRow(snap, id, a))
    ensures id in TableOf(s) && TableOf(s') == TableOf(s)[id := a] && UniqueIds(RowsOf(s'.queue))
  {
    hide Table, RowOk, Dispatches;
    TableIsFind(snap.actions, id);
    TableUpdate(snap.actions, id, a);
    UpdateKeepsUnique(snap.actions, Find(snap.actions, id).value, a);
  }

  lemma QueueOkSaved(s: State, s': State, id: string, a: Action)
    requires QueueOk(s) && TableOf(s') == TableOf(s)[id := a] && UniqueIds(RowsOf(s'.queue)) && s'.queue.Doc?
    requires s'.claims == s.claims && s'.log == s.log && RowOk(s.claims, s.log, a)
    ensures QueueOk(s')
  {
    hide Table, RowOk, Dispatches, TableOf;
  }

  /** The saved row is one the writer may change, so the others keep theirs. */
  lemma TableRelySaved(s: State, s': State, p: Pid, id: string, a: Action)
    requires s.lock == Some(p) && TableOf(s') == TableOf(s)[id := a]
    requires id in TableOf(s) ==> TableOf(s)[id].status.Proposed? || (id in s.leases && s.leases[id] == p)
    ensures TableRely(s, s', p)
  {
    hide TableOf;
  }

  lemma EvidenceVerifies(claims: map<string, ClaimFile>, op: Op, a: Action, next: Status, report: Option<Report>)
    requires VerifyClaim(claims, a).Pass? && ClaimsApproval(claims[a.id], op)
    ensures VerifyClaim(claims, a.(status := next, evidence := Some(Approval(op, a.argumentsHash, report)))).Pass?
  {
  }

  lemma StatusIsNotClaimed(claims: map<string, ClaimFile>, a: Action, next: Status)
    requires VerifyClaim(claims, a).Pass?
    ensures VerifyClaim(claims, a.(status := next)).Pass?
  {
  }

  /** The step writes one action back from an up-to-date snapshot: `a` becomes `b`. */
  predicate Saves(s: State, p: Pid, s': State, id: string, a: Action, b: Action) {
    && s.lock == Some(p) && s'.claims == s.claims && s'.log == s.log
    && HasSnapshot(PhaseOf(s, p)) && LoadQueue(s.queue) == Ok(PhaseOf(s, p).snap)
    && Row(PhaseOf(s, p).snap, id) == Ok(a) && b.id == id
    && s'.queue == Doc(WithRow(PhaseOf(s, p).snap, id, b))
    && (a.status.Proposed? || (id in s.leases && s.leases[id] == p))
  }

  lemma SaveIsOk(s: State, p: Pid, s': State, id: string, a: Action, b: Action)
    requires QueueOk(s) && Saves(s, p, s', id, a, b) && RowOk(s.claims, s.log, b)
    ensures id in TableOf(s) && TableOf(s)[id] == a && TableOf(s') == TableOf(s)[id := b]
    ensures TableRely(s, s', p) && QueueOk(s')
  {
    hide Table, RowOk, Dispatches, Row, WithRow, TableOf, TableRely, QueueOk;
    var snap := PhaseOf(s, p).snap;
    RowIsTable(s, snap, id);
    SavedRow(s, s', snap, id, b);
    QueueOkSaved(s, s', id, b);
    TableRelySaved(s, s', p, id, b);
  }

  /** What a step must establish so that its queue write keeps the whole invariant. */
  ghost predicate GoodSave(s: State, p: Pid, s': State) {
    TableRely(s, s', p) && Consistent(s', p, PhaseOf(s', p)) && QueueOk(s')
  }

  lemma StartSaves(s: State, p: Pid, s': State)
    requires Safe(s, p, PhaseOf(s, p)) && Consistent(s, p, PhaseOf(s, p)) && DoStart(s, p) == Some(s')
    ensures
      var ph := PhaseOf(s, p);
      var id := IdOf(ph);
      && id in TableOf(s)
      && var a := TableOf(s)[id];
         var b := a.(status := Running, evidence := Some(Approval(ph.op, a.argumentsHash, None)));
      && Saves(s, p, s', id, a, b) && RowOk(s.claims, s.log, b)
      && LoadQueue(s'.queue).Ok? && PhaseOf(s', p) == Started(ph.op, LoadQueue(s'.queue).value)
  {
    hide Table, VerifyClaim, Dispatches, Row, WithRow, TableOf;
    var ph := PhaseOf(s, p);
    RowIsTable(s, ph.snap, IdOf(ph));
    EvidenceVerifies(s.claims, ph.op, TableOf(s)[IdOf(ph)], Running, None);
  }

  lemma StartIsGood(s: State, p: Pid, s': State)
    requires Safe(s, p, PhaseOf(s, p)) && Consistent(s, p, PhaseOf(s, p)) && QueueOk(s) && DoStart(s, p) == Some(s')
    ensures GoodSave(s, p, s')
  {
    hide StartedQueue, Safe, QueueOk, TableOf, TableRely, RowOk, Saves;
    StartSaves(s, p, s');
    var ph := PhaseOf(s, p);
    var a := TableOf(s)[IdOf(ph)];
    SaveIsOk(s, p, s', IdOf(ph), a, a.(status := Running, evidence := Some(Approval(ph.op, a.argumentsHash, None))));
  }

  function Ending(ph: Phase): Action
    requires ph.FinLoaded? && ph.op.Approve?
  {
    var hash := ph.act.argumentsHash;
    match ph.outcome
    case Returns(report) => ph.act.(status := Completed, evidence := Some(Approval(ph.op, hash, Some(report))))
    case Raises => ph.act.(status := Failed, evidence := Some(Approval(ph.op, hash, None)))
  }

  /** The final move never fails: whatever happened during the dispatch, the reloaded queue
      still shows the running action, and the claim still covers it. */
  lemma FinishCannotFail(s: State, p: Pid)
    requires Safe(s, p, PhaseOf(s, p)) && Consistent(s, p, PhaseOf(s, p)) && QueueOk(s) && PhaseOf(s, p).FinLoaded?
    ensures DoFinish(s, p).Some?
    ensures
      var ph, s' := PhaseOf(s, p), DoFinish(s, p).value;
      && Saves(s, p, s', IdOf(ph), ph.act, Ending(ph)) && RowOk(s.claims, s.log, Ending(ph))
      && PhaseOf(s', p) == FinWritten(ph.op, ph.act)
  {
    hide Table, VerifyClaim, Dispatches, Row, WithRow, LoadQueue;
    var ph := PhaseOf(s, p);
    RowIsTable(s, ph.snap, IdOf(ph));
    assert RowOk(s.claims, s.log, TableOf(s)[IdOf(ph)]);
    if ph.outcome.Returns? {
      EvidenceVerifies(s.claims, ph.op, ph.act, Completed, Some(ph.outcome.report));
    } else {
      EvidenceVerifies(s.claims, ph.op, ph.act, Failed, None);
    }
  }

  lemma FinishIsGood(s: State, p: Pid, s': State)
    requires Safe(s, p, PhaseOf(s, p)) && Consistent(s, p, PhaseOf(s, p)) && QueueOk(s) && DoFinish(s, p) == Some(s')
    ensures GoodSave(s, p, s')
  {
    hide Safe, QueueOk, TableOf, TableRely, RowOk, Saves, FinishedQueue;
    FinishCannotFail(s, p);
    SaveIsOk(s, p, s', IdOf(PhaseOf(s, p)), PhaseOf(s, p).act, Ending(PhaseOf(s, p)));
  }

  lemma RejectSaves(rules: Rules, s: State, p: Pid, view: View, s': State)
    requires Safe(s, p, PhaseOf(s, p)) && Consistent(s, p, PhaseOf(s, p)) && QueueOk(s)
    requires DoCommitReject(rules, s, p, view) == Some(s')
    ensures
      var ph := PhaseOf(s, p);
      var id := IdOf(ph);
      && id in TableOf(s) && Saves(s, p, s', id, TableOf(s)[id], TableOf(s)[id].(status := Rejected))
      && RowOk(s.claims, s.log, TableOf(s)[id].(status := Rejected)) && PhaseOf(s', p) == Saved(ph.op)
  {
    hide Table, VerifyClaim, Dispatches, Row, WithRow, LoadQueue;
    var ph := PhaseOf(s, p);
    RowIsTable(s, ph.snap, IdOf(ph));
    assert RowOk(s.claims, s.log, TableOf(s)[IdOf(ph)]);
  }

  lemma RejectIsGood(rules: Rules, s: State, p: Pid, view: View, s': State)
    requires Safe(s, p, PhaseOf(s, p)) && Consistent(s, p, PhaseOf(s, p)) && QueueOk(s)
    requires DoCommitReject(rules, s, p, view) == Some(s')
    ensures GoodSave(s, p, s')
  {
    hide DoCommitReject, Safe, QueueOk, TableOf, TableRely, RowOk, Saves;
    RejectSaves(rules, s, p, view, s');
    var id := IdOf(PhaseOf(s, p));
    SaveIsOk(s, p, s', id, TableOf(s)[id], TableOf(s)[id].(status := Rejected));
  }

  lemma BlockSaves(rules: Rules, s: State, p: Pid, step: Step, s': State)
    requires Safe(s, p, PhaseOf(s, p)) && Consistent(s, p, PhaseOf(s, p)) && BlockStep(rules, s, p, step, s')
    ensures
      var ph := PhaseOf(s, p);
      var id := IdOf(ph);
      && id in TableOf(s) && Saves(s, p, s', id, TableOf(s)[id], TableOf(s)[id].(status := Blocked))
      && RowOk(s.claims, s.log, TableOf(s)[id].(status := Blocked)) && PhaseOf(s', p) == Saved(ph.op)
  {
    hide Table, VerifyClaim, Dispatches, Row, WithRow, LoadQueue;
    var ph := PhaseOf(s, p);
    RowIsTable(s, ph.snap, IdOf(ph));
    StatusIsNotClaimed(s.claims, TableOf(s)[IdOf(ph)], Blocked);
  }

  lemma BlockIsGood(rules: Rules, s: State, p: Pid, step: Step, s': State)
    requires Safe(s, p, PhaseOf(s, p)) && Consistent(s, p, PhaseOf(s, p)) && QueueOk(s) && BlockStep(rules, s, p, step, s')
    ensures GoodSave(s, p, s')
  {
    hide BlockStep, Safe, QueueOk, TableOf, TableRely, RowOk, Saves;
    BlockSaves(rules, s, p, step, s');
    var id := IdOf(PhaseOf(s, p));
    SaveIsOk(s, p, s', id, TableOf(s)[id], TableOf(s)[id].(status := Blocked));
  }

  lemma AppendIsGood(rules: Rules, s: State, p: Pid, view: View, s': State)
    requires FreshActions(rules) && Safe(s, p, PhaseOf(s, p)) && Consistent(s, p, PhaseOf(s, p)) && QueueOk(s)
    requires DoCommitAppend(rules, s, p, view) == Some(s')
    ensures GoodSave(s, p, s')
  {
    hide Table, VerifyClaim, Dispatches, QueueOk, TableRely;
    var ph := PhaseOf(s, p);
    var a := rules.candidate(ph.op, ph.snap, view, s.receipt).value;
    assert CandidateIsFresh(rules.candidate(ph.op, ph.snap, view, s.receipt));
    TableIsFind(ph.snap.actions, a.id);
    TableAppend(ph.snap.actions, a);
    NewIdIsUndispatched(s, a.id);
    AppendedIsUnique(s, ph.snap, a);
    QueueOkSaved(s, s', a.id, a);
    TableRelySaved(s, s', p, a.id, a);
  }

  lemma NewIdIsUndispatched(s: State, id: string)
    requires QueueOk(s) && id !in TableOf(s)
    ensures Dispatches(s.log, id) == 0 && id !in s.claims
  {
  }

  lemma AppendedIsUnique(s: State, snap: Queue, a: Action)
    requires QueueOk(s) && LoadQueue(s.queue) == Ok(snap) && Find(snap.actions, a.id).None?
    ensures UniqueIds(snap.actions + [a])
  {
    AppendKeepsUnique(snap.actions, a);
  }

  lemma InitializeIsGood(rules: Rules, s: State, p: Pid, view: View, s': State)
    requires FreshActions(rules) && Safe(s, p, PhaseOf(s, p)) && QueueOk(s)
    requires DoCommitInitialize(rules, s, p, view) == Some(s')
    ensures GoodSave(s, p, s')
  {
    hide VerifyClaim, Dispatches, Find;
    var ph := PhaseOf(s, p);
    assert InitialAreFresh(rules.initial(ph.op, view, s.receipt));
    forall id | id in TableOf(s') ensures RowOk(s'.claims, s'.log, TableOf(s')[id]) {
      TableKeysAreIds(RowsOf(s'.queue), id);
      NewIdIsUndispatched(s, id);
    }
  }

  // ---------------------------------------------------------------- whole honest runs

  ghost predicate HonestInvariant(s: State) {
    ClaimsInvariant(s) && QueueOk(s) && forall p :: Consistent(s, p, PhaseOf(s, p))
  }

  lemma SaveStepIsConsistent(rules: Rules, s: State, p: Pid, step: Step, s': State)
    requires FreshActions(rules) && Safe(s, p, PhaseOf(s, p)) && Consistent(s, p, PhaseOf(s, p)) && QueueOk(s)
    requires SaveStep(rules, s, p, step, s')
    ensures GoodSave(s, p, s')
  {
    hide DoStart, DoFinish, DoCommitReject, DoCommitAppend, DoCommitInitialize, Safe, Consistent, QueueOk, GoodSave, FreshActions;
    match step
    case Start => StartIsGood(s, p, s');
    case Finish => FinishIsGood(s, p, s');
    case CommitReject(view) => RejectIsGood(rules, s, p, view, s');
    case CommitAppend(view) => AppendIsGood(rules, s, p, view, s');
    case CommitInitialize(view) => InitializeIsGood(rules, s, p, view, s');
    case _ =>
  }

  lemma OutsideStepConsistent(s: State, p: Pid, step: Step, s': State)
    requires Consistent(s, p, PhaseOf(s, p)) && OutsideStep(s, step, s') && !step.EditQueue?
    ensures s'.queue == s.queue && s'.claims == s.claims && s'.log == s.log && Consistent(s', p, PhaseOf(s', p))
  {
    hide VerifyClaim, Table, LoadQueue;
  }

  lemma MoverStaysConsistent(rules: Rules, s: State, p: Pid, step: Step, s': State)
    requires FreshActions(rules) && Safe(s, p, PhaseOf(s, p)) && Consistent(s, p, PhaseOf(s, p)) && QueueOk(s)
    requires After(rules, s, p, step) == Some(s') && !step.EditQueue?
    ensures GoodSave(s, p, s')
  {
    hide LockStep, QuietStep, SaveStep, LeaseStep, BlockStep, OutsideStep, After, DoCrash, DoCreateClaim, DoWriteClaim,
      DoDispatch, Safe, Consistent, QueueOk, FreshActions, Rely;
    StepsAreGrouped(rules, s, p, step, s');
    if SaveStep(rules, s, p, step, s') {
      SaveStepIsConsistent(rules, s, p, step, s');
    } else if BlockStep(rules, s, p, step, s') {
      BlockIsGood(rules, s, p, step, s');
    } else if step.CreateClaim? && DoCreateClaim(s, p) == Some(s') {
      CreateConsistent(s, p, s');
    } else if step.WriteClaim? && DoWriteClaim(s, p) == Some(s') {
      WriteConsistent(s, p, s');
    } else if step.CallDispatch? && DoDispatch(s, p) == Some(s') {
      DispatchConsistent(s, p, s');
    } else {
      if LockStep(s, p, step, s') {
        LockStepConsistent(s, p, step, s');
        LockStepIsSeen(s, p, step, s');
      } else if QuietStep(rules, s, p, step, s') {
        QuietStepConsistent(rules, s, p, step, s');
        QuietStepIsSeen(rules, s, p, step, s');
      } else if LeaseStep(s, p, step, s') {
        LeaseStepConsistent(s, p, step, s');
      } else if step.Crash? && DoCrash(s, p) == Some(s') {
        CrashConsistent(s, p, s');
      } else {
        OutsideStepConsistent(s, p, step, s');
      }
      QueueOkUnchanged(s, s');
    }
  }

  lemma HonestInvariantStep(rules: Rules, s: State, p: Pid, step: Step, s': State)
    requires FreshActions(rules) && HonestInvariant(s) && After(rules, s, p, step) == Some(s') && !step.EditQueue?
    ensures HonestInvariant(s')
  {
    hide After, Safe, Ledger, Rely, TableRely, Consistent, QueueOk, FreshActions;
    ClaimsInvariantStep(rules, s, p, step, s');
    EveryMoveIsGood(rules, s, p, step, s');
    MoverStaysConsistent(rules, s, p, step, s');
    forall q ensures Consistent(s', q, PhaseOf(s', q)) {
      if q != p { ConsistencyIsStable(s, s', p, q); }
    }
  }

  lemma {:induction false} HonestInvariantHolds(rules: Rules, states: seq<State>, moves: seq<Move>, i: nat)
    requires FreshActions(rules) && IsHonestRun(rules, states, moves) && i < |states|
    ensures HonestInvariant(states[i])
  {
    hide After, FreshActions;
    if i > 0 {
      HonestInvariantHolds(rules, states, moves, i - 1);
      HonestInvariantStep(rules, states[i - 1], moves[i - 1].pid, moves[i - 1].step, states[i]);
    }
  }
}
