/** The straight-line calls of a session and the protocol of many processes agree: whatever a
    call does to the files, including being cut short, is what some steps of its process do. */
module QueueSequential {
  import opened Common
  import opened Registry
  import opened Authority
  import opened Builder
  import opened QueueProtocol
  import opened QueueTable
  import opened QueueRules
  import S = Session
  import T = SessionTheorems

  /** The state after one process has taken these steps with nobody in between. */
  function Replay(rules: Rules, s: State, p: Pid, steps: seq<Step>): Option<State>
    decreases |steps|
  {
    if steps == [] then Some(s)
    else
      var next := After(rules, s, p, steps[0]);
      if next.None? then None else Replay(rules, next.value, p, steps[1..])
  }

  lemma {:induction false} ReplayConcat(rules: Rules, s: State, p: Pid, xs: seq<Step>, ys: seq<Step>)
    requires Replay(rules, s, p, xs).Some?
    ensures Replay(rules, s, p, xs + ys) == Replay(rules, Replay(rules, s, p, xs).value, p, ys)
    decreases |xs|
  {
    hide After;
    if xs == [] {
      assert xs + ys == ys;
    } else {
      assert (xs + ys)[1..] == xs[1..] + ys;
      ReplayConcat(rules, After(rules, s, p, xs[0]).value, p, xs[1..], ys);
    }
  }

  predicate NoEdits(steps: seq<Step>) {
    forall i :: 0 <= i < |steps| ==> !steps[i].EditQueue?
  }

  /** The session's process gets from s to s' by steps of its own. */
  ghost predicate Reaches(rules: Rules, s: State, s': State) {
    exists steps :: NoEdits(steps) && Replay(rules, s, S.me, steps) == Some(s')
  }

  lemma ReachesItself(rules: Rules, s: State)
    ensures Reaches(rules, s, s)
  {
    assert NoEdits([]) && Replay(rules, s, S.me, []) == Some(s);
  }

  lemma ReachesBoth(rules: Rules, s: State, t: State, u: State)
    requires Reaches(rules, s, t) && Reaches(rules, t, u)
    ensures Reaches(rules, s, u)
  {
    hide Replay;
    var xs :| NoEdits(xs) && Replay(rules, s, S.me, xs) == Some(t);
    var ys :| NoEdits(ys) && Replay(rules, t, S.me, ys) == Some(u);
    ReplayConcat(rules, s, S.me, xs, ys);
    assert NoEdits(xs + ys);
  }

  lemma ReachesNext(rules: Rules, s: State, t: State, step: Step, u: State)
    requires Reaches(rules, s, t) && After(rules, t, S.me, step) == Some(u) && !step.EditQueue?
    ensures Reaches(rules, s, u)
  {
    hide After;
    assert Replay(rules, t, S.me, [step]) == Some(u) by { assert [step][1..] == []; }
    hide Replay;
    assert NoEdits([step]);
    ReachesBoth(rules, s, t, u);
  }

  // ---------------------------------------------------------------- single steps

  /** The state of the process, its lock and its lease; everything else as in s. */
  function At(s: State, phase: Phase, locked: bool, leased: Option<string>): State {
    s.(procs := s.procs[S.me := phase], lock := if locked then Some(S.me) else None,
       leases := if leased.Some? then s.leases[leased.value := S.me] else s.leases)
  }

  lemma AtPut(s: State, phase: Phase, locked: bool, leased: Option<string>, next: Phase)
    ensures PhaseOf(At(s, phase, locked, leased), S.me) == phase
    ensures Put(At(s, phase, locked, leased), S.me, next) == At(s, next, locked, leased)
  {
    assert s.procs[S.me := phase][S.me := next] == s.procs[S.me := next];
  }

  /** Nobody holds the queue lock, and the session's process is idle and holds no lease. */
  predicate Free(s: State) {
    s.lock.None? && PhaseOf(s, S.me).Idle? && forall id | id in s.leases :: s.leases[id] != S.me
  }

  lemma BeginStep(rules: Rules, s: State, op: Op)
    requires Free(s)
    ensures After(rules, s, S.me, Begin(op)) == Some(At(s, Locked(op), true, None))
  {
  }

  lemma CrashStep(rules: Rules, s: State, phase: Phase, locked: bool, leased: Option<string>)
    requires Free(s) && !phase.Idle? && (leased.Some? ==> leased.value !in s.leases)
    ensures After(rules, At(s, phase, locked, leased), S.me, Crash) == Some(At(s, Idle, false, None))
  {
    AtPut(s, phase, locked, leased, Idle);
    assert WithoutLeases(At(s, phase, locked, leased).leases, S.me) == s.leases;
  }

  lemma LoadStep(rules: Rules, s: State, op: Op, q: Queue)
    requires LoadQueue(s.queue) == Ok(q)
    ensures After(rules, At(s, Locked(op), true, None), S.me, Load) == Some(At(s, Loaded(op, q), true, None))
  {
    hide LoadQueue;
    AtPut(s, Locked(op), true, None, Loaded(op, q));
  }

  lemma VetStep(rules: Rules, s: State, op: Op, q: Queue, a: Action, view: View)
    requires op.Approve? && Row(q, op.id) == Ok(a) && rules.check(a, Restore, view, s.receipt)
    requires a.status.Proposed? && op.phrase == a.approvalPhrase && op.approver != ""
    ensures After(rules, At(s, Loaded(op, q), true, None), S.me, Vet(view)) == Some(At(s, Vetted(op, q), true, None))
  {
    hide Row;
    AtPut(s, Loaded(op, q), true, None, Vetted(op, q));
  }

  function WithClaim(s: State, id: string, file: ClaimFile): State {
    s.(claims := s.claims[id := file])
  }

  lemma CreateStep(rules: Rules, s: State, op: Op, q: Queue)
    requires op.Approve? && op.id !in s.claims
    ensures After(rules, At(s, Vetted(op, q), true, None), S.me, CreateClaim)
         == Some(At(WithClaim(s, op.id, Torn(S.me)), Creating(op, q), true, None))
  {
    AtPut(s, Vetted(op, q), true, None, Creating(op, q));
  }

  lemma WriteStep(rules: Rules, s: State, op: Op, q: Queue, a: Action)
    requires op.Approve? && Row(q, op.id) == Ok(a)
    ensures After(rules, At(WithClaim(s, op.id, Torn(S.me)), Creating(op, q), true, None), S.me, WriteClaim)
         == Some(At(WithClaim(s, op.id, Written(S.me, ClaimFor(op, a))), Claimed(op, q), true, None))
  {
    hide Row;
    var torn := WithClaim(s, op.id, Torn(S.me));
    AtPut(torn, Creating(op, q), true, None, Claimed(op, q));
    assert torn.claims[op.id := Written(S.me, ClaimFor(op, a))] == s.claims[op.id := Written(S.me, ClaimFor(op, a))];
  }

  lemma TakeStep(rules: Rules, s: State, op: Op, q: Queue)
    requires op.Approve? && op.id !in s.leases
    ensures After(rules, At(s, Claimed(op, q), true, None), S.me, TakeLease) == Some(At(s, Leased(op, q), true, Some(op.id)))
  {
    AtPut(s, Claimed(op, q), true, None, Leased(op, q));
  }

  lemma StartStep(rules: Rules, s: State, op: Op, q: Queue, a: Action, q': Queue)
    requires op.Approve? && Row(q, op.id) == Ok(a)
    requires Transition(s.claims, q, op.id, Proposed, a.argumentsHash, Running, Approval(op, a.argumentsHash, None)) == Ok(q')
    ensures After(rules, At(s, Leased(op, q), true, Some(op.id)), S.me, Start)
         == Some(At(s.(queue := Doc(q')), Started(op, q'), true, Some(op.id)))
  {
    hide Row, Transition;
    AtPut(s, Leased(op, q), true, Some(op.id), Started(op, q'));
  }

  lemma CheckStep(rules: Rules, s: State, op: Op, q: Queue, act: Action, view: View)
    requires op.Approve? && Row(q, op.id) == Ok(act)
    requires rules.check(act, PreDispatch, view, s.receipt) && VerifyClaim(s.claims, act).Pass?
    requires view.charter.Doc? && view.decision.Doc? && s.receipt.Doc?
    ensures After(rules, At(s, Started(op, q), true, Some(op.id)), S.me, PreDispatchCheck(view))
         == Some(At(s, Ready(op, act, Basis(view.charter.value, view.decision.value)), true, Some(op.id)))
  {
    hide Row, VerifyClaim;
    AtPut(s, Started(op, q), true, Some(op.id), Ready(op, act, Basis(view.charter.value, view.decision.value)));
  }

  lemma BalkStep(rules: Rules, s: State, op: Op, q: Queue, act: Action, view: View)
    requires op.Approve? && Row(q, op.id) == Ok(act)
    requires !(rules.check(act, PreDispatch, view, s.receipt) && VerifyClaim(s.claims, act).Pass?)
    ensures After(rules, At(s, Started(op, q), true, Some(op.id)), S.me, Balk(view))
         == Some(At(s, Refused(op, q), true, Some(op.id)))
  {
    hide Row, VerifyClaim;
    AtPut(s, Started(op, q), true, Some(op.id), Refused(op, q));
  }

  lemma BlockedStep(rules: Rules, s: State, op: Op, q: Queue, act: Action, q': Queue, view: View)
    requires op.Approve? && Row(q, op.id) == Ok(act) && op.id !in s.leases
    requires Block(rules, s.claims, s.receipt, view, q, op.id, Running, act.argumentsHash) == Ok(q')
    ensures After(rules, At(s, Refused(op, q), true, Some(op.id)), S.me, MarkBlocked(view))
         == Some(At(s.(queue := Doc(q')), Saved(op), true, None))
  {
    hide Row, Block;
    AtPut(s, Refused(op, q), true, Some(op.id), Saved(op));
    assert s.leases[op.id := S.me] - {op.id} == s.leases;
  }

  lemma UnlockSaved(rules: Rules, s: State, op: Op)
    ensures After(rules, At(s, Saved(op), true, None), S.me, Unlock) == Some(At(s, Idle, false, None))
  {
    AtPut(s, Saved(op), true, None, Idle);
  }

  lemma UnlockReady(rules: Rules, s: State, op: Op, act: Action, basis: Basis)
    requires op.Approve?
    ensures After(rules, At(s, Ready(op, act, basis), true, Some(op.id)), S.me, Unlock)
         == Some(At(s, Launch(op, act, basis), false, Some(op.id)))
  {
    AtPut(s, Ready(op, act, basis), true, Some(op.id), Launch(op, act, basis));
  }

  lemma DispatchStep(rules: Rules, s: State, op: Op, act: Action, basis: Basis)
    requires op.Approve?
    ensures After(rules, At(s, Launch(op, act, basis), false, Some(op.id)), S.me, CallDispatch)
         == Some(At(s.(log := s.log + [Dispatch(S.me, act, basis)]), Dispatching(op, act), false, Some(op.id)))
  {
    AtPut(s, Launch(op, act, basis), false, Some(op.id), Dispatching(op, act));
  }

  lemma ReturnStep(rules: Rules, s: State, op: Op, act: Action, outcome: Outcome)
    requires op.Approve?
    ensures After(rules, At(s, Dispatching(op, act), false, Some(op.id)), S.me, Return(outcome))
         == Some(At(s, Returned(op, act, outcome), false, Some(op.id)))
  {
    AtPut(s, Dispatching(op, act), false, Some(op.id), Returned(op, act, outcome));
  }

  lemma RelockStep(rules: Rules, s: State, op: Op, act: Action, outcome: Outcome)
    requires op.Approve?
    ensures After(rules, At(s, Returned(op, act, outcome), false, Some(op.id)), S.me, Relock)
         == Some(At(s, FinLocked(op, act, outcome), true, Some(op.id)))
  {
    AtPut(s, Returned(op, act, outcome), false, Some(op.id), FinLocked(op, act, outcome));
  }

  lemma ReloadStep(rules: Rules, s: State, op: Op, act: Action, outcome: Outcome, q: Queue)
    requires op.Approve? && s.queue == Doc(q)
    ensures After(rules, At(s, FinLocked(op, act, outcome), true, Some(op.id)), S.me, Reload)
         == Some(At(s, FinLoaded(op, act, outcome, q), true, Some(op.id)))
  {
    AtPut(s, FinLocked(op, act, outcome), true, Some(op.id), FinLoaded(op, act, outcome, q));
  }

  /** The final mark of an outcome. */
  function Ended(claims: map<string, ClaimFile>, q: Queue, op: Op, act: Action, outcome: Outcome): Result<Queue>
    requires op.Approve?
  {
    var report := if outcome.Returns? then Some(outcome.report) else None;
    Transition(claims, q, op.id, Running, act.argumentsHash, if outcome.Returns? then Completed else Failed,
               Approval(op, act.argumentsHash, report))
  }

  lemma FinishStep(rules: Rules, s: State, op: Op, act: Action, outcome: Outcome, q: Queue, q': Queue)
    requires op.Approve? && Ended(s.claims, q, op, act, outcome) == Ok(q')
    ensures After(rules, At(s, FinLoaded(op, act, outcome, q), true, Some(op.id)), S.me, Finish)
         == Some(At(s.(queue := Doc(q')), FinWritten(op, act), true, Some(op.id)))
  {
    hide Transition;
    AtPut(s, FinLoaded(op, act, outcome, q), true, Some(op.id), FinWritten(op, act));
  }

  lemma UnlockFinished(rules: Rules, s: State, op: Op, act: Action)
    requires op.Approve?
    ensures After(rules, At(s, FinWritten(op, act), true, Some(op.id)), S.me, Unlock)
         == Some(At(s, FinUnlocked(op, act), false, Some(op.id)))
  {
    AtPut(s, FinWritten(op, act), true, Some(op.id), FinUnlocked(op, act));
  }

  lemma ReleaseStep(rules: Rules, s: State, op: Op, act: Action)
    requires op.Approve? && op.id !in s.leases
    ensures After(rules, At(s, FinUnlocked(op, act), false, Some(op.id)), S.me, ReleaseLease) == Some(At(s, Idle, false, None))
  {
    AtPut(s, FinUnlocked(op, act), false, Some(op.id), Idle);
    assert s.leases[op.id := S.me] - {op.id} == s.leases;
  }

  // ---------------------------------------------------------------- a call as a run

  function ActionsOf(log: seq<Dispatch>): seq<Action> {
    seq(|log|, i requires 0 <= i < |log| => log[i].action)
  }

  /** The state shows the files of the desk, and both have seen the same dispatches. */
  predicate Displays(s: State, d: S.Desk) {
    s.queue == d.queue && s.claims == d.claims && s.receipt == d.receipt && ActionsOf(s.log) == d.log
  }

  /** Other than in files and log, x is as s; only its own process moved. */
  predicate Around(s: State, x: State) {
    x == s.(queue := x.queue, claims := x.claims, receipt := x.receipt, log := x.log)
  }

  /** The process is done: idle, without lock and lease, everybody else where they were. */
  ghost predicate Landed(rules: Rules, s: State, x: State, d: S.Desk) {
    Reaches(rules, s, At(x, Idle, false, None)) && Around(s, x) && Displays(x, d)
  }

  lemma CrashLands(rules: Rules, s: State, x: State, d: S.Desk, phase: Phase, locked: bool, leased: Option<string>)
    requires Free(s) && !phase.Idle? && (leased.Some? ==> leased.value !in s.leases) && Around(s, x) && Displays(x, d)
    requires Reaches(rules, s, At(x, phase, locked, leased))
    ensures Landed(rules, s, x, d)
  {
    hide After, Reaches, Displays;
    CrashStep(rules, x, phase, locked, leased);
    hide At;
    ReachesNext(rules, s, At(x, phase, locked, leased), Crash, At(x, Idle, false, None));
  }

  /** From the dispatcher's return to the end of the call. */
  lemma FinishIsARun(rules: Rules, s: State, x: State, op: Op, act: Action, q: Queue, d: S.Desk, w: S.World) returns (x': State)
    requires Free(s) && op.Approve? && op.id !in s.leases && Around(s, x) && Displays(x, d) && x.queue == Doc(q)
    requires Reaches(rules, s, At(x, Dispatching(op, act), false, Some(op.id)))
    ensures Landed(rules, s, x', S.FinishCall(d, q, op, act.argumentsHash, w).0)
  {
    var ended := Ended(x.claims, q, op, act, w.outcome);
    x' := x;
    if ended.Ok? { x' := x.(queue := Doc(ended.value)); }
    assert Displays(x', S.FinishCall(d, q, op, act.argumentsHash, w).0) by { hide Transition; }
    hide After, Reaches, Displays, Ended, S.FinishCall;
    if ended.Err? {
      CrashLands(rules, s, x, d, Dispatching(op, act), false, Some(op.id));
    } else {
      var out, lease := w.outcome, Some(op.id);
      ReturnStep(rules, x, op, act, out);
      RelockStep(rules, x, op, act, out);
      ReloadStep(rules, x, op, act, out, q);
      FinishStep(rules, x, op, act, out, q, ended.value);
      UnlockFinished(rules, x', op, act);
      ReleaseStep(rules, x', op, act);
      hide At;
      ReachesNext(rules, s, At(x, Dispatching(op, act), false, lease), Return(out), At(x, Returned(op, act, out), false, lease));
      ReachesNext(rules, s, At(x, Returned(op, act, out), false, lease), Relock, At(x, FinLocked(op, act, out), true, lease));
      ReachesNext(rules, s, At(x, FinLocked(op, act, out), true, lease), Reload, At(x, FinLoaded(op, act, out, q), true, lease));
      ReachesNext(rules, s, At(x, FinLoaded(op, act, out, q), true, lease), Finish, At(x', FinWritten(op, act), true, lease));
      ReachesNext(rules, s, At(x', FinWritten(op, act), true, lease), Unlock, At(x', FinUnlocked(op, act), false, lease));
      ReachesNext(rules, s, At(x', FinUnlocked(op, act), false, lease), ReleaseLease, At(x', Idle, false, None));
    }
  }

  /** From a refused pre-dispatch check to the end of the call. */
  lemma RefusalIsARun(rules: Rules, s: State, x: State, op: Op, q: Queue, act: Action, d: S.Desk, view: View) returns (x': State)
    requires Free(s) && op.Approve? && op.id !in s.leases && Around(s, x) && Displays(x, d) && Row(q, op.id) == Ok(act)
    requires Reaches(rules, s, At(x, Refused(op, q), true, Some(op.id)))
    ensures
      var blocked := Block(rules, d.claims, d.receipt, view, q, op.id, Running, act.argumentsHash);
      Landed(rules, s, x', if blocked.Ok? then d.(queue := Doc(blocked.value)) else d)
  {
    hide Block, Row;
    var blocked := Block(rules, d.claims, d.receipt, view, q, op.id, Running, act.argumentsHash);
    x' := x;
    if blocked.Ok? { x' := x.(queue := Doc(blocked.value)); }
    hide After, Reaches;
    if blocked.Err? {
      CrashLands(rules, s, x, d, Refused(op, q), true, Some(op.id));
    } else {
      BlockedStep(rules, x, op, q, act, blocked.value, view);
      UnlockSaved(rules, x', op);
      hide At;
      ReachesNext(rules, s, At(x, Refused(op, q), true, Some(op.id)), MarkBlocked(view), At(x', Saved(op), true, None));
      ReachesNext(rules, s, At(x', Saved(op), true, None), Unlock, At(x', Idle, false, None));
    }
  }

  /** From a passed pre-dispatch check to the dispatcher. */
  lemma DispatchIsARun(rules: Rules, s: State, x: State, op: Op, q: Queue, act: Action, view: View) returns (x': State)
    requires op.Approve? && Row(q, op.id) == Ok(act)
    requires rules.check(act, PreDispatch, view, x.receipt) && VerifyClaim(x.claims, act).Pass?
    requires view.charter.Doc? && view.decision.Doc? && x.receipt.Doc?
    requires Reaches(rules, s, At(x, Started(op, q), true, Some(op.id)))
    ensures x' == x.(log := x'.log) && ActionsOf(x'.log) == ActionsOf(x.log) + [act]
    ensures Reaches(rules, s, At(x', Dispatching(op, act), false, Some(op.id)))
  {
    var basis, lease := Basis(view.charter.value, view.decision.value), Some(op.id);
    x' := x.(log := x.log + [Dispatch(S.me, act, basis)]);
    hide After, Reaches, Row, VerifyClaim;
    CheckStep(rules, x, op, q, act, view);
    UnlockReady(rules, x, op, act, basis);
    DispatchStep(rules, x, op, act, basis);
    hide At;
    ReachesNext(rules, s, At(x, Started(op, q), true, lease), PreDispatchCheck(view), At(x, Ready(op, act, basis), true, lease));
    ReachesNext(rules, s, At(x, Ready(op, act, basis), true, lease), Unlock, At(x, Launch(op, act, basis), false, lease));
    ReachesNext(rules, s, At(x, Launch(op, act, basis), false, lease), CallDispatch, At(x', Dispatching(op, act), false, lease));
  }

  /** From the start mark to the end of the call. */
  lemma RunIsARun(cfg: Config, s: State, x: State, op: Op, q: Queue, act: Action, d: S.Desk, w: S.World) returns (x': State)
    requires Free(s) && op.Approve? && op.id !in s.leases && Around(s, x) && Displays(x, d) && x.queue == Doc(q)
    requires Row(q, op.id) == Ok(act) && Reaches(Konoha(cfg), s, At(x, Started(op, q), true, Some(op.id)))
    ensures Landed(Konoha(cfg), s, x', S.RunCall(Konoha(cfg), d, q, act, op, w).0)
  {
    hide After, Reaches, Row, VerifyClaim, Block, S.FinishCall, At, Landed;
    var rules := Konoha(cfg);
    if w.halt.AtPreDispatch? {
      x' := x;
      CrashLands(rules, s, x, d, Started(op, q), true, Some(op.id));
    } else if rules.check(act, PreDispatch, w.preDispatch, d.receipt) && VerifyClaim(d.claims, act).Pass? {
      PassedMeansDocuments(cfg, act, PreDispatch, w.preDispatch, d.receipt);
      hide Konoha;
      var y := DispatchIsARun(rules, s, x, op, q, act, w.preDispatch);
      var d' := d.(log := d.log + [act]);
      if w.halt.AtFinish? {
        x' := y;
        CrashLands(rules, s, y, d', Dispatching(op, act), false, Some(op.id));
      } else {
        x' := FinishIsARun(rules, s, y, op, act, q, d', w);
      }
    } else {
      hide Konoha;
      BalkStep(rules, x, op, q, act, w.preDispatch);
      var lease := Some(op.id);
      ReachesNext(rules, s, At(x, Started(op, q), true, lease), Balk(w.preDispatch), At(x, Refused(op, q), true, lease));
      x' := RefusalIsARun(rules, s, x, op, q, act, d, w.recheck);
    }
  }

  lemma StartIsARun(cfg: Config, s: State, x: State, op: Op, q: Queue, a: Action, d: S.Desk, w: S.World) returns (x': State)
    requires Free(s) && op.Approve? && op.id !in s.leases && Around(s, x) && Displays(x, d) && Row(q, op.id) == Ok(a)
    requires Reaches(Konoha(cfg), s, At(x, Leased(op, q), true, Some(op.id)))
    ensures Landed(Konoha(cfg), s, x', S.StartCall(Konoha(cfg), d, q, a, op, w).0)
  {
    hide After, Reaches, Transition, At, Landed, Konoha, S.RunCall;
    var rules, hash := Konoha(cfg), a.argumentsHash;
    var started := Transition(d.claims, q, op.id, Proposed, hash, Running, Approval(op, hash, None));
    if started.Err? {
      x' := x;
      CrashLands(rules, s, x, d, Leased(op, q), true, Some(op.id));
    } else {
      T.TransitionMoves(d.claims, q, op.id, Proposed, hash, Running, Approval(op, hash, None));
      hide Row;
      var q', d' := started.value, d.(queue := Doc(started.value));
      var y := x.(queue := Doc(q'));
      StartStep(rules, x, op, q, a, q');
      ReachesNext(rules, s, At(x, Leased(op, q), true, Some(op.id)), Start, At(y, Started(op, q'), true, Some(op.id)));
      x' := RunIsARun(cfg, s, y, op, q', Row(q', op.id).value, d', w);
    }
  }

  /** From the queue lock to the vetted action. */
  lemma VettingIsARun(rules: Rules, s: State, op: Op, q: Queue, a: Action, view: View)
    requires Free(s) && op.Approve? && LoadQueue(s.queue) == Ok(q) && Row(q, op.id) == Ok(a)
    requires rules.check(a, Restore, view, s.receipt)
    requires a.status.Proposed? && op.phrase == a.approvalPhrase && op.approver != ""
    ensures Reaches(rules, s, At(s, Vetted(op, q), true, None))
  {
    hide After, Reaches, Row, LoadQueue;
    ReachesItself(rules, s);
    BeginStep(rules, s, op);
    LoadStep(rules, s, op, q);
    VetStep(rules, s, op, q, a, view);
    hide At;
    ReachesNext(rules, s, s, Begin(op), At(s, Locked(op), true, None));
    ReachesNext(rules, s, At(s, Locked(op), true, None), Load, At(s, Loaded(op, q), true, None));
    ReachesNext(rules, s, At(s, Loaded(op, q), true, None), Vet(view), At(s, Vetted(op, q), true, None));
  }

  lemma VettedMeans(rules: Rules, d: S.Desk, op: Op, w: S.World)
    requires op.Approve? && S.VetCall(rules, d, op, w).Ok?
    ensures
      var q, a := LoadQueue(d.queue), S.VetCall(rules, d, op, w).value;
      && q.Ok? && Row(q.value, op.id) == Ok(a) && a.id == op.id && op.id !in d.claims
      && rules.check(a, Restore, w.restore, d.receipt)
      && a.status.Proposed? && op.phrase == a.approvalPhrase && op.approver != ""
  {
  }

  /** Every approval, however it ends, is a run of its process: refused before the claim, cut
      short at any write, refused before the dispatch, failed, or completed. */
  lemma ApprovalIsARun(cfg: Config, s: State, d: S.Desk, op: Op, w: S.World) returns (x: State)
    requires Free(s) && op.Approve? && op.id !in s.leases && Displays(s, d)
    ensures S.VetCall(Konoha(cfg), d, op, w).Err? ==> S.ApproveAndDispatch(Konoha(cfg), d, op, w).0 == d
    ensures S.VetCall(Konoha(cfg), d, op, w).Ok? ==> Landed(Konoha(cfg), s, x, S.ApproveAndDispatch(Konoha(cfg), d, op, w).0)
  {
    hide After, Reaches, At, Landed, Konoha, S.StartCall, S.VetCall, Row, LoadQueue;
    var rules := Konoha(cfg);
    x := s;
    if S.VetCall(rules, d, op, w).Ok? {
      VettedMeans(rules, d, op, w);
      var q, a := LoadQueue(d.queue).value, S.VetCall(rules, d, op, w).value;
      VettingIsARun(rules, s, op, q, a, w.restore);
      CreateStep(rules, s, op, q);
      var torn, held := WithClaim(s, op.id, Torn(S.me)), WithClaim(s, op.id, Written(S.me, ClaimFor(op, a)));
      ReachesNext(rules, s, At(s, Vetted(op, q), true, None), CreateClaim, At(torn, Creating(op, q), true, None));
      if w.halt.AtClaimWrite? {
        x := torn;
        CrashLands(rules, s, torn, d.(claims := torn.claims), Creating(op, q), true, None);
      } else {
        WriteStep(rules, s, op, q, a);
        ReachesNext(rules, s, At(torn, Creating(op, q), true, None), WriteClaim, At(held, Claimed(op, q), true, None));
        var d' := d.(claims := held.claims);
        if w.halt.AtLease? {
          x := held;
          CrashLands(rules, s, held, d', Claimed(op, q), true, None);
        } else {
          TakeStep(rules, held, op, q);
          ReachesNext(rules, s, At(held, Claimed(op, q), true, None), TakeLease, At(held, Leased(op, q), true, Some(op.id)));
          x := StartIsARun(cfg, s, held, op, q, a, d', w);
        }
      }
    }
  }

  // ---------------------------------------------------------------- the other calls

  /** Nobody is inside the protocol. */
  predicate Quiet(s: State) {
    s.lock.None? && s.leases == map[] && PhaseOf(s, S.me).Idle?
  }

  /** From s the session's process reaches a quiet state that shows these files. */
  ghost predicate Simulates(rules: Rules, s: State, d: S.Desk) {
    exists s' :: Reaches(rules, s, s') && Quiet(s') && Displays(s', d)
  }

  lemma LandedSimulates(rules: Rules, s: State, x: State, d: S.Desk)
    requires Quiet(s) && Landed(rules, s, x, d)
    ensures Simulates(rules, s, d)
  {
    hide Reaches;
    assert Quiet(At(x, Idle, false, None)) && Displays(At(x, Idle, false, None), d);
  }

  lemma StandingStill(rules: Rules, s: State, d: S.Desk)
    requires Quiet(s) && Displays(s, d)
    ensures Simulates(rules, s, d)
  {
    hide Reaches, Displays;
    ReachesItself(rules, s);
  }

  lemma ApprovalSimulates(cfg: Config, s: State, d: S.Desk, op: Op, w: S.World)
    requires Quiet(s) && Displays(s, d) && op.Approve?
    ensures Simulates(Konoha(cfg), s, S.ApproveAndDispatch(Konoha(cfg), d, op, w).0)
  {
    hide Reaches, Landed, Konoha, S.ApproveAndDispatch, Simulates;
    var x := ApprovalIsARun(cfg, s, d, op, w);
    if S.VetCall(Konoha(cfg), d, op, w).Ok? {
      LandedSimulates(Konoha(cfg), s, x, S.ApproveAndDispatch(Konoha(cfg), d, op, w).0);
    } else {
      StandingStill(Konoha(cfg), s, d);
    }
  }

  lemma SaveLands(rules: Rules, s: State, x: State, op: Op, d: S.Desk)
    requires Quiet(s) && Around(s, x) && Displays(x, d) && Reaches(rules, s, At(x, Saved(op), true, None))
    ensures Simulates(rules, s, d)
  {
    hide After, Reaches, Displays;
    UnlockSaved(rules, x, op);
    ReachesNext(rules, s, At(x, Saved(op), true, None), Unlock, At(x, Idle, false, None));
    assert Landed(rules, s, x, d);
    hide At;
    LandedSimulates(rules, s, x, d);
  }

  lemma LoadingIsARun(rules: Rules, s: State, op: Op, q: Queue)
    requires Quiet(s) && LoadQueue(s.queue) == Ok(q)
    ensures Reaches(rules, s, At(s, Loaded(op, q), true, None))
  {
    hide After, Reaches, LoadQueue;
    ReachesItself(rules, s);
    BeginStep(rules, s, op);
    LoadStep(rules, s, op, q);
    hide At;
    ReachesNext(rules, s, s, Begin(op), At(s, Locked(op), true, None));
    ReachesNext(rules, s, At(s, Locked(op), true, None), Load, At(s, Loaded(op, q), true, None));
  }

  lemma RejectSteps(rules: Rules, s: State, op: Op, q: Queue, a: Action, view: View)
    requires op.Reject? && Row(q, op.id) == Ok(a) && a.status.Proposed? && a.argumentsHash == op.hash && op.id !in s.claims
    requires rules.check(a, Restore, view, s.receipt) && op.phrase == a.rejectionPhrase
    ensures After(rules, At(s, Loaded(op, q), true, None), S.me, SeeNoClaim) == Some(At(s, Unclaimed(op, q), true, None))
    ensures After(rules, At(s, Unclaimed(op, q), true, None), S.me, CommitReject(view))
         == Some(At(s.(queue := Doc(WithRow(q, op.id, a.(status := Rejected)))), Saved(op), true, None))
  {
    hide WithRow, Find;
    AtPut(s, Loaded(op, q), true, None, Unclaimed(op, q));
    AtPut(s, Unclaimed(op, q), true, None, Saved(op));
  }

  /** A rejection is a run. */
  lemma RejectionSimulates(rules: Rules, s: State, d: S.Desk, op: Op, w: S.World)
    requires Quiet(s) && Displays(s, d) && op.Reject?
    ensures Simulates(rules, s, S.RejectChecked(rules, d, op, w).0)
  {
    T.RejectDecides(rules, d, op, w);
    var (d', r) := S.RejectChecked(rules, d, op, w);
    if r.Err? {
      hide S.RejectChecked, Simulates;
      StandingStill(rules, s, d);
    } else {
      var q := LoadQueue(d.queue).value;
      var a := Row(q, op.id).value;
      RejectSteps(rules, s, op, q, a, w.restore);
      LoadingIsARun(rules, s, op, q);
      var x := s.(queue := d'.queue);
      assert x.queue == Doc(WithRow(q, op.id, a.(status := Rejected)));
      hide After, Reaches, At, Simulates, S.RejectChecked, Row, WithRow, LoadQueue;
      ReachesNext(rules, s, At(s, Loaded(op, q), true, None), SeeNoClaim, At(s, Unclaimed(op, q), true, None));
      ReachesNext(rules, s, At(s, Unclaimed(op, q), true, None), CommitReject(w.restore), At(x, Saved(op), true, None));
      SaveLands(rules, s, x, op, d');
    }
  }

  lemma AppendStep(rules: Rules, s: State, op: Op, q: Queue, a: Action, view: View)
    requires op.Append? && rules.candidate(op, q, view, s.receipt) == Ok(a) && Find(q.actions, a.id).None?
    requires rules.check(a, FollowupAppend, view, s.receipt)
    ensures After(rules, At(s, Loaded(op, q), true, None), S.me, CommitAppend(view))
         == Some(At(s.(queue := Doc(q.(actions := q.actions + [a]))), Saved(op), true, None))
  {
    hide Find;
    AtPut(s, Loaded(op, q), true, None, Saved(op));
  }

  /** So is an append. */
  lemma AppendSimulates(rules: Rules, s: State, d: S.Desk, op: Op, view: View)
    requires Quiet(s) && Displays(s, d) && op.Append?
    ensures Simulates(rules, s, S.AppendChecked(rules, d, op, view).0)
  {
    hide S.SameProposal, Find;
    var d' := S.AppendChecked(rules, d, op, view).0;
    if d'.queue == d.queue {
      assert d' == d;
      hide S.AppendChecked, Simulates;
      StandingStill(rules, s, d);
    } else {
      var q := LoadQueue(d.queue).value;
      var a := rules.candidate(op, q, view, d.receipt).value;
      AppendStep(rules, s, op, q, a, view);
      LoadingIsARun(rules, s, op, q);
      var x := s.(queue := d'.queue);
      hide After, Reaches, At, Simulates, LoadQueue;
      ReachesNext(rules, s, At(s, Loaded(op, q), true, None), CommitAppend(view), At(x, Saved(op), true, None));
      SaveLands(rules, s, x, op, d');
    }
  }

  lemma InitializeStep(rules: Rules, s: State, op: Op, actions: seq<Action>, view: View)
    requires op.Initialize? && s.queue.Missing? && rules.initial(op, view, s.receipt) == Ok(actions)
    ensures After(rules, At(s, Locked(op), true, None), S.me, CommitInitialize(view))
         == Some(At(s.(queue := Doc(Queue(Some(op.mission), op.plan, actions))), Saved(op), true, None))
  {
    AtPut(s, Locked(op), true, None, Saved(op));
  }

  /** So is the opening of a queue. */
  lemma OpeningSimulates(rules: Rules, s: State, d: S.Desk, op: Op, view: View)
    requires Quiet(s) && Displays(s, d) && op.Initialize?
    ensures Simulates(rules, s, S.OpenQueue(rules, d, op, view).0)
  {
    hide S.Restorable;
    var d' := S.OpenQueue(rules, d, op, view).0;
    if d'.queue == d.queue {
      assert d' == d;
      hide S.OpenQueue, Simulates;
      StandingStill(rules, s, d);
    } else {
      var actions := rules.initial(op, view, d.receipt).value;
      InitializeStep(rules, s, op, actions, view);
      ReachesItself(rules, s);
      BeginStep(rules, s, op);
      var x := s.(queue := d'.queue);
      hide After, Reaches, At, Simulates;
      ReachesNext(rules, s, s, Begin(op), At(s, Locked(op), true, None));
      ReachesNext(rules, s, At(s, Locked(op), true, None), CommitInitialize(view), At(x, Saved(op), true, None));
      SaveLands(rules, s, x, op, d');
    }
  }

  // ---------------------------------------------------------------- human recovery

  lemma ReplayCons(rules: Rules, s: State, p: Pid, step: Step, rest: seq<Step>)
    ensures Replay(rules, s, p, [step] + rest)
         == if After(rules, s, p, step).None? then None else Replay(rules, After(rules, s, p, step).value, p, rest)
  {
    hide After;
    assert ([step] + rest)[1..] == rest;
  }

  /** What recovery asks of an action before it takes the lease. */
  predicate Recoverable(rules: Rules, s: State, op: Op, a: Action, view: View)
    requires op.Recover?
  {
    && (a.status.Proposed? || a.status.Running?) && a.argumentsHash == op.hash
    && op.phrase == "BLOQUEAR INTERRUMPIDA-" + Upper(AfterDash(op.id))
    && VerifyClaim(s.claims, a).Pass? && rules.check(a, Restore, view, s.receipt)
  }

  lemma ExamineIff(rules: Rules, s: State, op: Op, q: Queue, a: Action, view: View)
    requires op.Recover? && Row(q, op.id) == Ok(a)
    ensures After(rules, At(s, Loaded(op, q), true, None), S.me, Examine(view))
         == if Recoverable(rules, s, op, a, view) then Some(At(s, Examined(op, q), true, None)) else None
  {
    hide Row, VerifyClaim, AfterDash, Upper;
    AtPut(s, Loaded(op, q), true, None, Examined(op, q));
  }

  lemma SeizeIff(rules: Rules, s: State, op: Op, q: Queue)
    requires op.Recover?
    ensures After(rules, At(s, Examined(op, q), true, None), S.me, Seize)
         == if op.id !in s.leases then Some(At(s, Seized(op, q), true, Some(op.id))) else None
  {
    AtPut(s, Examined(op, q), true, None, Seized(op, q));
  }

  lemma CommitBlockIff(rules: Rules, s: State, op: Op, q: Queue, a: Action, view: View)
    requires op.Recover? && Row(q, op.id) == Ok(a) && op.id !in s.leases
    requires a.argumentsHash == op.hash && VerifyClaim(s.claims, a).Pass?
    ensures After(rules, At(s, Seized(op, q), true, Some(op.id)), S.me, CommitBlock(view))
         == if rules.check(a, Restore, view, s.receipt)
            then Some(At(s.(queue := Doc(WithRow(q, op.id, a.(status := Blocked)))), Saved(op), true, None)) else None
  {
    hide VerifyClaim;
    AtPut(s, Seized(op, q), true, Some(op.id), Saved(op));
    assert At(s, Seized(op, q), true, Some(op.id)).leases - {op.id} == s.leases;
  }

  function RecoverySteps(op: Op, examine: View, commit: View): seq<Step> {
    [Begin(op), Load, Examine(examine), Seize, CommitBlock(commit), Unlock]
  }

  /** Human recovery runs through exactly for a proposed or running action named by its hash and
      its recovery phrase, whose claim covers it, which nobody leases, and which passes the
      authority check both times; it then blocks that action and leaves all else as it was. */
  lemma RecoveryBlocksIff(rules: Rules, s: State, op: Op, q: Queue, k: nat, examine: View, commit: View)
    requires op.Recover? && Free(s) && s.queue == Doc(q) && Find(q.actions, op.id) == Some(k)
    ensures
      var a := q.actions[k];
      Replay(rules, s, S.me, RecoverySteps(op, examine, commit)) ==
        if Recoverable(rules, s, op, a, examine) && op.id !in s.leases && rules.check(a, Restore, commit, s.receipt)
        then Some(s.(queue := Doc(q.(actions := q.actions[k := a.(status := Blocked)])), procs := s.procs[S.me := Idle]))
        else None
  {
    var a := q.actions[k];
    var saved := s.(queue := Doc(WithRow(q, op.id, a.(status := Blocked))));
    BeginStep(rules, s, op);
    LoadStep(rules, s, op, q);
    ExamineIff(rules, s, op, q, a, examine);
    SeizeIff(rules, s, op, q);
    if Recoverable(rules, s, op, a, examine) && op.id !in s.leases { CommitBlockIff(rules, s, op, q, a, commit); }
    UnlockSaved(rules, saved, op);
    RecoveryUnfolds(rules, s, At(s, Locked(op), true, None), At(s, Loaded(op, q), true, None), At(s, Examined(op, q), true, None),
                    At(s, Seized(op, q), true, Some(op.id)), At(saved, Saved(op), true, None), op, examine, commit);
    hide After, Replay, Recoverable;
  }

  /** The six steps one after the other, through the states they pass. */
  lemma RecoveryUnfolds(
    rules: Rules, s: State, locked: State, loaded: State, examined: State, seized: State, saved: State,
    op: Op, examine: View, commit: View)
    requires After(rules, s, S.me, Begin(op)) == Some(locked) && After(rules, locked, S.me, Load) == Some(loaded)
    requires After(rules, loaded, S.me, Examine(examine)) in {None, Some(examined)}
    requires After(rules, examined, S.me, Seize) in {None, Some(seized)}
    requires After(rules, loaded, S.me, Examine(examine)).Some? && After(rules, examined, S.me, Seize).Some? ==>
      After(rules, seized, S.me, CommitBlock(commit)) in {None, Some(saved)}
    ensures Replay(rules, s, S.me, RecoverySteps(op, examine, commit)) ==
      if || After(rules, loaded, S.me, Examine(examine)).None? || After(rules, examined, S.me, Seize).None?
         || After(rules, seized, S.me, CommitBlock(commit)).None?
      then None else After(rules, saved, S.me, Unlock)
  {
    hide After, Replay;
    var unlocking: seq<Step> := [Unlock];
    var committing := [CommitBlock(commit)] + unlocking;
    var seizing := [Seize] + committing;
    var examining := [Examine(examine)] + seizing;
    var loading := [Load] + examining;
    assert RecoverySteps(op, examine, commit) == [Begin(op)] + loading && unlocking + [] == unlocking;
    ReplayCons(rules, s, S.me, Begin(op), loading);
    ReplayCons(rules, locked, S.me, Load, examining);
    ReplayCons(rules, loaded, S.me, Examine(examine), seizing);
    ReplayCons(rules, examined, S.me, Seize, committing);
    ReplayCons(rules, seized, S.me, CommitBlock(commit), unlocking);
    ReplayCons(rules, saved, S.me, Unlock, []);
    if After(rules, saved, S.me, Unlock).Some? { ReplayNothing(rules, After(rules, saved, S.me, Unlock).value); }
  }

  lemma ReplayNothing(rules: Rules, s: State)
    ensures Replay(rules, s, S.me, []) == Some(s)
  {
  }
}
