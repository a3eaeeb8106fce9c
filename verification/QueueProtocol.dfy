/** The mission action queue as a protocol between any number of processes that share one
    directory: a queue file, write-once claim files, flock-style leases and a queue lock.

    Every file access of every queue operation is one step, a process may die (or unwind
    through an exception) before any of them, and its locks then vanish. The charter and
    decision files may be edited by anybody at any time, so each check receives whatever
    its two reads happened to yield; the write-once receipt is part of the state. */
module QueueProtocol {
  import opened Common
  import opened Registry
  import opened Authority
  import opened Builder

  type Pid = nat

  datatype Queue = Queue(mission: Option<string>, plan: string, actions: seq<Action>)

  datatype Claim = Claim(
    missionId: string, planId: string, id: string, argumentsHash: string, approvedBy: string, approvedAt: string)

  /** An existing claim file: created but not yet written, or written. `author` is a history
      annotation that no operation reads: the process whose exclusive create won. */
  datatype ClaimFile = Torn(author: Pid) | Written(author: Pid, claim: Claim)

  datatype View = View(charter: File<Charter>, decision: File<Decision>)

  /** The documents against which a dispatch was authorised. */
  datatype Basis = Basis(charter: Charter, decision: Decision)

  datatype Outcome = Returns(report: Report) | Raises

  datatype Op =
    | Approve(id: string, phrase: string, approver: string, time: string)
    | Reject(id: string, phrase: string, hash: string)
    | Recover(id: string, phrase: string, hash: string)
    | Append(mission: string, plan: string, skill: SkillId, extra: Arguments)
    | Initialize(mission: string, plan: string)

  /** Where a process stands. `snap` is the payload it has in memory, `act` the action it
      runs; names say what has just happened. */
  datatype Phase =
    | Idle
    | Locked(op: Op)
    | Loaded(op: Op, snap: Queue)
    // approve_and_dispatch
    | Vetted(op: Op, snap: Queue)
    | Creating(op: Op, snap: Queue)
    | Claimed(op: Op, snap: Queue)
    | Leased(op: Op, snap: Queue)
    | Started(op: Op, snap: Queue)
    | Refused(op: Op, snap: Queue)
    | Ready(op: Op, act: Action, basis: Basis)
    | Launch(op: Op, act: Action, basis: Basis)
    | Dispatching(op: Op, act: Action)
    | Returned(op: Op, act: Action, outcome: Outcome)
    | FinLocked(op: Op, act: Action, outcome: Outcome)
    | FinLoaded(op: Op, act: Action, outcome: Outcome, snap: Queue)
    | FinWritten(op: Op, act: Action)
    | FinUnlocked(op: Op, act: Action)
    // reject_action_checked
    | Unclaimed(op: Op, snap: Queue)
    // block_interrupted_action_checked
    | Examined(op: Op, snap: Queue)
    | Seized(op: Op, snap: Queue)
    // any operation, after its queue write
    | Saved(op: Op)

  datatype Dispatch = Dispatch(pid: Pid, action: Action, basis: Basis)

  datatype State = State(
    queue: File<Queue>,
    claims: map<string, ClaimFile>,
    leases: map<string, Pid>,
    lock: Option<Pid>,
    receipt: File<Receipt>,
    procs: map<Pid, Phase>,
    log: seq<Dispatch>)

  datatype Step =
    | Begin(op: Op) | Load | Unlock | Crash
    | Vet(view: View) | CreateClaim | WriteClaim | TakeLease | Start
    | PreDispatchCheck(view: View) | Balk(view: View) | MarkBlocked(view: View)
    | CallDispatch | Return(outcome: Outcome) | Relock | Reload | Finish | ReleaseLease
    | SeeNoClaim | CommitReject(view: View)
    | Examine(view: View) | Seize | CommitBlock(view: View)
    | CommitAppend(view: View) | CommitInitialize(view: View)
    | CreateReceipt | FillReceipt(receipt: Receipt)
    | EditQueue(file: File<Queue>)

  /** The authority decisions the queue consults, as functions of what was read. The
      protocol is studied for any rules; `Konoha` below are the program's own. */
  datatype Rules = Rules(
    check: (Action, Stage, View, File<Receipt>) -> bool,
    candidate: (Op, Queue, View, File<Receipt>) -> Result<Action>,
    initial: (Op, View, File<Receipt>) -> Result<seq<Action>>)

  // ---------------------------------------------------------------- the queue payload

  /** _find_locked: the first action with this id. */
  function Find(actions: seq<Action>, id: string): (r: Option<nat>)
    ensures r.Some? ==> r.value < |actions| && actions[r.value].id == id
    ensures r.None? ==> forall a | a in actions :: a.id != id
  {
    if actions == [] then None
    else if actions[0].id == id then Some(0)
    else
      var rest := Find(actions[1..], id);
      if rest.None? then None else Some(rest.value + 1)
  }

  function LoadQueue(file: File<Queue>): Result<Queue> {
    match file
    case Missing => Ok(Queue(None, "", []))
    case Malformed => Err(ValueInvalid)
    case OldSchema => Err(MigrationRequired)
    case Doc(q) => Ok(q)
  }

  function Row(q: Queue, id: string): Result<Action> {
    var at := Find(q.actions, id);
    if at.None? then Err(KeyMissing) else Ok(q.actions[at.value])
  }

  function WithRow(q: Queue, id: string, a: Action): Queue
    requires Find(q.actions, id).Some?
  {
    q.(actions := q.actions[Find(q.actions, id).value := a])
  }

  // ---------------------------------------------------------------- claims and transitions

  function ClaimFor(op: Op, a: Action): Claim
    requires op.Approve?
  {
    Claim(a.missionId, a.planId, a.id, a.argumentsHash, op.approver, op.time)
  }

  predicate ClaimBinds(claim: Claim, a: Action) {
    && claim.missionId == a.missionId && claim.planId == a.planId
    && claim.id == a.id && claim.argumentsHash == a.argumentsHash
  }

  /** verify_execution_claim. */
  function VerifyClaim(claims: map<string, ClaimFile>, a: Action): Check {
    var present := a.id in claims;
    :- Require(present, ClaimMissing);
    :- Require(claims[a.id].Written?, ClaimInvalid);
    var claim := claims[a.id].claim;
    :- Require(ClaimBinds(claim, a), ClaimBinding);
    Require(a.evidence.Some? ==>
              && claim.approvedBy == a.evidence.value.approvedBy
              && claim.approvedAt == a.evidence.value.approvedAt
              && claim.argumentsHash == a.evidence.value.argumentsHash,
            ClaimBinding)
  }

  /** _publish_execution_claim: only the creation of a fresh file lets approval go on. */
  function PublishClaim(claims: map<string, ClaimFile>, wanted: Claim): Check {
    if wanted.id !in claims then Pass
    else if claims[wanted.id].Torn? then Fail(ClaimInvalid)
    else
      var found := claims[wanted.id].claim;
      if found.missionId != wanted.missionId || found.planId != wanted.planId
        || found.id != wanted.id || found.argumentsHash != wanted.argumentsHash then Fail(ClaimBinding)
      else Fail(AlreadyClaimed)
  }

  /** _transition_locked, up to the write. */
  function Transition(
    claims: map<string, ClaimFile>, q: Queue, id: string, expected: Status, hash: string, next: Status, evidence: Evidence)
    : Result<Queue>
  {
    var a :- Row(q, id);
    :- Need(a.status == expected, ApprovalBinding);
    :- Need(a.argumentsHash == hash, ArgumentsHash);
    :- Ensure(VerifyClaim(claims, a));
    Ok(WithRow(q, id, a.(status := next, evidence := Some(evidence))))
  }

  /** _mark_blocked_locked, up to the write; it repeats the authority check. */
  function Block(
    rules: Rules, claims: map<string, ClaimFile>, receipt: File<Receipt>, view: View,
    q: Queue, id: string, expected: Status, hash: string)
    : Result<Queue>
  {
    var a :- Row(q, id);
    :- Need(a.status == expected, ApprovalBinding);
    :- Need(a.argumentsHash == hash, ArgumentsHash);
    :- Ensure(VerifyClaim(claims, a));
    :- Need(rules.check(a, Restore, view, receipt), CharterBinding);
    Ok(WithRow(q, id, a.(status := Blocked)))
  }

  function Approval(op: Op, hash: string, report: Option<Report>): Evidence
    requires op.Approve?
  {
    Evidence(op.approver, op.time, hash, report)
  }

  // ---------------------------------------------------------------- steps

  function PhaseOf(s: State, p: Pid): Phase {
    if p in s.procs then s.procs[p] else Idle
  }

  function Put(s: State, p: Pid, next: Phase): State {
    s.(procs := s.procs[p := next])
  }

  function DoBegin(s: State, p: Pid, op: Op): Option<State> {
    if PhaseOf(s, p).Idle? && s.lock.None? then Some(Put(s, p, Locked(op)).(lock := Some(p))) else None
  }

  function DoLoad(s: State, p: Pid): Option<State> {
    var ph := PhaseOf(s, p);
    if ph.Locked? && LoadQueue(s.queue).Ok? then Some(Put(s, p, Loaded(ph.op, LoadQueue(s.queue).value))) else None
  }

  function DoUnlock(s: State, p: Pid): Option<State> {
    match PhaseOf(s, p)
    case Saved(op) => Some(Put(s, p, Idle).(lock := None))
    case Ready(op, act, basis) => Some(Put(s, p, Launch(op, act, basis)).(lock := None))
    case FinWritten(op, act) => Some(Put(s, p, FinUnlocked(op, act)).(lock := None))
    case _ => None
  }

  function WithoutLeases(leases: map<string, Pid>, p: Pid): map<string, Pid> {
    map id | id in leases && leases[id] != p :: leases[id]
  }

  /** Process death, or an exception that unwinds the whole operation. */
  function DoCrash(s: State, p: Pid): Option<State> {
    if PhaseOf(s, p).Idle? then None
    else
      Some(Put(s, p, Idle).(lock := if s.lock == Some(p) then None else s.lock, leases := WithoutLeases(s.leases, p)))
  }

  function DoVet(rules: Rules, s: State, p: Pid, view: View): Option<State> {
    var ph := PhaseOf(s, p);
    if !(ph.Loaded? && ph.op.Approve? && Row(ph.snap, ph.op.id).Ok?) then None
    else
      var a := Row(ph.snap, ph.op.id).value;
      if && rules.check(a, Restore, view, s.receipt)
         && a.status.Proposed? && ph.op.phrase == a.approvalPhrase && ph.op.approver != ""
      then Some(Put(s, p, Vetted(ph.op, ph.snap))) else None
  }

  function DoCreateClaim(s: State, p: Pid): Option<State> {
    var ph := PhaseOf(s, p);
    if ph.Vetted? && ph.op.Approve? && ph.op.id !in s.claims
    then Some(Put(s, p, Creating(ph.op, ph.snap)).(claims := s.claims[ph.op.id := Torn(p)])) else None
  }

  function DoWriteClaim(s: State, p: Pid): Option<State> {
    var ph := PhaseOf(s, p);
    if ph.Creating? && ph.op.Approve? && Row(ph.snap, ph.op.id).Ok?
    then
      var claim := ClaimFor(ph.op, Row(ph.snap, ph.op.id).value);
      Some(Put(s, p, Claimed(ph.op, ph.snap)).(claims := s.claims[ph.op.id := Written(p, claim)]))
    else None
  }

  function DoTakeLease(s: State, p: Pid): Option<State> {
    var ph := PhaseOf(s, p);
    if ph.Claimed? && ph.op.Approve? && ph.op.id !in s.leases
    then Some(Put(s, p, Leased(ph.op, ph.snap)).(leases := s.leases[ph.op.id := p])) else None
  }

  function StartedQueue(s: State, ph: Phase): Result<Queue>
    requires ph.Leased? && ph.op.Approve?
  {
    var a :- Row(ph.snap, ph.op.id);
    Transition(s.claims, ph.snap, ph.op.id, Proposed, a.argumentsHash, Running, Approval(ph.op, a.argumentsHash, None))
  }

  function DoStart(s: State, p: Pid): Option<State> {
    var ph := PhaseOf(s, p);
    if ph.Leased? && ph.op.Approve? && StartedQueue(s, ph).Ok?
    then
      var q := StartedQueue(s, ph).value;
      Some(Put(s, p, Started(ph.op, q)).(queue := Doc(q)))
    else None
  }

  function DoPreDispatch(rules: Rules, s: State, p: Pid, view: View): Option<State> {
    var ph := PhaseOf(s, p);
    if !(ph.Started? && ph.op.Approve? && Row(ph.snap, ph.op.id).Ok?) then None
    else
      var a := Row(ph.snap, ph.op.id).value;
      if && rules.check(a, PreDispatch, view, s.receipt)
         && VerifyClaim(s.claims, a).Pass? && view.charter.Doc? && view.decision.Doc? && s.receipt.Doc?
      then Some(Put(s, p, Ready(ph.op, a, Basis(view.charter.value, view.decision.value)))) else None
  }

  /** The pre-dispatch check (or claim check) raised: control enters the handler. */
  function DoBalk(rules: Rules, s: State, p: Pid, view: View): Option<State> {
    var ph := PhaseOf(s, p);
    if !(ph.Started? && ph.op.Approve? && Row(ph.snap, ph.op.id).Ok?) then None
    else
      var a := Row(ph.snap, ph.op.id).value;
      if rules.check(a, PreDispatch, view, s.receipt) && VerifyClaim(s.claims, a).Pass? then None
      else Some(Put(s, p, Refused(ph.op, ph.snap)))
  }

  function DoMarkBlocked(rules: Rules, s: State, p: Pid, view: View): Option<State> {
    var ph := PhaseOf(s, p);
    if !(ph.Refused? && ph.op.Approve? && Row(ph.snap, ph.op.id).Ok?) then None
    else
      var q := Block(rules, s.claims, s.receipt, view, ph.snap, ph.op.id, Running, Row(ph.snap, ph.op.id).value.argumentsHash);
      if q.Err? then None
      else Some(Put(s, p, Saved(ph.op)).(queue := Doc(q.value), leases := s.leases - {ph.op.id}))
  }

  function DoDispatch(s: State, p: Pid): Option<State> {
    var ph := PhaseOf(s, p);
    if ph.Launch?
    then Some(Put(s, p, Dispatching(ph.op, ph.act)).(log := s.log + [Dispatch(p, ph.act, ph.basis)])) else None
  }

  function DoReturn(s: State, p: Pid, outcome: Outcome): Option<State> {
    var ph := PhaseOf(s, p);
    if ph.Dispatching? then Some(Put(s, p, Returned(ph.op, ph.act, outcome))) else None
  }

  function DoRelock(s: State, p: Pid): Option<State> {
    var ph := PhaseOf(s, p);
    if ph.Returned? && s.lock.None?
    then Some(Put(s, p, FinLocked(ph.op, ph.act, ph.outcome)).(lock := Some(p))) else None
  }

  function DoReload(s: State, p: Pid): Option<State> {
    var ph := PhaseOf(s, p);
    if ph.FinLocked? && LoadQueue(s.queue).Ok?
    then Some(Put(s, p, FinLoaded(ph.op, ph.act, ph.outcome, LoadQueue(s.queue).value))) else None
  }

  /** The final compare-and-set of approve_and_dispatch. */
  function FinishedQueue(s: State, ph: Phase): Result<Queue>
    requires ph.FinLoaded? && ph.op.Approve?
  {
    var hash := ph.act.argumentsHash;
    match ph.outcome
    case Returns(report) =>
      Transition(s.claims, ph.snap, ph.op.id, Running, hash, Completed, Approval(ph.op, hash, Some(report)))
    case Raises =>
      Transition(s.claims, ph.snap, ph.op.id, Running, hash, Failed, Approval(ph.op, hash, None))
  }

  function DoFinish(s: State, p: Pid): Option<State> {
    var ph := PhaseOf(s, p);
    if ph.FinLoaded? && ph.op.Approve? && FinishedQueue(s, ph).Ok?
    then Some(Put(s, p, FinWritten(ph.op, ph.act)).(queue := Doc(FinishedQueue(s, ph).value))) else None
  }

  function DoReleaseLease(s: State, p: Pid): Option<State> {
    var ph := PhaseOf(s, p);
    if ph.FinUnlocked? && ph.op.Approve? then Some(Put(s, p, Idle).(leases := s.leases - {ph.op.id})) else None
  }

  function DoSeeNoClaim(s: State, p: Pid): Option<State> {
    var ph := PhaseOf(s, p);
    if !(ph.Loaded? && ph.op.Reject? && Row(ph.snap, ph.op.id).Ok?) then None
    else
      var a := Row(ph.snap, ph.op.id).value;
      if a.status.Proposed? && a.argumentsHash == ph.op.hash && ph.op.id !in s.claims
      then Some(Put(s, p, Unclaimed(ph.op, ph.snap))) else None
  }

  function DoCommitReject(rules: Rules, s: State, p: Pid, view: View): Option<State> {
    var ph := PhaseOf(s, p);
    if !(ph.Unclaimed? && ph.op.Reject? && Row(ph.snap, ph.op.id).Ok?) then None
    else
      var a := Row(ph.snap, ph.op.id).value;
      if && rules.check(a, Restore, view, s.receipt)
         && ph.op.phrase == a.rejectionPhrase
      then Some(Put(s, p, Saved(ph.op)).(queue := Doc(WithRow(ph.snap, ph.op.id, a.(status := Rejected))))) else None
  }

  function DoExamine(rules: Rules, s: State, p: Pid, view: View): Option<State> {
    var ph := PhaseOf(s, p);
    if !(ph.Loaded? && ph.op.Recover? && Row(ph.snap, ph.op.id).Ok?) then None
    else
      var a := Row(ph.snap, ph.op.id).value;
      if && (a.status.Proposed? || a.status.Running?) && a.argumentsHash == ph.op.hash
         && ph.op.phrase == RecoveryPhrase(ph.op.id) && VerifyClaim(s.claims, a).Pass?
         && rules.check(a, Restore, view, s.receipt)
      then Some(Put(s, p, Examined(ph.op, ph.snap))) else None
  }

  function DoSeize(s: State, p: Pid): Option<State> {
    var ph := PhaseOf(s, p);
    if ph.Examined? && ph.op.Recover? && ph.op.id !in s.leases
    then Some(Put(s, p, Seized(ph.op, ph.snap)).(leases := s.leases[ph.op.id := p])) else None
  }

  function DoCommitBlock(rules: Rules, s: State, p: Pid, view: View): Option<State> {
    var ph := PhaseOf(s, p);
    if !(ph.Seized? && ph.op.Recover? && Row(ph.snap, ph.op.id).Ok?) then None
    else
      var q := Block(rules, s.claims, s.receipt, view, ph.snap, ph.op.id, Row(ph.snap, ph.op.id).value.status, ph.op.hash);
      if q.Err? then None
      else Some(Put(s, p, Saved(ph.op)).(queue := Doc(q.value), leases := s.leases - {ph.op.id}))
  }

  /** A candidate whose id is already queued is not appended again: the operation then ends
      without a write. */
  function DoCommitAppend(rules: Rules, s: State, p: Pid, view: View): Option<State> {
    var ph := PhaseOf(s, p);
    if !(ph.Loaded? && ph.op.Append? && rules.candidate(ph.op, ph.snap, view, s.receipt).Ok?) then None
    else
      var a := rules.candidate(ph.op, ph.snap, view, s.receipt).value;
      if && Find(ph.snap.actions, a.id).None?
         && rules.check(a, FollowupAppend, view, s.receipt)
      then Some(Put(s, p, Saved(ph.op)).(queue := Doc(ph.snap.(actions := ph.snap.actions + [a])))) else None
  }

  function DoCommitInitialize(rules: Rules, s: State, p: Pid, view: View): Option<State> {
    var ph := PhaseOf(s, p);
    if ph.Locked? && ph.op.Initialize? && s.queue.Missing? && rules.initial(ph.op, view, s.receipt).Ok?
    then
      var q := Queue(Some(ph.op.mission), ph.op.plan, rules.initial(ph.op, view, s.receipt).value);
      Some(Put(s, p, Saved(ph.op)).(queue := Doc(q)))
    else None
  }

  function DoCreateReceipt(s: State): Option<State> {
    if s.receipt.Missing? then Some(s.(receipt := Malformed)) else None
  }

  function DoFillReceipt(s: State, r: Receipt): Option<State> {
    if s.receipt.Malformed? then Some(s.(receipt := Doc(r))) else None
  }

  /** The state after a step, if the step can happen. */
  function After(rules: Rules, s: State, p: Pid, step: Step): Option<State> {
    match step
    case Begin(op) => DoBegin(s, p, op)
    case Load => DoLoad(s, p)
    case Unlock => DoUnlock(s, p)
    case Crash => DoCrash(s, p)
    case Vet(view) => DoVet(rules, s, p, view)
    case CreateClaim => DoCreateClaim(s, p)
    case WriteClaim => DoWriteClaim(s, p)
    case TakeLease => DoTakeLease(s, p)
    case Start => DoStart(s, p)
    case PreDispatchCheck(view) => DoPreDispatch(rules, s, p, view)
    case Balk(view) => DoBalk(rules, s, p, view)
    case MarkBlocked(view) => DoMarkBlocked(rules, s, p, view)
    case CallDispatch => DoDispatch(s, p)
    case Return(outcome) => DoReturn(s, p, outcome)
    case Relock => DoRelock(s, p)
    case Reload => DoReload(s, p)
    case Finish => DoFinish(s, p)
    case ReleaseLease => DoReleaseLease(s, p)
    case SeeNoClaim => DoSeeNoClaim(s, p)
    case CommitReject(view) => DoCommitReject(rules, s, p, view)
    case Examine(view) => DoExamine(rules, s, p, view)
    case Seize => DoSeize(s, p)
    case CommitBlock(view) => DoCommitBlock(rules, s, p, view)
    case CommitAppend(view) => DoCommitAppend(rules, s, p, view)
    case CommitInitialize(view) => DoCommitInitialize(rules, s, p, view)
    case CreateReceipt => DoCreateReceipt(s)
    case FillReceipt(r) => DoFillReceipt(s, r)
    case EditQueue(file) => Some(s.(queue := file))
  }

  /** A fresh mission directory. */
  predicate FreshDirectory(s: State) {
    s == State(Missing, map[], map[], None, Missing, map[], [])
  }

  /** One entry per step: who moved and how. */
  datatype Move = Move(pid: Pid, step: Step)

  /** A run: states and the moves between them. */
  ghost predicate IsRun(rules: Rules, states: seq<State>, moves: seq<Move>) {
    && |states| == |moves| + 1
    && FreshDirectory(states[0])
    && forall i :: 0 <= i < |moves| ==> After(rules, states[i], moves[i].pid, moves[i].step) == Some(states[i + 1])
  }

  /** A run in which nobody rewrites the queue file behind the protocol's back. */
  ghost predicate IsHonestRun(rules: Rules, states: seq<State>, moves: seq<Move>) {
    IsRun(rules, states, moves) && forall i :: 0 <= i < |moves| ==> !moves[i].step.EditQueue?
  }

  /** How often an id has been handed to the dispatcher. */
  function Dispatches(log: seq<Dispatch>, id: string): nat {
    if log == [] then 0
    else Dispatches(log[..|log| - 1], id) + if log[|log| - 1].action.id == id then 1 else 0
  }
}
