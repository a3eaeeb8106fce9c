/** The conversational console: it takes a line of text, finds the first gate that is open
    (pending charter, next action, review, Teachback, closure) and runs the operation behind
    it; with no gate open the text is a request for a mission. Every operation may be cut
    short by an exception or by the death of the process at any of its writes; whatever the
    outside world answers arrives in a `World`. */
module Session {
  import opened Common
  import opened Text
  import opened Registry
  import opened Authority
  import opened Builder
  import opened QueueProtocol
  import opened QueueTable
  import opened QueueRules
  import opened Lifecycle

  /** The files of one mission, and the dispatches so far. */
  datatype Desk = Desk(
    queue: File<Queue>, claims: map<string, ClaimFile>, receipt: File<Receipt>, papers: Papers, log: seq<Action>,
    charter: File<Charter>, decision: File<Decision>)

  const NoPapers: Papers := Papers(None, None, None)

  const EmptyDesk: Desk := Desk(Missing, map[], Missing, NoPapers, [], Missing, Missing)

  /** Where an operation stops short, if anywhere. */
  datatype Halt =
    | Nowhere
    | AtClaimWrite | AtLease | AtPreDispatch | AtFinish | AtFollowups | AtReview
    | AtTeachback | AtClosure
    | AtOffer | AtCharterWrite | AtReceiptCreate | AtReceiptWrite | AtBootstrap | AtRejection

  /** What a request for a mission is interpreted as: a charter and the decision behind it. */
  datatype Offer = Offer(charter: Charter, decision: Decision)

  /** The four views are what the checks of one call happen to read; nothing ties them to
      each other or to the files, which anybody may edit at any time. */
  datatype World = World(
    restore: View, preDispatch: View, recheck: View, append: View,
    outcome: Outcome, halt: Halt, disk: Disk, suffix: string, manifestReadable: bool,
    review: ReviewResult, teachback: TeachbackResult, closure: ClosureResult, offer: Option<Offer>)

  datatype Answer =
    | Passed(next: Option<Action>, review: Option<Review>)
    | Declined(code: Code)
    | Recorded
    | Ignored

  const me: Pid := 0

  // ---------------------------------------------------------------- approve_and_dispatch

  /** Everything up to the creation of the claim file. */
  function VetCall(rules: Rules, d: Desk, op: Op, w: World): Result<Action>
    requires op.Approve?
  {
    var q :- LoadQueue(d.queue);
    var a :- Row(q, op.id);
    :- Need(rules.check(a, Restore, w.restore, d.receipt), CharterBinding);
    :- Need(a.status.Proposed? && op.phrase == a.approvalPhrase && op.approver != "", ApprovalBinding);
    :- Ensure(PublishClaim(d.claims, ClaimFor(op, a)));
    Ok(a)
  }

  function FinishCall(d: Desk, q: Queue, op: Op, hash: string, w: World): (Desk, Result<Action>)
    requires op.Approve?
  {
    var report := if w.outcome.Returns? then Some(w.outcome.report) else None;
    var next := if w.outcome.Returns? then Completed else Failed;
    match Transition(d.claims, q, op.id, Running, hash, next, Approval(op, hash, report))
    case Err(code) => (d, Err(code))
    case Ok(q') => (d.(queue := Doc(q')), if w.outcome.Returns? then Row(q', op.id) else Err(ValueInvalid))
  }

  /** From the running mark on: pre-dispatch check, dispatch, final mark. */
  function RunCall(rules: Rules, d: Desk, q: Queue, act: Action, op: Op, w: World): (Desk, Result<Action>)
    requires op.Approve?
  {
    if w.halt.AtPreDispatch? then (d, Err(LockTimeout))
    else if rules.check(act, PreDispatch, w.preDispatch, d.receipt) && VerifyClaim(d.claims, act).Pass? then
      var d' := d.(log := d.log + [act]);
      if w.halt.AtFinish? then (d', Err(LockTimeout)) else FinishCall(d', q, op, act.argumentsHash, w)
    else
      match Block(rules, d.claims, d.receipt, w.recheck, q, op.id, Running, act.argumentsHash)
      case Err(code) => (d, Err(code))
      case Ok(q') => (d.(queue := Doc(q')), Err(ApprovalBinding))
  }

  function StartCall(rules: Rules, d: Desk, q: Queue, a: Action, op: Op, w: World): (Desk, Result<Action>)
    requires op.Approve?
  {
    var hash := a.argumentsHash;
    match Transition(d.claims, q, op.id, Proposed, hash, Running, Approval(op, hash, None))
    case Err(code) => (d, Err(code))
    case Ok(q') =>
      var act := Row(q', op.id);
      if act.Err? then (d.(queue := Doc(q')), act) else RunCall(rules, d.(queue := Doc(q')), q', act.value, op, w)
  }

  function ApproveAndDispatch(rules: Rules, d: Desk, op: Op, w: World): (Desk, Result<Action>)
    requires op.Approve?
  {
    match VetCall(rules, d, op, w)
    case Err(code) => (d, Err(code))
    case Ok(a) =>
      var claimed := d.(claims := d.claims[op.id := Written(me, ClaimFor(op, a))]);
      if w.halt.AtClaimWrite? then (d.(claims := d.claims[op.id := Torn(me)]), Err(ClaimInvalid))
      else if w.halt.AtLease? then (claimed, Err(StillActive))
      else StartCall(rules, claimed, LoadQueue(d.queue).value, a, op, w)
  }

  // ---------------------------------------------------------------- rejection and follow-ups

  function RejectChecked(rules: Rules, d: Desk, op: Op, w: World): (Desk, Result<Action>)
    requires op.Reject?
  {
    var q := LoadQueue(d.queue);
    if q.Err? then (d, Err(q.code)) else
    var row := Row(q.value, op.id);
    if row.Err? then (d, row) else
    var a := row.value;
    if !a.status.Proposed? then (d, Err(ApprovalBinding))
    else if a.argumentsHash != op.hash then (d, Err(ArgumentsHash))
    else if op.id in d.claims then
      (d, Err(if VerifyClaim(d.claims, a).Fail? then VerifyClaim(d.claims, a).code else AlreadyClaimed))
    else if !rules.check(a, Restore, w.restore, d.receipt) then (d, Err(CharterBinding))
    else if op.phrase != a.rejectionPhrase then (d, Err(ApprovalBinding))
    else
      var b := a.(status := Rejected);
      (d.(queue := Doc(WithRow(q.value, op.id, b))), Ok(b))
  }

  predicate SameProposal(a: Action, b: Action) {
    && a.argumentsHash == b.argumentsHash && a.arguments == b.arguments && a.missionId == b.missionId
    && a.planId == b.planId && a.skill == b.skill && a.tier == b.tier
  }

  /** append_action_checked: a candidate that is already queued is not queued again. */
  function AppendChecked(rules: Rules, d: Desk, op: Op, view: View): (Desk, Guard) {
    var q := LoadQueue(d.queue);
    if q.Err? then (d, Stop(q.code)) else
    var built := rules.candidate(op, q.value, view, d.receipt);
    if built.Err? then (d, Stop(built.code)) else
    var found := Find(q.value.actions, built.value.id);
    if found.Some? then
      var existing := q.value.actions[found.value];
      if !SameProposal(existing, built.value) then (d, Stop(ArgumentsHash))
      else (d, Need(rules.check(existing, Restore, view, d.receipt), CharterBinding))
    else if !rules.check(built.value, FollowupAppend, view, d.receipt) then (d, Stop(CharterBinding))
    else (d.(queue := Doc(q.value.(actions := q.value.actions + [built.value]))), Clear)
  }

  function TestsAfter(a: Action): Op {
    Append(a.missionId, a.planId, PostPatchTests,
           map[Extra("suite_profile") := Text("v3.6.0_post_patch"), ExternalKey := Text("blocked")])
  }

  function PatchAfter(a: Action, p: PatchProposal): Op {
    Append(a.missionId, a.planId, ApplyPatch,
           map[PatchIdKey := Text(p.patchId), PatchShaKey := Text(p.patchSha), PatchPlanKey := Text(p.patchPlan),
               ChangedPathsKey := Texts(p.changedPaths)])
  }

  function PatchOf(a: Action): Option<PatchProposal> {
    if a.evidence.Some? && a.evidence.value.report.Some? then a.evidence.value.report.value.patch else None
  }

  /** The follow-up a completed action calls for. */
  function FollowupOf(a: Action): Result<Option<Op>> {
    match a.skill
    case ModelAudit =>
      var patch := PatchOf(a);
      if patch.Some? && patch.value.operationCount > 0 then
        if patch.value.patchSha == "" || patch.value.patchId == "" then Err(ValueInvalid)
        else Ok(Some(PatchAfter(a, patch.value)))
      else Ok(Some(TestsAfter(a)))
    case ApplyPatch => Ok(Some(TestsAfter(a)))
    case _ => Ok(None)
  }

  function NextPending(actions: seq<Action>): (r: Option<Action>)
    ensures r.Some? ==> r.value in actions && r.value.status.Proposed?
    ensures r.None? ==> forall a | a in actions :: !a.status.Proposed?
  {
    if actions == [] then None
    else if actions[0].status.Proposed? then Some(actions[0])
    else NextPending(actions[1..])
  }

  /** The common tail of approval and rejection: offer the next action or prepare a review. */
  ghost function Advance(d: Desk, w: World): (Desk, Answer) {
    var next := NextPending(RowsOf(d.queue));
    if next.Some? then (d, Passed(next, None))
    else if w.halt.AtReview? then (d, Declined(LockTimeout))
    else if !d.queue.Doc? then (d, Declined(ValueInvalid))
    else
      var (papers, review) := WithReview(d.papers, d.queue.value.mission, RowsOf(d.queue), w.disk, w.suffix);
      (d.(papers := papers), if review.Ok? then Passed(None, Some(review.value)) else Declined(review.code))
  }

  ghost function Follow(rules: Rules, d: Desk, followup: Result<Option<Op>>, w: World): (Desk, Answer) {
    if w.halt.AtFollowups? then (d, Declined(LockTimeout)) else
    match followup
    case Err(code) => (d, Declined(code))
    case Ok(None) => Advance(d, w)
    case Ok(Some(op)) =>
      var (d', added) := AppendChecked(rules, d, op, w.append);
      if added.Stop? then (d', Declined(added.code)) else Advance(d', w)
  }

  ghost function ApproveAction(rules: Rules, d: Desk, op: Op, w: World): (Desk, Answer)
    requires op.Approve?
  {
    var (d', done) := ApproveAndDispatch(rules, d, op, w);
    if done.Err? then (d', Declined(done.code)) else Follow(rules, d', FollowupOf(done.value), w)
  }

  /** Rejecting a patch calls for the tests all the same; other rejections for nothing. */
  ghost function RejectAction(rules: Rules, d: Desk, op: Op, skill: SkillId, w: World): (Desk, Answer)
    requires op.Reject?
  {
    var (d', rejected) := RejectChecked(rules, d, op, w);
    if rejected.Err? then (d', Declined(rejected.code))
    else Follow(rules, d', Ok(if skill.ApplyPatch? then Some(TestsAfter(rejected.value)) else None), w)
  }

  // ---------------------------------------------------------------- review, Teachback, closure

  function ReviewPhrase(r: Review): string { "APROBAR REVIEW-" + Upper(r.suffix) }
  function ChangesPhrase(r: Review): string { "CAMBIOS REVIEW-" + Upper(r.suffix) }
  function ClosurePhrase(c: Closure): string { "APROBAR CIERRE-" + Upper(c.suffix) }

  function ApproveReview(d: Desk, w: World): (Desk, Answer) {
    var (papers, marked) := ReviewMarked(d.papers, w.review);
    if marked.Stop? then (d, Declined(marked.code))
    else if w.halt.AtTeachback? then (d.(papers := papers), Declined(LockTimeout))
    else
      var (papers', asked) := WithTeachback(papers, w.manifestReadable);
      (d.(papers := papers'), if asked.Stop? then Declined(asked.code) else Recorded)
  }

  /** Writes the caller's copy of the review back with a new status. The console reads the
      review afresh every turn; a copy held from before a Teachback request would break the
      order of the records. */
  function RequestChanges(d: Desk, held: Review): (Desk, Answer) {
    (d.(papers := d.papers.(review := Some(held.(status := ChangesRequested)))), Recorded)
  }

  predicate Explains(text: string) {
    var prefix := "TEACHBACK:";
    StartsWith(Upper(text), prefix) && |Strip(text[|prefix|..])| >= 20
  }

  function RecordTeachback(d: Desk, text: string, w: World): (Desk, Answer) {
    if !Explains(text) then (d, Declined(ValueInvalid)) else
    var (papers, marked) := TeachbackMarked(d.papers, w.teachback);
    if marked.Stop? then (d, Declined(marked.code))
    else if w.halt.AtClosure? then (d.(papers := papers), Declined(LockTimeout))
    else
      var (papers', proposed) := WithClosure(papers, w.suffix);
      (d.(papers := papers'), if proposed.Stop? then Declined(proposed.code) else Recorded)
  }

  function ApproveClosure(d: Desk, w: World): (Desk, Answer) {
    var (papers, marked) := ClosureMarked(d.papers, w.closure);
    (d.(papers := papers), if marked.Stop? then Declined(marked.code) else Recorded)
  }

  // ---------------------------------------------------------------- the charter

  datatype Line = Line(text: string, actor: string, time: string)

  function CharterRejection(c: Charter): string { "RECHAZAR CHARTER-" + Upper(AfterDash(c.charterId)) }

  /** approve_charter_1_1: nothing is written once a receipt exists. */
  function FreezeCharter(cfg: Config, d: Desk, c: Charter, dec: Decision, line: Line, w: World): (Desk, Guard) {
    var built := ValidateCharterConstruction(cfg, c, dec);
    if line.text != c.approvalPhrase || Strip(line.actor) == "" then (d, Stop(ApprovalBinding))
    else if !c.state.CharterProposed? then (d, Stop(CharterBinding))
    else if built.Fail? then (d, Stop(built.code))
    else if !d.receipt.Missing? then (d, Stop(ReceiptInvalid))
    else
      var k := Approved(c, line.time, Strip(line.actor));
      var half := d.(decision := Doc(dec));
      var full := half.(charter := Doc(k));
      var ready := ReceiptPreconditions(cfg, k, dec);
      if w.halt.AtCharterWrite? then (half, Stop(LockTimeout))
      else if ready.Fail? then (full, Stop(ready.code))
      else if w.halt.AtReceiptCreate? then (full, Stop(LockTimeout))
      else if w.halt.AtReceiptWrite? then (full.(receipt := Malformed), Stop(LockTimeout))
      else (full.(receipt := Doc(MakeReceipt(cfg, k, dec))), Clear)
  }

  /** What restoring an existing queue checks. */
  predicate Restorable(rules: Rules, d: Desk, q: Queue, view: View) {
    forall a | a in q.actions ::
      rules.check(a, Restore, view, d.receipt) && (a.status.Running? ==> VerifyClaim(d.claims, a).Pass?)
  }

  /** initialize: a missing queue is built, an existing one only read back. */
  function OpenQueue(rules: Rules, d: Desk, op: Op, view: View): (Desk, Guard)
    requires op.Initialize?
  {
    match d.queue
    case Missing =>
      var actions := rules.initial(op, view, d.receipt);
      if actions.Err? then (d, Stop(actions.code))
      else (d.(queue := Doc(Queue(Some(op.mission), op.plan, actions.value))), Clear)
    case Malformed => (d, Stop(ValueInvalid))
    case OldSchema => (d, Stop(MigrationRequired))
    case Doc(q) => (d, Need(Restorable(rules, d, q, view), CharterBinding))
  }

  function ApproveCharter(cfg: Config, mission: string, d: Desk, c: Charter, dec: Decision, line: Line, w: World): (Desk, Guard) {
    var (frozen, done) := FreezeCharter(cfg, d, c, dec, line, w);
    if done.Stop? then (frozen, done)
    else if w.halt.AtBootstrap? then (frozen, Stop(LockTimeout))
    else OpenQueue(RulesOf(cfg, mission), frozen, Initialize(mission, mission + "-plan"), w.restore)
  }

  // ---------------------------------------------------------------- one mission at the console

  /** The program's rules in the directory of a mission. */
  function RulesOf(cfg: Config, mission: string): Rules {
    Konoha(cfg.(directory := mission))
  }

  ghost function AtAction(rules: Rules, d: Desk, a: Action, line: Line, w: World): (Desk, Answer) {
    if line.text == a.approvalPhrase then
      ApproveAction(rules, d, Approve(a.id, line.text, line.actor, line.time), w)
    else if line.text == a.rejectionPhrase then
      RejectAction(rules, d, Reject(a.id, line.text, a.argumentsHash), a.skill, w)
    else (d, Ignored)
  }

  predicate ReviewOpen(p: Papers) { p.review.Some? && p.review.value.status.ReviewProposed? }
  predicate TeachbackOpen(p: Papers) { p.teachback == Some(AwaitingExplanation) }
  predicate ClosureOpen(p: Papers) { p.closure.Some? && !p.closure.value.closed }

  /** The record gates, in order. */
  function AtRecords(d: Desk, line: Line, w: World): (Desk, Answer) {
    var p := d.papers;
    if ReviewOpen(p) then
      if line.text == ReviewPhrase(p.review.value) then ApproveReview(d, w)
      else if line.text == ChangesPhrase(p.review.value) then RequestChanges(d, p.review.value)
      else (d, Ignored)
    else if TeachbackOpen(p) then RecordTeachback(d, line.text, w)
    else if ClosureOpen(p) && line.text == ClosurePhrase(p.closure.value) then ApproveClosure(d, w)
    else (d, Ignored)
  }

  // ---------------------------------------------------------------- the console over all missions

  /** The missions of a workspace and the memory of the console: the mission whose queue and
      records it has open, and the pending charter and decision. */
  datatype House = House(
    desks: map<string, Desk>, focus: Option<string>, charter: Option<Charter>, decision: Option<Decision>)

  function DeskOf(h: House, mission: string): Desk {
    if mission in h.desks then h.desks[mission] else EmptyDesk
  }

  function WithDesk(h: House, mission: string, d: Desk): House {
    h.(desks := h.desks[mission := d])
  }

  /** propose: overwrites the decision and charter files of the mission the request names,
      whatever they hold, and opens that mission. */
  function ProposeMission(cfg: Config, h: House, w: World): (House, Answer) {
    if w.offer.None? then (h, Ignored) else
    var Offer(c, dec) := w.offer.value;
    var m := dec.missionId;
    if c.missionId != m || !c.state.CharterProposed? || ValidateCharterConstruction(cfg, c, dec).Fail?
    then (h, Declined(CharterBinding))
    else if w.halt.AtOffer? then (WithDesk(h, m, DeskOf(h, m).(decision := Doc(dec))), Declined(LockTimeout))
    else
      (House(h.desks[m := DeskOf(h, m).(decision := Doc(dec), charter := Doc(c))], Some(m), Some(c), Some(dec)), Recorded)
  }

  /** The gate of a pending charter. */
  function AtCharter(cfg: Config, h: House, c: Charter, line: Line, w: World): (House, Answer) {
    if line.text == c.approvalPhrase then
      if h.decision.None? || h.focus.None? then (h, Declined(KeyMissing))
      else
        var m := h.focus.value;
        var (d, done) := ApproveCharter(cfg, m, DeskOf(h, m), c, h.decision.value, line, w);
        if done.Stop? then (WithDesk(h, m, d), Declined(done.code))
        else (WithDesk(h, m, d).(charter := None, decision := None), Passed(NextPending(RowsOf(d.queue)), None))
    else if line.text == CharterRejection(c) then
      if w.halt.AtRejection? then (h, Declined(MissionBinding)) else (h.(charter := None, decision := None), Recorded)
    else (h, Ignored)
  }

  function Lower(text: string): string {
    seq(|text|, i requires 0 <= i < |text| => if 'A' <= text[i] <= 'Z' then text[i] - 'A' + 'a' else text[i])
  }

  /** Words that the console takes for itself; they touch no mission file. */
  predicate IsCommand(text: string) {
    && text != "" && text[0] == '/'
    && (StartsWith(Lower(text), "/local-model")
        || Lower(text) in {"/exit", "/quit", "/help", "/status", "/pending", "/details", "/actions"})
  }

  /** What one line typed at the console does. */
  ghost function Handle(cfg: Config, h: House, line: Line, w: World): (House, Answer) {
    if line.text == "" || IsCommand(line.text) then (h, Ignored)
    else if h.charter.Some? then AtCharter(cfg, h, h.charter.value, line, w)
    else if h.focus.None? then ProposeMission(cfg, h, w)
    else
      var m := h.focus.value;
      var d := DeskOf(h, m);
      var next := NextPending(RowsOf(d.queue));
      if next.Some? then
        var (d', answer) := AtAction(RulesOf(cfg, m), d, next.value, line, w);
        (WithDesk(h, m, d'), answer)
      else if ReviewOpen(d.papers) || TeachbackOpen(d.papers) || ClosureOpen(d.papers) then
        var (d', answer) := AtRecords(d, line, w);
        var closed := ClosureOpen(d.papers) && !ReviewOpen(d.papers) && !TeachbackOpen(d.papers) && answer.Recorded?;
        (WithDesk(h, m, d').(focus := if closed then None else h.focus), answer)
      else ProposeMission(cfg, h, w)
  }

  /** A new process: the console opens the active mission, and takes up its charter if that
      is still only proposed. */
  function Reopen(h: House, mission: Option<string>): House {
    if mission.None? then House(h.desks, None, None, None)
    else
      var d := DeskOf(h, mission.value);
      var pending := d.charter.Doc? && d.charter.value.state.CharterProposed?;
      House(h.desks[mission.value := d], mission, if pending then Some(d.charter.value) else None,
            if pending && d.decision.Doc? then Some(d.decision.value) else None)
  }

  /** What happens at a console: a line of text, a new process, a new process that is started
      with a request and only proposes, or somebody's edit of a mission's charter and decision
      files. */
  datatype Input =
    | Type(line: Line, world: World)
    | Restart(active: Option<string>)
    | OneShot(active: Option<string>, world: World)
    | Edit(mission: string, charter: File<Charter>, decision: File<Decision>)

  ghost function React(cfg: Config, h: House, input: Input): House {
    match input
    case Type(line, world) => Handle(cfg, h, line, world).0
    case Restart(active) => Reopen(h, active)
    case OneShot(active, world) => ProposeMission(cfg, Reopen(h, active), world).0
    case Edit(m, charter, decision) => WithDesk(h, m, DeskOf(h, m).(charter := charter, decision := decision))
  }
}
