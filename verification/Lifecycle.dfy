/** The review, Teachback and closure records of a mission, and the validation of its
    executed actions that a review rests on. */
module Lifecycle {
  import opened Common
  import opened Authority

  datatype Counts = Counts(completed: nat, rejected: nat, failed: nat, proposed: nat, running: nat)

  datatype ReviewStatus = ReviewProposed | ReviewRecorded | ChangesRequested

  /** `suffix` is the shortened digest in the ids and phrases; it covers a timestamp, so the
      model lets it be anything. */
  datatype Review = Review(missionId: Option<string>, counts: Counts, suffix: string, status: ReviewStatus)

  datatype Teachback = AwaitingExplanation | TeachbackRecorded

  datatype Closure = Closure(suffix: string, closed: bool)

  /** The three record files. */
  datatype Papers = Papers(review: Option<Review>, teachback: Option<Teachback>, closure: Option<Closure>)

  /** One command report among the evidence files. */
  datatype Proof = Proof(exitCode: Option<int>, status: string)

  type Disk = string -> File<Proof>

  /** What the review, Teachback and closure tools hand back. */
  datatype ReviewFile = ReviewFile(decision: string, humanApproval: bool)
  datatype ReviewResult = ReviewResult(paths: nat, file: File<ReviewFile>)
  datatype TeachbackFile = TeachbackFile(result: string, completedByUser: bool)
  datatype TeachbackResult = TeachbackResult(path: string, file: File<TeachbackFile>)
  datatype ClosureResult = ClosureResult(status: string, code: string)

  // ---------------------------------------------------------------- validation of the queue

  function CountOf(actions: seq<Action>, status: Status): nat {
    if actions == [] then 0
    else CountOf(actions[..|actions| - 1], status) + if actions[|actions| - 1].status == status then 1 else 0
  }

  function Tally(actions: seq<Action>): Counts {
    Counts(CountOf(actions, Completed), CountOf(actions, Rejected), CountOf(actions, Failed),
           CountOf(actions, Proposed), CountOf(actions, Running))
  }

  function Outputs(a: Action): seq<string> {
    if a.evidence.Some? && a.evidence.value.report.Some? then a.evidence.value.report.value.outputs else []
  }

  predicate ProofHolds(disk: Disk, path: string) {
    match disk(path)
    case Doc(proof) =>
      && (proof.exitCode.None? || proof.exitCode == Some(0))
      && proof.status !in {"failed", "blocked", "error"}
    case _ => false
  }

  predicate Pending(a: Action) {
    a.status.Proposed? || a.status.Running?
  }

  /** Something was completed, nothing failed and nothing is pending. */
  predicate Settled(actions: seq<Action>) {
    && (exists a | a in actions :: a.status.Completed?)
    && (forall a | a in actions :: !a.status.Failed? && !Pending(a))
  }

  predicate Proven(disk: Disk, actions: seq<Action>) {
    forall a | a in actions :: forall path | path in Outputs(a) :: ProofHolds(disk, path)
  }

  /** What validate_actions answers. */
  ghost function Validation(disk: Disk, actions: seq<Action>): Result<Counts> {
    if Settled(actions) && Proven(disk, actions) then Ok(Tally(actions)) else Err(ValueInvalid)
  }

  lemma CountIsPresence(actions: seq<Action>, status: Status)
    ensures CountOf(actions, status) == 0 <==> forall a | a in actions :: a.status != status
  {
    if actions != [] {
      var front, last := actions[..|actions| - 1], actions[|actions| - 1];
      CountIsPresence(front, status);
      assert actions == front + [last];
    }
  }

  lemma CountsMeanSettled(actions: seq<Action>)
    ensures
      var t := Tally(actions);
      Settled(actions) <==> t.failed == 0 && t.proposed == 0 && t.running == 0 && t.completed >= 1
  {
    CountIsPresence(actions, Failed);
    CountIsPresence(actions, Proposed);
    CountIsPresence(actions, Running);
    CountIsPresence(actions, Completed);
  }

  function Bump(counts: Counts, status: Status): Counts {
    match status
    case Completed => counts.(completed := counts.completed + 1)
    case Rejected => counts.(rejected := counts.rejected + 1)
    case Failed => counts.(failed := counts.failed + 1)
    case Proposed => counts.(proposed := counts.proposed + 1)
    case Running => counts.(running := counts.running + 1)
    case Blocked => counts
  }

  lemma TallyBumps(actions: seq<Action>, k: nat)
    requires k < |actions|
    ensures Tally(actions[..k + 1]) == Bump(Tally(actions[..k]), actions[k].status)
  {
    var upTo := actions[..k + 1];
    assert upTo[..|upTo| - 1] == actions[..k];
  }

  /** validate_actions: one pass that counts statuses and collects evidence paths, then the
      verdict on the counters, then a pass over the collected paths. Blocked actions reach
      no counter. */
  method ValidateActions(actions: seq<Action>, disk: Disk) returns (r: Result<Counts>)
    ensures r == Validation(disk, actions)
    ensures r.Ok? <==>
      && (exists a | a in actions :: a.status == Completed)
      && (forall a | a in actions :: a.status in {Completed, Rejected, Blocked} && EvidenceInOrder(disk, a))
  {
    AcceptedIff(disk, actions);
    hide EvidenceInOrder;
    if actions == [] { return Err(ValueInvalid); }
    var counts := Counts(0, 0, 0, 0, 0);
    var paths: seq<string> := [];
    for k := 0 to |actions|
      invariant counts == Tally(actions[..k])
      invariant forall path :: path in paths <==> exists a :: a in actions[..k] && path in Outputs(a)
    {
      TallyBumps(actions, k);
      assert actions[..k + 1] == actions[..k] + [actions[k]];
      counts := Bump(counts, actions[k].status);
      paths := paths + Outputs(actions[k]);
    }
    assert actions[..|actions|] == actions;
    CountsMeanSettled(actions);
    if counts.failed > 0 || counts.proposed > 0 || counts.running > 0 || counts.completed < 1 {
      return Err(ValueInvalid);
    }
    for k := 0 to |paths|
      invariant forall i | 0 <= i < k :: ProofHolds(disk, paths[i])
    {
      assert paths[k] in paths;
      if !ProofHolds(disk, paths[k]) { return Err(ValueInvalid); }
    }
    forall a, path | a in actions && path in Outputs(a) ensures ProofHolds(disk, path) {
      assert path in paths;
    }
    r := Ok(counts);
  }

  /** Every file that an action's report names is there and reports success. */
  predicate EvidenceInOrder(disk: Disk, a: Action) {
    a.evidence.Some? && a.evidence.value.report.Some? ==>
      forall i :: 0 <= i < |a.evidence.value.report.value.outputs| ==>
        ReportsSuccess(disk(a.evidence.value.report.value.outputs[i]))
  }

  predicate ReportsSuccess(file: File<Proof>) {
    && file.Doc? && (file.value.exitCode.Some? ==> file.value.exitCode.value == 0)
    && file.value.status != "failed" && file.value.status != "blocked" && file.value.status != "error"
  }

  lemma ProvenIff(disk: Disk, a: Action)
    ensures (forall path | path in Outputs(a) :: ProofHolds(disk, path)) <==> EvidenceInOrder(disk, a)
  {
    forall path ensures ProofHolds(disk, path) <==> ReportsSuccess(disk(path)) {}
    if forall path | path in Outputs(a) :: ProofHolds(disk, path) {
      forall i | 0 <= i < |Outputs(a)| ensures ReportsSuccess(disk(Outputs(a)[i])) {
        assert Outputs(a)[i] in Outputs(a);
        assert ProofHolds(disk, Outputs(a)[i]);
      }
    }
  }

  /** A queue is accepted exactly if something was completed, every action is completed,
      rejected or blocked, and all evidence is in order. */
  lemma AcceptedIff(disk: Disk, actions: seq<Action>)
    ensures Validation(disk, actions).Ok? <==>
      && (exists a | a in actions :: a.status == Completed)
      && (forall a | a in actions :: a.status in {Completed, Rejected, Blocked} && EvidenceInOrder(disk, a))
  {
    hide EvidenceInOrder, ProofHolds, Outputs;
    forall a ensures (forall path | path in Outputs(a) :: ProofHolds(disk, path)) <==> EvidenceInOrder(disk, a) {
      ProvenIff(disk, a);
    }
  }

  // ---------------------------------------------------------------- what validation leaves open

  /** The review text speaks of completed, rejected and failed actions only. An accepted
      queue consists of completed and rejected actions exactly when none is blocked. */
  lemma AcceptedMeansDecidedIffNoneBlocked(disk: Disk, actions: seq<Action>)
    requires Validation(disk, actions).Ok?
    ensures (forall a | a in actions :: a.status.Completed? || a.status.Rejected?)
       <==> (forall a | a in actions :: !a.status.Blocked?)
    ensures Tally(actions).completed + Tally(actions).rejected == |actions| <==> forall a | a in actions :: !a.status.Blocked?
  {
    CountsMeanSettled(actions);
    CountsCoverAll(actions);
    CountIsPresence(actions, Blocked);
  }

  lemma CountsCoverAll(actions: seq<Action>)
    ensures
      var t := Tally(actions);
      t.completed + t.rejected + t.failed + t.proposed + t.running + CountOf(actions, Blocked) == |actions|
  {
    if actions != [] { CountsCoverAll(actions[..|actions| - 1]); }
  }

  /** A mission with a blocked action still passes validation: one action completed with its
      evidence in order, and one blocked before it was dispatched. */
  lemma BlockedActionsPassValidation(disk: Disk, done: Action, stuck: Action)
    requires done.status.Completed? && done.evidence.Some? && done.evidence.value.report.Some?
    requires forall path | path in Outputs(done) :: ProofHolds(disk, path)
    requires stuck.status.Blocked? && stuck.evidence.Some? && stuck.evidence.value.report.None?
    ensures Validation(disk, [done, stuck]) == Ok(Counts(1, 0, 0, 0, 0))
  {
    hide ProofHolds;
    var actions := [done, stuck];
    assert done in actions;
    assert actions[..1] == [done];
    TallyBumps(actions, 0);
    TallyBumps(actions, 1);
    assert actions[..2] == actions && actions[..0] == [];
  }

  // ---------------------------------------------------------------- the records

  ghost function WithReview(
    papers: Papers, mission: Option<string>, actions: seq<Action>, disk: Disk, suffix: string): (Papers, Result<Review>)
  {
    if papers.review.Some? then (papers, Ok(papers.review.value))
    else
      match Validation(disk, actions)
      case Err(code) => (papers, Err(code))
      case Ok(counts) =>
        var review := Review(mission, counts, suffix, ReviewProposed);
        (papers.(review := Some(review)), Ok(review))
  }

  predicate ReviewEvidenceHolds(result: ReviewResult) {
    result.paths == 1 && result.file.Doc? && result.file.value.decision == "approved" && result.file.value.humanApproval
  }

  predicate TeachbackEvidenceHolds(result: TeachbackResult) {
    result.path != "" && result.file.Doc? && result.file.value.result == "passed" && result.file.value.completedByUser
  }

  predicate ClosureHolds(result: ClosureResult) {
    result.status == "passed" && result.code == "MISSION_CLOSED"
  }

  function ReviewMarked(papers: Papers, result: ReviewResult): (Papers, Guard) {
    if papers.review.None? || !ReviewEvidenceHolds(result) then (papers, Stop(ValueInvalid))
    else (papers.(review := Some(papers.review.value.(status := ReviewRecorded))), Clear)
  }

  predicate IsRecorded(review: Option<Review>) {
    review.Some? && review.value.status.ReviewRecorded?
  }

  function WithTeachback(papers: Papers, manifestReadable: bool): (Papers, Guard) {
    if papers.teachback.Some? then (papers, Clear)
    else if !IsRecorded(papers.review) || !manifestReadable then (papers, Stop(ValueInvalid))
    else (papers.(teachback := Some(AwaitingExplanation)), Clear)
  }

  function TeachbackMarked(papers: Papers, result: TeachbackResult): (Papers, Guard) {
    if papers.teachback.None? || !TeachbackEvidenceHolds(result) then (papers, Stop(ValueInvalid))
    else (papers.(teachback := Some(TeachbackRecorded)), Clear)
  }

  function WithClosure(papers: Papers, suffix: string): (Papers, Guard) {
    if papers.closure.Some? then (papers, Clear)
    else if !IsRecorded(papers.review) || papers.teachback != Some(TeachbackRecorded) then (papers, Stop(ValueInvalid))
    else (papers.(closure := Some(Closure(suffix, false))), Clear)
  }

  function ClosureMarked(papers: Papers, result: ClosureResult): (Papers, Guard) {
    if papers.closure.None? || !ClosureHolds(result) then (papers, Stop(ValueInvalid))
    else (papers.(closure := Some(papers.closure.value.(closed := true))), Clear)
  }

  /** The records follow one another: a closure needs a recorded Teachback and a Teachback
      request a recorded review. */
  predicate Ordered(papers: Papers) {
    && (papers.closure.Some? ==> papers.teachback == Some(TeachbackRecorded))
    && (papers.teachback.Some? ==> IsRecorded(papers.review))
  }

  /** LifecycleStore, its three files as fields. */
  class LifecycleStore {
    var review: Option<Review>
    var teachback: Option<Teachback>
    var closure: Option<Closure>

    ghost function Contents(): Papers
      reads this
    {
      Papers(review, teachback, closure)
    }

    constructor ()
      ensures Contents() == Papers(None, None, None)
    {
      review, teachback, closure := None, None, None;
    }

    /** A review is proposed only over a validated queue; an existing one is returned as is. */
    method BuildReviewProposal(mission: Option<string>, actions: seq<Action>, disk: Disk, suffix: string)
      returns (r: Result<Review>)
      modifies this`review
      ensures (Contents(), r) == WithReview(old(Contents()), mission, actions, disk, suffix)
      ensures r.Ok? && old(review).None? ==> Settled(actions) && Proven(disk, actions)
      ensures old(Ordered(Contents())) ==> Ordered(Contents())
    {
      if review.Some? { return Ok(review.value); }
      var counts := ValidateActions(actions, disk);
      if counts.Err? { return Err(counts.code); }
      review := Some(Review(mission, counts.value, suffix, ReviewProposed));
      r := Ok(review.value);
    }

    method MarkReviewRecorded(result: ReviewResult) returns (r: Guard)
      modifies this`review
      ensures (Contents(), r) == ReviewMarked(old(Contents()), result)
      ensures r.Clear? <==> old(review).Some? && result == ReviewResult(1, Doc(ReviewFile("approved", true)))
      ensures old(Ordered(Contents())) ==> Ordered(Contents())
    {
      if review.None? || !ReviewEvidenceHolds(result) { return Stop(ValueInvalid); }
      review := Some(review.value.(status := ReviewRecorded));
      r := Clear;
    }

    method BuildTeachbackRequest(manifestReadable: bool) returns (r: Guard)
      modifies this`teachback
      ensures (Contents(), r) == WithTeachback(old(Contents()), manifestReadable)
      ensures old(Ordered(Contents())) ==> Ordered(Contents())
    {
      if teachback.Some? { return Clear; }
      if review.None? || review.value.status != ReviewRecorded || !manifestReadable { return Stop(ValueInvalid); }
      teachback := Some(AwaitingExplanation);
      r := Clear;
    }

    method MarkTeachbackRecorded(result: TeachbackResult) returns (r: Guard)
      modifies this`teachback
      ensures (Contents(), r) == TeachbackMarked(old(Contents()), result)
      ensures r.Clear? <==>
        old(teachback).Some? && result.path != "" && result.file == Doc(TeachbackFile("passed", true))
      ensures old(Ordered(Contents())) ==> Ordered(Contents())
    {
      if teachback.None? || !TeachbackEvidenceHolds(result) { return Stop(ValueInvalid); }
      teachback := Some(TeachbackRecorded);
      r := Clear;
    }

    method BuildClosureProposal(suffix: string) returns (r: Guard)
      modifies this`closure
      ensures (Contents(), r) == WithClosure(old(Contents()), suffix)
      ensures old(Ordered(Contents())) ==> Ordered(Contents())
    {
      if closure.Some? { return Clear; }
      if review.None? || review.value.status != ReviewRecorded { return Stop(ValueInvalid); }
      if teachback.None? || teachback.value != TeachbackRecorded { return Stop(ValueInvalid); }
      closure := Some(Closure(suffix, false));
      r := Clear;
    }

    method MarkClosed(result: ClosureResult) returns (r: Guard)
      modifies this`closure
      ensures (Contents(), r) == ClosureMarked(old(Contents()), result)
      ensures r.Clear? <==> old(closure).Some? && result == ClosureResult("passed", "MISSION_CLOSED")
      ensures old(Ordered(Contents())) ==> Ordered(Contents())
    {
      if closure.None? || !ClosureHolds(result) { return Stop(ValueInvalid); }
      closure := Some(closure.value.(closed := true));
      r := Clear;
    }
  }
}
