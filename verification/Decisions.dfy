/** What a human decision does, exactly: claims, rejections, appended actions, the frozen
    charter and the records, each told by the fields, the phrase and the evidence it takes. */
module Decisions {
  import opened Common
  import opened Text
  import opened Registry
  import opened Authority
  import opened Builder
  import opened QueueProtocol
  import opened QueueTable
  import opened QueueRules
  import opened Lifecycle
  import opened Session
  import opened SessionTheorems
  import ReceiptProtocol

  // ---------------------------------------------------------------- claims

  /** A written claim covers an action exactly if the action is the claimed one (mission, plan,
      id and hash) and any approval recorded in it is the one that made the claim. */
  lemma ClaimVerifiesIff(claims: map<string, ClaimFile>, p: Pid, op: Op, a: Action, b: Action)
    requires op.Approve? && a.id == op.id == b.id
    ensures VerifyClaim(claims[op.id := Written(p, ClaimFor(op, a))], b).Pass? <==>
      && b.missionId == a.missionId && b.planId == a.planId && b.argumentsHash == a.argumentsHash
      && (b.evidence.Some? ==>
            && b.evidence.value.approvedBy == op.approver && b.evidence.value.approvedAt == op.time
            && b.evidence.value.argumentsHash == a.argumentsHash)
  {
  }

  /** And a claim that does not cover it says why. */
  lemma ClaimDiagnosis(claims: map<string, ClaimFile>, a: Action)
    ensures a.id !in claims ==> VerifyClaim(claims, a) == Fail(ClaimMissing)
    ensures a.id in claims && claims[a.id].Torn? ==> VerifyClaim(claims, a) == Fail(ClaimInvalid)
    ensures a.id in claims && claims[a.id].Written? && VerifyClaim(claims, a).Fail? ==>
      VerifyClaim(claims, a).code == ClaimBinding
  {
  }

  /** A claim is published only under an unclaimed id; whoever comes second learns whether the
      first claim is torn, is for the same content, or is for another. */
  lemma SecondClaimFails(claims: map<string, ClaimFile>, p: Pid, op: Op, a: Action, op': Op, a': Action)
    requires op.Approve? && op'.Approve? && a.id == a'.id == op.id
    ensures a.id !in claims ==> PublishClaim(claims, ClaimFor(op', a')).Pass?
    ensures PublishClaim(claims[op.id := Torn(p)], ClaimFor(op', a')) == Fail(ClaimInvalid)
    ensures
      var second := PublishClaim(claims[op.id := Written(p, ClaimFor(op, a))], ClaimFor(op', a'));
      second == Fail(if a.missionId == a'.missionId && a.planId == a'.planId && a.argumentsHash == a'.argumentsHash
                     then AlreadyClaimed else ClaimBinding)
  {
  }

  // ---------------------------------------------------------------- rejections

  /** A rejection succeeds exactly if the action is proposed, named by its hash, unclaimed,
      passes the authority check and is rejected by its phrase; then that row is rejected and
      nothing else changes, and otherwise nothing changes at all. */
  lemma RejectionSucceedsIff(rules: Rules, d: Desk, op: Op, w: World, q: Queue, k: nat)
    requires op.Reject? && d.queue == Doc(q) && Find(q.actions, op.id) == Some(k)
    ensures
      var a := q.actions[k];
      var (d', r) := RejectChecked(rules, d, op, w);
      if && a.status.Proposed? && op.hash == a.argumentsHash && op.phrase == a.rejectionPhrase && op.id !in d.claims
         && rules.check(a, Restore, w.restore, d.receipt)
      then r == Ok(a.(status := Rejected)) && d' == d.(queue := Doc(q.(actions := q.actions[k := a.(status := Rejected)])))
      else r.Err? && d' == d
  {
    hide VerifyClaim;
  }

  /** Nobody decides on an action that is not there, or over a queue that cannot be read. */
  lemma UnknownIsRefused(rules: Rules, d: Desk, op: Op, w: World)
    requires op.Approve? || op.Reject?
    requires d.queue.Doc? ==> Find(d.queue.value.actions, op.id).None?
    ensures op.Approve? ==> ApproveAndDispatch(rules, d, op, w).0 == d && ApproveAndDispatch(rules, d, op, w).1.Err?
    ensures op.Reject? ==> RejectChecked(rules, d, op, w).0 == d && RejectChecked(rules, d, op, w).1.Err?
  {
    hide StartCall, VerifyClaim, PublishClaim;
  }

  /** A queue that cannot be read stops everything, with its own diagnosis. */
  lemma UnreadableQueueStops(rules: Rules, d: Desk, op: Op, w: World)
    requires d.queue.Malformed? || d.queue.OldSchema?
    ensures
      var code := if d.queue.Malformed? then ValueInvalid else MigrationRequired;
      && (op.Approve? ==> ApproveAndDispatch(rules, d, op, w) == (d, Err(code)))
      && (op.Reject? ==> RejectChecked(rules, d, op, w) == (d, Err(code)))
      && (op.Append? ==> AppendChecked(rules, d, op, w.append) == (d, Stop(code)))
      && (op.Initialize? ==> OpenQueue(rules, d, op, w.restore) == (d, Stop(code)))
  {
    hide StartCall, VerifyClaim, PublishClaim;
  }

  /** Without a queue file nothing is appended: a queue belongs to a mission. */
  lemma UnopenedTakesNoFollowup(cfg: Config, d: Desk, op: Op, view: View)
    requires op.Append? && (d.queue.Missing? || (d.queue.Doc? && d.queue.value.mission != Some(op.mission)))
    ensures AppendChecked(Konoha(cfg), d, op, view) == (d, Stop(MissionBinding))
  {
    hide BuildAction, LoadAuthoritativeState;
  }

  // ---------------------------------------------------------------- appended actions

  /** What happens to a candidate. Under a new id it is appended exactly if it passes the check
      for follow-ups. Under an id that is taken, the queue stays, and the call succeeds
      exactly if the row is the same proposal and still passes restore. */
  lemma AppendDecides(rules: Rules, d: Desk, op: Op, view: View, q: Queue, b: Action)
    requires d.queue == Doc(q) && rules.candidate(op, q, view, d.receipt) == Ok(b)
    ensures
      var (d', r) := AppendChecked(rules, d, op, view);
      match Find(q.actions, b.id)
      case None =>
        if rules.check(b, FollowupAppend, view, d.receipt)
        then r.Clear? && d' == d.(queue := Doc(q.(actions := q.actions + [b]))) else r.Stop? && d' == d
      case Some(k) =>
        var a := q.actions[k];
        && d' == d
        && (r.Clear? <==>
              && a.missionId == b.missionId && a.planId == b.planId && a.skill == b.skill && a.tier == b.tier
              && a.arguments == b.arguments && a.argumentsHash == b.argumentsHash
              && rules.check(a, Restore, view, d.receipt))
  {
  }

  lemma NewIsFound(rows: seq<Action>, b: Action)
    requires Find(rows, b.id).None?
    ensures Find(rows + [b], b.id) == Some(|rows|)
  {
    if rows != [] {
      assert (rows + [b])[1..] == rows[1..] + [b];
      NewIsFound(rows[1..], b);
    }
  }

  /** A fresh proposal that passes as a follow-up passes restore. */
  lemma FollowupRestores(cfg: Config, b: Action, view: View, receipt: File<Receipt>)
    requires b.status.Proposed? && Konoha(cfg).check(b, FollowupAppend, view, receipt)
    ensures Konoha(cfg).check(b, Restore, view, receipt)
  {
    hide LoadAuthoritativeState, CheckBinding, ActionId;
  }

  lemma CandidateIgnoresRows(cfg: Config, op: Op, q: Queue, rows: seq<Action>, view: View, receipt: File<Receipt>)
    ensures Konoha(cfg).candidate(op, q.(actions := rows), view, receipt) == Konoha(cfg).candidate(op, q, view, receipt)
  {
    hide LoadAuthoritativeState, BuildAction, InitialActions;
  }

  lemma CandidateIsProposed(cfg: Config, op: Op, q: Queue, view: View, receipt: File<Receipt>)
    requires Konoha(cfg).candidate(op, q, view, receipt).Ok?
    ensures Konoha(cfg).candidate(op, q, view, receipt).value.status.Proposed?
  {
    hide LoadAuthoritativeState, BuildArguments, InitialActions, AfterDash, Upper;
  }

  /** Appending is idempotent: the second call with the same documents succeeds and changes
      nothing. */
  lemma AppendIsIdempotent(cfg: Config, d: Desk, op: Op, view: View)
    requires AppendChecked(Konoha(cfg), d, op, view).1.Clear?
    ensures
      var d' := AppendChecked(Konoha(cfg), d, op, view).0;
      AppendChecked(Konoha(cfg), d', op, view) == (d', Clear)
  {
    hide Konoha;
    var q := LoadQueue(d.queue).value;
    var b := Konoha(cfg).candidate(op, q, view, d.receipt).value;
    if Find(q.actions, b.id).None? {
      NewIsFound(q.actions, b);
      CandidateIgnoresRows(cfg, op, q, q.actions + [b], view, d.receipt);
      CandidateIsProposed(cfg, op, q, view, d.receipt);
      FollowupRestores(cfg, b, view, d.receipt);
      hide Find;
    }
  }

  // ---------------------------------------------------------------- the charter

  predicate Uncut(halt: Halt) {
    halt != AtCharterWrite && halt != AtReceiptCreate && halt != AtReceiptWrite
  }

  /** Approving a charter succeeds exactly with its phrase, by somebody, at some time, over a
      proposal that can be built and no receipt, uncut; it then leaves the three files. */
  lemma FreezingSucceedsIff(cfg: Config, d: Desk, c: Charter, dec: Decision, line: Line, w: World)
    ensures FreezeCharter(cfg, d, c, dec, line, w).1.Clear? <==>
      && line.text == c.approvalPhrase && Strip(line.actor) != "" && line.time != ""
      && c.state.CharterProposed? && ValidateCharterConstruction(cfg, c, dec).Pass?
      && d.receipt.Missing? && Uncut(w.halt)
    ensures FreezeCharter(cfg, d, c, dec, line, w).1.Clear? ==>
      var k := c.(state := CharterApproved, approvedAt := line.time, approvedBy := Strip(line.actor));
      FreezeCharter(cfg, d, c, dec, line, w).0 == d.(
        decision := Doc(dec), charter := Doc(k),
        receipt := Doc(Receipt(c.missionId, c.charterId, cfg.sha(CharterText(k)), dec.decisionId, cfg.sha(DecisionText(dec)),
                               line.time, cfg.sha(PlainText(line.text)))))
  {
    hide ValidateCharterConstruction, Strip, ReceiptPreconditions;
    if ValidateCharterConstruction(cfg, c, dec).Pass? && line.time != "" {
      ReceiptProtocol.ConstructedCharterCanBeReceipted(cfg, c, dec, Strip(line.actor), line.time);
    }
    UntimedIsRefused(cfg, c, dec, Strip(line.actor));
  }

  lemma UntimedIsRefused(cfg: Config, c: Charter, d: Decision, who: string)
    ensures ReceiptPreconditions(cfg, Approved(c, "", who), d).Fail?
  {
    hide CharterShapeOk, DecisionShapeOk;
  }

  /** A queue is opened only for the mission of the directory, whose charter loads: one fresh
      initial action per proposed skill, in order, under that mission and plan. */
  lemma OpenedForItsMission(cfg: Config, d: Desk, op: Op, view: View)
    requires op.Initialize? && d.queue.Missing? && OpenQueue(Konoha(cfg), d, op, view).1.Clear?
    ensures view.charter.Doc? && op.mission == view.charter.value.missionId == cfg.directory
    ensures OpenQueue(Konoha(cfg), d, op, view).0 == d.(queue := OpenQueue(Konoha(cfg), d, op, view).0.queue)
    ensures
      var q := OpenQueue(Konoha(cfg), d, op, view).0.queue;
      && q.Doc? && q.value.mission == Some(op.mission) && q.value.plan == op.plan
      && |q.value.actions| == |view.charter.value.proposed|
      && forall i :: 0 <= i < |q.value.actions| ==>
           var a := q.value.actions[i];
           && a.skill == view.charter.value.proposed[i] && a.tier == Initial && a.status == Proposed
           && a.missionId == op.mission && a.planId == op.plan
  {
    PassedLoadNames(cfg, view, d.receipt);
    var docs := LoadAuthoritativeState(cfg, view.charter, view.decision, d.receipt).value;
    hide LoadAuthoritativeState, CheckAll, BuildAction;
    var rows := OpenQueue(Konoha(cfg), d, op, view).0.queue.value.actions;
    forall i | 0 <= i < |rows|
      ensures
        && rows[i].skill == docs.0.proposed[i] && rows[i].tier == Initial && rows[i].status == Proposed
        && rows[i].missionId == op.mission && rows[i].planId == op.plan
    {
      InitialIsFresh(cfg, op.mission, op.plan, docs.0.proposed[i], docs.0, docs.1);
    }
  }

  lemma PassedLoadNames(cfg: Config, view: View, receipt: File<Receipt>)
    ensures
      var docs := LoadAuthoritativeState(cfg, view.charter, view.decision, receipt);
      docs.Ok? ==> view.charter.Doc? && docs.value.0 == view.charter.value && docs.value.0.missionId == cfg.directory
  {
    hide CharterShapeOk, DecisionShapeOk, RegistrationOk, VerifyReceipt;
  }

  lemma InitialIsFresh(cfg: Config, mission: string, plan: string, skill: SkillId, c: Charter, d: Decision)
    requires BuildAction(cfg, mission, plan, skill, Initial, c, d, map[]).Ok?
    ensures
      var a := BuildAction(cfg, mission, plan, skill, Initial, c, d, map[]).value;
      a.skill == skill && a.tier == Initial && a.status == Proposed && a.missionId == mission && a.planId == plan
  {
    hide BuildArguments, AfterDash, Upper;
  }

  // ---------------------------------------------------------------- the records

  /** The text begins with TEACHBACK: in any case, and at least twenty characters follow. */
  predicate Explanation(text: string) {
    && |text| >= 10
    && (forall i | 0 <= i < 10 ::
          text[i] == "TEACHBACK:"[i]
          || ('a' <= text[i] <= 'z' && text[i] as int == "TEACHBACK:"[i] as int + ('a' as int - 'A' as int)))
    && |Strip(text[10..])| >= 20
  }

  lemma ExplainsIff(text: string)
    ensures Explains(text) <==> Explanation(text)
  {
    var prefix := "TEACHBACK:";
    hide Strip;
    if |text| >= 10 {
      assert forall i :: 0 <= i < 10 ==> Upper(text)[..10][i] == Upper(text)[i];
      assert Explains(text) <==> Upper(text)[..10] == prefix && |Strip(text[10..])| >= 20;
      forall i | 0 <= i < 10
        ensures Upper(text)[i] == prefix[i] <==>
          text[i] == prefix[i] || ('a' <= text[i] <= 'z' && text[i] as int == prefix[i] as int + ('a' as int - 'A' as int))
      {
        PrefixIsNotLower(i);
      }
    }
  }

  lemma PrefixIsNotLower(i: nat)
    requires i < 10
    ensures !('a' <= "TEACHBACK:"[i] <= 'z') && "TEACHBACK:"[i] <= 'Z'
  {
    assert "TEACHBACK:" == ['T', 'E', 'A', 'C', 'H', 'B', 'A', 'C', 'K', ':'];
  }

  /** A review leaves `proposed` only by its own phrase: recorded on one human approval on file,
      or sent back by the phrase for changes. */
  predicate ReviewMoves(p: Papers, p': Papers, line: Line, w: World) {
    p'.review == p.review ||
    (p.review.Some? && p.review.value.status == ReviewProposed
     && var r := p.review.value;
        || (&& line.text == "APROBAR REVIEW-" + Upper(r.suffix) && p'.review == Some(r.(status := ReviewRecorded))
            && w.review == ReviewResult(1, Doc(ReviewFile("approved", true))))
        || (line.text == "CAMBIOS REVIEW-" + Upper(r.suffix) && p'.review == Some(r.(status := ChangesRequested))))
  }

  /** A Teachback is asked for by the approval of the review, and recorded on an explanation
      that the user completed and that passed. */
  predicate TeachbackMoves(p: Papers, p': Papers, line: Line, w: World) {
    p'.teachback == p.teachback ||
    (p.teachback.None? && p'.teachback == Some(AwaitingExplanation) && w.manifestReadable
     && p.review != p'.review && p'.review.Some? && p'.review.value.status == ReviewRecorded) ||
    (p.teachback == Some(AwaitingExplanation) && p'.teachback == Some(TeachbackRecorded) && Explanation(line.text)
     && w.teachback.path != "" && w.teachback.file == Doc(TeachbackFile("passed", true)))
  }

  /** Closure is proposed by that explanation, and closed by its phrase on a passed result. */
  predicate ClosureMoves(p: Papers, p': Papers, line: Line, w: World) {
    p'.closure == p.closure ||
    (p.closure.None? && p'.closure == Some(Closure(w.suffix, false)) && p'.teachback == Some(TeachbackRecorded)
     && p.teachback == Some(AwaitingExplanation)) ||
    (p.closure.Some? && !p.closure.value.closed && p'.closure == Some(p.closure.value.(closed := true))
     && line.text == "APROBAR CIERRE-" + Upper(p.closure.value.suffix)
     && w.closure == ClosureResult("passed", "MISSION_CLOSED"))
  }

  /** The records move only so. */
  lemma RecordsAreSpoken(d: Desk, line: Line, w: World)
    ensures
      var d' := AtRecords(d, line, w).0;
      && d' == d.(papers := d'.papers)
      && ReviewMoves(d.papers, d'.papers, line, w) && TeachbackMoves(d.papers, d'.papers, line, w)
      && ClosureMoves(d.papers, d'.papers, line, w)
  {
    ExplainsIff(line.text);
    hide Explains, Explanation, Upper;
  }

  /** And they do move: the right word with the right evidence, uncut, is recorded. */
  lemma RecordsAdvance(d: Desk, line: Line, w: World)
    requires Ordered(d.papers) && w.halt.Nowhere?
    ensures ReviewOpen(d.papers) && line.text == "APROBAR REVIEW-" + Upper(d.papers.review.value.suffix)
            && w.review == ReviewResult(1, Doc(ReviewFile("approved", true))) && w.manifestReadable ==>
      && AtRecords(d, line, w).1.Recorded?
      && IsRecorded(AtRecords(d, line, w).0.papers.review)
      && AtRecords(d, line, w).0.papers.teachback == Some(AwaitingExplanation)
    ensures TeachbackOpen(d.papers) && Explanation(line.text)
            && w.teachback.path != "" && w.teachback.file == Doc(TeachbackFile("passed", true)) ==>
      && AtRecords(d, line, w).1.Recorded?
      && AtRecords(d, line, w).0.papers.teachback == Some(TeachbackRecorded)
      && AtRecords(d, line, w).0.papers.closure == Some(Closure(w.suffix, false))
    ensures ClosureOpen(d.papers) && line.text == "APROBAR CIERRE-" + Upper(d.papers.closure.value.suffix)
            && w.closure == ClosureResult("passed", "MISSION_CLOSED") ==>
      && AtRecords(d, line, w).1.Recorded?
      && AtRecords(d, line, w).0.papers.closure.value.closed
  {
    ExplainsIff(line.text);
    hide Explains, Explanation, Upper;
  }

  // ---------------------------------------------------------------- the whole console

  /** The action as it is handed to the dispatcher. */
  function Handed(a: Action, actor: string, time: string): Action {
    a.(status := Running, evidence := Some(Evidence(actor, time, a.argumentsHash, None)))
  }

  lemma ApprovalDispatches(rules: Rules, d: Desk, op: Op, w: World)
    requires op.Approve? && ApproveAndDispatch(rules, d, op, w).0.log != d.log
    ensures d.queue.Doc? && Row(d.queue.value, op.id).Ok? && op.id !in d.claims
    ensures
      var a := Row(d.queue.value, op.id).value;
      && a.status.Proposed? && op.phrase == a.approvalPhrase && op.approver != ""
      && ApproveAndDispatch(rules, d, op, w).0.log == d.log + [Handed(a, op.approver, op.time)]
  {
    hide RunCall;
    var q := LoadQueue(d.queue).value;
    var a := Row(q, op.id).value;
    var held := d.claims[op.id := Written(me, ClaimFor(op, a))];
    var evidence := Approval(op, a.argumentsHash, None);
    var started := Transition(held, q, op.id, Proposed, a.argumentsHash, Running, evidence);
    if started.Ok? {
      TransitionMoves(held, q, op.id, Proposed, a.argumentsHash, Running, evidence);
      var begun := d.(claims := held, queue := Doc(started.value));
      RunDispatches(rules, begun, started.value, Handed(a, op.approver, op.time), op, w);
    }
    hide Transition, VerifyClaim;
  }

  lemma RunDispatches(rules: Rules, d: Desk, q: Queue, act: Action, op: Op, w: World)
    requires op.Approve?
    ensures RunCall(rules, d, q, act, op, w).0.log in {d.log, d.log + [act]}
  {
    hide Transition, VerifyClaim, Block, Row;
  }

  /** Only an approval dispatches; what comes after it does not. */
  lemma AtActionDispatches(rules: Rules, d: Desk, a: Action, line: Line, w: World)
    requires NextPending(RowsOf(d.queue)) == Some(a)
    requires AtAction(rules, d, a, line, w).0.log != d.log
    ensures line.text == a.approvalPhrase && line.actor != "" && a.id !in d.claims
    ensures AtAction(rules, d, a, line, w).0.log == d.log + [Handed(a, line.actor, line.time)]
  {
    var approve := Approve(a.id, line.text, line.actor, line.time);
    if line.text == a.approvalPhrase {
      var (e, done) := ApproveAndDispatch(rules, d, approve, w);
      if done.Ok? { FollowKeepsLog(rules, e, FollowupOf(done.value), w); }
      if e.log != d.log { ApprovalDispatches(rules, d, approve, w); }
      OfferedIsFound(RowsOf(d.queue), a.id);
    } else if line.text == a.rejectionPhrase {
      var reject := Reject(a.id, line.text, a.argumentsHash);
      RejectDecides(rules, d, reject, w);
      var (e, rejected) := RejectChecked(rules, d, reject, w);
      if rejected.Ok? {
        FollowKeepsLog(rules, e, Ok(if a.skill.ApplyPatch? then Some(TestsAfter(rejected.value)) else None), w);
      }
    }
    hide ApproveAndDispatch, Follow, FollowupOf, RejectChecked, NextPending;
  }

  lemma FollowKeepsLog(rules: Rules, d: Desk, followup: Result<Option<Op>>, w: World)
    ensures
      var d' := Follow(rules, d, followup, w).0;
      d' == d.(queue := d'.queue, papers := d'.papers)
  {
    hide Validation, NextPending, SameProposal, Find;
  }

  lemma TurnDispatches(cfg: Config, h: House, line: Line, w: World, mission: string)
    requires DeskOf(Handle(cfg, h, line, w).0, mission).log != DeskOf(h, mission).log
    ensures h.focus == Some(mission) && h.charter.None? && NextPending(RowsOf(DeskOf(h, mission).queue)).Some?
    ensures
      var d, a := DeskOf(h, mission), NextPending(RowsOf(DeskOf(h, mission).queue)).value;
      && line.text == a.approvalPhrase && line.actor != "" && a.id !in d.claims
      && DeskOf(Handle(cfg, h, line, w).0, mission).log == d.log + [Handed(a, line.actor, line.time)]
  {
    hide AtAction, AtRecords, ProposeMission, ApproveCharter, RulesOf, NextPending;
    if Some(mission) != h.focus {
      OthersKeep(cfg, h, line, w, mission);
    } else {
      var d, rules := DeskOf(h, mission), RulesOf(cfg, mission);
      ProposalKeeps(cfg, h, w, mission);
      RecordsOnlyPapers(d, line, w);
      if h.charter.Some? && h.decision.Some? {
        CharterKeepsLog(cfg, mission, d, h.charter.value, h.decision.value, line, w);
      }
      var next := NextPending(RowsOf(d.queue));
      if h.charter.None? && next.Some? && AtAction(rules, d, next.value, line, w).0.log != d.log {
        AtActionDispatches(rules, d, next.value, line, w);
      }
    }
  }

  lemma CharterKeepsLog(cfg: Config, mission: string, d: Desk, c: Charter, dec: Decision, line: Line, w: World)
    ensures
      var d' := ApproveCharter(cfg, mission, d, c, dec, line, w).0;
      d'.log == d.log && d'.claims == d.claims && d'.papers == d.papers
  {
    hide FreezeCharter, RulesOf, Restorable;
    FreezeKeeps(cfg, d, c, dec, line, w);
  }

  /** In every session, whatever is dispatched was the next action of the open mission, was
      unclaimed, and was approved by a line that is its approval phrase; it carries the name and
      time of that line. Nothing else that happens at the console dispatches anything. */
  lemma DispatchIsSpoken(cfg: Config, houses: seq<House>, inputs: seq<Input>, i: nat, mission: string)
    requires IsSession(cfg, houses, inputs) && i < |inputs|
    requires DeskOf(houses[i + 1], mission).log != DeskOf(houses[i], mission).log
    ensures inputs[i].Type? && houses[i].focus == Some(mission)
    ensures NextPending(RowsOf(DeskOf(houses[i], mission).queue)).Some?
    ensures
      var line, d := inputs[i].line, DeskOf(houses[i], mission);
      var a := NextPending(RowsOf(d.queue)).value;
      && line.text == a.approvalPhrase && line.actor != "" && a.id !in d.claims
      && DeskOf(houses[i + 1], mission).log == d.log + [Handed(a, line.actor, line.time)]
  {
    hide Handle, ProposeMission, NextPending;
    match inputs[i]
    case Type(line, w) => TurnDispatches(cfg, houses[i], line, w, mission);
    case Restart(active) => ReopenKeeps(houses[i], active, mission);
    case OneShot(active, w) => OneShotKeeps(cfg, houses[i], active, w, mission);
    case Edit(m, charter, decision) =>
  }

  // ---------------------------------------------------------------- the receipt

  lemma FreezingIsSpoken(cfg: Config, d: Desk, c: Charter, dec: Decision, line: Line, w: World)
    requires FreezeCharter(cfg, d, c, dec, line, w).0 != d
    ensures line.text == c.approvalPhrase && Strip(line.actor) != "" && d.receipt.Missing?
    ensures c.state.CharterProposed? && ValidateCharterConstruction(cfg, c, dec).Pass?
  {
    hide ValidateCharterConstruction, ReceiptPreconditions, MakeReceipt, Strip;
  }

  lemma CharterIsSpoken(cfg: Config, mission: string, d: Desk, c: Charter, dec: Decision, line: Line, w: World)
    requires ApproveCharter(cfg, mission, d, c, dec, line, w).0.receipt != d.receipt
    ensures line.text == c.approvalPhrase && Strip(line.actor) != "" && d.receipt.Missing?
    ensures c.state.CharterProposed? && ValidateCharterConstruction(cfg, c, dec).Pass?
  {
    hide FreezeCharter, RulesOf, Restorable, ValidateCharterConstruction, Strip;
    FreezingIsSpoken(cfg, d, c, dec, line, w);
  }

  /** In every session a receipt appears only when the open mission's pending charter is
      approved by its phrase, by somebody, together with its pending decision, and can be built. */
  lemma ReceiptIsSpoken(cfg: Config, houses: seq<House>, inputs: seq<Input>, i: nat, mission: string)
    requires IsSession(cfg, houses, inputs) && i < |inputs|
    requires DeskOf(houses[i + 1], mission).receipt != DeskOf(houses[i], mission).receipt
    ensures inputs[i].Type? && houses[i].focus == Some(mission) && houses[i].charter.Some? && houses[i].decision.Some?
    ensures
      var c, line := houses[i].charter.value, inputs[i].line;
      && line.text == c.approvalPhrase && Strip(line.actor) != "" && c.state.CharterProposed?
      && ValidateCharterConstruction(cfg, c, houses[i].decision.value).Pass?
      && DeskOf(houses[i], mission).receipt.Missing?
  {
    hide Handle, ProposeMission, ValidateCharterConstruction, Strip;
    match inputs[i]
    case Type(line, w) => TurnIsSpoken(cfg, houses[i], line, w, mission);
    case Restart(active) => ReopenKeeps(houses[i], active, mission);
    case OneShot(active, w) => OneShotKeeps(cfg, houses[i], active, w, mission);
    case Edit(m, charter, decision) =>
  }

  lemma TurnIsSpoken(cfg: Config, h: House, line: Line, w: World, mission: string)
    requires DeskOf(Handle(cfg, h, line, w).0, mission).receipt != DeskOf(h, mission).receipt
    ensures h.focus == Some(mission) && h.charter.Some? && h.decision.Some?
    ensures line.text == h.charter.value.approvalPhrase && Strip(line.actor) != "" && DeskOf(h, mission).receipt.Missing?
    ensures h.charter.value.state.CharterProposed? && ValidateCharterConstruction(cfg, h.charter.value, h.decision.value).Pass?
  {
    hide AtAction, AtRecords, ProposeMission, ApproveCharter, RulesOf, NextPending, ValidateCharterConstruction, Strip;
    if Some(mission) != h.focus {
      OthersKeep(cfg, h, line, w, mission);
    } else {
      var d, rules := DeskOf(h, mission), RulesOf(cfg, mission);
      ProposalKeeps(cfg, h, w, mission);
      RecordsOnlyPapers(d, line, w);
      if h.charter.Some? && h.decision.Some?
         && ApproveCharter(cfg, mission, d, h.charter.value, h.decision.value, line, w).0.receipt != d.receipt {
        CharterIsSpoken(cfg, mission, d, h.charter.value, h.decision.value, line, w);
      }
      var next := NextPending(RowsOf(d.queue));
      if next.Some? { AtActionKeepsReceipt(rules, d, next.value, line, w); }
    }
  }

  lemma AtActionKeepsReceipt(rules: Rules, d: Desk, a: Action, line: Line, w: World)
    ensures AtAction(rules, d, a, line, w).0.receipt == d.receipt
  {
    var approve, reject := Approve(a.id, line.text, line.actor, line.time), Reject(a.id, line.text, a.argumentsHash);
    var (e, done) := ApproveAndDispatch(rules, d, approve, w);
    ApproveDecides(rules, d, approve, w);
    if done.Ok? { FollowKeepsLog(rules, e, FollowupOf(done.value), w); }
    var (f, rejected) := RejectChecked(rules, d, reject, w);
    RejectDecides(rules, d, reject, w);
    if rejected.Ok? {
      FollowKeepsLog(rules, f, Ok(if a.skill.ApplyPatch? then Some(TestsAfter(rejected.value)) else None), w);
    }
    hide ApproveAndDispatch, Follow, FollowupOf, RejectChecked;
  }

  // ---------------------------------------------------------------- the records of a session

  lemma TurnRecords(cfg: Config, h: House, line: Line, w: World, mission: string)
    requires Kept(DeskOf(h, mission)) && DeskOf(h, mission).papers.review.Some?
    requires DeskOf(Handle(cfg, h, line, w).0, mission).papers != DeskOf(h, mission).papers
    ensures h.focus == Some(mission)
    ensures DeskOf(Handle(cfg, h, line, w).0, mission) == AtRecords(DeskOf(h, mission), line, w).0
  {
    hide AtAction, AtRecords, ProposeMission, ApproveCharter, RulesOf, Tally;
    var d := DeskOf(h, mission);
    if Some(mission) != h.focus {
      OthersKeep(cfg, h, line, w, mission);
    } else {
      ProposalKeeps(cfg, h, w, mission);
      if h.charter.Some? && h.decision.Some? {
        CharterKeepsLog(cfg, mission, d, h.charter.value, h.decision.value, line, w);
      }
      var next := NextPending(RowsOf(d.queue));
      assert next.Some? ==> Pending(next.value);
    }
  }

  /** In every session a mission's records, once there is a review, move only at its gates: by
      the review's phrases on one human approval, by an explanation that passed, and by the
      closure phrase on a passed closure. */
  lemma RecordsMoveAsSpoken(cfg: Config, houses: seq<House>, inputs: seq<Input>, i: nat, mission: string)
    requires IsSession(cfg, houses, inputs) && i < |inputs| && DeskOf(houses[i], mission).papers.review.Some?
    requires DeskOf(houses[i + 1], mission).papers != DeskOf(houses[i], mission).papers
    ensures inputs[i].Type? && houses[i].focus == Some(mission)
    ensures
      var p, p' := DeskOf(houses[i], mission).papers, DeskOf(houses[i + 1], mission).papers;
      && ReviewMoves(p, p', inputs[i].line, inputs[i].world) && TeachbackMoves(p, p', inputs[i].line, inputs[i].world)
      && ClosureMoves(p, p', inputs[i].line, inputs[i].world)
  {
    hide Handle, ProposeMission, Kept, AtRecords, ReviewMoves, TeachbackMoves, ClosureMoves;
    KeptHolds(cfg, houses, inputs, i, mission);
    match inputs[i]
    case Type(line, w) =>
      TurnRecords(cfg, houses[i], line, w, mission);
      RecordsAreSpoken(DeskOf(houses[i], mission), line, w);
    case Restart(active) => ReopenKeeps(houses[i], active, mission);
    case OneShot(active, w) => OneShotKeeps(cfg, houses[i], active, w, mission);
    case Edit(m, charter, decision) =>
  }
}
