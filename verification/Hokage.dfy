/** The session object itself: fields updated in place, method by method, each proved
    against the function in Session that gives its meaning. */
module Hokage {
  import opened Common
  import opened Registry
  import opened Authority
  import opened QueueProtocol
  import opened QueueTable
  import opened Lifecycle
  import opened Text
  import opened Builder
  import S = Session
  import T = SessionTheorems
  import F = Followups

  /** _find_locked: a scan for the first action with this id. */
  method FindLocked(actions: seq<Action>, id: string) returns (r: Option<nat>)
    ensures r == Find(actions, id)
    ensures r.Some? ==> forall i | 0 <= i < r.value :: actions[i].id != id
  {
    for k := 0 to |actions|
      invariant forall i | 0 <= i < k :: actions[i].id != id
    {
      if actions[k].id == id {
        FirstIsFound(actions, id, k);
        return Some(k);
      }
    }
    r := None;
  }

  lemma {:induction false} FirstIsFound(actions: seq<Action>, id: string, k: nat)
    requires k < |actions| && actions[k].id == id && forall i | 0 <= i < k :: actions[i].id != id
    ensures Find(actions, id) == Some(k)
  {
    if k > 0 { FirstIsFound(actions[1..], id, k - 1); }
  }

  /** next_pending: the first proposed action in queue order. */
  method NextPending(actions: seq<Action>) returns (r: Option<Action>)
    ensures r == S.NextPending(actions)
  {
    for k := 0 to |actions|
      invariant S.NextPending(actions) == S.NextPending(actions[k..])
    {
      if actions[k].status.Proposed? { return Some(actions[k]); }
    }
    r := None;
  }

  /** The console. The files of the open mission are fields of their own; those of the other
      missions stand on the shelf. */
  class ConversationalHokage {
    const cfg: Config
    const store: LifecycleStore
    var rules: Rules
    var queue: File<Queue>
    var claims: map<string, ClaimFile>
    var receipt: File<Receipt>
    var charterFile: File<Charter>
    var decisionFile: File<Decision>
    var log: seq<Action>
    var focus: Option<string>
    var shelf: map<string, S.Desk>
    var pendingCharter: Option<Charter>
    var pendingDecision: Option<Decision>

    /** The rules in force are those of the open mission's directory. */
    ghost predicate Valid()
      reads this
    {
      focus.Some? ==> rules == S.RulesOf(cfg, focus.value)
    }

    /** The files of the open mission. */
    ghost function Files(): S.Desk
      reads this, store
    {
      S.Desk(queue, claims, receipt, store.Contents(), log, charterFile, decisionFile)
    }

    ghost function Contents(): S.House
      reads this, store
    {
      S.House(if focus.Some? then shelf[focus.value := Files()] else shelf, focus, pendingCharter, pendingDecision)
    }

    constructor (cfg: Config)
      ensures Valid() && fresh(store) && this.cfg == cfg && Contents() == T.EmptyHouse
    {
      this.cfg := cfg;
      rules := S.RulesOf(cfg, "");
      queue, claims, receipt, log := Missing, map[], Missing, [];
      charterFile, decisionFile := Missing, Missing;
      focus, shelf, pendingCharter, pendingDecision := None, map[], None, None;
      store := new LifecycleStore();
    }

    /** _transition_locked: compare, verify the claim, write. */
    method TransitionLocked(q: Queue, id: string, expected: Status, hash: string, next: Status, evidence: Evidence)
      returns (r: Result<Queue>)
      modifies this`queue
      ensures r == Transition(claims, q, id, expected, hash, next, evidence)
      ensures queue == if r.Ok? then Doc(r.value) else old(queue)
    {
      var at := FindLocked(q.actions, id);
      if at.None? { return Err(KeyMissing); }
      var a := q.actions[at.value];
      if a.status != expected { return Err(ApprovalBinding); }
      if a.argumentsHash != hash { return Err(ArgumentsHash); }
      var bound := VerifyClaim(claims, a);
      if bound.Fail? { return Err(bound.code); }
      var payload := q.(actions := q.actions[at.value := a.(status := next, evidence := Some(evidence))]);
      queue := Doc(payload);
      r := Ok(payload);
    }

    /** _mark_blocked_locked: the same with a repeated authority check. */
    method MarkBlockedLocked(q: Queue, id: string, expected: Status, hash: string, view: View) returns (r: Result<Queue>)
      modifies this`queue
      ensures r == Block(rules, claims, receipt, view, q, id, expected, hash)
      ensures queue == if r.Ok? then Doc(r.value) else old(queue)
    {
      var at := FindLocked(q.actions, id);
      if at.None? { return Err(KeyMissing); }
      var a := q.actions[at.value];
      if a.status != expected { return Err(ApprovalBinding); }
      if a.argumentsHash != hash { return Err(ArgumentsHash); }
      var bound := VerifyClaim(claims, a);
      if bound.Fail? { return Err(bound.code); }
      if !rules.check(a, Restore, view, receipt) { return Err(CharterBinding); }
      var payload := q.(actions := q.actions[at.value := a.(status := Blocked)]);
      queue := Doc(payload);
      r := Ok(payload);
    }

    /** The second half of approve_and_dispatch, entered with the claim written. */
    method StartAndDispatch(q: Queue, a: Action, op: Op, w: S.World) returns (r: Result<Action>)
      requires op.Approve?
      modifies this`queue, this`log
      ensures (Files(), r) == S.StartCall(rules, old(Files()), q, a, op, w)
    {
      var hash := a.argumentsHash;
      var started := TransitionLocked(q, op.id, Proposed, hash, Running, Approval(op, hash, None));
      if started.Err? { return Err(started.code); }
      var row := Row(started.value, op.id);
      if row.Err? { return row; }
      var act := row.value;
      if w.halt.AtPreDispatch? { return Err(LockTimeout); }
      if !rules.check(act, PreDispatch, w.preDispatch, receipt) || VerifyClaim(claims, act).Fail? {
        var blocked := MarkBlockedLocked(started.value, op.id, Running, act.argumentsHash, w.recheck);
        return Err(if blocked.Ok? then ApprovalBinding else blocked.code);
      }
      log := log + [act];
      if w.halt.AtFinish? { return Err(LockTimeout); }
      match w.outcome {
        case Returns(report) =>
          var done := TransitionLocked(
            started.value, op.id, Running, act.argumentsHash, Completed, Approval(op, act.argumentsHash, Some(report)));
          if done.Err? { return Err(done.code); }
          r := Row(done.value, op.id);
        case Raises =>
          var done := TransitionLocked(
            started.value, op.id, Running, act.argumentsHash, Failed, Approval(op, act.argumentsHash, None));
          r := Err(if done.Ok? then ValueInvalid else done.code);
      }
    }

    /** Either nothing but the claim changes and the call fails, or exactly one action leaves
        `proposed`, and the call succeeds only with that action completed. */
    method ApproveAndDispatch(op: Op, w: S.World) returns (r: Result<Action>)
      requires op.Approve?
      modifies this`queue, this`claims, this`log
      ensures (Files(), r) == S.ApproveAndDispatch(rules, old(Files()), op, w)
      ensures T.Approves(old(Files()), Files(), r)
      ensures old(op.id in claims) ==> Files() == old(Files()) && r.Err?
    {
      T.ApproveDecides(rules, Files(), op, w);
      if op.id in claims { T.ClaimedIsNeverTakenOver(rules, Files(), op, w); }
      var loaded := LoadQueue(queue);
      if loaded.Err? { return Err(loaded.code); }
      var at := FindLocked(loaded.value.actions, op.id);
      if at.None? { return Err(KeyMissing); }
      var a := loaded.value.actions[at.value];
      if !rules.check(a, Restore, w.restore, receipt) { return Err(CharterBinding); }
      if !a.status.Proposed? || op.phrase != a.approvalPhrase || op.approver == "" { return Err(ApprovalBinding); }
      var published := PublishClaim(claims, ClaimFor(op, a));
      if published.Fail? { return Err(published.code); }
      if w.halt.AtClaimWrite? {
        claims := claims[op.id := Torn(S.me)];
        return Err(ClaimInvalid);
      }
      claims := claims[op.id := Written(S.me, ClaimFor(op, a))];
      if w.halt.AtLease? { return Err(StillActive); }
      r := StartAndDispatch(loaded.value, a, op, w);
    }

    method RejectActionChecked(op: Op, w: S.World) returns (r: Result<Action>)
      requires op.Reject?
      modifies this`queue
      ensures (Files(), r) == S.RejectChecked(rules, old(Files()), op, w)
      ensures r.Err? ==> Files() == old(Files())
      ensures r.Ok? ==>
        && op.id !in claims && r.value.status.Rejected? && old(queue).Doc? && queue.Doc?
        && exists k: nat :: T.Decided(old(queue).value, queue.value, k)
    {
      T.RejectDecides(rules, Files(), op, w);
      var loaded := LoadQueue(queue);
      if loaded.Err? { return Err(loaded.code); }
      var at := FindLocked(loaded.value.actions, op.id);
      if at.None? { return Err(KeyMissing); }
      var a := loaded.value.actions[at.value];
      if !a.status.Proposed? { return Err(ApprovalBinding); }
      if a.argumentsHash != op.hash { return Err(ArgumentsHash); }
      if op.id in claims {
        var bound := VerifyClaim(claims, a);
        return Err(if bound.Fail? then bound.code else AlreadyClaimed);
      }
      if !rules.check(a, Restore, w.restore, receipt) { return Err(CharterBinding); }
      if op.phrase != a.rejectionPhrase { return Err(ApprovalBinding); }
      var rejected := a.(status := Rejected);
      queue := Doc(loaded.value.(actions := loaded.value.actions[at.value := rejected]));
      r := Ok(rejected);
    }

    method AppendActionChecked(op: Op, view: View) returns (r: Guard)
      modifies this`queue
      ensures (Files(), r) == S.AppendChecked(rules, old(Files()), op, view)
      ensures r.Stop? ==> Files() == old(Files())
      ensures old(RowsOf(queue)) <= RowsOf(queue) && |RowsOf(queue)| <= |old(RowsOf(queue))| + 1
    {
      var loaded := LoadQueue(queue);
      if loaded.Err? { return Stop(loaded.code); }
      var q := loaded.value;
      var built := rules.candidate(op, q, view, receipt);
      if built.Err? { return Stop(built.code); }
      var at := FindLocked(q.actions, built.value.id);
      if at.Some? {
        var existing := q.actions[at.value];
        if !S.SameProposal(existing, built.value) { return Stop(ArgumentsHash); }
        return Need(rules.check(existing, Restore, view, receipt), CharterBinding);
      }
      if !rules.check(built.value, FollowupAppend, view, receipt) { return Stop(CharterBinding); }
      queue := Doc(q.(actions := q.actions + [built.value]));
      r := Clear;
    }

    /** Offer the next action, or prepare the review when there is none. */
    method Advance(w: S.World) returns (r: S.Answer)
      modifies store`review
      ensures (Files(), r) == S.Advance(old(Files()), w)
      ensures r.Passed? && r.review.Some? && old(store.review).None? ==> Settled(RowsOf(queue)) && Proven(w.disk, RowsOf(queue))
    {
      var next := NextPending(RowsOf(queue));
      if next.Some? { return S.Passed(next, None); }
      if w.halt.AtReview? { return S.Declined(LockTimeout); }
      if !queue.Doc? { return S.Declined(ValueInvalid); }
      var review := store.BuildReviewProposal(queue.value.mission, RowsOf(queue), w.disk, w.suffix);
      r := if review.Ok? then S.Passed(None, Some(review.value)) else S.Declined(review.code);
    }

    method Follow(followup: Result<Option<Op>>, w: S.World) returns (r: S.Answer)
      modifies this`queue, store`review
      ensures (Files(), r) == S.Follow(rules, old(Files()), followup, w)
    {
      if w.halt.AtFollowups? { return S.Declined(LockTimeout); }
      if followup.Err? { return S.Declined(followup.code); }
      if followup.value.Some? {
        var added := AppendActionChecked(followup.value.value, w.append);
        if added.Stop? { return S.Declined(added.code); }
      }
      r := Advance(w);
    }

    method ApproveAction(op: Op, w: S.World) returns (r: S.Answer)
      requires op.Approve?
      modifies this`queue, this`claims, this`log, store`review
      ensures (Files(), r) == S.ApproveAction(rules, old(Files()), op, w)
      ensures T.KeepsSkills(rules) && old(Files()).papers == S.NoPapers ==>
        T.Progress(old(Files()), Files()) && T.Kept(Files())
      ensures
        var (after, done) := S.ApproveAndDispatch(rules, old(Files()), op, w);
        Valid() && focus.Some? && done.Ok? ==> F.Grows(RowsOf(after.queue), RowsOf(queue), done.value)
    {
      hide T.KeepsSkills, T.Progress, T.Kept, F.Grows;
      if T.KeepsSkills(rules) && Files().papers == S.NoPapers { T.ApprovalSpends(rules, Files(), op, w); }
      if Valid() && focus.Some? && S.ApproveAndDispatch(rules, Files(), op, w).1.Ok? {
        F.ApprovalAppendsFollowup(cfg.(directory := focus.value), Files(), op, w);
      }
      var done := ApproveAndDispatch(op, w);
      if done.Err? { return S.Declined(done.code); }
      r := Follow(S.FollowupOf(done.value), w);
    }

    method RejectAction(op: Op, skill: SkillId, w: S.World) returns (r: S.Answer)
      requires op.Reject?
      modifies this`queue, store`review
      ensures (Files(), r) == S.RejectAction(rules, old(Files()), op, skill, w)
      ensures T.KeepsSkills(rules) && old(Files()).papers == S.NoPapers && T.OffersSkill(old(Files()), op.id, skill) ==>
        T.Progress(old(Files()), Files()) && T.Kept(Files())
    {
      hide T.KeepsSkills, T.Progress, T.Kept, T.OffersSkill;
      if T.KeepsSkills(rules) && Files().papers == S.NoPapers && T.OffersSkill(Files(), op.id, skill) {
        T.RejectionSpends(rules, Files(), op, skill, w);
      }
      var rejected := RejectActionChecked(op, w);
      if rejected.Err? { return S.Declined(rejected.code); }
      r := Follow(Ok(if skill.ApplyPatch? then Some(S.TestsAfter(rejected.value)) else None), w);
    }

    method ApproveReview(w: S.World) returns (r: S.Answer)
      modifies store
      ensures (Files(), r) == S.ApproveReview(old(Files()), w)
      ensures old(Ordered(store.Contents())) ==> Ordered(store.Contents())
    {
      var marked := store.MarkReviewRecorded(w.review);
      if marked.Stop? { return S.Declined(marked.code); }
      if w.halt.AtTeachback? { return S.Declined(LockTimeout); }
      var asked := store.BuildTeachbackRequest(w.manifestReadable);
      r := if asked.Stop? then S.Declined(asked.code) else S.Recorded;
    }

    method RecordTeachback(text: string, w: S.World) returns (r: S.Answer)
      modifies store
      ensures (Files(), r) == S.RecordTeachback(old(Files()), text, w)
      ensures old(Ordered(store.Contents())) ==> Ordered(store.Contents())
    {
      if !S.Explains(text) { return S.Declined(ValueInvalid); }
      var marked := store.MarkTeachbackRecorded(w.teachback);
      if marked.Stop? { return S.Declined(marked.code); }
      if w.halt.AtClosure? { return S.Declined(LockTimeout); }
      var proposed := store.BuildClosureProposal(w.suffix);
      r := if proposed.Stop? then S.Declined(proposed.code) else S.Recorded;
    }

    // ---- the charter

    /** approve_charter_1_1: three files in order, none once a receipt exists. */
    method FreezeCharter(c: Charter, dec: Decision, line: S.Line, w: S.World) returns (r: Guard)
      modifies this`receipt, this`charterFile, this`decisionFile
      ensures (Files(), r) == S.FreezeCharter(cfg, old(Files()), c, dec, line, w)
      ensures !old(receipt).Missing? ==> Files() == old(Files()) && r.Stop?
    {
      hide ValidateCharterConstruction, ReceiptPreconditions, MakeReceipt, Strip;
      if line.text != c.approvalPhrase || Strip(line.actor) == "" { return Stop(ApprovalBinding); }
      if !c.state.CharterProposed? { return Stop(CharterBinding); }
      var built := ValidateCharterConstruction(cfg, c, dec);
      if built.Fail? { return Stop(built.code); }
      if !receipt.Missing? { return Stop(ReceiptInvalid); }
      var k := Approved(c, line.time, Strip(line.actor));
      decisionFile := Doc(dec);
      if w.halt.AtCharterWrite? { return Stop(LockTimeout); }
      charterFile := Doc(k);
      var ready := ReceiptPreconditions(cfg, k, dec);
      if ready.Fail? { return Stop(ready.code); }
      if w.halt.AtReceiptCreate? { return Stop(LockTimeout); }
      receipt := Malformed;
      if w.halt.AtReceiptWrite? { return Stop(LockTimeout); }
      receipt := Doc(MakeReceipt(cfg, k, dec));
      r := Clear;
    }

    /** _restore_locked: the loop over an existing queue. */
    method RestoreLocked(q: Queue, view: View) returns (ok: bool)
      ensures ok == S.Restorable(rules, Files(), q, view)
    {
      for k := 0 to |q.actions|
        invariant forall a | a in q.actions[..k] ::
          rules.check(a, Restore, view, receipt) && (a.status.Running? ==> VerifyClaim(claims, a).Pass?)
      {
        var a := q.actions[k];
        assert a in q.actions;
        if !rules.check(a, Restore, view, receipt) { return false; }
        if a.status.Running? && VerifyClaim(claims, a).Fail? { return false; }
      }
      ok := true;
    }

    method InitializeQueue(op: Op, view: View) returns (r: Guard)
      requires op.Initialize?
      modifies this`queue
      ensures (Files(), r) == S.OpenQueue(rules, old(Files()), op, view)
      ensures !old(queue).Missing? ==> queue == old(queue)
    {
      match queue
      case Missing =>
        var actions := rules.initial(op, view, receipt);
        if actions.Err? { return Stop(actions.code); }
        queue := Doc(Queue(Some(op.mission), op.plan, actions.value));
        r := Clear;
      case Malformed => r := Stop(ValueInvalid);
      case OldSchema => r := Stop(MigrationRequired);
      case Doc(q) =>
        var ok := RestoreLocked(q, view);
        r := Need(ok, CharterBinding);
    }

    method ApproveCharter(c: Charter, dec: Decision, line: S.Line, w: S.World) returns (r: Guard)
      requires Valid() && focus.Some?
      modifies this`queue, this`receipt, this`charterFile, this`decisionFile
      ensures (Files(), r) == S.ApproveCharter(cfg, focus.value, old(Files()), c, dec, line, w)
      ensures !old(receipt).Missing? ==> Files() == old(Files()) && r.Stop?
    {
      hide S.FreezeCharter, S.OpenQueue, S.RulesOf;
      r := FreezeCharter(c, dec, line, w);
      if r.Stop? { return; }
      if w.halt.AtBootstrap? { return Stop(LockTimeout); }
      r := InitializeQueue(Initialize(focus.value, focus.value + "-plan"), w.restore);
    }

    /** Puts the open mission's files on the shelf. */
    method PutAway()
      modifies this`shelf
      ensures shelf == old(Contents()).desks && Contents() == old(Contents())
    {
      if focus.Some? {
        var papers := Papers(store.review, store.teachback, store.closure);
        shelf := shelf[focus.value := S.Desk(queue, claims, receipt, papers, log, charterFile, decisionFile)];
      }
    }

    /** Takes up a mission's files. */
    method TakeUp(mission: string, d: S.Desk)
      modifies this`rules, this`queue, this`claims, this`receipt, this`charterFile, this`decisionFile, this`log, this`focus, store
      ensures Valid() && focus == Some(mission) && Files() == d
    {
      queue, claims, receipt, log := d.queue, d.claims, d.receipt, d.log;
      charterFile, decisionFile := d.charter, d.decision;
      store.review, store.teachback, store.closure := d.papers.review, d.papers.teachback, d.papers.closure;
      focus := Some(mission);
      rules := S.RulesOf(cfg, mission);
    }

    method OpenMission(mission: string, d: S.Desk)
      modifies this, store
      ensures Valid() && focus == Some(mission) && Files() == d
      ensures Contents().desks == old(Contents()).desks[mission := d]
      ensures pendingCharter == old(pendingCharter) && pendingDecision == old(pendingDecision)
    {
      PutAway();
      TakeUp(mission, d);
    }

    /** The files of any mission. */
    method FilesOf(mission: string) returns (d: S.Desk)
      ensures d == S.DeskOf(Contents(), mission)
    {
      if focus == Some(mission) {
        var papers := Papers(store.review, store.teachback, store.closure);
        d := S.Desk(queue, claims, receipt, papers, log, charterFile, decisionFile);
      } else {
        d := if mission in shelf then shelf[mission] else S.EmptyDesk;
      }
    }

    /** Writes the decision file of any mission. */
    method WriteDecision(mission: string, dec: Decision)
      modifies this`decisionFile, this`shelf
      ensures Contents() == S.WithDesk(old(Contents()), mission, S.DeskOf(old(Contents()), mission).(decision := Doc(dec)))
    {
      ghost var before := Contents();
      if focus == Some(mission) {
        decisionFile := Doc(dec);
      } else {
        var d := FilesOf(mission);
        shelf := shelf[mission := d.(decision := Doc(dec))];
      }
      assert Contents().desks == before.desks[mission := S.DeskOf(before, mission).(decision := Doc(dec))];
    }

    /** propose, once the request has been interpreted. */
    method ProposeMission(w: S.World) returns (r: S.Answer)
      requires Valid()
      modifies this, store
      ensures Valid() && (Contents(), r) == S.ProposeMission(cfg, old(Contents()), w)
    {
      hide ValidateCharterConstruction, S.DeskOf;
      if w.offer.None? { return S.Ignored; }
      var c, dec := w.offer.value.charter, w.offer.value.decision;
      var m := dec.missionId;
      if c.missionId != m || !c.state.CharterProposed? || ValidateCharterConstruction(cfg, c, dec).Fail? {
        return S.Declined(CharterBinding);
      }
      if w.halt.AtOffer? {
        WriteDecision(m, dec);
        return S.Declined(LockTimeout);
      }
      var d := FilesOf(m);
      OpenMission(m, d.(decision := Doc(dec), charter := Doc(c)));
      pendingCharter, pendingDecision := Some(c), Some(dec);
      r := S.Recorded;
    }

    // ---- the console

    /** The gate of a pending charter. */
    method AtCharter(c: Charter, line: S.Line, w: S.World) returns (r: S.Answer)
      requires Valid()
      modifies this`queue, this`receipt, this`charterFile, this`decisionFile, this`pendingCharter, this`pendingDecision
      ensures Valid() && (Contents(), r) == S.AtCharter(cfg, old(Contents()), c, line, w)
    {
      hide S.ApproveCharter, S.NextPending, S.RulesOf;
      ghost var before := Contents();
      if line.text == c.approvalPhrase {
        if pendingDecision.None? || focus.None? { return S.Declined(KeyMissing); }
        var done := ApproveCharter(c, pendingDecision.value, line, w);
        assert Contents().desks == before.desks[focus.value := Files()];
        if done.Stop? { return S.Declined(done.code); }
        pendingCharter, pendingDecision := None, None;
        var next := NextPending(RowsOf(queue));
        return S.Passed(next, None);
      }
      if line.text == S.CharterRejection(c) {
        if w.halt.AtRejection? { return S.Declined(MissionBinding); }
        pendingCharter, pendingDecision := None, None;
        return S.Recorded;
      }
      r := S.Ignored;
    }

    method AtAction(a: Action, line: S.Line, w: S.World) returns (r: S.Answer)
      modifies this`queue, this`claims, this`log, store`review
      ensures (Files(), r) == S.AtAction(rules, old(Files()), a, line, w)
    {
      if line.text == a.approvalPhrase {
        r := ApproveAction(Approve(a.id, line.text, line.actor, line.time), w);
      } else if line.text == a.rejectionPhrase {
        r := RejectAction(Reject(a.id, line.text, a.argumentsHash), a.skill, w);
      } else {
        r := S.Ignored;
      }
    }

    method AtRecords(line: S.Line, w: S.World) returns (r: S.Answer)
      modifies store
      ensures (Files(), r) == S.AtRecords(old(Files()), line, w)
    {
      if store.review.Some? && store.review.value.status.ReviewProposed? {
        var review := store.review.value;
        if line.text == S.ReviewPhrase(review) {
          r := ApproveReview(w);
        } else if line.text == S.ChangesPhrase(review) {
          store.review := Some(review.(status := ChangesRequested));
          r := S.Recorded;
        } else {
          r := S.Ignored;
        }
      } else if store.teachback == Some(AwaitingExplanation) {
        r := RecordTeachback(line.text, w);
      } else if store.closure.Some? && !store.closure.value.closed && line.text == S.ClosurePhrase(store.closure.value) {
        var closed := store.MarkClosed(w.closure);
        r := if closed.Stop? then S.Declined(closed.code) else S.Recorded;
      } else {
        r := S.Ignored;
      }
    }

    /** One turn of the interactive loop: the first open gate takes the line; with none open it
        is a request for a mission. */
    method Turn(line: S.Line, w: S.World) returns (r: S.Answer)
      requires Valid()
      modifies this, store
      ensures Valid() && (Contents(), r) == S.Handle(cfg, old(Contents()), line, w)
    {
      hide S.AtCharter, S.AtAction, S.AtRecords, S.ProposeMission, S.RulesOf, S.NextPending, S.IsCommand;
      ghost var before := Contents();
      if line.text == "" || S.IsCommand(line.text) { return S.Ignored; }
      if pendingCharter.Some? {
        r := AtCharter(pendingCharter.value, line, w);
        return;
      }
      if focus.None? {
        r := ProposeMission(w);
        return;
      }
      var next := NextPending(RowsOf(queue));
      var papers := Papers(store.review, store.teachback, store.closure);
      if next.Some? {
        r := AtAction(next.value, line, w);
        assert Contents().desks == before.desks[focus.value := Files()];
      } else if S.ReviewOpen(papers) || S.TeachbackOpen(papers) || S.ClosureOpen(papers) {
        r := AtRecords(line, w);
        assert Contents().desks == before.desks[focus.value := Files()];
        if S.ClosureOpen(papers) && !S.ReviewOpen(papers) && !S.TeachbackOpen(papers) && r.Recorded? {
          PutAway();
          focus := None;
        }
      } else {
        r := ProposeMission(w);
      }
    }

    /** What a turn promises about the files of every mission: the records stay in order, a
        review is final, and any change of the queue lowers its weight; a stalled mission keeps
        everything but its charter and decision files. */
    method Interact(line: S.Line, w: S.World) returns (r: S.Answer)
      requires Valid()
      modifies this, store
      ensures Valid() && (Contents(), r) == S.Handle(cfg, old(Contents()), line, w)
      ensures forall m :: T.Kept(S.DeskOf(old(Contents()), m)) ==>
        T.Follows(S.DeskOf(old(Contents()), m), S.DeskOf(Contents(), m))
      ensures forall m :: T.Stalled(S.DeskOf(old(Contents()), m)) ==>
        T.OnlyDocuments(S.DeskOf(old(Contents()), m), S.DeskOf(Contents(), m))
    {
      hide S.Handle, T.Follows, T.Kept, T.Stalled, T.OnlyDocuments;
      ghost var before := Contents();
      forall m | T.Kept(S.DeskOf(before, m)) { T.ReactKeeps(cfg, before, S.Type(line, w), m); }
      forall m | T.Stalled(S.DeskOf(before, m)) { T.StalledStays(cfg, before, S.Type(line, w), m); }
      r := Turn(line, w);
    }

    /** __init__ and restore: a new process opens the active mission. */
    method Reopen(active: Option<string>)
      requires Valid()
      modifies this, store
      ensures Valid() && Contents() == S.Reopen(old(Contents()), active)
    {
      hide S.DeskOf;
      if active.None? {
        PutAway();
        focus, pendingCharter, pendingDecision := None, None, None;
        return;
      }
      var d := FilesOf(active.value);
      OpenMission(active.value, d);
      pendingCharter, pendingDecision := None, None;
      if charterFile.Doc? && charterFile.value.state.CharterProposed? {
        pendingCharter := Some(charterFile.value);
        if decisionFile.Doc? { pendingDecision := Some(decisionFile.value); }
      }
    }

    /** one_shot: a new process that only proposes; it never touches queue, claims, receipt,
        records or log of any mission. */
    method OneShot(active: Option<string>, w: S.World) returns (r: S.Answer)
      requires Valid()
      modifies this, store
      ensures Valid() && Contents() == S.React(cfg, old(Contents()), S.OneShot(active, w))
      ensures forall m :: T.OnlyDocuments(S.DeskOf(old(Contents()), m), S.DeskOf(Contents(), m))
    {
      hide S.ProposeMission, S.Reopen, S.DeskOf, T.OnlyDocuments;
      ghost var before := Contents();
      forall m { T.OneShotKeeps(cfg, before, active, w, m); }
      Reopen(active);
      r := ProposeMission(w);
    }
  }
}
