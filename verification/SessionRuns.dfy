/** Whole sessions are runs: for every mission, what a console does to its queue, claims,
    receipt and dispatches is an honest run of the queue protocol. */
module SessionRuns {
  import opened Common
  import opened Text
  import opened Registry
  import opened Authority
  import opened Builder
  import opened QueueProtocol
  import opened QueueClaims
  import opened QueueTable
  import opened QueueTheorems
  import opened QueueRules
  import opened QueueSequential
  import opened Lifecycle
  import opened Session
  import opened SessionTheorems
  import KonohaQueue
  import opened QueueOrigins

  lemma SimulatesThen(rules: Rules, s: State, t: State, d: Desk)
    requires Reaches(rules, s, t) && Simulates(rules, t, d)
    ensures Simulates(rules, s, d)
  {
    hide Reaches, Displays;
    var u :| Reaches(rules, t, u) && Quiet(u) && Displays(u, d);
    ReachesBoth(rules, s, t, u);
  }

  /** Records and documents are no concern of the queue. */
  lemma SameQueueFiles(rules: Rules, s: State, d: Desk, d': Desk)
    requires Simulates(rules, s, d)
    requires d' == d.(papers := d'.papers, charter := d'.charter, decision := d'.decision)
    ensures Simulates(rules, s, d')
  {
    hide Reaches;
    var u :| Reaches(rules, s, u) && Quiet(u) && Displays(u, d);
    assert Displays(u, d');
  }

  lemma FollowSimulates(rules: Rules, s: State, d: Desk, followup: Result<Option<Op>>, w: World)
    requires Quiet(s) && Displays(s, d) && Appends(followup)
    ensures Simulates(rules, s, Follow(rules, d, followup, w).0)
  {
    hide Simulates, AppendChecked, NextPending, Validation;
    StandingStill(rules, s, d);
    var d' := Follow(rules, d, followup, w).0;
    if followup.Ok? && followup.value.Some? && !w.halt.AtFollowups? {
      AppendSimulates(rules, s, d, followup.value.value, w.append);
      var e := AppendChecked(rules, d, followup.value.value, w.append).0;
      SameQueueFiles(rules, s, e, d');
    } else {
      SameQueueFiles(rules, s, d, d');
    }
  }

  lemma ApproveActionSimulates(cfg: Config, s: State, d: Desk, op: Op, w: World)
    requires Quiet(s) && Displays(s, d) && op.Approve?
    ensures Simulates(Konoha(cfg), s, ApproveAction(Konoha(cfg), d, op, w).0)
  {
    hide Konoha, ApproveAndDispatch, Follow, FollowupOf, Reaches, Displays, Appends, FollowPrice;
    var rules := Konoha(cfg);
    ApprovalSimulates(cfg, s, d, op, w);
    var (e, done) := ApproveAndDispatch(rules, d, op, w);
    if done.Ok? {
      var t :| Reaches(rules, s, t) && Quiet(t) && Displays(t, e);
      FollowupsAreCheaper(done.value);
      FollowSimulates(rules, t, e, FollowupOf(done.value), w);
      hide Simulates;
      SimulatesThen(rules, s, t, Follow(rules, e, FollowupOf(done.value), w).0);
    }
  }

  lemma RejectActionSimulates(rules: Rules, s: State, d: Desk, op: Op, skill: SkillId, w: World)
    requires Quiet(s) && Displays(s, d) && op.Reject?
    ensures Simulates(rules, s, RejectAction(rules, d, op, skill, w).0)
  {
    hide RejectChecked, Follow, Reaches, Displays;
    RejectionSimulates(rules, s, d, op, w);
    var (e, rejected) := RejectChecked(rules, d, op, w);
    if rejected.Ok? {
      var t :| Reaches(rules, s, t) && Quiet(t) && Displays(t, e);
      var followup: Result<Option<Op>> := Ok(if skill.ApplyPatch? then Some(TestsAfter(rejected.value)) else None);
      FollowSimulates(rules, t, e, followup, w);
      hide Simulates;
      SimulatesThen(rules, s, t, Follow(rules, e, followup, w).0);
    }
  }

  // ---------------------------------------------------------------- the receipt

  lemma ReceiptStep(rules: Rules, s: State, s': State, step: Step, d: Desk)
    requires Quiet(s) && After(rules, s, me, step) == Some(s') && s' == s.(receipt := s'.receipt) && Displays(s', d)
    requires !step.EditQueue?
    ensures Simulates(rules, s, d) && Reaches(rules, s, s') && Quiet(s')
  {
    hide After, Reaches, Displays;
    ReachesItself(rules, s);
    ReachesNext(rules, s, s, step, s');
  }

  lemma CreatedReceipt(rules: Rules, s: State, d: Desk)
    requires Quiet(s) && s.receipt.Missing? && Displays(s.(receipt := Malformed), d)
    ensures Simulates(rules, s, d) && Reaches(rules, s, s.(receipt := Malformed))
  {
    assert After(rules, s, me, CreateReceipt) == Some(s.(receipt := Malformed));
    hide After, Reaches, Displays, Simulates;
    ReceiptStep(rules, s, s.(receipt := Malformed), CreateReceipt, d);
  }

  lemma FilledReceipt(rules: Rules, s: State, r: Receipt, d: Desk)
    requires Quiet(s) && s.receipt.Malformed? && Displays(s.(receipt := Doc(r)), d)
    ensures Simulates(rules, s, d)
  {
    assert After(rules, s, me, FillReceipt(r)) == Some(s.(receipt := Doc(r)));
    hide After, Reaches, Displays, Simulates;
    ReceiptStep(rules, s, s.(receipt := Doc(r)), FillReceipt(r), d);
  }

  /** What approving a charter does to the receipt: nothing, a torn file, or a written one. */
  lemma FrozenReceipt(cfg: Config, d: Desk, c: Charter, dec: Decision, line: Line, w: World)
    ensures
      var d' := FreezeCharter(cfg, d, c, dec, line, w).0;
      && d' == d.(charter := d'.charter, decision := d'.decision, receipt := d'.receipt)
      && (d'.receipt == d.receipt || (d.receipt.Missing? && (d'.receipt.Malformed? || d'.receipt.Doc?)))
  {
    hide ValidateCharterConstruction, ReceiptPreconditions, MakeReceipt, Strip;
  }

  lemma FreezingSimulates(rules: Rules, cfg: Config, s: State, d: Desk, c: Charter, dec: Decision, line: Line, w: World)
    requires Quiet(s) && Displays(s, d)
    ensures Simulates(rules, s, FreezeCharter(cfg, d, c, dec, line, w).0)
  {
    FrozenReceipt(cfg, d, c, dec, line, w);
    var d' := FreezeCharter(cfg, d, c, dec, line, w).0;
    hide FreezeCharter, Simulates, Reaches;
    if d'.receipt == d.receipt {
      StandingStill(rules, s, d);
      SameQueueFiles(rules, s, d, d');
    } else {
      var torn := s.(receipt := Malformed);
      CreatedReceipt(rules, s, d'.(receipt := Malformed));
      if d'.receipt.Doc? {
        FilledReceipt(rules, torn, d'.receipt.value, d');
        SimulatesThen(rules, s, torn, d');
      }
    }
  }

  lemma CharterSimulates(cfg: Config, mission: string, s: State, d: Desk, c: Charter, dec: Decision, line: Line, w: World)
    requires Quiet(s) && Displays(s, d)
    ensures Simulates(RulesOf(cfg, mission), s, ApproveCharter(cfg, mission, d, c, dec, line, w).0)
  {
    hide FreezeCharter, OpenQueue, RulesOf, Reaches, Displays;
    var rules := RulesOf(cfg, mission);
    FreezingSimulates(rules, cfg, s, d, c, dec, line, w);
    var (e, done) := FreezeCharter(cfg, d, c, dec, line, w);
    var t :| Reaches(rules, s, t) && Quiet(t) && Displays(t, e);
    var op := Initialize(mission, mission + "-plan");
    OpeningSimulates(rules, t, e, op, w.restore);
    hide Simulates;
    SimulatesThen(rules, s, t, OpenQueue(rules, e, op, w.restore).0);
  }

  // ---------------------------------------------------------------- one input

  lemma AtActionSimulates(cfg: Config, mission: string, s: State, d: Desk, a: Action, line: Line, w: World)
    requires Quiet(s) && Displays(s, d)
    ensures Simulates(RulesOf(cfg, mission), s, AtAction(RulesOf(cfg, mission), d, a, line, w).0)
  {
    hide ApproveAction, RejectAction, Konoha, Simulates, Displays;
    var rules := RulesOf(cfg, mission);
    StandingStill(rules, s, d);
    ApproveActionSimulates(cfg.(directory := mission), s, d, Approve(a.id, line.text, line.actor, line.time), w);
    RejectActionSimulates(rules, s, d, Reject(a.id, line.text, a.argumentsHash), a.skill, w);
  }

  lemma AtRecordsKeepsQueue(d: Desk, line: Line, w: World)
    ensures AtRecords(d, line, w).0 == d.(papers := AtRecords(d, line, w).0.papers)
  {
    hide Explains, Upper;
  }

  lemma FocusSimulates(cfg: Config, h: House, s: State, line: Line, w: World)
    requires h.focus.Some? && Quiet(s) && Displays(s, DeskOf(h, h.focus.value))
    ensures Simulates(RulesOf(cfg, h.focus.value), s, DeskOf(Handle(cfg, h, line, w).0, h.focus.value))
  {
    hide AtAction, AtRecords, ApproveCharter, ProposeMission, RulesOf, Simulates, Displays, NextPending;
    var m := h.focus.value;
    var d, d' := DeskOf(h, m), DeskOf(Handle(cfg, h, line, w).0, m);
    var rules := RulesOf(cfg, m);
    StandingStill(rules, s, d);
    ProposalKeeps(cfg, h, w, m);
    AtRecordsKeepsQueue(d, line, w);
    if h.charter.Some? {
      if h.decision.Some? { CharterSimulates(cfg, m, s, d, h.charter.value, h.decision.value, line, w); }
    } else if NextPending(RowsOf(d.queue)).Some? {
      AtActionSimulates(cfg, m, s, d, NextPending(RowsOf(d.queue)).value, line, w);
    } else {
      SameQueueFiles(rules, s, d, d');
    }
  }

  lemma ReactSimulates(cfg: Config, h: House, s: State, input: Input, mission: string)
    requires Quiet(s) && Displays(s, DeskOf(h, mission))
    ensures Simulates(RulesOf(cfg, mission), s, DeskOf(React(cfg, h, input), mission))
  {
    hide Handle, RulesOf, Simulates, Displays;
    var d, d' := DeskOf(h, mission), DeskOf(React(cfg, h, input), mission);
    var rules := RulesOf(cfg, mission);
    StandingStill(rules, s, d);
    match input
    case Type(line, w) =>
      if h.focus == Some(mission) {
        FocusSimulates(cfg, h, s, line, w);
      } else {
        OthersKeep(cfg, h, line, w, mission);
        SameQueueFiles(rules, s, d, d');
      }
    case Restart(active) =>
    case OneShot(active, w) =>
      OneShotKeeps(cfg, h, active, w, mission);
      SameQueueFiles(rules, s, d, d');
    case Edit(m, charter, decision) => SameQueueFiles(rules, s, d, d');
  }

  // ---------------------------------------------------------------- whole sessions

  const Fresh: State := State(Missing, map[], map[], None, Missing, map[], [])

  lemma {:induction false} SessionSimulates(cfg: Config, houses: seq<House>, inputs: seq<Input>, i: nat, mission: string)
    requires IsSession(cfg, houses, inputs) && i < |houses|
    ensures Simulates(RulesOf(cfg, mission), Fresh, DeskOf(houses[i], mission))
  {
    hide React, RulesOf, Reaches;
    var rules := RulesOf(cfg, mission);
    if i == 0 {
      assert Quiet(Fresh) && Displays(Fresh, EmptyDesk);
      StandingStill(rules, Fresh, EmptyDesk);
    } else {
      SessionSimulates(cfg, houses, inputs, i - 1, mission);
      var t :| Reaches(rules, Fresh, t) && Quiet(t) && Displays(t, DeskOf(houses[i - 1], mission));
      ReactSimulates(cfg, houses[i - 1], t, inputs[i - 1], mission);
      hide Simulates;
      SimulatesThen(rules, Fresh, t, DeskOf(houses[i], mission));
    }
  }

  function PathOf(rules: Rules, s: State, steps: seq<Step>): seq<State>
    requires Replay(rules, s, me, steps).Some?
    decreases |steps|
  {
    if steps == [] then [s] else [s] + PathOf(rules, After(rules, s, me, steps[0]).value, steps[1..])
  }

  lemma {:induction false} PathIsAPath(rules: Rules, s: State, steps: seq<Step>)
    requires Replay(rules, s, me, steps).Some?
    ensures
      var path := PathOf(rules, s, steps);
      && |path| == |steps| + 1 && path[0] == s && path[|steps|] == Replay(rules, s, me, steps).value
      && forall i :: 0 <= i < |steps| ==> After(rules, path[i], me, steps[i]) == Some(path[i + 1])
    decreases |steps|
  {
    hide After;
    if steps != [] {
      var t, rest := After(rules, s, me, steps[0]).value, steps[1..];
      PathIsAPath(rules, t, rest);
      var path := PathOf(rules, s, steps);
      forall i | 0 <= i < |steps| ensures After(rules, path[i], me, steps[i]) == Some(path[i + 1]) {
        if i > 0 { assert path[i] == PathOf(rules, t, rest)[i - 1] && steps[i] == rest[i - 1]; }
      }
    }
  }

  /** What a process reaches from a fresh directory is the end of an honest run. */
  lemma ReachedByARun(rules: Rules, s: State) returns (states: seq<State>, moves: seq<Move>)
    requires Reaches(rules, Fresh, s)
    ensures IsHonestRun(rules, states, moves) && states[|states| - 1] == s
  {
    hide After, Replay;
    var steps :| NoEdits(steps) && Replay(rules, Fresh, me, steps) == Some(s);
    PathIsAPath(rules, Fresh, steps);
    states := PathOf(rules, Fresh, steps);
    moves := seq(|steps|, i requires 0 <= i < |steps| => Move(me, steps[i]));
  }

  /** Sessions refine the protocol: at every moment of every session, the queue, claims,
      receipt and dispatches of every mission are those at the end of some honest run of the
      queue protocol under the program's rules. */
  lemma SessionIsARun(cfg: Config, houses: seq<House>, inputs: seq<Input>, i: nat, mission: string)
    returns (states: seq<State>, moves: seq<Move>)
    requires IsSession(cfg, houses, inputs) && i < |houses|
    ensures IsHonestRun(RulesOf(cfg, mission), states, moves) && |states| > 0
    ensures Displays(states[|states| - 1], DeskOf(houses[i], mission))
  {
    hide React, RulesOf, Reaches, Displays;
    SessionSimulates(cfg, houses, inputs, i, mission);
    var s :| Reaches(RulesOf(cfg, mission), Fresh, s) && Quiet(s) && Displays(s, DeskOf(houses[i], mission));
    states, moves := ReachedByARun(RulesOf(cfg, mission), s);
  }

  lemma SoundEverywhere(cfg: Config, mission: string)
    requires HashingSound(cfg)
    ensures HashingSound(cfg.(directory := mission))
  {
    var other := cfg.(directory := mission);
    forall x, y ensures !Collides(other, x, y) { assert !Collides(cfg, x, y); }
    forall x, y ensures !ShortIdsCollide(other, x, y) { assert !ShortIdsCollide(cfg, x, y); }
    forall x ensures IsHexDigest(other, x) { assert IsHexDigest(cfg, x); }
    forall x ensures IsShortId(other, x) { assert IsShortId(cfg, x); }
  }

  /** How often an id was dispatched, by the session's own account. */
  function Sent(log: seq<Action>, id: string): nat {
    if log == [] then 0 else Sent(log[..|log| - 1], id) + if log[|log| - 1].id == id then 1 else 0
  }

  lemma {:induction false} SentIsDispatched(log: seq<Dispatch>, id: string)
    ensures Sent(ActionsOf(log), id) == Dispatches(log, id)
  {
    if log != [] {
      var n := |log| - 1;
      SentIsDispatched(log[..n], id);
      assert ActionsOf(log)[..n] == ActionsOf(log[..n]);
    }
  }

  /** So what holds of runs holds of sessions: in every mission a console has ever touched,
      each action's status agrees with its claim and with what was dispatched. */
  lemma SessionStatusIsHistory(cfg: Config, houses: seq<House>, inputs: seq<Input>, i: nat, mission: string, a: Action)
    requires HashingSound(cfg) && IsSession(cfg, houses, inputs) && i < |houses|
    requires a in RowsOf(DeskOf(houses[i], mission).queue)
    ensures
      var d := DeskOf(houses[i], mission);
      && (a.status.Running? || a.status.Completed? || a.status.Failed? || a.status.Blocked? ==> ClaimCovers(d.claims, a))
      && (a.status.Rejected? ==> a.id !in d.claims)
      && (a.status.Proposed? || a.status.Rejected? ==> Sent(d.log, a.id) == 0)
      && (a.status.Completed? || a.status.Failed? ==> Sent(d.log, a.id) == 1)
      && Sent(d.log, a.id) <= 1
  {
    hide React, Konoha, HashingSound, IsHonestRun, Sent, Dispatches, ClaimCovers;
    var states, moves := SessionIsARun(cfg, houses, inputs, i, mission);
    var s := states[|states| - 1];
    SoundEverywhere(cfg, mission);
    KonohaQueue.StatusIsHistory(cfg.(directory := mission), states, moves, |states| - 1, a);
    SentIsDispatched(s.log, a.id);
  }

  lemma HexEverywhere(cfg: Config, mission: string)
    requires HexIds(cfg)
    ensures HexIds(cfg.(directory := mission))
  {
    forall x ensures HexId(cfg.(directory := mission), x) {
      assert HexId(cfg, x);
    }
  }

  /** In every reachable desk of every mission the rows were made by the builder and admitted by
      the charter that the receipt names. */
  lemma SessionRowsWereAdmitted(cfg: Config, houses: seq<House>, inputs: seq<Input>, i: nat, mission: string, a: Action)
    requires HashingSound(cfg) && IsSession(cfg, houses, inputs) && i < |houses|
    requires a in RowsOf(DeskOf(houses[i], mission).queue)
    ensures WellMade(cfg.(directory := mission), a) && a.missionId == mission && DeskOf(houses[i], mission).receipt.Doc?
    ensures exists c, d ::
      Admitted(cfg.(directory := mission), DeskOf(houses[i], mission).receipt.value, c, d, a)
  {
    hide React, Konoha, HashingSound, IsHonestRun, WellMade, Admitted;
    var states, moves := SessionIsARun(cfg, houses, inputs, i, mission);
    SoundEverywhere(cfg, mission);
    EveryRowWasAdmitted(cfg.(directory := mission), states, moves, |states| - 1, a);
    var c, d :| Admitted(cfg.(directory := mission), states[|states| - 1].receipt.value, c, d, a);
    assert a.missionId == mission by { AdmittedIsHere(cfg.(directory := mission), states[|states| - 1].receipt.value, c, d, a); }
  }

  lemma AdmittedIsHere(cfg: Config, r: Receipt, c: Charter, d: Decision, a: Action)
    requires Admitted(cfg, r, c, d, a)
    ensures a.missionId == cfg.directory
  {
  }

  /** In every reachable desk one approval phrase, or one rejection phrase, names one action. */
  lemma SessionPhrasesNameRows(
    cfg: Config, houses: seq<House>, inputs: seq<Input>, i: nat, mission: string, a: Action, b: Action)
    requires HashingSound(cfg) && HexIds(cfg) && IsSession(cfg, houses, inputs) && i < |houses|
    requires a in RowsOf(DeskOf(houses[i], mission).queue) && b in RowsOf(DeskOf(houses[i], mission).queue)
    ensures a.approvalPhrase == b.approvalPhrase || a.rejectionPhrase == b.rejectionPhrase ==> a == b
    ensures a.approvalPhrase != b.rejectionPhrase
  {
    hide React, Konoha, HashingSound, IsHonestRun, HexIds;
    var states, moves := SessionIsARun(cfg, houses, inputs, i, mission);
    SoundEverywhere(cfg, mission);
    HexEverywhere(cfg, mission);
    PhrasesNameRows(cfg.(directory := mission), states, moves, |states| - 1, a, b);
  }
}
