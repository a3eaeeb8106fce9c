/** Sessions and runs that really happen, from an empty workspace on: the situations in which
    an expectation fails are reached, not only conceivable. */
module Scenarios {
  import opened Common
  import opened Text
  import opened Registry
  import opened Authority
  import opened Builder
  import opened QueueProtocol
  import opened QueueTable
  import opened QueueInvariant
  import opened QueueRules
  import opened QueueSequential
  import opened Planning
  import opened Lifecycle
  import opened Session
  import opened SessionTheorems
  import opened SessionRuns
  import opened QueueTheorems
  import opened QueueClaims
  import opened Progress

  // ---------------------------------------------------------------- an approved mission

  /** Everything a mission starts from: what the request was interpreted as, and who approved
      it when. */
  datatype Case = Case(
    cfg: Config, intent: Intent, limits: Constraints, decision: Decision, charterId: string, body: string,
    actor: string, at: string, request: string)

  predicate Startable(k: Case) {
    && Strip(k.request) == k.request != "" && !IsCommand(k.request)
    && k.cfg.directory == k.decision.missionId && k.at != "" && Strip(k.actor) == k.actor != ""
    && BuildCharter(k.cfg, k.intent, k.decision, k.limits, k.charterId, k.body).Ok?
  }

  function TheCharter(k: Case): Charter
    requires Startable(k)
  {
    BuildCharter(k.cfg, k.intent, k.decision, k.limits, k.charterId, k.body).value
  }

  function Mission(k: Case): string { k.decision.missionId }
  function Plan(k: Case): string { Mission(k) + "-plan" }

  function Frozen(k: Case): Charter
    requires Startable(k)
  {
    Approved(TheCharter(k), k.at, k.actor)
  }

  function TheReceipt(k: Case): File<Receipt>
    requires Startable(k)
  {
    Doc(MakeReceipt(k.cfg, Frozen(k), k.decision))
  }

  function TheView(k: Case): View
    requires Startable(k)
  {
    View(Doc(Frozen(k)), Doc(k.decision))
  }

  /** The initial actions as the queue receives them. */
  function Actions(k: Case): seq<Action>
    requires Startable(k)
  {
    var r := InitialActions(k.cfg, TheReceipt(k), TheView(k), Initialize(Mission(k), Plan(k)));
    if r.Ok? then r.value else []
  }

  /** An outside world in which the given documents are read and the dispatcher returns. */
  function Outside(view: View, preDispatch: View, recheck: View, report: Report, offer: Option<Offer>): World {
    World(view, preDispatch, recheck, view, Returns(report), Nowhere, path => Missing, "", true,
          ReviewResult(0, Missing), TeachbackResult("", Missing), ClosureResult("", ""), offer)
  }

  const Nothing: View := View(Missing, Missing)
  const Plainly: Report := Report(None, [])

  function Request(k: Case): Input
    requires Startable(k)
  {
    Type(Line(k.request, k.actor, k.at), Outside(Nothing, Nothing, Nothing, Plainly, Some(Offer(TheCharter(k), k.decision))))
  }

  function CharterPhrase(k: Case): Input
    requires Startable(k)
  {
    Type(Line(TheCharter(k).approvalPhrase, k.actor, k.at), Outside(TheView(k), TheView(k), TheView(k), Plainly, None))
  }

  /** The mission's files right after its approval. */
  function Opened(k: Case): Desk
    requires Startable(k)
  {
    Desk(Doc(Queue(Some(Mission(k)), Plan(k), Actions(k))), map[], TheReceipt(k), NoPapers, [],
         Doc(Frozen(k)), Doc(k.decision))
  }

  lemma ProposedIsConstructed(k: Case)
    requires Startable(k)
    ensures ValidateCharterConstruction(k.cfg, TheCharter(k), k.decision).Pass?
    ensures TheCharter(k).missionId == Mission(k) && TheCharter(k).state.CharterProposed?
    ensures TheCharter(k).proposed == ProposedSkills(k.intent) && TheCharter(k).followups == FollowupSkills(k.intent)
    ensures StartsWith(TheCharter(k).approvalPhrase, "APROBAR ")
  {
    hide ValidateCharterConstruction, IsCommand;
  }

  /** What the initial actions are: fresh, under different ids, one per proposed skill, and
      accepted by the checkpoint. */
  lemma ActionsAreGood(k: Case, i: nat)
    requires HashingSound(k.cfg) && Startable(k) && i < |ProposedSkills(k.intent)|
    ensures |Actions(k)| == |ProposedSkills(k.intent)| && UniqueIds(Actions(k)) && IsFresh(Actions(k)[i])
    ensures Actions(k)[i].skill == ProposedSkills(k.intent)[i] && StartsWith(Actions(k)[i].approvalPhrase, "APROBAR ")
    ensures Konoha(k.cfg).check(Actions(k)[i], Restore, TheView(k), TheReceipt(k))
    ensures InitialActions(k.cfg, TheReceipt(k), TheView(k), Initialize(Mission(k), Plan(k))) == Ok(Actions(k))
  {
    ProposedIsConstructed(k);
    assert Plan(k) != "" by { assert |Plan(k)| >= 5; }
    var c := TheCharter(k);
    hide Startable, ProposedSkills, FollowupSkills, ValidateCharterConstruction, Konoha, InitialActions,
         MakeReceipt, HashingSound;
    assert HexDigests(k.cfg) by { SoundIsHex(k.cfg); }
    InitialActionIsBuilt(k.cfg, c, k.decision, k.at, k.actor, Plan(k), i);
    ApprovedMissionStarts(k.cfg, c, k.decision, k.at, k.actor, Plan(k));
  }

  lemma ActionHasSkill(k: Case, i: nat)
    requires HashingSound(k.cfg) && Startable(k) && i < |ProposedSkills(k.intent)|
    ensures |Actions(k)| == |ProposedSkills(k.intent)| && Actions(k)[i].skill == ProposedSkills(k.intent)[i]
  {
    hide Startable, Actions, HashingSound, ProposedSkills, Konoha, TheView, TheReceipt, InitialActions;
    ActionsAreGood(k, i);
  }

  lemma SoundIsHex(cfg: Config)
    requires HashingSound(cfg)
    ensures HexDigests(cfg)
  {
  }

  // ---------------------------------------------------------------- from nothing to an open queue

  function AskedHouse(k: Case): House
    requires Startable(k)
  {
    House(map[Mission(k) := EmptyDesk.(decision := Doc(k.decision), charter := Doc(TheCharter(k)))],
          Some(Mission(k)), Some(TheCharter(k)), Some(k.decision))
  }

  /** The console has only this mission open, with these files. */
  function HouseWith(k: Case, d: Desk): House {
    House(map[Mission(k) := d], Some(Mission(k)), None, None)
  }

  lemma RequestIsALine(k: Case)
    requires Startable(k)
    ensures k.request != "" && !IsCommand(k.request)
  {
  }

  /** No phrase is taken for a command. */
  lemma PhraseIsALine(text: string)
    requires StartsWith(text, "APROBAR ")
    ensures text != "" && !IsCommand(text)
  {
    assert text[0] == text[..8][0] == 'A';
  }

  lemma RequestIsHeard(k: Case)
    requires Startable(k)
    ensures React(k.cfg, EmptyHouse, Request(k)) == AskedHouse(k)
  {
    hide Startable, ValidateCharterConstruction, BuildCharter, IsCommand;
    ProposedIsConstructed(k);
    RequestIsALine(k);
  }

  lemma CharterIsFrozen(k: Case, d: Desk)
    requires HashingSound(k.cfg) && Startable(k) && d.receipt.Missing?
    ensures
      FreezeCharter(k.cfg, d, TheCharter(k), k.decision, CharterPhrase(k).line, CharterPhrase(k).world)
        == (d.(decision := Doc(k.decision), charter := Doc(Frozen(k)), receipt := TheReceipt(k)), Clear)
  {
    ProposedIsConstructed(k);
    SoundIsHex(k.cfg);
    ApprovedPairLoads(k.cfg, TheCharter(k), k.decision, k.at, k.actor);
    hide ValidateCharterConstruction, BuildCharter, ReceiptPreconditions, MakeReceipt, HashingSound, HexDigests,
         LoadAuthoritativeState, Strip;
  }

  lemma QueueIsOpened(k: Case, d: Desk)
    requires HashingSound(k.cfg) && Startable(k) && ProposedSkills(k.intent) != []
    requires d.queue.Missing? && d.receipt == TheReceipt(k)
    ensures OpenQueue(RulesOf(k.cfg, Mission(k)), d, Initialize(Mission(k), Plan(k)), TheView(k))
         == (d.(queue := Doc(Queue(Some(Mission(k)), Plan(k), Actions(k)))), Clear)
  {
    ActionsAreGood(k, 0);
    assert k.cfg.(directory := Mission(k)) == k.cfg;
    hide Startable, BuildCharter, InitialActions, MakeReceipt, HashingSound, ProposedSkills, Actions;
  }

  lemma ApprovalIsHeard(k: Case)
    requires HashingSound(k.cfg) && Startable(k) && ProposedSkills(k.intent) != []
    ensures React(k.cfg, AskedHouse(k), CharterPhrase(k)) == HouseWith(k, Opened(k))
  {
    hide IsCommand, ValidateCharterConstruction, Startable, BuildCharter, HashingSound, ProposedSkills, Actions,
         FreezeCharter, OpenQueue, MakeReceipt,
         RulesOf, Frozen,
         NextPending;
    var d := EmptyDesk.(decision := Doc(k.decision), charter := Doc(TheCharter(k)));
    var frozen := d.(decision := Doc(k.decision), charter := Doc(Frozen(k)), receipt := TheReceipt(k));
    CharterIsFrozen(k, d);
    QueueIsOpened(k, frozen);
    ProposedIsConstructed(k);
    PhraseIsALine(TheCharter(k).approvalPhrase);
    assert DeskOf(AskedHouse(k), Mission(k)) == d;
    assert AskedHouse(k).desks[Mission(k) := Opened(k)] == HouseWith(k, Opened(k)).desks;
  }

  /** Inputs that lead from an empty workspace to this house. */
  ghost predicate LeadsTo(cfg: Config, houses: seq<House>, inputs: seq<Input>, h: House) {
    IsSession(cfg, houses, inputs) && houses[|houses| - 1] == h
  }

  lemma NextInput(cfg: Config, houses: seq<House>, inputs: seq<Input>, h: House, input: Input)
    requires LeadsTo(cfg, houses, inputs, h)
    ensures LeadsTo(cfg, houses + [React(cfg, h, input)], inputs + [input], React(cfg, h, input))
  {
    hide React;
  }

  /** Every mission that can be built can be asked for and approved. */
  lemma MissionOpens(k: Case) returns (houses: seq<House>, inputs: seq<Input>)
    requires HashingSound(k.cfg) && Startable(k) && ProposedSkills(k.intent) != []
    ensures LeadsTo(k.cfg, houses, inputs, HouseWith(k, Opened(k)))
  {
    hide React, HashingSound, Startable, ProposedSkills, Opened;
    RequestIsHeard(k);
    ApprovalIsHeard(k);
    houses, inputs := [EmptyHouse], [];
    NextInput(k.cfg, houses, inputs, EmptyHouse, Request(k));
    houses, inputs := houses + [AskedHouse(k)], inputs + [Request(k)];
    NextInput(k.cfg, houses, inputs, AskedHouse(k), CharterPhrase(k));
    houses, inputs := houses + [HouseWith(k, Opened(k))], inputs + [CharterPhrase(k)];
  }

  // ---------------------------------------------------------------- working through the queue

  /** The first i actions have been decided, the others stand as they were queued. */
  predicate AtWork(k: Case, d: Desk, i: nat)
    requires Startable(k)
  {
    && d.queue.Doc? && d.queue.value.mission == Some(Mission(k)) && i <= |Actions(k)| == |RowsOf(d.queue)|
    && (forall j :: i <= j < |Actions(k)| ==> RowsOf(d.queue)[j] == Actions(k)[j] && Actions(k)[j].id !in d.claims)
    && (forall j :: 0 <= j < i ==> RowsOf(d.queue)[j].id == Actions(k)[j].id && !RowsOf(d.queue)[j].status.Proposed?)
    && d.receipt == TheReceipt(k) && d.papers == NoPapers
  }

  lemma OpenedIsAtWork(k: Case)
    requires Startable(k)
    ensures AtWork(k, Opened(k), 0) && RowsOf(Opened(k).queue) == Actions(k)
  {
    hide Actions, TheReceipt, Frozen;
  }

  lemma {:induction false} FirstProposed(actions: seq<Action>, i: nat)
    requires i < |actions| && actions[i].status.Proposed? && forall j :: 0 <= j < i ==> !actions[j].status.Proposed?
    ensures NextPending(actions) == Some(actions[i])
  {
    if i > 0 {
      assert forall j :: 0 <= j < i - 1 ==> actions[1..][j] == actions[j + 1];
      FirstProposed(actions[1..], i - 1);
    }
  }

  lemma {:induction false} NoneProposed(actions: seq<Action>)
    requires forall j :: 0 <= j < |actions| ==> !actions[j].status.Proposed?
    ensures NextPending(actions).None?
  {
    if actions != [] {
      assert forall j :: 0 <= j < |actions| - 1 ==> actions[1..][j] == actions[j + 1];
      NoneProposed(actions[1..]);
    }
  }

  function ApprovalOf(k: Case, i: nat): Op
    requires Startable(k) && i < |Actions(k)|
  {
    Approve(Actions(k)[i].id, Actions(k)[i].approvalPhrase, k.actor, k.at)
  }

  /** The i-th action is ready to be approved. */
  lemma WorkIsReady(k: Case, d: Desk, i: nat, w: World)
    requires HashingSound(k.cfg) && Startable(k) && AtWork(k, d, i) && i < |Actions(k)| == |ProposedSkills(k.intent)|
    requires w.restore == TheView(k)
    ensures UniqueIds(RowsOf(d.queue)) && NextPending(RowsOf(d.queue)) == Some(Actions(k)[i])
    ensures StartsWith(Actions(k)[i].approvalPhrase, "APROBAR ")
    ensures Approvable(Konoha(k.cfg), d, ApprovalOf(k, i), w, d.queue.value, i)
  {
    hide Startable, Actions, TheReceipt, TheView, HashingSound, ProposedSkills, Konoha, NextPending, InitialActions, StartsWith,
         UniqueIds, Find;
    ActionsAreGood(k, i);
    FirstProposed(RowsOf(d.queue), i);
    WorkIsUnique(k, d, i);
    ActorIsNamed(k);
    UniqueIsFoundAt(d.queue.value, i);
  }

  lemma WorkIsUnique(k: Case, d: Desk, i: nat)
    requires Startable(k) && AtWork(k, d, i) && UniqueIds(Actions(k))
    ensures UniqueIds(RowsOf(d.queue))
  {
    hide Startable, Actions, TheReceipt;
    forall x, y | 0 <= x < y < |RowsOf(d.queue)| ensures RowsOf(d.queue)[x].id != RowsOf(d.queue)[y].id {
      assert Actions(k)[x].id != Actions(k)[y].id;
    }
  }

  lemma ActorIsNamed(k: Case)
    requires Startable(k)
    ensures k.actor != "" && k.at != ""
  {
  }

  lemma WorkAdvances(k: Case, d: Desk, i: nat, b: Action, claims: map<string, ClaimFile>)
    requires HashingSound(k.cfg) && Startable(k) && AtWork(k, d, i) && i < |Actions(k)| == |ProposedSkills(k.intent)|
    requires b.id == Actions(k)[i].id && !b.status.Proposed? && claims.Keys == d.claims.Keys + {b.id}
    ensures AtWork(k, WithAction(d, d.queue.value, i, b).(claims := claims), i + 1)
  {
    hide Startable, Actions, TheReceipt, TheView, HashingSound, ProposedSkills, Konoha;
    ActionsAreGood(k, i);
    forall j | i + 1 <= j < |Actions(k)| ensures Actions(k)[j].id !in claims {
      assert Actions(k)[i].id != Actions(k)[j].id;
    }
  }

  /** Completing the next action. */
  lemma WorkCompletes(k: Case, d: Desk, i: nat, report: Report)
    requires HashingSound(k.cfg) && Startable(k) && AtWork(k, d, i) && i < |Actions(k)| == |ProposedSkills(k.intent)|
    ensures
      var op, w := ApprovalOf(k, i), Outside(TheView(k), TheView(k), TheView(k), report, None);
      var done := Done(op, Actions(k)[i], report);
      var (d', r) := ApproveAndDispatch(Konoha(k.cfg), d, op, w);
      && r == Ok(done) && AtWork(k, d', i + 1) && RowsOf(d'.queue) == RowsOf(d.queue)[i := done]
      && |RowsOf(d'.queue)| == |Actions(k)| && RowsOf(d'.queue)[i] == done
  {
    hide Startable, Actions, TheReceipt, TheView, HashingSound, ProposedSkills, Konoha, ApproveAndDispatch,
         Approvable, NextPending;
    var op, w := ApprovalOf(k, i), Outside(TheView(k), TheView(k), TheView(k), report, None);
    var a := Actions(k)[i];
    WorkIsReady(k, d, i, w);
    ActionsAreGood(k, i);
    ActorIsNamed(k);
    SecondCheckFollows(k.cfg, op, a, TheView(k), TheReceipt(k));
    SuccessIsExact(Konoha(k.cfg), d, op, w, d.queue.value, i);
    WorkAdvances(k, d, i, Done(op, a, report), ClaimsWith(d, op, a));
    assert d.(log := d.log + [Begun(op, a)]).queue == d.queue;
  }

  /** Having the next action refused before its dispatch: the charter is missing at the
      pre-dispatch check, and `recheck` is what the repeated check reads. */
  lemma WorkIsRefused(k: Case, d: Desk, i: nat, recheck: View)
    requires HashingSound(k.cfg) && Startable(k) && AtWork(k, d, i) && i < |Actions(k)| == |ProposedSkills(k.intent)|
    requires recheck == TheView(k) || recheck == Nothing
    ensures
      var op, w := ApprovalOf(k, i), Outside(TheView(k), Nothing, recheck, Plainly, None);
      var begun := Begun(op, Actions(k)[i]);
      var b := if recheck == Nothing then begun else begun.(status := Blocked);
      var (d', r) := ApproveAndDispatch(Konoha(k.cfg), d, op, w);
      && r.Err? && AtWork(k, d', i + 1) && RowsOf(d'.queue) == RowsOf(d.queue)[i := b]
      && |RowsOf(d'.queue)| == |Actions(k)| && RowsOf(d'.queue)[i] == b
  {
    hide Startable, Actions, TheReceipt, TheView, HashingSound, ProposedSkills, Konoha, ApproveAndDispatch,
         Approvable, NextPending;
    var op, w := ApprovalOf(k, i), Outside(TheView(k), Nothing, recheck, Plainly, None);
    var a := Actions(k)[i];
    var begun := Begun(op, a);
    WorkIsReady(k, d, i, w);
    ActionsAreGood(k, i);
    ActorIsNamed(k);
    RestoreSurvivesStart(k.cfg, op, a, TheView(k), TheReceipt(k));
    MissingCharterFails(k.cfg, begun, PreDispatch, TheReceipt(k));
    MissingCharterFails(k.cfg, begun, Restore, TheReceipt(k));
    ViewIsSomething(k);
    RefusalIsExact(Konoha(k.cfg), d, op, w, d.queue.value, i);
    WorkAdvances(k, d, i, if recheck == Nothing then begun else begun.(status := Blocked), ClaimsWith(d, op, a));
  }

  lemma ViewIsSomething(k: Case)
    requires Startable(k)
    ensures TheView(k) != Nothing
  {
  }

  lemma MissingCharterFails(cfg: Config, a: Action, stage: Stage, receipt: File<Receipt>)
    ensures !Konoha(cfg).check(a, stage, Nothing, receipt)
  {
    if Konoha(cfg).check(a, stage, Nothing, receipt) {
      PassedMeansDocuments(cfg, a, stage, Nothing, receipt);
    }
  }

  // ---------------------------------------------------------------- lines at the console

  function Phrase(k: Case, i: nat, w: World): Input
    requires Startable(k) && i < |Actions(k)|
  {
    Type(Line(Actions(k)[i].approvalPhrase, k.actor, k.at), w)
  }

  /** The phrase of the action on offer approves it. */
  lemma PhraseIsHeard(k: Case, d: Desk, i: nat, w: World)
    requires Startable(k) && i < |Actions(k)| && NextPending(RowsOf(d.queue)) == Some(Actions(k)[i])
    requires StartsWith(Actions(k)[i].approvalPhrase, "APROBAR ")
    ensures React(k.cfg, HouseWith(k, d), Phrase(k, i, w))
         == HouseWith(k, ApproveAction(Konoha(k.cfg), d, ApprovalOf(k, i), w).0)
  {
    hide IsCommand, Startable, Actions, ApproveAction, Konoha, NextPending, AtRecords, ProposeMission, AtCharter;
    PhraseIsALine(Actions(k)[i].approvalPhrase);
    var m := Mission(k);
    assert k.cfg.(directory := m) == k.cfg by { DirectoryIsMission(k); }
    var d' := ApproveAction(Konoha(k.cfg), d, ApprovalOf(k, i), w).0;
    assert DeskOf(HouseWith(k, d), m) == d;
    assert map[m := d][m := d'] == map[m := d'];
  }

  /** An action without follow-ups completes, and the next one is on offer. */
  lemma CompletionMovesOn(k: Case, d: Desk, i: nat)
    requires HashingSound(k.cfg) && Startable(k) && AtWork(k, d, i) && i + 1 < |Actions(k)| == |ProposedSkills(k.intent)|
    requires !Actions(k)[i].skill.ModelAudit? && !Actions(k)[i].skill.ApplyPatch?
    ensures
      var w := Outside(TheView(k), TheView(k), TheView(k), Plainly, None);
      var d' := ApproveAndDispatch(Konoha(k.cfg), d, ApprovalOf(k, i), w).0;
      && AtWork(k, d', i + 1) && RowsOf(d'.queue) == RowsOf(d.queue)[i := Done(ApprovalOf(k, i), Actions(k)[i], Plainly)]
      && React(k.cfg, HouseWith(k, d), Phrase(k, i, w)) == HouseWith(k, d')
  {
    hide Startable, Actions, TheReceipt, TheView, HashingSound, ProposedSkills, Konoha, ApproveAndDispatch,
         Approvable, NextPending,
         AtWork, React, HouseWith, UniqueIds;
    var w := Outside(TheView(k), TheView(k), TheView(k), Plainly, None);
    WorkIsReady(k, d, i, w);
    WorkCompletes(k, d, i, Plainly);
    var d' := ApproveAndDispatch(Konoha(k.cfg), d, ApprovalOf(k, i), w).0;
    WorkIsReady(k, d', i + 1, w);
    PhraseIsHeard(k, d, i, w);
  }

  // ---------------------------------------------------------------- a review over a blocked action

  /** A change without a model audit: two inspections. */
  predicate TwoInspections(k: Case) {
    k.intent.kind == "implement_change" && k.intent.outputs == {"mission_result"}
  }

  lemma TwoInspectionsAre(k: Case)
    requires TwoInspections(k)
    ensures ProposedSkills(k.intent) == [InspectPython, InspectGit]
  {
    assert [InspectPython, InspectGit] + [] == [InspectPython, InspectGit];
  }

  lemma RefusedFirst(k: Case)
    requires HashingSound(k.cfg) && Startable(k) && TwoInspections(k)
    ensures |Actions(k)| == 2 && Actions(k)[1].skill.InspectGit?
    ensures
      var w := Outside(TheView(k), Nothing, TheView(k), Plainly, None);
      var d := ApproveAndDispatch(Konoha(k.cfg), Opened(k), ApprovalOf(k, 0), w).0;
      && AtWork(k, d, 1) && RowsOf(d.queue)[0] == Begun(ApprovalOf(k, 0), Actions(k)[0]).(status := Blocked)
      && React(k.cfg, HouseWith(k, Opened(k)), Phrase(k, 0, w)) == HouseWith(k, d)
  {
    hide Startable, Actions, TheReceipt, TheView, HashingSound, ProposedSkills, Konoha, ApproveAndDispatch,
         Approvable, NextPending,
         AtWork, React, HouseWith, UniqueIds, Opened;
    TwoInspectionsAre(k);
    ActionHasSkill(k, 1);
    OpenedIsAtWork(k);
    ViewIsSomething(k);
    var w := Outside(TheView(k), Nothing, TheView(k), Plainly, None);
    WorkIsReady(k, Opened(k), 0, w);
    WorkIsRefused(k, Opened(k), 0, TheView(k));
    PhraseIsHeard(k, Opened(k), 0, w);
  }

  lemma BlockedThenDone(k: Case, rows: seq<Action>, disk: Disk)
    requires Startable(k) && |Actions(k)| == 2 && |rows| == 2
    requires rows[0] == Begun(ApprovalOf(k, 0), Actions(k)[0]).(status := Blocked)
    requires rows[1] == Done(ApprovalOf(k, 1), Actions(k)[1], Plainly)
    ensures Validation(disk, rows) == Ok(Counts(1, 0, 0, 0, 0)) && NextPending(rows).None?
  {
    hide Startable, Actions;
    NoneProposed(rows);
    hide NextPending;
    assert rows == [rows[0], rows[1]] && rows[1] in rows && rows[0] in rows;
    TallyBumps(rows, 0);
    TallyBumps(rows, 1);
    assert rows[..2] == rows && rows[..0] == [];
  }

  /** Blocked actions are passed over for real: for every such mission there is a session from
      an empty workspace in which the first action is refused before its dispatch and blocked,
      the second completes, and a review is proposed over a queue with a blocked action. */
  lemma ReviewOverABlockedAction(k: Case) returns (houses: seq<House>, inputs: seq<Input>)
    requires HashingSound(k.cfg) && Startable(k) && TwoInspections(k)
    ensures IsSession(k.cfg, houses, inputs)
    ensures
      var d := DeskOf(houses[|houses| - 1], Mission(k));
      && d.papers.review.Some? && d.papers.review.value.status.ReviewProposed?
      && d.papers.review.value.counts == Counts(1, 0, 0, 0, 0)
      && |RowsOf(d.queue)| == 2 && RowsOf(d.queue)[0].status.Blocked? && RowsOf(d.queue)[1].status.Completed?
  {
    TwoInspectionsAre(k);
    RefusedFirst(k);
    var refused := Outside(TheView(k), Nothing, TheView(k), Plainly, None);
    var d := ApproveAndDispatch(Konoha(k.cfg), Opened(k), ApprovalOf(k, 0), refused).0;
    houses, inputs := MissionOpens(k);
    var w := Outside(TheView(k), TheView(k), TheView(k), Plainly, None);
    var h := SecondReviewed(k, d);
    hide Startable, Actions, TheReceipt, TheView, HashingSound, ProposedSkills, Konoha, ApproveAndDispatch, NextPending,
         AtWork, React, UniqueIds, Opened, HouseWith, LeadsTo;
    NextInput(k.cfg, houses, inputs, HouseWith(k, Opened(k)), Phrase(k, 0, refused));
    houses, inputs := houses + [HouseWith(k, d)], inputs + [Phrase(k, 0, refused)];
    NextInput(k.cfg, houses, inputs, HouseWith(k, d), Phrase(k, 1, w));
    houses, inputs := houses + [h], inputs + [Phrase(k, 1, w)];
    assert IsSession(k.cfg, houses, inputs) && houses[|houses| - 1] == h by { LeadsMeans(k.cfg, houses, inputs, h); }
  }

  lemma LeadsMeans(cfg: Config, houses: seq<House>, inputs: seq<Input>, h: House)
    requires LeadsTo(cfg, houses, inputs, h)
    ensures IsSession(cfg, houses, inputs) && |houses| > 0 && houses[|houses| - 1] == h
  {
    hide React;
  }

  lemma SecondReviewed(k: Case, d: Desk) returns (h: House)
    requires HashingSound(k.cfg) && Startable(k) && TwoInspections(k) && |Actions(k)| == 2 && Actions(k)[1].skill.InspectGit?
    requires AtWork(k, d, 1) && RowsOf(d.queue)[0] == Begun(ApprovalOf(k, 0), Actions(k)[0]).(status := Blocked)
    ensures h == React(k.cfg, HouseWith(k, d), Phrase(k, 1, Outside(TheView(k), TheView(k), TheView(k), Plainly, None)))
    ensures
      var e := DeskOf(h, Mission(k));
      && e.papers.review.Some? && e.papers.review.value.status.ReviewProposed?
      && e.papers.review.value.counts == Counts(1, 0, 0, 0, 0)
      && |RowsOf(e.queue)| == 2 && RowsOf(e.queue)[0].status.Blocked? && RowsOf(e.queue)[1].status.Completed?
  {
    hide Startable, Actions, TheReceipt, TheView, HashingSound, ProposedSkills, Konoha, ApproveAndDispatch,
         Approvable, NextPending,
         React, UniqueIds, Validation;
    TwoInspectionsAre(k);
    var w := Outside(TheView(k), TheView(k), TheView(k), Plainly, None);
    WorkIsReady(k, d, 1, w);
    WorkCompletes(k, d, 1, Plainly);
    PhraseIsHeard(k, d, 1, w);
    h := React(k.cfg, HouseWith(k, d), Phrase(k, 1, w));
    var d' := ApproveAndDispatch(Konoha(k.cfg), d, ApprovalOf(k, 1), w).0;
    BlockedThenDone(k, RowsOf(d'.queue), w.disk);
  }

  // ---------------------------------------------------------------- an audit-only mission

  /** A plain review of a repository. */
  predicate AuditOnly(k: Case) {
    k.intent.kind == "inspect_and_review" && k.intent.outputs == {"findings"}
  }

  lemma AuditOnlyIs(k: Case)
    requires AuditOnly(k)
    ensures ProposedSkills(k.intent) == [InspectPython, InspectGit, AuditChecks, ModelAudit] && !PatchImplied(k.intent)
  {
    assert [InspectPython, InspectGit] + [AuditChecks, ModelAudit] == [InspectPython, InspectGit, AuditChecks, ModelAudit];
  }

  lemma AuditActions(k: Case)
    requires HashingSound(k.cfg) && Startable(k) && AuditOnly(k)
    ensures |Actions(k)| == 4 == |ProposedSkills(k.intent)|
    ensures forall i :: 0 <= i < 3 ==> !Actions(k)[i].skill.ModelAudit? && !Actions(k)[i].skill.ApplyPatch?
    ensures Actions(k)[3].skill.ModelAudit?
  {
    hide Startable, Actions, HashingSound, ProposedSkills, AuditOnly, PatchImplied;
    AuditOnlyIs(k);
    ActionHasSkill(k, 0);
    ActionHasSkill(k, 1);
    ActionHasSkill(k, 2);
    ActionHasSkill(k, 3);
  }

  function DeskAfter(k: Case, d: Desk, i: nat): Desk
    requires Startable(k) && i < |Actions(k)|
  {
    ApproveAndDispatch(Konoha(k.cfg), d, ApprovalOf(k, i), Outside(TheView(k), TheView(k), TheView(k), Plainly, None)).0
  }

  /** The three checks before the audit complete one after the other. */
  lemma ChecksComplete(k: Case) returns (houses: seq<House>, inputs: seq<Input>, d: Desk)
    requires HashingSound(k.cfg) && Startable(k) && AuditOnly(k)
    ensures |Actions(k)| == 4 && AtWork(k, d, 3) && LeadsTo(k.cfg, houses, inputs, HouseWith(k, d))
  {
    AuditActions(k);
    AuditOnlyIs(k);
    OpenedIsAtWork(k);
    hide Startable, Actions, HashingSound, Konoha, ProposedSkills, AtWork, ApproveAndDispatch, LeadsTo, React,
         HouseWith, Opened,
         TheView;
    houses, inputs := MissionOpens(k);
    var w := Outside(TheView(k), TheView(k), TheView(k), Plainly, None);
    d := Opened(k);
    for i := 0 to 3
      invariant AtWork(k, d, i) && LeadsTo(k.cfg, houses, inputs, HouseWith(k, d))
    {
      CompletionMovesOn(k, d, i);
      NextInput(k.cfg, houses, inputs, HouseWith(k, d), Phrase(k, i, w));
      d := DeskAfter(k, d, i);
      houses, inputs := houses + [HouseWith(k, d)], inputs + [Phrase(k, i, w)];
    }
  }

  /** The completed audit has its follow-up refused by the charter. */
  lemma AuditStalls(k: Case, d: Desk)
    requires HashingSound(k.cfg) && Startable(k) && AuditOnly(k) && |Actions(k)| == 4 && AtWork(k, d, 3)
    ensures AtWork(k, DeskAfter(k, d, 3), 4) && Stalled(DeskAfter(k, d, 3))
    ensures RowsOf(DeskAfter(k, d, 3).queue)[3].status.Completed?
    ensures React(k.cfg, HouseWith(k, d), Phrase(k, 3, Outside(TheView(k), TheView(k), TheView(k), Plainly, None)))
         == HouseWith(k, DeskAfter(k, d, 3))
  {
    AuditActions(k);
    hide Startable, Actions, HashingSound, Konoha, ProposedSkills, ApproveAndDispatch, React, HouseWith, TheView, NextPending,
         TheReceipt, Approvable, UniqueIds, Stalled, ApproveAction, AuditOnly;
    var w := Outside(TheView(k), TheView(k), TheView(k), Plainly, None);
    WorkIsReady(k, d, 3, w);
    WorkCompletes(k, d, 3, Plainly);
    PhraseIsHeard(k, d, 3, w);
    AllDecided(k, DeskAfter(k, d, 3));
    SoundIsHex(k.cfg);
    CompletedAuditStalls(k, d, w);
  }

  lemma AllDecided(k: Case, d: Desk)
    requires Startable(k) && AtWork(k, d, |Actions(k)|)
    ensures NextPending(RowsOf(d.queue)).None?
  {
    hide Startable, Actions, TheReceipt;
    NoneProposed(RowsOf(d.queue));
  }

  lemma AuditCallsForTests(op: Op, a: Action)
    requires op.Approve? && a.skill.ModelAudit?
    ensures Done(op, a, Plainly).skill.ModelAudit? && FollowupOf(Done(op, a, Plainly)).Ok?
  {
  }

  lemma CompletedAuditStalls(k: Case, d: Desk, w: World)
    requires HexDigests(k.cfg) && Startable(k) && AuditOnly(k) && |Actions(k)| == 4
    requires d.papers == NoPapers && d.receipt == TheReceipt(k)
    requires w == Outside(TheView(k), TheView(k), TheView(k), Plainly, None)
    requires
      var (e, r) := ApproveAndDispatch(Konoha(k.cfg), d, ApprovalOf(k, 3), w);
      && r == Ok(Done(ApprovalOf(k, 3), Actions(k)[3], Plainly)) && Actions(k)[3].skill.ModelAudit?
      && NextPending(RowsOf(e.queue)).None?
    ensures
      var d' := ApproveAction(Konoha(k.cfg), d, ApprovalOf(k, 3), w).0;
      Stalled(d') && d' == ApproveAndDispatch(Konoha(k.cfg), d, ApprovalOf(k, 3), w).0
  {
    hide Actions, Konoha, NextPending, ApproveAndDispatch, ApproveAction, Stalled, HexDigests, ProposedSkills, PatchImplied,
         BuildCharter, MakeReceipt, FollowupOf, Strip, AuditOnly;
    AuditOnlyIs(k);
    AuditCallsForTests(ApprovalOf(k, 3), Actions(k)[3]);
    AuditOnlyMissionStalls(
      k.cfg, k.intent, k.decision, k.limits, k.charterId, k.body, k.at, k.actor, d, ApprovalOf(k, 3), w);
  }

  /** Stalling is real: for every audit-only mission there is a session from an empty workspace
      in which every action completes, the last one being the audit, and after which, whatever
      is typed, proposed again, restarted or edited, no review of the mission is ever prepared
      and its queue, claims, receipt and log never change. */
  lemma AuditOnlySessionStalls(k: Case) returns (houses: seq<House>, inputs: seq<Input>)
    requires HashingSound(k.cfg) && Startable(k) && AuditOnly(k)
    ensures IsSession(k.cfg, houses, inputs)
    ensures
      var d := DeskOf(houses[|houses| - 1], Mission(k));
      Stalled(d) && |RowsOf(d.queue)| == 4 && RowsOf(d.queue)[3].status.Completed? && d.papers.review.None?
    ensures forall later: seq<House>, more: seq<Input>, j: nat ::
      Prolongs(k.cfg, houses, inputs, later, more) && |houses| - 1 <= j < |later| ==>
        OnlyDocuments(DeskOf(houses[|houses| - 1], Mission(k)), DeskOf(later[j], Mission(k)))
  {
    var d: Desk;
    houses, inputs, d := ChecksComplete(k);
    AuditStalls(k, d);
    var w := Outside(TheView(k), TheView(k), TheView(k), Plainly, None);
    var d' := DeskAfter(k, d, 3);
    hide DeskAfter, Startable, Actions, HashingSound, Konoha, AtWork, ApproveAction, LeadsTo, React, TheView, NextPending;
    NextInput(k.cfg, houses, inputs, HouseWith(k, d), Phrase(k, 3, w));
    houses, inputs := houses + [HouseWith(k, d')], inputs + [Phrase(k, 3, w)];
    LeadsMeans(k.cfg, houses, inputs, HouseWith(k, d'));
    forall later: seq<House>, more: seq<Input>, j: nat
      | Prolongs(k.cfg, houses, inputs, later, more) && |houses| - 1 <= j < |later|
      ensures OnlyDocuments(DeskOf(houses[|houses| - 1], Mission(k)), DeskOf(later[j], Mission(k)))
    {
      StalledForEver(k.cfg, later, more, |houses| - 1, j, Mission(k));
    }
  }

  /** A longer session with this one at its beginning. */
  ghost predicate Prolongs(cfg: Config, houses: seq<House>, inputs: seq<Input>, later: seq<House>, more: seq<Input>) {
    IsSession(cfg, later, more) && inputs <= more && houses <= later
  }

  // ---------------------------------------------------------------- a refused action that stays running

  /** Missions start for every decision made for their intent, unless a patch is implied and
      mutation forbidden. */
  lemma DecidedMissionsStart(k: Case, ready: set<Provider>, localModel: string)
    requires HexDigests(k.cfg) && k.cfg.directory == k.decision.missionId && k.at != "" && Strip(k.actor) == k.actor != ""
    requires Strip(k.request) == k.request != "" && !IsCommand(k.request)
    requires k.charterId != "" && DecidedFor(k.decision, k.intent, k.limits, ready, localModel)
    requires !(k.limits.mutationForbidden && PatchImplied(k.intent))
    ensures Startable(k)
  {
    hide HexDigests, DecidedFor, PatchImplied, BuildCharter, Strip;
    CharterFailsExactlyOnForbiddenPatch(
      k.cfg, k.intent, k.limits, ready, localModel, k.decision, k.charterId, k.body);
  }

  /** From a quiet state the approval of a ready action gets as far as its start mark. */
  lemma ApprovalStarts(rules: Rules, s: State, d: Desk, op: Op, w: World, q: Queue, i: nat) returns (x: State, q': Queue)
    requires Quiet(s) && Displays(s, d) && Approvable(rules, d, op, w, q, i)
    ensures x.queue == Doc(q') && x.receipt == d.receipt && Row(q', op.id) == Ok(Begun(op, q.actions[i]))
    ensures Reaches(rules, s, At(x, Started(op, q'), true, Some(op.id)))
  {
    var a, hash := q.actions[i], q.actions[i].argumentsHash;
    VettedMeans(rules, d, op, w);
    StartSucceeds(d.claims, q, op, a);
    var held := WithClaim(s, op.id, Written(me, ClaimFor(op, a)));
    var torn := WithClaim(s, op.id, Torn(me));
    q' := Transition(held.claims, q, op.id, Proposed, hash, Running, Approval(op, hash, None)).value;
    x := held.(queue := Doc(q'));
    hide After, Reaches, Transition, Row, LoadQueue, VetCall, VerifyClaim, Find;
    VettingIsARun(rules, s, op, q, a, w.restore);
    CreateStep(rules, s, op, q);
    WriteStep(rules, s, op, q, a);
    TakeStep(rules, held, op, q);
    StartStep(rules, held, op, q, a, q');
    hide At;
    ReachesNext(rules, s, At(s, Vetted(op, q), true, None), CreateClaim, At(torn, Creating(op, q), true, None));
    ReachesNext(rules, s, At(torn, Creating(op, q), true, None), WriteClaim, At(held, Claimed(op, q), true, None));
    ReachesNext(rules, s, At(held, Claimed(op, q), true, None), TakeLease, At(held, Leased(op, q), true, Some(op.id)));
    ReachesNext(rules, s, At(held, Leased(op, q), true, Some(op.id)), Start, At(x, Started(op, q'), true, Some(op.id)));
  }

  /** A quiet state of the protocol that shows the freshly opened mission. */
  lemma OpenedIsReached(k: Case) returns (s: State)
    requires HashingSound(k.cfg) && Startable(k) && ProposedSkills(k.intent) != []
    ensures Reaches(Konoha(k.cfg), Fresh, s) && Quiet(s) && Displays(s, Opened(k))
  {
    hide React, HashingSound, Startable, ProposedSkills, Opened, Reaches, Displays, Konoha;
    var houses, inputs := MissionOpens(k);
    LeadsMeans(k.cfg, houses, inputs, HouseWith(k, Opened(k)));
    SessionSimulates(k.cfg, houses, inputs, |houses| - 1, Mission(k));
    assert DeskOf(HouseWith(k, Opened(k)), Mission(k)) == Opened(k);
    assert k.cfg.(directory := Mission(k)) == k.cfg by { DirectoryIsMission(k); }
    s :| Reaches(Konoha(k.cfg), Fresh, s) && Quiet(s) && Displays(s, Opened(k));
  }

  lemma DirectoryIsMission(k: Case)
    requires Startable(k)
    ensures k.cfg.directory == Mission(k)
  {
  }

  lemma RefusedIsReached(k: Case) returns (s: State)
    requires HashingSound(k.cfg) && Startable(k) && |ProposedSkills(k.intent)| > 0
    ensures |Actions(k)| > 0 && Reaches(Konoha(k.cfg), Fresh, s)
    ensures PhaseOf(s, me).Refused? && IdOf(PhaseOf(s, me)) == Actions(k)[0].id
  {
    ActionsAreGood(k, 0);
    OpenedIsAtWork(k);
    var w := Outside(TheView(k), Nothing, Nothing, Plainly, None);
    WorkIsReady(k, Opened(k), 0, w);
    var rules, op, q := Konoha(k.cfg), ApprovalOf(k, 0), Opened(k).queue.value;
    hide HashingSound, Startable, ProposedSkills, Opened, Reaches, Displays, Konoha, Actions, Approvable, TheView,
         TheReceipt, After,
         NextPending, AtWork, InitialActions;
    var t := OpenedIsReached(k);
    var x, q' := ApprovalStarts(rules, t, Opened(k), op, w, q, 0);
    var act := Begun(op, q.actions[0]);
    MissingCharterFails(k.cfg, act, PreDispatch, x.receipt);
    BalkStep(rules, x, op, q', act, Nothing);
    s := At(x, Refused(op, q'), true, Some(op.id));
    AtPut(x, Refused(op, q'), true, Some(op.id), Idle);
    hide At;
    ReachesNext(rules, t, At(x, Started(op, q'), true, Some(op.id)), Balk(Nothing), s);
    ReachesBoth(rules, Fresh, t, s);
  }

  /** A refused action that stays running is real: for every mission with an action there is an
      honest run from an empty directory after which its first action is refused, because the
      charter is missing at the pre-dispatch check; the repeated check finds it missing too,
      so the action cannot be blocked, and when the call unwinds it is running with its lease
      free. */
  lemma RefusedActionStaysRunning(k: Case) returns (states: seq<State>, moves: seq<Move>)
    requires HashingSound(k.cfg) && Startable(k) && |ProposedSkills(k.intent)| > 0
    ensures IsHonestRun(Konoha(k.cfg), states, moves) && |states| > 0 && |Actions(k)| > 0
    ensures
      var s, id := states[|states| - 1], Actions(k)[0].id;
      && PhaseOf(s, me).Refused? && IdOf(PhaseOf(s, me)) == id
      && DoMarkBlocked(Konoha(k.cfg), s, me, Nothing).None?
      && DoCrash(s, me).Some? && StatusIs(DoCrash(s, me).value, id, Running) && id !in DoCrash(s, me).value.leases
  {
    hide HashingSound, Startable, ProposedSkills, Reaches, Konoha, Actions, After, DoMarkBlocked, IsHonestRun, FreshActions;
    var s := RefusedIsReached(k);
    states, moves := ReachedByARun(Konoha(k.cfg), s);
    RunsAreNotEmpty(Konoha(k.cfg), states, moves);
    KonohaIsFresh(k.cfg);
    RefusedIsBlockedIffRecheckPasses(Konoha(k.cfg), states, moves, |states| - 1, me, Nothing);
    MissingCharterFails(k.cfg, TableOf(s)[IdOf(PhaseOf(s, me))], Restore, s.receipt);
  }

  lemma RunsAreNotEmpty(rules: Rules, states: seq<State>, moves: seq<Move>)
    requires IsHonestRun(rules, states, moves)
    ensures |states| > 0
  {
    hide After;
  }

  // ---------------------------------------------------------------- an unsuccessful last action

  /** How a dispatched or dispatchable action can come to nothing. */
  datatype Mishap = DispatcherRaises | RefusedAndBlocked | RefusedAndLeft

  function StatusAfter(m: Mishap): Status {
    match m
    case DispatcherRaises => Failed
    case RefusedAndBlocked => Blocked
    case RefusedAndLeft => Running
  }

  function WorldOf(k: Case, m: Mishap): World
    requires Startable(k)
  {
    match m
    case DispatcherRaises => Outside(TheView(k), TheView(k), TheView(k), Plainly, None).(outcome := Raises)
    case RefusedAndBlocked => Outside(TheView(k), Nothing, TheView(k), Plainly, None)
    case RefusedAndLeft => Outside(TheView(k), Nothing, Nothing, Plainly, None)
  }

  lemma WorkFails(k: Case, d: Desk, i: nat)
    requires HashingSound(k.cfg) && Startable(k) && AtWork(k, d, i) && i < |Actions(k)| == |ProposedSkills(k.intent)|
    ensures
      var op, w := ApprovalOf(k, i), WorldOf(k, DispatcherRaises);
      var (d', r) := ApproveAndDispatch(Konoha(k.cfg), d, op, w);
      && r.Err? && AtWork(k, d', i + 1) && |RowsOf(d'.queue)| == |Actions(k)|
      && RowsOf(d'.queue) == RowsOf(d.queue)[i := Begun(op, Actions(k)[i]).(status := Failed)]
  {
    hide Startable, Actions, TheReceipt, TheView, HashingSound, ProposedSkills, Konoha, ApproveAndDispatch,
         Approvable, NextPending;
    var op, w := ApprovalOf(k, i), WorldOf(k, DispatcherRaises);
    var a := Actions(k)[i];
    WorkIsReady(k, d, i, w);
    ActionsAreGood(k, i);
    ActorIsNamed(k);
    SecondCheckFollows(k.cfg, op, a, TheView(k), TheReceipt(k));
    FailureIsExact(Konoha(k.cfg), d, op, w, d.queue.value, i);
    WorkAdvances(k, d, i, Begun(op, a).(status := Failed), ClaimsWith(d, op, a));
  }

  /** Any mishap of the next action leaves it decided, and nothing else changed in the queue. */
  lemma WorkMiscarries(k: Case, d: Desk, i: nat, m: Mishap)
    requires HashingSound(k.cfg) && Startable(k) && AtWork(k, d, i) && i < |Actions(k)| == |ProposedSkills(k.intent)|
    ensures
      var (d', r) := ApproveAndDispatch(Konoha(k.cfg), d, ApprovalOf(k, i), WorldOf(k, m));
      && r.Err? && AtWork(k, d', i + 1) && |RowsOf(d'.queue)| == |Actions(k)| == |RowsOf(d.queue)|
      && RowsOf(d'.queue) == RowsOf(d.queue)[i := RowsOf(d'.queue)[i]] && RowsOf(d'.queue)[i].status == StatusAfter(m)
  {
    hide Startable, Actions, TheReceipt, TheView, HashingSound, ProposedSkills, Konoha, ApproveAndDispatch;
    match m
    case DispatcherRaises => WorkFails(k, d, i);
    case RefusedAndBlocked => ViewIsSomething(k); WorkIsRefused(k, d, i, TheView(k));
    case RefusedAndLeft => WorkIsRefused(k, d, i, Nothing);
  }

  lemma MishapStalls(k: Case, d: Desk, m: Mishap)
    requires HashingSound(k.cfg) && Startable(k) && TwoInspections(k) && |Actions(k)| == 2 && AtWork(k, d, 1)
    ensures
      var d' := ApproveAndDispatch(Konoha(k.cfg), d, ApprovalOf(k, 1), WorldOf(k, m)).0;
      && Stalled(d') && |RowsOf(d'.queue)| == 2 == |RowsOf(d.queue)| && RowsOf(d'.queue)[0] == RowsOf(d.queue)[0]
      && RowsOf(d'.queue)[1].status == StatusAfter(m)
      && React(k.cfg, HouseWith(k, d), Phrase(k, 1, WorldOf(k, m))) == HouseWith(k, d')
  {
    hide Startable, Actions, TheView, HashingSound, ProposedSkills, Konoha, ApproveAndDispatch, Approvable, NextPending,
         React, HouseWith, UniqueIds, TwoInspections;
    TwoInspectionsAre(k);
    WorkIsReady(k, d, 1, WorldOf(k, m));
    WorkMiscarries(k, d, 1, m);
    PhraseIsHeard(k, d, 1, WorldOf(k, m));
    AllDecided(k, ApproveAndDispatch(Konoha(k.cfg), d, ApprovalOf(k, 1), WorldOf(k, m)).0);
  }

  /** A last action that fails, is blocked, or is left running stalls the mission, whether or not
      a patch is implied: for every such mission and mishap there is a session from an empty
      workspace that ends there, with the other action completed and no review. */
  lemma UnsuccessfulLastActionStalls(k: Case, m: Mishap) returns (houses: seq<House>, inputs: seq<Input>)
    requires HashingSound(k.cfg) && Startable(k) && TwoInspections(k)
    ensures IsSession(k.cfg, houses, inputs) && |houses| > 0 && PatchImplied(k.intent)
    ensures
      var d := DeskOf(houses[|houses| - 1], Mission(k));
      && Stalled(d) && |RowsOf(d.queue)| == 2
      && RowsOf(d.queue)[0].status.Completed? && RowsOf(d.queue)[1].status == StatusAfter(m)
  {
    hide Startable, Actions, TheReceipt, TheView, HashingSound, ProposedSkills, Konoha, ApproveAndDispatch, NextPending,
         AtWork, React, UniqueIds, Opened, LeadsTo;
    TwoInspectionsAre(k);
    ActionHasSkill(k, 0);
    OpenedIsAtWork(k);
    CompletionMovesOn(k, Opened(k), 0);
    var w := Outside(TheView(k), TheView(k), TheView(k), Plainly, None);
    var d := DeskAfter(k, Opened(k), 0);
    MishapStalls(k, d, m);
    var d' := ApproveAndDispatch(Konoha(k.cfg), d, ApprovalOf(k, 1), WorldOf(k, m)).0;
    houses, inputs := MissionOpens(k);
    NextInput(k.cfg, houses, inputs, HouseWith(k, Opened(k)), Phrase(k, 0, w));
    houses, inputs := houses + [HouseWith(k, d)], inputs + [Phrase(k, 0, w)];
    NextInput(k.cfg, houses, inputs, HouseWith(k, d), Phrase(k, 1, WorldOf(k, m)));
    houses, inputs := houses + [HouseWith(k, d')], inputs + [Phrase(k, 1, WorldOf(k, m))];
    LeadsMeans(k.cfg, houses, inputs, HouseWith(k, d'));
  }

  // ---------------------------------------------------------------- an opening cut short

  function CutPhrase(k: Case): Input
    requires Startable(k)
  {
    Type(CharterPhrase(k).line, CharterPhrase(k).world.(halt := AtBootstrap))
  }

  /** Approved, but without a queue. */
  function Unopened(k: Case): Desk
    requires Startable(k)
  {
    Opened(k).(queue := Missing)
  }

  lemma CutIsHeard(k: Case)
    requires HashingSound(k.cfg) && Startable(k)
    ensures DeskOf(React(k.cfg, AskedHouse(k), CutPhrase(k)), Mission(k)) == Unopened(k)
  {
    hide IsCommand, ValidateCharterConstruction, Startable, BuildCharter, HashingSound, Actions, FreezeCharter, OpenQueue,
         MakeReceipt, RulesOf, Frozen, NextPending;
    var d := EmptyDesk.(decision := Doc(k.decision), charter := Doc(TheCharter(k)));
    CharterIsFrozen(k, d);
    CutFreezesToo(k, d);
    ProposedIsConstructed(k);
    PhraseIsALine(TheCharter(k).approvalPhrase);
    assert DeskOf(AskedHouse(k), Mission(k)) == d;
  }

  /** A stop after the receipt does not change what was frozen before. */
  lemma CutFreezesToo(k: Case, d: Desk)
    requires Startable(k)
    ensures FreezeCharter(k.cfg, d, TheCharter(k), k.decision, CutPhrase(k).line, CutPhrase(k).world)
         == FreezeCharter(k.cfg, d, TheCharter(k), k.decision, CharterPhrase(k).line, CharterPhrase(k).world)
  {
    hide Startable, ValidateCharterConstruction, BuildCharter, ReceiptPreconditions, MakeReceipt, Strip;
  }

  /** An approval cut short between receipt and queue leaves a mission that never gets a queue:
      a session from an empty workspace that ends there, for every mission. */
  lemma UnopenedMissionStalls(k: Case) returns (houses: seq<House>, inputs: seq<Input>)
    requires HashingSound(k.cfg) && Startable(k)
    ensures IsSession(k.cfg, houses, inputs) && |houses| > 0
    ensures
      var d := DeskOf(houses[|houses| - 1], Mission(k));
      d == Unopened(k) && d.receipt.Doc? && d.queue.Missing? && Stalled(d)
  {
    hide React, HashingSound, Startable, Opened;
    RequestIsHeard(k);
    CutIsHeard(k);
    UnopenedIsStalled(k);
    houses, inputs := [EmptyHouse], [];
    NextInput(k.cfg, houses, inputs, EmptyHouse, Request(k));
    houses, inputs := houses + [AskedHouse(k)], inputs + [Request(k)];
    NextInput(k.cfg, houses, inputs, AskedHouse(k), CutPhrase(k));
    houses, inputs := houses + [React(k.cfg, AskedHouse(k), CutPhrase(k))], inputs + [CutPhrase(k)];
  }

  lemma UnopenedIsStalled(k: Case)
    requires Startable(k)
    ensures Unopened(k).receipt.Doc? && Unopened(k).queue.Missing? && Stalled(Unopened(k))
  {
    hide Startable, Actions, Frozen, MakeReceipt;
  }

  // ---------------------------------------------------------------- asking again

  /** The same request in a process of its own. */
  function AskAgain(k: Case): Input
    requires Startable(k)
  {
    OneShot(Some(Mission(k)), Request(k).world)
  }

  /** The opened mission with its charter file back to a proposal. */
  function Reproposed(k: Case): Desk
    requires Startable(k)
  {
    Opened(k).(charter := Doc(TheCharter(k)))
  }

  lemma AskingAgainIsHeard(k: Case, d: Desk)
    requires Startable(k) && d.decision == Doc(k.decision)
    ensures DeskOf(React(k.cfg, HouseWith(k, d), AskAgain(k)), Mission(k)) == d.(charter := Doc(TheCharter(k)))
  {
    hide Startable, ValidateCharterConstruction, BuildCharter, IsCommand;
    ProposedIsConstructed(k);
    assert DeskOf(HouseWith(k, d), Mission(k)) == d;
  }

  lemma OpenedLoads(k: Case)
    requires HashingSound(k.cfg) && Startable(k)
    ensures Loads(k.cfg, Mission(k), Opened(k))
  {
    ProposedIsConstructed(k);
    SoundIsHex(k.cfg);
    ApprovedPairLoads(k.cfg, TheCharter(k), k.decision, k.at, k.actor);
    assert k.cfg.(directory := Mission(k)) == k.cfg by { DirectoryIsMission(k); }
    hide Startable, ValidateCharterConstruction, BuildCharter, LoadAuthoritativeState, MakeReceipt, Actions,
         HexDigests, HashingSound;
  }

  /** For every mission with an action there is a session from an empty workspace in which it is
      approved, its documents load, and the same request is made once more: its documents no
      longer load, and unless somebody edits them, no action of it is ever decided again. */
  lemma ReproposalStopsTheMission(k: Case) returns (houses: seq<House>, inputs: seq<Input>)
    requires HashingSound(k.cfg) && Startable(k) && ProposedSkills(k.intent) != []
    ensures IsSession(k.cfg, houses, inputs) && |houses| > 1
    ensures
      var d, d' := DeskOf(houses[|houses| - 2], Mission(k)), DeskOf(houses[|houses| - 1], Mission(k));
      && d == Opened(k) && d' == Reproposed(k)
      && Loads(k.cfg, Mission(k), d) && !Loads(k.cfg, Mission(k), d') && Unapproved(d')
  {
    hide React, HashingSound, Startable, ProposedSkills, LeadsTo, Loads, Opened, Reproposed, Unapproved, IsSession;
    ReproposedDoesNotLoad(k);
    AskingAgainIsHeard(k, Opened(k));
    var before, asked := MissionOpens(k);
    houses, inputs := OneMore(k, before, asked, Opened(k), AskAgain(k));
  }

  /** One more input after a session that leads to this mission. */
  lemma OneMore(k: Case, before: seq<House>, asked: seq<Input>, d: Desk, input: Input)
    returns (houses: seq<House>, inputs: seq<Input>)
    requires LeadsTo(k.cfg, before, asked, HouseWith(k, d))
    ensures IsSession(k.cfg, houses, inputs) && |houses| > 1
    ensures DeskOf(houses[|houses| - 2], Mission(k)) == d
    ensures houses[|houses| - 1] == React(k.cfg, HouseWith(k, d), input)
  {
    hide React;
    LeadsMeans(k.cfg, before, asked, HouseWith(k, d));
    NextInput(k.cfg, before, asked, HouseWith(k, d), input);
    houses, inputs := before + [React(k.cfg, HouseWith(k, d), input)], asked + [input];
  }

  lemma ReproposedDoesNotLoad(k: Case)
    requires HashingSound(k.cfg) && Startable(k)
    ensures Loads(k.cfg, Mission(k), Opened(k)) && !Loads(k.cfg, Mission(k), Reproposed(k)) && Unapproved(Reproposed(k))
    ensures Opened(k).decision == Doc(k.decision) && Reproposed(k) == Opened(k).(charter := Doc(TheCharter(k)))
  {
    hide HashingSound, Startable, LoadAuthoritativeState, Opened, TheCharter;
    OpenedLoads(k);
    ReproposedIsUnapproved(k);
    ProposedCharterUnloads(k.cfg.(directory := Mission(k)), Reproposed(k));
  }

  lemma CutDoesNotLoad(k: Case, other: Case)
    requires HashingSound(k.cfg) && Startable(k) && other.decision != k.decision
    ensures Loads(k.cfg, Mission(k), Opened(k)) && !Loads(k.cfg, Mission(k), Opened(k).(decision := Doc(other.decision)))
  {
    OpenedLoads(k);
    SoundIsCollisionFree(k.cfg);
    CollisionFreeEverywhere(k.cfg, Mission(k));
    hide HashingSound, Startable, LoadAuthoritativeState, TheCharter, CollisionFree, Actions, Frozen, TheReceipt;
    OtherDecisionUnloads(k.cfg.(directory := Mission(k)), Opened(k), other.decision);
  }

  lemma ReproposedIsUnapproved(k: Case)
    requires Startable(k)
    ensures Unapproved(Reproposed(k)) && Opened(k).decision == Doc(k.decision)
  {
    ProposedIsConstructed(k);
    hide Startable, Actions, ValidateCharterConstruction, BuildCharter, MakeReceipt;
  }

  /** The request cut short after its decision file, for the same mission with another decision. */
  function CutAgain(k: Case): Input
    requires Startable(k)
  {
    OneShot(Some(Mission(k)), Request(k).world.(halt := AtOffer))
  }

  lemma CutAgainIsHeard(k: Case, other: Case, d: Desk)
    requires Startable(k) && Startable(other) && other.cfg == k.cfg && Mission(other) == Mission(k)
    ensures DeskOf(React(k.cfg, HouseWith(k, d), CutAgain(other)), Mission(k)) == d.(decision := Doc(other.decision))
  {
    hide Startable, ValidateCharterConstruction, BuildCharter, IsCommand;
    ProposedIsConstructed(other);
    assert DeskOf(HouseWith(k, d), Mission(k)) == d;
  }

  /** A request that never gets to its charter file can do the same damage: a session in which
      an approved mission is asked for again with another decision, the call being cut short
      after the decision was written, and whose documents then do not load. */
  lemma CutReproposalUnloads(k: Case, other: Case) returns (houses: seq<House>, inputs: seq<Input>)
    requires HashingSound(k.cfg) && Startable(k) && ProposedSkills(k.intent) != []
    requires Startable(other) && other.cfg == k.cfg && Mission(other) == Mission(k) && other.decision != k.decision
    ensures IsSession(k.cfg, houses, inputs) && |houses| > 1
    ensures
      var d, d' := DeskOf(houses[|houses| - 2], Mission(k)), DeskOf(houses[|houses| - 1], Mission(k));
      && d == Opened(k) && d' == Opened(k).(decision := Doc(other.decision))
      && Loads(k.cfg, Mission(k), d) && !Loads(k.cfg, Mission(k), d')
  {
    hide React, HashingSound, Startable, ProposedSkills, LeadsTo, Loads, Opened, IsSession;
    CutDoesNotLoad(k, other);
    CutAgainIsHeard(k, other, Opened(k));
    var before, asked := MissionOpens(k);
    houses, inputs := OneMore(k, before, asked, Opened(k), CutAgain(other));
  }

  lemma SoundIsCollisionFree(cfg: Config)
    requires HashingSound(cfg)
    ensures CollisionFree(cfg)
  {
  }
}
