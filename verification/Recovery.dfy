/** Human recovery: the classification loop and its exactness in every reachable state. */
module Recovery {
  import opened Common
  import opened Authority
  import opened QueueProtocol
  import opened QueueClaims
  import opened QueueTable
  import opened QueueInvariant
  import opened QueueTheorems

  datatype Label = NormalPending | InterruptedClaimed | ActiveRunning | InterruptedRunning

  datatype Finding = Finding(id: string, status: Status, kind: Label)

  /** The kind of one action, None for an action that needs no recovery. */
  function Classify(claims: map<string, ClaimFile>, leases: map<string, Pid>, a: Action): Result<Option<Label>> {
    match a.status
    case Proposed =>
      if a.id !in claims then Ok(Some(NormalPending))
      else
        (match VerifyClaim(claims, a)
         case Pass => Ok(Some(InterruptedClaimed))
         case Fail(code) => Err(code))
    case Running =>
      (match VerifyClaim(claims, a)
       case Pass => Ok(Some(if a.id in leases then ActiveRunning else InterruptedRunning))
       case Fail(code) => Err(code))
    case _ => Ok(None)
  }

  /** The first action that cannot be classified decides the error; otherwise the findings
      follow the order of the queue. */
  function Findings(claims: map<string, ClaimFile>, leases: map<string, Pid>, rows: seq<Action>): Result<seq<Finding>> {
    if rows == [] then Ok([])
    else
      var earlier :- Findings(claims, leases, rows[..|rows| - 1]);
      var a := rows[|rows| - 1];
      var kind :- Classify(claims, leases, a);
      Ok(if kind.None? then earlier else earlier + [Finding(a.id, a.status, kind.value)])
  }

  lemma FindingsStop(claims: map<string, ClaimFile>, leases: map<string, Pid>, rows: seq<Action>, k: nat)
    requires k <= |rows| && Findings(claims, leases, rows[..k]).Err?
    ensures Findings(claims, leases, rows) == Findings(claims, leases, rows[..k])
  {
    if k < |rows| {
      assert rows[..|rows| - 1][..k] == rows[..k];
      FindingsStop(claims, leases, rows[..|rows| - 1], k);
    } else {
      assert rows[..k] == rows;
    }
  }

  /** find_recovery_candidates, run under the queue lock. */
  method FindRecoveryCandidates(s: State) returns (r: Result<seq<Finding>>)
    ensures
      match LoadQueue(s.queue)
      case Ok(q) => r == Findings(s.claims, s.leases, q.actions)
      case Err(code) => r == Err(code)
  {
    var loaded := LoadQueue(s.queue);
    if loaded.Err? { return Err(loaded.code); }
    var rows := loaded.value.actions;
    var findings: seq<Finding> := [];
    for k := 0 to |rows|
      invariant Findings(s.claims, s.leases, rows[..k]) == Ok(findings)
    {
      var a := rows[k];
      assert rows[..k + 1][..k] == rows[..k];
      if a.status.Proposed? || a.status.Running? {
        var hasClaim := a.id in s.claims;
        var kind: Label;
        if a.status.Proposed? && !hasClaim {
          kind := NormalPending;
        } else {
          if !hasClaim {
            FindingsStop(s.claims, s.leases, rows, k + 1);
            return Err(ClaimMissing);
          }
          var verdict := VerifyClaim(s.claims, a);
          if verdict.Fail? {
            FindingsStop(s.claims, s.leases, rows, k + 1);
            return Err(verdict.code);
          }
          kind :=
            if a.status.Proposed? then InterruptedClaimed
            else if a.id in s.leases then ActiveRunning else InterruptedRunning;
        }
        findings := findings + [Finding(a.id, a.status, kind)];
      }
    }
    assert rows[..|rows|] == rows;
    r := Ok(findings);
  }

  // ---------------------------------------------------------------- exactness

  /** Nobody is inside the queue lock except, possibly, the caller who has just taken it. */
  predicate AtRecovery(s: State) {
    s.lock.None? || PhaseOf(s, s.lock.value).Locked?
  }

  ghost predicate Owned(s: State, id: string) {
    exists p :: OwnsDispatch(PhaseOf(s, p)) && IdOf(PhaseOf(s, p)) == id
  }

  /** Outside the queue lock, whoever holds the lease of a running action owns its dispatch. */
  lemma HolderOwns(s: State, p: Pid, ph: Phase)
    requires Safe(s, p, ph) && Consistent(s, p, ph) && AtRecovery(s) && HasLease(ph) && ph == PhaseOf(s, p)
    requires StatusIs(s, IdOf(ph), Running)
    ensures OwnsDispatch(ph)
  {
    hide Table, TableOf, VerifyClaim, Dispatches, LoadQueue, ClaimsApproval, Authored;
  }

  lemma OwnerHolds(s: State, p: Pid, ph: Phase)
    requires Safe(s, p, ph) && OwnsDispatch(ph)
    ensures IdOf(ph) in s.leases
  {
    hide Dispatches, ClaimsApproval, Authored;
  }

  /** A running action is reported active exactly when a live process owns its dispatch, and
      interrupted exactly when none does. */
  lemma LeaseMeansOwner(s: State, a: Action)
    requires HonestInvariant(s) && AtRecovery(s) && a in RowsOf(s.queue) && a.status.Running?
    ensures VerifyClaim(s.claims, a).Pass?
    ensures a.id in s.leases <==> Owned(s, a.id)
  {
    hide Table, VerifyClaim, Dispatches, LoadQueue, Safe, Consistent, OwnsDispatch, AtRecovery, HasLease;
    var rows := RowsOf(s.queue);
    var k :| 0 <= k < |rows| && rows[k] == a;
    UniqueRowsAreVisible(rows, k);
    assert RowOk(s.claims, s.log, TableOf(s)[a.id]);
    if a.id in s.leases {
      var p := s.leases[a.id];
      assert LeaseLive(s, a.id);
      assert Safe(s, p, PhaseOf(s, p)) && Consistent(s, p, PhaseOf(s, p));
      HolderOwns(s, p, PhaseOf(s, p));
    }
    if Owned(s, a.id) {
      var p :| OwnsDispatch(PhaseOf(s, p)) && IdOf(PhaseOf(s, p)) == a.id;
      assert Safe(s, p, PhaseOf(s, p));
      OwnerHolds(s, p, PhaseOf(s, p));
    }
  }

  /** The one thing that stops recovery: a process died between creating and writing a claim. */
  predicate TornProposal(s: State, a: Action) {
    a.status.Proposed? && a.id in s.claims && s.claims[a.id].Torn?
  }

  lemma ClassifyIsTotal(s: State, a: Action)
    requires HonestInvariant(s) && a in RowsOf(s.queue)
    ensures Classify(s.claims, s.leases, a).Ok? <==> !TornProposal(s, a)
    ensures TornProposal(s, a) ==> Classify(s.claims, s.leases, a) == Err(ClaimInvalid)
  {
    hide Table, Dispatches, Safe, Ledger, Consistent, ClaimBinds;
    var rows := RowsOf(s.queue);
    var k :| 0 <= k < |rows| && rows[k] == a;
    UniqueRowsAreVisible(rows, k);
    assert RowOk(s.claims, s.log, TableOf(s)[a.id]);
  }

  lemma {:induction false} FindingsFail(s: State, rows: seq<Action>)
    requires HonestInvariant(s) && forall a | a in rows :: a in RowsOf(s.queue)
    ensures Findings(s.claims, s.leases, rows).Ok? <==> forall a | a in rows :: !TornProposal(s, a)
    ensures Findings(s.claims, s.leases, rows).Err? ==> Findings(s.claims, s.leases, rows) == Err(ClaimInvalid)
  {
    hide HonestInvariant, TornProposal, Classify;
    if rows != [] {
      var init, last := rows[..|rows| - 1], rows[|rows| - 1];
      FindingsFail(s, init);
      ClassifyIsTotal(s, last);
      assert forall a :: a in rows <==> a in init || a == last;
    }
  }

  lemma {:induction false} FindingsAreComplete(
    claims: map<string, ClaimFile>, leases: map<string, Pid>, rows: seq<Action>, f: Finding)
    requires Findings(claims, leases, rows).Ok?
    ensures f in Findings(claims, leases, rows).value <==>
      exists a :: a in rows && a.id == f.id && a.status == f.status && Classify(claims, leases, a) == Ok(Some(f.kind))
  {
    hide Classify;
    if rows != [] {
      var init, last := rows[..|rows| - 1], rows[|rows| - 1];
      FindingsAreComplete(claims, leases, init, f);
      assert forall a :: a in rows <==> a in init || a == last;
    }
  }

  /** In every reachable state, recovery raises exactly when some proposed action's claim file
      is torn, and then with ClaimInvalid; never for a missing or mis-bound claim. */
  lemma RecoveryRaisesOnlyForTornClaims(rules: Rules, states: seq<State>, moves: seq<Move>, i: nat)
    requires FreshActions(rules) && IsHonestRun(rules, states, moves) && i < |states|
    ensures
      var s := states[i];
      var r := Findings(s.claims, s.leases, RowsOf(s.queue));
      && (r.Err? <==> exists a :: a in RowsOf(s.queue) && TornProposal(s, a))
      && (r.Err? ==> r == Err(ClaimInvalid))
  {
    hide After, FreshActions, Findings, TornProposal;
    HonestInvariantHolds(rules, states, moves, i);
    FindingsFail(states[i], RowsOf(states[i].queue));
  }

  /** And when it does not raise, its running labels are exact. */
  lemma RecoveryIsExact(rules: Rules, states: seq<State>, moves: seq<Move>, i: nat, a: Action)
    requires FreshActions(rules) && IsHonestRun(rules, states, moves) && i < |states|
    requires AtRecovery(states[i]) && a in RowsOf(states[i].queue) && a.status.Running?
    requires Findings(states[i].claims, states[i].leases, RowsOf(states[i].queue)).Ok?
    ensures
      var s := states[i];
      var found := Findings(s.claims, s.leases, RowsOf(s.queue)).value;
      && (Finding(a.id, Running, ActiveRunning) in found <==> Owned(s, a.id))
      && (Finding(a.id, Running, InterruptedRunning) in found <==> !Owned(s, a.id))
  {
    hide After, FreshActions, Findings, Owned, VerifyClaim, HonestInvariant;
    HonestInvariantHolds(rules, states, moves, i);
    var s := states[i];
    LeaseMeansOwner(s, a);
    FindingsAreComplete(s.claims, s.leases, RowsOf(s.queue), Finding(a.id, Running, ActiveRunning));
    FindingsAreComplete(s.claims, s.leases, RowsOf(s.queue), Finding(a.id, Running, InterruptedRunning));
    forall b | b in RowsOf(s.queue) && b.id == a.id ensures b == a { RowsShareNoId(s, a, b); }
    assert Classify(s.claims, s.leases, a) == Ok(Some(if a.id in s.leases then ActiveRunning else InterruptedRunning));
  }

  /** The labels of proposed actions are exact as well: unclaimed, or claimed and never begun.
      A decided action gets no label at all. */
  lemma PendingLabelsAreExact(rules: Rules, states: seq<State>, moves: seq<Move>, i: nat, a: Action, kind: Label)
    requires FreshActions(rules) && IsHonestRun(rules, states, moves) && i < |states| && a in RowsOf(states[i].queue)
    requires Findings(states[i].claims, states[i].leases, RowsOf(states[i].queue)).Ok?
    ensures
      var s := states[i];
      Finding(a.id, a.status, kind) in Findings(s.claims, s.leases, RowsOf(s.queue)).value <==>
        match kind
        case NormalPending => a.status.Proposed? && a.id !in s.claims
        case InterruptedClaimed => a.status.Proposed? && a.id in s.claims
        case ActiveRunning => a.status.Running? && a.id in s.leases
        case InterruptedRunning => a.status.Running? && a.id !in s.leases
  {
    hide After, FreshActions, Findings, HonestInvariant, VerifyClaim;
    HonestInvariantHolds(rules, states, moves, i);
    var s := states[i];
    FindingsAreComplete(s.claims, s.leases, RowsOf(s.queue), Finding(a.id, a.status, kind));
    forall b | b in RowsOf(s.queue) && b.id == a.id ensures b == a { RowsShareNoId(s, a, b); }
    EveryRowIsClassified(s.claims, s.leases, RowsOf(s.queue), a);
  }

  lemma {:induction false} EveryRowIsClassified(
    claims: map<string, ClaimFile>, leases: map<string, Pid>, rows: seq<Action>, a: Action)
    requires Findings(claims, leases, rows).Ok? && a in rows
    ensures Classify(claims, leases, a).Ok?
  {
    hide Classify;
    var init, last := rows[..|rows| - 1], rows[|rows| - 1];
    if a != last { EveryRowIsClassified(claims, leases, init, a); }
  }

  lemma RowsShareNoId(s: State, a: Action, b: Action)
    requires HonestInvariant(s) && a in RowsOf(s.queue) && b in RowsOf(s.queue) && a.id == b.id
    ensures a == b
  {
    hide Table, RowOk, Safe, Ledger, Consistent;
    var rows := RowsOf(s.queue);
    var i :| 0 <= i < |rows| && rows[i] == a;
    var j :| 0 <= j < |rows| && rows[j] == b;
    UniqueRowsAreVisible(rows, i);
    UniqueRowsAreVisible(rows, j);
  }
}
