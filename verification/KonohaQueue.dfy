/** The queue theorems for the program's own rules: under the hashing assumptions they hold
    without further conditions. */
module KonohaQueue {
  import opened Common
  import opened Authority
  import opened Builder
  import opened QueueProtocol
  import opened QueueClaims
  import opened QueueTable
  import opened QueueInvariant
  import opened QueueTheorems
  import opened QueueRules
  import opened Recovery

  lemma StatusIsHistory(cfg: Config, states: seq<State>, moves: seq<Move>, i: nat, a: Action)
    requires HashingSound(cfg) && IsHonestRun(Konoha(cfg), states, moves) && i < |states| && a in RowsOf(states[i].queue)
    ensures
      var s := states[i];
      && (a.status.Running? || a.status.Completed? || a.status.Failed? || a.status.Blocked? ==> ClaimCovers(s.claims, a))
      && (a.status.Rejected? ==> a.id !in s.claims)
      && (a.status.Proposed? || a.status.Rejected? ==> Dispatches(s.log, a.id) == 0)
      && (a.status.Completed? || a.status.Failed? ==> Dispatches(s.log, a.id) == 1)
      && Dispatches(s.log, a.id) <= 1
  {
    hide After, Konoha, HashingSound, FreshActions;
    KonohaIsFresh(cfg);
    StatusMatchesHistory(Konoha(cfg), states, moves, i, a);
  }

  lemma NothingIsLost(cfg: Config, states: seq<State>, moves: seq<Move>, i: nat, j: nat)
    requires HashingSound(cfg) && IsHonestRun(Konoha(cfg), states, moves) && i <= j < |states|
    ensures Evolves(RowsOf(states[i].queue), RowsOf(states[j].queue))
  {
    hide After, Konoha, HashingSound, FreshActions;
    KonohaIsFresh(cfg);
    NoLostUpdates(Konoha(cfg), states, moves, i, j);
  }

  lemma DispatchIsProtected(cfg: Config, states: seq<State>, moves: seq<Move>, i: nat, p: Pid)
    requires HashingSound(cfg) && IsHonestRun(Konoha(cfg), states, moves) && i < |states|
    requires OwnsDispatch(PhaseOf(states[i], p))
    ensures
      var s, ph := states[i], PhaseOf(states[i], p);
      && StatusIs(s, IdOf(ph), Running) && IdOf(ph) in s.leases && s.leases[IdOf(ph)] == p
      && (forall q :: DoSeize(s, q).Some? ==> IdOf(PhaseOf(s, q)) != IdOf(ph))
      && (ph.FinLoaded? ==> DoFinish(s, p).Some?)
  {
    hide After, Konoha, HashingSound, FreshActions, DoFinish, DoSeize;
    KonohaIsFresh(cfg);
    OwnedDispatchIsProtected(Konoha(cfg), states, moves, i, p);
  }

  lemma RecoveryIsRight(cfg: Config, states: seq<State>, moves: seq<Move>, i: nat, a: Action)
    requires HashingSound(cfg) && IsHonestRun(Konoha(cfg), states, moves) && i < |states|
    requires AtRecovery(states[i]) && a in RowsOf(states[i].queue) && a.status.Running?
    ensures
      var s := states[i];
      var r := Findings(s.claims, s.leases, RowsOf(s.queue));
      && (r.Err? <==> exists b :: b in RowsOf(s.queue) && TornProposal(s, b))
      && (r.Ok? ==> (Finding(a.id, Running, ActiveRunning) in r.value <==> Owned(s, a.id)))
      && (r.Ok? ==> (Finding(a.id, Running, InterruptedRunning) in r.value <==> !Owned(s, a.id)))
  {
    hide After, Konoha, HashingSound, FreshActions, Findings, Owned, TornProposal, AtRecovery;
    KonohaIsFresh(cfg);
    RecoveryRaisesOnlyForTornClaims(Konoha(cfg), states, moves, i);
    if Findings(states[i].claims, states[i].leases, RowsOf(states[i].queue)).Ok? {
      RecoveryIsExact(Konoha(cfg), states, moves, i, a);
    }
  }
}
