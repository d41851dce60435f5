/** What every interleaving of the registry's threads keeps of its slots, and
    of who holds which generation. */
module RegistryLaws {
  import opened Wrappers
  import opened Registry
  import opened RegistrySystem
  import opened RegistrySteps

  /** No other thread takes the candidate of a transaction. */
  predicate CandidateHolds(stopping: bool, members: map<nat, Member>, candidate: Option<nat>, abandoned: bool, tx: Tx) {
    !stopping ==>
      && (candidate.None? ==> !abandoned)
      && (Promised(tx).Some? ==> SlotNames(members, candidate, Promised(tx).value))
  }

  ghost predicate Slots(s: System) {
    && (s.m.stopping <==> s.sup.ShuttingDown? || s.sup.ShutDown?)
    && (s.m.stopping ==> s.m.retiring == {})
    && SlotsHold(s.m.stopping, s.m.byGeneration, s.m.serving, s.m.candidate)
    && RestartHolds(s.m.restart, s.m.serving, s.sup)
    && LaunchesHold(s.tx, s.sup)
    && CandidateHolds(s.m.stopping, s.m.byGeneration, s.m.candidate, s.m.abandoned, s.tx)
    && HoldsCount(s.m.preparing, s.holds, s.tx)
  }

  /** Every generation is held in one place and is below the counter. */
  ghost predicate Apart(held: set<nat>, draining: set<nat>, tx: Option<nat>, sup: Option<nat>, counter: nat) {
    && (forall g :: g in held ==> g !in draining && tx != Some(g) && sup != Some(g) && g < counter)
    && (forall g :: g in draining ==> tx != Some(g) && sup != Some(g) && g < counter)
    && (tx.Some? ==> tx != sup && tx.value < counter)
    && (sup.Some? ==> sup.value < counter)
  }

  /** What is draining is reaped by one thread. */
  ghost predicate Reapers(draining: set<nat>, retiring: set<nat>, tx: set<nat>, sup: set<nat>, own: set<nat>) {
    && (forall g :: g in tx ==> g in draining && g !in sup && g !in retiring)
    && (forall g :: g in sup ==> g in draining && g !in retiring)
    && (forall g :: g in retiring ==> g in draining)
    && (forall g :: g in own ==> g in sup)
  }

  ghost predicate Places(s: System) {
    && Apart(s.m.byGeneration.Keys, s.m.draining.Keys, TxOwns(s.tx), SupOwns(s.sup), s.counter)
    && Reapers(s.m.draining.Keys, s.m.retiring, TxStops(s.tx), SupStops(s.sup), Own(s.sup))
  }

  /** Every member and every launch is counted as outside once while a thread
      holds it outside the map; a stop does not count what it took itself. */
  predicate Counted(s: System) {
    s.m.outside + |Own(s.sup)| == |s.m.draining| + TxTokens(s.tx) + SupTokens(s.sup)
  }

  ghost predicate Placed(s: System) {
    Slots(s) && Places(s)
  }

  // ----- Steps of one thread -----

  lemma TxMovesKeepPlaces(s: System, after: System)
    requires Placed(s) && TxMoved(s, after)
    ensures Placed(after)
  {
  }

  lemma SupMovesKeepPlaces(s: System, after: System)
    requires Placed(s) && SupMoved(s, after)
    ensures Placed(after)
  {
  }

  // ----- The transaction thread moves members -----

  lemma DisplacingKeepsPlaces(s: System, after: System)
    requires Placed(s) && Displaces(s, after)
    ensures Placed(after)
  {
    DrainMovesTheKey(s.m, s.m.candidate);
  }

  lemma AdmittingKeepsPlaces(s: System, after: System)
    requires Placed(s) && Admits(s, after)
    ensures Placed(after)
  {
    var generation := s.tx.launch.stage.generation;
    DrainMovesTheKey(s.m, s.m.candidate);
    assert after.m.byGeneration.Keys == s.m.byGeneration.Keys - SlotSet(s.m.candidate) + {generation};
  }

  lemma StoppingInsteadKeepsPlaces(s: System, after: System)
    requires Placed(s) && StopsInstead(s, after)
    ensures Placed(after)
  {
    assert after.m.draining.Keys == s.m.draining.Keys + {s.tx.launch.stage.generation};
  }

  lemma ActivatingKeepsPlaces(s: System, after: System)
    requires Placed(s) && Activates(s, after)
    ensures Placed(after)
  {
    DrainMovesTheKey(s.m, s.m.serving);
  }

  lemma DiscardingKeepsPlaces(s: System)
    requires Placed(s)
    ensures Placed(DiscardEvent(s))
  {
    if s.tx.Ready? && !s.m.stopping {
      assert DiscardEvent(s).m.byGeneration.Keys == s.m.byGeneration.Keys - {s.m.candidate.value};
    }
  }

  lemma UnloadingTheServingKeepsPlaces(s: System, id: string)
    requires Placed(s) && s.tx == Switched({})
    ensures Placed(s.(m := UnloadServing(s.m, id)))
  {
    UnloadServingDrains(s.m, id);
    DrainMovesTheKey(s.m, s.m.serving);
  }

  lemma UnloadingTheCandidateKeepsPlaces(s: System, id: string)
    requires Placed(s) && s.tx == Switched({})
    ensures Placed(s.(m := UnloadCandidate(s.m, id),
                    tx := Switched(if SlotNames(s.m.byGeneration, s.m.candidate, id)
                                   then SlotSet(s.m.candidate) else {})))
  {
    UnloadCandidateDrains(s.m, id);
    DrainMovesTheKey(s.m, s.m.candidate);
  }

  lemma LateAbandonsKeepPlaces(s: System, deploymentId: string)
    requires Placed(s)
    ensures Placed(LateAbandonEvent(s, deploymentId))
  {
  }

  /** `s` once it has forgotten the restarts. */
  function Forgotten(s: System): System {
    s.(m := ForgetRestart(s.m), counted := [], stops := [])
  }

  lemma ForgettingKeepsPlaces(s: System)
    requires Placed(s)
    ensures Placed(Forgotten(s))
  {
  }

  // ----- The supervision thread moves members -----

  lemma ReapingKeepsPlaces(s: System, after: System, generation: nat)
    requires Placed(s) && Reaps(s, after, generation)
    ensures Placed(after)
  {
    assert after.m.draining.Keys == s.m.draining.Keys - {generation};
  }

  lemma TakingOutKeepsPlaces(s: System)
    requires Placed(s)
    ensures Placed(TakeOutEvent(s))
  {
    if TakeOutEvent(s) != s {
      assert TakeOutEvent(s).m.byGeneration.Keys == s.m.byGeneration.Keys - {s.m.serving.value};
    }
  }

  lemma ServingKeepsPlaces(s: System, deadline: nat)
    requires Placed(s) && s.sup.Restarting? && s.sup.launch.stage.Running?
    requires RestartInHand(s.m, s.sup.owed.deploymentId) && !HeldByADeploy(s.m)
    ensures Placed(RestartServes(s, s.sup.launch, s.sup.launch.stage.generation, deadline))
  {
    var generation := s.sup.launch.stage.generation;
    var after := RestartServes(s, s.sup.launch, generation, deadline);
    assert after.m.byGeneration.Keys == s.m.byGeneration.Keys + {generation};
  }

  lemma YieldingKeepsPlaces(s: System, inHand: bool)
    requires Placed(s) && s.sup.Restarting? && s.sup.launch.stage.Running?
    requires inHand == RestartInHand(s.m, s.sup.owed.deploymentId)
    ensures Placed(RestartYields(s, s.sup.owed, s.sup.launch, s.sup.launch.stage.generation, inHand))
  {
    var generation := s.sup.launch.stage.generation;
    var after := RestartYields(s, s.sup.owed, s.sup.launch, generation, inHand);
    assert after.m.draining.Keys == s.m.draining.Keys + {generation};
  }

  lemma WatchingKeepsPlaces(s: System, done: set<nat>)
    requires Placed(s)
    ensures Placed(WatchRetiringEvent(s, done))
  {
  }

  lemma ShuttingDownKeepsPlaces(s: System)
    requires Placed(s)
    ensures Placed(ShutdownEvent(s))
  {
    assert StopAll(s.m).draining.Keys == s.m.draining.Keys + s.m.byGeneration.Keys;
  }

  /** The candidate of a start that did not come up is owed as a restart. */
  ghost predicate OwesTheCandidate(s: System, after: System) {
    && s.tx.Quiet? && s.sup.Calm? && !s.m.stopping && s.m.serving.None? && s.m.abandoned && s.m.restart.Idle?
    && s.m.candidate.Some? && s.m.candidate.value in s.m.byGeneration
    && var generation := s.m.candidate.value;
       && after == s.(m := after.m, alive := s.alive - {generation}, owedAt := after.owedAt)
       && after.m == s.m.(candidate := None, abandoned := false, byGeneration := s.m.byGeneration - {generation},
                          outside := Released(s.m.outside + 1),
                          restart := after.m.restart, restarts := after.m.restarts)
       && (after.m.restart.Due? || after.m.restart.GivenUp?)
       && (after.m.restart.Due? ==>
             after.m.restart.owed ==
               Owed(s.m.byGeneration[generation].deploymentId, s.m.byGeneration[generation].lease, generation))
  }

  lemma OwingTheCandidateKeepsPlaces(s: System, after: System)
    requires Placed(s) && OwesTheCandidate(s, after)
    ensures Placed(after)
  {
    assert after.m.byGeneration.Keys == s.m.byGeneration.Keys - {s.m.candidate.value};
  }
}
