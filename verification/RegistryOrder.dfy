/** The order of generations: one taken for a candidate is above everything
    the registry holds, and the serving slot only ever moves up. */
module RegistryOrder {
  import opened Wrappers
  import opened Registry
  import opened RegistrySystem
  import opened RegistrySteps
  import opened RegistryLaws

  /** The generation a transaction took for a candidate it has not admitted. */
  function Taking(tx: Tx): Option<nat> {
    if tx.Discarding? then None else TxOwns(tx)
  }

  /** The generation of the candidate a transaction is bringing up. */
  function Coming(m: Members, tx: Tx): Option<nat> {
    if Promised(tx).Some? then m.candidate else Taking(tx)
  }

  predicate Below(stamp: Option<nat>, generation: nat) {
    stamp.Some? ==> stamp.value < generation
  }

  predicate Rising(served: seq<nat>) {
    forall i, j :: 0 <= i < j < |served| ==> served[i] < served[j]
  }

  predicate AboveServed(served: seq<nat>, generation: nat) {
    forall i :: 0 <= i < |served| ==> served[i] < generation
  }

  /** Nothing the registry holds, has served, or stamps a restart after, is
      at or above the generation, but the generation itself. */
  ghost predicate Above(s: System, generation: nat) {
    && AboveServed(s.served, generation)
    && (forall g :: g in s.m.byGeneration ==> g <= generation)
    && (forall g :: g in s.m.draining ==> g < generation)
    && Below(DueStamped(s.m.restart), generation)
    && Below(SupStamped(s.sup), generation)
    && Below(SupChecked(s.sup), generation)
  }

  ghost predicate Order(s: System) {
    && AboveServed(s.served, s.counter)
    && Below(DueStamped(s.m.restart), s.counter)
    && Below(SupStamped(s.sup), s.counter)
    && (!s.m.stopping && Taking(s.tx).Some? ==> Above(s, Taking(s.tx).value))
    && (s.m.restart.InHand? && SupTook(s.sup).Some? ==> AboveServed(s.served, SupTook(s.sup).value))
  }

  /** No restart takes the slot before the candidate does: a deploy holds
      them off, or the candidate is fenced and nothing is owed one. */
  predicate Guarded(s: System) {
    HeldByADeploy(s.m) || (s.tx.Fenced? && Resting(s))
  }

  /** The slot has only moved up, a guarded candidate is above everything, and
      one that is fenced is guarded. */
  ghost predicate Rises(s: System) {
    && Rising(s.served)
    && (!s.m.stopping && Promised(s.tx).Some? && s.m.candidate.Some? && Guarded(s) ==> Above(s, s.m.candidate.value))
    && (!s.m.stopping && s.tx.Fenced? ==> Guarded(s))
  }

  ghost predicate KeepsOrder(s: System, after: System) {
    Order(after) && (Rises(s) ==> Rises(after))
  }

  /** While a transaction holds a generation it took, restarts are held off. */
  lemma TakingHoldsRestartsOff(s: System)
    requires Placed(s) && Taking(s.tx).Some?
    ensures HeldByADeploy(s.m)
  {
  }

  /** Everything the counter has passed is below what it hands out next. */
  lemma TheCounterIsAbove(s: System)
    requires Placed(s) && Order(s)
    ensures Above(s, s.counter)
  {
  }

  predicate StampCarried(s: System, stamp: Option<nat>) {
    || stamp.None? || stamp == DueStamped(s.m.restart) || stamp == SupStamped(s.sup) || stamp == SupChecked(s.sup)
    || (stamp.value in s.m.byGeneration && Coming(s.m, s.tx) != stamp)
  }

  /** A step that serves nothing, and brings no generation up. */
  ghost predicate Carries(s: System, after: System) {
    && after.served == s.served && after.counter == s.counter && (s.m.stopping ==> after.m.stopping)
    && (after.m.stopping || Coming(after.m, after.tx).None?
        || (Coming(after.m, after.tx) == Coming(s.m, s.tx) && Promised(after.tx).Some? == Promised(s.tx).Some?))
    && (forall g :: g in after.m.byGeneration ==> g in s.m.byGeneration)
    && (forall g :: g in after.m.draining ==>
          g in s.m.draining || SupChecked(s.sup) == Some(g) || (g in s.m.byGeneration && Coming(s.m, s.tx) != Some(g))
              || after.m.stopping)
    && StampCarried(s, DueStamped(after.m.restart)) && StampCarried(s, SupStamped(after.sup))
    && (SupChecked(after.sup) == SupChecked(s.sup) || SupChecked(after.sup).None?)
    && (after.m.restart.InHand? && SupTook(after.sup).Some? ==>
          && after.m.restart == s.m.restart
          && SupTook(after.sup) == SupTook(s.sup))
  }

  /** A step that unguards no candidate. */
  predicate GuardCarried(s: System, after: System) {
    !after.m.stopping && Promised(after.tx).Some? ==>
      && (Guarded(after) ==> Guarded(s) || s.tx.Fenced?)
      && (after.tx.Fenced? ==> s.tx.Fenced? && (Guarded(s) ==> Guarded(after)))
  }

  lemma OrderCarries(s: System, after: System)
    requires Placed(s) && Order(s) && Carries(s, after)
    ensures Order(after)
  {
  }

  lemma RisingCarries(s: System, after: System)
    requires Placed(s) && Order(s) && Carries(s, after) && GuardCarried(s, after)
    ensures KeepsOrder(s, after)
  {
    OrderCarries(s, after);
  }

  lemma TxMovesKeepOrder(s: System, after: System)
    requires Placed(s) && Order(s) && TxMoved(s, after)
    ensures KeepsOrder(s, after)
  {
    TheCounterIsAbove(s);
  }

  /** While restarts are held off, the supervision thread adds nothing above
      what is coming. */
  lemma SupMovesStayBelow(s: System, after: System, generation: nat)
    requires SupMoved(s, after) && Guarded(s) && Above(s, generation)
    ensures Above(after, generation)
  {
  }

  lemma SupMovesStayInOrder(s: System, after: System)
    requires Placed(s) && Order(s) && SupMoved(s, after)
    ensures Order(after)
  {
    TheCounterIsAbove(s);
    if !s.m.stopping && Taking(s.tx).Some? {
      TakingHoldsRestartsOff(s);
      SupMovesStayBelow(s, after, Taking(s.tx).value);
    }
  }

  lemma SupMovesKeepRising(s: System, after: System)
    requires Placed(s) && SupMoved(s, after) && Rises(s)
    ensures Rises(after)
  {
    if !s.m.stopping && Promised(s.tx).Some? && s.m.candidate.Some? && Guarded(s) {
      SupMovesStayBelow(s, after, s.m.candidate.value);
    }
  }

  lemma SupMovesKeepOrder(s: System, after: System)
    requires Placed(s) && Order(s) && SupMoved(s, after)
    ensures KeepsOrder(s, after)
  {
    SupMovesStayInOrder(s, after);
    if Rises(s) {
      SupMovesKeepRising(s, after);
    }
  }

  lemma DisplacingKeepsOrder(s: System, after: System)
    requires Placed(s) && Order(s) && Displaces(s, after)
    ensures KeepsOrder(s, after)
  {
    RisingCarries(s, after);
  }

  lemma AdmittingKeepsOrder(s: System, after: System)
    requires Placed(s) && Order(s) && Admits(s, after)
    ensures KeepsOrder(s, after)
  {
  }

  lemma StoppingInsteadKeepsOrder(s: System, after: System)
    requires Placed(s) && Order(s) && StopsInstead(s, after)
    ensures KeepsOrder(s, after)
  {
    RisingCarries(s, after);
  }

  lemma ActivatingKeepsOrder(s: System, after: System)
    requires Placed(s) && Order(s) && Activates(s, after)
    ensures KeepsOrder(s, after)
  {
  }

  lemma DiscardingKeepsOrder(s: System)
    requires Placed(s) && Order(s)
    ensures KeepsOrder(s, DiscardEvent(s))
  {
    RisingCarries(s, DiscardEvent(s));
  }

  lemma UnloadingTheServingKeepsOrder(s: System, id: string)
    requires Placed(s) && Order(s) && s.tx == Switched({})
    ensures KeepsOrder(s, s.(m := UnloadServing(s.m, id)))
  {
    UnloadServingDrains(s.m, id);
    RisingCarries(s, s.(m := UnloadServing(s.m, id)));
  }

  lemma UnloadingTheCandidateKeepsOrder(s: System, id: string, stops: set<nat>)
    requires Placed(s) && Order(s) && s.tx == Switched({})
    ensures KeepsOrder(s, s.(m := UnloadCandidate(s.m, id), tx := Switched(stops)))
  {
    UnloadCandidateDrains(s.m, id);
    RisingCarries(s, s.(m := UnloadCandidate(s.m, id), tx := Switched(stops)));
  }

  lemma ForgettingKeepsOrder(s: System)
    requires Placed(s) && Order(s) && Promised(s.tx).None?
    ensures KeepsOrder(s, Forgotten(s))
  {
    RisingCarries(s, Forgotten(s));
  }

  lemma ReapingKeepsOrder(s: System, after: System, generation: nat)
    requires Placed(s) && Order(s) && Reaps(s, after, generation)
    ensures KeepsOrder(s, after)
  {
    RisingCarries(s, after);
  }

  lemma TakingOutKeepsOrder(s: System)
    requires Placed(s) && Order(s)
    ensures KeepsOrder(s, TakeOutEvent(s))
  {
    RisingCarries(s, TakeOutEvent(s));
  }

  /** A restart takes the serving slot above every generation that had it. */
  lemma ServingKeepsOrder(s: System, deadline: nat)
    requires Placed(s) && Order(s) && s.sup.Restarting? && s.sup.launch.stage.Running?
    requires RestartInHand(s.m, s.sup.owed.deploymentId) && !HeldByADeploy(s.m)
    ensures KeepsOrder(s, RestartServes(s, s.sup.launch, s.sup.launch.stage.generation, deadline))
  {
    if Taking(s.tx).Some? {
      TakingHoldsRestartsOff(s);
    }
  }

  lemma YieldingKeepsOrder(s: System, inHand: bool)
    requires Placed(s) && Order(s) && s.sup.Restarting? && s.sup.launch.stage.Running?
    requires inHand == RestartInHand(s.m, s.sup.owed.deploymentId)
    requires inHand ==> HeldByADeploy(s.m)
    ensures KeepsOrder(s, RestartYields(s, s.sup.owed, s.sup.launch, s.sup.launch.stage.generation, inHand))
  {
    RisingCarries(s, RestartYields(s, s.sup.owed, s.sup.launch, s.sup.launch.stage.generation, inHand));
  }

  lemma WatchingKeepsOrder(s: System, done: set<nat>)
    requires Placed(s) && Order(s)
    ensures KeepsOrder(s, WatchRetiringEvent(s, done))
  {
    RisingCarries(s, WatchRetiringEvent(s, done));
  }

  lemma ShuttingDownKeepsOrder(s: System)
    requires Placed(s) && Order(s)
    ensures KeepsOrder(s, ShutdownEvent(s))
  {
    RisingCarries(s, ShutdownEvent(s));
  }

  lemma OwingTheCandidateKeepsOrder(s: System, after: System)
    requires Placed(s) && Order(s) && OwesTheCandidate(s, after)
    ensures KeepsOrder(s, after)
  {
    RisingCarries(s, after);
  }

  lemma LateAbandonsKeepOrder(s: System, deploymentId: string)
    requires Placed(s) && Order(s)
    ensures Order(LateAbandonEvent(s, deploymentId))
  {
    OrderCarries(s, LateAbandonEvent(s, deploymentId));
  }

  /** A generation handed to the registry is admissible when its launch is
      checked: only a stop turns it away. */
  lemma HandedGenerationsAreAdmissible(s: System)
    requires Placed(s) && Order(s) && !s.m.stopping
    requires s.tx.Launching? && s.tx.launch.stage.Took? && s.tx.launch.handed.Some?
    ensures Admissible(s.m, s.tx.launch.stage.generation, true)
  {
  }

  /** A generation the registry takes itself is never one it is running. */
  lemma TakenGenerationsAreAdmissible(s: System, launch: Launch)
    requires Placed(s) && launch.stage.Took? && launch.handed.None?
    requires s.tx == Launching(launch) || (s.sup.Restarting? && s.sup.launch == launch)
    ensures Admissible(s.m, launch.stage.generation, false)
  {
  }
}
