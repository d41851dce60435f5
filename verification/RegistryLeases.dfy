/** Port leases: each is held for one member at a time, so no two running
    workers listen on the same ports. */
module RegistryLeases {
  import opened Wrappers
  import opened Registry
  import opened RegistrySystem
  import opened RegistrySteps
  import opened RegistryLaws
  import opened RegistryTokens

  ghost predicate DistinctLeases(members: map<nat, Member>) {
    forall g, h :: g in members && h in members && members[g].lease == members[h].lease ==> g == h
  }

  ghost predicate NoneHolds(members: map<nat, Member>, lease: Option<nat>) {
    lease.Some? ==> forall g :: g in members ==> members[g].lease != lease.value
  }

  ghost predicate DisjointLeases(members: map<nat, Member>, others: map<nat, Member>) {
    forall g, h :: g in members && h in others ==> members[g].lease != others[h].lease
  }

  /** A restart that is due may share its ports only with the generation that
      yielded to a deploy and is being stopped. */
  ghost predicate DueIsKept(draining: map<nat, Member>, due: Option<nat>, sup: Sup) {
    due.Some? ==> forall g :: g in draining && draining[g].lease == due.value ==> sup == Yielding(g)
  }

  ghost predicate InPool(members: map<nat, Member>, ports: nat) {
    forall g :: g in members ==> members[g].lease < ports
  }

  predicate InPoolIfAny(lease: Option<nat>, ports: nat) {
    lease.Some? ==> lease.value < ports
  }

  ghost predicate Leases(s: System) {
    && DistinctLeases(s.m.byGeneration) && DistinctLeases(s.m.draining)
    && DisjointLeases(s.m.byGeneration, s.m.draining)
    && NoneHolds(s.m.byGeneration, TxLease(s.tx)) && NoneHolds(s.m.draining, TxLease(s.tx))
    && NoneHolds(s.m.byGeneration, SupLease(s.sup)) && NoneHolds(s.m.draining, SupLease(s.sup))
    && NoneHolds(s.m.byGeneration, DueLease(s.m.restart)) && DueIsKept(s.m.draining, DueLease(s.m.restart), s.sup)
    && (TxLease(s.tx).Some? ==> TxLease(s.tx) != SupLease(s.sup) && TxLease(s.tx) != DueLease(s.m.restart))
    && (SupLease(s.sup).Some? ==> SupLease(s.sup) != DueLease(s.m.restart))
    && InPool(s.m.byGeneration, s.ports) && InPool(s.m.draining, s.ports)
    && InPoolIfAny(TxLease(s.tx), s.ports) && InPoolIfAny(SupLease(s.sup), s.ports)
        && InPoolIfAny(DueLease(s.m.restart), s.ports)
  }

  /** The worker of `g` listens on the ports its holder leased. */
  predicate ListensAt(s: System, g: nat)
    requires g in s.alive
  {
    && (g in s.m.byGeneration ==> s.alive[g] == s.m.byGeneration[g].lease)
    && (g in s.m.draining ==> s.alive[g] == s.m.draining[g].lease)
    && (TxRuns(s.tx) == Some(g) ==> TxLease(s.tx) == Some(s.alive[g]))
    && (SupRuns(s.sup) == Some(g) ==> SupLease(s.sup) == Some(s.alive[g]))
  }

  ghost predicate Listens(s: System) {
    forall g :: g in s.alive ==> ListensAt(s, g)
  }

  lemma NobodyHoldsAFreeLease(s: System, lease: nat)
    requires !Leased(s, lease)
    ensures NoneHolds(s.m.byGeneration, Some(lease)) && NoneHolds(s.m.draining, Some(lease))
    ensures TxLease(s.tx) != Some(lease) && SupLease(s.sup) != Some(lease) && DueLease(s.m.restart) != Some(lease)
  {
  }

  lemma TxMovesKeepLeases(s: System, after: System)
    requires Leases(s) && TxMoved(s, after)
    ensures Leases(after)
  {
    if TxLease(after.tx).Some? && TxLease(after.tx) != TxLease(s.tx) {
      NobodyHoldsAFreeLease(s, TxLease(after.tx).value);
    }
  }

  lemma SupMovesKeepLeases(s: System, after: System)
    requires Leases(s) && SupMoved(s, after)
    ensures Leases(after)
  {
    SupMovesKeepALease(s, SupLease(after.sup));
    SupMovesKeepALease(s, DueLease(after.m.restart));
  }

  lemma SupMovesKeepALease(s: System, lease: Option<nat>)
    requires Leases(s) && LeaseKept(s, lease)
    ensures NoneHolds(s.m.byGeneration, lease) && InPoolIfAny(lease, s.ports)
    ensures lease.Some? ==> lease != TxLease(s.tx)
    ensures NoneHolds(s.m.draining, lease) || (lease == DueLease(s.m.restart) && DueIsKept(s.m.draining, lease, s.sup))
  {
    if lease.Some? && lease != SupLease(s.sup) && lease != DueLease(s.m.restart) {
      NobodyHoldsAFreeLease(s, lease.value);
    }
  }

  lemma MovingAMemberKeepsLeasesApart(members: map<nat, Member>, draining: map<nat, Member>, generation: nat)
    requires DistinctLeases(members) && DistinctLeases(draining) && DisjointLeases(members, draining)
    requires generation in members
    ensures DistinctLeases(members - {generation}) && DistinctLeases(draining[generation := members[generation]])
    ensures DisjointLeases(members - {generation}, draining[generation := members[generation]])
  {
  }

  /** A member goes from the map to the draining list with its ports. */
  lemma DrainingKeepsLeases(s: System, after: System, slot: Option<nat>)
    requires Leases(s)
    requires after.m.byGeneration == Drain(s.m, slot).byGeneration && after.m.draining == Drain(s.m, slot).draining
    requires after.sup == s.sup && after.ports == s.ports && TxLease(after.tx) == TxLease(s.tx)
    requires after.m.restart == s.m.restart || after.m.restart.Idle?
    ensures Leases(after)
  {
    if slot.Some? && slot.value in s.m.byGeneration {
      DrainedLeasesStayApart(s, after, slot.value);
    }
  }

  lemma DrainedLeasesStayApart(s: System, after: System, generation: nat)
    requires Leases(s) && generation in s.m.byGeneration
    requires after.m.byGeneration == s.m.byGeneration - {generation}
    requires after.m.draining == s.m.draining[generation := s.m.byGeneration[generation]]
    requires after.sup == s.sup && after.ports == s.ports && TxLease(after.tx) == TxLease(s.tx)
    requires DueLease(after.m.restart) == DueLease(s.m.restart) || DueLease(after.m.restart).None?
    ensures Leases(after)
  {
    MovingAMemberKeepsLeasesApart(s.m.byGeneration, s.m.draining, generation);
    MovedMembersHoldNoOther(s.m.byGeneration, s.m.draining, generation, TxLease(s.tx));
    MovedMembersHoldNoOther(s.m.byGeneration, s.m.draining, generation, SupLease(s.sup));
    assert NoneHolds(after.m.byGeneration, DueLease(after.m.restart));
    assert InPool(after.m.byGeneration, s.ports) && InPool(after.m.draining, s.ports);
  }

  lemma MovedMembersHoldNoOther(members: map<nat, Member>, draining: map<nat, Member>, generation: nat,
                                lease: Option<nat>)
    requires NoneHolds(members, lease) && NoneHolds(draining, lease) && generation in members
    ensures NoneHolds(members - {generation}, lease) && NoneHolds(draining[generation := members[generation]], lease)
  {
  }

  lemma AddingAMemberKeepsLeasesApart(members: map<nat, Member>, others: map<nat, Member>, generation: nat,
                                      member: Member)
    requires DistinctLeases(members) && DisjointLeases(members, others)
    requires NoneHolds(members, Some(member.lease)) && NoneHolds(others, Some(member.lease))
    ensures DistinctLeases(members[generation := member]) && DisjointLeases(members[generation := member], others)
    ensures DisjointLeases(others, members[generation := member])
  {
  }

  lemma AdmittingKeepsLeases(s: System, after: System)
    requires Placed(s) && Leases(s) && Admits(s, after)
    ensures Leases(after)
  {
    var drained := s.(m := Drain(s.m, s.m.candidate));
    DrainingKeepsLeases(s, drained, s.m.candidate);
    AdmittedLeasesStayApart(drained, after, s.tx.launch.stage.generation, MemberOf(s.tx.launch));
  }

  lemma AdmittedLeasesStayApart(s: System, after: System, generation: nat, member: Member)
    requires Leases(s) && TxLease(s.tx) == Some(member.lease) && TxLease(after.tx).None?
    requires after.m.byGeneration == s.m.byGeneration[generation := member] && after.m.draining == s.m.draining
    requires after.sup == s.sup && after.ports == s.ports && after.m.restart == s.m.restart
    ensures Leases(after)
  {
    AddingAMemberKeepsLeasesApart(s.m.byGeneration, s.m.draining, generation, member);
  }

  lemma StoppingInsteadKeepsLeases(s: System, after: System)
    requires Placed(s) && Leases(s) && StopsInstead(s, after)
    ensures Leases(after)
  {
  }

  lemma DiscardingKeepsLeases(s: System)
    requires Placed(s) && Leases(s)
    ensures Leases(DiscardEvent(s))
  {
  }

  lemma TakingOutKeepsLeases(s: System)
    requires Placed(s) && Leases(s)
    ensures Leases(TakeOutEvent(s))
  {
  }

  lemma ServingKeepsLeases(s: System, deadline: nat)
    requires Placed(s) && Leases(s) && s.sup.Restarting? && s.sup.launch.stage.Running?
    ensures Leases(RestartServes(s, s.sup.launch, s.sup.launch.stage.generation, deadline))
  {
  }

  lemma YieldingKeepsLeases(s: System)
    requires Placed(s) && Leases(s) && s.sup.Restarting? && s.sup.launch.stage.Running?
    ensures Leases(RestartYields(s, s.sup.owed, s.sup.launch, s.sup.launch.stage.generation,
        RestartInHand(s.m, s.sup.owed.deploymentId)))
  {
    var launch := s.sup.launch;
    var after := RestartYields(s, s.sup.owed, launch, launch.stage.generation,
                               RestartInHand(s.m, s.sup.owed.deploymentId));
    YieldedLeasesStayApart(s, after, launch.stage.generation, MemberOf(launch));
  }

  lemma YieldedLeasesStayApart(s: System, after: System, generation: nat, member: Member)
    requires Leases(s) && SupLease(s.sup) == Some(member.lease)
    requires after.m.byGeneration == s.m.byGeneration && after.m.draining == s.m.draining[generation := member]
    requires after.tx == s.tx && after.ports == s.ports && after.sup == Yielding(generation)
    requires DueLease(after.m.restart).None? || DueLease(after.m.restart) == SupLease(s.sup)
             || (DueLease(after.m.restart) == DueLease(s.m.restart) && NoneHolds(s.m.draining, DueLease(s.m.restart)))
    ensures Leases(after)
  {
    AddingAMemberKeepsLeasesApart(s.m.draining, s.m.byGeneration, generation, member);
  }

  lemma ReapingKeepsLeases(s: System, after: System, generation: nat)
    requires Placed(s) && Leases(s) && Reaps(s, after, generation)
    ensures Leases(after)
  {
  }

  lemma ShuttingDownKeepsLeases(s: System)
    requires Placed(s) && Leases(s)
    ensures Leases(ShutdownEvent(s))
  {
    if s.sup.Calm? {
      var m := StopAll(s.m);
      JoiningKeepsLeasesApart(s.m.draining, s.m.byGeneration, TxLease(s.tx));
      assert m.draining == s.m.draining + s.m.byGeneration && m.byGeneration == map[];
    }
  }

  lemma JoiningKeepsLeasesApart(draining: map<nat, Member>, members: map<nat, Member>, lease: Option<nat>)
    requires DistinctLeases(members) && DistinctLeases(draining) && DisjointLeases(members, draining)
    requires NoneHolds(members, lease) && NoneHolds(draining, lease)
    ensures DistinctLeases(draining + members) && NoneHolds(draining + members, lease)
  {
  }

  lemma OwingTheCandidateKeepsLeases(s: System, after: System)
    requires Placed(s) && Leases(s) && OwesTheCandidate(s, after)
    ensures Leases(after)
  {
  }

  // ----- Where the workers listen -----

  lemma TxMovesKeepListening(s: System, after: System)
    requires Kept(s) && Listens(s) && Placed(after) && TxMoved(s, after)
    ensures Listens(after)
  {
  }

  lemma SupMovesKeepListening(s: System, after: System)
    requires Kept(s) && Listens(s) && Placed(after) && SupMoved(s, after)
    ensures Listens(after)
  {
  }

  /** The holder of generation `g` leased `lease`. */
  predicate LeaseOf(s: System, g: nat, lease: nat) {
    || (g in s.m.byGeneration && s.m.byGeneration[g].lease == lease)
    || (g in s.m.draining && s.m.draining[g].lease == lease)
    || (TxRuns(s.tx) == Some(g) && TxLease(s.tx) == Some(lease))
    || (SupRuns(s.sup) == Some(g) && SupLease(s.sup) == Some(lease))
  }

  /** Whoever holds `g` after a step leased what a holder of `g` had. */
  predicate LeaseCarried(s: System, after: System, g: nat) {
    && (g in after.m.byGeneration ==> LeaseOf(s, g, after.m.byGeneration[g].lease))
    && (g in after.m.draining ==> LeaseOf(s, g, after.m.draining[g].lease))
    && (TxRuns(after.tx) == Some(g) ==> TxLease(after.tx).Some? && LeaseOf(s, g, TxLease(after.tx).value))
    && (SupRuns(after.sup) == Some(g) ==> SupLease(after.sup).Some? && LeaseOf(s, g, SupLease(after.sup).value))
  }

  lemma LeasesAreWhereTheyListen(s: System, g: nat, lease: nat)
    requires g in s.alive && ListensAt(s, g) && LeaseOf(s, g, lease)
    ensures s.alive[g] == lease
  {
  }

  lemma CarriedMembersListenAt(s: System, after: System, g: nat)
    requires g in s.alive && ListensAt(s, g) && g in after.alive && after.alive[g] == s.alive[g]
    requires LeaseCarried(s, after, g)
    ensures ListensAt(after, g)
  {
    if g in after.m.byGeneration {
      LeasesAreWhereTheyListen(s, g, after.m.byGeneration[g].lease);
    }
    if g in after.m.draining {
      LeasesAreWhereTheyListen(s, g, after.m.draining[g].lease);
    }
    if TxRuns(after.tx) == Some(g) {
      LeasesAreWhereTheyListen(s, g, TxLease(after.tx).value);
    }
    if SupRuns(after.sup) == Some(g) {
      LeasesAreWhereTheyListen(s, g, SupLease(after.sup).value);
    }
  }

  /** Members that move keep their ports, whoever holds them. */
  lemma CarriedMembersListen(s: System, after: System)
    requires Listens(s)
    requires forall g :: g in after.alive ==> g in s.alive && after.alive[g] == s.alive[g]
    requires forall g :: g in after.alive ==> LeaseCarried(s, after, g)
    ensures Listens(after)
  {
    forall g | g in after.alive ensures ListensAt(after, g) {
      CarriedMembersListenAt(s, after, g);
    }
  }

  lemma DrainingKeepsListening(s: System, after: System, slot: Option<nat>)
    requires Kept(s) && Listens(s) && Placed(after)
    requires after.m.byGeneration == Drain(s.m, slot).byGeneration && after.m.draining == Drain(s.m, slot).draining
    requires after.alive == s.alive && after.sup == s.sup
    requires TxRuns(after.tx) == TxRuns(s.tx) && TxLease(after.tx) == TxLease(s.tx)
    ensures Listens(after)
  {
  }

  lemma AdmittingKeepsListening(s: System, after: System)
    requires Kept(s) && Listens(s) && Placed(after) && Admits(s, after)
    ensures Listens(after)
  {
    CarriedMembersListen(s, after);
  }

  lemma StoppingInsteadKeepsListening(s: System, after: System)
    requires Kept(s) && Listens(s) && Placed(after) && StopsInstead(s, after)
    ensures Listens(after)
  {
    CarriedMembersListen(s, after);
  }

  /** Whoever reaps a member carries no other. */
  lemma ReapingCarriesTheRest(s: System, after: System, generation: nat)
    requires Reaps(s, after, generation)
    ensures TxRuns(after.tx) == TxRuns(s.tx) && TxLease(after.tx) == TxLease(s.tx)
    ensures SupRuns(after.sup) == SupRuns(s.sup) && SupLease(after.sup) == SupLease(s.sup)
  {
  }

  lemma ReapingKeepsListening(s: System, after: System, generation: nat)
    requires Kept(s) && Listens(s) && Reaps(s, after, generation)
    ensures Listens(after)
  {
    ReapingCarriesTheRest(s, after, generation);
    CarriedMembersListen(s, after);
  }

  lemma OwingTheCandidateKeepsListening(s: System, after: System)
    requires Kept(s) && Listens(s) && OwesTheCandidate(s, after)
    ensures Listens(after)
  {
    CarriedMembersListen(s, after);
  }

  lemma DiscardingKeepsListening(s: System)
    requires Kept(s) && Listens(s)
    ensures Listens(DiscardEvent(s))
  {
    CarriedMembersListen(s, DiscardEvent(s));
  }

  lemma TakingOutKeepsListening(s: System)
    requires Kept(s) && Listens(s)
    ensures Listens(TakeOutEvent(s))
  {
    CarriedMembersListen(s, TakeOutEvent(s));
  }

  lemma ServingKeepsListening(s: System, deadline: nat)
    requires Kept(s) && Listens(s) && s.sup.Restarting? && s.sup.launch.stage.Running?
    ensures Listens(RestartServes(s, s.sup.launch, s.sup.launch.stage.generation, deadline))
  {
    CarriedMembersListen(s, RestartServes(s, s.sup.launch, s.sup.launch.stage.generation, deadline));
  }

  lemma YieldingKeepsListening(s: System, inHand: bool)
    requires Kept(s) && Listens(s) && s.sup.Restarting? && s.sup.launch.stage.Running?
    ensures Listens(RestartYields(s, s.sup.owed, s.sup.launch, s.sup.launch.stage.generation, inHand))
  {
    CarriedMembersListen(s, RestartYields(s, s.sup.owed, s.sup.launch, s.sup.launch.stage.generation, inHand));
  }

  lemma ShuttingDownKeepsListening(s: System)
    requires Placed(s) && Listens(s)
    ensures Listens(ShutdownEvent(s))
  {
    if s.sup.Calm? {
      forall g | g in s.alive ensures LeaseCarried(s, ShutdownEvent(s), g) {
        assert g in s.m.draining ==> g !in s.m.byGeneration;
      }
      CarriedMembersListen(s, ShutdownEvent(s));
    }
  }

  /** A step that moves nothing but a thread's place. */
  predicate MovesAPlace(s: System, after: System) {
    && after.m.byGeneration == s.m.byGeneration && after.m.draining == s.m.draining
    && after.m.outside == s.m.outside
    && (after.m.restart == s.m.restart || after.m.restart.Idle?)
    && after.alive == s.alive && after.ports == s.ports && after.tx == s.tx
    && (after.sup == s.sup || (s.sup.Calm? && after.sup.Reaping?))
  }

  lemma PlacesMoveUncounted(s: System, after: System)
    requires Kept(s) && MovesAPlace(s, after)
    ensures Counted(after) && Live(after)
  {
  }

  lemma PlacesMoveWithTheirLeases(s: System, after: System)
    requires Kept(s) && Leases(s) && Listens(s) && MovesAPlace(s, after)
    ensures Leases(after) && Listens(after)
  {
  }

  lemma RestCarries(s: System, after: System)
    requires Kept(s) && Leases(s) && Listens(s) && MovesAPlace(s, after)
    ensures Counted(after) && Live(after) && Leases(after) && Listens(after)
  {
    PlacesMoveUncounted(s, after);
    PlacesMoveWithTheirLeases(s, after);
  }

  lemma LeasesAreOfThePool(s: System, g: nat)
    requires Kept(s) && Leases(s) && Listens(s) && g in s.alive
    ensures s.alive[g] < s.ports
  {
  }

  /** No two running workers hold the same lease. */
  lemma NoTwoWorkersShareALease(s: System, g: nat, h: nat)
    requires Kept(s) && Leases(s) && Listens(s)
    requires g in s.alive && h in s.alive && g != h
    ensures s.alive[g] != s.alive[h] && s.alive[g] < s.ports
  {
  }
}
