/** The count of what is held outside the map, and the running processes:
    every one is in the map, draining, or in the hands of one thread. */
module RegistryTokens {
  import opened Wrappers
  import opened Registry
  import opened RegistrySystem
  import opened RegistrySteps
  import opened RegistryLaws

  /** Every running process belongs to a member, to a draining member, or to
      a thread that is counted for it. */
  ghost predicate Live(s: System) {
    forall g :: g in s.alive ==>
      || g in s.m.byGeneration || g in s.m.draining || TxRuns(s.tx) == Some(g)
      || SupRuns(s.sup) == Some(g)
  }

  ghost predicate Kept(s: System) {
    Placed(s) && Counted(s) && Live(s)
  }

  lemma OwnIsDraining(s: System)
    requires Placed(s)
    ensures Own(s.sup) <= s.m.draining.Keys && |Own(s.sup)| <= |s.m.draining|
    ensures forall g :: g in s.m.draining && g !in Own(s.sup) ==> |Own(s.sup)| < |s.m.draining|
  {
    SubsetsAreSmaller(Own(s.sup), s.m.draining.Keys);
    assert |s.m.draining.Keys| == |s.m.draining|;
    forall g | g in s.m.draining && g !in Own(s.sup) ensures |Own(s.sup)| < |s.m.draining| {
      SubsetsAreSmaller(Own(s.sup), s.m.draining.Keys - {g});
    }
  }

  lemma {:induction false} SubsetsAreSmaller(a: set<nat>, b: set<nat>)
    requires a <= b
    ensures |a| <= |b|
  {
    if a == {} {
    } else {
      var x :| x in a;
      SubsetsAreSmaller(a - {x}, b - {x});
    }
  }

  lemma MovesKeepTheCount(s: System, after: System)
    requires Kept(s) && (TxMoved(s, after) || SupMoved(s, after))
    ensures Counted(after) && Live(after)
  {
    OwnIsDraining(s);
  }

  /** A member goes from the map to the draining list. */
  lemma DrainingKeepsTheCount(s: System, after: System, slot: Option<nat>)
    requires Kept(s) && (slot.Some? ==> slot.value in s.m.byGeneration)
    requires after.m.byGeneration == Drain(s.m, slot).byGeneration && after.m.draining == Drain(s.m, slot).draining
    requires after.m.outside == Drain(s.m, slot).outside && after.alive == s.alive && after.sup == s.sup
    requires TxTokens(after.tx) == TxTokens(s.tx) && TxRuns(after.tx) == TxRuns(s.tx)
    ensures Counted(after) && Live(after)
  {
  }

  lemma AdmittingKeepsTheCount(s: System, after: System)
    requires Kept(s) && Admits(s, after)
    ensures Counted(after) && Live(after)
  {
    OwnIsDraining(s);
  }

  lemma StoppingInsteadKeepsTheCount(s: System, after: System)
    requires Kept(s) && StopsInstead(s, after)
    ensures Counted(after) && Live(after)
  {
  }

  lemma DiscardingKeepsTheCount(s: System)
    requires Kept(s)
    ensures Counted(DiscardEvent(s)) && Live(DiscardEvent(s))
  {
  }

  lemma TakingOutKeepsTheCount(s: System)
    requires Kept(s)
    ensures Counted(TakeOutEvent(s)) && Live(TakeOutEvent(s))
  {
  }

  lemma ServingKeepsTheCount(s: System, deadline: nat)
    requires Kept(s) && s.sup.Restarting? && s.sup.launch.stage.Running?
    ensures var after := RestartServes(s, s.sup.launch, s.sup.launch.stage.generation, deadline);
            Counted(after) && Live(after)
  {
    OwnIsDraining(s);
  }

  lemma YieldingKeepsTheCount(s: System, inHand: bool)
    requires Kept(s) && s.sup.Restarting? && s.sup.launch.stage.Running?
    ensures var after := RestartYields(s, s.sup.owed, s.sup.launch, s.sup.launch.stage.generation, inHand);
            Counted(after) && Live(after)
  {
  }

  lemma RemovingOne(members: map<nat, Member>, generation: nat)
    requires generation in members
    ensures |members - {generation}| == |members| - 1
  {
    assert (members - {generation}).Keys == members.Keys - {generation};
    assert |members.Keys| == |members| && |(members - {generation}).Keys| == |members - {generation}|;
  }

  lemma ReapingKeepsTheCount(s: System, after: System, generation: nat)
    requires Kept(s) && Reaps(s, after, generation)
    ensures Counted(after) && Live(after)
  {
    OwnIsDraining(s);
    RemovingOne(s.m.draining, generation);
    ReapedCount(s, after, generation);
  }

  lemma ReapedCount(s: System, after: System, generation: nat)
    requires Counted(s) && |Own(s.sup)| <= |s.m.draining| && generation in s.m.draining
    requires generation in Own(s.sup) || |Own(s.sup)| < |s.m.draining|
    requires |after.m.draining| == |s.m.draining| - 1 && Own(after.sup) == Own(s.sup) - {generation}
    requires TxTokens(after.tx) == TxTokens(s.tx) && SupTokens(after.sup) == SupTokens(s.sup)
    requires after.m.outside == if generation in Own(s.sup) then s.m.outside else Released(s.m.outside)
    ensures Counted(after)
  {
    if generation in Own(s.sup) {
      assert |Own(s.sup) - {generation}| == |Own(s.sup)| - 1;
    } else {
      assert Own(s.sup) - {generation} == Own(s.sup);
    }
  }

  lemma JoiningAddsUp(draining: map<nat, Member>, members: map<nat, Member>)
    requires forall g :: g in members ==> g !in draining
    ensures |draining + members| == |draining| + |members|
    ensures (draining + members).Keys == draining.Keys + members.Keys
  {
    assert (draining + members).Keys == draining.Keys + members.Keys;
    assert |(draining + members).Keys| == |draining + members| && |draining.Keys| == |draining|
        && |members.Keys| == |members|;
  }

  lemma ShuttingDownKeepsTheCount(s: System)
    requires Kept(s)
    ensures Counted(ShutdownEvent(s)) && Live(ShutdownEvent(s))
  {
    if s.sup.Calm? {
      JoiningAddsUp(s.m.draining, s.m.byGeneration);
    }
  }

  lemma OwingTheCandidateKeepsTheCount(s: System, after: System)
    requires Kept(s) && OwesTheCandidate(s, after)
    ensures Counted(after) && Live(after)
  {
  }

  /** A stop that has come back with nothing outside: no worker runs. */
  lemma NothingRunsAfterAStop(s: System)
    requires Kept(s) && s.sup.ShutDown? && s.m.outside == 0
    ensures s.alive == map[] && s.m.byGeneration == map[] && s.m.draining == map[]
    ensures TxTokens(s.tx) == 0 && TxStops(s.tx) == {}
  {
    assert s.m.draining == map[];
    assert forall g :: g !in s.alive;
  }
}
