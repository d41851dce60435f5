/** What nothing hinders comes about: an owed restart serves, and a deploy
    serves. */
module RegistryClean {
  import opened Wrappers
  import opened Registry
  import opened RegistrySystem
  import opened RegistrySteps
  import opened RegistryLaws
  import opened RegistryTokens
  import opened RegistryOrder
  import opened RegistryLeases
  import opened RegistryRuns

  // ----- A restart -----

  function OwedLaunch(owed: Owed, stage: Stage): Launch {
    Launch(owed.deploymentId, owed.lease, None, true, stage)
  }

  /** The supervision thread with its restart at `stage`. */
  function At(s: System, owed: Owed, stage: Stage): System {
    s.(sup := Restarting(owed, OwedLaunch(owed, stage)))
  }

  function Launches(s: System, owed: Owed): System {
    s.(m := s.m.(outside := s.m.outside + 1), counter := s.counter + 1,
       alive := s.alive[s.counter := owed.lease], sup := Restarting(owed, OwedLaunch(owed, Running(s.counter))))
  }

  ghost function FiveLaunchSteps(s: System): System {
    SupLaunchEvent(SupLaunchEvent(SupLaunchEvent(SupLaunchEvent(SupLaunchEvent(s, true), true), true), true), true)
  }

  /** A restart in hand that no deploy holds off starts its process. */
  lemma UnhinderedLaunchesRun(s: System, owed: Owed)
    requires s.sup == Restarting(owed, OwedLaunch(owed, Entered))
    requires RestartInHand(s.m, owed.deploymentId) && !HeldByADeploy(s.m) && s.counter !in s.m.byGeneration
    ensures FiveLaunchSteps(s) == Launches(s, owed)
  {
    var tokened := At(s.(m := s.m.(outside := s.m.outside + 1)), owed, Tokened);
    assert SupLaunchEvent(s, true) == tokened;
    var took := At(tokened.(counter := s.counter + 1), owed, Took(s.counter));
    assert SupLaunchEvent(tokened, true) == took;
    ChecksPass(took, owed, s.counter);
    var cleared := At(took, owed, Cleared(s.counter));
    assert SupLaunchEvent(cleared, true) == Launches(s, owed);
  }

  lemma ChecksPass(s: System, owed: Owed, generation: nat)
    requires s.sup == Restarting(owed, OwedLaunch(owed, Took(generation)))
    requires RestartInHand(s.m, owed.deploymentId) && !HeldByADeploy(s.m) && generation !in s.m.byGeneration
    ensures SupLaunchEvent(SupLaunchEvent(s, true), true) == At(s, owed, Cleared(generation))
  {
    assert SupLaunchEvent(s, true) == At(s, owed, Checked(generation));
  }

  /** The supervision thread takes up a restart that is due, finds its bundle,
      launches and serves. */
  ghost function Restarted(s: System, deadline: nat): System {
    FinishRestartEvent(FiveLaunchSteps(BeginRestartEvent(StartOwedEvent(s), true)), deadline)
  }

  /** A restart that is due and not held off by a deploy takes the serving
      slot under the next generation, on the ports it was owed, and is
      counted. */
  lemma DueRestartsServe(s: System, deadline: nat)
    requires s.sup.Calm? && s.m.restart.Due? && s.now >= s.m.restart.due && !HeldByADeploy(s.m) && !s.m.stopping
    requires s.counter !in s.m.byGeneration
    ensures var owed := s.m.restart.owed;
            Restarted(s, deadline) ==
              s.(m := s.m.(byGeneration := s.m.byGeneration[s.counter := Member(owed.deploymentId, owed.lease)],
                           serving := Some(s.counter), restarts := s.m.restarts + [s.now],
                           restart := Loading(deadline, s.now)),
                 counter := s.counter + 1, alive := s.alive[s.counter := owed.lease],
                 supervised := true, served := s.served + [s.counter],
                 counted := s.counted + [s.now], stops := s.stops + [s.owedAt])
  {
    var owed := s.m.restart.owed;
    var begun := BeginRestartEvent(StartOwedEvent(s), true);
    assert begun == At(s.(m := s.m.(restart := InHand(owed.deploymentId)), supervised := true), owed, Entered);
    UnhinderedLaunchesRun(begun, owed);
  }

  /** A serving member that stopped, lost its channel or never became ready
      leaves the slot and is owed a restart on its ports, or is given up when
      three were made inside the window. */
  lemma StoppedMembersAreOwed(s: System)
    requires s.sup.Calm? && (s.m.restart.Idle? || s.m.restart.Loading?) && s.m.serving.Some?
        && s.m.serving.value in s.m.byGeneration
    ensures SettleRemovalEvent(TakeOutEvent(s)) ==
      s.(m := s.m.(byGeneration := s.m.byGeneration - {s.m.serving.value}, serving := None,
                   restarts := Recent(s.m.restarts, s.now),
                   restart := OwedAfter(s, s.m.byGeneration[s.m.serving.value], s.m.serving.value)),
         alive := s.alive - {s.m.serving.value}, supervised := true, owedAt := s.now)
  {
  }

  /** What a member that stopped is owed. */
  function OwedAfter(s: System, member: Member, generation: nat): Restart {
    var made := |Recent(s.m.restarts, s.now)|;
    if made < |RESTART_DELAYS|
    then Due(Owed(member.deploymentId, member.lease, generation), s.now + RESTART_DELAYS[made])
    else GivenUp(member.deploymentId)
  }

  // ----- A deploy -----

  function HandedLaunch(deploymentId: string, lease: nat, generation: nat, stage: Stage): Launch {
    Launch(deploymentId, lease, Some(generation), false, stage)
  }

  /** The candidate an earlier deploy left behind is stopped and dropped. */
  function ReapDisplaced(s: System, slot: Option<nat>): System {
    if slot.Some? then TxReapEvent(s, slot.value) else s
  }

  /** The hold, the generation taken under it, the slot emptied, the ports. */
  ghost function Asked(s: System, deploymentId: string, lease: nat): System {
    LeasePortsEvent(ReapDisplaced(PrepareEvent(TakeGenerationEvent(HoldEvent(s), true), deploymentId), s.m.candidate),
                    lease)
  }

  /** `s` without a candidate. */
  function Emptied(s: System): System {
    s.(m := s.m.(byGeneration := s.m.byGeneration - SlotSet(s.m.candidate), candidate := None, abandoned := false),
       alive := s.alive - SlotSet(s.m.candidate))
  }

  /** `s` once a deploy has held, taken a generation and emptied the slot. */
  function Prepared(s: System, deploymentId: string): System {
    s.(m := Drain(s.m, s.m.candidate).(candidate := None, abandoned := false, preparing := s.m.preparing + 2),
       holds := s.holds + 2, counter := s.counter + 1,
       tx := Preparing(deploymentId, Some(s.counter), SlotSet(s.m.candidate)))
  }

  lemma DeploysPrepare(s: System, deploymentId: string)
    requires Placed(s) && s.tx.Quiet? && !s.m.stopping
    ensures PrepareEvent(TakeGenerationEvent(HoldEvent(s), true), deploymentId) == Prepared(s, deploymentId)
  {
    DisplacedDrains(s.m.(preparing := s.m.preparing + 2));
  }

  lemma DisplacedCandidatesAreReaped(s: System, deploymentId: string)
    requires Placed(s) && !s.m.stopping
    ensures ReapDisplaced(Prepared(s, deploymentId), s.m.candidate) ==
      Emptied(s).(m := Emptied(s).m.(preparing := s.m.preparing + 2), holds := s.holds + 2, counter := s.counter + 1,
                  tx := Preparing(deploymentId, Some(s.counter), {}))
  {
    if s.m.candidate.Some? {
      var candidate := s.m.candidate.value;
      assert s.m.draining[candidate := s.m.byGeneration[candidate]] - {candidate} == s.m.draining;
      assert {candidate} - {candidate} == {};
    } else {
      assert s.m.byGeneration - {} == s.m.byGeneration && s.alive - {} == s.alive;
    }
  }

  lemma UnhinderedDeploysAsk(s: System, deploymentId: string, lease: nat)
    requires Placed(s) && s.tx.Quiet? && !s.m.stopping && lease < s.ports && !Leased(Emptied(s), lease)
    ensures Asked(s, deploymentId, lease) ==
      Emptied(s).(m := Emptied(s).m.(preparing := s.m.preparing + 2), holds := s.holds + 2, counter := s.counter + 1,
                  tx := Launching(HandedLaunch(deploymentId, lease, s.counter, Entered)))
  {
    DeploysPrepare(s, deploymentId);
    DisplacedCandidatesAreReaped(s, deploymentId);
    var prepared := ReapDisplaced(Prepared(s, deploymentId), s.m.candidate);
    assert !Leased(prepared, lease);
  }

  ghost function FiveTxLaunchSteps(s: System): System {
    TxLaunchEvent(TxLaunchEvent(TxLaunchEvent(TxLaunchEvent(TxLaunchEvent(s, true), true), true), true), true)
  }

  lemma HandedLaunchesRun(s: System, deploymentId: string, lease: nat, generation: nat)
    requires s.tx == Launching(HandedLaunch(deploymentId, lease, generation, Entered))
    requires !s.m.stopping && Admissible(s.m, generation, true)
    ensures FiveTxLaunchSteps(s) ==
      s.(m := s.m.(outside := s.m.outside + 1), alive := s.alive[generation := lease],
         tx := Launching(HandedLaunch(deploymentId, lease, generation, Running(generation))))
  {
    var tokened :=
        s.(m := s.m.(outside := s.m.outside + 1),
           tx := Launching(HandedLaunch(deploymentId, lease, generation, Tokened)));
    assert TxLaunchEvent(s, true) == tokened;
    var took := tokened.(tx := Launching(HandedLaunch(deploymentId, lease, generation, Took(generation))));
    assert TxLaunchEvent(tokened, true) == took;
    HandedChecksPass(took, deploymentId, lease, generation);
  }

  lemma HandedChecksPass(s: System, deploymentId: string, lease: nat, generation: nat)
    requires s.tx == Launching(HandedLaunch(deploymentId, lease, generation, Took(generation)))
    requires !s.m.stopping && Admissible(s.m, generation, true)
    ensures TxLaunchEvent(TxLaunchEvent(TxLaunchEvent(s, true), true), true) ==
      s.(alive := s.alive[generation := lease],
         tx := Launching(HandedLaunch(deploymentId, lease, generation, Running(generation))))
  {
    var checked := s.(tx := Launching(HandedLaunch(deploymentId, lease, generation, Checked(generation))));
    assert TxLaunchEvent(s, true) == checked;
    var cleared := s.(tx := Launching(HandedLaunch(deploymentId, lease, generation, Cleared(generation))));
    assert TxLaunchEvent(checked, true) == cleared;
  }

  /** The candidate is admitted and both holds are let go. */
  ghost function Admitted(s: System): System {
    ReleaseEvent(ReleaseEvent(ReleaseEvent(AdmitCandidateEvent(s))))
  }

  lemma RunningCandidatesBecomeReady(s: System, deploymentId: string, lease: nat, generation: nat)
    requires s.tx == Launching(HandedLaunch(deploymentId, lease, generation, Running(generation)))
    requires !s.m.stopping && s.m.candidate.None? && s.holds == 2 && s.m.preparing == 2 && s.m.outside > 0
    ensures Admitted(s) ==
      s.(m := s.m.(byGeneration := s.m.byGeneration[generation := Member(deploymentId, lease)],
                   candidate := Some(generation),
                   preparing := 0, outside := s.m.outside - 1),
         holds := 0, tx := Ready(deploymentId))
  {
  }

  /** A deploy that nothing hinders, from its hold to the serving slot. */
  ghost function Deployed(s: System, deploymentId: string, lease: nat): System {
    ActivateEvent(FenceEvent(Admitted(FiveTxLaunchSteps(Asked(s, deploymentId, lease))), true))
  }

  /** The next generation serves `deploymentId` on `lease`, and what served
      before is draining and retiring. */
  predicate ServesInstead(s: System, after: System, deploymentId: string, lease: nat) {
    && after.m.serving == Some(s.counter) && after.m.candidate.None? && after.served == s.served + [s.counter]
    && s.counter in after.m.byGeneration && after.m.byGeneration[s.counter] == Member(deploymentId, lease)
    && after.alive == s.alive[s.counter := lease]
    && after.m.preparing == 0 && after.m.restart.Idle? && after.m.restarts == []
    && (s.m.serving.Some? ==> s.m.serving.value in after.m.draining && s.m.serving.value in after.m.retiring)
  }

  lemma ReadyCandidatesServe(s: System, ready: System, deploymentId: string, lease: nat)
    requires s.tx.Quiet? && !s.m.stopping && s.m.candidate.None? && s.m.preparing == 0
    requires s.m.serving.Some? ==> s.m.serving.value in s.m.byGeneration && s.m.serving.value < s.counter
    requires !s.m.abandoned && s.counter !in s.m.byGeneration
    requires ready ==
      s.(m := s.m.(byGeneration := s.m.byGeneration[s.counter := Member(deploymentId, lease)],
                   candidate := Some(s.counter)),
         counter := s.counter + 1, alive := s.alive[s.counter := lease], tx := Ready(deploymentId))
    ensures ServesInstead(s, ActivateEvent(FenceEvent(ready, true)), deploymentId, lease)
  {
    ActivatedDrains(ready.m, deploymentId);
  }

  /** What a deploy finds when it asks in a state without a transaction. */
  ghost predicate AsksFreely(s: System) {
    && s.tx.Quiet? && !s.m.stopping && s.m.candidate.None? && !s.m.abandoned && s.m.preparing == 0 && s.holds == 0
    && (s.m.serving.Some? ==> s.m.serving.value in s.m.byGeneration && s.m.serving.value < s.counter)
    && Admissible(s.m, s.counter, true) && s.counter !in s.m.byGeneration
  }

  lemma EmptiedRegistriesAskFreely(s: System)
    requires Placed(s) && Order(s) && s.tx.Quiet? && !s.m.stopping
    ensures AsksFreely(Emptied(s))
  {
    TheCounterIsAbove(s);
  }

  lemma AskedDeploysServe(s: System, asked: System, deploymentId: string, lease: nat)
    requires AsksFreely(s)
    requires asked == s.(m := s.m.(preparing := 2), holds := 2, counter := s.counter + 1,
                         tx := Launching(HandedLaunch(deploymentId, lease, s.counter, Entered)))
    ensures ServesInstead(s, ActivateEvent(FenceEvent(Admitted(FiveTxLaunchSteps(asked)), true)), deploymentId, lease)
  {
    var running := FiveTxLaunchSteps(asked);
    HandedLaunchesRun(asked, deploymentId, lease, s.counter);
    RunningCandidatesBecomeReady(running, deploymentId, lease, s.counter);
    ReadyCandidatesServe(s, Admitted(running), deploymentId, lease);
  }

  lemma DeploysServe(s: System, deploymentId: string, lease: nat)
    requires Placed(s) && Order(s) && s.tx.Quiet? && !s.m.stopping && lease < s.ports && !Leased(Emptied(s), lease)
    ensures ServesInstead(Emptied(s), Deployed(s, deploymentId, lease), deploymentId, lease)
  {
    UnhinderedDeploysAsk(s, deploymentId, lease);
    EmptiedRegistriesAskFreely(s);
    AskedDeploysServe(Emptied(s), Asked(s, deploymentId, lease), deploymentId, lease);
  }

  /** From every reachable state before a stop, a deploy that nothing hinders
      drops the candidate an earlier one left, serves under the next
      generation on the ports it leased, and what it replaces is draining and
      retiring. */
  lemma UnhinderedDeploysServe(s: System, deploymentId: string, lease: nat)
    requires Inv(s) && s.tx.Quiet? && !s.m.stopping && lease < s.ports && !Leased(Emptied(s), lease)
    ensures ServesInstead(Emptied(s), Deployed(s, deploymentId, lease), deploymentId, lease)
  {
    DeploysServe(s, deploymentId, lease);
  }
}
