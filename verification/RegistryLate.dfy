/** An abandon that comes after its transaction has handed over: exactly when
    it lets the serving slot move down. */
module RegistryLate {
  import opened Wrappers
  import opened Registry
  import opened RegistrySystem
  import opened RegistrySteps
  import opened RegistryLaws
  import opened RegistryTokens
  import opened RegistryOrder
  import opened RegistryRuns
  import RegistryClean

  predicate NoLateAbandons(events: seq<Event>) {
    forall e :: e in events ==> !e.LateAbandon?
  }

  lemma {:induction false} RunsAppend(s: System, first: seq<Event>, second: seq<Event>)
    ensures Run(s, first + second) == Run(Run(s, first), second)
    decreases |first|
  {
    if first == [] {
      assert first + second == second;
    } else {
      assert (first + second)[1..] == first[1..] + second;
      RunsAppend(Happens(s, first[0]), first[1..], second);
    }
  }

  /** The threads can bring `s` to `end` without another late abandon. */
  ghost predicate Leads(s: System, end: System) {
    exists events :: NoLateAbandons(events) && Run(s, events) == end
  }

  lemma LeadsNowhere(s: System)
    ensures Leads(s, s)
  {
    assert NoLateAbandons([]) && Run(s, []) == s;
  }

  lemma LeadsByOne(s: System, event: Event, after: System)
    requires !event.LateAbandon? && after == Happens(s, event)
    ensures Leads(s, after)
  {
    assert [event][1..] == [];
    assert NoLateAbandons([event]) && Run(s, [event]) == after;
  }

  lemma LeadsOn(s: System, middle: System, end: System)
    requires Leads(s, middle) && Leads(middle, end)
    ensures Leads(s, end)
  {
    var first :| NoLateAbandons(first) && Run(s, first) == middle;
    var second :| NoLateAbandons(second) && Run(middle, second) == end;
    RunsAppend(s, first, second);
    assert NoLateAbandons(first + second) && Run(s, first + second) == end;
  }

  lemma LeadsByStep(s: System, step: SupStep)
    ensures Leads(s, SupHappens(s, step))
  {
    LeadsByOne(s, SupEvent(step), SupHappens(s, step));
  }

  lemma LeadsByTick(s: System, elapsed: nat)
    ensures Leads(s, s.(clock := s.clock + elapsed))
  {
    LeadsByOne(s, Tick(elapsed), s.(clock := s.clock + elapsed));
  }

  lemma LeadsByActivate(s: System)
    ensures Leads(s, ActivateEvent(s))
  {
    LeadsByOne(s, TxEvent(Activate), ActivateEvent(s));
  }

  /** `candidate` is abandoned and about to be activated, and a restart may
      still take the slot before it. */
  ghost predicate Overtakable(s: System, candidate: nat) {
    Inv(s) && !s.m.stopping && s.tx.Fenced? && s.m.candidate == Some(candidate) && s.m.abandoned && !Resting(s)
  }

  /** Nothing holds the restart of an overtakable candidate off. */
  predicate Free(s: System, candidate: nat) {
    && !s.m.stopping && !HeldByADeploy(s.m) && candidate < s.counter && !Resting(s)
    && (s.m.restart.InHand? ==> InWork(s.sup) == Some(s.m.restart.deploymentId))
    && (s.sup.Restarting? ==>
          && s.sup.launch == Launch(s.sup.owed.deploymentId, s.sup.owed.lease, None, true, s.sup.launch.stage)
          && (LaunchOwns(s.sup.launch).Some? ==> LaunchOwns(s.sup.launch).value !in s.m.byGeneration))
  }

  lemma OvertakableIsFree(s: System, candidate: nat)
    requires Overtakable(s, candidate)
    ensures Free(s, candidate) && !s.sup.ShuttingDown? && !s.sup.ShutDown?
  {
  }

  // ----- The supervision thread comes to the end of its step -----

  function Rank(sup: Sup): nat {
    match sup
    case Reaping(done) => 1 + |done|
    case Removing(_, _) => 1
    case Missed(_, _) => 1
    case Yielding(_) => 1
    case Restarting(_, launch) =>
      (match launch.stage
       case Entered => 7
       case Tokened => 6
       case Took(_) => 5
       case Checked(_) => 4
       case Cleared(_) => 3
       case Running(_) => 2)
    case Owing(_) => 8
    case _ => 0
  }

  /** The step leaves the candidate where it is, and the restart on its way. */
  predicate Nearer(s: System, after: System) {
    && after.tx == s.tx && after.m.candidate == s.m.candidate && after.m.abandoned == s.m.abandoned && !after.m.stopping
    && !Resting(after) && Rank(after.sup) < Rank(s.sup)
  }

  lemma RemovalsEnd(s: System, candidate: nat)
    requires Free(s, candidate) && s.sup.Removing?
    ensures Nearer(s, SettleRemovalEvent(s))
  {
    OwingChangesTheRestart(s.m, Owed(s.sup.member.deploymentId, s.sup.member.lease, s.sup.generation), s.now);
  }

  lemma MissesEnd(s: System, candidate: nat)
    requires Free(s, candidate) && s.sup.Missed?
    ensures Nearer(s, FinishMissedEvent(s))
  {
    OwingChangesTheRestart(s.m.(restarts := s.m.restarts + [s.now]), s.sup.owed, s.now);
  }

  lemma ReapsGoOn(s: System, candidate: nat, generation: nat)
    requires Free(s, candidate) && generation in SupStops(s.sup) && !s.sup.ShuttingDown?
    ensures Nearer(s, SupReapEvent(s, generation))
  {
    if s.sup.Reaping? {
      assert |s.sup.done - {generation}| == |s.sup.done| - 1;
    }
  }

  lemma ReapsEnd(s: System, candidate: nat)
    requires Free(s, candidate) && s.sup == Reaping({})
    ensures Nearer(s, EndReapEvent(s))
  {
  }

  lemma RestartsBegin(s: System, candidate: nat)
    requires Free(s, candidate) && s.sup.Owing?
    ensures Nearer(s, BeginRestartEvent(s, s.m.restart.InHand?))
  {
  }

  predicate Launching(s: System, candidate: nat, inHand: bool) {
    Free(s, candidate) && s.m.restart.InHand? == inHand && s.sup.Restarting? && !s.sup.launch.stage.Running?
  }

  /** A restart that is in hand goes on. */
  predicate GoesOn(s: System, after: System) {
    && Nearer(s, after)
    && s.sup.Restarting? && after.sup.Restarting? && after.sup.owed == s.sup.owed
    && after.m.restart == s.m.restart && after.served == s.served
    && (LaunchOwns(after.sup.launch) == LaunchOwns(s.sup.launch) || LaunchOwns(after.sup.launch) == Some(s.counter))
  }

  lemma ChecksGoOn(s: System, candidate: nat)
    requires Launching(s, candidate, true) && s.sup.launch.stage.Took?
    ensures GoesOn(s, SupLaunchEvent(s, true))
  {
  }

  lemma SpawnsGoOn(s: System, candidate: nat)
    requires Launching(s, candidate, true) && (s.sup.launch.stage.Checked? || s.sup.launch.stage.Cleared?)
    ensures GoesOn(s, SupLaunchEvent(s, true))
  {
  }

  lemma LaunchesGoOn(s: System, candidate: nat)
    requires Launching(s, candidate, true)
    ensures GoesOn(s, SupLaunchEvent(s, true))
  {
    if s.sup.launch.stage.Took? {
      ChecksGoOn(s, candidate);
    } else if s.sup.launch.stage.Checked? || s.sup.launch.stage.Cleared? {
      SpawnsGoOn(s, candidate);
    }
  }

  /** One that was taken over meanwhile misses. */
  lemma ChecksMiss(s: System, candidate: nat)
    requires Launching(s, candidate, false) && s.sup.launch.stage.Took?
    ensures Nearer(s, SupLaunchEvent(s, false))
  {
  }

  lemma SpawnsMiss(s: System, candidate: nat)
    requires Launching(s, candidate, false) && (s.sup.launch.stage.Checked? || s.sup.launch.stage.Cleared?)
    ensures Nearer(s, SupLaunchEvent(s, false))
  {
  }

  lemma LaunchesMiss(s: System, candidate: nat)
    requires Launching(s, candidate, false)
    ensures Nearer(s, SupLaunchEvent(s, false))
  {
    if s.sup.launch.stage.Took? {
      ChecksMiss(s, candidate);
    } else if s.sup.launch.stage.Checked? || s.sup.launch.stage.Cleared? {
      SpawnsMiss(s, candidate);
    }
  }

  lemma LaunchesFinish(s: System, candidate: nat)
    requires Free(s, candidate) && s.sup.Restarting? && s.sup.launch.stage.Running?
    ensures Nearer(s, FinishRestartEvent(s, 0))
    ensures s.m.restart.InHand? ==> FinishRestartEvent(s, 0).served == s.served + [s.sup.launch.stage.generation]
  {
  }

  lemma WorkGoesOn(s: System, candidate: nat) returns (step: SupStep)
    requires Free(s, candidate) && s.sup.Restarting?
    ensures Nearer(s, SupHappens(s, step))
  {
    if s.sup.launch.stage.Running? {
      LaunchesFinish(s, candidate);
      step := FinishRestart(0);
    } else if s.m.restart.InHand? {
      LaunchesGoOn(s, candidate);
      step := SupLaunch(true);
    } else {
      LaunchesMiss(s, candidate);
      step := SupLaunch(false);
    }
  }

  lemma RestGoesOn(s: System, candidate: nat) returns (step: SupStep)
    requires Free(s, candidate) && !s.sup.Restarting? && !s.sup.Calm? && !s.sup.ShuttingDown? && !s.sup.ShutDown?
    ensures Nearer(s, SupHappens(s, step))
  {
    if s.sup.Removing? {
      RemovalsEnd(s, candidate);
      step := SettleRemoval;
    } else if s.sup.Missed? {
      MissesEnd(s, candidate);
      step := FinishMissed;
    } else if s.sup.Owing? {
      RestartsBegin(s, candidate);
      step := BeginRestart(s.m.restart.InHand?);
    } else if SupStops(s.sup) == {} {
      ReapsEnd(s, candidate);
      step := EndReap;
    } else {
      var generation :| generation in SupStops(s.sup);
      ReapsGoOn(s, candidate, generation);
      step := SupReap(generation);
    }
  }

  lemma OneStepNearer(s: System, candidate: nat) returns (step: SupStep)
    requires Overtakable(s, candidate) && !s.sup.Calm?
    ensures Nearer(s, SupHappens(s, step)) && Overtakable(SupHappens(s, step), candidate)
  {
    OvertakableIsFree(s, candidate);
    if s.sup.Restarting? {
      step := WorkGoesOn(s, candidate);
    } else {
      step := RestGoesOn(s, candidate);
    }
    SupStepsKeepInv(s, step);
  }

  lemma {:induction false} StepsEnd(s: System, candidate: nat) returns (end: System)
    requires Overtakable(s, candidate)
    ensures Leads(s, end) && Overtakable(end, candidate) && end.sup.Calm?
    decreases Rank(s.sup)
  {
    if s.sup.Calm? {
      end := s;
      LeadsNowhere(s);
    } else {
      var step := OneStepNearer(s, candidate);
      end := StepsEnd(SupHappens(s, step), candidate);
      LeadsByStep(s, step);
      LeadsOn(s, SupHappens(s, step), end);
    }
  }

  // ----- A restart comes to be owed and taken up -----

  /** A restart is in hand whose generation, once taken, is above `candidate`. */
  ghost predicate Overtaking(s: System, candidate: nat) {
    && Overtakable(s, candidate) && s.m.restart.InHand?
    && (s.sup.Owing?
        || (s.sup.Restarting? && (LaunchOwns(s.sup.launch).None? || candidate < LaunchOwns(s.sup.launch).value)))
  }

  /** Time passes, and the next supervision step begins. */
  function Waited(s: System, elapsed: nat): System {
    s.(clock := s.clock + elapsed, now := s.clock + elapsed, supervised := true)
  }

  lemma LeadsByWaiting(s: System, elapsed: nat)
    requires s.sup.Calm?
    ensures Leads(s, Waited(s, elapsed))
  {
    var ticked := s.(clock := s.clock + elapsed);
    LeadsByTick(s, elapsed);
    LeadsByStep(ticked, BeginStep);
    assert SupHappens(ticked, BeginStep) == Waited(s, elapsed);
    LeadsOn(s, ticked, Waited(s, elapsed));
  }

  lemma WaitingKeepsItOvertakable(s: System, candidate: nat, elapsed: nat)
    requires Overtakable(s, candidate) && s.sup.Calm?
    ensures Overtakable(Waited(s, elapsed), candidate)
  {
    var ticked := s.(clock := s.clock + elapsed);
    assert Inv(ticked) by {
      TimeKeepsInv(s, elapsed, 0);
    }
    OvertakableIsFree(s, candidate);
    StepsBeginInOrder(ticked);
    assert BeginStepEvent(ticked) == Waited(s, elapsed);
  }

  lemma StepsBeginInOrder(s: System)
    requires Inv(s)
    ensures Inv(BeginStepEvent(s))
  {
    SteppingKeepsInv(s);
  }

  /** The supervision thread is between its steps, and a restart is due. */
  ghost predicate OwesARestart(s: System, candidate: nat) {
    Overtakable(s, candidate) && s.sup.Calm? && s.m.restart.Due?
  }

  lemma DueRestartsAreTakenUp(s: System, candidate: nat)
    requires Overtakable(s, candidate) && s.sup.Calm? && s.m.restart.Due? && s.m.restart.due <= s.now
    ensures Overtaking(SupHappens(s, StartOwed), candidate)
  {
    OvertakableIsFree(s, candidate);
    RestartingKeepsInv(s, false);
    assert Overtaking(StartOwedEvent(s), candidate);
  }

  lemma RestartsAreTakenUp(s: System, candidate: nat) returns (end: System)
    requires OwesARestart(s, candidate)
    ensures Leads(s, end) && Overtaking(end, candidate)
  {
    var later := Waited(s, s.m.restart.due);
    LeadsByWaiting(s, s.m.restart.due);
    WaitingKeepsItOvertakable(s, candidate, s.m.restart.due);
    DueRestartsAreTakenUp(later, candidate);
    end := SupHappens(later, StartOwed);
    LeadsByStep(later, StartOwed);
    LeadsOn(s, later, end);
  }

  lemma {:induction false} NothingIsRecentAfterTheWindow(made: seq<nat>, now: nat)
    requires forall i :: 0 <= i < |made| ==> made[i] + RESTART_WINDOW <= now
    ensures Recent(made, now) == []
    decreases |made|
  {
    if made == [] {
    } else {
      NothingIsRecentAfterTheWindow(made[1..], now);
    }
  }

  function Sum(made: seq<nat>): nat {
    if made == [] then 0 else made[0] + Sum(made[1..])
  }

  lemma {:induction false} NoneIsAboveTheSum(made: seq<nat>)
    ensures forall i :: 0 <= i < |made| ==> made[i] <= Sum(made)
    decreases |made|
  {
    if made == [] {
    } else {
      NoneIsAboveTheSum(made[1..]);
      assert forall i :: 0 < i < |made| ==> made[i] == made[1..][i - 1];
    }
  }

  lemma OvertakableServes(s: System, candidate: nat)
    requires Overtakable(s, candidate) && s.sup.Calm? && !s.m.restart.Due?
    ensures s.m.serving.Some? && s.m.serving.value in s.m.byGeneration && s.m.serving != Some(candidate)
    ensures !s.m.restart.InHand? && !s.m.restart.GivenUp?
  {
    OvertakableIsFree(s, candidate);
  }

  lemma StoppingMembersKeepsInv(s: System)
    requires Inv(s)
    ensures Inv(SettleRemovalEvent(TakeOutEvent(s)))
  {
    TakingOutKeepsInv(s);
    MissingKeepsInv(TakeOutEvent(s));
  }

  /** A serving member that stops after a quiet time is owed a restart. */
  lemma StoppedMembersAreDue(s: System, candidate: nat)
    requires Overtakable(s, candidate) && s.sup.Calm? && !s.m.restart.Due? && Recent(s.m.restarts, s.now) == []
    ensures OwesARestart(SettleRemovalEvent(TakeOutEvent(s)), candidate)
  {
    OvertakableServes(s, candidate);
    StoppingMembersKeepsInv(s);
    RegistryClean.StoppedMembersAreOwed(s);
  }

  /** Long after every restart that was made. */
  function QuietTime(s: System): nat {
    Sum(s.m.restarts) + RESTART_WINDOW
  }

  lemma QuietMembersAreDue(s: System, candidate: nat)
    requires Overtakable(s, candidate) && s.sup.Calm? && !s.m.restart.Due?
    ensures OwesARestart(SettleRemovalEvent(TakeOutEvent(Waited(s, QuietTime(s)))), candidate)
  {
    var later := Waited(s, QuietTime(s));
    WaitingKeepsItOvertakable(s, candidate, QuietTime(s));
    NoneIsAboveTheSum(s.m.restarts);
    NothingIsRecentAfterTheWindow(later.m.restarts, later.now);
    StoppedMembersAreDue(later, candidate);
  }

  lemma LeadsByStopping(s: System)
    ensures Leads(s, SettleRemovalEvent(TakeOutEvent(s)))
  {
    LeadsByStep(s, TakeOut);
    LeadsByStep(TakeOutEvent(s), SettleRemoval);
    LeadsOn(s, TakeOutEvent(s), SettleRemovalEvent(TakeOutEvent(s)));
  }

  lemma RestartsComeToBeDue(s: System, candidate: nat) returns (end: System)
    requires Overtakable(s, candidate) && s.sup.Calm?
    ensures Leads(s, end) && OwesARestart(end, candidate)
  {
    if s.m.restart.Due? {
      end := s;
      LeadsNowhere(s);
    } else {
      var later := Waited(s, QuietTime(s));
      end := SettleRemovalEvent(TakeOutEvent(later));
      QuietMembersAreDue(s, candidate);
      LeadsByWaiting(s, QuietTime(s));
      LeadsByStopping(later);
      LeadsOn(s, later, end);
    }
  }

  // ----- It serves above the candidate, and the candidate serves after it -----

  /** The slot went above `candidate`, which may still take it. */
  ghost predicate Overtaken(s: System, candidate: nat) {
    && Inv(s) && !s.m.stopping && s.tx.Fenced? && s.m.candidate == Some(candidate)
    && exists i :: 0 <= i < |s.served| && candidate < s.served[i]
  }

  /** The restart is one step further, or has served. */
  ghost predicate GetsOn(s: System, after: System, candidate: nat) {
    (Overtaking(after, candidate) && Rank(after.sup) < Rank(s.sup)) || Overtaken(after, candidate)
  }

  lemma BeginningOvertakes(s: System, candidate: nat)
    requires Overtaking(s, candidate) && s.sup.Owing?
    ensures GetsOn(s, SupHappens(s, BeginRestart(true)), candidate)
  {
    OvertakableIsFree(s, candidate);
    RestartsBegin(s, candidate);
    RestartingKeepsInv(s, true);
    assert Overtaking(BeginRestartEvent(s, true), candidate);
  }

  lemma LaunchingOvertakes(s: System, candidate: nat)
    requires Overtaking(s, candidate) && s.sup.Restarting? && !s.sup.launch.stage.Running?
    ensures GetsOn(s, SupHappens(s, SupLaunch(true)), candidate)
  {
    OvertakableIsFree(s, candidate);
    LaunchesGoOn(s, candidate);
    SupLaunchKeepsInv(s, true);
    assert Overtaking(SupLaunchEvent(s, true), candidate);
  }

  lemma ServingOvertakes(s: System, candidate: nat)
    requires Overtaking(s, candidate) && s.sup.Restarting? && s.sup.launch.stage.Running?
    ensures GetsOn(s, SupHappens(s, FinishRestart(0)), candidate)
  {
    OvertakableIsFree(s, candidate);
    LaunchesFinish(s, candidate);
    FinishingKeepsInv(s, 0);
    var served := FinishRestartEvent(s, 0).served;
    assert candidate < served[|served| - 1];
    assert Overtaken(FinishRestartEvent(s, 0), candidate);
  }

  lemma OneStepOn(s: System, candidate: nat) returns (step: SupStep)
    requires Overtaking(s, candidate)
    ensures GetsOn(s, SupHappens(s, step), candidate)
  {
    if s.sup.Owing? {
      BeginningOvertakes(s, candidate);
      step := BeginRestart(true);
    } else if !s.sup.launch.stage.Running? {
      LaunchingOvertakes(s, candidate);
      step := SupLaunch(true);
    } else {
      ServingOvertakes(s, candidate);
      step := FinishRestart(0);
    }
  }

  lemma {:induction false} RestartsOvertake(s: System, candidate: nat) returns (end: System)
    requires Overtaking(s, candidate)
    ensures Leads(s, end) && Overtaken(end, candidate)
    decreases Rank(s.sup)
  {
    var step := OneStepOn(s, candidate);
    var after := SupHappens(s, step);
    LeadsByStep(s, step);
    if Overtaken(after, candidate) {
      end := after;
    } else {
      end := RestartsOvertake(after, candidate);
      LeadsOn(s, after, end);
    }
  }

  lemma TheSlotMovesDown(s: System, candidate: nat)
    requires Overtaken(s, candidate)
    ensures !Rising(ActivateEvent(s).served)
  {
    FencedIsActivated(s);
    var served := ActivateEvent(s).served;
    var i :| 0 <= i < |s.served| && candidate < s.served[i];
    assert served[i] > served[|s.served|];
  }

  lemma OvertakableSlotsMoveDown(s: System, candidate: nat) returns (end: System)
    requires Overtakable(s, candidate)
    ensures Leads(s, end) && !Rising(end.served)
  {
    var calm := StepsEnd(s, candidate);
    var due := RestartsComeToBeDue(calm, candidate);
    var taken := RestartsAreTakenUp(due, candidate);
    var overtaken := RestartsOvertake(taken, candidate);
    end := ActivateEvent(overtaken);
    TheSlotMovesDown(overtaken, candidate);
    LeadsByActivate(overtaken);
    LeadsOn(s, calm, due);
    LeadsOn(s, due, taken);
    LeadsOn(s, taken, overtaken);
    LeadsOn(s, overtaken, end);
  }

  /** Whatever the supervision thread is in the middle of, an abandon that
      hits an exposed candidate lets a restart take the slot above it, and
      the activate that follows moves the slot down. */
  lemma ALateAbandonMovesTheSlotDown(s: System, deploymentId: string) returns (end: System)
    requires Inv(s) && Exposed(s, deploymentId)
    ensures Leads(LateAbandonEvent(s, deploymentId), end) && !Rising(end.served)
  {
    LateAbandonsKeepInv(s, deploymentId);
    end := OvertakableSlotsMoveDown(LateAbandonEvent(s, deploymentId), s.m.candidate.value);
  }

  lemma {:induction false} TimelyWithoutLateAbandons(s: System, events: seq<Event>)
    requires NoLateAbandons(events)
    ensures TimelyRun(s, events)
    decreases |events|
  {
    if events == [] {
    } else {
      assert events[0] in events;
      TimelyWithoutLateAbandons(Happens(s, events[0]), events[1..]);
    }
  }

  /** From every reachable state whose slot has only moved up: however the
      threads go on after a late abandon, the slot keeps moving up, if and
      only if the abandon does not hit an exposed candidate. */
  lemma LateAbandonsAreHarmlessExactlyWhen(s: System, deploymentId: string)
    requires Inv(s) && Rises(s)
    ensures (forall end | Leads(LateAbandonEvent(s, deploymentId), end) :: Rising(end.served)) <==>
        !Exposed(s, deploymentId)
  {
    var after := LateAbandonEvent(s, deploymentId);
    LateAbandonsKeepInv(s, deploymentId);
    if Exposed(s, deploymentId) {
      var end := ALateAbandonMovesTheSlotDown(s, deploymentId);
    } else {
      forall end | Leads(after, end) ensures Rising(end.served) {
        var events :| NoLateAbandons(events) && Run(after, events) == end;
        TimelyWithoutLateAbandons(after, events);
        RunsKeepInv(after, events);
      }
    }
  }
}
