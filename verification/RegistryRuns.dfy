/** The registry's invariant over every event and every run, and what it
    promises. */
module RegistryRuns {
  import opened Wrappers
  import opened Registry
  import opened RegistrySystem
  import opened RegistrySteps
  import opened RegistryLaws
  import opened RegistryTokens
  import opened RegistryOrder
  import opened RegistryLeases
  import Ports

  ghost predicate Inv(s: System) {
    Kept(s) && Order(s) && Leases(s) && Listens(s)
  }

  ghost predicate KeepsInv(s: System, after: System) {
    Inv(after) && (Rises(s) ==> Rises(after))
  }

  // ----- The kinds of steps -----

  lemma TxMovesKeepInv(s: System, after: System)
    requires Inv(s) && TxMoved(s, after)
    ensures KeepsInv(s, after)
  {
    TxMovesKeepPlaces(s, after);
    MovesKeepTheCount(s, after);
    TxMovesKeepOrder(s, after);
    TxMovesKeepLeases(s, after);
    TxMovesKeepListening(s, after);
  }

  lemma SupMovesKeepInv(s: System, after: System)
    requires Inv(s) && SupMoved(s, after)
    ensures KeepsInv(s, after)
  {
    SupMovesKeepPlaces(s, after);
    MovesKeepTheCount(s, after);
    SupMovesKeepOrder(s, after);
    SupMovesKeepLeases(s, after);
    SupMovesKeepListening(s, after);
  }

  lemma DisplacingKeepsInv(s: System, after: System)
    requires Inv(s) && Displaces(s, after)
    ensures KeepsInv(s, after)
  {
    DisplacingKeepsPlaces(s, after);
    DrainingKeepsTheCount(s, after, s.m.candidate);
    DisplacingKeepsOrder(s, after);
    DrainingKeepsLeases(s, after, s.m.candidate);
    DrainingKeepsListening(s, after, s.m.candidate);
  }

  lemma AdmittingKeepsInv(s: System, after: System)
    requires Inv(s) && Admits(s, after)
    ensures KeepsInv(s, after)
  {
    AdmittingKeepsPlaces(s, after);
    AdmittingKeepsTheCount(s, after);
    AdmittingKeepsOrder(s, after);
    AdmittingKeepsLeases(s, after);
    AdmittingKeepsListening(s, after);
  }

  lemma StoppingInsteadKeepsInv(s: System, after: System)
    requires Inv(s) && StopsInstead(s, after)
    ensures KeepsInv(s, after)
  {
    StoppingInsteadKeepsPlaces(s, after);
    StoppingInsteadKeepsTheCount(s, after);
    StoppingInsteadKeepsOrder(s, after);
    StoppingInsteadKeepsLeases(s, after);
    StoppingInsteadKeepsListening(s, after);
  }

  lemma ActivatingKeepsInv(s: System, after: System)
    requires Inv(s) && Activates(s, after)
    ensures KeepsInv(s, after)
  {
    ActivatingKeepsPlaces(s, after);
    DrainingKeepsTheCount(s, after, s.m.serving);
    ActivatingKeepsOrder(s, after);
    DrainingKeepsLeases(s, after, s.m.serving);
    DrainingKeepsListening(s, after, s.m.serving);
  }

  lemma ReapingKeepsInv(s: System, after: System, generation: nat)
    requires Inv(s) && Reaps(s, after, generation)
    ensures KeepsInv(s, after)
  {
    ReapingKeepsPlaces(s, after, generation);
    ReapingKeepsTheCount(s, after, generation);
    ReapingKeepsOrder(s, after, generation);
    ReapingKeepsLeases(s, after, generation);
    ReapingKeepsListening(s, after, generation);
  }

  lemma OwingTheCandidateKeepsInv(s: System, after: System)
    requires Inv(s) && OwesTheCandidate(s, after)
    ensures KeepsInv(s, after)
  {
    OwingTheCandidateKeepsPlaces(s, after);
    OwingTheCandidateKeepsTheCount(s, after);
    OwingTheCandidateKeepsOrder(s, after);
    OwingTheCandidateKeepsLeases(s, after);
    OwingTheCandidateKeepsListening(s, after);
  }

  // ----- The transaction thread -----

  lemma InvIsSteady(s: System)
    requires Inv(s)
    ensures Steady(s)
  {
    OwnIsDraining(s);
  }

  lemma TxLaunchKeepsInv(s: System, ok: bool)
    requires Inv(s)
    ensures KeepsInv(s, TxLaunchEvent(s, ok))
  {
    if s.tx.Launching? {
      InvIsSteady(s);
      TxLaunchMoves(s, ok);
      TxMovesKeepInv(s, TxLaunchEvent(s, ok));
    }
  }

  lemma HoldingKeepsInv(s: System, ok: bool)
    requires Inv(s)
    ensures KeepsInv(s, HoldEvent(s)) && KeepsInv(s, TakeGenerationEvent(s, ok))
  {
    InvIsSteady(s);
    HoldingMoves(s, ok);
    if s.tx.Quiet? {
      TxMovesKeepInv(s, HoldEvent(s));
    } else if s.tx.Held? {
      TxMovesKeepInv(s, TakeGenerationEvent(s, ok));
    }
  }

  lemma LeasingKeepsInv(s: System, lease: nat)
    requires Inv(s)
    ensures KeepsInv(s, LeasePortsEvent(s, lease)) && KeepsInv(s, NoPortsEvent(s))
  {
    if s.tx.Preparing? && s.tx.stops == {} {
      InvIsSteady(s);
      LeasingMoves(s, lease);
      TxMovesKeepInv(s, NoPortsEvent(s));
      if LeasePortsEvent(s, lease) != s {
        TxMovesKeepInv(s, LeasePortsEvent(s, lease));
      }
    }
  }

  lemma ReleasingKeepsInv(s: System)
    requires Inv(s)
    ensures KeepsInv(s, ReleaseEvent(s)) && KeepsInv(s, AbandonEvent(s)) && KeepsInv(s, DiscardedEvent(s))
  {
    InvIsSteady(s);
    if s.tx.Returning? && s.tx.stops == {} {
      ReleasingMoves(s);
      TxMovesKeepInv(s, ReleaseEvent(s));
    } else if s.tx.Failing? {
      AbandoningMoves(s);
      TxMovesKeepInv(s, AbandonEvent(s));
    } else if s.tx.Discarding? {
      DiscardedMoves(s);
      TxMovesKeepInv(s, DiscardedEvent(s));
    }
  }

  lemma FailingKeepsInv(s: System, ok: bool)
    requires Inv(s)
    ensures KeepsInv(s, GiveUpEvent(s)) && KeepsInv(s, FenceEvent(s, ok))
  {
    InvIsSteady(s);
    if s.tx.Ready? || s.tx.Fenced? || s.tx.Taken? {
      GivingUpMoves(s);
      TxMovesKeepInv(s, GiveUpEvent(s));
      if s.tx.Ready? {
        FencingMoves(s, ok);
        TxMovesKeepInv(s, FenceEvent(s, ok));
      }
    }
  }

  lemma DiscardingKeepsInv(s: System)
    requires Inv(s)
    ensures KeepsInv(s, DiscardEvent(s))
  {
    DiscardingKeepsPlaces(s);
    DiscardingKeepsTheCount(s);
    DiscardingKeepsOrder(s);
    DiscardingKeepsLeases(s);
    DiscardingKeepsListening(s);
  }

  lemma PreparingKeepsInv(s: System, deploymentId: string)
    requires Inv(s)
    ensures KeepsInv(s, PrepareEvent(s, deploymentId)) && KeepsInv(s, AdmitCandidateEvent(s))
  {
    if s.tx.Quiet? || s.tx.Taken? {
      PrepareDisplaces(s, deploymentId);
      DisplacingKeepsInv(s, PrepareEvent(s, deploymentId));
    }
    AdmitAdmits(s);
    var after := AdmitCandidateEvent(s);
    if Admits(s, after) {
      AdmittingKeepsInv(s, after);
    } else if StopsInstead(s, after) {
      StoppingInsteadKeepsInv(s, after);
    }
  }

  lemma ActivateKeepsInv(s: System)
    requires Inv(s)
    ensures KeepsInv(s, ActivateEvent(s))
  {
    if s.tx.Fenced? {
      ActivatedDrains(s.m, s.tx.deploymentId);
      if Activated(s.m, s.tx.deploymentId).Some? {
        ActivatingKeepsInv(s, ActivateEvent(s));
      } else {
        TxMovesKeepInv(s, ActivateEvent(s));
      }
    }
  }

  /** `s` without the serving member, and without the candidate, of `id`. */
  function Unserved(s: System, id: string): System {
    s.(m := UnloadServing(s.m, id))
  }

  function Unprepared(s: System, id: string): System {
    s.(m := UnloadCandidate(s.m, id),
       tx := Switched(if SlotNames(s.m.byGeneration, s.m.candidate, id) then SlotSet(s.m.candidate) else {}))
  }

  lemma UnloadingTheServingKeepsInv(s: System, id: string)
    requires Inv(s) && s.tx == Switched({})
    ensures KeepsInv(s, Unserved(s, id))
  {
    var after := Unserved(s, id);
    UnloadingTheServingKeepsPlaces(s, id);
    UnloadingTheServingKeepsOrder(s, id);
    UnloadServingDrains(s.m, id);
    var slot := if SlotNames(s.m.byGeneration, s.m.serving, id) then s.m.serving else None;
    DrainingKeepsTheCount(s, after, slot);
    DrainingKeepsLeases(s, after, slot);
    DrainingKeepsListening(s, after, slot);
  }

  lemma UnloadingTheCandidateKeepsInv(s: System, id: string)
    requires Inv(s) && s.tx == Switched({})
    ensures KeepsInv(s, Unprepared(s, id))
  {
    var slot := if SlotNames(s.m.byGeneration, s.m.candidate, id) then s.m.candidate else None;
    var after := Unprepared(s, id);
    UnloadingTheCandidateKeepsPlaces(s, id);
    UnloadingTheCandidateKeepsOrder(s, id, SlotSet(slot));
    UnloadCandidateDrains(s.m, id);
    DrainingKeepsTheCount(s, after, slot);
    DrainingKeepsLeases(s, after, slot);
    DrainingKeepsListening(s, after, slot);
  }

  lemma ForgettingKeepsInv(s: System)
    requires Inv(s) && Promised(s.tx).None?
    ensures KeepsInv(s, Forgotten(s))
  {
    ForgettingKeepsPlaces(s);
    ForgettingKeepsOrder(s);
    RestCarries(s, Forgotten(s));
  }

  lemma UnloadsComeInSteps(s: System, id: string)
    requires Placed(s) && s.tx == Switched({})
    ensures var unprepared := Unprepared(Unserved(s, id), id);
            UnloadEvent(s, Some(id)) == if RestartNames(s.m, id) then Forgotten(unprepared) else unprepared
    ensures Promised(Unprepared(Unserved(s, id), id).tx).None?
  {
    UnloadServingDrains(s.m, id);
    UnloadCandidateDrains(UnloadServing(s.m, id), id);
  }

  lemma UnloadKeepsInv(s: System, replaced: Option<string>)
    requires Inv(s)
    ensures KeepsInv(s, UnloadEvent(s, replaced))
  {
    if s.tx.Switched? && s.tx.stops == {} {
      if replaced.Some? {
        UnloadingTheServingKeepsInv(s, replaced.value);
        UnloadingTheCandidateKeepsInv(Unserved(s, replaced.value), replaced.value);
        UnloadsComeInSteps(s, replaced.value);
        ForgettingKeepsInv(Unprepared(Unserved(s, replaced.value), replaced.value));
      } else {
        TxMovesKeepInv(s, UnloadEvent(s, replaced));
      }
    }
  }

  // ----- The supervision thread -----

  lemma WatchingKeepsInv(s: System, done: set<nat>)
    requires Inv(s)
    ensures KeepsInv(s, WatchRetiringEvent(s, done))
  {
    if s.sup.Calm? && done <= s.m.retiring {
      WatchingKeepsPlaces(s, done);
      WatchingKeepsOrder(s, done);
      RestCarries(s, WatchRetiringEvent(s, done));
    }
  }

  lemma SteppingKeepsInv(s: System)
    requires Inv(s)
    ensures KeepsInv(s, BeginStepEvent(s)) && KeepsInv(s, EndReapEvent(s)) && KeepsInv(s, FindReadyEvent(s))
        && KeepsInv(s, EndShutdownEvent(s))
  {
    InvIsSteady(s);
    WatchingMoves(s);
    EndingMoves(s);
    EndingTheStopMoves(s);
    SupMovesKeepInv(s, BeginStepEvent(s));
    SupMovesKeepInv(s, EndReapEvent(s));
    SupMovesKeepInv(s, FindReadyEvent(s));
    SupMovesKeepInv(s, EndShutdownEvent(s));
  }

  lemma RestartingKeepsInv(s: System, readable: bool)
    requires Inv(s)
    ensures KeepsInv(s, StartOwedEvent(s)) && KeepsInv(s, FindAnotherBundleEvent(s))
        && KeepsInv(s, BeginRestartEvent(s, readable))
  {
    InvIsSteady(s);
    StartingMoves(s);
    if s.sup.Calm? && StartOwedEvent(s) != s {
      SupMovesKeepInv(s, StartOwedEvent(s));
    } else if s.sup.Owing? {
      OtherBundlesMove(s);
      BeginningMoves(s, readable);
      SupMovesKeepInv(s, FindAnotherBundleEvent(s));
      SupMovesKeepInv(s, BeginRestartEvent(s, readable));
    }
  }

  lemma SupLaunchKeepsInv(s: System, ok: bool)
    requires Inv(s)
    ensures KeepsInv(s, SupLaunchEvent(s, ok))
  {
    if s.sup.Restarting? {
      InvIsSteady(s);
      SupLaunchMoves(s, ok);
      SupMovesKeepInv(s, SupLaunchEvent(s, ok));
    }
  }

  lemma MissingKeepsInv(s: System)
    requires Inv(s)
    ensures KeepsInv(s, FinishMissedEvent(s)) && KeepsInv(s, SettleRemovalEvent(s))
  {
    InvIsSteady(s);
    if s.sup.Missed? {
      MissingMoves(s);
      SupMovesKeepInv(s, FinishMissedEvent(s));
    } else if s.sup.Removing? {
      RemovingMoves(s);
      SupMovesKeepInv(s, SettleRemovalEvent(s));
    }
  }

  lemma TakingOutKeepsInv(s: System)
    requires Inv(s)
    ensures KeepsInv(s, TakeOutEvent(s))
  {
    TakingOutKeepsPlaces(s);
    TakingOutKeepsTheCount(s);
    TakingOutKeepsOrder(s);
    TakingOutKeepsLeases(s);
    TakingOutKeepsListening(s);
  }

  lemma ServingKeepsInv(s: System, deadline: nat)
    requires Inv(s) && s.sup.Restarting? && s.sup.launch.stage.Running?
    requires RestartInHand(s.m, s.sup.owed.deploymentId) && !HeldByADeploy(s.m)
    ensures KeepsInv(s, RestartServes(s, s.sup.launch, s.sup.launch.stage.generation, deadline))
  {
    ServingKeepsPlaces(s, deadline);
    ServingKeepsTheCount(s, deadline);
    ServingKeepsOrder(s, deadline);
    ServingKeepsLeases(s, deadline);
    ServingKeepsListening(s, deadline);
  }

  lemma YieldingKeepsInv(s: System)
    requires Inv(s) && s.sup.Restarting? && s.sup.launch.stage.Running?
    requires RestartInHand(s.m, s.sup.owed.deploymentId) ==> HeldByADeploy(s.m)
    ensures KeepsInv(s,
        RestartYields(s, s.sup.owed, s.sup.launch, s.sup.launch.stage.generation,
                      RestartInHand(s.m, s.sup.owed.deploymentId)))
  {
    var inHand := RestartInHand(s.m, s.sup.owed.deploymentId);
    YieldingKeepsPlaces(s, inHand);
    YieldingKeepsTheCount(s, inHand);
    YieldingKeepsOrder(s, inHand);
    YieldingKeepsLeases(s);
    YieldingKeepsListening(s, inHand);
  }

  lemma FinishingKeepsInv(s: System, deadline: nat)
    requires Inv(s)
    ensures KeepsInv(s, FinishRestartEvent(s, deadline))
  {
    if s.sup.Restarting? && s.sup.launch.stage.Running? {
      if RestartInHand(s.m, s.sup.owed.deploymentId) && !HeldByADeploy(s.m) {
        ServingKeepsInv(s, deadline);
      } else {
        YieldingKeepsInv(s);
      }
    }
  }

  lemma TxReapsKeepInv(s: System, generation: nat)
    requires Inv(s)
    ensures KeepsInv(s, TxReapEvent(s, generation))
  {
    if generation in TxStops(s.tx) {
      TxReapReaps(s, generation);
      ReapingKeepsInv(s, TxReapEvent(s, generation), generation);
    }
  }

  lemma SupReapsKeepInv(s: System, generation: nat)
    requires Inv(s)
    ensures KeepsInv(s, SupReapEvent(s, generation))
  {
    if generation in SupStops(s.sup) {
      SupReapReaps(s, generation);
      ReapingKeepsInv(s, SupReapEvent(s, generation), generation);
    }
  }

  lemma ShuttingDownKeepsInv(s: System)
    requires Inv(s)
    ensures KeepsInv(s, ShutdownEvent(s))
  {
    ShuttingDownKeepsPlaces(s);
    ShuttingDownKeepsTheCount(s);
    ShuttingDownKeepsOrder(s);
    ShuttingDownKeepsLeases(s);
    ShuttingDownKeepsListening(s);
  }

  /** A restore that found its ports is owed on them. */
  lemma RestoresAreOwed(s: System, deploymentId: string, lease: nat, named: nat)
    requires Steady(s) && s.sup.Calm? && s.tx.Quiet? && s.m.serving.None? && !HeldByADeploy(s.m)
    requires lease < s.ports && !Leased(s, lease) && named < s.counter
    ensures SupMoved(s,
        s.(m := OweRestart(s.m.(restart := InHand(deploymentId)), Owed(deploymentId, lease, named), s.clock),
                           owedAt := s.clock))
  {
    OwingChangesTheRestart(s.m.(restart := InHand(deploymentId)), Owed(deploymentId, lease, named), s.clock);
  }

  lemma OwingARestoreKeepsInv(s: System, deploymentId: string, lease: nat, named: nat)
    requires Inv(s)
    ensures KeepsInv(s, OweRestoreEvent(s, deploymentId, lease, named))
  {
    var after := OweRestoreEvent(s, deploymentId, lease, named);
    if after != s {
      if SlotNames(s.m.byGeneration, s.m.candidate, deploymentId) {
        var generation := s.m.candidate.value;
        OwingChangesTheRestart(TakeCandidate(s.m).0.(restart := InHand(deploymentId)),
                               Owed(deploymentId, s.m.byGeneration[generation].lease, generation), s.clock);
        OwingTheCandidateKeepsInv(s, after);
      } else {
        InvIsSteady(s);
        RestoresAreOwed(s, deploymentId, lease, named);
        SupMovesKeepInv(s, after);
      }
    }
  }

  // ----- Every event, every run -----

  lemma TxStepsKeepInv(s: System, step: TxStep)
    requires Inv(s)
    ensures KeepsInv(s, TxHappens(s, step))
  {
    match step
    case Hold => HoldingKeepsInv(s, false);
    case TakeGeneration(ok) => HoldingKeepsInv(s, ok);
    case Prepare(deploymentId) => PreparingKeepsInv(s, deploymentId);
    case TxReap(generation) => TxReapsKeepInv(s, generation);
    case LeasePorts(lease) => LeasingKeepsInv(s, lease);
    case NoPorts => LeasingKeepsInv(s, 0);
    case TxLaunch(ok) => TxLaunchKeepsInv(s, ok);
    case AdmitCandidate => PreparingKeepsInv(s, "");
    case Release => ReleasingKeepsInv(s);
    case Discard => DiscardingKeepsInv(s);
    case Discarded => ReleasingKeepsInv(s);
    case GiveUp => FailingKeepsInv(s, false);
    case Fence(ok) => FailingKeepsInv(s, ok);
    case Abandon => ReleasingKeepsInv(s);
    case Activate => ActivateKeepsInv(s);
    case Unload(replaced) => UnloadKeepsInv(s, replaced);
  }

  lemma SupStepsKeepInv(s: System, step: SupStep)
    requires Inv(s)
    ensures KeepsInv(s, SupHappens(s, step))
  {
    match step
    case BeginStep => SteppingKeepsInv(s);
    case WatchRetiring(done) => WatchingKeepsInv(s, done);
    case SupReap(generation) => SupReapsKeepInv(s, generation);
    case EndReap => SteppingKeepsInv(s);
    case TakeOut => TakingOutKeepsInv(s);
    case SettleRemoval => MissingKeepsInv(s);
    case FindReady => SteppingKeepsInv(s);
    case StartOwed => RestartingKeepsInv(s, false);
    case FindAnotherBundle => RestartingKeepsInv(s, false);
    case BeginRestart(readable) => RestartingKeepsInv(s, readable);
    case SupLaunch(ok) => SupLaunchKeepsInv(s, ok);
    case FinishRestart(deadline) => FinishingKeepsInv(s, deadline);
    case FinishMissed => MissingKeepsInv(s);
    case Shutdown => ShuttingDownKeepsInv(s);
    case EndShutdown => SteppingKeepsInv(s);
  }

  lemma TimeKeepsInv(s: System, elapsed: nat, generation: nat)
    requires Inv(s)
    ensures KeepsInv(s, s.(clock := s.clock + elapsed)) && KeepsInv(s, s.(alive := s.alive - {generation}))
  {
    InvIsSteady(s);
    TimeMoves(s, elapsed, generation);
    SupMovesKeepInv(s, s.(clock := s.clock + elapsed));
    SupMovesKeepInv(s, s.(alive := s.alive - {generation}));
  }

  /** The candidate a late abandon hits is about to be activated, and a
      restart may still take the slot before it. */
  predicate Exposed(s: System, deploymentId: string) {
    !s.m.stopping && s.tx.Fenced? && SlotNames(s.m.byGeneration, s.m.candidate, deploymentId) && !Resting(s)
  }

  lemma LateAbandonsMoveAPlace(s: System, deploymentId: string)
    ensures MovesAPlace(s, LateAbandonEvent(s, deploymentId))
  {
  }

  lemma LateAbandonsKeepTheLaws(s: System, deploymentId: string)
    requires Inv(s)
    ensures Inv(LateAbandonEvent(s, deploymentId))
  {
    LateAbandonsMoveAPlace(s, deploymentId);
    LateAbandonsKeepPlaces(s, deploymentId);
    LateAbandonsKeepOrder(s, deploymentId);
    RestCarries(s, LateAbandonEvent(s, deploymentId));
  }

  lemma LateAbandonsKeepInv(s: System, deploymentId: string)
    requires Inv(s)
    ensures Inv(LateAbandonEvent(s, deploymentId))
    ensures Rises(s) && !Exposed(s, deploymentId) ==> Rises(LateAbandonEvent(s, deploymentId))
  {
    LateAbandonsKeepTheLaws(s, deploymentId);
    if Rises(s) && !Exposed(s, deploymentId) {
      LateAbandonsKeepRising(s, deploymentId);
    }
  }

  lemma LateAbandonsKeepRising(s: System, deploymentId: string)
    requires Placed(s) && Rises(s) && !Exposed(s, deploymentId)
    ensures Rises(LateAbandonEvent(s, deploymentId))
  {
  }

  /** No late abandon hits an exposed candidate. */
  predicate Timely(s: System, event: Event) {
    event.LateAbandon? ==> !Exposed(s, event.deploymentId)
  }

  lemma EventsKeepInv(s: System, event: Event)
    requires Inv(s)
    ensures Inv(Happens(s, event))
    ensures Rises(s) && Timely(s, event) ==> Rises(Happens(s, event))
  {
    match event
    case Tick(elapsed) => TimeKeepsInv(s, elapsed, 0);
    case Exits(generation) => TimeKeepsInv(s, 0, generation);
    case OweRestore(deploymentId, lease, named) => OwingARestoreKeepsInv(s, deploymentId, lease, named);
    case LateAbandon(deploymentId) => LateAbandonsKeepInv(s, deploymentId);
    case TxEvent(step) => TxStepsKeepInv(s, step);
    case SupEvent(step) => SupStepsKeepInv(s, step);
  }

  ghost predicate TimelyRun(s: System, events: seq<Event>)
    decreases |events|
  {
    events == [] || (Timely(s, events[0]) && TimelyRun(Happens(s, events[0]), events[1..]))
  }

  lemma {:induction false} RunsKeepInv(s: System, events: seq<Event>)
    requires Inv(s)
    ensures Inv(Run(s, events))
    ensures Rises(s) && TimelyRun(s, events) ==> Rises(Run(s, events))
    decreases |events|
  {
    if events == [] {
    } else {
      EventsKeepInv(s, events[0]);
      RunsKeepInv(Happens(s, events[0]), events[1..]);
    }
  }

  // ----- What it promises -----

  lemma StartHolds(counter: nat, ports: nat)
    ensures Inv(Start(counter, ports)) && Rises(Start(counter, ports))
  {
  }

  /** Over every interleaving in which no abandon of a transaction that has
      handed over hits an exposed candidate, the generations that take the
      serving slot strictly increase. */
  lemma ServedGenerationsRise(counter: nat, ports: nat, events: seq<Event>)
    requires TimelyRun(Start(counter, ports), events)
    ensures Rising(Run(Start(counter, ports), events).served)
  {
    StartHolds(counter, ports);
    RunsKeepInv(Start(counter, ports), events);
  }

  /** A generation taken under a hold is above every generation the registry
      holds when its launch is checked: the check never turns it away. */
  lemma HandedGenerationsPassTheCheck(counter: nat, ports: nat, events: seq<Event>, ok: bool)
    requires var s := Run(Start(counter, ports), events);
             !s.m.stopping && s.tx.Launching? && s.tx.launch.stage.Took? && s.tx.launch.handed.Some?
    ensures var s := Run(Start(counter, ports), events);
            var launch := s.tx.launch;
            && (forall g :: g in s.m.byGeneration || g in s.m.draining ==> g < launch.handed.value)
            && TxHappens(s, TxLaunch(ok)) == s.(tx := Launching(launch.(stage := Checked(launch.handed.value))))
  {
    StartHolds(counter, ports);
    RunsKeepInv(Start(counter, ports), events);
    var s := Run(Start(counter, ports), events);
    HandedGenerationsAreAdmissible(s);
  }

  /** No restart takes the serving slot while a hold or a live candidate
      stands. */
  lemma OnlyAnActivateServesUnderAHold(s: System, event: Event)
    requires HeldByADeploy(s.m) && Happens(s, event).served != s.served
    ensures event == TxEvent(Activate)
  {
    match event
    case TxEvent(step) => TxStepsLeaveSupervision(s, step);
    case SupEvent(step) => HeldRestartsServeNothing(s, step);
    case _ =>
  }

  lemma HeldRestartsServeNothing(s: System, step: SupStep)
    requires HeldByADeploy(s.m)
    ensures SupHappens(s, step).served == s.served
  {
    if step.SupLaunch? && s.sup.Restarting? {
      LaunchStepsTouchLittle(s, s.sup.launch, step.ok);
    }
  }

  /** A transaction that was fenced takes the serving slot when it asks for
      it, unless a stop has begun. */
  lemma FencedCandidatesAreActivated(counter: nat, ports: nat, events: seq<Event>)
    requires Run(Start(counter, ports), events).tx.Fenced?
    ensures var s := Run(Start(counter, ports), events);
            ActivatedFrom(s, TxHappens(s, Activate))
  {
    StartHolds(counter, ports);
    RunsKeepInv(Start(counter, ports), events);
    FencedIsActivated(Run(Start(counter, ports), events));
  }

  ghost predicate ActivatedFrom(s: System, after: System) {
    if s.m.stopping then after == s.(tx := Quiet)
    else
      && s.m.candidate.Some? && after.m.serving == s.m.candidate && after.m.candidate.None?
      && after.served == s.served + [s.m.candidate.value]
      && after.m.restart.Idle? && after.m.restarts == []
      && (s.m.serving.Some? ==> s.m.serving.value in after.m.retiring && s.m.serving.value in after.m.draining)
  }

  lemma FencedIsActivated(s: System)
    requires Placed(s) && s.tx.Fenced?
    ensures ActivatedFrom(s, ActivateEvent(s))
  {
    ActivatedDrains(s.m, s.tx.deploymentId);
  }

  predicate SlotsAreTheMap(m: Members) {
    && (!m.stopping ==>
          m.byGeneration.Keys == SlotSet(m.serving) + SlotSet(m.candidate)
              && SlotSet(m.serving) !! SlotSet(m.candidate))
    && (m.restart.Due? || m.restart.InHand? || m.restart.GivenUp? ==> m.serving.None?)
  }

  lemma PlacedSlotsAreTheMap(s: System)
    requires Placed(s)
    ensures SlotsAreTheMap(s.m)
  {
  }

  /** At every lock release before a stop the map holds exactly the serving
      and the candidate generation, and a restart that is due, in hand or
      given up has left the serving slot empty. */
  lemma SlotsNameTheMembers(counter: nat, ports: nat, events: seq<Event>)
    ensures SlotsAreTheMap(Run(Start(counter, ports), events).m)
  {
    StartHolds(counter, ports);
    RunsKeepInv(Start(counter, ports), events);
    PlacedSlotsAreTheMap(Run(Start(counter, ports), events));
  }

  // ----- After a stop -----

  lemma SupStepsKeepTheStop(s: System, step: SupStep)
    ensures s.m.stopping ==> SupHappens(s, step).m.stopping
    ensures SupHappens(s, step).ports == s.ports
  {
    if step.SupLaunch? && s.sup.Restarting? {
      LaunchStepsTouchLittle(s, s.sup.launch, step.ok);
    }
  }

  lemma {:induction false} RunsKeepThePool(s: System, events: seq<Event>)
    ensures Run(s, events).ports == s.ports
    decreases |events|
  {
    if events == [] {
    } else {
      match events[0] {
        case TxEvent(step) => TxStepsLeaveSupervision(s, step);
        case SupEvent(step) => SupStepsKeepTheStop(s, step);
        case _ =>
      }
      RunsKeepThePool(Happens(s, events[0]), events[1..]);
    }
  }

  lemma {:induction false} StopsLast(s: System, events: seq<Event>)
    requires s.m.stopping
    ensures Run(s, events).m.stopping
    decreases |events|
  {
    if events == [] {
    } else {
      match events[0] {
        case TxEvent(step) => TxStepsLeaveSupervision(s, step);
        case SupEvent(step) => SupStepsKeepTheStop(s, step);
        case _ =>
      }
      StopsLast(Happens(s, events[0]), events[1..]);
    }
  }

  /** Once a stop has begun no member is admitted again. */
  lemma NothingIsAdmittedAfterAStop(counter: nat, ports: nat, events: seq<Event>, more: seq<Event>)
    requires Run(Start(counter, ports), events).m.stopping
    ensures var later := Run(Run(Start(counter, ports), events), more);
            later.m.byGeneration == map[] && later.m.serving.None? && later.m.candidate.None?
  {
    StartHolds(counter, ports);
    RunsKeepInv(Start(counter, ports), events);
    RunsKeepInv(Run(Start(counter, ports), events), more);
    StopsLast(Run(Start(counter, ports), events), more);
  }

  lemma TxStepsStartNothing(s: System, step: TxStep)
    requires Inv(s) && s.sup.ShutDown? && s.m.outside == 0
    ensures var after := TxHappens(s, step);
            after.sup.ShutDown? && after.m.outside == 0
  {
    NothingRunsAfterAStop(s);
  }

  lemma EventsStartNothing(s: System, event: Event)
    requires Inv(s) && s.sup.ShutDown? && s.m.outside == 0
    ensures Happens(s, event).sup.ShutDown? && Happens(s, event).m.outside == 0
  {
    match event
    case TxEvent(step) => TxStepsStartNothing(s, step);
    case SupEvent(step) => SupStepsDoNothing(s, step);
    case _ =>
  }

  lemma SupStepsDoNothing(s: System, step: SupStep)
    requires s.sup.ShutDown?
    ensures SupHappens(s, step) == s
  {
  }

  lemma {:induction false} StoppedRegistriesStayEmpty(s: System, events: seq<Event>)
    requires Inv(s) && s.sup.ShutDown? && s.m.outside == 0
    ensures Run(s, events).alive == map[]
    decreases |events|
  {
    NothingRunsAfterAStop(s);
    if events == [] {
    } else {
      EventsKeepInv(s, events[0]);
      EventsStartNothing(s, events[0]);
      StoppedRegistriesStayEmpty(Happens(s, events[0]), events[1..]);
    }
  }

  /** When a stop returns with nothing counted outside, no worker runs and,
      whatever the threads still do, none is started again. */
  lemma NothingRunsOnceAStopReturned(counter: nat, ports: nat, events: seq<Event>, more: seq<Event>)
    requires var s := Run(Start(counter, ports), events); s.sup.ShutDown? && s.m.outside == 0
    ensures Run(Run(Start(counter, ports), events), more).alive == map[]
  {
    StartHolds(counter, ports);
    RunsKeepInv(Start(counter, ports), events);
    StoppedRegistriesStayEmpty(Run(Start(counter, ports), events), more);
  }

  /** No two running workers hold the same ports. */
  lemma WorkersDoNotShareLeases(counter: nat, ports: nat, events: seq<Event>, g: nat, h: nat)
    requires var alive := Run(Start(counter, ports), events).alive; g in alive && h in alive && g != h
    ensures var alive := Run(Start(counter, ports), events).alive; alive[g] != alive[h]
  {
    StartHolds(counter, ports);
    RunsKeepInv(Start(counter, ports), events);
    NoTwoWorkersShareALease(Run(Start(counter, ports), events), g, h);
  }

  /** Every running worker holds a lease of the pool. */
  lemma WorkersHoldLeasesOfThePool(counter: nat, ports: nat, events: seq<Event>, g: nat)
    requires g in Run(Start(counter, ports), events).alive
    ensures Run(Start(counter, ports), events).alive[g] < ports
  {
    StartHolds(counter, ports);
    RunsKeepInv(Start(counter, ports), events);
    LeasesAreOfThePool(Run(Start(counter, ports), events), g);
    RunsKeepThePool(Start(counter, ports), events);
  }

  /** The running worker `g` listens on `port`. */
  ghost predicate ListensOn(worker: Ports.WorkerPorts, s: System, g: nat, port: nat) {
    && g in s.alive && s.alive[g] < |Ports.ConfiguredPorts(worker)|
    && Ports.Listens(Ports.ConfiguredPorts(worker)[s.alive[g]], port)
  }

  /** No two running workers listen on the same port, whatever the range or
      the two single ports the configuration gives. */
  lemma WorkersDoNotSharePorts(worker: Ports.WorkerPorts, counter: nat, events: seq<Event>, g: nat, h: nat, port: nat)
    requires Ports.Accepted(worker) && Ports.Fits(worker)
    requires var s := Run(Start(counter, |Ports.ConfiguredPorts(worker)|), events);
             ListensOn(worker, s, g, port) && ListensOn(worker, s, h, port)
    ensures g == h
  {
    var ports := |Ports.ConfiguredPorts(worker)|;
    var alive := Run(Start(counter, ports), events).alive;
    Ports.LeasesShareNoPort(worker, alive[g], alive[h], port);
    if g != h {
      WorkersDoNotShareLeases(counter, ports, events, g, h);
    }
  }
}
