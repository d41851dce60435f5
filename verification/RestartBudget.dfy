/** The restarts of a member: three inside the window, further apart each
    time, and none once they are used up. */
module RestartBudget {
  import opened Wrappers
  import opened Registry
  import opened RegistrySystem
  import opened RegistrySteps

  ghost predicate Sorted(times: seq<nat>) {
    forall i, j :: 0 <= i <= j < |times| ==> times[i] <= times[j]
  }

  /** From restart `i` on: the next one waited for the second delay at
      least, the third inside the window for the third, and the fourth is
      outside the window. */
  predicate SpacedFrom(counted: seq<nat>, i: nat)
    requires i < |counted|
  {
    && (i + 1 < |counted| ==> counted[i] + RESTART_DELAYS[1] <= counted[i + 1])
    && (i + 2 < |counted| ==>
          || counted[i] + RESTART_WINDOW <= counted[i + 2]
          || counted[i + 1] + RESTART_DELAYS[2] <= counted[i + 2])
    && (i + 3 < |counted| ==> counted[i] + RESTART_WINDOW <= counted[i + 3])
  }

  /** The restarts counted since they were last forgotten: any four span the
      window, and each waited for the delay its count in the window gives. */
  ghost predicate Spaced(counted: seq<nat>) {
    forall i :: 0 <= i < |counted| ==> SpacedFrom(counted, i)
  }

  /** How many of the first `n` restarts were made inside the window at `at`. */
  function Inside(counted: seq<nat>, n: nat, at: nat): nat
    requires n <= |counted|
  {
    if n == 0 then 0
    else Inside(counted, n - 1, at) + if at < counted[n - 1] + RESTART_WINDOW then 1 else 0
  }

  /** Restart `i` came to be owed at or after the one before it was made, when
      fewer than three were inside the window, and waited from then for the
      delay their number gives. */
  predicate WaitedFrom(counted: seq<nat>, stops: seq<nat>, i: nat)
    requires i < |counted| && |stops| == |counted|
  {
    var made := Inside(counted, i, stops[i]);
    && (i > 0 ==> counted[i - 1] <= stops[i])
    && made < |RESTART_DELAYS| && stops[i] + RESTART_DELAYS[made] <= counted[i]
  }

  ghost predicate AllWaited(counted: seq<nat>, stops: seq<nat>) {
    |stops| == |counted| && forall i :: 0 <= i < |counted| ==> WaitedFrom(counted, stops, i)
  }

  /** `restarts` is what still counts of `counted`; the rest left the window
      by `now`. */
  ghost predicate StillCounts(restarts: seq<nat>, counted: seq<nat>, now: nat) {
    && |restarts| <= |counted| && restarts == counted[|counted| - |restarts|..]
    && |restarts| <= |RESTART_DELAYS|
    && (counted != [] ==> counted[|counted| - 1] <= now)
    && (|restarts| < |counted| ==> counted[|counted| - |restarts| - 1] + RESTART_WINDOW <= now)
  }

  /** A restart may be made at `at`. */
  predicate Affords(restarts: seq<nat>, at: nat) {
    && |restarts| < |RESTART_DELAYS|
    && (restarts != [] ==> restarts[|restarts| - 1] + RESTART_DELAYS[|restarts|] <= at)
  }

  /** A restart that came to be owed at `owedAt` may be made at `at`. */
  predicate Scheduled(restarts: seq<nat>, counted: seq<nat>, owedAt: nat, at: nat) {
    && |restarts| < |RESTART_DELAYS| && |restarts| == Inside(counted, |counted|, owedAt)
    && owedAt + RESTART_DELAYS[|restarts|] <= at
    && (counted != [] ==> counted[|counted| - 1] <= owedAt)
  }

  predicate Working(sup: Sup) {
    sup.Owing? || sup.Restarting? || sup.Missed?
  }

  ghost predicate Afforded(restart: Restart, restarts: seq<nat>, working: bool, inWork: bool, supervised: bool,
                           clock: nat, now: nat, counted: seq<nat>) {
    && now <= clock
    && Spaced(counted) && StillCounts(restarts, counted, now)
    && (restart.Due? ==> Affords(restarts, restart.due))
    && (restart.InHand? && working ==> Affords(restarts, now))
    && (inWork ==> supervised)
    && (!supervised ==> counted == [])
  }

  ghost predicate Waits(restart: Restart, restarts: seq<nat>, working: bool, now: nat, counted: seq<nat>,
                        stops: seq<nat>, owedAt: nat) {
    && AllWaited(counted, stops)
    && (restart.Due? ==> Scheduled(restarts, counted, owedAt, restart.due))
    && (restart.InHand? && working ==> Scheduled(restarts, counted, owedAt, now))
  }

  ghost predicate Budget(s: System) {
    && Afforded(s.m.restart, s.m.restarts, Working(s.sup), InWork(s.sup).Some?, s.supervised, s.clock, s.now, s.counted)
    && Waits(s.m.restart, s.m.restarts, Working(s.sup), s.now, s.counted, s.stops, s.owedAt)
  }

  lemma {:induction false} EarlierRestartsCountTheSame(counted: seq<nat>, later: nat, n: nat, at: nat)
    requires n <= |counted|
    ensures Inside(counted + [later], n, at) == Inside(counted, n, at)
    decreases n
  {
    if n == 0 {
    } else {
      EarlierRestartsCountTheSame(counted, later, n - 1, at);
    }
  }

  /** A restart that was scheduled waited as it should. */
  lemma CountingWaited(restarts: seq<nat>, counted: seq<nat>, stops: seq<nat>, owedAt: nat, now: nat)
    requires AllWaited(counted, stops) && Scheduled(restarts, counted, owedAt, now)
    ensures AllWaited(counted + [now], stops + [owedAt])
  {
    forall i | 0 <= i < |counted + [now]| ensures WaitedFrom(counted + [now], stops + [owedAt], i) {
      EarlierRestartsCountTheSame(counted, now, i, (stops + [owedAt])[i]);
      if i < |counted| {
        assert WaitedFrom(counted, stops, i);
      }
    }
  }

  lemma {:induction false} RecentRestartsAreCounted(counted: seq<nat>, n: nat, from: nat, at: nat)
    requires from <= n <= |counted|
    requires forall i :: 0 <= i < from ==> counted[i] + RESTART_WINDOW <= at
    requires forall i :: from <= i < n ==> at < counted[i] + RESTART_WINDOW
    ensures Inside(counted, n, at) == n - from
    decreases n
  {
    if n == 0 {
    } else if n == from {
      RecentRestartsAreCounted(counted, n - 1, from - 1, at);
    } else {
      RecentRestartsAreCounted(counted, n - 1, from, at);
    }
  }

  /** What is left of the restarts at `now` is what was made inside the
      window. */
  lemma {:induction false} RecentIsInsideTheWindow(made: seq<nat>, now: nat)
    requires Sorted(made)
    ensures var left := |made| - |Recent(made, now)|;
            && 0 <= left && Recent(made, now) == made[left..]
            && (forall i :: 0 <= i < left ==> made[i] + RESTART_WINDOW <= now)
            && (forall i :: left <= i < |made| ==> now < made[i] + RESTART_WINDOW)
    decreases |made|
  {
    if made == [] || now < made[0] + RESTART_WINDOW {
    } else {
      RecentIsInsideTheWindow(made[1..], now);
      var left := |made[1..]| - |Recent(made[1..], now)|;
      assert Recent(made, now) == made[left + 1..];
      assert forall i :: 0 < i < |made| ==> made[i] == made[1..][i - 1];
    }
  }

  /** What the restart afforded at `now` came after. */
  lemma AffordedGaps(restarts: seq<nat>, counted: seq<nat>, now: nat)
    requires Spaced(counted) && StillCounts(restarts, counted, now) && Affords(restarts, now)
    ensures |counted| >= 3 ==> counted[|counted| - 3] + RESTART_WINDOW <= now
    ensures |counted| >= 2 ==>
      || counted[|counted| - 2] + RESTART_WINDOW <= now
      || counted[|counted| - 1] + RESTART_DELAYS[2] <= now
    ensures |counted| >= 1 ==> counted[|counted| - 1] + RESTART_DELAYS[1] <= now
  {
    var n := |counted|;
    if restarts != [] {
      assert restarts[|restarts| - 1] == counted[n - 1];
    }
    if n >= 2 {
      assert SpacedFrom(counted, n - 2);
    }
    if n >= 3 {
      assert SpacedFrom(counted, n - 3);
    }
  }

  lemma AppendingKeepsSpacing(counted: seq<nat>, now: nat)
    requires Spaced(counted)
    requires |counted| >= 3 ==> counted[|counted| - 3] + RESTART_WINDOW <= now
    requires |counted| >= 2 ==>
      || counted[|counted| - 2] + RESTART_WINDOW <= now
      || counted[|counted| - 1] + RESTART_DELAYS[2] <= now
    requires |counted| >= 1 ==> counted[|counted| - 1] + RESTART_DELAYS[1] <= now
    ensures Spaced(counted + [now])
  {
    var next := counted + [now];
    forall i | 0 <= i < |next| ensures SpacedFrom(next, i) {
      if i < |counted| {
        assert SpacedFrom(counted, i);
      }
    }
  }

  lemma SuffixesGrow(times: seq<nat>, from: nat, more: nat)
    requires from <= |times|
    ensures (times + [more])[from..] == times[from..] + [more]
  {
  }

  lemma CountingStillCounts(restarts: seq<nat>, counted: seq<nat>, now: nat)
    requires StillCounts(restarts, counted, now) && |restarts| < |RESTART_DELAYS|
    ensures StillCounts(restarts + [now], counted + [now], now)
  {
    SuffixesGrow(counted, |counted| - |restarts|, now);
  }

  /** Counting a restart that was afforded keeps the spacing. */
  lemma CountingKeepsSpacing(restarts: seq<nat>, counted: seq<nat>, now: nat)
    requires Spaced(counted) && StillCounts(restarts, counted, now) && Affords(restarts, now)
    ensures Spaced(counted + [now]) && StillCounts(restarts + [now], counted + [now], now)
  {
    AffordedGaps(restarts, counted, now);
    AppendingKeepsSpacing(counted, now);
    CountingStillCounts(restarts, counted, now);
  }

  /** What still counts is in order. */
  lemma CountedRestartsAreSorted(restarts: seq<nat>, counted: seq<nat>, now: nat)
    requires Spaced(counted) && StillCounts(restarts, counted, now)
    ensures Sorted(restarts)
  {
    var from := |counted| - |restarts|;
    if |restarts| > 1 {
      assert SpacedFrom(counted, from);
      assert restarts[0] == counted[from] && restarts[1] == counted[from + 1];
    }
    if |restarts| > 2 {
      assert SpacedFrom(counted, from + 1);
      assert restarts[2] == counted[from + 2];
    }
    SortedByNeighbours(restarts);
  }

  lemma SortedByNeighbours(times: seq<nat>)
    requires |times| <= 3
    requires |times| > 1 ==> times[0] <= times[1]
    requires |times| > 2 ==> times[1] <= times[2]
    ensures Sorted(times)
  {
  }

  /** The pruned restarts still count what they should. */
  lemma PruningKeepsCounting(restarts: seq<nat>, counted: seq<nat>, now: nat)
    requires Spaced(counted) && StillCounts(restarts, counted, now)
    ensures StillCounts(Recent(restarts, now), counted, now)
  {
    CountedRestartsAreSorted(restarts, counted, now);
    RecentIsInsideTheWindow(restarts, now);
    var left := |restarts| - |Recent(restarts, now)|;
    var from := |counted| - |restarts|;
    assert Recent(restarts, now) == counted[from + left..];
    if left > 0 {
      assert restarts[left - 1] == counted[from + left - 1];
    }
  }

  /** Restarts before one that left the window left it too. */
  lemma {:induction false} OlderRestartsAreOutside(counted: seq<nat>, n: nat, at: nat)
    requires Spaced(counted) && n <= |counted| && (n > 0 ==> counted[n - 1] + RESTART_WINDOW <= at)
    ensures forall i :: 0 <= i < n ==> counted[i] + RESTART_WINDOW <= at
    decreases n
  {
    if n == 0 {
    } else {
      if n > 1 {
        assert SpacedFrom(counted, n - 2);
      }
      OlderRestartsAreOutside(counted, n - 1, at);
    }
  }

  /** Owing a restart schedules one after the delay that the number of
      restarts made inside the window gives, or gives up when three were. */
  lemma OwingAffords(m: Members, owed: Owed, counted: seq<nat>, now: nat)
    requires m.restart == InHand(owed.deploymentId)
    requires Spaced(counted) && StillCounts(m.restarts, counted, now)
    ensures var after := OweRestart(m, owed, now);
            && StillCounts(after.restarts, counted, now)
            && (forall i :: |counted| - |after.restarts| <= i < |counted| ==> now < counted[i] + RESTART_WINDOW)
            && (after.restart.Due? <==> |after.restarts| < |RESTART_DELAYS|)
            && (after.restart.Due? ==> Affords(after.restarts, after.restart.due)
                                       && after.restart.due == now + RESTART_DELAYS[|after.restarts|]
                                       && Scheduled(after.restarts, counted, now, after.restart.due))
  {
    PruningKeepsCounting(m.restarts, counted, now);
    PrunedAreInsideTheWindow(m.restarts, counted, now);
    var recent := Recent(m.restarts, now);
    OlderRestartsAreOutside(counted, |counted| - |recent|, now);
    RecentRestartsAreCounted(counted, |counted|, |counted| - |recent|, now);
    assert recent != [] ==> recent[|recent| - 1] == counted[|counted| - 1];
  }

  lemma PrunedAreInsideTheWindow(restarts: seq<nat>, counted: seq<nat>, now: nat)
    requires Spaced(counted) && StillCounts(restarts, counted, now)
    ensures forall i :: 0 <= i < |counted| && |counted| - |Recent(restarts, now)| <= i ==>
        now < counted[i] + RESTART_WINDOW
  {
    CountedRestartsAreSorted(restarts, counted, now);
    RecentIsInsideTheWindow(restarts, now);
    var from := |counted| - |restarts|;
    forall i | 0 <= i < |counted| && |counted| - |Recent(restarts, now)| <= i
      ensures now < counted[i] + RESTART_WINDOW
    {
      assert restarts[i - from] == counted[i];
    }
  }

  // ----- The supervision thread's steps -----

  lemma RemovingKeepsBudget(s: System)
    requires Budget(s)
    ensures Budget(SettleRemovalEvent(s))
  {
    if s.sup.Removing? {
      var owed := Owed(s.sup.member.deploymentId, s.sup.member.lease, s.sup.generation);
      if s.m.restart == InHand(owed.deploymentId) {
        OwingAffords(s.m, owed, s.counted, s.now);
      }
    }
  }

  lemma StartingKeepsBudget(s: System, readable: bool)
    requires Budget(s)
    ensures Budget(StartOwedEvent(s)) && Budget(FindAnotherBundleEvent(s)) && Budget(BeginRestartEvent(s, readable))
  {
  }

  /** The step touches no restart. */
  predicate LeavesBudget(s: System, after: System) {
    && after.m.restart == s.m.restart && after.m.restarts == s.m.restarts && after.counted == s.counted
    && after.stops == s.stops && after.owedAt == s.owedAt
    && Working(after.sup) == Working(s.sup) && InWork(after.sup).Some? == InWork(s.sup).Some?
    && after.supervised == s.supervised && after.clock == s.clock && after.now == s.now
  }

  lemma BudgetCarries(s: System, after: System)
    requires Budget(s) && LeavesBudget(s, after)
    ensures Budget(after)
  {
  }

  lemma ForgettingKeepsBudget(s: System)
    requires Budget(s)
    ensures Budget(s.(m := ForgetRestart(s.m), counted := [], stops := []))
  {
  }

  /** What a restart that was counted leaves owed. */
  lemma OwingAfterCounting(m: Members, owed: Owed, counted: seq<nat>, stops: seq<nat>, supervised: bool, clock: nat,
                           now: nat)
    requires m.restart == InHand(owed.deploymentId) && now <= clock && supervised
    requires Spaced(counted) && StillCounts(m.restarts, counted, now) && AllWaited(counted, stops)
    ensures var after := OweRestart(m, owed, now);
            && Afforded(after.restart, after.restarts, false, false, supervised, clock, now, counted)
            && Waits(after.restart, after.restarts, false, now, counted, stops, now)
  {
    OwingAffords(m, owed, counted, now);
  }

  lemma CountedMissesKeepBudget(s: System)
    requires Budget(s) && s.sup.Missed? && !s.sup.heldByADeploy && RestartInHand(s.m, s.sup.owed.deploymentId)
    ensures Budget(FinishMissedEvent(s))
  {
    CountingKeepsSpacing(s.m.restarts, s.counted, s.now);
    CountingWaited(s.m.restarts, s.counted, s.stops, s.owedAt, s.now);
    OwingAfterCounting(s.m.(restarts := s.m.restarts + [s.now]), s.sup.owed, s.counted + [s.now], s.stops + [s.owedAt],
                       s.supervised, s.clock, s.now);
  }

  lemma MissingKeepsBudget(s: System)
    requires Budget(s) && s.sup.Missed?
    ensures Budget(FinishMissedEvent(s))
  {
    if RestartInHand(s.m, s.sup.owed.deploymentId) && !s.sup.heldByADeploy {
      CountedMissesKeepBudget(s);
    }
  }

  lemma ServedRestartsAreAfforded(loading: Restart, restarts: seq<nat>, counted: seq<nat>, stops: seq<nat>, owedAt: nat,
                                  clock: nat, now: nat)
    requires loading.Loading? && now <= clock && Spaced(counted) && StillCounts(restarts, counted, now)
        && Affords(restarts, now)
    requires AllWaited(counted, stops) && Scheduled(restarts, counted, owedAt, now)
    ensures Afforded(loading, restarts + [now], false, false, true, clock, now, counted + [now])
    ensures Waits(loading, restarts + [now], false, now, counted + [now], stops + [owedAt], owedAt)
  {
    CountingKeepsSpacing(restarts, counted, now);
    CountingWaited(restarts, counted, stops, owedAt, now);
  }

  lemma ServingKeepsBudget(s: System, deadline: nat)
    requires Budget(s) && s.sup.Restarting? && s.sup.launch.stage.Running?
    requires RestartInHand(s.m, s.sup.owed.deploymentId)
    ensures Budget(RestartServes(s, s.sup.launch, s.sup.launch.stage.generation, deadline))
  {
    ServedRestartsAreAfforded(Loading(deadline, s.now), s.m.restarts, s.counted, s.stops, s.owedAt, s.clock, s.now);
  }

  lemma YieldingKeepsBudget(s: System)
    requires Budget(s) && s.sup.Restarting? && s.sup.launch.stage.Running?
    ensures Budget(RestartYields(s, s.sup.owed, s.sup.launch, s.sup.launch.stage.generation,
        RestartInHand(s.m, s.sup.owed.deploymentId)))
  {
  }

  lemma TimeKeepsCounting(restarts: seq<nat>, counted: seq<nat>, now: nat, later: nat)
    requires StillCounts(restarts, counted, now) && now <= later
    ensures StillCounts(restarts, counted, later)
  {
  }

  lemma TicksKeepBudget(s: System, elapsed: nat)
    requires Budget(s)
    ensures Budget(s.(clock := s.clock + elapsed))
  {
  }

  lemma ExitsKeepBudget(s: System, generation: nat)
    requires Budget(s)
    ensures Budget(s.(alive := s.alive - {generation}))
  {
    BudgetCarries(s, s.(alive := s.alive - {generation}));
  }

  lemma BeginningKeepsBudget(s: System)
    requires Budget(s)
    ensures Budget(BeginStepEvent(s))
  {
    TimeKeepsCounting(s.m.restarts, s.counted, s.now, s.clock);
  }

  lemma EndingsLeaveBudget(s: System, generation: nat)
    ensures LeavesBudget(s, EndReapEvent(s)) && LeavesBudget(s, EndShutdownEvent(s))
        && LeavesBudget(s, SupReapEvent(s, generation))
  {
  }

  lemma EndingKeepsBudget(s: System)
    requires Budget(s)
    ensures Budget(EndReapEvent(s)) && Budget(EndShutdownEvent(s))
  {
    EndingsLeaveBudget(s, 0);
    BudgetCarries(s, EndReapEvent(s));
    BudgetCarries(s, EndShutdownEvent(s));
  }

  lemma FindingReadyKeepsBudget(s: System)
    requires Budget(s)
    ensures Budget(FindReadyEvent(s))
  {
  }

  lemma TakingOutKeepsBudget(s: System)
    requires Budget(s)
    ensures Budget(TakeOutEvent(s))
  {
  }

  lemma StoppingKeepsBudget(s: System, done: set<nat>)
    requires Budget(s)
    ensures Budget(WatchRetiringEvent(s, done)) && Budget(ShutdownEvent(s))
  {
  }

  lemma OwingARestoreKeepsBudget(s: System, deploymentId: string, lease: nat, named: nat)
    requires Budget(s)
    ensures Budget(OweRestoreEvent(s, deploymentId, lease, named))
  {
    assert !s.supervised ==> s.m.restarts == [];
  }

  lemma LaunchingKeepsBudget(s: System, ok: bool)
    requires Budget(s)
    ensures Budget(SupLaunchEvent(s, ok))
  {
    if s.sup.Restarting? {
      LaunchStepsTouchLittle(s, s.sup.launch, ok);
      BudgetCarries(s, SupLaunchEvent(s, ok));
    }
  }

  lemma ReapingKeepsBudget(s: System, generation: nat)
    requires Budget(s)
    ensures Budget(SupReapEvent(s, generation))
  {
    EndingsLeaveBudget(s, generation);
    BudgetCarries(s, SupReapEvent(s, generation));
  }

  lemma FinishingKeepsBudget(s: System, deadline: nat)
    requires Budget(s)
    ensures Budget(FinishRestartEvent(s, deadline))
  {
    if s.sup.Restarting? && s.sup.launch.stage.Running? {
      if RestartInHand(s.m, s.sup.owed.deploymentId) && !HeldByADeploy(s.m) {
        ServingKeepsBudget(s, deadline);
      } else {
        YieldingKeepsBudget(s);
      }
    }
  }

  // ----- Every event, every run -----

  lemma TxStepsKeepBudget(s: System, step: TxStep)
    requires Budget(s)
    ensures Budget(TxHappens(s, step))
  {
    TxStepsLeaveSupervision(s, step);
    var after := TxHappens(s, step);
    if LeavesRestarts(s, after) {
      BudgetCarries(s, after);
    } else {
      ForgettingKeepsBudget(s);
      BudgetCarries(s.(m := ForgetRestart(s.m), counted := [], stops := []), after);
    }
  }

  /** Watching, reaping and stopping take no restart up. */
  predicate TakesNothingUp(step: SupStep) {
    || step.BeginStep? || step.WatchRetiring? || step.SupReap? || step.EndReap?
    || step.FindReady? || step.Shutdown? || step.EndShutdown?
  }

  lemma WatchingStepsKeepBudget(s: System, step: SupStep)
    requires Budget(s) && TakesNothingUp(step)
    ensures Budget(SupHappens(s, step))
  {
    match step
    case BeginStep => BeginningKeepsBudget(s);
    case WatchRetiring(done) => StoppingKeepsBudget(s, done);
    case SupReap(generation) => ReapingKeepsBudget(s, generation);
    case EndReap => EndingKeepsBudget(s);
    case FindReady => FindingReadyKeepsBudget(s);
    case Shutdown => StoppingKeepsBudget(s, {});
    case EndShutdown => EndingKeepsBudget(s);
  }

  lemma SupStepsKeepBudget(s: System, step: SupStep)
    requires Budget(s)
    ensures Budget(SupHappens(s, step))
  {
    match step
    case TakeOut => TakingOutKeepsBudget(s);
    case SettleRemoval => RemovingKeepsBudget(s);
    case StartOwed => StartingKeepsBudget(s, false);
    case FindAnotherBundle => StartingKeepsBudget(s, false);
    case BeginRestart(readable) => StartingKeepsBudget(s, readable);
    case SupLaunch(ok) => LaunchingKeepsBudget(s, ok);
    case FinishRestart(deadline) => FinishingKeepsBudget(s, deadline);
    case FinishMissed => if s.sup.Missed? { MissingKeepsBudget(s); }
    case _ => WatchingStepsKeepBudget(s, step);
  }

  lemma LateAbandonsKeepBudget(s: System, deploymentId: string)
    requires Budget(s)
    ensures Budget(LateAbandonEvent(s, deploymentId))
  {
    BudgetCarries(s, LateAbandonEvent(s, deploymentId));
  }

  lemma EventsKeepBudget(s: System, event: Event)
    requires Budget(s)
    ensures Budget(Happens(s, event))
  {
    match event
    case Tick(elapsed) => TicksKeepBudget(s, elapsed);
    case Exits(generation) => ExitsKeepBudget(s, generation);
    case OweRestore(deploymentId, lease, named) => OwingARestoreKeepsBudget(s, deploymentId, lease, named);
    case LateAbandon(deploymentId) => LateAbandonsKeepBudget(s, deploymentId);
    case TxEvent(step) => TxStepsKeepBudget(s, step);
    case SupEvent(step) => SupStepsKeepBudget(s, step);
  }

  lemma {:induction false} RunsKeepBudget(s: System, events: seq<Event>)
    requires Budget(s)
    ensures Budget(Run(s, events))
    decreases |events|
  {
    if events == [] {
    } else {
      EventsKeepBudget(s, events[0]);
      RunsKeepBudget(Happens(s, events[0]), events[1..]);
    }
  }

  lemma StartsAreWithinBudget(counter: nat, ports: nat)
    ensures Budget(Start(counter, ports))
  {
  }

  /** Between promotions and unloads any four counted restarts span the
      window of five minutes, and each, the first included, was made one,
      two or four seconds at least after its member stopped, by how many
      were made inside the window when it did. */
  lemma RestartsAreSpaced(counter: nat, ports: nat, events: seq<Event>)
    ensures var s := Run(Start(counter, ports), events);
            Spaced(s.counted) && AllWaited(s.counted, s.stops)
  {
    StartsAreWithinBudget(counter, ports);
    RunsKeepBudget(Start(counter, ports), events);
  }

  // ----- A member that was given up -----

  /** Nothing works on the restart of a member that was given up. */
  predicate LeftAlone(s: System) {
    s.m.restart.GivenUp? ==> InWork(s.sup).None?
  }

  /** A step of the supervision thread leaves a member that was given up. */
  lemma SupStepsLeaveTheGivenUp(s: System, step: SupStep)
    requires s.m.restart.GivenUp? && LeftAlone(s)
    ensures var after := SupHappens(s, step);
            && after.m.restart == s.m.restart && after.served == s.served && LeftAlone(after)
            && after.alive.Keys <= s.alive.Keys
  {
  }

  lemma SupStepsLeaveItAlone(s: System, step: SupStep)
    requires LeftAlone(s)
    ensures LeftAlone(SupHappens(s, step))
  {
    if step.SupLaunch? && s.sup.Restarting? {
      LaunchStepsTouchLittle(s, s.sup.launch, step.ok);
    }
  }

  lemma EventsLeaveItAlone(s: System, event: Event)
    requires LeftAlone(s)
    ensures LeftAlone(Happens(s, event))
  {
    match event
    case TxEvent(step) => TxStepsLeaveSupervision(s, step);
    case SupEvent(step) => SupStepsLeaveItAlone(s, step);
    case _ =>
  }

  lemma {:induction false} RunsLeaveItAlone(s: System, events: seq<Event>)
    requires LeftAlone(s)
    ensures LeftAlone(Run(s, events))
    decreases |events|
  {
    if events == [] {
    } else {
      EventsLeaveItAlone(s, events[0]);
      RunsLeaveItAlone(Happens(s, events[0]), events[1..]);
    }
  }

  predicate PromotesOrUnloads(event: Event) {
    event.TxEvent? && (event.txStep.Activate? || event.txStep.Unload?)
  }

  lemma EventsLeaveTheGivenUp(s: System, event: Event)
    requires s.m.restart.GivenUp? && LeftAlone(s) && !PromotesOrUnloads(event)
    ensures var after := Happens(s, event);
            && after.m.restart == s.m.restart && after.served == s.served && LeftAlone(after)
            && (event.TxEvent? || after.alive.Keys <= s.alive.Keys)
  {
    match event
    case TxEvent(step) => TxStepsLeaveSupervision(s, step);
    case SupEvent(step) => SupStepsLeaveTheGivenUp(s, step);
    case _ =>
  }

  /** Along the run only the transaction thread starts a process. */
  ghost predicate OnlyTransactionsStart(s: System, events: seq<Event>)
    decreases |events|
  {
    events == []
    || (&& (events[0].TxEvent? || Happens(s, events[0]).alive.Keys <= s.alive.Keys)
        && OnlyTransactionsStart(Happens(s, events[0]), events[1..]))
  }

  lemma {:induction false} GivenUpMembersStay(s: System, events: seq<Event>)
    requires s.m.restart.GivenUp? && LeftAlone(s)
    requires forall e :: e in events ==> !PromotesOrUnloads(e)
    ensures Run(s, events).m.restart == s.m.restart && Run(s, events).served == s.served
    ensures OnlyTransactionsStart(s, events)
    decreases |events|
  {
    if events == [] {
    } else {
      assert events[0] in events;
      EventsLeaveTheGivenUp(s, events[0]);
      GivenUpMembersStay(Happens(s, events[0]), events[1..]);
    }
  }

  /** Over every run, a member that was given up stays so until a promotion
      or an unload: nothing takes the serving slot, and no process is started
      but by a transaction. */
  lemma GivenUpMembersWait(counter: nat, ports: nat, events: seq<Event>, more: seq<Event>)
    requires Run(Start(counter, ports), events).m.restart.GivenUp?
    requires forall e :: e in more ==> !PromotesOrUnloads(e)
    ensures var s := Run(Start(counter, ports), events);
            && Run(s, more).m.restart == s.m.restart && Run(s, more).served == s.served
            && OnlyTransactionsStart(s, more)
  {
    RunsLeaveItAlone(Start(counter, ports), events);
    GivenUpMembersStay(Run(Start(counter, ports), events), more);
  }
}
