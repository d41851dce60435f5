/** The registry's lock sections and calls, sorted into the few ways in which
    they move generations, counts, ports and processes between the map, the
    draining list and the two threads. */
module RegistrySteps {
  import opened Wrappers
  import opened Registry
  import opened RegistrySystem

  // ----- What each thread holds -----

  /** The generation of a launch, from the time it is known. */
  function LaunchOwns(launch: Launch): Option<nat> {
    match launch.stage
    case Entered => launch.handed
    case Tokened => launch.handed
    case Took(generation) => Some(generation)
    case Checked(generation) => Some(generation)
    case Cleared(generation) => Some(generation)
    case Running(generation) => Some(generation)
  }

  /** The generation the transaction thread took and holds outside the map
      and the draining list. */
  function TxOwns(tx: Tx): Option<nat> {
    match tx
    case Taken(generation) => Some(generation)
    case Preparing(_, handed, _) => handed
    case Launching(launch) => LaunchOwns(launch)
    case Discarding(_, generation, _) => Some(generation)
    case _ => None
  }

  function SupOwns(sup: Sup): Option<nat> {
    match sup
    case Removing(generation, _) => Some(generation)
    case Restarting(_, launch) => LaunchOwns(launch)
    case _ => None
  }

  function LaunchTokens(launch: Launch): nat {
    if launch.stage.Entered? then 0 else 1
  }

  /** How often a thread is counted as outside for what it holds itself. */
  function TxTokens(tx: Tx): nat {
    match tx
    case Launching(launch) => LaunchTokens(launch)
    case Discarding(_, _, _) => 1
    case _ => 0
  }

  function SupTokens(sup: Sup): nat {
    match sup
    case Removing(_, _) => 1
    case Restarting(_, launch) => LaunchTokens(launch)
    case _ => 0
  }

  /** The generation whose process a thread holds itself. */
  function TxRuns(tx: Tx): Option<nat> {
    match tx
    case Launching(launch) => if launch.stage.Running? then Some(launch.stage.generation) else None
    case Discarding(_, generation, _) => Some(generation)
    case _ => None
  }

  function SupRuns(sup: Sup): Option<nat> {
    match sup
    case Removing(generation, _) => Some(generation)
    case Restarting(_, launch) => if launch.stage.Running? then Some(launch.stage.generation) else None
    case _ => None
  }

  /** The deployment whose restart the supervision thread is working on. */
  function InWork(sup: Sup): Option<string> {
    match sup
    case Removing(_, member) => Some(member.deploymentId)
    case Owing(owed) => Some(owed.deploymentId)
    case Restarting(owed, _) => Some(owed.deploymentId)
    case Missed(owed, _) => Some(owed.deploymentId)
    case _ => None
  }

  /** The deployment of a candidate its transaction may still activate. */
  function Promised(tx: Tx): Option<string> {
    match tx
    case Returning(deploymentId, _, prepared) => if prepared then Some(deploymentId) else None
    case Ready(deploymentId) => Some(deploymentId)
    case Fenced(deploymentId) => Some(deploymentId)
    case _ => None
  }

  /** The bounds on how often the transaction thread holds off restarts. */
  function HoldsOf(tx: Tx): (nat, nat) {
    match tx
    case Held => (1, 1)
    case Taken(_) => (1, 1)
    case Preparing(_, handed, _) => if handed.Some? then (2, 2) else (1, 1)
    case Launching(launch) => if launch.handed.Some? then (2, 2) else (1, 1)
    case Returning(_, _, _) => (0, 2)
    case _ => (0, 0)
  }

  predicate HoldsCount(preparing: nat, holds: nat, tx: Tx) {
    preparing == holds && HoldsOf(tx).0 <= holds <= HoldsOf(tx).1
  }

  predicate LaunchesHold(tx: Tx, sup: Sup) {
    && (tx.Launching? ==> !tx.launch.restart && (tx.launch.handed.Some? ==> LaunchOwns(tx.launch) == tx.launch.handed))
    && (sup.Restarting? ==> sup.launch == Launch(sup.owed.deploymentId, sup.owed.lease, None, true, sup.launch.stage))
  }

  /** A restart that is due, in hand or given up leaves the slot empty. */
  predicate RestartHolds(restart: Restart, serving: Option<nat>, sup: Sup) {
    && (restart.Due? || restart.InHand? || restart.GivenUp? ==> serving.None?)
    && (restart.InHand? ==> InWork(sup) == Some(restart.deploymentId))
  }

  /** The generation the next restart is stamped after. */
  function SupStamped(sup: Sup): Option<nat> {
    match sup
    case Removing(generation, _) => Some(generation)
    case Owing(owed) => Some(owed.stamped)
    case Restarting(owed, launch) => Some(owed.stamped)
    case Missed(owed, _) => Some(owed.stamped)
    case _ => None
  }

  function DueStamped(restart: Restart): Option<nat> {
    if restart.Due? then Some(restart.owed.stamped) else None
  }

  /** The generation of a restart that passed the registry's checks. */
  function SupChecked(sup: Sup): Option<nat> {
    if sup.Restarting? && (sup.launch.stage.Checked? || sup.launch.stage.Cleared? || sup.launch.stage.Running?)
    then LaunchOwns(sup.launch) else None
  }

  /** The generation a restart took for itself. */
  function SupTook(sup: Sup): Option<nat> {
    if sup.Restarting? then LaunchOwns(sup.launch) else None
  }

  /** The restart in hand is about to be given up: its count is used up by
      the step that settles it. */
  predicate Lost(restarts: seq<nat>, now: nat, sup: Sup) {
    || (sup.Removing? && |Recent(restarts, now)| >= |RESTART_DELAYS|)
    || (sup.Missed? && !sup.heldByADeploy && |Recent(restarts + [now], now)| >= |RESTART_DELAYS|)
  }

  /** Nothing serves, and nothing is owed that would. */
  predicate Resting(s: System) {
    s.m.serving.None? && !s.m.restart.Due? && (s.m.restart.InHand? ==> Lost(s.m.restarts, s.now, s.sup))
  }

  // ----- Steps of one thread that leave the members where they are -----

  /** What runs after a step ran before it, or is the process its thread
      started. */
  ghost predicate Spawns(before: map<nat, nat>, after: map<nat, nat>, ran: Option<nat>, runs: Option<nat>,
                         leased: Option<nat>, lease: Option<nat>) {
    forall g :: g in after ==>
      || (g in before && after[g] == before[g] && (ran == Some(g) ==> runs == Some(g) && lease == leased))
      || (runs == Some(g) && lease == Some(after[g]))
  }

  ghost predicate TakesAtMostOne(counter: nat, next: nat, before: Option<nat>, now: Option<nat>) {
    && counter <= next
    && (now.None? || now == before || (counter < next && now == Some(counter)))
  }

  ghost predicate TxMoved(s: System, after: System) {
    && after == s.(m := s.m.(preparing := after.m.preparing, outside := after.m.outside,
                             abandoned := after.m.abandoned),
                   counter := after.counter, alive := after.alive, tx := after.tx, holds := after.holds)
    && TakesAtMostOne(s.counter, after.counter, TxOwns(s.tx), TxOwns(after.tx))
    && TxStops(after.tx) == {} && !after.tx.Discarding? && (s.tx.Discarding? ==> TxOwns(after.tx).None?)
    && (Promised(after.tx).None? || Promised(after.tx) == Promised(s.tx))
    && (after.m.abandoned == s.m.abandoned || (Promised(after.tx).None? && s.m.candidate.Some?))
    && (Promised(after.tx).Some? ==> after.m.preparing <= s.m.preparing)
    && (after.tx.Fenced? ==> s.tx.Fenced? || s.m.stopping || !s.m.abandoned)
    && LaunchesHold(after.tx, after.sup) && HoldsCount(after.m.preparing, after.holds, after.tx)
    && after.m.outside + TxTokens(s.tx) == s.m.outside + TxTokens(after.tx)
    && Spawns(s.alive, after.alive, TxRuns(s.tx), TxRuns(after.tx), TxLease(s.tx), TxLease(after.tx))
    && (TxLease(after.tx).Some? && TxLease(after.tx) != TxLease(s.tx) ==>
          TxLease(after.tx).value < s.ports && !Leased(s, TxLease(after.tx).value))
  }

  /** A lease of the supervision thread or of a restart that is due comes
      from one of them, or from the pool. */
  ghost predicate LeaseKept(s: System, lease: Option<nat>) {
    lease.Some? && lease != SupLease(s.sup) && lease != DueLease(s.m.restart) ==>
      lease.value < s.ports && !Leased(s, lease.value)
  }

  ghost predicate StampKept(s: System, after: System, stamp: Option<nat>) {
    stamp.Some? && stamp != SupStamped(s.sup) && stamp != DueStamped(s.m.restart) && stamp != SupChecked(s.sup) ==>
      stamp.value < after.counter && !HeldByADeploy(s.m) && !(s.tx.Fenced? && Resting(s))
  }

  ghost predicate SupMoved(s: System, after: System) {
    && after == s.(m := s.m.(restart := after.m.restart, restarts := after.m.restarts, outside := after.m.outside),
                   counter := after.counter, alive := after.alive, sup := after.sup, supervised := after.supervised,
                   clock := after.clock, now := after.now,
                   counted := after.counted, stops := after.stops, owedAt := after.owedAt)
    && TakesAtMostOne(s.counter, after.counter, SupOwns(s.sup), SupOwns(after.sup))
    && ((SupStops(s.sup) == {} && SupStops(after.sup) == {} && Own(after.sup) == {}) || after.sup == s.sup)
    && (s.sup.Yielding? ==> after.m.restart == s.m.restart)
    && (after.sup.ShuttingDown? || after.sup.ShutDown? <==> s.sup.ShuttingDown? || s.sup.ShutDown?)
    && RestartHolds(after.m.restart, after.m.serving, after.sup) && LaunchesHold(after.tx, after.sup)
    && after.m.outside + SupTokens(s.sup) == s.m.outside + SupTokens(after.sup)
    && Spawns(s.alive, after.alive, SupRuns(s.sup), SupRuns(after.sup), SupLease(s.sup), SupLease(after.sup))
    && (SupLease(after.sup).Some? ==> SupLease(after.sup) != DueLease(after.m.restart))
    && LeaseKept(s, SupLease(after.sup)) && LeaseKept(s, DueLease(after.m.restart))
    && StampKept(s, after, SupStamped(after.sup)) && StampKept(s, after, DueStamped(after.m.restart))
    && StampKept(s, after, SupChecked(after.sup))
    && TakesAtMostOne(s.counter, after.counter, SupTook(s.sup), SupTook(after.sup))
    && (after.m.restart.InHand? && SupTook(after.sup).Some? ==> after.m.restart == s.m.restart)
    && (s.tx.Fenced? && Resting(s) ==> Resting(after))
  }

  // ----- Launches -----

  /** What a step of a launch that goes on does. */
  ghost predicate LaunchGoes(s: System, launch: Launch, next: System, moved: Launch) {
    && next == s.(m := s.m.(outside := next.m.outside), counter := next.counter, alive := next.alive)
    && moved == launch.(stage := moved.stage)
    && s.counter <= next.counter
    && (LaunchOwns(moved) == LaunchOwns(launch)
        || (s.counter < next.counter && launch.handed.None? && moved.stage == Took(s.counter)))
    && next.m.outside + LaunchTokens(launch) == s.m.outside + LaunchTokens(moved)
    && ((next.alive == s.alive && moved.stage.Running? == launch.stage.Running?)
        || (moved.stage.Running? && !launch.stage.Running?
            && next.alive == s.alive[moved.stage.generation := launch.lease]))
    && (launch.restart && moved.stage.Checked? ==> !HeldByADeploy(s.m) && RestartInHand(s.m, launch.deploymentId))
    && (moved.stage.Cleared? || moved.stage.Running? ==>
          || launch.stage.Checked? || launch.stage.Cleared?
          || launch.stage.Running?)
  }

  ghost predicate LaunchMisses(s: System, launch: Launch, next: System, stamped: Option<nat>) {
    && next == s.(m := s.m.(outside := next.m.outside))
    && next.m.outside + LaunchTokens(launch) == s.m.outside
    && !launch.stage.Running?
    && (stamped.Some? ==> LaunchOwns(launch) == stamped && (launch.stage.Checked? || launch.stage.Cleared?))
  }

  ghost predicate LaunchMoves(s: System, launch: Launch, launched: Launched) {
    match launched
    case Goes(next, moved) => LaunchGoes(s, launch, next, moved)
    case Misses(next, _, stamped) => LaunchMisses(s, launch, next, stamped)
  }

  predicate LaunchCounts(s: System, launch: Launch) {
    (launch.handed.Some? ==> LaunchOwns(launch) == launch.handed) && LaunchTokens(launch) <= s.m.outside
  }

  lemma LaunchStepsMove(s: System, launch: Launch, ok: bool)
    requires LaunchCounts(s, launch)
    ensures LaunchMoves(s, launch, LaunchStep(s, launch, ok))
  {
    if launch.stage.Took? {
      ChecksMove(s, launch, ok);
    } else if launch.stage.Checked? || launch.stage.Cleared? || launch.stage.Running? {
      SpawnsMove(s, launch, ok);
    }
  }

  lemma ChecksMove(s: System, launch: Launch, ok: bool)
    requires LaunchCounts(s, launch) && launch.stage.Took?
    ensures LaunchMoves(s, launch, LaunchStep(s, launch, ok))
  {
  }

  lemma SpawnsMove(s: System, launch: Launch, ok: bool)
    requires LaunchCounts(s, launch) && (launch.stage.Checked? || launch.stage.Cleared? || launch.stage.Running?)
    ensures LaunchMoves(s, launch, LaunchStep(s, launch, ok))
  {
  }

  lemma TxLaunchGoes(s: System, next: System, moved: Launch)
    requires s.tx.Launching? && LaunchesHold(s.tx, s.sup) && HoldsCount(s.m.preparing, s.holds, s.tx)
    requires LaunchGoes(s, s.tx.launch, next, moved)
    ensures TxMoved(s, next.(tx := Launching(moved)))
  {
  }

  lemma TxLaunchMisses(s: System, next: System, stamped: Option<nat>)
    requires s.tx.Launching? && LaunchesHold(s.tx, s.sup) && HoldsCount(s.m.preparing, s.holds, s.tx)
    requires LaunchMisses(s, s.tx.launch, next, stamped)
    ensures TxMoved(s, next.(tx := Returning(s.tx.launch.deploymentId, {}, false)))
  {
  }

  lemma SupLaunchGoes(s: System, next: System, moved: Launch)
    requires s.sup.Restarting? && LaunchesHold(s.tx, s.sup) && RestartHolds(s.m.restart, s.m.serving, s.sup)
    requires SupLease(s.sup) != DueLease(s.m.restart)
    requires SupOwns(s.sup).Some? ==> SupOwns(s.sup).value < s.counter
    requires LaunchGoes(s, s.sup.launch, next, moved)
    ensures SupMoved(s, next.(sup := Restarting(s.sup.owed, moved)))
  {
  }

  lemma SupLaunchMisses(s: System, next: System, held: bool, stamped: Option<nat>)
    requires s.sup.Restarting? && LaunchesHold(s.tx, s.sup) && RestartHolds(s.m.restart, s.m.serving, s.sup)
    requires SupLease(s.sup) != DueLease(s.m.restart)
    requires LaunchMisses(s, s.sup.launch, next, stamped)
    ensures SupMoved(s,
        next.(sup := Missed(if stamped.Some? then s.sup.owed.(stamped := stamped.value) else s.sup.owed, held)))
  {
  }

  // ----- Which events are such steps -----

  /** What tells an event that leaves the members where they are. */
  predicate Steady(s: System) {
    && LaunchesHold(s.tx, s.sup) && HoldsCount(s.m.preparing, s.holds, s.tx)
        && RestartHolds(s.m.restart, s.m.serving, s.sup)
    && TxTokens(s.tx) <= s.m.outside && SupTokens(s.sup) <= s.m.outside
    && (SupLease(s.sup).Some? ==> SupLease(s.sup) != DueLease(s.m.restart))
    && (SupOwns(s.sup).Some? ==> SupOwns(s.sup).value < s.counter)
    && Own(s.sup) <= SupStops(s.sup)
    && (s.m.stopping <==> s.sup.ShuttingDown? || s.sup.ShutDown?)
    && (!s.m.stopping && Promised(s.tx).Some? ==> s.m.candidate.Some?)
  }

  lemma TxLaunchMoves(s: System, ok: bool)
    requires Steady(s) && s.tx.Launching?
    ensures TxMoved(s, TxLaunchEvent(s, ok))
  {
    LaunchStepsMove(s, s.tx.launch, ok);
    match LaunchStep(s, s.tx.launch, ok)
    case Goes(next, moved) => TxLaunchGoes(s, next, moved);
    case Misses(next, _, stamped) => TxLaunchMisses(s, next, stamped);
  }

  lemma HoldingMoves(s: System, ok: bool)
    requires Steady(s)
    ensures s.tx.Quiet? ==> TxMoved(s, HoldEvent(s))
    ensures s.tx.Held? ==> TxMoved(s, TakeGenerationEvent(s, ok))
  {
  }

  lemma LeasingMoves(s: System, lease: nat)
    requires Steady(s) && s.tx.Preparing? && s.tx.stops == {}
    ensures TxMoved(s, NoPortsEvent(s))
    ensures LeasePortsEvent(s, lease) == s || TxMoved(s, LeasePortsEvent(s, lease))
  {
  }

  lemma ReleasingMoves(s: System)
    requires Steady(s) && s.tx.Returning? && s.tx.stops == {}
    ensures TxMoved(s, ReleaseEvent(s))
  {
  }

  lemma AbandoningMoves(s: System)
    requires Steady(s) && s.tx.Failing?
    ensures TxMoved(s, AbandonEvent(s))
  {
  }

  lemma DiscardedMoves(s: System)
    requires Steady(s) && s.tx.Discarding?
    ensures TxMoved(s, DiscardedEvent(s))
  {
  }

  lemma GivingUpMoves(s: System)
    requires Steady(s) && (s.tx.Ready? || s.tx.Fenced? || s.tx.Taken?)
    ensures TxMoved(s, GiveUpEvent(s))
  {
  }

  lemma FencingMoves(s: System, ok: bool)
    requires Steady(s) && s.tx.Ready?
    ensures TxMoved(s, FenceEvent(s, ok))
  {
  }

  lemma SupLaunchMoves(s: System, ok: bool)
    requires Steady(s) && s.sup.Restarting?
    ensures SupMoved(s, SupLaunchEvent(s, ok))
  {
    LaunchStepsMove(s, s.sup.launch, ok);
    match LaunchStep(s, s.sup.launch, ok)
    case Goes(next, moved) => SupLaunchGoes(s, next, moved);
    case Misses(next, held, stamped) => SupLaunchMisses(s, next, held, stamped);
  }

  /** What owing a restart changes. */
  lemma OwingChangesTheRestart(m: Members, owed: Owed, now: nat)
    ensures var after := OweRestart(m, owed, now);
            && after == m.(restart := after.restart, restarts := after.restarts)
            && (m.restart == InHand(owed.deploymentId) ==> after.restart.Due? || after.restart.GivenUp?)
            && (m.restart != InHand(owed.deploymentId) ==> after == m)
            && (m.restart == InHand(owed.deploymentId) && after.restart.Due? ==> after.restart.owed == owed)
  {
  }

  lemma StartingMoves(s: System)
    requires Steady(s)
    ensures StartOwedEvent(s) == s || SupMoved(s, StartOwedEvent(s))
  {
  }

  lemma OtherBundlesMove(s: System)
    requires Steady(s) && s.sup.Owing?
    ensures SupMoved(s, FindAnotherBundleEvent(s))
  {
  }

  lemma BeginningMoves(s: System, readable: bool)
    requires Steady(s) && s.sup.Owing?
    ensures SupMoved(s, BeginRestartEvent(s, readable))
  {
  }

  lemma CountedMissesMove(s: System)
    requires Steady(s) && s.sup.Missed? && !s.sup.heldByADeploy && RestartInHand(s.m, s.sup.owed.deploymentId)
    ensures SupMoved(s, FinishMissedEvent(s))
  {
    OwingChangesTheRestart(s.m.(restarts := s.m.restarts + [s.now]), s.sup.owed, s.now);
  }

  lemma HeldMissesMove(s: System)
    requires Steady(s) && s.sup.Missed? && s.sup.heldByADeploy && RestartInHand(s.m, s.sup.owed.deploymentId)
    ensures SupMoved(s, FinishMissedEvent(s))
  {
  }

  lemma DroppedMissesMove(s: System)
    requires Steady(s) && s.sup.Missed? && !RestartInHand(s.m, s.sup.owed.deploymentId)
    ensures SupMoved(s, FinishMissedEvent(s))
  {
  }

  lemma MissingMoves(s: System)
    requires Steady(s) && s.sup.Missed?
    ensures SupMoved(s, FinishMissedEvent(s))
  {
    if !RestartInHand(s.m, s.sup.owed.deploymentId) {
      DroppedMissesMove(s);
    } else if s.sup.heldByADeploy {
      HeldMissesMove(s);
    } else {
      CountedMissesMove(s);
    }
  }

  lemma RemovingMoves(s: System)
    requires Steady(s) && s.sup.Removing?
    ensures SupMoved(s, SettleRemovalEvent(s))
  {
    OwingChangesTheRestart(s.m, Owed(s.sup.member.deploymentId, s.sup.member.lease, s.sup.generation), s.now);
  }

  lemma TimeMoves(s: System, elapsed: nat, generation: nat)
    requires Steady(s)
    ensures SupMoved(s, s.(clock := s.clock + elapsed)) && SupMoved(s, s.(alive := s.alive - {generation}))
  {
  }

  lemma WatchingMoves(s: System)
    requires Steady(s)
    ensures SupMoved(s, BeginStepEvent(s)) && SupMoved(s, FindReadyEvent(s))
  {
  }

  lemma EndingMoves(s: System)
    requires Steady(s)
    ensures SupMoved(s, EndReapEvent(s))
  {
  }

  lemma EndingTheStopMoves(s: System)
    requires Steady(s)
    ensures SupMoved(s, EndShutdownEvent(s))
  {
  }

  // ----- Members that move -----

  function SlotSet(slot: Option<nat>): set<nat> {
    if slot.Some? then {slot.value} else {}
  }

  /** The member of `slot`, if any, goes from the map to the draining list
      and is counted as outside. */
  function Drain(m: Members, slot: Option<nat>): Members {
    if slot.Some? && slot.value in m.byGeneration
    then m.(byGeneration := m.byGeneration - {slot.value},
            draining := m.draining[slot.value := m.byGeneration[slot.value]],
            outside := m.outside + 1)
    else m
  }

  lemma DrainMovesTheKey(m: Members, slot: Option<nat>)
    requires slot.Some? ==> slot.value in m.byGeneration
    ensures Drain(m, slot).byGeneration == m.byGeneration - SlotSet(slot)
    ensures Drain(m, slot).draining.Keys == m.draining.Keys + SlotSet(slot)
  {
  }

  lemma DisplacedDrains(m: Members)
    requires m.candidate.Some? ==> m.candidate.value in m.byGeneration
    ensures Displaced(m) == (Drain(m, m.candidate).(candidate := None, abandoned := m.abandoned && m.candidate.None?),
                             SlotSet(m.candidate))
  {
  }

  lemma ActivatedDrains(m: Members, deploymentId: string)
    requires m.serving.Some? ==> m.serving.value in m.byGeneration && m.serving != m.candidate
    ensures Activated(m, deploymentId).Some? <==> !m.stopping && SlotNames(m.byGeneration, m.candidate, deploymentId)
    ensures Activated(m, deploymentId).Some? ==>
      Activated(m, deploymentId).value ==
        Drain(m, m.serving).(candidate := None, serving := m.candidate, abandoned := false,
                             retiring := m.retiring + SlotSet(m.serving), restart := Idle, restarts := [])
  {
    if Activated(m, deploymentId).Some? {
      assert Activated(m, deploymentId).value.byGeneration == Drain(m, m.serving).byGeneration;
    }
  }

  lemma UnloadServingDrains(m: Members, deploymentId: string)
    ensures UnloadServing(m, deploymentId) ==
      if SlotNames(m.byGeneration, m.serving, deploymentId)
      then Drain(m, m.serving).(serving := None, retiring := m.retiring + SlotSet(m.serving))
      else m
  {
  }

  lemma UnloadCandidateDrains(m: Members, deploymentId: string)
    ensures UnloadCandidate(m, deploymentId) ==
      if SlotNames(m.byGeneration, m.candidate, deploymentId)
      then Drain(m, m.candidate).(candidate := None, abandoned := false)
      else m
  {
  }

  /** A new candidate's transaction empties the slot it is to take. */
  ghost predicate Displaces(s: System, after: System) {
    && after == s.(m := Drain(s.m, s.m.candidate).(candidate := None, abandoned := s.m.abandoned && s.m.candidate.None?,
                                                   preparing := after.m.preparing),
                   tx := after.tx, holds := after.holds)
    && after.tx.Preparing? && TxOwns(after.tx) == TxOwns(s.tx)
    && TxStops(after.tx) == SlotSet(s.m.candidate) && TxStops(s.tx) == {}
    && (s.tx.Quiet? || s.tx.Taken?)
    && HoldsCount(after.m.preparing, after.holds, after.tx)
  }

  lemma PrepareDisplaces(s: System, deploymentId: string)
    requires s.m.candidate.Some? ==> s.m.candidate.value in s.m.byGeneration
    requires HoldsCount(s.m.preparing, s.holds, s.tx) && (s.tx.Quiet? || s.tx.Taken?)
    ensures Displaces(s, PrepareEvent(s, deploymentId))
  {
    var held := s.m.(preparing := s.m.preparing + 1);
    DisplacedDrains(held);
    HeldDrains(s.m, s.m.candidate, s.m.preparing + 1);
  }

  /** Draining a slot and counting a hold do not meet. */
  lemma HeldDrains(m: Members, slot: Option<nat>, preparing: nat)
    ensures Drain(m.(preparing := preparing), slot) == Drain(m, slot).(preparing := preparing)
  {
  }

  /** A process that was started becomes the candidate. */
  ghost predicate Admits(s: System, after: System) {
    && s.tx.Launching? && s.tx.launch.stage.Running? && !s.m.stopping
    && after == s.(m := after.m, tx := Returning(s.tx.launch.deploymentId, SlotSet(s.m.candidate), true))
    && var drained := Drain(s.m, s.m.candidate);
       after.m == drained.(byGeneration := drained.byGeneration[s.tx.launch.stage.generation := MemberOf(s.tx.launch)],
                           outside := Released(drained.outside), candidate := Some(s.tx.launch.stage.generation),
                           abandoned := s.m.abandoned && s.m.candidate.None?)
  }

  /** A process that was started while a stop began is stopped instead. */
  ghost predicate StopsInstead(s: System, after: System) {
    && s.tx.Launching? && s.tx.launch.stage.Running? && s.m.stopping
    && after == s.(m := Stopping(s.m, s.tx.launch.stage.generation, MemberOf(s.tx.launch)),
                   tx := Returning(s.tx.launch.deploymentId, {s.tx.launch.stage.generation}, false))
  }

  lemma AdmitAdmits(s: System)
    requires s.m.candidate.Some? ==> s.m.candidate.value in s.m.byGeneration
    ensures var after := AdmitCandidateEvent(s);
            after == s || Admits(s, after) || StopsInstead(s, after)
  {
    DisplacedDrains(s.m);
  }

  /** The candidate takes the serving slot. */
  ghost predicate Activates(s: System, after: System) {
    && s.tx.Fenced? && !s.m.stopping && s.m.candidate.Some?
    && after == s.(m := Drain(s.m, s.m.serving).(candidate := None, serving := s.m.candidate, abandoned := false,
                          retiring := s.m.retiring + SlotSet(s.m.serving), restart := Idle, restarts := []),
                   tx := Switched({}), served := s.served + [s.m.candidate.value], counted := [], stops := [])
  }

  /** A draining member is reaped by the thread that holds it. */
  ghost predicate Reaps(s: System, after: System, generation: nat) {
    && generation in s.m.draining && (generation in TxStops(s.tx) || generation in SupStops(s.sup))
    && after == s.(m := s.m.(draining := s.m.draining - {generation}, outside := after.m.outside),
                   alive := s.alive - {generation}, tx := after.tx, sup := after.sup)
    && (after.tx == s.tx || after.tx == TxLeft(s.tx, generation))
        && (after.sup == s.sup || after.sup == SupLeft(s.sup, generation))
    && TxStops(after.tx) == TxStops(s.tx) - {generation} && SupStops(after.sup) == SupStops(s.sup) - {generation}
    && Own(after.sup) == Own(s.sup) - {generation}
    && after.m.outside == if generation in Own(s.sup) then s.m.outside else Released(s.m.outside)
  }

  lemma TxReapReaps(s: System, generation: nat)
    requires generation in TxStops(s.tx) && generation in s.m.draining && generation !in SupStops(s.sup)
        && generation !in Own(s.sup)
    ensures Reaps(s, TxReapEvent(s, generation), generation)
  {
  }

  lemma SupReapReaps(s: System, generation: nat)
    requires generation in SupStops(s.sup) && generation in s.m.draining && generation !in TxStops(s.tx)
    ensures Reaps(s, SupReapEvent(s, generation), generation)
  {
  }

  // ----- What the transaction thread leaves to the supervision thread -----

  predicate LeavesSupervision(s: System, after: System) {
    && after.sup == s.sup && after.m.stopping == s.m.stopping
    && after.supervised == s.supervised && after.clock == s.clock && after.now == s.now && after.ports == s.ports
  }

  predicate LeavesRestarts(s: System, after: System) {
    && after.m.restart == s.m.restart && after.m.restarts == s.m.restarts && after.counted == s.counted
    && after.stops == s.stops && after.owedAt == s.owedAt && after.served == s.served
  }

  lemma LaunchStepsTouchLittle(s: System, launch: Launch, ok: bool)
    ensures var next := LaunchStep(s, launch, ok).s;
            next == s.(m := s.m.(outside := next.m.outside), counter := next.counter, alive := next.alive)
  {
  }

  lemma LaunchesLeaveSupervision(s: System, ok: bool)
    ensures LeavesSupervision(s, TxLaunchEvent(s, ok)) && LeavesRestarts(s, TxLaunchEvent(s, ok))
  {
    if s.tx.Launching? {
      LaunchStepsTouchLittle(s, s.tx.launch, ok);
    }
  }

  /** `after` has forgotten the restarts. */
  predicate ForgetsRestarts(s: System, after: System) {
    after.m.restart == Idle && after.m.restarts == [] && after.counted == [] && after.stops == []
        && after.owedAt == s.owedAt
  }

  lemma UnloadsLeaveSupervision(s: System, replaced: Option<string>)
    ensures var after := UnloadEvent(s, replaced);
            LeavesSupervision(s, after) && after.served == s.served
                && (LeavesRestarts(s, after) || ForgetsRestarts(s, after))
  {
    if replaced.Some? {
      UnloadServingDrains(s.m, replaced.value);
      UnloadCandidateDrains(UnloadServing(s.m, replaced.value), replaced.value);
    }
  }

  lemma PreparingLeavesSupervision(s: System, deploymentId: string)
    ensures LeavesSupervision(s, PrepareEvent(s, deploymentId)) && LeavesRestarts(s, PrepareEvent(s, deploymentId))
  {
  }

  lemma AdmittingLeavesSupervision(s: System)
    ensures LeavesSupervision(s, AdmitCandidateEvent(s)) && LeavesRestarts(s, AdmitCandidateEvent(s))
  {
  }

  lemma ActivatingLeavesSupervision(s: System)
    ensures LeavesSupervision(s, ActivateEvent(s))
    ensures LeavesRestarts(s, ActivateEvent(s)) || ForgetsRestarts(s, ActivateEvent(s))
  {
  }

  /** The transaction thread's other steps change less than a launch does. */
  lemma HoldingLeavesSupervision(s: System, ok: bool, lease: nat)
    ensures LeavesSupervision(s, HoldEvent(s)) && LeavesRestarts(s, HoldEvent(s))
    ensures LeavesSupervision(s, TakeGenerationEvent(s, ok)) && LeavesRestarts(s, TakeGenerationEvent(s, ok))
    ensures LeavesSupervision(s, LeasePortsEvent(s, lease)) && LeavesRestarts(s, LeasePortsEvent(s, lease))
    ensures LeavesSupervision(s, NoPortsEvent(s)) && LeavesRestarts(s, NoPortsEvent(s))
  {
  }

  lemma ReleasingLeavesSupervision(s: System, ok: bool)
    ensures LeavesSupervision(s, ReleaseEvent(s)) && LeavesRestarts(s, ReleaseEvent(s))
    ensures LeavesSupervision(s, AbandonEvent(s)) && LeavesRestarts(s, AbandonEvent(s))
    ensures LeavesSupervision(s, GiveUpEvent(s)) && LeavesRestarts(s, GiveUpEvent(s))
    ensures LeavesSupervision(s, FenceEvent(s, ok)) && LeavesRestarts(s, FenceEvent(s, ok))
  {
  }

  lemma DiscardingLeavesSupervision(s: System, generation: nat)
    ensures LeavesSupervision(s, DiscardEvent(s)) && LeavesRestarts(s, DiscardEvent(s))
    ensures LeavesSupervision(s, DiscardedEvent(s)) && LeavesRestarts(s, DiscardedEvent(s))
    ensures LeavesSupervision(s, TxReapEvent(s, generation)) && LeavesRestarts(s, TxReapEvent(s, generation))
  {
  }

  /** What a step of the transaction thread leaves alone. */
  ghost predicate LeavesOrForgets(s: System, step: TxStep, after: System) {
    && LeavesSupervision(s, after)
    && (LeavesRestarts(s, after) || ((step.Activate? || step.Unload?) && ForgetsRestarts(s, after)))
    && (step.Activate? || after.served == s.served)
  }

  /** A deploy's steps up to its candidate's admission, and the activate. */
  predicate Deploys(step: TxStep) {
    || step.Hold? || step.TakeGeneration? || step.Prepare? || step.LeasePorts? || step.NoPorts?
    || step.TxLaunch? || step.AdmitCandidate? || step.Activate?
  }

  lemma DeployStepsLeaveSupervision(s: System, step: TxStep)
    requires Deploys(step)
    ensures LeavesOrForgets(s, step, TxHappens(s, step))
  {
    match step
    case TxLaunch(ok) => LaunchesLeaveSupervision(s, ok);
    case Activate => ActivatingLeavesSupervision(s);
    case Prepare(deploymentId) => PreparingLeavesSupervision(s, deploymentId);
    case AdmitCandidate => AdmittingLeavesSupervision(s);
    case Hold => HoldingLeavesSupervision(s, false, 0);
    case TakeGeneration(ok) => HoldingLeavesSupervision(s, ok, 0);
    case LeasePorts(lease) => HoldingLeavesSupervision(s, false, lease);
    case NoPorts => HoldingLeavesSupervision(s, false, 0);
  }

  lemma TxStepsLeaveSupervision(s: System, step: TxStep)
    ensures LeavesOrForgets(s, step, TxHappens(s, step))
  {
    match step
    case Unload(replaced) => UnloadsLeaveSupervision(s, replaced);
    case Release => ReleasingLeavesSupervision(s, false);
    case Abandon => ReleasingLeavesSupervision(s, false);
    case GiveUp => ReleasingLeavesSupervision(s, false);
    case Fence(ok) => ReleasingLeavesSupervision(s, ok);
    case Discard => DiscardingLeavesSupervision(s, 0);
    case Discarded => DiscardingLeavesSupervision(s, 0);
    case TxReap(generation) => DiscardingLeavesSupervision(s, generation);
    case _ => DeployStepsLeaveSupervision(s, step);
  }
}
