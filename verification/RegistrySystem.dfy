/** The registry under its threads: one transaction, the supervision thread
    that also stops the agent, and worker processes that exit when they like.
    Every event is one lock section or one call outside the lock, so a run is
    an interleaving of the threads at every release of the lock. */
module RegistrySystem {
  import opened Wrappers
  import opened Registry

  // ----- A launch, as both threads run it -----

  datatype Stage =
    | Entered
    | Tokened                    // counted as outside
    | Took(generation: nat)
    | Checked(generation: nat)   // admissible, and for a restart still in hand
    | Cleared(generation: nat)   // stamped, and no stop had begun
    | Running(generation: nat)

  /** `handed` is the generation a deploy took under its hold. */
  datatype Launch = Launch(deploymentId: string, lease: nat, handed: Option<nat>, restart: bool, stage: Stage)

  // ----- The transaction thread -----

  datatype Tx =
    | Quiet
    | Held
    | Taken(generation: nat)
    | Preparing(deploymentId: string, handed: Option<nat>, stops: set<nat>)
    | Launching(launch: Launch)
    | Returning(deploymentId: string, stops: set<nat>, prepared: bool)
    | Ready(deploymentId: string)
    | Discarding(deploymentId: string, generation: nat, member: Member)
    | Failing(deploymentId: string)
    | Fenced(deploymentId: string)
    | Switched(stops: set<nat>)

  // ----- The supervision thread -----

  datatype Sup =
    | Calm
    | Reaping(done: set<nat>)
    | Removing(generation: nat, member: Member)
    | Owing(owed: Owed)
    | Restarting(owed: Owed, launch: Launch)
    | Missed(owed: Owed, heldByADeploy: bool)
    | Yielding(generation: nat)
    | ShuttingDown(own: set<nat>, left: set<nat>)  // `own` were in the map and are not counted as outside
    | ShutDown

  /** `alive` gives the lease of every running worker process, `served` every
      generation that took the serving slot, `counted` the restarts counted
      since they were last forgotten, `stops` when each of them came to be
      owed and `owedAt` when the last one did, `holds` how often the
      transaction thread is counted in `preparing`, and `now` the time the
      supervision step that is running, or ran last, began at. */
  datatype System = System(
    m: Members,
    counter: nat,
    alive: map<nat, nat>,
    ports: nat,
    tx: Tx,
    holds: nat,
    sup: Sup,
    supervised: bool,
    clock: nat,
    now: nat,
    served: seq<nat>,
    counted: seq<nat>,
    stops: seq<nat>,
    owedAt: nat)

  // ----- Ports -----

  function TxLease(tx: Tx): Option<nat> {
    match tx
    case Launching(launch) => Some(launch.lease)
    case Discarding(_, _, member) => Some(member.lease)
    case _ => None
  }

  function SupLease(sup: Sup): Option<nat> {
    match sup
    case Removing(_, member) => Some(member.lease)
    case Owing(owed) => Some(owed.lease)
    case Restarting(owed, _) => Some(owed.lease)
    case Missed(owed, _) => Some(owed.lease)
    case _ => None
  }

  function DueLease(restart: Restart): Option<nat> {
    if restart.Due? then Some(restart.owed.lease) else None
  }

  ghost predicate HeldByAMember(members: map<nat, Member>, lease: nat) {
    exists g :: g in members && members[g].lease == lease
  }

  /** Something holds the lease; the pool gives out any other. */
  ghost predicate Leased(s: System, lease: nat) {
    || HeldByAMember(s.m.byGeneration, lease)
    || HeldByAMember(s.m.draining, lease)
    || TxLease(s.tx) == Some(lease)
    || SupLease(s.sup) == Some(lease)
    || DueLease(s.m.restart) == Some(lease)
  }

  // ----- Steps of a launch -----

  /** `stamped` is the generation a restart stamp had written by then. */
  datatype Launched = Goes(s: System, launch: Launch) | Misses(s: System, heldByADeploy: bool, stamped: Option<nat>)

  function LetGo(m: Members): Members {
    m.(outside := Released(m.outside))
  }

  /** The next step of `launch`; `ok` is what the generation source, the stamp
      and the spawn answer. */
  ghost function LaunchStep(s: System, launch: Launch, ok: bool): Launched {
    var dropped := s.(m := LetGo(s.m));
    match launch.stage
    case Entered =>
      if s.m.stopping then Misses(s, false, None)
      else Goes(s.(m := s.m.(outside := s.m.outside + 1)), launch.(stage := Tokened))
    case Tokened =>
      if launch.handed.Some? then Goes(s, launch.(stage := Took(launch.handed.value)))
      else if !ok then Misses(dropped, false, None)
      else Goes(s.(counter := s.counter + 1), launch.(stage := Took(s.counter)))
    case Took(generation) =>
      if s.m.stopping || !Admissible(s.m, generation, launch.handed.Some?) then Misses(dropped, false, None)
      else if launch.restart && (HeldByADeploy(s.m) || !RestartInHand(s.m, launch.deploymentId))
      then Misses(dropped, HeldByADeploy(s.m), None)
      else Goes(s, launch.(stage := Checked(generation)))
    case Checked(generation) =>
      if !ok then Misses(dropped, false, None)
      else if s.m.stopping then Misses(dropped, false, Some(generation))
      else Goes(s, launch.(stage := Cleared(generation)))
    case Cleared(generation) =>
      if !ok then Misses(dropped, false, Some(generation))
      else Goes(s.(alive := s.alive[generation := launch.lease]), launch.(stage := Running(generation)))
    case Running(_) => Goes(s, launch)
  }

  // ----- Events -----

  /** A lock section of the transaction thread, or a call it makes outside
      the lock. */
  datatype TxStep =
    | Hold
    | TakeGeneration(ok: bool)
    | Prepare(deploymentId: string)
    | TxReap(generation: nat)
    | LeasePorts(lease: nat)
    | NoPorts
    | TxLaunch(ok: bool)
    | AdmitCandidate
    | Release
    | Discard
    | Discarded
    | GiveUp
    | Fence(ok: bool)
    | Abandon
    | Activate
    | Unload(replaced: Option<string>)

  datatype SupStep =
    | BeginStep
    | WatchRetiring(done: set<nat>)
    | SupReap(generation: nat)
    | EndReap
    | TakeOut
    | SettleRemoval
    | FindReady
    | StartOwed
    | FindAnotherBundle
    | BeginRestart(readable: bool)
    | SupLaunch(ok: bool)
    | FinishRestart(deadline: nat)
    | FinishMissed
    | Shutdown
    | EndShutdown

  datatype Event =
    | Tick(elapsed: nat)
    | Exits(generation: nat)
    | OweRestore(deploymentId: string, lease: nat, named: nat)   // before supervision begins
    | LateAbandon(deploymentId: string)   // of a transaction whose thread has handed over
    | TxEvent(txStep: TxStep)
    | SupEvent(supStep: SupStep)

  /** A member that left the map is stopped and dropped by the thread that
      holds it: its process is gone before its count is. */
  function Reaped(s: System, generation: nat, counted: bool): System {
    s.(alive := s.alive - {generation},
       m := s.m.(draining := s.m.draining - {generation},
                 outside := if counted then Released(s.m.outside) else s.m.outside))
  }

  function MemberOf(launch: Launch): Member {
    Member(launch.deploymentId, launch.lease)
  }

  /** Empty the candidate slot; what was in it is draining. */
  function Displaced(m: Members): (Members, set<nat>) {
    var (emptied, displaced) := TakeCandidate(m);
    if displaced.Some? then (Stopping(emptied, m.candidate.value, displaced.value), {m.candidate.value})
    else (emptied, {})
  }

  // ----- The transaction thread's events -----

  function PrepareEvent(s: System, deploymentId: string): System {
    if !(s.tx.Quiet? || s.tx.Taken?) then s
    else
      var (emptied, stops) := Displaced(s.m.(preparing := s.m.preparing + 1));
      s.(m := emptied, holds := s.holds + 1,
         tx := Preparing(deploymentId, if s.tx.Taken? then Some(s.tx.generation) else None, stops))
  }

  ghost function TxLaunchEvent(s: System, ok: bool): System {
    if !s.tx.Launching? then s
    else
      match LaunchStep(s, s.tx.launch, ok)
      case Goes(next, launch) => next.(tx := Launching(launch))
      case Misses(next, _, _) => next.(tx := Returning(s.tx.launch.deploymentId, {}, false))
  }

  function AdmitCandidateEvent(s: System): System {
    if !(s.tx.Launching? && s.tx.launch.stage.Running?) then s
    else
      var launch := s.tx.launch;
      var generation := launch.stage.generation;
      if s.m.stopping then
        s.(m := Stopping(s.m, generation, MemberOf(launch)), tx := Returning(launch.deploymentId, {generation}, false))
      else
        var (emptied, stops) := Displaced(s.m);
        s.(m := Admit(emptied, generation, MemberOf(launch)).(candidate := Some(generation)),
           tx := Returning(launch.deploymentId, stops, true))
  }

  function ReleaseEvent(s: System): System {
    if s.tx.Returning? && s.tx.stops == {} then
      if s.holds == 0 then s.(tx := if s.tx.prepared then Ready(s.tx.deploymentId) else Quiet)
      else s.(holds := s.holds - 1, m := s.m.(preparing := Released(s.m.preparing)))
    else s
  }

  /** A candidate that exited or lost its channel is taken and killed outside
      the lock. */
  function DiscardEvent(s: System): System {
    if s.tx.Ready? && !s.m.stopping && s.m.candidate.Some? && s.m.candidate.value in s.m.byGeneration then
      var (emptied, taken) := TakeCandidate(s.m);
      s.(m := emptied, tx := Discarding(s.tx.deploymentId, s.m.candidate.value, taken.value))
    else s
  }

  function FenceEvent(s: System, ok: bool): System {
    if !s.tx.Ready? then s
    else if ok && !s.m.stopping && !s.m.abandoned && SlotNames(s.m.byGeneration, s.m.candidate, s.tx.deploymentId)
    then s.(tx := Fenced(s.tx.deploymentId))
    else s.(tx := Failing(s.tx.deploymentId))
  }

  function AbandonEvent(s: System): System {
    if !s.tx.Failing? then s
    else
      s.(tx := Quiet,
         m := if SlotNames(s.m.byGeneration, s.m.candidate, s.tx.deploymentId) then s.m.(abandoned := true) else s.m)
  }

  function ActivateEvent(s: System): System {
    if !s.tx.Fenced? then s
    else
      match Activated(s.m, s.tx.deploymentId)
      case None => s.(tx := Quiet)
      case Some(m) => s.(m := m, tx := Switched({}), served := s.served + [s.m.candidate.value], counted := [],
                         stops := [])
  }

  function UnloadEvent(s: System, deploymentId: Option<string>): System {
    if !(s.tx.Switched? && s.tx.stops == {}) then s
    else if deploymentId.None? then s.(tx := Quiet)
    else
      s.(m := Unloaded(s.m, deploymentId.value),
         tx := Switched(if SlotNames(s.m.byGeneration, s.m.candidate, deploymentId.value)
                        then {s.m.candidate.value} else {}),
         counted := if RestartNames(s.m, deploymentId.value) then [] else s.counted,
         stops := if RestartNames(s.m, deploymentId.value) then [] else s.stops)
  }

  /** The draining generations the transaction thread is about to reap. */
  function TxStops(tx: Tx): set<nat> {
    match tx
    case Preparing(_, _, stops) => stops
    case Returning(_, stops, _) => stops
    case Switched(stops) => stops
    case _ => {}
  }

  function TxLeft(tx: Tx, generation: nat): Tx {
    match tx
    case Preparing(deploymentId, handed, stops) => Preparing(deploymentId, handed, stops - {generation})
    case Returning(deploymentId, stops, prepared) => Returning(deploymentId, stops - {generation}, prepared)
    case Switched(stops) => Switched(stops - {generation})
    case _ => tx
  }

  function TxReapEvent(s: System, generation: nat): System {
    if generation in TxStops(s.tx) then Reaped(s, generation, true).(tx := TxLeft(s.tx, generation)) else s
  }

  function HoldEvent(s: System): System {
    if s.tx.Quiet? then s.(tx := Held, holds := s.holds + 1, m := s.m.(preparing := s.m.preparing + 1)) else s
  }

  function TakeGenerationEvent(s: System, ok: bool): System {
    if !s.tx.Held? then s
    else if ok then s.(tx := Taken(s.counter), counter := s.counter + 1)
    else s.(tx := Returning("", {}, false))
  }

  ghost function LeasePortsEvent(s: System, lease: nat): System {
    if s.tx.Preparing? && s.tx.stops == {} && lease < s.ports && !Leased(s, lease)
    then s.(tx := Launching(Launch(s.tx.deploymentId, lease, s.tx.handed, false, Entered)))
    else s
  }

  function NoPortsEvent(s: System): System {
    if s.tx.Preparing? && s.tx.stops == {} then s.(tx := Returning(s.tx.deploymentId, {}, false)) else s
  }

  function DiscardedEvent(s: System): System {
    if s.tx.Discarding?
    then s.(alive := s.alive - {s.tx.generation}, m := LetGo(s.m), tx := Failing(s.tx.deploymentId))
    else s
  }

  function GiveUpEvent(s: System): System {
    if s.tx.Ready? || s.tx.Fenced? then s.(tx := Failing(s.tx.deploymentId))
    else if s.tx.Taken? then s.(tx := Returning("", {}, false))
    else s
  }

  ghost function TxHappens(s: System, step: TxStep): System {
    match step
    case Hold => HoldEvent(s)
    case TakeGeneration(ok) => TakeGenerationEvent(s, ok)
    case Prepare(deploymentId) => PrepareEvent(s, deploymentId)
    case TxReap(generation) => TxReapEvent(s, generation)
    case LeasePorts(lease) => LeasePortsEvent(s, lease)
    case NoPorts => NoPortsEvent(s)
    case TxLaunch(ok) => TxLaunchEvent(s, ok)
    case AdmitCandidate => AdmitCandidateEvent(s)
    case Release => ReleaseEvent(s)
    case Discard => DiscardEvent(s)
    case Discarded => DiscardedEvent(s)
    case GiveUp => GiveUpEvent(s)
    case Fence(ok) => FenceEvent(s, ok)
    case Abandon => AbandonEvent(s)
    case Activate => ActivateEvent(s)
    case Unload(replaced) => UnloadEvent(s, replaced)
  }

  // ----- The supervision thread's events -----

  /** The draining generations the supervision thread is about to reap. */
  function SupStops(sup: Sup): set<nat> {
    match sup
    case Reaping(done) => done
    case Yielding(generation) => {generation}
    case ShuttingDown(_, left) => left
    case _ => {}
  }

  function SupLeft(sup: Sup, generation: nat): Sup {
    match sup
    case Reaping(done) => Reaping(done - {generation})
    case ShuttingDown(own, left) => ShuttingDown(own - {generation}, left - {generation})
    case Yielding(_) => Calm
    case _ => sup
  }

  function Own(sup: Sup): set<nat> {
    if sup.ShuttingDown? then sup.own else {}
  }

  function SupReapEvent(s: System, generation: nat): System {
    if generation in SupStops(s.sup)
    then Reaped(s, generation, generation !in Own(s.sup)).(sup := SupLeft(s.sup, generation))
    else s
  }

  /** A serving generation that stopped, lost its channel or did not become
      ready leaves the slot; its process is killed outside the lock. */
  function TakeOutEvent(s: System): System {
    if s.sup.Calm? && (s.m.restart.Idle? || s.m.restart.Loading?)
       && s.m.serving.Some? && s.m.serving.value in s.m.byGeneration
    then
      var generation := s.m.serving.value;
      var (emptied, taken) := TakeServing(s.m);
      s.(m := emptied.(restart := InHand(taken.value.deploymentId)), sup := Removing(generation, taken.value),
         supervised := true)
    else s
  }

  function SettleRemovalEvent(s: System): System {
    match s.sup
    case Removing(generation, member) =>
      s.(m := LetGo(OweRestart(s.m, Owed(member.deploymentId, member.lease, generation), s.now)),
         alive := s.alive - {generation},
         sup := Calm,
         owedAt := if s.m.restart == InHand(member.deploymentId) then s.now else s.owedAt)
    case _ => s
  }

  function StartOwedEvent(s: System): System {
    if s.sup.Calm? && !HeldByADeploy(s.m) && s.m.restart.Due? && s.now >= s.m.restart.due then
      s.(m := s.m.(restart := InHand(s.m.restart.owed.deploymentId)), sup := Owing(s.m.restart.owed),
         supervised := true)
    else s
  }

  ghost function SupLaunchEvent(s: System, ok: bool): System {
    match s.sup
    case Restarting(owed, launch) =>
      (match LaunchStep(s, launch, ok)
       case Goes(next, moved) => next.(sup := Restarting(owed, moved))
       case Misses(next, held, stamped) =>
         next.(sup := Missed(if stamped.Some? then owed.(stamped := stamped.value) else owed, held)))
    case _ => s
  }

  function RestartServes(s: System, launch: Launch, generation: nat, deadline: nat): System {
    s.(m := Admit(s.m, generation, MemberOf(launch)).(
              serving := Some(generation), restarts := s.m.restarts + [s.now], restart := Loading(deadline, s.now)),
       sup := Calm, served := s.served + [generation], counted := s.counted + [s.now], stops := s.stops + [s.owedAt])
  }

  function RestartYields(s: System, owed: Owed, launch: Launch, generation: nat, inHand: bool): System {
    var kept := if inHand then s.m.(restart := Due(owed.(stamped := generation), s.now)) else s.m;
    s.(m := Stopping(kept, generation, MemberOf(launch)), sup := Yielding(generation))
  }

  /** The successor takes the serving slot, unless a deploy began or the
      member was taken meanwhile: then it yields and is not counted. */
  function FinishRestartEvent(s: System, deadline: nat): System {
    if !(s.sup.Restarting? && s.sup.launch.stage.Running?) then s
    else
      var inHand := RestartInHand(s.m, s.sup.owed.deploymentId);
      if inHand && !HeldByADeploy(s.m) then RestartServes(s, s.sup.launch, s.sup.launch.stage.generation, deadline)
      else RestartYields(s, s.sup.owed, s.sup.launch, s.sup.launch.stage.generation, inHand)
  }

  function FinishMissedEvent(s: System): System {
    match s.sup
    case Missed(owed, held) =>
      var inHand := RestartInHand(s.m, owed.deploymentId);
      if inHand && held then s.(m := s.m.(restart := Due(owed, s.now)), sup := Calm)
      else if inHand then
        s.(m := OweRestart(s.m.(restarts := s.m.restarts + [s.now]), owed, s.now), sup := Calm,
           counted := s.counted + [s.now], stops := s.stops + [s.owedAt], owedAt := s.now)
      else s.(sup := Calm)
    case _ => s
  }

  function BeginStepEvent(s: System): System {
    if s.sup.Calm? then s.(now := s.clock, supervised := true) else s
  }

  /** Retiring members that exited or are past their stop deadline. */
  function WatchRetiringEvent(s: System, done: set<nat>): System {
    if s.sup.Calm? && done <= s.m.retiring
    then s.(m := s.m.(retiring := s.m.retiring - done), sup := Reaping(done), supervised := true)
    else s
  }

  function EndReapEvent(s: System): System {
    if s.sup.Reaping? && s.sup.done == {} then s.(sup := Calm) else s
  }

  function FindReadyEvent(s: System): System {
    if s.sup.Calm? && s.m.restart.Loading? && s.m.serving.Some? then s.(m := s.m.(restart := Idle)) else s
  }

  function FindAnotherBundleEvent(s: System): System {
    if s.sup.Owing? then
      s.(sup := Calm,
         m := if RestartInHand(s.m, s.sup.owed.deploymentId)
              then s.m.(restart := GivenUp(s.sup.owed.deploymentId)) else s.m)
    else s
  }

  function BeginRestartEvent(s: System, readable: bool): System {
    if !s.sup.Owing? then s
    else if readable
    then s.(sup := Restarting(s.sup.owed, Launch(s.sup.owed.deploymentId, s.sup.owed.lease, None, true, Entered)))
    else s.(sup := Missed(s.sup.owed, false))
  }

  function ShutdownEvent(s: System): System {
    if s.sup.Calm?
    then s.(m := StopAll(s.m), sup := ShuttingDown(s.m.byGeneration.Keys, s.m.byGeneration.Keys + s.m.retiring))
    else s
  }

  function EndShutdownEvent(s: System): System {
    if s.sup.ShuttingDown? && s.sup.left == {} then s.(sup := ShutDown) else s
  }

  ghost function SupHappens(s: System, step: SupStep): System {
    match step
    case BeginStep => BeginStepEvent(s)
    case WatchRetiring(done) => WatchRetiringEvent(s, done)
    case SupReap(generation) => SupReapEvent(s, generation)
    case EndReap => EndReapEvent(s)
    case TakeOut => TakeOutEvent(s)
    case SettleRemoval => SettleRemovalEvent(s)
    case FindReady => FindReadyEvent(s)
    case StartOwed => StartOwedEvent(s)
    case FindAnotherBundle => FindAnotherBundleEvent(s)
    case BeginRestart(readable) => BeginRestartEvent(s, readable)
    case SupLaunch(ok) => SupLaunchEvent(s, ok)
    case FinishRestart(deadline) => FinishRestartEvent(s, deadline)
    case FinishMissed => FinishMissedEvent(s)
    case Shutdown => ShutdownEvent(s)
    case EndShutdown => EndShutdownEvent(s)
  }

  /** A start's restore that did not come up is owed as a restart. */
  ghost function OweRestoreEvent(s: System, deploymentId: string, lease: nat, named: nat): System {
    if s.supervised || !s.sup.Calm? || !s.tx.Quiet? || s.m.stopping || s.m.serving.Some?
       || HeldByADeploy(s.m) || !s.m.restart.Idle?
    then s
    else if SlotNames(s.m.byGeneration, s.m.candidate, deploymentId) then
      var generation := s.m.candidate.value;
      var (emptied, taken) := TakeCandidate(s.m);
      var owed := Owed(deploymentId, taken.value.lease, generation);
      s.(m := LetGo(OweRestart(emptied.(restart := InHand(deploymentId)), owed, s.clock)),
         alive := s.alive - {generation},
         owedAt := s.clock)
    else if lease < s.ports && !Leased(s, lease) && named < s.counter then
      s.(m := OweRestart(s.m.(restart := InHand(deploymentId)), Owed(deploymentId, lease, named), s.clock),
         owedAt := s.clock)
    else s
  }

  /** The thread of a transaction that has handed over abandons its candidate
      last: by then the slot may hold a later transaction's candidate of the
      same deployment. */
  function LateAbandonEvent(s: System, deploymentId: string): System {
    if SlotNames(s.m.byGeneration, s.m.candidate, deploymentId) then s.(m := s.m.(abandoned := true)) else s
  }

  ghost function Happens(s: System, event: Event): System {
    match event
    case Tick(elapsed) => s.(clock := s.clock + elapsed)
    case Exits(generation) => s.(alive := s.alive - {generation})
    case OweRestore(deploymentId, lease, named) => OweRestoreEvent(s, deploymentId, lease, named)
    case LateAbandon(deploymentId) => LateAbandonEvent(s, deploymentId)
    case TxEvent(step) => TxHappens(s, step)
    case SupEvent(step) => SupHappens(s, step)
  }

  ghost function Run(s: System, events: seq<Event>): System
    decreases |events|
  {
    if events == [] then s else Run(Happens(s, events[0]), events[1..])
  }

  /** The registry as the agent builds it, over a counter and a port pool. */
  function Start(counter: nat, ports: nat): System {
    System(Empty, counter, map[], ports, Quiet, 0, Calm, false, 0, 0, [], [], [], 0)
  }
}
