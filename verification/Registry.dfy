/** The registry of serving workers: its members, the slots they hold, the
    restart it owes, and the lock sections that change them. */
module Registry {
  import opened Wrappers

  /** A member generation: what it serves and the ports it holds. */
  datatype Member = Member(deploymentId: string, lease: nat)

  /** A restart that is owed: the member and the ports of the generation that
      stopped, and its stamp. */
  datatype Owed = Owed(deploymentId: string, lease: nat, stamped: nat)

  datatype Restart =
    | Idle
    | Due(owed: Owed, due: nat)
    | InHand(deploymentId: string)
    | Loading(deadline: nat, probeAt: nat)
    | GivenUp(deploymentId: string)

  /** What the registry's lock guards. `draining` lists the members asked to
      stop whose process was not dropped, the retiring ones among them.
      `outside` counts the members and launches a thread holds outside the
      map. Times are milliseconds. */
  datatype Members = Members(
    byGeneration: map<nat, Member>,
    draining: map<nat, Member>,
    retiring: set<nat>,
    serving: Option<nat>,
    candidate: Option<nat>,
    abandoned: bool,
    preparing: nat,
    restart: Restart,
    restarts: seq<nat>,
    stopping: bool,
    outside: nat)

  const Empty := Members(map[], map[], {}, None, None, false, 0, Idle, [], false, 0)

  /** The wait before the first, second and third restart inside the window. */
  const RESTART_DELAYS: seq<nat> := [1000, 2000, 4000]
  const RESTART_WINDOW: nat := 300000

  function Take(m: Members, generation: nat): (Members, Option<Member>) {
    if generation in m.byGeneration then
      (m.(byGeneration := m.byGeneration - {generation}, outside := m.outside + 1), Some(m.byGeneration[generation]))
    else (m, None)
  }

  function TakeCandidate(m: Members): (Members, Option<Member>) {
    if m.candidate.None? then (m, None)
    else Take(m.(candidate := None, abandoned := false), m.candidate.value)
  }

  function TakeServing(m: Members): (Members, Option<Member>) {
    if m.serving.None? then (m, None) else Take(m.(serving := None), m.serving.value)
  }

  function Released(count: nat): nat {
    if count == 0 then 0 else count - 1
  }

  /** Put a member a thread held outside into the map. */
  function Admit(m: Members, generation: nat, member: Member): Members {
    m.(byGeneration := m.byGeneration[generation := member], outside := Released(m.outside))
  }

  predicate HeldByADeploy(m: Members) {
    m.preparing > 0 || (m.candidate.Some? && !m.abandoned)
  }

  /** Whether a launch may start `generation`: one handed to the registry is
      above every generation it holds, one it took itself is not running. */
  ghost predicate Admissible(m: Members, generation: nat, handed: bool) {
    if !handed then generation !in m.byGeneration
    else
      && (forall g :: g in m.byGeneration ==> g < generation)
      && (forall g :: g in m.draining ==> g < generation)
      && (m.restart.Due? ==> m.restart.owed.stamped < generation)
  }

  predicate SlotNames(members: map<nat, Member>, slot: Option<nat>, deploymentId: string) {
    slot.Some? && slot.value in members && members[slot.value].deploymentId == deploymentId
  }

  /** Before a stop the map holds the serving and the candidate generation,
      which differ, and nothing else; from then on it is empty. */
  ghost predicate SlotsHold(stopping: bool, members: map<nat, Member>, serving: Option<nat>, candidate: Option<nat>) {
    if stopping then members == map[] && serving.None? && candidate.None?
    else
      && (forall g :: g in members <==> serving == Some(g) || candidate == Some(g))
      && (serving.Some? ==> serving != candidate)
  }

  predicate RestartNames(m: Members, deploymentId: string) {
    match m.restart
    case Due(owed, _) => owed.deploymentId == deploymentId
    case InHand(id) => id == deploymentId
    case GivenUp(id) => id == deploymentId
    case Idle => false
    case Loading(_, _) => false
  }

  predicate RestartInHand(m: Members, deploymentId: string) {
    !m.stopping && m.restart == InHand(deploymentId)
  }

  function ForgetRestart(m: Members): Members {
    m.(restart := Idle, restarts := [])
  }

  /** Record a member that left the map as draining. */
  function Stopping(m: Members, generation: nat, member: Member): Members {
    m.(draining := m.draining[generation := member])
  }

  /** Hold a member that left the serving slot as retiring. */
  function RetireLater(m: Members, generation: nat, member: Member): Members {
    Stopping(m, generation, member).(retiring := m.retiring + {generation})
  }

  /** The restarts of `made`, oldest first, that still count at `now`. */
  function Recent(made: seq<nat>, now: nat): seq<nat> {
    if made != [] && now >= made[0] + RESTART_WINDOW then Recent(made[1..], now) else made
  }

  /** The restart in hand becomes due after the delay its count in the window
      gives, or is the last one and the member is given up. */
  function OweRestart(m: Members, owed: Owed, now: nat): Members {
    if m.restart != InHand(owed.deploymentId) then m
    else
      var recent := Recent(m.restarts, now);
      m.(restarts := recent,
         restart := if |recent| < |RESTART_DELAYS| then Due(owed, now + RESTART_DELAYS[|recent|])
                    else GivenUp(owed.deploymentId))
  }

  /** The section in which a candidate takes the serving slot and the member
      it replaces is retired. */
  function Activated(m: Members, deploymentId: string): Option<Members> {
    if m.stopping || !SlotNames(m.byGeneration, m.candidate, deploymentId) then None
    else
      var generation := m.candidate.value;
      var (taken, prepared) := TakeCandidate(m);
      var (emptied, left) := TakeServing(taken);
      var serving := ForgetRestart(Admit(emptied, generation, prepared.value).(serving := Some(generation)));
      Some(if left.Some? then RetireLater(serving, m.serving.value, left.value) else serving)
  }

  function UnloadServing(m: Members, deploymentId: string): Members {
    if SlotNames(m.byGeneration, m.serving, deploymentId) then
      var (emptied, left) := TakeServing(m);
      if left.Some? then RetireLater(emptied, m.serving.value, left.value) else emptied
    else m
  }

  function UnloadCandidate(m: Members, deploymentId: string): Members {
    if SlotNames(m.byGeneration, m.candidate, deploymentId) then
      var (emptied, left) := TakeCandidate(m);
      if left.Some? then Stopping(emptied, m.candidate.value, left.value) else emptied
    else m
  }

  function UnloadRestart(m: Members, deploymentId: string): Members {
    if RestartNames(m, deploymentId) then ForgetRestart(m) else m
  }

  /** The section that unloads a deployment. */
  function Unloaded(m: Members, deploymentId: string): Members {
    UnloadRestart(UnloadCandidate(UnloadServing(m, deploymentId), deploymentId), deploymentId)
  }

  /** The section that starts a stop: nothing is left in the map or among
      the retiring, everything is draining. */
  function StopAll(m: Members): Members {
    m.(stopping := true, serving := None, candidate := None,
       draining := m.draining + m.byGeneration, byGeneration := map[], retiring := {})
  }
}
