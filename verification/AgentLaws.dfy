/** What every reachable state of the agent keeps, and what the next start
    makes of whatever a crash leaves. */
module AgentLaws {
  import opened Wrappers
  import opened Records
  import opened StateStore
  import opened StoreLaws
  import opened Changes
  import opened Recovery
  import opened AgentSystem

  // ----- Records up to a restart -----

  predicate LaterNamed(before: Named, after: Named) {
    || after == before
    || (&& before.Names? && after.Names?
        && before.identity.generation < after.identity.generation
        && before.identity.configuration == after.identity.configuration)
  }

  /** `after` is `before`, or `before` re-stamped for a later generation of
      the same configuration. */
  predicate LaterRecord(before: DeploymentRecord, after: DeploymentRecord) {
    after == before.(named := after.named) && LaterNamed(before.named, after.named)
  }

  predicate Later(before: Option<DeploymentRecord>, after: Option<DeploymentRecord>) {
    match (before, after)
    case (None, None) => true
    case (Some(b), Some(a)) => LaterRecord(b, a)
    case (_, _) => false
  }

  lemma LaterIsTransitive(a: Option<DeploymentRecord>, b: Option<DeploymentRecord>, c: Option<DeploymentRecord>)
    requires Later(a, b) && Later(b, c)
    ensures Later(a, c)
  {
  }

  // ----- What a state owes its last transaction -----

  /** The pair a commit writes, told from the pair its transaction began
      from: a deploy puts its candidate in front of the active record, a
      rollback puts the previous record back and retains the active one. */
  predicate CommitFollows(trail: Trail) {
    trail.commit.Some? ==>
      var (active, previous) := trail.commit.value;
      && Later(trail.base.0, previous)
      && active.Some? && active.value.promotedAt.Some?
      && match trail.kind
         case Deploy => trail.target.Some? && active.value.(named := Unnamed, promotedAt := None) == trail.target.value
         case Rollback =>
           && trail.base.1.Some?
           && LaterRecord(trail.base.1.value, active.value.(promotedAt := trail.base.1.value.promotedAt))
  }

  /** The records of `s` are the pair its transaction began from or the pair
      its commit wrote, up to a restart of the active one. */
  predicate RecordsFollow(s: AgentState, trail: Trail) {
    && CommitFollows(trail)
    && match trail.commit
       case None => Later(trail.base.0, s.active) && s.previous == trail.base.1
       case Some((active, previous)) => Later(active, s.active) && s.previous == previous
  }

  predicate Early(phase: Phase) {
    !phase.Promoted? && !IsTerminal(phase)
  }

  /** A committed rollback's active record is the one its transaction names. */
  predicate Swapped(s: AgentState, tx: TransactionRecord, target: DeploymentRecord) {
    && tx.deploymentId == target.deploymentId
    && tx.bundleDigest == Some(target.bundleDigest)
    && (tx.named.Names? ==>
      && s.active.Some? && s.active.value.deploymentId == tx.deploymentId
      && s.active.value.named.Names?
      && s.active.value.named.identity.generation >= tx.named.identity.generation
      && s.active.value.named.identity.configuration == tx.named.identity.configuration)
  }

  predicate JournalAgrees(s: AgentState, trail: Trail) {
    s.inFlight.Some? ==>
      var tx := s.inFlight.value;
      && tx.kind == trail.kind && trail.target.Some?
      && (trail.commit.None? ==> Early(tx.phase))
      && (trail.commit.Some? ==>
        && tx.phase.Promoted?
        && (tx.kind.Deploy? ==> s.candidate.None?)
        && (tx.kind.Rollback? ==> Swapped(s, tx, trail.target.value)))
  }

  predicate Follows(s: AgentState, trail: Trail) {
    RecordsFollow(s, trail) && JournalAgrees(s, trail)
  }

  /** The record a rollback read before it began is still the previous one
      when it began, as far as its id and its bundle tell. */
  predicate ReadWhatItFound(trail: Trail) {
    && trail.target.Some? && trail.base.1.Some?
    && trail.target.value.deploymentId == trail.base.1.value.deploymentId
    && DigestsEqual(trail.target.value.bundleDigest, trail.base.1.value.bundleDigest)
  }

  /** In every state that follows its trail, a start reads the transaction in
      flight as committed exactly when its commit write is in the state, a
      restart of the active record since included; for a rollback between
      records that name no descriptor, exactly when moreover the record it
      read was still the previous one as it began. */
  lemma CommitIsReadFromTheRecords(s: AgentState, trail: Trail)
    requires ValidState(s) && Follows(s, trail) && s.inFlight.Some?
    ensures var tx := s.inFlight.value;
            Committed(s, tx) <==>
              trail.commit.Some? && (tx.kind.Deploy? || tx.named.Names? || ReadWhatItFound(trail))
  {
  }

  // ----- Documents -----

  predicate DocumentOf(library: Library, deploymentId: string, named: Named) {
    named.Names? ==>
      var key := (deploymentId, named.identity.generation);
      key in library.docs && library.docs[key] == named.identity && key !in library.unsynced
  }

  predicate RecordDocumented(library: Library, record: Option<DeploymentRecord>) {
    record.Some? ==> DocumentOf(library, record.value.deploymentId, record.value.named)
  }

  /** Every document a record of `s` names is on disk, durable, with exactly
      the named identity. */
  predicate Documented(s: AgentState, library: Library) {
    && RecordDocumented(library, s.active)
    && RecordDocumented(library, s.previous)
    && RecordDocumented(library, s.candidate)
    && (s.inFlight.Some? ==> DocumentOf(library, s.inFlight.value.deploymentId, s.inFlight.value.named))
  }

  predicate RecordNamesGeneration(record: Option<DeploymentRecord>, generation: nat) {
    record.Some? && record.value.named.Names? && record.value.named.identity.generation == generation
  }

  predicate NamesGeneration(s: AgentState, generation: nat) {
    || RecordNamesGeneration(s.active, generation)
    || RecordNamesGeneration(s.previous, generation)
    || RecordNamesGeneration(s.candidate, generation)
    || (s.inFlight.Some? && s.inFlight.value.named.Names? && s.inFlight.value.named.identity.generation == generation)
  }

  lemma FreshGenerationsAreUnnamed(s: AgentState, generation: nat)
    requires ValidState(s) && Counter(s) <= generation
    ensures !NamesGeneration(s, generation)
  {
  }

  // ----- The invariant -----

  /** A state that meets what the store promises of it, with its trail. */
  predicate Recorded(s: AgentState, trail: Trail) {
    ValidState(s) && Follows(s, trail)
  }

  predicate InPast(past: map<AgentState, Trail>, s: AgentState) {
    s in past
  }

  ghost predicate PastRecorded(past: map<AgentState, Trail>) {
    forall s {:trigger InPast(past, s)} :: InPast(past, s) ==> Recorded(s, past[s])
  }

  lemma PastGrows(past: map<AgentState, Trail>, s: AgentState, trail: Trail)
    requires PastRecorded(past) && Recorded(s, trail)
    ensures PastRecorded(past[s := trail])
  {
    var grown := past[s := trail];
    forall k | InPast(grown, k) ensures Recorded(k, grown[k]) {
      assert k == s || InPast(past, k);
    }
  }

  /** The memory, and every state whose write was tried. */
  function Known(agent: Agent): set<AgentState> {
    agent.past.Keys + {agent.store.memory}
  }

  /** Whatever a kill or a power loss leaves is a state of `known`. A kill
      leaves the memory, or the state whose write latched the store. */
  ghost predicate Filed(store: StoreState, known: set<AgentState>, pending: Option<AgentState>) {
    && Anchored(store, Kill)
    && Reads(store.disk, PowerLoss, known)
    && (pending.Some? <==> store.indeterminate)
    && (pending.Some? ==> Reads(store.disk, Kill, {pending.value}))
  }

  /** The files hold states the agent knows, and every state it knows follows
      its trail. */
  ghost predicate Sound(agent: Agent) {
    && Filed(agent.store, Known(agent), agent.pending)
    && Recorded(agent.store.memory, agent.trail)
    && PastRecorded(agent.past)
  }

  const DeployCandidateAt := 4
  const DeployNameAt := 8
  const RollbackNameAt := 3

  function CommitAt(kind: Kind): nat {
    match kind case Deploy => 14 case Rollback => 9
  }

  function PhaseAt(kind: Kind, pc: nat): Phase {
    match kind
    case Deploy =>
      if pc <= 1 then Received else if pc <= 5 then Verified else if pc <= 7 then Staged
      else if pc <= 10 then CapacityChecked else if pc <= 12 then Prepared else if pc <= 14 then Warmed else Promoted
    case Rollback =>
      if pc <= 0 then Received else if pc <= 1 then Verified else if pc <= 2 then Staged
      else if pc <= 5 then CapacityChecked else if pc <= 7 then Prepared else if pc <= 9 then Warmed else Promoted
  }

  predicate DeployAgrees(s: AgentState, thread: Thread, tx: TransactionRecord) {
    && thread.target.named.Unnamed? && thread.target.promotedAt.None?
    && (thread.pc <= DeployNameAt ==> tx.named.Unnamed?)
    && (thread.pc > DeployNameAt ==> (thread.described <==> tx.named.Names?))
    && (DeployCandidateAt < thread.pc <= CommitAt(Deploy) ==> s.candidate == Some(thread.target.(named := tx.named)))
  }

  predicate RollbackAgrees(s: AgentState, thread: Thread, tx: TransactionRecord) {
    && tx.bundleDigest == Some(thread.target.bundleDigest)
    && (thread.described <==> !thread.target.named.Unnamed?)
    && (thread.pc <= RollbackNameAt ==> tx.named.Unnamed?)
    && (thread.pc > RollbackNameAt ==> (thread.described <==> tx.named.Names?))
    && (tx.named.Names? && thread.pc <= CommitAt(Rollback) ==>
      && s.previous == Some(thread.target) && thread.target.named.Names?
      && thread.target.named.identity.generation < tx.named.identity.generation
      && thread.target.named.identity.configuration == tx.named.identity.configuration)
  }

  /** The journal stands where the thread that drives it does. */
  predicate ThreadAgrees(thread: Thread, s: AgentState, trail: Trail) {
    && InFlight(s, thread.kind, thread.transactionId, thread.target.deploymentId)
    && trail.kind == thread.kind && trail.target == Some(thread.target)
    && thread.pc <= |Program(thread.kind)|
    && (thread.failing ==> thread.pc <= CommitAt(thread.kind))
    && s.inFlight.value.phase == PhaseAt(thread.kind, thread.pc)
    && (trail.commit.Some? <==> thread.pc > CommitAt(thread.kind))
    && (thread.kind.Deploy? ==> DeployAgrees(s, thread, s.inFlight.value))
    && (thread.kind.Rollback? ==> RollbackAgrees(s, thread, s.inFlight.value))
  }

  /** A generation a restart took is named by nothing until it is stamped. */
  predicate RestartFresh(generation: nat, s: AgentState) {
    s.nextGeneration.Some? && generation < s.nextGeneration.value && !NamesGeneration(s, generation)
  }

  predicate Driven(agent: Agent) {
    && (agent.thread.Some? ==> agent.running)
    && (!agent.store.indeterminate ==>
      && (agent.thread.Some? ==> ThreadAgrees(agent.thread.value, agent.store.memory, agent.trail))
      && (agent.restart.Some? ==> RestartFresh(agent.restart.value, agent.store.memory)))
  }

  ghost predicate Inv(agent: Agent) {
    Sound(agent) && Driven(agent)
  }

  // ----- One update -----

  lemma WritesStayFiled<T>(store: StoreState, applied: Result<(AgentState, T)>, faults: Faults,
                           known: set<AgentState>, pending: Option<AgentState>, more: set<AgentState>)
    requires Filed(store, known, pending) && known <= more
    requires Proposed(store, applied).Some? ==> Proposed(store, applied).value in more
    ensures var after := Updated(store, applied, faults).0;
            var latched := if after.indeterminate && !store.indeterminate then Proposed(store, applied) else pending;
            Filed(after, more, latched)
  {
    UpdateOutcome(store, applied, faults, Kill);
    if Proposed(store, applied).Some? {
      WritesReadNothingElse(store.disk, Proposed(store, applied).value, store.primaryIsRead, faults, known);
    }
  }

  /** What an update answers, and what it leaves in memory. */
  lemma WritesAnswer<T>(agent: Agent, applied: Result<(AgentState, T)>, faults: Faults, trail: Trail)
    ensures agent.store.indeterminate ==> Wrote(agent, applied, faults, trail).0 == agent
    ensures var (after, answer) := Wrote(agent, applied, faults, trail);
            && after == agent.(store := after.store, trail := after.trail, past := after.past, pending := after.pending)
            && (answer.Ok? ==>
              && Proposed(agent.store, applied) == Some(after.store.memory) && !after.store.indeterminate
              && after.trail == trail)
            && (answer.Err? ==> after.store.memory == agent.store.memory && after.trail == agent.trail)
            && var tried := Proposed(agent.store, applied);
               after.past == if tried.None? then agent.past
                             else agent.past[agent.store.memory := agent.trail][tried.value := trail]
  {
  }

  lemma WritesStaySound<T>(agent: Agent, applied: Result<(AgentState, T)>, faults: Faults, trail: Trail)
    requires Sound(agent)
    requires Proposed(agent.store, applied).Some? ==> Follows(applied.value.0, trail)
    ensures Sound(Wrote(agent, applied, faults, trail).0)
    ensures agent.store.indeterminate ==> Wrote(agent, applied, faults, trail).0 == agent
    ensures var (after, answer) := Wrote(agent, applied, faults, trail);
            && (answer.Ok? ==> applied.Ok? && after.store.memory == Stamped(applied.value.0) && after.trail == trail)
            && (answer.Err? ==> after.store.memory == agent.store.memory && after.trail == agent.trail)
  {
    var after := Wrote(agent, applied, faults, trail).0;
    WritesAnswer(agent, applied, faults, trail);
    if Proposed(agent.store, applied).Some? {
      PastGrows(agent.past, agent.store.memory, agent.trail);
      PastGrows(agent.past[agent.store.memory := agent.trail], Proposed(agent.store, applied).value, trail);
    }
    assert Known(agent) <= Known(after);
    WritesStayFiled(agent.store, applied, faults, Known(agent), agent.pending, Known(after));
  }

  /** A sync takes choices from the next crash, and changes nothing else. */
  lemma SyncingStaysSound(agent: Agent, update: Update)
    requires Sound(agent)
    ensures Sound(SyncedFirst(agent, update))
  {
    var disk := agent.store.disk;
    assert forall p, b :: FindsPair(Synced(disk), PowerLoss, p, b) ==> FindsPair(disk, PowerLoss, p, b);
  }

  /** What an update leaves, answered or not. */
  lemma UpdatesAnswer(agent: Agent, update: Update, faults: Faults)
    ensures agent.store.indeterminate ==> Applied(agent, update, faults).0 == agent
    ensures var (after, answer) := Applied(agent, update, faults);
            && after.thread == agent.thread && after.restart == agent.restart && after.running == agent.running
            && (answer.Ok? ==>
                  && !agent.store.indeterminate && update.change.Ok? && after.trail == update.trail
                  && after.store.memory == Stamped(update.change.value.0) && !after.store.indeterminate
                  && Writable(agent.store.memory, after.store.memory))
            && (answer.Err? ==> after.store.memory == agent.store.memory && after.trail == agent.trail)
  {
    WritesAnswer(SyncedFirst(agent, update), update.change, faults, update.trail);
  }

  lemma UpdatesStaySound(agent: Agent, update: Update, faults: Faults)
    requires Sound(agent)
    requires !agent.store.indeterminate && update.change.Ok? ==> Follows(update.change.value.0, update.trail)
    ensures Sound(Applied(agent, update, faults).0)
  {
    if !agent.store.indeterminate {
      SyncingStaysSound(agent, update);
      WritesStaySound(SyncedFirst(agent, update), update.change, faults, update.trail);
    }
  }
}
