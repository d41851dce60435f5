/** The agent over its state directory: one deploy or rollback at a time, a
    supervision thread that takes generations and re-stamps the active
    record, the descriptor documents, crashes, and starts that settle what
    they find. Every state write goes through the state store and may end
    wherever the disk likes. */
module AgentSystem {
  import opened Wrappers
  import opened Records
  import opened StateStore
  import opened StoreLaws
  import opened Changes
  import opened Recovery

  // ----- Descriptor documents -----

  /** A document is one file per deployment and generation. */
  type Key = (string, nat)

  /** The documents on disk. A power loss may undo what was done to an
      unsynced one. */
  datatype Library = Library(docs: map<Key, Identity>, unsynced: set<Key>)

  /** How a document write ends: synced, renamed but not synced, or not
      renamed at all. Only the first lets the state update go on. */
  datatype DocWrite = DocWritten | DocUnsynced | DocNotWritten

  function WriteDocument(library: Library, key: Key, identity: Identity, outcome: DocWrite): Library {
    match outcome
    case DocWritten => Library(library.docs[key := identity], {})
    case DocUnsynced => Library(library.docs[key := identity], library.unsynced + {key})
    case DocNotWritten => library
  }

  predicate NamesKey(named: Named, deploymentId: string, key: Key) {
    named.Names? && key == (deploymentId, named.identity.generation)
  }

  predicate RecordNamesKey(record: Option<DeploymentRecord>, key: Key) {
    record.Some? && NamesKey(record.value.named, record.value.deploymentId, key)
  }

  /** `key` is the file of a document a record of `s` names. */
  predicate StateNamesKey(s: AgentState, key: Key) {
    || RecordNamesKey(s.active, key)
    || RecordNamesKey(s.previous, key)
    || RecordNamesKey(s.candidate, key)
    || (s.inFlight.Some? && NamesKey(s.inFlight.value.named, s.inFlight.value.deploymentId, key))
  }

  // ----- What the outside answers -----

  datatype Env = Env(
    fails: bool,       // a verification, a staging, a derivation or a worker call is refused
    stopping: bool,    // the agent is being stopped
    faults: Faults,
    document: DocWrite,
    descriptor: string,
    configuration: string,
    at: nat,
    error: ErrorRecord)

  // ----- Transactions -----

  datatype Action =
    | Ask                                // a verification or a worker call: a refusal fails the transaction
    | Advance(from: Phase, to: Phase)    // a store error leaves the transaction in flight
    | NoteDigest
    | NoteCandidate
    | Name                               // takes the generation and names its descriptor
    | Commit
    | Activate                           // a refusal leaves the transaction in flight
    | Finish

  const DeployProgram: seq<Action> := [
    Ask, Advance(Received, Verified), NoteDigest,
    Ask, NoteCandidate, Advance(Verified, Staged),
    Ask, Advance(Staged, CapacityChecked), Name,
    Ask, Advance(CapacityChecked, Prepared),
    Ask, Advance(Prepared, Warmed),
    Ask, Commit, Activate, Finish]

  const RollbackProgram: seq<Action> := [
    Advance(Received, Verified), Advance(Verified, Staged), Advance(Staged, CapacityChecked), Name,
    Ask, Advance(CapacityChecked, Prepared),
    Ask, Advance(Prepared, Warmed),
    Ask, Commit, Activate, Finish]

  function Program(kind: Kind): seq<Action> {
    match kind case Deploy => DeployProgram case Rollback => RollbackProgram
  }

  /** The thread that drives a transaction. `target` is the candidate record
      of a deploy, and the previous record a rollback read before it began. */
  datatype Thread = Thread(
    kind: Kind,
    transactionId: string,
    target: DeploymentRecord,
    described: bool,
    pc: nat,
    failing: bool)

  type Pair = (Option<DeploymentRecord>, Option<DeploymentRecord>)

  function PairOf(s: AgentState): Pair {
    (s.active, s.previous)
  }

  /** What one state owes to the last transaction begun in it: the pair of
      records the transaction began from, and the pair its commit wrote if
      that write is in the state. */
  datatype Trail = Trail(base: Pair, kind: Kind, target: Option<DeploymentRecord>, commit: Option<Pair>)

  /** `trail` is the trail of the store's memory, `past` has the trail of
      every state whose write was tried, and a latched store also has the
      state whose write latched it pending. */
  datatype Agent = Agent(
    store: StoreState,
    library: Library,
    running: bool,
    thread: Option<Thread>,
    restart: Option<nat>,   // the generation a restart took and has not stamped
    trail: Trail,
    past: map<AgentState, Trail>,
    pending: Option<AgentState>)

  /** An update of the store, after which the state carries `trail`. */
  function Wrote<T>(agent: Agent, applied: Result<(AgentState, T)>, faults: Faults, trail: Trail): (Agent, Result<T>) {
    var (store, answer) := Updated(agent.store, applied, faults);
    var tried := Proposed(agent.store, applied);
    (agent.(store := store,
            trail := if answer.Ok? then trail else agent.trail,
            past := if tried.Some? then agent.past[agent.store.memory := agent.trail][tried.value := trail]
                else agent.past,
            pending := if store.indeterminate && !agent.store.indeterminate then tried else agent.pending), answer)
  }

  /** The trail of a state the next start reads. */
  function Remembered(agent: Agent, read: AgentState): Trail {
    if read != agent.store.memory && read in agent.past then agent.past[read] else agent.trail
  }

  /** What is asked of the store: the change, the trail of the state it makes,
      the documents it leaves, and whether a document was written for it,
      whose sync is a sync of the directory the state files are in too. */
  datatype Update = Update(change: Change, trail: Trail, library: Library, synced: bool)

  /** An update that writes no document. */
  function Plain(agent: Agent, change: Change, trail: Trail): Update {
    Update(change, trail, agent.library, false)
  }

  function SyncedFirst(agent: Agent, update: Update): Agent {
    if update.synced then agent.(store := agent.store.(disk := Synced(agent.store.disk))) else agent
  }

  /** A latched store runs nothing of an update. */
  function Applied(agent: Agent, update: Update, faults: Faults): (Agent, Result<()>) {
    if agent.store.indeterminate then (agent, Err(StateIndeterminate))
    else
      var (after, answer) := Wrote(SyncedFirst(agent, update), update.change, faults, update.trail);
      (after.(library := update.library), answer)
  }

  /** The agent after what was asked of its store, if anything. */
  function Did(agent: Agent, asked: Option<Update>, faults: Faults): Agent {
    if asked.None? then agent else Applied(agent, asked.value, faults).0
  }

  // ----- Updates that take and name a generation -----

  datatype Naming = Naming(applied: Change, library: Library)

  /** The transaction in flight, if it is this one. */
  predicate InFlight(s: AgentState, kind: Kind, transactionId: string, deploymentId: string) {
    && s.inFlight.Some?
    && s.inFlight.value.transactionId == transactionId
    && s.inFlight.value.kind == kind
    && s.inFlight.value.deploymentId == deploymentId
  }

  /** Write the document, then let the state update that names it go on. */
  function NamingUpdate(next: AgentState, library: Library, key: Key, identity: Identity, outcome: DocWrite): Naming {
    Naming(if outcome.DocWritten? then Changed(next) else Err(Io), WriteDocument(library, key, identity, outcome))
  }

  function NameDeploy(s: AgentState, library: Library, thread: Thread, env: Env): Naming {
    var target := thread.target;
    var taken := NextGeneration(s, 1);
    if s.candidate != Some(target) || taken.None? || env.fails
       || !InFlight(s, Deploy, thread.transactionId, target.deploymentId)
    then Naming(Err(Internal), library)
    else
      var identity := Identity(taken.value, env.descriptor, env.configuration);
      NamingUpdate(Allocated(s, taken.value).(candidate := Some(target.(named := Names(identity))),
                                        inFlight := Some(s.inFlight.value.(named := Names(identity)))),
             library, (target.deploymentId, taken.value), identity, env.document)
  }

  /** The document of `identity` is read back and re-stamped. */
  predicate Restampable(library: Library, deploymentId: string, identity: Identity, generation: nat, env: Env) {
    var key := (deploymentId, identity.generation);
    key in library.docs && library.docs[key] == identity && identity.generation < generation && !env.fails
  }

  function NameRollback(s: AgentState, library: Library, thread: Thread, env: Env): Naming {
    var target := thread.target;
    var taken := NextGeneration(s, 1);
    if s.previous != Some(target) || !target.named.Names? || taken.None?
       || !Restampable(library, target.deploymentId, target.named.identity, taken.value, env)
       || !InFlight(s, Rollback, thread.transactionId, target.deploymentId)
    then Naming(Err(Internal), library)
    else
      var identity := Identity(taken.value, env.descriptor, target.named.identity.configuration);
      NamingUpdate(Allocated(s, taken.value).(inFlight := Some(s.inFlight.value.(named := Names(identity)))),
             library, (target.deploymentId, taken.value), identity, env.document)
  }

  function NameOf(s: AgentState, library: Library, thread: Thread, env: Env): Naming {
    if thread.kind.Deploy? then NameDeploy(s, library, thread, env) else NameRollback(s, library, thread, env)
  }

  /** A start's restore of the active record. */
  function NameRestore(s: AgentState, library: Library, env: Env): Naming {
    var taken := NextGeneration(s, 1);
    if s.active.None? || !s.active.value.named.Names? || taken.None?
       || !Restampable(library, s.active.value.deploymentId, s.active.value.named.identity, taken.value, env)
    then Naming(Err(Internal), library)
    else
      var active := s.active.value;
      var identity := Identity(taken.value, env.descriptor, active.named.identity.configuration);
      NamingUpdate(Allocated(s, taken.value).(active := Some(active.(named := Names(identity)))),
             library, (active.deploymentId, taken.value), identity, env.document)
  }

  /** The restart stamp: the recipe of the stopped member names `identity`
      of `deploymentId`, and the restart took `generation` before. */
  function NameRestart(s: AgentState, library: Library, deploymentId: string, identity: Identity, generation: nat,
                       env: Env): Naming {
    if s.active.None? || s.active.value.deploymentId != deploymentId || s.active.value.named != Names(identity)
       || !Restampable(library, deploymentId, identity, generation, env)
    then Naming(Err(Internal), library)
    else
      var restamped := Identity(generation, env.descriptor, identity.configuration);
      NamingUpdate(s.(active := Some(s.active.value.(named := Names(restamped)))),
             library, (deploymentId, generation), restamped, env.document)
  }

  function NamingAsked(agent: Agent, naming: Naming): Update {
    Update(naming.applied, agent.trail, naming.library, naming.applied.Ok?)
  }

  // ----- Steps of the transaction thread -----

  function Proceeds(agent: Agent): Agent {
    if agent.thread.None? then agent
    else agent.(thread := Some(agent.thread.value.(pc := agent.thread.value.pc + 1)))
  }

  function Fails(agent: Agent): Agent {
    if agent.thread.None? then agent
    else agent.(thread := Some(agent.thread.value.(failing := true)))
  }

  function Leaves(agent: Agent): Agent {
    agent.(thread := None)
  }

  function CommitChange(s: AgentState, kind: Kind, at: nat): Change {
    match kind
    case Deploy => PromoteCandidate(s, at)
    case Rollback => SwapActiveWithPrevious(s, at)
  }

  /** The write that ends a failed transaction. */
  function FailChange(s: AgentState, kind: Kind, error: ErrorRecord): Change {
    match kind
    case Deploy => QuarantineInFlight(s, error)
    case Rollback => FailTransaction(s, error)
  }

  function CommitTrail(trail: Trail, change: Change): Trail {
    if change.Ok? then trail.(commit := Some(PairOf(change.value.0))) else trail
  }

  /** What an action of the thread's program asks of the store, if anything. */
  function ActionAsked(agent: Agent, thread: Thread, action: Action, env: Env): Option<Update> {
    var memory := agent.store.memory;
    match action
    case Ask => None
    case Activate => None
    case Advance(from, to) =>
      if !IsPermitted(from, to) then None
      else Some(Plain(agent, RecordPhase(memory, thread.transactionId, to), agent.trail))
    case NoteDigest => Some(Plain(agent, NoteBundleDigest(memory, thread.target.bundleDigest), agent.trail))
    case NoteCandidate => Some(Plain(agent, RecordCandidate(memory, thread.target), agent.trail))
    case Name =>
      if !thread.described then None else Some(NamingAsked(agent, NameOf(memory, agent.library, thread, env)))
    case Commit =>
      var change := CommitChange(memory, thread.kind, env.at);
      Some(Plain(agent, change, CommitTrail(agent.trail, change)))
    case Finish => Some(Plain(agent, EndTransaction(memory), agent.trail))
  }

  /** What an action that asks nothing of the store comes to. */
  predicate Refused(action: Action, env: Env) {
    action.Advance? || ((action.Ask? || action.Activate?) && env.fails)
  }

  /** Where an action leaves the thread: on its way, failing, or gone with the
      transaction in flight. */
  function TurnsOut(agent: Agent, action: Action, ok: bool): Agent {
    if action.Finish? then Leaves(agent)
    else if ok then Proceeds(agent)
    else if action.Ask? || action.Name? || action.Commit? then Fails(agent)
    else Leaves(agent)
  }

  function ActionStep(agent: Agent, thread: Thread, action: Action, env: Env): Agent {
    match ActionAsked(agent, thread, action, env)
    case None => TurnsOut(agent, action, !Refused(action, env))
    case Some(update) =>
      var (after, answer) := Applied(agent, update, env.faults);
      TurnsOut(after, action, answer.Ok?)
  }

  /** A transaction that fails while the agent stops is left in flight. */
  function FailAsked(agent: Agent, thread: Thread, env: Env): Option<Update> {
    if env.stopping then None
    else Some(Plain(agent, FailChange(agent.store.memory, thread.kind, env.error), agent.trail))
  }

  function ThreadStep(agent: Agent, env: Env): Agent {
    if !agent.running || agent.thread.None? then agent
    else
      var thread := agent.thread.value;
      if thread.failing then Leaves(Did(agent, FailAsked(agent, thread, env), env.faults))
      else if thread.pc >= |Program(thread.kind)| then Leaves(agent)
      else ActionStep(agent, thread, Program(thread.kind)[thread.pc], env)
  }

  /** The journal entry a transaction begins with. */
  function JournalEntry(kind: Kind, transactionId: string, target: DeploymentRecord): TransactionRecord {
    TransactionRecord(transactionId, target.deploymentId, Received, kind,
                      if kind.Rollback? then Some(target.bundleDigest) else None, None, Unnamed)
  }

  /** One transaction at a time. */
  function BeginAsked(agent: Agent, kind: Kind, transactionId: string, target: DeploymentRecord): Option<Update> {
    if !agent.running || agent.thread.Some? then None
    else
      var memory := agent.store.memory;
      Some(Plain(agent, BeginTransaction(memory, JournalEntry(kind, transactionId, target)),
                 Trail(PairOf(memory), kind, Some(target), None)))
  }

  function Begin(agent: Agent, kind: Kind, transactionId: string, target: DeploymentRecord, described: bool,
                 faults: Faults): Agent {
    match BeginAsked(agent, kind, transactionId, target)
    case None => agent
    case Some(update) =>
      var (after, answer) := Applied(agent, update, faults);
      if answer.Ok? then after.(thread := Some(Thread(kind, transactionId, target, described, 0, false))) else after
  }

  // ----- The other events -----

  datatype Event =
    | BeginDeploy(transactionId: string, target: DeploymentRecord, described: bool, faults: Faults)
    | BeginRollback(transactionId: string, target: DeploymentRecord, faults: Faults)
    | Step(env: Env)
    | RecordError(error: Option<ErrorRecord>, faults: Faults)
    | TakeForCandidate(faults: Faults)
    | TakeForRestart(faults: Faults)
    | Restamp(deploymentId: string, identity: Identity, env: Env)
    | Restore(env: Env)
    | Crashed(crash: Crash, primary: Content, backup: Content, docs: map<Key, Identity>)
    | Prune(removed: set<Key>)
    | SettleFound(faults: Faults)

  function TakeChange(s: AgentState): Change {
    match NextGeneration(s, 1)
    case None => Err(Internal)
    case Some(generation) => Changed(Allocated(s, generation))
  }

  /** The counter can hand out one more generation. */
  predicate HasGenerations(s: AgentState) {
    Counter(s) + 1 < MAX_STATE_COUNTER
  }

  function ErrorRecorded(agent: Agent, error: Option<ErrorRecord>, faults: Faults): Agent {
    Applied(agent, Plain(agent, SetLastError(agent.store.memory, error), agent.trail), faults).0
  }

  function TakenForCandidate(agent: Agent, faults: Faults): Agent {
    Applied(agent, Plain(agent, TakeChange(agent.store.memory), agent.trail), faults).0
  }

  function TakenForRestart(agent: Agent, faults: Faults): Agent {
    var (after, answer) := Applied(agent, Plain(agent, TakeChange(agent.store.memory), agent.trail), faults);
    after.(restart := if answer.Ok? then NextGeneration(agent.store.memory, 1) else None)
  }

  /** The stamp of the generation a restart took. */
  function RestampAsked(agent: Agent, deploymentId: string, identity: Identity, env: Env): Option<Update> {
    if agent.restart.None? then None
    else
      var naming := NameRestart(agent.store.memory, agent.library, deploymentId, identity, agent.restart.value, env);
      Some(NamingAsked(agent, naming))
  }

  function RestartStamped(agent: Agent, deploymentId: string, identity: Identity, env: Env): Agent {
    Did(agent, RestampAsked(agent, deploymentId, identity, env), env.faults).(restart := None)
  }

  function RestoreAsked(agent: Agent, env: Env): Option<Update> {
    if !agent.running || agent.thread.Some? then None
    else Some(NamingAsked(agent, NameRestore(agent.store.memory, agent.library, env)))
  }

  function Restored(agent: Agent, env: Env): Agent {
    Did(agent, RestoreAsked(agent, env), env.faults)
  }

  /** What the documents can be after a crash: a kill undoes nothing, a power
      loss what was not synced. */
  predicate DocsAfter(library: Library, crash: Crash, docs: map<Key, Identity>) {
    match crash
    case Kill => docs == library.docs
    case PowerLoss => docs - library.unsynced == library.docs - library.unsynced
  }

  /** A start of the agent over what a crash left. */
  function Restarted(agent: Agent, crash: Crash, primary: Content, backup: Content, docs: map<Key, Identity>): Agent {
    if !FindsPair(agent.store.disk, crash, primary, backup) || !DocsAfter(agent.library, crash, docs)
       || Open(primary, backup).OpenRefused?
    then agent
    else
      var disk := After(agent.store.disk, crash, primary, backup);
      var found := Open(primary, backup);
      Agent(StoreState(disk, found.state, found.primaryIsRead, false),
            Library(docs, if crash.Kill? then agent.library.unsynced else {}),
            false, None, None, Remembered(agent, found.state), agent.past[agent.store.memory := agent.trail], None)
  }

  /** A document may go at a start when neither state file names it. */
  predicate Prunable(store: StoreState, library: Library, key: Key) {
    && key in library.docs
    && (forall c :: c in [store.disk.primary.visible, store.disk.backup.visible] ==>
          !c.Unreadable? && !c.UnsupportedVersion? && (c.Good? ==> !StateNamesKey(c.state, key)))
  }

  /** The pruning of a start, before it writes anything. */
  function Pruned(agent: Agent, removed: set<Key>): Agent {
    if agent.running || agent.store.indeterminate
       || exists k :: k in removed && !Prunable(agent.store, agent.library, k)
    then agent
    else agent.(library := Library(agent.library.docs - removed, agent.library.unsynced + removed))
  }

  function SettleAsked(agent: Agent): Option<Update> {
    if agent.running || !SettleWrites(agent.store.memory) then None
    else Some(Plain(agent, SettleChange(agent.store.memory), agent.trail))
  }

  /** The settling of a start; once it is written the agent takes requests. */
  function Settled(agent: Agent, faults: Faults): Agent {
    match SettleAsked(agent)
    case None => agent.(running := true)
    case Some(update) =>
      var (after, answer) := Applied(agent, update, faults);
      after.(running := answer.Ok?)
  }

  function Happens(agent: Agent, event: Event): Agent {
    match event
    case BeginDeploy(transactionId, target, described, faults) =>
      Begin(agent, Deploy, transactionId, target.(named := Unnamed, promotedAt := None), described, faults)
    case BeginRollback(transactionId, target, faults) =>
      Begin(agent, Rollback, transactionId, target, !target.named.Unnamed?, faults)
    case Step(env) => ThreadStep(agent, env)
    case RecordError(error, faults) => ErrorRecorded(agent, error, faults)
    case TakeForCandidate(faults) => TakenForCandidate(agent, faults)
    case TakeForRestart(faults) => TakenForRestart(agent, faults)
    case Restamp(deploymentId, identity, env) => RestartStamped(agent, deploymentId, identity, env)
    case Restore(env) => Restored(agent, env)
    case Crashed(crash, primary, backup, docs) => Restarted(agent, crash, primary, backup, docs)
    case Prune(removed) => Pruned(agent, removed)
    case SettleFound(faults) => Settled(agent, faults)
  }

  function Run(agent: Agent, events: seq<Event>): Agent
    decreases |events|
  {
    if events == [] then agent else Run(Happens(agent, events[0]), events[1..])
  }
}
