/** The descriptor documents over every run of kills and power losses: when
    every start finds what the records it reads name, and when it does not. */
module AgentDocuments {
  import opened Wrappers
  import opened Records
  import opened StateStore
  import opened StoreLaws
  import opened Changes
  import opened Recovery
  import opened AgentSystem
  import opened AgentLaws
  import opened AgentRuns

  // ----- Every event but a crash and a prune is at most one update -----

  predicate Updates(event: Event) {
    !event.Crashed? && !event.Prune?
  }

  function StepAsked(agent: Agent, env: Env): Option<Update> {
    if !agent.running || agent.thread.None? then None
    else
      var thread := agent.thread.value;
      if thread.failing then FailAsked(agent, thread, env)
      else if thread.pc >= |Program(thread.kind)| then None
      else ActionAsked(agent, thread, Program(thread.kind)[thread.pc], env)
  }

  /** What an event asks of the store, if anything. */
  function Asked(agent: Agent, event: Event): Option<Update>
    requires Updates(event)
  {
    match event
    case BeginDeploy(transactionId, target, _, _) =>
      BeginAsked(agent, Deploy, transactionId, target.(named := Unnamed, promotedAt := None))
    case BeginRollback(transactionId, target, _) => BeginAsked(agent, Rollback, transactionId, target)
    case Step(env) => StepAsked(agent, env)
    case RecordError(error, _) => Some(Plain(agent, SetLastError(agent.store.memory, error), agent.trail))
    case TakeForCandidate(_) => Some(Plain(agent, TakeChange(agent.store.memory), agent.trail))
    case TakeForRestart(_) => Some(Plain(agent, TakeChange(agent.store.memory), agent.trail))
    case Restamp(deploymentId, identity, env) => RestampAsked(agent, deploymentId, identity, env)
    case Restore(env) => RestoreAsked(agent, env)
    case SettleFound(_) => SettleAsked(agent)
  }

  function FaultsMet(event: Event): Faults
    requires Updates(event)
  {
    match event
    case BeginDeploy(_, _, _, faults) => faults
    case BeginRollback(_, _, faults) => faults
    case Step(env) => env.faults
    case RecordError(_, faults) => faults
    case TakeForCandidate(faults) => faults
    case TakeForRestart(faults) => faults
    case Restamp(_, _, env) => env.faults
    case Restore(env) => env.faults
    case SettleFound(faults) => faults
  }

  /** `after` is `done` but for what its threads do next. */
  predicate Agrees(after: Agent, done: Agent) {
    after == done.(thread := after.thread, restart := after.restart, running := after.running)
  }

  lemma ThreadsMoveApart(agent: Agent, action: Action, ok: bool)
    ensures Agrees(TurnsOut(agent, action, ok), agent)
  {
  }

  lemma ActionsAreUpdates(agent: Agent, thread: Thread, action: Action, env: Env)
    ensures Agrees(ActionStep(agent, thread, action, env),
                   Did(agent, ActionAsked(agent, thread, action, env), env.faults))
  {
    match ActionAsked(agent, thread, action, env)
    case None => ThreadsMoveApart(agent, action, !Refused(action, env));
    case Some(update) =>
      var (after, answer) := Applied(agent, update, env.faults);
      ThreadsMoveApart(after, action, answer.Ok?);
  }

  lemma StepsAreUpdates(agent: Agent, env: Env)
    ensures Agrees(ThreadStep(agent, env), Did(agent, StepAsked(agent, env), env.faults))
  {
    if agent.thread.Some? {
      var thread := agent.thread.value;
      if thread.pc < |Program(thread.kind)| {
        ActionsAreUpdates(agent, thread, Program(thread.kind)[thread.pc], env);
      }
    }
  }

  lemma EventsAreUpdates(agent: Agent, event: Event)
    requires Updates(event)
    ensures Agrees(Happens(agent, event), Did(agent, Asked(agent, event), FaultsMet(event)))
  {
    match event
    case Step(env) => StepsAreUpdates(agent, env);
    case _ =>
  }

  // ----- What a start may read, and what it then looks for -----

  /** No state a start may read, after a kill or a power loss, names `key`. */
  ghost predicate NoneNames(disk: Disk, key: Key) {
    forall p, b :: FindsPair(disk, PowerLoss, p, b) ==> Open(p, b).Opened? ==> !StateNamesKey(Open(p, b).state, key)
  }

  function DocumentedOf(known: set<AgentState>, library: Library): set<AgentState> {
    set s | s in known && Documented(s, library)
  }

  /** Whatever state a start reads, its documents are on disk and durable. */
  ghost predicate AllDocumented(disk: Disk, known: set<AgentState>, library: Library) {
    Reads(disk, PowerLoss, DocumentedOf(known, library))
  }

  ghost predicate DocumentsKept(agent: Agent) {
    AllDocumented(agent.store.disk, Known(agent), agent.library)
  }

  /** A durable document of `before` that is not durable, as it was, in `after`. */
  predicate Loses(before: Library, after: Library, key: Key) {
    && key in before.docs && key !in before.unsynced
    && !(key in after.docs && after.docs[key] == before.docs[key] && key !in after.unsynced)
  }

  /** No document is lost that a state a start may read names. */
  ghost predicate Spares(disk: Disk, before: Library, after: Library) {
    forall k :: Loses(before, after, k) ==> NoneNames(disk, k)
  }

  lemma SparedDocumentsStay(deploymentId: string, named: Named, before: Library, after: Library)
    requires DocumentOf(before, deploymentId, named)
    requires forall k :: Loses(before, after, k) ==> !NamesKey(named, deploymentId, k)
    ensures DocumentOf(after, deploymentId, named)
  {
    if named.Names? {
      assert NamesKey(named, deploymentId, (deploymentId, named.identity.generation));
    }
  }

  lemma SparedRecordsStayDocumented(record: Option<DeploymentRecord>, before: Library, after: Library)
    requires RecordDocumented(before, record)
    requires forall k :: Loses(before, after, k) ==> !RecordNamesKey(record, k)
    ensures RecordDocumented(after, record)
  {
    if record.Some? {
      SparedDocumentsStay(record.value.deploymentId, record.value.named, before, after);
    }
  }

  lemma SparedStatesStayDocumented(s: AgentState, before: Library, after: Library)
    requires Documented(s, before)
    requires forall k :: Loses(before, after, k) ==> !StateNamesKey(s, k)
    ensures Documented(s, after)
  {
    SparedRecordsStayDocumented(s.active, before, after);
    SparedRecordsStayDocumented(s.previous, before, after);
    SparedRecordsStayDocumented(s.candidate, before, after);
    if s.inFlight.Some? {
      SparedDocumentsStay(s.inFlight.value.deploymentId, s.inFlight.value.named, before, after);
    }
  }

  /** Documents none of the readable states names may go, and no others. */
  lemma SparingIsExact(disk: Disk, known: set<AgentState>, before: Library, after: Library)
    requires AllDocumented(disk, known, before)
    ensures AllDocumented(disk, known, after) <==> Spares(disk, before, after)
  {
    if Spares(disk, before, after) {
      forall p, b | FindsPair(disk, PowerLoss, p, b)
        ensures Open(p, b).Opened? && Open(p, b).state in DocumentedOf(known, after)
      {
        SparedStatesStayDocumented(Open(p, b).state, before, after);
      }
    }
    if AllDocumented(disk, known, after) {
      forall k | Loses(before, after, k) ensures NoneNames(disk, k) {
        forall p, b | FindsPair(disk, PowerLoss, p, b) && Open(p, b).Opened?
          ensures !StateNamesKey(Open(p, b).state, k)
        {
          assert Documented(Open(p, b).state, after) && Documented(Open(p, b).state, before);
        }
      }
    }
  }

  // ----- Updates -----

  lemma SyncsReadNothingElse(disk: Disk, states: set<AgentState>)
    requires Reads(disk, PowerLoss, states)
    ensures Reads(Synced(disk), PowerLoss, states)
  {
    assert forall p, b :: FindsPair(Synced(disk), PowerLoss, p, b) ==> FindsPair(disk, PowerLoss, p, b);
  }

  /** Stopped anywhere, an update lets the next start read what it could read
      before, or the state proposed. */
  lemma UpdatesReadNothingElse(agent: Agent, update: Update, faults: Faults, states: set<AgentState>)
    requires !agent.store.indeterminate && Reads(agent.store.disk, PowerLoss, states)
    ensures var tried := Proposed(agent.store, update.change);
            Reads(Applied(agent, update, faults).0.store.disk, PowerLoss,
                  if tried.Some? then states + {tried.value} else states)
  {
    var store := SyncedFirst(agent, update).store;
    SyncsReadNothingElse(agent.store.disk, states);
    if Proposed(store, update.change).Some? {
      WritesReadNothingElse(store.disk, Proposed(store, update.change).value, store.primaryIsRead, faults, states);
    }
  }

  lemma UpdatesStayDocumented(agent: Agent, update: Update, faults: Faults, known: set<AgentState>,
                              more: set<AgentState>)
    requires AllDocumented(agent.store.disk, known, agent.library) && known <= more
    requires !agent.store.indeterminate && Spares(agent.store.disk, agent.library, update.library)
    requires var tried := Proposed(agent.store, update.change);
             tried.Some? ==> tried.value in more && Documented(tried.value, update.library)
    ensures AllDocumented(Applied(agent, update, faults).0.store.disk, more, update.library)
  {
    SparingIsExact(agent.store.disk, known, agent.library, update.library);
    var documented := DocumentedOf(known, update.library);
    UpdatesReadNothingElse(agent, update, faults, documented);
    var tried := Proposed(agent.store, update.change);
    assert (if tried.Some? then documented + {tried.value} else documented) <= DocumentedOf(more, update.library);
  }

  /** An unlatched agent's memory is one of the states a start may read. */
  lemma MemoriesAreDocumented(agent: Agent)
    requires Sound(agent) && DocumentsKept(agent) && !agent.store.indeterminate
    ensures Documented(agent.store.memory, agent.library)
    ensures forall k :: NoneNames(agent.store.disk, k) ==> !StateNamesKey(agent.store.memory, k)
  {
    assert FindsPair(agent.store.disk, PowerLoss, agent.store.disk.primary.visible, agent.store.disk.backup.visible);
  }

  lemma NamesAreDocumented(s: AgentState, library: Library, thread: Thread, env: Env)
    requires NameOf(s, library, thread, env).applied.Ok?
    requires Documented(s, NameOf(s, library, thread, env).library)
    ensures var naming := NameOf(s, library, thread, env);
            Documented(naming.applied.value.0, naming.library)
  {
  }

  lemma RestampsAreDocumented(s: AgentState, library: Library, deploymentId: string, identity: Identity,
                              generation: nat, env: Env)
    requires NameRestart(s, library, deploymentId, identity, generation, env).applied.Ok?
    requires Documented(s, NameRestart(s, library, deploymentId, identity, generation, env).library)
    ensures var naming := NameRestart(s, library, deploymentId, identity, generation, env);
            Documented(naming.applied.value.0, naming.library)
  {
  }

  lemma RestoresAreDocumented(s: AgentState, library: Library, env: Env)
    requires NameRestore(s, library, env).applied.Ok? && Documented(s, NameRestore(s, library, env).library)
    ensures var naming := NameRestore(s, library, env);
            Documented(naming.applied.value.0, naming.library)
  {
  }

  lemma ActionsAreDocumented(agent: Agent, thread: Thread, action: Action, env: Env)
    requires About(agent, action) && agent.thread == Some(thread) && !agent.store.indeterminate
    requires var asked := ActionAsked(agent, thread, action, env);
             asked.Some? && asked.value.change.Ok? && Documented(agent.store.memory, asked.value.library)
    ensures var update := ActionAsked(agent, thread, action, env).value;
            Documented(update.change.value.0, update.library)
  {
    ProgramShape(thread.kind, thread.pc);
    if action.Name? {
      NamesAreDocumented(agent.store.memory, agent.library, thread, env);
    }
  }

  lemma StepsAreDocumented(agent: Agent, env: Env)
    requires Inv(agent) && !agent.store.indeterminate
    requires var asked := StepAsked(agent, env);
             asked.Some? && asked.value.change.Ok? && Documented(agent.store.memory, asked.value.library)
    ensures Documented(StepAsked(agent, env).value.change.value.0, StepAsked(agent, env).value.library)
  {
    var thread := agent.thread.value;
    if !thread.failing {
      ActionsAreDocumented(agent, thread, Program(thread.kind)[thread.pc], env);
    }
  }

  /** A record an update writes names what its memory named, or a document
      the update wrote. */
  lemma AskedStatesAreDocumented(agent: Agent, event: Event)
    requires Inv(agent) && !agent.store.indeterminate && Updates(event)
    requires var asked := Asked(agent, event);
             asked.Some? && asked.value.change.Ok? && Documented(agent.store.memory, asked.value.library)
    ensures Documented(Asked(agent, event).value.change.value.0, Asked(agent, event).value.library)
  {
    match event
    case Step(env) => StepsAreDocumented(agent, env);
    case Restamp(deploymentId, identity, env) =>
      RestampsAreDocumented(agent.store.memory, agent.library, deploymentId, identity, agent.restart.value, env);
    case Restore(env) => RestoresAreDocumented(agent.store.memory, agent.library, env);
    case _ =>
  }

  // ----- Every event -----

  /** No document the event removes or writes over is named by a state a start
      may read. */
  ghost predicate Careful(agent: Agent, event: Event) {
    event.Crashed? || Spares(agent.store.disk, agent.library, Happens(agent, event).library)
  }

  /** The states an update tried are known from then on. */
  lemma TriedStatesAreKnown(agent: Agent, update: Update, faults: Faults)
    requires !agent.store.indeterminate
    ensures var after := Applied(agent, update, faults).0;
            var tried := Proposed(agent.store, update.change);
            Known(agent) <= Known(after) && (tried.Some? ==> tried.value in Known(after))
  {
    WritesAnswer(SyncedFirst(agent, update), update.change, faults, update.trail);
  }

  lemma UnlatchedUpdatesKeepDocuments(agent: Agent, event: Event, known: set<AgentState>)
    requires Inv(agent) && DocumentsKept(agent) && !agent.store.indeterminate
    requires Updates(event) && Asked(agent, event).Some?
    requires Spares(agent.store.disk, agent.library, Asked(agent, event).value.library)
    requires var tried := Proposed(agent.store, Asked(agent, event).value.change);
             Known(agent) <= known && (tried.Some? ==> tried.value in known)
    ensures var update := Asked(agent, event).value;
            AllDocumented(Applied(agent, update, FaultsMet(event)).0.store.disk, known, update.library)
  {
    var update := Asked(agent, event).value;
    MemoriesAreDocumented(agent);
    SparedStatesStayDocumented(agent.store.memory, agent.library, update.library);
    if update.change.Ok? {
      AskedStatesAreDocumented(agent, event);
    }
    UpdatesStayDocumented(agent, update, FaultsMet(event), Known(agent), known);
  }

  lemma UpdatesKeepDocuments(agent: Agent, event: Event)
    requires Inv(agent) && DocumentsKept(agent) && Updates(event) && Careful(agent, event)
    ensures DocumentsKept(Happens(agent, event))
  {
    EventsAreUpdates(agent, event);
    if !agent.store.indeterminate && Asked(agent, event).Some? {
      var update := Asked(agent, event).value;
      TriedStatesAreKnown(agent, update, FaultsMet(event));
      UnlatchedUpdatesKeepDocuments(agent, event, Known(Applied(agent, update, FaultsMet(event)).0));
    }
  }

  lemma SurvivingDocuments(s: AgentState, before: Library, after: Library, crash: Crash)
    requires Documented(s, before) && DocsAfter(before, crash, after.docs)
    requires after.unsynced <= before.unsynced
    ensures Documented(s, after)
  {
    assert forall k :: k in before.docs && k !in before.unsynced ==>
      k in after.docs && after.docs[k] == before.docs[k] by {
      if crash.PowerLoss? {
        assert forall k :: k in before.docs && k !in before.unsynced ==> k in before.docs - before.unsynced;
      }
    }
  }

  lemma CrashesKeepDocuments(agent: Agent, crash: Crash, primary: Content, backup: Content, docs: map<Key, Identity>)
    requires DocumentsKept(agent)
    ensures DocumentsKept(Restarted(agent, crash, primary, backup, docs))
  {
    var after := Restarted(agent, crash, primary, backup, docs);
    if FindsPair(agent.store.disk, crash, primary, backup) && DocsAfter(agent.library, crash, docs) {
      var documented := DocumentedOf(Known(agent), agent.library);
      CrashesFindNothingNew(agent.store.disk, crash, primary, backup, documented);
      forall s | s in documented ensures s in DocumentedOf(Known(after), after.library) {
        SurvivingDocuments(s, agent.library, after.library, crash);
      }
      assert documented <= DocumentedOf(Known(after), after.library);
    }
  }

  /** A start's pruning keeps every document a later start looks for if and
      only if no state that start may read, a power loss's included, names a
      document that goes. */
  lemma PrunesKeepDocumentsExactlyWhen(agent: Agent, removed: set<Key>)
    requires Sound(agent) && DocumentsKept(agent)
    requires !agent.running && !agent.store.indeterminate
    requires forall k :: k in removed ==> Prunable(agent.store, agent.library, k)
    ensures DocumentsKept(Happens(agent, Prune(removed))) <==>
            forall k :: k in removed ==> NoneNames(agent.store.disk, k)
  {
    var after := Happens(agent, Prune(removed));
    SparingIsExact(agent.store.disk, Known(agent), agent.library, after.library);
    if Spares(agent.store.disk, agent.library, after.library) {
      forall k | k in removed ensures NoneNames(agent.store.disk, k) {
        if Loses(agent.library, after.library, k) {
        } else {
          UnsyncedDocumentsAreUnnamed(agent, k);
        }
      }
    }
  }

  /** What is not durable is named by no state a start may read. */
  lemma UnsyncedDocumentsAreUnnamed(agent: Agent, key: Key)
    requires DocumentsKept(agent) && (key !in agent.library.docs || key in agent.library.unsynced)
    ensures NoneNames(agent.store.disk, key)
  {
    forall p, b | FindsPair(agent.store.disk, PowerLoss, p, b) && Open(p, b).Opened?
      ensures !StateNamesKey(Open(p, b).state, key)
    {
      assert Documented(Open(p, b).state, agent.library);
    }
  }

  lemma EventsKeepDocuments(agent: Agent, event: Event)
    requires Inv(agent) && DocumentsKept(agent) && Careful(agent, event)
    ensures DocumentsKept(Happens(agent, event))
  {
    match event
    case Crashed(crash, primary, backup, docs) => CrashesKeepDocuments(agent, crash, primary, backup, docs);
    case Prune(removed) =>
      SparingIsExact(agent.store.disk, Known(agent), agent.library, Pruned(agent, removed).library);
    case _ => UpdatesKeepDocuments(agent, event);
  }

  ghost predicate CarefulRun(agent: Agent, events: seq<Event>)
    decreases |events|
  {
    events == [] || (Careful(agent, events[0]) && CarefulRun(Happens(agent, events[0]), events[1..]))
  }

  lemma {:induction false} RunsKeepDocuments(agent: Agent, events: seq<Event>)
    requires Inv(agent) && DocumentsKept(agent) && CarefulRun(agent, events)
    ensures Inv(Run(agent, events)) && DocumentsKept(Run(agent, events))
    decreases |events|
  {
    if events == [] {
    } else {
      EventsKeepTheInvariant(agent, events[0]);
      EventsKeepDocuments(agent, events[0]);
      RunsKeepDocuments(Happens(agent, events[0]), events[1..]);
    }
  }

  lemma KeptDocumentsAreFound(end: Agent, crash: Crash, primary: Content, backup: Content, docs: map<Key, Identity>)
    requires DocumentsKept(end) && FindsPair(end.store.disk, crash, primary, backup)
    requires DocsAfter(end.library, crash, docs)
    ensures Open(primary, backup).Opened? && Documented(Open(primary, backup).state, Library(docs, {}))
  {
    assert FindsPair(end.store.disk, PowerLoss, primary, backup);
    SurvivingDocuments(Open(primary, backup).state, end.library, Library(docs, {}), crash);
  }

  /** Over every run in which no document goes that a state a start may read
      names: every document the next start's records name is on disk with
      exactly the named identity. */
  lemma EveryStartFindsItsDocuments(agent: Agent, events: seq<Event>, crash: Crash, primary: Content, backup: Content,
                                    docs: map<Key, Identity>)
    requires Began(agent) && DocumentsKept(agent) && CarefulRun(agent, events)
    requires FindsPair(Run(agent, events).store.disk, crash, primary, backup)
    requires DocsAfter(Run(agent, events).library, crash, docs)
    ensures Open(primary, backup).Opened? && Documented(Open(primary, backup).state, Library(docs, {}))
  {
    RunsKeepDocuments(agent, events);
    KeptDocumentsAreFound(Run(agent, events), crash, primary, backup, docs);
  }

  // ----- Which events need care -----

  /** What a kill leaves the next start to read. */
  function Head(agent: Agent): AgentState {
    if agent.pending.Some? then agent.pending.value else agent.store.memory
  }

  /** The generation a restart took and may still stamp. */
  function Unstamped(agent: Agent): Option<nat> {
    if agent.store.indeterminate then None else agent.restart
  }

  /** `s` names no generation that is still to be handed out or stamped. */
  ghost predicate Behind(s: AgentState, head: AgentState, unstamped: Option<nat>) {
    && (forall g: nat :: NamesGeneration(s, g) ==> g < Counter(head))
    && (unstamped.Some? ==> !NamesGeneration(s, unstamped.value))
  }

  ghost function BehindOf(known: set<AgentState>, head: AgentState, unstamped: Option<nat>): set<AgentState> {
    set s | s in known && Behind(s, head, unstamped)
  }

  /** No state a start may read, after a kill or a power loss, is ahead of what
      the agent hands out next. */
  ghost predicate NoneAhead(agent: Agent) {
    Reads(agent.store.disk, PowerLoss, BehindOf(Known(agent), Head(agent), Unstamped(agent)))
  }

  lemma HeadsAreBehind(s: AgentState, unstamped: Option<nat>)
    requires ValidState(s) && (unstamped.Some? ==> !NamesGeneration(s, unstamped.value))
    ensures Behind(s, s, unstamped)
  {
    forall g: nat | NamesGeneration(s, g) ensures g < Counter(s) {
      if Counter(s) <= g {
        FreshGenerationsAreUnnamed(s, g);
      }
    }
  }

  /** Nothing of a counter that grew, or a restart that took a fresh
      generation, puts a state ahead. */
  lemma BehindStaysBehind(known: set<AgentState>, more: set<AgentState>, head: AgentState, unstamped: Option<nat>,
                          later: AgentState, next: Option<nat>)
    requires known <= more && Counter(head) <= Counter(later)
    requires next.None? || next == unstamped || Counter(head) <= next.value
    ensures BehindOf(known, head, unstamped) <= BehindOf(more, later, next)
  {
  }

  lemma StepsKeepTheRestart(agent: Agent, env: Env)
    ensures ThreadStep(agent, env).restart == agent.restart
  {
  }

  /** A restart keeps its generation until it is stamped or dropped, and a new
      one is at or above the counter. */
  lemma RestartsAreFresh(agent: Agent, event: Event)
    requires Updates(event)
    ensures var restart := Happens(agent, event).restart;
            restart.None? || restart == agent.restart || Counter(agent.store.memory) <= restart.value
  {
    match event
    case Step(env) => StepsKeepTheRestart(agent, env);
    case _ =>
  }

  ghost predicate NamesNothingNew(before: AgentState, after: AgentState) {
    forall g :: NamesGeneration(after, g) ==> NamesGeneration(before, g)
  }

  lemma ActionsNameNothingNew(agent: Agent, thread: Thread, action: Action, env: Env)
    requires About(agent, action) && agent.thread == Some(thread) && !agent.store.indeterminate
    requires var asked := ActionAsked(agent, thread, action, env);
             asked.Some? && asked.value.change.Ok? && !asked.value.synced
    ensures NamesNothingNew(agent.store.memory, ActionAsked(agent, thread, action, env).value.change.value.0)
  {
    ProgramShape(thread.kind, thread.pc);
  }

  lemma StepsNameNothingNew(agent: Agent, env: Env)
    requires Inv(agent) && !agent.store.indeterminate
    requires var asked := StepAsked(agent, env);
             asked.Some? && asked.value.change.Ok? && !asked.value.synced
    ensures NamesNothingNew(agent.store.memory, StepAsked(agent, env).value.change.value.0)
  {
    var thread := agent.thread.value;
    if !thread.failing {
      ActionsNameNothingNew(agent, thread, Program(thread.kind)[thread.pc], env);
    }
  }

  lemma SettlingNamesNothingNew(s: AgentState)
    requires SettleChange(s).Ok?
    ensures NamesNothingNew(s, SettleChange(s).value.0)
  {
  }

  /** Without a document, an update names no generation its memory did not. */
  lemma UndocumentedUpdatesNameNothingNew(agent: Agent, event: Event)
    requires Inv(agent) && !agent.store.indeterminate && Updates(event)
    requires var asked := Asked(agent, event);
             asked.Some? && asked.value.change.Ok? && !asked.value.synced
    ensures NamesNothingNew(agent.store.memory, Asked(agent, event).value.change.value.0)
  {
    match event
    case Step(env) => StepsNameNothingNew(agent, env);
    case SettleFound(_) => SettlingNamesNothingNew(agent.store.memory);
    case _ =>
  }

  /** A state that names a generation is written at the later version, with
      both directory syncs required. */
  lemma NamedStatesKeepTheLaterVersion(agent: Agent, event: Event)
    requires Inv(agent) && Updates(event) && Asked(agent, event).Some? && Asked(agent, event).value.synced
    requires Proposed(agent.store, Asked(agent, event).value.change).Some?
    ensures Proposed(agent.store, Asked(agent, event).value.change).value.schemaVersion.V02?
  {
  }

  /** The document's own sync made what the memory holds durable, so an update
      that fails before its commit rename leaves nothing else to read. */
  lemma FailedNamingsLeaveTheMemory(agent: Agent, update: Update, faults: Faults)
    requires Sound(agent) && !agent.store.indeterminate && update.synced
    requires Proposed(agent.store, update.change).Some? ==>
      Proposed(agent.store, update.change).value.schemaVersion.V02?
    requires var (after, answer) := Applied(agent, update, faults);
             answer.Err? && !after.store.indeterminate
    ensures Reads(Applied(agent, update, faults).0.store.disk, PowerLoss, {agent.store.memory})
  {
    var store := SyncedFirst(agent, update).store;
    assert Anchored(store, PowerLoss);
    UpdateOutcome(store, update.change, faults, PowerLoss);
  }

  /** What a kill leaves to read after an update, and that the counter only
      grows. */
  lemma HeadsMoveOn(agent: Agent, update: Update, faults: Faults)
    requires Sound(agent) && !agent.store.indeterminate
    ensures var (done, answer) := Applied(agent, update, faults);
            var tried := Proposed(agent.store, update.change);
            && (answer.Ok? || done.store.indeterminate ==> tried == Some(Head(done)) && ValidState(Head(done)))
            && (answer.Err? && !done.store.indeterminate ==> Head(done) == agent.store.memory)
            && Counter(Head(agent)) <= Counter(Head(done))
  {
    UpdateOutcome(SyncedFirst(agent, update).store, update.change, faults, Kill);
  }

  lemma UnstampedIsFresh(agent: Agent)
    requires Inv(agent) && Unstamped(agent).Some?
    ensures Head(agent) == agent.store.memory && !NamesGeneration(Head(agent), Unstamped(agent).value)
  {
  }

  /** What an update may add to the states a start reads is behind as well. */
  lemma TriedStatesAreBehind(memory: AgentState, next: AgentState, after: Agent)
    requires Inv(after) && ValidState(Head(after))
    requires Head(after) == Stamped(next) || (Head(after) == memory && NamesNothingNew(memory, next))
    ensures Behind(Stamped(next), Head(after), Unstamped(after))
  {
    if Unstamped(after).Some? {
      UnstampedIsFresh(after);
    }
    HeadsAreBehind(Head(after), Unstamped(after));
    assert NamesNothingNew(next, Stamped(next));
  }

  lemma NoneIsAheadAfterwards(agent: Agent, after: Agent, tried: Option<AgentState>)
    requires Known(agent) <= Known(after) && Counter(Head(agent)) <= Counter(Head(after))
    requires Unstamped(after).None? || Unstamped(after) == Unstamped(agent)
          || Counter(Head(agent)) <= Unstamped(after).value
    requires tried.Some? ==> tried.value in Known(after) && Behind(tried.value, Head(after), Unstamped(after))
    requires var behind := BehindOf(Known(agent), Head(agent), Unstamped(agent));
             Reads(after.store.disk, PowerLoss, if tried.Some? then behind + {tried.value} else behind)
    ensures NoneAhead(after)
  {
    BehindStaysBehind(Known(agent), Known(after), Head(agent), Unstamped(agent), Head(after), Unstamped(after));
  }

  lemma AnsweredUpdatesPutNoneAhead(agent: Agent, event: Event, after: Agent)
    requires Inv(agent) && Inv(after) && NoneAhead(agent) && !agent.store.indeterminate
    requires Updates(event) && Asked(agent, event).Some?
    requires Agrees(after, Applied(agent, Asked(agent, event).value, FaultsMet(event)).0)
    requires after.restart.None? || after.restart == agent.restart
          || Counter(agent.store.memory) <= after.restart.value
    requires Asked(agent, event).value.synced ==>
      Applied(agent, Asked(agent, event).value, FaultsMet(event)).1.Ok? || after.store.indeterminate
    ensures NoneAhead(after)
  {
    var update := Asked(agent, event).value;
    var tried := Proposed(agent.store, update.change);
    TriedStatesAreKnown(agent, update, FaultsMet(event));
    HeadsMoveOn(agent, update, FaultsMet(event));
    UpdatesReadNothingElse(agent, update, FaultsMet(event), BehindOf(Known(agent), Head(agent), Unstamped(agent)));
    if tried.Some? {
      if !update.synced {
        UndocumentedUpdatesNameNothingNew(agent, event);
      }
      TriedStatesAreBehind(agent.store.memory, update.change.value.0, after);
    }
    NoneIsAheadAfterwards(agent, after, tried);
  }

  lemma FailedNamingsPutNoneAhead(agent: Agent, event: Event, after: Agent)
    requires Inv(agent) && Inv(after) && !agent.store.indeterminate
    requires Updates(event) && Asked(agent, event).Some? && Asked(agent, event).value.synced
    requires Agrees(after, Applied(agent, Asked(agent, event).value, FaultsMet(event)).0)
    requires Applied(agent, Asked(agent, event).value, FaultsMet(event)).1.Err? && !after.store.indeterminate
    ensures NoneAhead(after)
  {
    var update := Asked(agent, event).value;
    if Proposed(agent.store, update.change).Some? {
      NamedStatesKeepTheLaterVersion(agent, event);
    }
    FailedNamingsLeaveTheMemory(agent, update, FaultsMet(event));
    UpdatesAnswer(agent, update, FaultsMet(event));
    if Unstamped(after).Some? {
      UnstampedIsFresh(after);
    }
    HeadsAreBehind(after.store.memory, Unstamped(after));
  }

  lemma UpdatesPutNoneAhead(agent: Agent, event: Event)
    requires Inv(agent) && NoneAhead(agent) && Updates(event)
    ensures NoneAhead(Happens(agent, event))
  {
    EventsKeepTheInvariant(agent, event);
    EventsAreUpdates(agent, event);
    RestartsAreFresh(agent, event);
    var after := Happens(agent, event);
    if agent.store.indeterminate || Asked(agent, event).None? {
      NoneIsAheadAfterwards(agent, after, None);
    } else if Asked(agent, event).value.synced && !after.store.indeterminate
        && Applied(agent, Asked(agent, event).value, FaultsMet(event)).1.Err? {
      FailedNamingsPutNoneAhead(agent, event, after);
    } else {
      AnsweredUpdatesPutNoneAhead(agent, event, after);
    }
  }

  lemma CrashesPutNoneAhead(agent: Agent, crash: Crash, primary: Content, backup: Content, docs: map<Key, Identity>)
    requires Inv(agent) && NoneAhead(agent)
    ensures NoneAhead(Restarted(agent, crash, primary, backup, docs))
  {
    var after := Restarted(agent, crash, primary, backup, docs);
    if FindsPair(agent.store.disk, crash, primary, backup) && DocsAfter(agent.library, crash, docs) {
      CrashesReadARecordedState(agent, crash, primary, backup);
      if crash.Kill? {
        assert Head(after) == Head(agent);
        NoneIsAheadAfterwards(agent, after, None);
      } else {
        HeadsAreBehind(after.store.memory, None);
        assert Reads(after.store.disk, PowerLoss, {after.store.memory});
      }
    }
  }

  lemma EventsPutNoneAhead(agent: Agent, event: Event)
    requires Inv(agent) && NoneAhead(agent)
    ensures NoneAhead(Happens(agent, event))
  {
    match event
    case Crashed(crash, primary, backup, docs) => CrashesPutNoneAhead(agent, crash, primary, backup, docs);
    case Prune(removed) =>
    case _ => UpdatesPutNoneAhead(agent, event);
  }

  /** A naming update writes over no document but one of a fresh generation. */
  lemma LostDocumentsAreFresh(agent: Agent, event: Event, key: Key)
    requires Updates(event) && Asked(agent, event).Some?
    requires Loses(agent.library, Asked(agent, event).value.library, key)
    ensures Counter(agent.store.memory) <= key.1 || agent.restart == Some(key.1)
  {
  }

  lemma FreshDocumentsAreUnnamed(agent: Agent, key: Key)
    requires Sound(agent) && NoneAhead(agent) && !agent.store.indeterminate
    requires Counter(agent.store.memory) <= key.1 || agent.restart == Some(key.1)
    ensures NoneNames(agent.store.disk, key)
  {
    forall p, b | FindsPair(agent.store.disk, PowerLoss, p, b) && Open(p, b).Opened?
      ensures !StateNamesKey(Open(p, b).state, key)
    {
      var read := Open(p, b).state;
      assert Behind(read, agent.store.memory, agent.restart);
      if StateNamesKey(read, key) {
        assert NamesGeneration(read, key.1);
      }
    }
  }

  /** Taking and naming generations never puts a document at risk. */
  lemma NamingsAreCareful(agent: Agent, event: Event)
    requires Inv(agent) && NoneAhead(agent) && !event.Prune?
    ensures Careful(agent, event)
  {
    if Updates(event) {
      EventsAreUpdates(agent, event);
      if !agent.store.indeterminate && Asked(agent, event).Some? {
        forall k | Loses(agent.library, Happens(agent, event).library, k) ensures NoneNames(agent.store.disk, k) {
          LostDocumentsAreFresh(agent, event, k);
          FreshDocumentsAreUnnamed(agent, k);
        }
      }
    }
  }

  /** Every prune of the run spares what a start may still look for. */
  ghost predicate CarefulPrunes(agent: Agent, events: seq<Event>)
    decreases |events|
  {
    events == []
    || ((events[0].Prune? ==> Careful(agent, events[0])) && CarefulPrunes(Happens(agent, events[0]), events[1..]))
  }

  /** Only the prunes of a run put a document at risk. */
  lemma {:induction false} OnlyPrunesNeedCare(agent: Agent, events: seq<Event>)
    requires Inv(agent) && NoneAhead(agent) && CarefulPrunes(agent, events)
    ensures CarefulRun(agent, events)
    decreases |events|
  {
    if events == [] {
    } else {
      if !events[0].Prune? {
        NamingsAreCareful(agent, events[0]);
      }
      EventsKeepTheInvariant(agent, events[0]);
      EventsPutNoneAhead(agent, events[0]);
      OnlyPrunesNeedCare(Happens(agent, events[0]), events[1..]);
    }
  }

  /** Nothing is ahead of an agent whose start read what is durable: over an
      empty directory, after a power loss, or after a synced write. */
  lemma NoneIsAheadOfADurableStart(agent: Agent)
    requires Began(agent) && Anchored(agent.store, PowerLoss)
    ensures Inv(agent) && NoneAhead(agent)
  {
    AnchoredReads(agent.store, PowerLoss);
    HeadsAreBehind(agent.store.memory, None);
  }

  /** The same promise over every run of kills and power losses whose prunes
      spare what a start may still look for, from any agent that reads
      nothing ahead of it. */
  lemma CarefulPrunesAreEnough(agent: Agent, events: seq<Event>, crash: Crash, primary: Content, backup: Content,
                               docs: map<Key, Identity>)
    requires Began(agent) && DocumentsKept(agent) && NoneAhead(agent) && CarefulPrunes(agent, events)
    requires FindsPair(Run(agent, events).store.disk, crash, primary, backup)
    requires DocsAfter(Run(agent, events).library, crash, docs)
    ensures Open(primary, backup).Opened? && Documented(Open(primary, backup).state, Library(docs, {}))
  {
    assert Inv(agent);
    OnlyPrunesNeedCare(agent, events);
    EveryStartFindsItsDocuments(agent, events, crash, primary, backup, docs);
  }

  // ----- A prune that is not careful -----

  const LastSyncFails := Faults(NoFault, StepFaults(false, false, true))

  /** An agent whose active record alone names its document. */
  ghost predicate NamesItsActive(agent: Agent) {
    && Began(agent) && DocumentsKept(agent) && HasGenerations(agent.store.memory)
    && agent.store.memory.active.Some? && agent.store.memory.active.value.named.Names?
    && !RecordNamesKey(agent.store.memory.previous, ActiveKey(agent.store.memory))
    && agent.store.memory.candidate.None?
  }

  function ActiveKey(s: AgentState): Key
    requires s.active.Some? && s.active.value.named.Names?
  {
    (s.active.value.deploymentId, s.active.value.named.identity.generation)
  }

  /** Both files hold `s`, the primary one from a rename over `over` that was
      not synced. */
  function HalfSynced(s: AgentState, over: AgentState): Disk {
    Disk(Entry(Good(s), {Good(over)}), Entry(Good(s), {}))
  }

  lemma TheRestartTakes(agent: Agent)
    requires NamesItsActive(agent)
    ensures var taken := TakenForRestart(agent, NoFaults);
            var memory := agent.store.memory;
            && taken.store == StoreState(Disk(Entry(Good(taken.store.memory), {}), Entry(Good(taken.store.memory), {})),
                                         taken.store.memory, true, false)
            && taken.store.memory == Stamped(Allocated(memory, Counter(memory)))
            && taken.restart == Some(Counter(memory)) && taken.library == agent.library
  {
    CleanWritesAreAnswered(agent.store, TakeChange(agent.store.memory));
  }

  /** A write over two equal, synced files whose last sync fails. */
  lemma LastSyncsLatch(store: StoreState, change: Change)
    requires store == StoreState(Disk(Entry(Good(store.memory), {}), Entry(Good(store.memory), {})),
                                 store.memory, true, false)
    requires Proposed(store, change).Some? && Proposed(store, change).value.schemaVersion.V02?
    ensures var after := Updated(store, change, LastSyncFails).0;
            after.indeterminate && after.disk == HalfSynced(Proposed(store, change).value, store.memory)
  {
    LaterWriteEnds(store.disk, Proposed(store, change).value, true, LastSyncFails);
  }

  /** The stamp names the later generation instead of the one before. */
  lemma TheStampIsWritable(agent: Agent, taken: AgentState, env: Env)
    requires NamesItsActive(agent) && taken == Stamped(Allocated(agent.store.memory, Counter(agent.store.memory)))
    requires env.document.DocWritten? && !env.fails
    ensures var active := agent.store.memory.active.value;
            var key := ActiveKey(agent.store.memory);
            var naming := NameRestart(taken, agent.library, active.deploymentId, active.named.identity,
                                      Counter(agent.store.memory), env);
            && naming.applied.Ok? && Writable(taken, Stamped(naming.applied.value.0))
            && Stamped(naming.applied.value.0).schemaVersion.V02?
            && !StateNamesKey(Stamped(naming.applied.value.0), key) && StateNamesKey(taken, key)
            && key in naming.library.docs
  {
    MemoriesAreDocumented(agent);
  }

  /** Its last sync fails, and the store is latched. */
  lemma TheStampLatches(agent: Agent, taken: Agent, env: Env)
    requires NamesItsActive(agent) && taken == TakenForRestart(agent, NoFaults)
    requires env.document.DocWritten? && !env.fails && env.faults == LastSyncFails
    ensures var memory := agent.store.memory;
            var active := memory.active.value;
            var stamped := RestartStamped(taken, active.deploymentId, active.named.identity, env);
            var key := ActiveKey(memory);
            && stamped.pending.Some? && stamped.store.disk == HalfSynced(stamped.pending.value, taken.store.memory)
            && !StateNamesKey(stamped.pending.value, key) && StateNamesKey(taken.store.memory, key)
            && key in stamped.library.docs
  {
    var memory := agent.store.memory;
    TheRestartTakes(agent);
    TheStampIsWritable(agent, taken.store.memory, env);
    var naming := NameRestart(taken.store.memory, taken.library, memory.active.value.deploymentId,
                              memory.active.value.named.identity, Counter(memory), env);
    LastSyncsLatch(taken.store, naming.applied);
    assert SyncedFirst(taken, NamingAsked(taken, naming)).store == taken.store;
  }

  /** A restart takes a generation and stamps it. */
  function Restarting(deploymentId: string, identity: Identity, env: Env): seq<Event> {
    [TakeForRestart(NoFaults), Restamp(deploymentId, identity, env)]
  }

  /** The agent is killed; a start reads `shown` and prunes. */
  function Pruning(shown: Content, docs: map<Key, Identity>, key: Key): seq<Event> {
    [Crashed(Kill, shown, shown, docs), Prune({key})]
  }

  lemma {:induction false} RunsAppend(agent: Agent, first: seq<Event>, second: seq<Event>)
    ensures Run(agent, first + second) == Run(Run(agent, first), second)
    decreases |first|
  {
    if first == [] {
      assert first + second == second;
    } else {
      assert (first + second)[1..] == first[1..] + second;
      RunsAppend(Happens(agent, first[0]), first[1..], second);
    }
  }

  lemma RunsOfTwo(agent: Agent, events: seq<Event>, between: Agent)
    requires |events| == 2 && between == Happens(agent, events[0])
    ensures Run(agent, events) == Happens(between, events[1])
  {
    assert events[1..][1..] == [];
    assert Run(between, events[1..]) == Run(Happens(between, events[1]), []);
  }

  lemma TheRunStamps(agent: Agent, deploymentId: string, identity: Identity, env: Env)
    ensures Run(agent, Restarting(deploymentId, identity, env))
         == RestartStamped(TakenForRestart(agent, NoFaults), deploymentId, identity, env)
  {
    RunsOfTwo(agent, Restarting(deploymentId, identity, env), TakenForRestart(agent, NoFaults));
  }

  lemma TheRunPrunes(stamped: Agent, shown: Content, docs: map<Key, Identity>, key: Key)
    ensures Run(stamped, Pruning(shown, docs, key)) == Pruned(Restarted(stamped, Kill, shown, shown, docs), {key})
  {
    RunsOfTwo(stamped, Pruning(shown, docs, key), Restarted(stamped, Kill, shown, shown, docs));
  }

  /** The next start shows nothing of the state before, and prunes. */
  lemma TheStartPrunes(stamped: Agent, before: AgentState, key: Key)
    requires stamped.pending.Some? && stamped.store.disk == HalfSynced(stamped.pending.value, before)
    requires !StateNamesKey(stamped.pending.value, key) && key in stamped.library.docs
    ensures var shown := Good(stamped.pending.value);
            var pruned := Pruned(Restarted(stamped, Kill, shown, shown, stamped.library.docs), {key});
            pruned.store.disk == stamped.store.disk && pruned.library.docs == stamped.library.docs - {key}
  {
    var shown := Good(stamped.pending.value);
    var started := Restarted(stamped, Kill, shown, shown, stamped.library.docs);
    assert Prunable(started.store, started.library, key);
  }

  lemma ThePowerLossLoses(end: Agent, pending: AgentState, before: AgentState, key: Key)
    requires end.store.disk == HalfSynced(pending, before)
    requires StateNamesKey(before, key) && key !in end.library.docs
    ensures FindsPair(end.store.disk, PowerLoss, Good(before), Good(pending))
    ensures !Documented(before, Library(end.library.docs, {}))
  {
  }

  /** A state is read whose records name a document that is gone. */
  ghost predicate MissesADocument(end: Agent, primary: Content, backup: Content) {
    && FindsPair(end.store.disk, PowerLoss, primary, backup) && Open(primary, backup).Opened?
    && DocsAfter(end.library, PowerLoss, end.library.docs)
    && !Documented(Open(primary, backup).state, Library(end.library.docs, {}))
  }

  /** The whole run: a restart, its stamp, a kill, a start and its pruning. */
  lemma TheRunStampsAndPrunes(agent: Agent, deploymentId: string, identity: Identity, env: Env, shown: Content,
                              docs: map<Key, Identity>, key: Key)
    ensures Run(agent, Restarting(deploymentId, identity, env) + Pruning(shown, docs, key))
         == Pruned(Restarted(RestartStamped(TakenForRestart(agent, NoFaults), deploymentId, identity, env),
                             Kill, shown, shown, docs), {key})
  {
    RunsAppend(agent, Restarting(deploymentId, identity, env), Pruning(shown, docs, key));
    TheRunStamps(agent, deploymentId, identity, env);
    TheRunPrunes(RestartStamped(TakenForRestart(agent, NoFaults), deploymentId, identity, env), shown, docs, key);
  }

  lemma ThePrunedDocumentIsMissed(stamped: Agent, before: AgentState, key: Key)
    requires stamped.pending.Some? && stamped.store.disk == HalfSynced(stamped.pending.value, before)
    requires !StateNamesKey(stamped.pending.value, key) && StateNamesKey(before, key)
    requires key in stamped.library.docs
    ensures var shown := Good(stamped.pending.value);
            var end := Pruned(Restarted(stamped, Kill, shown, shown, stamped.library.docs), {key});
            MissesADocument(end, Good(before), shown)
  {
    var shown := Good(stamped.pending.value);
    var end := Pruned(Restarted(stamped, Kill, shown, shown, stamped.library.docs), {key});
    TheStartPrunes(stamped, before, key);
    ThePowerLossLoses(end, stamped.pending.value, before, key);
  }

  /** Every start prunes by what the two files show, and a power loss can
      still bring back a state that neither shows: over any agent whose
      active record alone names its document, there is a run, with one kill,
      one failed sync and one power loss, after which a start reads a record
      whose document is gone. */
  lemma APruneMayLoseADocument(agent: Agent, env: Env) returns (events: seq<Event>, primary: Content, backup: Content)
    requires NamesItsActive(agent)
    requires env.document.DocWritten? && !env.fails && env.faults == LastSyncFails
    ensures MissesADocument(Run(agent, events), primary, backup)
  {
    var active := agent.store.memory.active.value;
    var key := ActiveKey(agent.store.memory);
    var taken := TakenForRestart(agent, NoFaults);
    var stamped := RestartStamped(taken, active.deploymentId, active.named.identity, env);
    TheStampLatches(agent, taken, env);
    var shown := Good(stamped.pending.value);
    var restart := Restarting(active.deploymentId, active.named.identity, env);
    var prune := Pruning(shown, stamped.library.docs, key);
    events, primary, backup := restart + prune, Good(taken.store.memory), shown;
    TheRunStampsAndPrunes(agent, active.deploymentId, active.named.identity, env, shown, stamped.library.docs, key);
    ThePrunedDocumentIsMissed(stamped, taken.store.memory, key);
  }
}
