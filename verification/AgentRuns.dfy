/** The invariant of the agent over every event, every run, and the promises
    about the next start that follow from it. */
module AgentRuns {
  import opened Wrappers
  import opened Records
  import opened StateStore
  import opened StoreLaws
  import opened Changes
  import opened Recovery
  import opened AgentSystem
  import opened AgentLaws

  // ----- The supervision thread and the error slot -----

  /** `after` differs from `before` in nothing a transaction thread reads. */
  predicate SameForThread(before: AgentState, after: AgentState) {
    after.inFlight == before.inFlight && after.candidate == before.candidate && after.previous == before.previous
  }

  /** `after` names no generation that `before` had passed and did not name. */
  ghost predicate Grows(before: AgentState, after: AgentState) {
    && ValidSuccessor(before, after)
    && (forall g :: NamesGeneration(after, g) ==> NamesGeneration(before, g) || Counter(before) <= g)
  }

  lemma ThreadsAreNoPartOfSoundness(before: Agent, after: Agent)
    requires Sound(before)
    requires after == before.(thread := after.thread, restart := after.restart, running := after.running)
    ensures Sound(after)
  {
  }

  /** What a driven agent keeps when a write leaves alone what its threads
      read, and takes no generation back. */
  lemma QuietWritesKeepThreads(before: Agent, after: Agent)
    requires Driven(before)
    requires after.thread == before.thread && after.restart == before.restart && after.running == before.running
    requires after.trail == before.trail
    requires before.store.indeterminate ==> after.store.indeterminate
    requires SameForThread(before.store.memory, after.store.memory)
    requires after.store.memory.active == before.store.memory.active
    requires ValidSuccessor(before.store.memory, after.store.memory)
    ensures Driven(after)
  {
  }

  lemma ErrorsKeepTheInvariant(agent: Agent, error: Option<ErrorRecord>, faults: Faults)
    requires Inv(agent)
    ensures Inv(ErrorRecorded(agent, error, faults))
  {
    var update := Plain(agent, SetLastError(agent.store.memory, error), agent.trail);
    UpdatesStaySound(agent, update, faults);
    UpdatesAnswer(agent, update, faults);
    QuietWritesKeepThreads(agent, Applied(agent, update, faults).0);
  }

  lemma TakesForCandidatesKeepTheInvariant(agent: Agent, faults: Faults)
    requires Inv(agent)
    ensures Inv(TakenForCandidate(agent, faults))
  {
    var update := Plain(agent, TakeChange(agent.store.memory), agent.trail);
    UpdatesStaySound(agent, update, faults);
    UpdatesAnswer(agent, update, faults);
    QuietWritesKeepThreads(agent, Applied(agent, update, faults).0);
  }

  lemma FreshRestartsAreDriven(before: Agent, after: Agent)
    requires Driven(before) && after == before.(restart := after.restart)
    requires after.restart.Some? ==> RestartFresh(after.restart.value, after.store.memory)
    ensures Driven(after)
  {
  }

  lemma TakenGenerationsAreFresh(agent: Agent, faults: Faults)
    requires Sound(agent)
    ensures var after := TakenForRestart(agent, faults);
            after.restart.Some? ==> RestartFresh(after.restart.value, after.store.memory)
  {
    var memory := agent.store.memory;
    UpdatesAnswer(agent, Plain(agent, TakeChange(memory), agent.trail), faults);
    if NextGeneration(memory, 1).Some? {
      FreshGenerationsAreUnnamed(memory, NextGeneration(memory, 1).value);
    }
  }

  lemma TakesForRestartsKeepTheInvariant(agent: Agent, faults: Faults)
    requires Inv(agent)
    ensures Inv(TakenForRestart(agent, faults))
  {
    var after := TakenForCandidate(agent, faults);
    var next := TakenForRestart(agent, faults);
    TakesForCandidatesKeepTheInvariant(agent, faults);
    TakenGenerationsAreFresh(agent, faults);
    FreshRestartsAreDriven(after, next);
    ThreadsAreNoPartOfSoundness(after, next);
  }

  /** `next` is `s` with its active record under a later generation of the
      same configuration. */
  predicate Restamped(s: AgentState, next: AgentState, identity: Identity) {
    && s.active.Some? && s.active.value.named.Names?
    && s.active.value.named.identity.generation < identity.generation
    && s.active.value.named.identity.configuration == identity.configuration
    && next == s.(active := Some(s.active.value.(named := Names(identity))), nextGeneration := next.nextGeneration)
  }

  lemma RestampedStateFollows(s: AgentState, trail: Trail, identity: Identity, next: AgentState)
    requires Follows(s, trail) && Restamped(s, next, identity)
    ensures Follows(next, trail)
  {
    var start := if trail.commit.Some? then trail.commit.value.0 else trail.base.0;
    LaterIsTransitive(start, s.active, next.active);
  }

  /** A naming update outside any transaction: a new generation of the active
      record. */
  lemma RestampingsKeepTheInvariant(agent: Agent, naming: Naming, identity: Identity, faults: Faults)
    requires Inv(agent) && !agent.store.indeterminate
    requires naming.applied.Ok? ==> Restamped(agent.store.memory, naming.applied.value.0, identity)
    requires agent.restart.Some? ==> naming.applied.Err? || Counter(agent.store.memory) <= identity.generation
    ensures Inv(Applied(agent, NamingAsked(agent, naming), faults).0)
  {
    var update := NamingAsked(agent, naming);
    if naming.applied.Ok? {
      RestampedStateFollows(agent.store.memory, agent.trail, identity, naming.applied.value.0);
    }
    UpdatesStaySound(agent, update, faults);
    UpdatesAnswer(agent, update, faults);
    RestampsAreDriven(agent, Applied(agent, update, faults).0);
  }

  lemma RestampsAreDriven(before: Agent, after: Agent)
    requires Driven(before)
    requires after.thread == before.thread && after.restart == before.restart && after.running == before.running
    requires after.trail == before.trail
    requires before.store.indeterminate ==> after.store.indeterminate
    requires SameForThread(before.store.memory, after.store.memory)
    requires before.restart.Some? ==> Grows(before.store.memory, after.store.memory)
    ensures Driven(after)
  {
  }

  lemma RestampsKeepTheInvariant(agent: Agent, deploymentId: string, identity: Identity, env: Env)
    requires Inv(agent)
    ensures Inv(RestartStamped(agent, deploymentId, identity, env))
  {
    if agent.restart.Some? && !agent.store.indeterminate {
      var idle := agent.(restart := None);
      ThreadsAreNoPartOfSoundness(agent, idle);
      var naming := NameRestart(agent.store.memory, agent.library, deploymentId, identity, agent.restart.value, env);
      var restamped := Identity(agent.restart.value, env.descriptor, identity.configuration);
      RestampingsKeepTheInvariant(idle, naming, restamped, env.faults);
      assert RestartStamped(agent, deploymentId, identity, env)
          == Applied(idle, NamingAsked(idle, naming), env.faults).0;
    }
  }

  lemma RestoresKeepTheInvariant(agent: Agent, env: Env)
    requires Inv(agent)
    ensures Inv(Restored(agent, env))
  {
    if agent.running && agent.thread.None? && !agent.store.indeterminate {
      var memory := agent.store.memory;
      var naming := NameRestore(memory, agent.library, env);
      var identity := if naming.applied.Ok? then naming.applied.value.0.active.value.named.identity
          else Identity(0, "", "");
      RestampingsKeepTheInvariant(agent, naming, identity, env.faults);
    }
  }

  // ----- Crashes and starts -----

  /** What a start reads back after a crash, and the trail it carries. */
  lemma CrashesReadARecordedState(agent: Agent, crash: Crash, primary: Content, backup: Content)
    requires Sound(agent) && FindsPair(agent.store.disk, crash, primary, backup)
    ensures Open(primary, backup).Opened?
    ensures var read := Open(primary, backup).state;
            && read in Known(agent) && Recorded(read, Remembered(agent, read))
            && (crash.Kill? && agent.pending.None? ==> read == agent.store.memory)
            && (crash.Kill? && agent.pending.Some? ==> read == agent.pending.value)
  {
    assert FindsPair(agent.store.disk, PowerLoss, primary, backup);
    assert InPast(agent.past, Open(primary, backup).state) || Open(primary, backup).state == agent.store.memory;
  }

  /** A crash only takes choices away from the next one. */
  lemma CrashesFindNothingNew(disk: Disk, crash: Crash, primary: Content, backup: Content, states: set<AgentState>)
    requires Reads(disk, PowerLoss, states) && FindsPair(disk, crash, primary, backup)
    ensures Reads(After(disk, crash, primary, backup), PowerLoss, states)
  {
    var after := After(disk, crash, primary, backup);
    assert forall p, b :: FindsPair(after, PowerLoss, p, b) ==> FindsPair(disk, PowerLoss, p, b);
  }

  lemma StartsAreFiled(store: StoreState, crash: Crash, primary: Content, backup: Content, known: set<AgentState>)
    requires Reads(store.disk, PowerLoss, known) && FindsPair(store.disk, crash, primary, backup)
    requires Open(primary, backup).Opened?
    ensures var found := Open(primary, backup);
            Filed(StoreState(After(store.disk, crash, primary, backup), found.state, found.primaryIsRead, false),
                  known, None)
  {
    CrashesFindNothingNew(store.disk, crash, primary, backup, known);
  }

  lemma CrashesKeepTheInvariant(agent: Agent, crash: Crash, primary: Content, backup: Content, docs: map<Key, Identity>)
    requires Inv(agent)
    ensures Inv(Restarted(agent, crash, primary, backup, docs))
  {
    if FindsPair(agent.store.disk, crash, primary, backup) && DocsAfter(agent.library, crash, docs) {
      CrashesReadARecordedState(agent, crash, primary, backup);
      var after := Restarted(agent, crash, primary, backup, docs);
      assert Known(after) == Known(agent);
      StartsAreFiled(agent.store, crash, primary, backup, Known(agent));
      PastGrows(agent.past, agent.store.memory, agent.trail);
    }
  }

  lemma SettlingKeepsTheInvariant(agent: Agent, faults: Faults)
    requires Inv(agent)
    ensures Inv(Settled(agent, faults))
  {
    if !agent.running && SettleWrites(agent.store.memory) {
      var update := Plain(agent, SettleChange(agent.store.memory), agent.trail);
      SettlingIsNeverRefused(agent.store.memory);
      UpdatesStaySound(agent, update, faults);
      UpdatesAnswer(agent, update, faults);
      var after := Applied(agent, update, faults).0;
      ThreadsAreNoPartOfSoundness(after, Settled(agent, faults));
    }
  }

  // ----- The transaction thread -----

  /** Where a transaction stands once its journal entry is written. */
  lemma BegunStatesFollow(s: AgentState, thread: Thread)
    requires thread.pc == 0 && !thread.failing
    requires thread.kind.Deploy? ==> thread.target.named.Unnamed? && thread.target.promotedAt.None?
    requires thread.kind.Rollback? ==> thread.described == !thread.target.named.Unnamed?
    requires BeginTransaction(s, JournalEntry(thread.kind, thread.transactionId, thread.target)).Ok?
    ensures var next := BeginTransaction(s, JournalEntry(thread.kind, thread.transactionId, thread.target)).value.0;
            var trail := Trail(PairOf(s), thread.kind, Some(thread.target), None);
            Follows(next, trail) && ThreadAgrees(thread, Stamped(next), trail)
  {
  }

  lemma BeginningsKeepTheInvariant(agent: Agent, kind: Kind, transactionId: string, target: DeploymentRecord,
                                   described: bool, faults: Faults)
    requires Inv(agent)
    requires kind.Deploy? ==> target.named.Unnamed? && target.promotedAt.None?
    requires kind.Rollback? ==> described == !target.named.Unnamed?
    ensures Inv(Begin(agent, kind, transactionId, target, described, faults))
  {
    if agent.running && agent.thread.None? {
      var thread := Thread(kind, transactionId, target, described, 0, false);
      var update := BeginAsked(agent, kind, transactionId, target).value;
      if update.change.Ok? {
        BegunStatesFollow(agent.store.memory, thread);
      }
      UpdatesStaySound(agent, update, faults);
      UpdatesAnswer(agent, update, faults);
      var after := Applied(agent, update, faults).0;
      ThreadsAreNoPartOfSoundness(after, after.(thread := Some(thread)));
    }
  }

  function NameAt(kind: Kind): nat {
    match kind case Deploy => DeployNameAt case Rollback => RollbackNameAt
  }

  /** Where each action of a program stands, and the phases it walks. */
  lemma ProgramShape(kind: Kind, pc: nat)
    requires pc < |Program(kind)|
    ensures var action := Program(kind)[pc];
            && (action.Advance? ==> action.to == PhaseAt(kind, pc + 1) && IsPermitted(action.from, action.to)
                                    && action.from == PhaseAt(kind, pc) && Early(action.to))
            && (!action.Advance? && !action.Commit? ==> PhaseAt(kind, pc + 1) == PhaseAt(kind, pc))
            && (action.Commit? <==> pc == CommitAt(kind))
            && (action.Name? <==> pc == NameAt(kind))
            && (kind.Deploy? ==> (action.NoteCandidate? <==> pc == DeployCandidateAt))
            && (action.NoteCandidate? || action.NoteDigest? ==> kind.Deploy?)
            && (action.Activate? || action.Finish? ==> pc > CommitAt(kind))
            && (action.Advance? || action.Ask? || action.NoteDigest? ==> pc < CommitAt(kind))
            && PhaseAt(kind, CommitAt(kind) + 1) == Promoted && Early(PhaseAt(kind, CommitAt(kind)))
  {
    assert |DeployProgram| == 17 && |RollbackProgram| == 12;
  }

  /** The agent is about to do this action of its transaction. */
  ghost predicate About(agent: Agent, action: Action) {
    && Inv(agent) && agent.running && agent.thread.Some? && !agent.thread.value.failing
    && agent.thread.value.pc < |Program(agent.thread.value.kind)|
    && Program(agent.thread.value.kind)[agent.thread.value.pc] == action
  }

  lemma FailingKeepsTheInvariant(agent: Agent, env: Env)
    requires Inv(agent) && agent.running && agent.thread.Some? && agent.thread.value.failing
    ensures Inv(ThreadStep(agent, env))
  {
    var asked := FailAsked(agent, agent.thread.value, env);
    ThreadsAreNoPartOfSoundness(agent, Leaves(agent));
    LeavingIsDriven(agent, agent);
    if asked.Some? {
      UpdatesStaySound(agent, asked.value, env.faults);
      UpdatesAnswer(agent, asked.value, env.faults);
      var after := Applied(agent, asked.value, env.faults).0;
      ThreadsAreNoPartOfSoundness(after, Leaves(after));
      LeavingIsDriven(agent, after);
    }
  }

  lemma LeavingIsDriven(before: Agent, after: Agent)
    requires Driven(before) && after.restart == before.restart
    requires before.store.indeterminate ==> after.store.indeterminate
    requires Grows(before.store.memory, after.store.memory)
    ensures Driven(Leaves(after))
  {
  }

  /** A step of the thread that is answered moves it on, and one that is not
      fails it. */
  lemma MovesAreDriven(before: Agent, after: Agent, answered: bool)
    requires Driven(before) && before.thread.Some? && !before.thread.value.failing
    requires after.thread == before.thread && after.restart == before.restart && after.running == before.running
    requires before.store.indeterminate ==> after.store.indeterminate
    requires Grows(before.store.memory, after.store.memory)
    requires !answered ==> after.store.memory == before.store.memory && after.trail == before.trail
    requires answered && !after.store.indeterminate ==>
      var thread := before.thread.value;
      ThreadAgrees(thread.(pc := thread.pc + 1), after.store.memory, after.trail)
    ensures answered ==> Driven(Proceeds(after))
    ensures !answered && before.thread.value.pc <= CommitAt(before.thread.value.kind) ==> Driven(Fails(after))
  {
  }

  lemma AskingKeepsTheInvariant(agent: Agent, action: Action, env: Env)
    requires About(agent, action) && ActionAsked(agent, agent.thread.value, action, env).None?
    ensures Inv(ThreadStep(agent, env))
  {
    ProgramShape(agent.thread.value.kind, agent.thread.value.pc);
    MovesAreDriven(agent, agent, !Refused(action, env));
    LeavingIsDriven(agent, agent);
    ThreadsAreNoPartOfSoundness(agent, ThreadStep(agent, env));
  }

  /** `next`, with trail `after`, is what the thread's next action may make of
      `s`. */
  ghost predicate Steps(thread: Thread, s: AgentState, next: AgentState, after: Trail) {
    && Follows(next, after)
    && ThreadAgrees(thread.(pc := thread.pc + 1), Stamped(next), after)
    && (forall g :: NamesGeneration(next, g) ==> NamesGeneration(s, g) || Counter(s) <= g)
  }

  /** Every way the thread goes on from a write of such a step. */
  ghost predicate GoesOn(after: Agent, answered: bool) {
    && Inv(Leaves(after))
    && (answered ==> Inv(Proceeds(after)))
    && (!answered && after.thread.Some? && after.thread.value.pc <= CommitAt(after.thread.value.kind) ==>
        Inv(Fails(after)))
  }

  lemma StepsGoOn(before: Agent, after: Agent, answered: bool)
    requires Inv(before) && before.thread.Some? && !before.thread.value.failing
    requires Sound(after)
    requires after.thread == before.thread && after.restart == before.restart && after.running == before.running
    requires before.store.indeterminate ==> after == before && !answered
    requires Grows(before.store.memory, after.store.memory)
    requires !answered ==> after.store.memory == before.store.memory && after.trail == before.trail
    requires answered ==>
      var thread := before.thread.value;
      ThreadAgrees(thread.(pc := thread.pc + 1), after.store.memory, after.trail)
    ensures GoesOn(after, answered)
  {
    MovesAreDriven(before, after, answered);
    LeavingIsDriven(before, after);
    ThreadsAreNoPartOfSoundness(after, Leaves(after));
    ThreadsAreNoPartOfSoundness(after, Proceeds(after));
    ThreadsAreNoPartOfSoundness(after, Fails(after));
  }

  lemma UpdatesGoOn(agent: Agent, update: Update, faults: Faults)
    requires Inv(agent) && agent.thread.Some? && !agent.thread.value.failing
    requires !agent.store.indeterminate && update.change.Ok? ==>
      Steps(agent.thread.value, agent.store.memory, update.change.value.0, update.trail)
    ensures var (after, answer) := Applied(agent, update, faults);
            after.thread == agent.thread && GoesOn(after, answer.Ok?)
  {
    UpdatesStaySound(agent, update, faults);
    UpdatesAnswer(agent, update, faults);
    var (after, answer) := Applied(agent, update, faults);
    StepsGoOn(agent, after, answer.Ok?);
  }

  lemma AdvancesAreSteps(thread: Thread, s: AgentState, trail: Trail, action: Action)
    requires ThreadAgrees(thread, s, trail) && Recorded(s, trail) && !thread.failing
    requires thread.pc < |Program(thread.kind)| && Program(thread.kind)[thread.pc] == action && action.Advance?
    requires RecordPhase(s, thread.transactionId, action.to).Ok?
    ensures Steps(thread, s, RecordPhase(s, thread.transactionId, action.to).value.0, trail)
  {
    ProgramShape(thread.kind, thread.pc);
  }

  function NoteChange(s: AgentState, thread: Thread, action: Action): Change {
    if action.NoteDigest? then NoteBundleDigest(s, thread.target.bundleDigest) else RecordCandidate(s, thread.target)
  }

  lemma NotesAreSteps(thread: Thread, s: AgentState, trail: Trail, action: Action)
    requires ThreadAgrees(thread, s, trail) && Recorded(s, trail) && !thread.failing
    requires thread.pc < |Program(thread.kind)| && Program(thread.kind)[thread.pc] == action
    requires action.NoteDigest? || action.NoteCandidate?
    requires NoteChange(s, thread, action).Ok?
    ensures Steps(thread, s, NoteChange(s, thread, action).value.0, trail)
  {
    ProgramShape(thread.kind, thread.pc);
  }

  lemma FinishingKeepsTheInvariant(agent: Agent, env: Env)
    requires About(agent, Finish)
    ensures Inv(ThreadStep(agent, env))
  {
    var update := Plain(agent, EndTransaction(agent.store.memory), agent.trail);
    UpdatesStaySound(agent, update, env.faults);
    UpdatesAnswer(agent, update, env.faults);
    var after := Applied(agent, update, env.faults).0;
    ThreadsAreNoPartOfSoundness(after, Leaves(after));
    LeavingIsDriven(agent, after);
  }

  lemma CommitsAreSteps(thread: Thread, s: AgentState, trail: Trail, at: nat)
    requires ThreadAgrees(thread, s, trail) && Recorded(s, trail)
    requires thread.pc == CommitAt(thread.kind) && !thread.failing
    requires CommitChange(s, thread.kind, at).Ok?
    ensures var change := CommitChange(s, thread.kind, at);
            Steps(thread, s, change.value.0, CommitTrail(trail, change))
  {
    ProgramShape(thread.kind, thread.pc);
  }

  /** The store's own refusal of a commit is met by no deploy, and by a
      rollback exactly when it read a record that names no descriptor and
      began over another that does, or over none. */
  lemma CommitsAreRefusedOnlyOverAnotherRecord(agent: Agent, at: nat)
    requires About(agent, Commit) && !agent.store.indeterminate
    ensures var thread := agent.thread.value;
            CommitChange(agent.store.memory, thread.kind, at).Err? <==>
              && thread.kind.Rollback? && !thread.described
              && (agent.trail.base.1.None? || !agent.trail.base.1.value.named.Unnamed?)
  {
    ProgramShape(agent.thread.value.kind, agent.thread.value.pc);
  }

  lemma NamesAreSteps(thread: Thread, s: AgentState, trail: Trail, library: Library, env: Env)
    requires ThreadAgrees(thread, s, trail) && Recorded(s, trail)
    requires thread.pc == NameAt(thread.kind) && thread.described && !thread.failing
    requires NameOf(s, library, thread, env).applied.Ok?
    ensures Steps(thread, s, NameOf(s, library, thread, env).applied.value.0, trail)
  {
    FreshGenerationsAreUnnamed(s, NextGeneration(s, 1).value);
    ProgramShape(thread.kind, thread.pc);
  }

  /** Whatever an action writes is a step of its transaction. */
  lemma ActionsAreSteps(agent: Agent, action: Action, env: Env)
    requires About(agent, action) && !action.Finish? && !agent.store.indeterminate
    requires var asked := ActionAsked(agent, agent.thread.value, action, env);
             asked.Some? && asked.value.change.Ok?
    ensures var update := ActionAsked(agent, agent.thread.value, action, env).value;
            Steps(agent.thread.value, agent.store.memory, update.change.value.0, update.trail)
  {
    var thread := agent.thread.value;
    var memory := agent.store.memory;
    ProgramShape(thread.kind, thread.pc);
    match action
    case Advance(_, _) => AdvancesAreSteps(thread, memory, agent.trail, action);
    case NoteDigest => NotesAreSteps(thread, memory, agent.trail, action);
    case NoteCandidate => NotesAreSteps(thread, memory, agent.trail, action);
    case Commit => CommitsAreSteps(thread, memory, agent.trail, env.at);
    case Name => NamesAreSteps(thread, memory, agent.trail, agent.library, env);
  }

  lemma WritingKeepsTheInvariant(agent: Agent, action: Action, env: Env)
    requires About(agent, action) && !action.Finish? && ActionAsked(agent, agent.thread.value, action, env).Some?
    ensures Inv(ThreadStep(agent, env))
  {
    var update := ActionAsked(agent, agent.thread.value, action, env).value;
    ProgramShape(agent.thread.value.kind, agent.thread.value.pc);
    if !agent.store.indeterminate && update.change.Ok? {
      ActionsAreSteps(agent, action, env);
    }
    UpdatesGoOn(agent, update, env.faults);
  }

  // ----- Every event, every run -----

  lemma StepsKeepTheInvariant(agent: Agent, env: Env)
    requires Inv(agent)
    ensures Inv(ThreadStep(agent, env))
  {
    if agent.running && agent.thread.Some? {
      var thread := agent.thread.value;
      if thread.failing {
        FailingKeepsTheInvariant(agent, env);
      } else if thread.pc < |Program(thread.kind)| {
        var action := Program(thread.kind)[thread.pc];
        assert About(agent, action);
        if action.Finish? {
          FinishingKeepsTheInvariant(agent, env);
        } else if ActionAsked(agent, thread, action, env).None? {
          AskingKeepsTheInvariant(agent, action, env);
        } else {
          WritingKeepsTheInvariant(agent, action, env);
        }
      }
    }
  }

  lemma SupervisionKeepsTheInvariant(agent: Agent, event: Event)
    requires Inv(agent) && (event.TakeForCandidate? || event.TakeForRestart? || event.Restamp? || event.Restore?)
    ensures Inv(Happens(agent, event))
  {
    match event
    case TakeForCandidate(faults) => TakesForCandidatesKeepTheInvariant(agent, faults);
    case TakeForRestart(faults) => TakesForRestartsKeepTheInvariant(agent, faults);
    case Restamp(deploymentId, identity, env) => RestampsKeepTheInvariant(agent, deploymentId, identity, env);
    case Restore(env) => RestoresKeepTheInvariant(agent, env);
  }

  lemma EventsKeepTheInvariant(agent: Agent, event: Event)
    requires Inv(agent)
    ensures Inv(Happens(agent, event))
  {
    match event
    case BeginDeploy(transactionId, target, described, faults) =>
      BeginningsKeepTheInvariant(agent, Deploy, transactionId, target.(named := Unnamed, promotedAt := None),
                                 described, faults);
    case BeginRollback(transactionId, target, faults) =>
      BeginningsKeepTheInvariant(agent, Rollback, transactionId, target, !target.named.Unnamed?, faults);
    case Step(env) => StepsKeepTheInvariant(agent, env);
    case RecordError(error, faults) => ErrorsKeepTheInvariant(agent, error, faults);
    case Crashed(crash, primary, backup, docs) => CrashesKeepTheInvariant(agent, crash, primary, backup, docs);
    case Prune(removed) =>
    case SettleFound(faults) => SettlingKeepsTheInvariant(agent, faults);
    case _ => SupervisionKeepsTheInvariant(agent, event);
  }

  lemma {:induction false} RunsKeepTheInvariant(agent: Agent, events: seq<Event>)
    requires Inv(agent)
    ensures Inv(Run(agent, events))
    decreases |events|
  {
    if events == [] {
    } else {
      EventsKeepTheInvariant(agent, events[0]);
      RunsKeepTheInvariant(Happens(agent, events[0]), events[1..]);
    }
  }

  /** A state with no transaction in flight, and its trail. */
  predicate AtRest(s: AgentState, trail: Trail) {
    ValidState(s) && s.inFlight.None? && trail == Trail(PairOf(s), Deploy, None, None)
  }

  /** An agent whose start has settled what it found; every state a power loss
      could bring back is known and at rest as well. */
  ghost predicate Began(agent: Agent) {
    && agent.running && agent.thread.None? && agent.restart.None? && agent.pending.None?
    && !agent.store.indeterminate && Anchored(agent.store, Kill)
    && Reads(agent.store.disk, PowerLoss, Known(agent))
    && AtRest(agent.store.memory, agent.trail)
    && (forall s :: s in agent.past ==> AtRest(s, agent.past[s]))
  }

  /** What a start settles a state it read to. */
  function SettledState(read: AgentState): AgentState
    requires SettleChange(read).Ok?
  {
    if SettleWrites(read) then Stamped(SettleChange(read).value.0) else read
  }

  /** The pair of records is the one the last transaction began from or the
      one its commit wrote, up to a restart's later generation of the same
      configuration. */
  predicate BeforeOrCommitted(s: AgentState, trail: Trail) {
    match trail.commit
    case None => Later(trail.base.0, s.active) && s.previous == trail.base.1
    case Some((active, previous)) =>
      CommitFollows(trail) && Later(active, s.active) && s.previous == previous
  }

  /** What the start after `crash` reads is a state the agent tried to write,
      under the trail it was written with. A kill leaves the memory or, of a
      latched store, the state whose write latched it; so does a power loss
      of a store whose last write was synced. */
  ghost predicate ReadBack(end: Agent, crash: Crash, read: AgentState, trail: Trail) {
    && read in Known(end) && trail == Remembered(end, read)
    && (!end.store.indeterminate && Anchored(end.store, crash) ==> read == end.store.memory)
    && (crash.Kill? ==> read == if end.pending.Some? then end.pending.value else end.store.memory)
  }

  lemma RunsReadBack(agent: Agent, events: seq<Event>, crash: Crash, primary: Content, backup: Content)
    requires Began(agent) && FindsPair(Run(agent, events).store.disk, crash, primary, backup)
    ensures Open(primary, backup).Opened?
    ensures var end := Run(agent, events);
            var read := Open(primary, backup).state;
            ReadBack(end, crash, read, Remembered(end, read)) && Recorded(read, Remembered(end, read))
  {
    RunsKeepTheInvariant(agent, events);
    var end := Run(agent, events);
    CrashesReadARecordedState(end, crash, primary, backup);
    if !end.store.indeterminate && Anchored(end.store, crash) {
      AnchoredReads(end.store, crash);
    }
  }

  /** Whatever a transaction was doing, wherever it was killed, lost its power
      or failed, wherever the state write it was in stopped, and however
      kills and power losses mixed before: every start reads a state,
      settles it in at most one write that the store does not refuse, and
      leaves no transaction, no candidate, and the records of before the
      transaction or of its commit. */
  lemma EveryStartSettles(agent: Agent, events: seq<Event>, crash: Crash, primary: Content, backup: Content)
    returns (trail: Trail)
    requires Began(agent)
    requires FindsPair(Run(agent, events).store.disk, crash, primary, backup)
    ensures Open(primary, backup).Opened?
    ensures ReadBack(Run(agent, events), crash, Open(primary, backup).state, trail)
    ensures var read := Open(primary, backup).state;
            && SettleChange(read).Ok?
            && (SettleWrites(read) ==> Writable(read, SettledState(read)))
            && var settled := SettledState(read);
               settled.inFlight.None? && settled.candidate.None? && BeforeOrCommitted(settled, trail)
  {
    RunsReadBack(agent, events, crash, primary, backup);
    var read := Open(primary, backup).state;
    trail := Remembered(Run(agent, events), read);
    SettlingIsNeverRefused(read);
  }

  /** In every state a start can read, the transaction in flight is read as
      committed exactly when its commit is in that state (and, for a rollback
      that names no descriptor, it read the record it began over). */
  lemma EveryStartTellsTheCommit(agent: Agent, events: seq<Event>, crash: Crash, primary: Content, backup: Content)
    returns (trail: Trail)
    requires Began(agent)
    requires FindsPair(Run(agent, events).store.disk, crash, primary, backup)
    ensures Open(primary, backup).Opened? && BeforeOrCommitted(Open(primary, backup).state, trail)
    ensures ReadBack(Run(agent, events), crash, Open(primary, backup).state, trail)
    ensures var read := Open(primary, backup).state;
            read.inFlight.Some? ==>
              var tx := read.inFlight.value;
              Committed(read, tx) <==>
                && trail.commit.Some?
                && (tx.kind.Deploy? || tx.named.Names? || ReadWhatItFound(trail))
  {
    RunsReadBack(agent, events, crash, primary, backup);
    var read := Open(primary, backup).state;
    trail := Remembered(Run(agent, events), read);
    if read.inFlight.Some? {
      CommitIsReadFromTheRecords(read, trail);
    }
  }
}
