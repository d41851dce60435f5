/** Transactions that nothing stands in the way of: they commit, and end.
    And the rollback that reads one record and swaps in another. */
module CleanRuns {
  import opened Wrappers
  import opened Records
  import opened StateStore
  import opened StoreLaws
  import opened Changes
  import opened Recovery
  import opened AgentSystem
  import opened AgentLaws
  import opened AgentRuns
  import opened AgentDocuments

  predicate Clean(env: Env) {
    !env.fails && !env.stopping && env.faults == NoFaults && env.document.DocWritten?
  }

  /** What the action in front of the thread asks of the store, if anything. */
  function AskedNext(agent: Agent, action: Action, env: Env): Option<Update>
    requires agent.thread.Some?
  {
    ActionAsked(agent, agent.thread.value, action, env)
  }

  /** The store takes the update and does not refuse it. */
  predicate Taken(agent: Agent, update: Update) {
    update.change.Ok? && Writable(agent.store.memory, Stamped(update.change.value.0))
  }

  lemma CleanNamesAreTaken(agent: Agent, env: Env)
    requires About(agent, Name) && Clean(env) && agent.thread.value.described && !agent.store.indeterminate
    requires Documented(agent.store.memory, agent.library) && HasGenerations(agent.store.memory)
    requires agent.thread.value.kind.Rollback? ==> agent.store.memory.previous == Some(agent.thread.value.target)
    ensures Taken(agent, AskedNext(agent, Name, env).value)
  {
    var thread := agent.thread.value;
    ProgramShape(thread.kind, thread.pc);
    if thread.kind.Rollback? {
      assert thread.target.named.Names?;
    }
  }

  lemma CleanCommitsAreTaken(agent: Agent, env: Env)
    requires About(agent, Commit) && !agent.store.indeterminate
    requires CommitChange(agent.store.memory, agent.thread.value.kind, env.at).Ok?
    ensures Taken(agent, AskedNext(agent, Commit, env).value)
  {
    ProgramShape(agent.thread.value.kind, agent.thread.value.pc);
  }

  /** Nothing but another record under a rollback refuses a clean write. */
  lemma CleanWritesAreTaken(agent: Agent, action: Action, env: Env)
    requires About(agent, action) && Clean(env) && !agent.store.indeterminate
    requires Documented(agent.store.memory, agent.library)
    requires action.Name? ==> HasGenerations(agent.store.memory)
    requires action.Name? && agent.thread.value.kind.Rollback? && agent.thread.value.described ==>
      agent.store.memory.previous == Some(agent.thread.value.target)
    requires action.Commit? ==> CommitChange(agent.store.memory, agent.thread.value.kind, env.at).Ok?
    requires AskedNext(agent, action, env).Some?
    ensures Taken(agent, AskedNext(agent, action, env).value)
  {
    if action.Name? {
      CleanNamesAreTaken(agent, env);
    } else if action.Commit? {
      CleanCommitsAreTaken(agent, env);
    } else {
      ProgramShape(agent.thread.value.kind, agent.thread.value.pc);
    }
  }

  /** The store does not refuse this rollback's swap. */
  predicate Swappable(thread: Thread, found: Option<DeploymentRecord>) {
    found == Some(thread.target) || (!thread.described && found.Some? && found.value.named.Unnamed?)
  }

  /** What a clean run needs of the agent at each of its steps. */
  ghost predicate Unhindered(agent: Agent) {
    && Inv(agent) && agent.running && !agent.store.indeterminate
    && Documented(agent.store.memory, agent.library)
    && agent.thread.Some? && !agent.thread.value.failing
    && (agent.thread.value.pc <= NameAt(agent.thread.value.kind) ==> HasGenerations(agent.store.memory))
    && (agent.thread.value.kind.Rollback? ==> Swappable(agent.thread.value, agent.trail.base.1))
    && (agent.trail.commit.None? ==> agent.store.memory.active == agent.trail.base.0)
    && (agent.trail.commit.Some? ==> agent.store.memory.active == agent.trail.commit.value.0
                                     && agent.trail.commit.value.1 == agent.trail.base.0)
  }

  /** An update that is taken and meets no fault is the new memory. */
  lemma TakenUpdatesAreAnswered(agent: Agent, update: Update)
    requires !agent.store.indeterminate && Taken(agent, update)
    ensures var (after, answer) := Applied(agent, update, NoFaults);
            && answer.Ok? && after.store.memory == Stamped(update.change.value.0) && !after.store.indeterminate
            && after.trail == update.trail && after.thread == agent.thread && after.running == agent.running
  {
    CleanWritesAreAnswered(SyncedFirst(agent, update).store, update.change);
  }

  /** `next` is what an action makes of `memory`: only a commit moves the
      records, retaining the active one, and only a naming the counter. */
  predicate MovesOnly(memory: AgentState, action: Action, next: AgentState) {
    && (!action.Commit? ==> PairOf(next) == PairOf(memory))
    && (!action.Commit? && !action.Name? ==> Counter(next) == Counter(memory))
    && (action.Commit? ==> next.previous == memory.active)
  }

  lemma WritesKeepTheRecords(agent: Agent, action: Action, env: Env)
    requires agent.thread.Some? && AskedNext(agent, action, env).Some?
    requires AskedNext(agent, action, env).value.change.Ok?
    ensures MovesOnly(agent.store.memory, action, Stamped(AskedNext(agent, action, env).value.change.value.0))
  {
  }

  /** What a step writes over belongs to a fresh generation. */
  lemma StepsSpareTheMemory(agent: Agent, env: Env)
    requires Inv(agent) && !agent.store.indeterminate && Documented(agent.store.memory, agent.library)
    requires StepAsked(agent, env).Some?
    ensures Documented(agent.store.memory, StepAsked(agent, env).value.library)
  {
    var update := StepAsked(agent, env).value;
    forall k | Loses(agent.library, update.library, k) ensures !StateNamesKey(agent.store.memory, k) {
      LostDocumentsAreFresh(agent, Step(env), k);
      if Counter(agent.store.memory) <= k.1 {
        FreshGenerationsAreUnnamed(agent.store.memory, k.1);
      }
    }
    SparedStatesStayDocumented(agent.store.memory, agent.library, update.library);
  }

  lemma CleanStepsStayDocumented(agent: Agent, env: Env)
    requires Inv(agent) && !agent.store.indeterminate && Documented(agent.store.memory, agent.library)
    ensures var after := ThreadStep(agent, env);
            !after.store.indeterminate ==> Documented(after.store.memory, after.library)
  {
    StepsAreUpdates(agent, env);
    if StepAsked(agent, env).Some? {
      var update := StepAsked(agent, env).value;
      UpdatesAnswer(agent, update, env.faults);
      StepsSpareTheMemory(agent, env);
      if update.change.Ok? {
        StepsAreDocumented(agent, env);
      }
    }
  }

  predicate AtWork(agent: Agent) {
    && agent.thread.Some? && agent.thread.value.pc < |Program(agent.thread.value.kind)|
    && !Program(agent.thread.value.kind)[agent.thread.value.pc].Finish?
  }

  predicate AtItsEnd(agent: Agent) {
    && agent.thread.Some? && agent.thread.value.pc < |Program(agent.thread.value.kind)|
    && Program(agent.thread.value.kind)[agent.thread.value.pc].Finish?
  }

  /** The thread did its action and goes on. */
  ghost predicate Proceeded(agent: Agent, after: Agent) {
    && Unhindered(after) && agent.thread.Some?
    && after.thread == Some(agent.thread.value.(pc := agent.thread.value.pc + 1))
    && after.trail.base == agent.trail.base && after.trail.target == agent.trail.target
    && after.trail.kind == agent.trail.kind
  }

  lemma CleanActionsAreTaken(agent: Agent, action: Action, env: Env)
    requires Unhindered(agent) && Clean(env) && About(agent, action) && AskedNext(agent, action, env).Some?
    ensures Taken(agent, AskedNext(agent, action, env).value)
  {
    ProgramShape(agent.thread.value.kind, agent.thread.value.pc);
    if action.Commit? {
      CommitsAreRefusedOnlyOverAnotherRecord(agent, env.at);
    }
    CleanWritesAreTaken(agent, action, env);
  }

  /** The thread moved on, and only its commit moved the records. */
  predicate MovedOn(agent: Agent, action: Action, after: Agent) {
    && agent.thread.Some?
    && after.thread == Some(agent.thread.value.(pc := agent.thread.value.pc + 1)) && after.running
    && !after.store.indeterminate && MovesOnly(agent.store.memory, action, after.store.memory)
    && (!action.Commit? ==> after.trail == agent.trail)
    && (action.Commit? ==>
          && after.trail.commit == Some(PairOf(after.store.memory))
          && after.trail == agent.trail.(commit := after.trail.commit))
  }

  /** The agent is about to do `action`, whatever its state keeps. */
  predicate InFrontOf(agent: Agent, action: Action) {
    && agent.running && agent.thread.Some? && !agent.thread.value.failing && !agent.store.indeterminate
    && agent.thread.value.pc < |Program(agent.thread.value.kind)|
    && Program(agent.thread.value.kind)[agent.thread.value.pc] == action
  }

  lemma TakenStepsMoveOn(agent: Agent, action: Action, env: Env)
    requires InFrontOf(agent, action) && !action.Finish? && env.faults == NoFaults
    requires AskedNext(agent, action, env).Some? && Taken(agent, AskedNext(agent, action, env).value)
    ensures MovedOn(agent, action, ThreadStep(agent, env))
  {
    var update := AskedNext(agent, action, env).value;
    TakenUpdatesAreAnswered(agent, update);
    WritesKeepTheRecords(agent, action, env);
    var after := Applied(agent, update, NoFaults).0;
    assert ThreadStep(agent, env) == Proceeds(after);
  }

  lemma CleanStepsMoveOn(agent: Agent, action: Action, env: Env)
    requires Unhindered(agent) && Clean(env) && AtWork(agent) && About(agent, action)
    ensures MovedOn(agent, action, ThreadStep(agent, env))
  {
    ProgramShape(agent.thread.value.kind, agent.thread.value.pc);
    if AskedNext(agent, action, env).Some? {
      CleanActionsAreTaken(agent, action, env);
      TakenStepsMoveOn(agent, action, env);
    }
  }

  /** What stays in a thread's way, once it moved on. */
  lemma MovedOnIsUnhindered(agent: Agent, action: Action, after: Agent)
    requires Unhindered(agent) && About(agent, action) && MovedOn(agent, action, after)
    requires Inv(after) && Documented(after.store.memory, after.library)
    ensures Proceeded(agent, after)
  {
    ProgramShape(agent.thread.value.kind, agent.thread.value.pc);
  }

  lemma CleanStepsProceed(agent: Agent, env: Env)
    requires Unhindered(agent) && Clean(env) && AtWork(agent)
    ensures Proceeded(agent, ThreadStep(agent, env))
  {
    var action := Program(agent.thread.value.kind)[agent.thread.value.pc];
    CleanStepsMoveOn(agent, action, env);
    StepsKeepTheInvariant(agent, env);
    CleanStepsStayDocumented(agent, env);
    MovedOnIsUnhindered(agent, action, ThreadStep(agent, env));
  }

  /** The thread ended its transaction. */
  predicate Finished(agent: Agent, after: Agent) {
    && after.thread.None? && after.trail == agent.trail && after.trail.commit.Some?
    && after.store.memory.inFlight.None? && after.store.memory.candidate.None?
    && PairOf(after.store.memory) == PairOf(agent.store.memory)
  }

  lemma CleanTransactionsFinish(agent: Agent, env: Env)
    requires Unhindered(agent) && Clean(env) && AtItsEnd(agent)
    ensures Finished(agent, ThreadStep(agent, env))
  {
    ProgramShape(agent.thread.value.kind, agent.thread.value.pc);
    CleanActionsAreTaken(agent, Finish, env);
    TakenUpdatesAreAnswered(agent, AskedNext(agent, Finish, env).value);
  }

  // ----- Whole transactions -----

  function Stepping(env: Env): Agent -> Agent {
    agent => ThreadStep(agent, env)
  }

  function Repeated(step: Agent -> Agent, agent: Agent, steps: nat): Agent
    decreases steps
  {
    if steps == 0 then agent else Repeated(step, step(agent), steps - 1)
  }

  /** Every unhindered thread does its action under `step`, and ends its
      transaction with its last. */
  ghost predicate Progresses(step: Agent -> Agent) {
    && (forall a: Agent {:trigger Proceeded(a, step(a))} :: Unhindered(a) && AtWork(a) ==> Proceeded(a, step(a)))
    && (forall a: Agent {:trigger Finished(a, step(a))} :: Unhindered(a) && AtItsEnd(a) ==> Finished(a, step(a)))
  }

  lemma CleanStepsProgress(env: Env)
    requires Clean(env)
    ensures Progresses(Stepping(env))
  {
    var step := Stepping(env);
    forall a: Agent | Unhindered(a) && AtWork(a) ensures Proceeded(a, step(a)) {
      CleanStepsProceed(a, env);
    }
    forall a: Agent | Unhindered(a) && AtItsEnd(a) ensures Finished(a, step(a)) {
      CleanTransactionsFinish(a, env);
    }
  }

  lemma ProgramsEndInFinish(kind: Kind, pc: nat)
    requires pc < |Program(kind)|
    ensures Program(kind)[pc].Finish? <==> pc == |Program(kind)| - 1
  {
    assert |DeployProgram| == 17 && |RollbackProgram| == 12;
  }

  /** The transaction begun from `base` committed and ended in `end`. */
  predicate CommittedFrom(end: Agent, trail: Trail) {
    && end.thread.None? && end.store.memory.inFlight.None? && end.store.memory.candidate.None?
    && end.trail.commit.Some? && CommitFollows(end.trail)
    && PairOf(end.store.memory) == end.trail.commit.value && end.trail.commit.value.1 == trail.base.0
    && end.trail.base == trail.base && end.trail.target == trail.target && end.trail.kind == trail.kind
  }

  lemma FinishedRunsAreCommitted(agent: Agent, after: Agent)
    requires Unhindered(agent) && Finished(agent, after)
    ensures CommittedFrom(after, agent.trail)
  {
  }

  lemma OneStepProceeds(agent: Agent, step: Agent -> Agent)
    requires Unhindered(agent) && Progresses(step)
    requires agent.thread.value.pc + 1 < |Program(agent.thread.value.kind)|
    ensures Proceeded(agent, step(agent))
  {
    ProgramsEndInFinish(agent.thread.value.kind, agent.thread.value.pc);
    assert AtWork(agent);
  }

  lemma {:induction false} CleanRunsCommit(agent: Agent, step: Agent -> Agent, steps: nat)
    requires Unhindered(agent) && Progresses(step)
    requires 0 < steps == |Program(agent.thread.value.kind)| - agent.thread.value.pc
    ensures CommittedFrom(Repeated(step, agent, steps), agent.trail)
    decreases steps
  {
    ProgramsEndInFinish(agent.thread.value.kind, agent.thread.value.pc);
    var after := step(agent);
    if steps == 1 {
      assert Repeated(step, after, 0) == after;
      assert AtItsEnd(agent) && Finished(agent, after);
      FinishedRunsAreCommitted(agent, after);
    } else {
      OneStepProceeds(agent, step);
      CleanRunsCommit(after, step, steps - 1);
    }
  }

  /** Over an agent at rest the begin is answered, and moves no record. */
  lemma BeginningsAreAnswered(agent: Agent, thread: Thread)
    requires agent.running && agent.thread.None? && !agent.store.indeterminate
    requires ValidState(agent.store.memory) && agent.store.memory.inFlight.None?
    requires thread.pc == 0 && !thread.failing
    ensures var begun := Begin(agent, thread.kind, thread.transactionId, thread.target, thread.described, NoFaults);
            && begun.running && begun.thread == Some(thread) && !begun.store.indeterminate
            && begun.trail == Trail(PairOf(agent.store.memory), thread.kind, Some(thread.target), None)
            && PairOf(begun.store.memory) == PairOf(agent.store.memory)
            && Counter(begun.store.memory) == Counter(agent.store.memory)
            && (Documented(agent.store.memory, agent.library) ==> Documented(begun.store.memory, begun.library))
  {
    TakenUpdatesAreAnswered(agent, BeginAsked(agent, thread.kind, thread.transactionId, thread.target).value);
  }

  /** A transaction begun over an agent at rest stands at its first action. */
  lemma BegunTransactionsAreUnhindered(agent: Agent, thread: Thread)
    requires Began(agent) && DocumentsKept(agent) && HasGenerations(agent.store.memory)
    requires thread.pc == 0 && !thread.failing
    requires thread.kind.Deploy? ==> thread.target.named.Unnamed? && thread.target.promotedAt.None?
    requires thread.kind.Rollback? ==> thread.described == !thread.target.named.Unnamed?
    requires thread.kind.Rollback? ==> Swappable(thread, agent.store.memory.previous)
    ensures var begun := Begin(agent, thread.kind, thread.transactionId, thread.target, thread.described, NoFaults);
            && Unhindered(begun) && begun.thread == Some(thread)
            && begun.trail == Trail(PairOf(agent.store.memory), thread.kind, Some(thread.target), None)
  {
    BeginningsAreAnswered(agent, thread);
    BeginningsKeepTheInvariant(agent, thread.kind, thread.transactionId, thread.target, thread.described, NoFaults);
    MemoriesAreDocumented(agent);
  }

  /** A deploy that nothing hinders makes its candidate the active record,
      retains the one it replaced, and leaves no transaction behind. */
  lemma CleanDeploysCommit(agent: Agent, transactionId: string, target: DeploymentRecord, described: bool, env: Env)
    requires Began(agent) && DocumentsKept(agent) && Clean(env) && HasGenerations(agent.store.memory)
    requires target.named.Unnamed? && target.promotedAt.None?
    ensures var begun := Begin(agent, Deploy, transactionId, target, described, NoFaults);
            var end := Repeated(Stepping(env), begun, |DeployProgram|);
            && end.thread.None? && end.store.memory.inFlight.None? && end.store.memory.candidate.None?
            && end.store.memory.active.Some?
            && end.store.memory.active.value.(named := Unnamed, promotedAt := None) == target
            && end.store.memory.previous == agent.store.memory.active
  {
    var begun := Begin(agent, Deploy, transactionId, target, described, NoFaults);
    BegunTransactionsAreUnhindered(agent, Thread(Deploy, transactionId, target, described, 0, false));
    CleanStepsProgress(env);
    CleanRunsCommit(begun, Stepping(env), |DeployProgram|);
  }

  /** A rollback that nothing hinders puts the previous record back, under a
      later generation of its configuration if it names one. */
  lemma CleanRollbacksCommit(agent: Agent, transactionId: string, target: DeploymentRecord, env: Env)
    requires Began(agent) && DocumentsKept(agent) && Clean(env) && HasGenerations(agent.store.memory)
    requires agent.store.memory.previous == Some(target)
    ensures var begun := Begin(agent, Rollback, transactionId, target, !target.named.Unnamed?, NoFaults);
            var end := Repeated(Stepping(env), begun, |RollbackProgram|);
            && end.thread.None? && end.store.memory.inFlight.None?
            && end.store.memory.active.Some?
            && LaterRecord(target, end.store.memory.active.value.(promotedAt := target.promotedAt))
            && end.store.memory.previous == agent.store.memory.active
  {
    var begun := Begin(agent, Rollback, transactionId, target, !target.named.Unnamed?, NoFaults);
    BegunTransactionsAreUnhindered(agent, Thread(Rollback, transactionId, target, !target.named.Unnamed?, 0, false));
    CleanStepsProgress(env);
    CleanRunsCommit(begun, Stepping(env), |RollbackProgram|);
  }

  ghost predicate Reached(end: Agent, agent: Agent, steps: nat) {
    && Unhindered(end) && agent.thread.Some?
    && end.thread == Some(agent.thread.value.(pc := agent.thread.value.pc + steps))
    && end.trail.base == agent.trail.base && end.trail.target == agent.trail.target
  }

  lemma ReachedThrough(end: Agent, after: Agent, agent: Agent, steps: nat)
    requires Reached(end, after, steps) && Proceeded(agent, after)
    ensures Reached(end, agent, steps + 1)
  {
    assert Unhindered(end);
  }

  /** The thread has this many actions left before its last. */
  predicate HasRoom(agent: Agent, steps: nat) {
    agent.thread.Some? && agent.thread.value.pc + steps < |Program(agent.thread.value.kind)|
  }

  lemma RoomRunsDown(agent: Agent, after: Agent, steps: nat)
    requires Proceeded(agent, after) && HasRoom(agent, steps) && steps > 0
    ensures Unhindered(after) && HasRoom(after, steps - 1)
  {
  }

  lemma {:induction false} CleanRunsReach(agent: Agent, step: Agent -> Agent, steps: nat)
    requires Unhindered(agent) && Progresses(step) && HasRoom(agent, steps)
    ensures Reached(Repeated(step, agent, steps), agent, steps)
    decreases steps
  {
    if steps == 0 {
      ReachedAtOnce(agent);
    } else {
      var after := step(agent);
      OneStepProceeds(agent, step);
      RoomRunsDown(agent, after, steps);
      CleanRunsReach(after, step, steps - 1);
      ReachedThrough(Repeated(step, after, steps - 1), after, agent, steps - 1);
    }
  }

  lemma ReachedAtOnce(agent: Agent)
    requires Unhindered(agent)
    ensures Reached(agent, agent, 0)
  {
  }

  /** A rollback past its commit that began over another record than it
      read, neither naming a descriptor. */
  lemma StaleRollbacksAreUncommitted(end: Agent, base: Pair, target: DeploymentRecord)
    requires Unhindered(end) && end.thread.value.kind.Rollback? && end.thread.value.pc == CommitAt(Rollback) + 1
    requires !end.thread.value.described && end.trail.base == base && end.trail.target == Some(target)
    requires base.1.Some? && target.deploymentId != base.1.value.deploymentId
    ensures var memory := end.store.memory;
            && memory.previous == base.0 && memory.active.Some?
            && memory.active.value.deploymentId == base.1.value.deploymentId
            && memory.inFlight.Some? && !Committed(memory, memory.inFlight.value) && SettleOf(memory).Ended?
  {
    CommitIsReadFromTheRecords(end.store.memory, end.trail);
  }

  /** A rollback reads the previous record before it begins, and another
      transaction may end in between. Between records that name no
      descriptor, one that read another deployment than it began over still
      swaps the two records: its commit is written, and every start reads it
      as not committed and quarantines it. */
  lemma AStaleRollbackIsReadAsUncommitted(agent: Agent, transactionId: string, target: DeploymentRecord, env: Env)
    requires Began(agent) && DocumentsKept(agent) && Clean(env) && HasGenerations(agent.store.memory)
    requires agent.store.memory.previous.Some? && agent.store.memory.previous.value.named.Unnamed?
    requires target.named.Unnamed? && target.deploymentId != agent.store.memory.previous.value.deploymentId
    ensures var begun := Begin(agent, Rollback, transactionId, target, !target.named.Unnamed?, NoFaults);
            var end := Repeated(Stepping(env), begun, CommitAt(Rollback) + 1).store.memory;
            && end.previous == agent.store.memory.active && end.active.Some?
            && end.active.value.deploymentId == agent.store.memory.previous.value.deploymentId
            && end.inFlight.Some? && !Committed(end, end.inFlight.value) && SettleOf(end).Ended?
  {
    var begun := Begin(agent, Rollback, transactionId, target, false, NoFaults);
    BegunTransactionsAreUnhindered(agent, Thread(Rollback, transactionId, target, false, 0, false));
    assert |RollbackProgram| == 12;
    CleanStepsProgress(env);
    CleanRunsReach(begun, Stepping(env), CommitAt(Rollback) + 1);
    StaleRollbacksAreUncommitted(Repeated(Stepping(env), begun, CommitAt(Rollback) + 1),
                                 PairOf(agent.store.memory), target);
  }
}
