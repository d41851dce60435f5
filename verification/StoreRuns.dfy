/** The state store over whole runs: updates that fail at any step, kills
    inside a write, power losses, and the reader of older agents. */
module StoreRuns {
  import opened Wrappers
  import opened Records
  import opened StateStore
  import opened StoreLaws

  // ----- Updates on one open store -----

  /** An update as a caller asks for it, and what the disk does to it. */
  datatype Attempt = Attempt(change: AgentState -> Result<(AgentState, ())>, faults: Faults)

  /** A store, and the state whose write latched it. */
  datatype Session = Session(store: StoreState, pending: Option<AgentState>)

  function Tried(session: Session, attempt: Attempt): Session {
    var applied := attempt.change(session.store.memory);
    var (after, _) := Updated(session.store, applied, attempt.faults);
    Session(after, if session.pending.None? && after.indeterminate then Proposed(session.store, applied)
                   else session.pending)
  }

  function Ran(session: Session, attempts: seq<Attempt>): Session
    decreases |attempts|
  {
    if attempts == [] then session
    else Ran(Tried(session, attempts[0]), attempts[1..])
  }

  /** The files and the memory of a session tell one story: unlatched, every
      next start reads the memory; latched, it reads the memory or the state
      whose write latched the store, and after a kill the latter. */
  ghost predicate OneStory(session: Session, crash: Crash) {
    && Anchored(session.store, crash)
    && (session.pending.Some? <==> session.store.indeterminate)
    && (session.pending.None? ==> Reads(session.store.disk, crash, {session.store.memory}))
    && (session.pending.Some? ==>
      && Reads(session.store.disk, crash, {session.store.memory, session.pending.value})
      && Reads(session.store.disk, Kill, {session.pending.value}))
  }

  lemma TriedKeepsTheStory(session: Session, attempt: Attempt, crash: Crash)
    requires OneStory(session, crash)
    requires crash.PowerLoss? ==> session.store.memory.nextGeneration.Some?
    ensures OneStory(Tried(session, attempt), crash)
    ensures crash.PowerLoss? ==> Tried(session, attempt).store.memory.nextGeneration.Some?
    ensures session.store.indeterminate ==> Tried(session, attempt) == session
  {
    var store := session.store;
    var applied := attempt.change(store.memory);
    if crash.PowerLoss? && Proposed(store, applied).Some? {
      CounterKeepsTheLaterVersion(store.memory, applied.value.0);
    }
    UpdateOutcome(store, applied, attempt.faults, crash);
  }

  /** Over every run of updates, each failing wherever the disk likes, the
      files and the memory tell one story, and a latched store never changes
      a file again. Under power losses the run starts with a counter, so
      every write has its syncs required. */
  lemma {:induction false} RunsKeepTheStory(session: Session, attempts: seq<Attempt>, crash: Crash)
    requires OneStory(session, crash)
    requires crash.PowerLoss? ==> session.store.memory.nextGeneration.Some?
    ensures OneStory(Ran(session, attempts), crash)
    ensures session.store.indeterminate ==> Ran(session, attempts) == session
    decreases |attempts|
  {
    if attempts == [] {
    } else {
      TriedKeepsTheStory(session, attempts[0], crash);
      RunsKeepTheStory(Tried(session, attempts[0]), attempts[1..], crash);
    }
  }

  // ----- A kill inside a write -----

  /** The files when a write of `next` is killed after `calls` of its six
      calls: temp file, rename and sync of each target in turn. `synced`
      says which of the two syncs worked. */
  function KilledAt(disk: Disk, next: AgentState, calls: nat, synced: (bool, bool)): Disk
    requires calls <= 6
  {
    var order := WriteOrder(next);
    var first := Renamed(disk, order[0], Good(next));
    var firstSynced := if synced.0 then Synced(first) else first;
    var second := Renamed(firstSynced, order[1], Good(next));
    if calls < 2 then disk
    else if calls == 2 then first
    else if calls < 5 then firstSynced
    else if calls == 5 then second
    else if synced.1 then Synced(second) else second
  }

  /** The faults that stop a write where a kill after `calls` calls does. */
  function FaultsAt(calls: nat, synced: (bool, bool)): Faults {
    var early := calls < 2;
    Faults(StepFaults(early, false, calls == 2 || !synced.0),
           StepFaults(calls < 5, false, calls == 5 || !synced.1))
  }

  /** A kill between any two calls of a write leaves what some failing write
      leaves, so a run of updates that end in faults covers every kill. A
      later-version write only goes on past a sync that worked. */
  lemma KillsAreFaults(disk: Disk, next: AgentState, primaryIsRead: bool, calls: nat, synced: (bool, bool))
    requires calls <= 6
    requires next.schemaVersion.V02? && calls > 3 ==> synced.0
    ensures WriteAll(disk, next, primaryIsRead, FaultsAt(calls, synced)).disk == KilledAt(disk, next, calls, synced)
  {
    var faults := FaultsAt(calls, synced);
    if next.schemaVersion.V02? {
      LaterWriteEnds(disk, next, primaryIsRead, faults);
    } else {
      LegacyWriteEnds(disk, next, primaryIsRead, faults);
    }
  }

  // ----- Generations over runs with crashes -----

  /** The agent's process over its state directory: not running, or running
      with its store open. */
  datatype Machine = Down(disk: Disk) | Up(store: StoreState)

  function DiskOf(machine: Machine): Disk {
    match machine case Down(disk) => disk case Up(store) => store.disk
  }

  datatype Event =
    | Change(change: AgentState -> Result<(AgentState, ())>, faults: Faults)
    | Take(floor: nat, name: (AgentState, nat) -> Result<AgentState>, faults: Faults)
    | Crashed(crash: Crash, primary: Content, backup: Content)
    | Start

  /** The update of a generation's taker: the counter hands one out, and
      `name` records it without touching the counter. */
  function TakeFrom(memory: AgentState, floor: nat, name: (AgentState, nat) -> Result<AgentState>)
    : Result<(AgentState, nat)>
  {
    match NextGeneration(memory, floor)
    case None => Err(Internal)
    case Some(generation) =>
      (match name(Allocated(memory, generation), generation)
       case Err(error) => Err(error)
       case Ok(recorded) => Ok((recorded.(nextGeneration := Some(generation + 1)), generation)))
  }

  /** The machine after an event, and the generation the event returned. */
  function Happens(machine: Machine, event: Event): (Machine, Option<nat>) {
    match event
    case Change(change, faults) =>
      if machine.Down? then (machine, None)
      else (Up(Updated(machine.store, change(machine.store.memory), faults).0), None)
    case Take(floor, name, faults) =>
      if machine.Down? then (machine, None)
      else
        var (after, answer) := Updated(machine.store, TakeFrom(machine.store.memory, floor, name), faults);
        (Up(after), if answer.Ok? then Some(answer.value) else None)
    case Crashed(crash, primary, backup) =>
      if FindsPair(DiskOf(machine), crash, primary, backup)
      then (Down(After(DiskOf(machine), crash, primary, backup)), None)
      else (machine, None)
    case Start =>
      if machine.Up? || Open(machine.disk.primary.visible, machine.disk.backup.visible).OpenRefused?
      then (machine, None)
      else (Up(AtStart(machine.disk)), None)
  }

  /** The generations a run returns, in order. */
  function Returned(machine: Machine, events: seq<Event>): seq<nat>
    decreases |events|
  {
    if events == [] then []
    else
      var (after, generation) := Happens(machine, events[0]);
      (if generation.Some? then [generation.value] else []) + Returned(after, events[1..])
  }

  predicate StatePast(state: AgentState, generation: nat) {
    state.nextGeneration.Some? && generation < state.nextGeneration.value
  }

  predicate ContentPast(content: Content, generation: nat) {
    content.Good? && StatePast(content.state, generation)
  }

  predicate EntryPast(entry: Entry, generation: nat) {
    ContentPast(entry.visible, generation) && forall c :: c in entry.stale ==> ContentPast(c, generation)
  }

  /** Whatever the next crash leaves, the counter is past `generation`. */
  predicate Past(machine: Machine, generation: nat) {
    && EntryPast(DiskOf(machine).primary, generation)
    && EntryPast(DiskOf(machine).backup, generation)
    && (machine.Up? ==> StatePast(machine.store.memory, generation))
  }

  lemma WritesStayPast<T>(store: StoreState, applied: Result<(AgentState, T)>, faults: Faults, generation: nat)
    requires Past(Up(store), generation)
    ensures Past(Up(Updated(store, applied, faults).0), generation)
  {
    if Proposed(store, applied).Some? {
      CounterKeepsTheLaterVersion(store.memory, applied.value.0);
      LaterWriteEnds(store.disk, Proposed(store, applied).value, store.primaryIsRead, faults);
    }
  }

  lemma EventsStayPast(machine: Machine, event: Event, generation: nat)
    requires Past(machine, generation)
    ensures Past(Happens(machine, event).0, generation)
  {
    match event
    case Change(change, faults) =>
      if machine.Up? {
        WritesStayPast(machine.store, change(machine.store.memory), faults, generation);
      }
    case Take(floor, name, faults) =>
      if machine.Up? {
        WritesStayPast(machine.store, TakeFrom(machine.store.memory, floor, name), faults, generation);
      }
    case Crashed(crash, primary, backup) =>
    case Start =>
  }

  /** A take that answers leaves every file, and every content a power loss
      could bring back, past the generation it returned; and the generation
      is at or above the counter it was taken from. */
  lemma TakesAreDurable(machine: Machine, event: Event)
    requires Happens(machine, event).1.Some?
    ensures Past(Happens(machine, event).0, Happens(machine, event).1.value)
    ensures machine.Up? && Counter(machine.store.memory) <= Happens(machine, event).1.value
  {
    var store := machine.store;
    var applied := TakeFrom(store.memory, event.floor, event.name);
    var next := Stamped(applied.value.0);
    assert next.schemaVersion.V02?;
    LaterWriteEnds(store.disk, next, store.primaryIsRead, event.faults);
  }

  /** Every generation a run returns after the machine is past `generation`
      is above it. */
  lemma {:induction false} ReturnedAbove(machine: Machine, events: seq<Event>, generation: nat)
    requires Past(machine, generation)
    ensures forall i :: 0 <= i < |Returned(machine, events)| ==> generation < Returned(machine, events)[i]
    decreases |events|
  {
    if events == [] {
    } else {
      var (after, returned) := Happens(machine, events[0]);
      EventsStayPast(machine, events[0], generation);
      ReturnedAbove(after, events[1..], generation);
      if returned.Some? {
        TakesAreDurable(machine, events[0]);
      }
    }
  }

  /** Over every run of writes, failures, kills, power losses and starts the
      generations the store returns strictly increase: none is returned
      twice. */
  lemma {:induction false} GenerationsNeverRepeat(machine: Machine, events: seq<Event>)
    ensures var returned := Returned(machine, events);
            forall i, j :: 0 <= i < j < |returned| ==> returned[i] < returned[j]
    decreases |events|
  {
    if events == [] {
    } else {
      var (after, taken) := Happens(machine, events[0]);
      GenerationsNeverRepeat(after, events[1..]);
      if taken.Some? {
        TakesAreDurable(machine, events[0]);
        ReturnedAbove(after, events[1..], taken.value);
        assert Returned(machine, events) == [taken.value] + Returned(after, events[1..]);
      } else {
        assert Returned(machine, events) == Returned(after, events[1..]);
      }
    }
  }

  // ----- A plain error, when kills and power losses mix -----

  /** Some crash leaves the next start reading `s`. */
  ghost predicate MayRead(disk: Disk, s: AgentState) {
    exists p, b :: FindsPair(disk, PowerLoss, p, b) && Open(p, b) in {Opened(s, true), Opened(s, false)}
  }

  /** A power loss can still leave a file that sends a start to the backup. */
  predicate MayBePassedOver(entry: Entry) {
    exists c :: c in entry.stale + {entry.visible} && (c.Missing? || c.Empty? || c.Damaged?)
  }

  /** An update answered with a plain error is read by a later start if and
      only if its backup rename was done and not synced while the primary
      file's first rename was not synced either. */
  lemma PlainErrorsAreReadExactlyWhen<T>(store: StoreState, applied: Result<(AgentState, T)>, faults: Faults)
    requires Anchored(store, Kill) && Proposed(store, applied).Some?
    requires !MayRead(store.disk, Proposed(store, applied).value)
    requires Updated(store, applied, faults).1.Err? && !Updated(store, applied, faults).0.indeterminate
    ensures var next := Proposed(store, applied).value;
            MayRead(Updated(store, applied, faults).0.disk, next) <==>
              && next.schemaVersion.V02? && MayBePassedOver(store.disk.primary)
              && !faults.first.write && !faults.first.rename && faults.first.sync
  {
    var next := Proposed(store, applied).value;
    var after := Updated(store, applied, faults).0;
    if next.schemaVersion.V01? {
      LegacyWriteEnds(store.disk, next, store.primaryIsRead, faults);
    } else {
      LaterWriteEnds(store.disk, next, store.primaryIsRead, faults);
      if !faults.first.write && !faults.first.rename {
        assert FindsPair(store.disk, PowerLoss, store.disk.primary.visible, store.disk.backup.visible);
        BackupsAreReadExactlyWhen(store.disk, next, faults.first.sync);
      }
    }
  }

  lemma BackupsAreReadExactlyWhen(disk: Disk, next: AgentState, unsynced: bool)
    requires disk.primary.visible.Good? && !MayRead(disk, next)
    ensures var first := Renamed(disk, Backup, Good(next));
            MayRead(if unsynced then first else Synced(first), next) <==> unsynced && MayBePassedOver(disk.primary)
  {
    var first := Renamed(disk, Backup, Good(next));
    var after := if unsynced then first else Synced(first);
    assert FindsPair(disk, PowerLoss, disk.primary.visible, disk.backup.visible);
    if unsynced && MayBePassedOver(disk.primary) {
      var c :| c in disk.primary.stale + {disk.primary.visible} && (c.Missing? || c.Empty? || c.Damaged?);
      assert FindsPair(after, PowerLoss, c, Good(next));
    }
    forall p, b | FindsPair(after, PowerLoss, p, b) && Open(p, b) in {Opened(next, true), Opened(next, false)}
      ensures unsynced && MayBePassedOver(disk.primary)
    {
      if p.Good? {
        assert FindsPair(disk, PowerLoss, p, disk.backup.visible);
        assert false;
      }
    }
  }

  function To(s: AgentState): AgentState -> Result<(AgentState, ())> {
    _ => Ok((s, ()))
  }

  /** Such a run: over a missing primary file one write is killed before its
      last sync, the next start's write fails at its first sync with a plain
      error, and a power loss leaves the start after that reading what the
      error said was not written. */
  lemma APlainErrorMayBeRead(found: AgentState, one: AgentState, two: AgentState)
    requires found.nextGeneration.Some?
    requires Writable(found, Stamped(one)) && Writable(Stamped(one), Stamped(two))
    ensures var step := StepFaults(false, false, true);
            var running := Happens(Down(Disk(Entry(Missing, {}), Entry(Good(found), {}))), Start).0;
            var killed := Happens(running, Change(To(one), Faults(StepFaults(false, false, false), step))).0;
            var down := Happens(killed, Crashed(Kill, Good(Stamped(one)), Good(Stamped(one)))).0;
            var restarted := Happens(down, Start).0;
            && restarted.Up? && restarted.store.memory == Stamped(one)
            && var (after, answer) := Updated(restarted.store, To(two)(Stamped(one)), Faults(step, step));
               && answer == Err(Io) && after.memory == Stamped(one)
               && FindsPair(after.disk, PowerLoss, Missing, Good(Stamped(two)))
               && Open(Missing, Good(Stamped(two))) == Opened(Stamped(two), false)
  {
    var step := StepFaults(false, false, true);
    var lastSync := Faults(StepFaults(false, false, false), step);
    var disk := Disk(Entry(Missing, {}), Entry(Good(found), {}));
    CounterKeepsTheLaterVersion(found, one);
    CounterKeepsTheLaterVersion(Stamped(one), two);
    LaterWriteEnds(disk, Stamped(one), false, lastSync);
    var half := Disk(Entry(Good(Stamped(one)), {Missing}), Entry(Good(Stamped(one)), {}));
    assert WriteAll(disk, Stamped(one), false, lastSync).disk == half;
    LaterWriteEnds(half, Stamped(two), true, Faults(step, step));
  }
}
