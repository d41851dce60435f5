/** What a start reads after every way a write of the state store can end,
    over every run of writes, kills and power losses. */
module StoreLaws {
  import opened Wrappers
  import opened Records
  import opened StateStore

  /** How the agent ends: its process dies and every completed rename is
      visible to the next start, or the power fails and each rename that was
      not synced survives or is lost on its own. */
  datatype Crash = Kill | PowerLoss

  predicate Finds(entry: Entry, crash: Crash, content: Content) {
    content == entry.visible || (crash.PowerLoss? && content in entry.stale)
  }

  /** The next start after `crash` may find `primary` and `backup`. */
  predicate FindsPair(disk: Disk, crash: Crash, primary: Content, backup: Content) {
    Finds(disk.primary, crash, primary) && Finds(disk.backup, crash, backup)
  }

  /** The disk after a crash that left the pair `primary`, `backup`. A power
      loss leaves only what was durable; a kill leaves every rename as it
      was. */
  function After(disk: Disk, crash: Crash, primary: Content, backup: Content): Disk {
    match crash
    case Kill => disk
    case PowerLoss => Disk(Entry(primary, {}), Entry(backup, {}))
  }

  /** Every start after `crash` opens the store, and reads a state of `states`. */
  ghost predicate Reads(disk: Disk, crash: Crash, states: set<AgentState>) {
    forall p, b :: FindsPair(disk, crash, p, b) ==> Open(p, b).Opened? && Open(p, b).state in states
  }

  /** While the store is not latched, the files and its memory agree. Under
      power losses what the next start reads is durable as well. */
  predicate Anchored(store: StoreState, crash: Crash) {
    store.indeterminate
    || (&& Open(store.disk.primary.visible, store.disk.backup.visible) == Opened(store.memory, store.primaryIsRead)
        && (crash.PowerLoss? ==>
          && store.disk.primary.stale == {}
          && (!store.primaryIsRead ==> store.disk.backup.stale == {})))
  }

  function WriteAll(disk: Disk, next: AgentState, primaryIsRead: bool, faults: Faults): Written {
    WriteFrom(disk, next, primaryIsRead, faults, 0, false)
  }

  /** A later-version write, end by end. */
  lemma LaterWriteEnds(disk: Disk, next: AgentState, primaryIsRead: bool, faults: Faults)
    requires next.schemaVersion.V02?
    ensures var first := Renamed(disk, Backup, Good(next));
            var both := Renamed(Synced(first), Primary, Good(next));
            WriteAll(disk, next, primaryIsRead, faults) ==
            if faults.first.write || faults.first.rename then Written(disk, true, false)
            else if faults.first.sync then Written(first, true, !primaryIsRead)
            else if faults.second.write || faults.second.rename then Written(Synced(first), true, !primaryIsRead)
            else if faults.second.sync then Written(both, true, true)
            else Written(Synced(both), false, true)
  {
    var first := Renamed(disk, Backup, Good(next));
    var rest := WriteFrom(Synced(first), next, primaryIsRead, faults, 1, !primaryIsRead);
    assert WriteOrder(next) == [Backup, Primary];
    assert FaultsOf(faults, 0) == faults.first && FaultsOf(faults, 1) == faults.second;
  }

  /** A legacy write, end by end: its directory syncs stop nothing. */
  lemma LegacyWriteEnds(disk: Disk, next: AgentState, primaryIsRead: bool, faults: Faults)
    requires next.schemaVersion.V01?
    ensures var renamed := Renamed(disk, Primary, Good(next));
            var first := if faults.first.sync then renamed else Synced(renamed);
            var both := Renamed(first, Backup, Good(next));
            WriteAll(disk, next, primaryIsRead, faults) ==
            if faults.first.write || faults.first.rename then Written(disk, true, false)
            else if faults.second.write || faults.second.rename then Written(first, true, true)
            else Written(if faults.second.sync then both else Synced(both), false, true)
  {
    var renamed := Renamed(disk, Primary, Good(next));
    var first := if faults.first.sync then renamed else Synced(renamed);
    var rest := WriteFrom(first, next, primaryIsRead, faults, 1, true);
    assert WriteOrder(next) == [Primary, Backup];
    assert FaultsOf(faults, 0) == faults.first && FaultsOf(faults, 1) == faults.second;
  }

  /** A write under this crash model keeps what it acknowledges: under power
      losses that takes a later-version state, whose syncs are required. */
  predicate Kept(crash: Crash, next: AgentState) {
    crash.PowerLoss? ==> next.schemaVersion.V02?
  }

  /** The write loop under both crash models: a write that succeeds is what
      every next start reads; one that fails before its commit rename
      changes nothing a start reads; one that fails at or after it leaves
      the old state or the new one, and after a kill the new one. */
  lemma WriteOutcome(store: StoreState, next: AgentState, faults: Faults, crash: Crash)
    requires !store.indeterminate && Anchored(store, crash) && Kept(crash, next)
    ensures var written := WriteAll(store.disk, next, store.primaryIsRead, faults);
            && (!written.failed ==> Anchored(StoreState(written.disk, next, true, false), crash))
            && (written.failed && !written.committed ==> Anchored(store.(disk := written.disk), crash))
            && (written.failed && written.committed ==> Reads(written.disk, crash, {store.memory, next}))
            && (written.failed && written.committed ==> Reads(written.disk, Kill, {next}))
  {
    if next.schemaVersion.V02? {
      LaterWriteEnds(store.disk, next, store.primaryIsRead, faults);
    } else {
      LegacyWriteEnds(store.disk, next, store.primaryIsRead, faults);
    }
  }

  /** Stopped anywhere, and whatever was left unsynced before it, a write lets
      the next start read what it could read before, or the new state. */
  lemma WritesReadNothingElse(disk: Disk, next: AgentState, primaryIsRead: bool, faults: Faults,
                              states: set<AgentState>)
    requires Reads(disk, PowerLoss, states)
    ensures Reads(WriteAll(disk, next, primaryIsRead, faults).disk, PowerLoss, states + {next})
  {
    if next.schemaVersion.V02? {
      LaterWriteEnds(disk, next, primaryIsRead, faults);
    } else {
      LegacyWriteEnds(disk, next, primaryIsRead, faults);
    }
    var after := WriteAll(disk, next, primaryIsRead, faults).disk;
    forall p, b | FindsPair(after, PowerLoss, p, b) ensures Open(p, b).Opened? && Open(p, b).state in states + {next} {
      var oldBackup := if Finds(disk.backup, PowerLoss, b) then b else disk.backup.visible;
      if p != Good(next) {
        assert FindsPair(disk, PowerLoss, p, oldBackup);
      }
    }
  }

  lemma AnchoredReads(store: StoreState, crash: Crash)
    requires !store.indeterminate && Anchored(store, crash)
    ensures Reads(store.disk, crash, {store.memory})
  {
  }

  /** What an update acknowledged with `Ok` wrote, if it got that far. */
  function Proposed<T>(store: StoreState, applied: Result<(AgentState, T)>): Option<AgentState> {
    if store.indeterminate || applied.Err? || !Writable(store.memory, Stamped(applied.value.0)) then None
    else Some(Stamped(applied.value.0))
  }

  /** One update of an anchored store. `Ok` makes the proposed state the one
      every next start reads; a plain error leaves memory and what a start
      reads as they were; `StateIndeterminate` latches the store with a
      start reading one of the two, and after a kill the new one. */
  lemma UpdateOutcome<T>(store: StoreState, applied: Result<(AgentState, T)>, faults: Faults, crash: Crash)
    requires Anchored(store, crash)
    requires Proposed(store, applied).Some? ==> Kept(crash, Proposed(store, applied).value)
    ensures var (after, answer) := Updated(store, applied, faults);
            && Anchored(after, crash)
            && (answer.Ok? ==>
                  && Proposed(store, applied) == Some(after.memory) && !after.indeterminate
                  && Reads(after.disk, crash, {after.memory}))
            && (answer.Err? ==> after.memory == store.memory)
            && (answer.Err? && !after.indeterminate ==> Reads(after.disk, crash, {store.memory}))
            && (answer.Err? && after.indeterminate && !store.indeterminate ==>
                  && answer.error == StateIndeterminate
                  && Proposed(store, applied).Some?
                  && Reads(after.disk, crash, {store.memory, Proposed(store, applied).value})
                  && Reads(after.disk, Kill, {Proposed(store, applied).value}))
            && (store.indeterminate ==> after == store && answer == Err(StateIndeterminate))
  {
    var (after, answer) := Updated(store, applied, faults);
    if Proposed(store, applied).Some? {
      WriteOutcome(store, Proposed(store, applied).value, faults, crash);
    }
    if !after.indeterminate {
      AnchoredReads(after, crash);
    }
  }

  /** Once a counter is recorded every later write is at the later version. */
  lemma CounterKeepsTheLaterVersion(memory: AgentState, changed: AgentState)
    requires memory.nextGeneration.Some? && Writable(memory, Stamped(changed))
    ensures Stamped(changed).schemaVersion.V02? && Stamped(changed).nextGeneration.Some?
  {
  }

  /** Whatever happened before it, an update answered `Ok` after a counter is
      recorded is what every next start reads, a power loss included. */
  lemma AnswersAreDurable<T>(store: StoreState, applied: Result<(AgentState, T)>, faults: Faults)
    requires store.memory.nextGeneration.Some? && Updated(store, applied, faults).1.Ok?
    ensures Anchored(Updated(store, applied, faults).0, PowerLoss)
    ensures Reads(Updated(store, applied, faults).0.disk, PowerLoss, {Updated(store, applied, faults).0.memory})
  {
    CounterKeepsTheLaterVersion(store.memory, applied.value.0);
    LaterWriteEnds(store.disk, Stamped(applied.value.0), store.primaryIsRead, faults);
  }

  const NoFault := StepFaults(false, false, false)
  const NoFaults := Faults(NoFault, NoFault)

  /** A write that meets no fault is answered, and both files hold it. */
  lemma CleanWritesAreAnswered<T>(store: StoreState, applied: Result<(AgentState, T)>)
    requires !store.indeterminate && applied.Ok? && Writable(store.memory, Stamped(applied.value.0))
    ensures var next := Stamped(applied.value.0);
            var both := Disk(Entry(Good(next), {}), Entry(Good(next), {}));
            Updated(store, applied, NoFaults) == (StoreState(both, next, true, false), Ok(applied.value.1))
  {
    var next := Stamped(applied.value.0);
    if next.schemaVersion.V02? {
      LaterWriteEnds(store.disk, next, store.primaryIsRead, NoFaults);
    } else {
      LegacyWriteEnds(store.disk, next, store.primaryIsRead, NoFaults);
    }
  }
}
