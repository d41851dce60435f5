/** Agents through 0.2.1 read only version 0.1 states, and fall back to the
    backup whenever the primary does not decode. Whether such an agent,
    started over the files this one leaves, can run on a state this one has
    superseded. */
module OlderReader {
  import opened Wrappers
  import opened Records
  import opened StateStore
  import opened StoreLaws
  import opened StoreRuns

  datatype OldOpened = OldReads(state: AgentState) | OldRefuses

  predicate OldDecodes(content: Content) {
    content.Good? && content.state.schemaVersion.V01?
  }

  predicate OldFindsNothing(content: Content) {
    content.Missing? || content.Empty?
  }

  /** What the older agent's open yields for the pair. */
  function OldOpen(primary: Content, backup: Content): OldOpened {
    if OldDecodes(primary) then OldReads(primary.state)
    else if OldDecodes(backup) then OldReads(backup.state)
    else if OldFindsNothing(primary) && OldFindsNothing(backup) then OldReads(Fresh)
    else OldRefuses
  }

  predicate LaterVersion(content: Content) {
    content.UnsupportedVersion? || (content.Good? && content.state.schemaVersion.V02?)
  }

  /** A primary an older agent refuses for its version, beside a backup it
      would run on instead. */
  predicate Superseded(primary: Content, backup: Content) {
    LaterVersion(primary) && OldDecodes(backup)
  }

  /** No crash of this kind leaves a superseded backup readable. */
  ghost predicate PairSafe(disk: Disk, crash: Crash) {
    forall p, b :: FindsPair(disk, crash, p, b) ==> !Superseded(p, b)
  }

  /** Over a pair without a superseded backup that this agent opens, the
      older agent runs exactly when the state is at version 0.1, and on the
      same state. */
  lemma ReadersAgree(primary: Content, backup: Content)
    requires !Superseded(primary, backup) && Open(primary, backup).Opened?
    ensures var state := Open(primary, backup).state;
            OldOpen(primary, backup) == if state.schemaVersion.V01? then OldReads(state) else OldRefuses
  {
  }

  /** Stopped anywhere, a write leaves no superseded backup visible. */
  lemma WritesKeepThePairSafe(disk: Disk, next: AgentState, primaryIsRead: bool, faults: Faults)
    requires PairSafe(disk, Kill)
    ensures PairSafe(WriteAll(disk, next, primaryIsRead, faults).disk, Kill)
  {
    assert FindsPair(disk, Kill, disk.primary.visible, disk.backup.visible);
    if next.schemaVersion.V02? {
      LaterWriteEnds(disk, next, primaryIsRead, faults);
    } else {
      LegacyWriteEnds(disk, next, primaryIsRead, faults);
    }
  }

  function RanEvents(machine: Machine, events: seq<Event>): Machine
    decreases |events|
  {
    if events == [] then machine else RanEvents(Happens(machine, events[0]).0, events[1..])
  }

  predicate OnlyKills(events: seq<Event>) {
    forall i :: 0 <= i < |events| ==> (events[i].Crashed? ==> events[i].crash.Kill?)
  }

  lemma UpdatesKeepThePairSafe<T>(store: StoreState, applied: Result<(AgentState, T)>, faults: Faults)
    requires PairSafe(store.disk, Kill)
    ensures PairSafe(Updated(store, applied, faults).0.disk, Kill)
  {
    if Proposed(store, applied).Some? {
      WritesKeepThePairSafe(store.disk, Proposed(store, applied).value, store.primaryIsRead, faults);
    }
  }

  lemma EventsKeepThePairSafe(machine: Machine, event: Event)
    requires PairSafe(DiskOf(machine), Kill)
    requires event.Crashed? ==> event.crash.Kill?
    ensures PairSafe(DiskOf(Happens(machine, event).0), Kill)
  {
    if machine.Up? {
      match event
      case Change(change, faults) =>
        UpdatesKeepThePairSafe(machine.store, change(machine.store.memory), faults);
      case Take(floor, name, faults) =>
        UpdatesKeepThePairSafe(machine.store, TakeFrom(machine.store.memory, floor, name), faults);
      case Crashed(_, _, _) =>
      case Start =>
    }
  }

  /** Over every run of writes that end anywhere, kills and starts, from any
      pair without a superseded backup: whenever this agent could start, the
      older one runs exactly on the 0.1 states, and on the same one. */
  lemma {:induction false} OlderAgentsReadTheSameState(machine: Machine, events: seq<Event>)
    requires PairSafe(DiskOf(machine), Kill) && OnlyKills(events)
    ensures var disk := DiskOf(RanEvents(machine, events));
            var found := Open(disk.primary.visible, disk.backup.visible);
            found.Opened? ==>
              OldOpen(disk.primary.visible, disk.backup.visible)
              == if found.state.schemaVersion.V01? then OldReads(found.state) else OldRefuses
    decreases |events|
  {
    if events == [] {
      var disk := DiskOf(machine);
      assert FindsPair(disk, Kill, disk.primary.visible, disk.backup.visible);
    } else {
      EventsKeepThePairSafe(machine, events[0]);
      OlderAgentsReadTheSameState(Happens(machine, events[0]).0, events[1..]);
    }
  }

  // ----- Power losses -----

  /** A legacy write whose two renames happened and whose two best-effort
      syncs both failed. */
  predicate BothRenamesUnsynced(next: AgentState, faults: Faults) {
    && next.schemaVersion.V01?
    && !faults.first.write && !faults.first.rename && faults.first.sync
    && !faults.second.write && !faults.second.rename && faults.second.sync
  }

  predicate MayBringBackALaterPrimary(disk: Disk) {
    LaterVersion(disk.primary.visible) || exists c :: c in disk.primary.stale && LaterVersion(c)
  }

  /** Under power losses a write keeps the pair safe unless it is a legacy
      write with both syncs failed over a primary at a later version: its
      backup rename can then outlive its primary rename. */
  lemma PowerLossKeepsThePairSafeUnless(disk: Disk, next: AgentState, primaryIsRead: bool, faults: Faults)
    requires PairSafe(disk, PowerLoss)
    ensures PairSafe(WriteAll(disk, next, primaryIsRead, faults).disk, PowerLoss)
       <==> !(BothRenamesUnsynced(next, faults) && MayBringBackALaterPrimary(disk))
  {
    var written := WriteAll(disk, next, primaryIsRead, faults).disk;
    if next.schemaVersion.V02? {
      LaterWriteEnds(disk, next, primaryIsRead, faults);
      assert forall p, b :: FindsPair(written, PowerLoss, p, b) && Superseded(p, b) ==>
          FindsPair(disk, PowerLoss, p, b);
    } else {
      LegacyWriteEnds(disk, next, primaryIsRead, faults);
      if BothRenamesUnsynced(next, faults) && MayBringBackALaterPrimary(disk) {
        var later := if LaterVersion(disk.primary.visible) then disk.primary.visible
                     else var c :| c in disk.primary.stale && LaterVersion(c); c;
        assert written.primary == Replaced(disk.primary, Good(next));
        assert FindsPair(written, PowerLoss, later, Good(next)) && Superseded(later, Good(next));
      } else {
        assert forall p, b :: FindsPair(written, PowerLoss, p, b) && Superseded(p, b) ==>
            FindsPair(disk, PowerLoss, p, b);
      }
    }
  }

  /** The write of `tried`, if one is made, is that exception. */
  predicate Strays(disk: Disk, tried: Option<AgentState>, faults: Faults) {
    tried.Some? && BothRenamesUnsynced(tried.value, faults) && MayBringBackALaterPrimary(disk)
  }

  predicate EventStrays(machine: Machine, event: Event) {
    && machine.Up?
    && match event
       case Change(change, faults) =>
         Strays(machine.store.disk, Proposed(machine.store, change(machine.store.memory)), faults)
       case Take(floor, name, faults) =>
         Strays(machine.store.disk, Proposed(machine.store, TakeFrom(machine.store.memory, floor, name)), faults)
       case Crashed(_, _, _) => false
       case Start => false
  }

  predicate NoneStrays(machine: Machine, events: seq<Event>)
    decreases |events|
  {
    events == []
    || (!EventStrays(machine, events[0]) && NoneStrays(Happens(machine, events[0]).0, events[1..]))
  }

  lemma UpdatesKeepThePairSafeUnless<T>(store: StoreState, applied: Result<(AgentState, T)>, faults: Faults)
    requires PairSafe(store.disk, PowerLoss)
    ensures PairSafe(Updated(store, applied, faults).0.disk, PowerLoss)
       <==> !Strays(store.disk, Proposed(store, applied), faults)
  {
    if Proposed(store, applied).Some? {
      PowerLossKeepsThePairSafeUnless(store.disk, Proposed(store, applied).value, store.primaryIsRead, faults);
    }
  }

  lemma CrashesKeepThePairSafe(disk: Disk, crash: Crash, primary: Content, backup: Content)
    requires PairSafe(disk, PowerLoss) && FindsPair(disk, crash, primary, backup)
    ensures PairSafe(After(disk, crash, primary, backup), PowerLoss)
  {
    var after := After(disk, crash, primary, backup);
    assert forall p, b :: FindsPair(after, PowerLoss, p, b) ==> FindsPair(disk, PowerLoss, p, b);
  }

  /** An event keeps every pair a crash may leave safe if and only if it is
      not that write. */
  lemma EventsKeepThePairSafeUnless(machine: Machine, event: Event)
    requires PairSafe(DiskOf(machine), PowerLoss)
    ensures PairSafe(DiskOf(Happens(machine, event).0), PowerLoss) <==> !EventStrays(machine, event)
  {
    match event
    case Change(change, faults) =>
      if machine.Up? {
        UpdatesKeepThePairSafeUnless(machine.store, change(machine.store.memory), faults);
      }
    case Take(floor, name, faults) =>
      if machine.Up? {
        UpdatesKeepThePairSafeUnless(machine.store, TakeFrom(machine.store.memory, floor, name), faults);
      }
    case Crashed(crash, primary, backup) =>
      if FindsPair(DiskOf(machine), crash, primary, backup) {
        CrashesKeepThePairSafe(DiskOf(machine), crash, primary, backup);
      }
    case Start =>
  }

  lemma {:induction false} RunsKeepThePairSafe(machine: Machine, events: seq<Event>)
    requires PairSafe(DiskOf(machine), PowerLoss) && NoneStrays(machine, events)
    ensures PairSafe(DiskOf(RanEvents(machine, events)), PowerLoss)
    decreases |events|
  {
    if events == [] {
    } else {
      EventsKeepThePairSafeUnless(machine, events[0]);
      RunsKeepThePairSafe(Happens(machine, events[0]).0, events[1..]);
    }
  }

  /** Over every run that mixes writes that end anywhere, kills, power losses
      and starts, none of them such a write: whatever the next crash leaves,
      the older agent runs exactly on the 0.1 states this agent would read,
      and on the same one. */
  lemma OlderAgentsAgreeThroughPowerLosses(machine: Machine, events: seq<Event>, crash: Crash, primary: Content,
                                           backup: Content)
    requires PairSafe(DiskOf(machine), PowerLoss) && NoneStrays(machine, events)
    requires FindsPair(DiskOf(RanEvents(machine, events)), crash, primary, backup)
    requires Open(primary, backup).Opened?
    ensures var state := Open(primary, backup).state;
            OldOpen(primary, backup) == if state.schemaVersion.V01? then OldReads(state) else OldRefuses
  {
    RunsKeepThePairSafe(machine, events);
    assert FindsPair(DiskOf(RanEvents(machine, events)), PowerLoss, primary, backup);
    ReadersAgree(primary, backup);
  }

  /** The exception is reachable: a state at 0.2 only for its last error's
      code, an update that clears it and is answered `Ok` with both syncs
      failed, and a power loss after which the older agent runs on a state
      this one does not read. */
  lemma AnOlderAgentMayRunAheadAfterAPowerLoss()
    returns (store: StoreState, applied: Result<(AgentState, ())>, faults: Faults, primary: Content, backup: Content)
    ensures Anchored(store, PowerLoss) && PairSafe(store.disk, PowerLoss)
    ensures var (after, answer) := Updated(store, applied, faults);
            && answer.Ok?
            && FindsPair(after.disk, PowerLoss, primary, backup)
            && Open(primary, backup) == Opened(store.memory, true)
            && OldOpen(primary, backup) == OldReads(after.memory)
            && after.memory != store.memory
  {
    var memory := Fresh.(schemaVersion := V02, lastError := Some(ErrorRecord(UnavailableError, "why")));
    store := StoreState(Disk(Entry(Good(memory), {}), Entry(Good(memory), {})), memory, true, false);
    applied := Ok((memory.(lastError := None), ()));
    var failing := StepFaults(false, false, true);
    faults := Faults(failing, failing);
    var next := Stamped(applied.value.0);
    LegacyWriteEnds(store.disk, next, true, faults);
    primary, backup := Good(memory), Good(next);
  }
}
