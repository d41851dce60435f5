/** The durable state store: two files, each written as temp file, `fsync`,
    rename and directory sync. What a start reads back after every way a
    write can end is proved in `StoreLaws`. */
module StateStore {
  import opened Widths
  import opened Records

  /** What a reader of this build finds in a state file. */
  datatype Content =
    | Missing
    | Empty
    | Damaged             // read, and does not decode
    | UnsupportedVersion  // at a state version this build does not read
    | Unreadable          // there, and cannot be read
    | Good(state: AgentState)

  /** One directory entry: what it shows now, and the older contents that a
      power loss can still bring back, because the renames that replaced
      them were not synced. */
  datatype Entry = Entry(visible: Content, stale: set<Content>)

  datatype Disk = Disk(primary: Entry, backup: Entry)

  datatype Target = Primary | Backup

  /** Which calls of one step of a write fail. */
  datatype StepFaults = StepFaults(write: bool, rename: bool, sync: bool)

  datatype Faults = Faults(first: StepFaults, second: StepFaults)

  datatype Loaded = Nothing | Holds(state: AgentState) | Refuses(error: AgentError, allowsBackup: bool)

  datatype Opened = Opened(state: AgentState, primaryIsRead: bool) | OpenRefused(error: AgentError)

  function LoadOne(content: Content): Loaded {
    match content
    case Missing => Nothing
    case Empty => Nothing
    case Damaged => Refuses(CorruptState, true)
    case UnsupportedVersion => Refuses(CorruptState, false)
    case Unreadable => Refuses(Io, false)
    case Good(state) => Holds(state)
  }

  /** What a start reads from the pair. */
  function Open(primary: Content, backup: Content): Opened {
    match LoadOne(primary)
    case Holds(state) => Opened(state, true)
    case Nothing =>
      (match LoadOne(backup)
       case Holds(state) => Opened(state, false)
       case Nothing => Opened(Fresh, false)
       case Refuses(error, _) => OpenRefused(error))
    case Refuses(error, allowsBackup) =>
      if !allowsBackup then OpenRefused(error)
      else
        (match LoadOne(backup)
         case Holds(state) => Opened(state, false)
         case _ => OpenRefused(error))
  }

  function WriteOrder(next: AgentState): (order: seq<Target>)
    ensures |order| == 2
  {
    if next.schemaVersion.V01? then [Primary, Backup] else [Backup, Primary]
  }

  /** The rename that makes a new state what the next start reads. */
  function CommitTarget(next: AgentState, primaryIsRead: bool): Target {
    if next.schemaVersion.V02? && !primaryIsRead then Backup else Primary
  }

  function Replaced(entry: Entry, content: Content): Entry {
    Entry(content, entry.stale + {entry.visible})
  }

  function Renamed(disk: Disk, target: Target, content: Content): Disk {
    match target
    case Primary => disk.(primary := Replaced(disk.primary, content))
    case Backup => disk.(backup := Replaced(disk.backup, content))
  }

  function Synced(disk: Disk): Disk {
    Disk(Entry(disk.primary.visible, {}), Entry(disk.backup.visible, {}))
  }

  function FaultsOf(faults: Faults, index: nat): StepFaults {
    if index == 0 then faults.first else faults.second
  }

  /** How a write ended: the files it left, whether it failed, and whether
      its commit rename was done. */
  datatype Written = Written(disk: Disk, failed: bool, committed: bool)

  /** The write of `next` from its step `index` on. Only a later-version
      write stops at a directory sync that fails. */
  function WriteFrom(disk: Disk, next: AgentState, primaryIsRead: bool, faults: Faults,
                     index: nat, committed: bool): Written
    requires index <= 2
    decreases 2 - index
  {
    if index == 2 then Written(disk, false, committed)
    else
      var step := FaultsOf(faults, index);
      if step.write || step.rename then Written(disk, true, committed)
      else
        var target := WriteOrder(next)[index];
        var renamed := Renamed(disk, target, Good(next));
        var done := committed || target == CommitTarget(next, primaryIsRead);
        if step.sync && next.schemaVersion.V02? then Written(renamed, true, done)
        else WriteFrom(if step.sync then renamed else Synced(renamed), next, primaryIsRead, faults, index + 1, done)
  }

  /** A store in one piece, for reasoning about runs. */
  datatype StoreState = StoreState(
    disk: Disk,
    memory: AgentState,
    primaryIsRead: bool,
    indeterminate: bool)

  /** A store as a start opens it over a readable pair. */
  function AtStart(disk: Disk): StoreState
    requires Open(disk.primary.visible, disk.backup.visible).Opened?
  {
    var found := Open(disk.primary.visible, disk.backup.visible);
    StoreState(disk, found.state, found.primaryIsRead, false)
  }

  function SaturatingBump(version: nat): nat {
    if version >= U64_MAX then U64_MAX else version + 1
  }

  /** `changed` as a write stamps it. */
  function Stamped(changed: AgentState): AgentState {
    var bumped := changed.(storeVersion := SaturatingBump(changed.storeVersion));
    bumped.(schemaVersion := RequiredVersion(bumped))
  }

  predicate Writable(memory: AgentState, next: AgentState) {
    ValidSuccessor(memory, next) && ValidState(next)
  }

  /** The store and the answer after one update of an open store. */
  function Updated<T>(store: StoreState, applied: Result<(AgentState, T)>, faults: Faults): (StoreState, Result<T>) {
    if store.indeterminate then (store, Err(StateIndeterminate))
    else if applied.Err? then (store, Err(applied.error))
    else
      var next := Stamped(applied.value.0);
      if !Writable(store.memory, next) then (store, Err(Internal))
      else
        var written := WriteFrom(store.disk, next, store.primaryIsRead, faults, 0, false);
        if !written.failed then (StoreState(written.disk, next, true, false), Ok(applied.value.1))
        else if written.committed then
          (store.(disk := written.disk, indeterminate := true), Err(StateIndeterminate))
        else (store.(disk := written.disk), Err(Io))
  }

  /** The store the agent runs. `disk` is the state directory it owns. */
  class Store {
    var disk: Disk
    var inner: AgentState
    var primaryIsRead: bool
    var indeterminate: bool

    ghost function View(): StoreState
      reads this
    {
      StoreState(disk, inner, primaryIsRead, indeterminate)
    }

    constructor (disk: Disk, state: AgentState, primaryIsRead: bool)
      ensures View() == StoreState(disk, state, primaryIsRead, false)
    {
      this.disk := disk;
      inner := state;
      this.primaryIsRead := primaryIsRead;
      indeterminate := false;
    }

    /** Open the store over `disk`, or say why it cannot be read: a primary
        file that cannot be told stops it, a damaged one too unless the
        backup holds a state, and with no primary the backup decides. */
    static method OpenAt(disk: Disk) returns (r: Result<Store>)
      ensures var primary, backup := disk.primary.visible, disk.backup.visible;
              r.Err? <==>
                || primary.Unreadable? || primary.UnsupportedVersion? || (primary.Damaged? && !backup.Good?)
                || ((primary.Missing? || primary.Empty?)
                    && (backup.Unreadable? || backup.UnsupportedVersion? || backup.Damaged?))
      ensures r.Err? ==>
        r.error == if disk.primary.visible.Unreadable?
                      || ((disk.primary.visible.Missing? || disk.primary.visible.Empty?)
                          && disk.backup.visible.Unreadable?)
                   then Io else CorruptState
      ensures r.Ok? ==>
        && fresh(r.value) && r.value.View() == AtStart(disk)
        && (r.value.primaryIsRead <==> disk.primary.visible.Good?)
        && r.value.inner == if disk.primary.visible.Good? then disk.primary.visible.state
                            else if disk.backup.visible.Good? then disk.backup.visible.state
                            else Fresh
    {
      var state, primaryIsRead := Fresh, false;
      match LoadOne(disk.primary.visible) {
        case Holds(held) =>
          state, primaryIsRead := held, true;
        case Nothing =>
          match LoadOne(disk.backup.visible) {
            case Holds(held) => state := held;
            case Nothing =>
            case Refuses(error, _) => return Err(error);
          }
        case Refuses(error, allowsBackup) =>
          var backup := LoadOne(disk.backup.visible);
          if !allowsBackup || !backup.Holds? {
            return Err(error);
          }
          state := backup.state;
      }
      var store := new Store(disk, state, primaryIsRead);
      return Ok(store);
    }

    /** Write `next` to both files in its order. */
    method WriteStateFiles(next: AgentState, faults: Faults) returns (failed: bool)
      modifies this
      ensures inner == old(inner) && primaryIsRead == old(primaryIsRead)
      ensures var written := WriteFrom(old(disk), next, old(primaryIsRead), faults, 0, false);
              && disk == written.disk
              && failed == written.failed
              && indeterminate == (old(indeterminate) || (written.failed && written.committed))
    {
      var order := WriteOrder(next);
      var backupFirst := order[0] == Backup;
      var commit := if backupFirst && !primaryIsRead then Backup else Primary;
      var committed := false;
      var index := 0;
      while index < 2
        invariant 0 <= index <= 2
        invariant inner == old(inner) && primaryIsRead == old(primaryIsRead)
        invariant indeterminate == old(indeterminate)
        invariant WriteFrom(old(disk), next, old(primaryIsRead), faults, 0, false)
               == WriteFrom(disk, next, primaryIsRead, faults, index, committed)
      {
        var step := FaultsOf(faults, index);
        if step.write || step.rename {
          indeterminate := indeterminate || committed;
          return true;
        }
        disk := Renamed(disk, order[index], Good(next));
        committed := committed || order[index] == commit;
        if step.sync {
          if backupFirst {
            indeterminate := indeterminate || committed;
            return true;
          }
        } else {
          disk := Synced(disk);
        }
        index := index + 1;
      }
      return false;
    }

    /** Apply `change` to a clone of the current state, write it and make it
        current. */
    method Update<T>(change: AgentState -> Result<(AgentState, T)>, faults: Faults) returns (r: Result<T>)
      modifies this
      ensures (View(), r) == Updated(old(View()), change(old(inner)), faults)
    {
      if indeterminate {
        return Err(StateIndeterminate);
      }
      var applied := change(inner);
      if applied.Err? {
        return Err(applied.error);
      }
      var next := Stamped(applied.value.0);
      if !Writable(inner, next) {
        return Err(Internal);
      }
      var failed := WriteStateFiles(next, faults);
      if failed {
        return Err(if indeterminate then StateIndeterminate else Io);
      }
      primaryIsRead := true;
      inner := next;
      return Ok(applied.value.1);
    }

    /** The state each file holds; a damaged file holds none, and a file
        that cannot be told is an error. */
    method Files() returns (r: Result<seq<AgentState>>)
      ensures r.Err? <==>
        exists c :: c in [disk.primary.visible, disk.backup.visible] && (c.Unreadable? || c.UnsupportedVersion?)
      ensures r.Ok? ==> forall s :: s in r.value <==> Good(s) in [disk.primary.visible, disk.backup.visible]
    {
      var paths := [disk.primary.visible, disk.backup.visible];
      var states := [];
      for i := 0 to |paths|
        invariant forall j :: 0 <= j < i ==> !paths[j].Unreadable? && !paths[j].UnsupportedVersion?
        invariant forall s :: s in states <==> Good(s) in paths[..i]
      {
        match LoadOne(paths[i]) {
          case Nothing =>
          case Holds(state) => states := states + [state];
          case Refuses(error, allowsBackup) =>
            if !allowsBackup {
              assert paths[i] in paths;
              return Err(error);
            }
        }
      }
      assert paths[..|paths|] == paths;
      return Ok(states);
    }
  }
}
