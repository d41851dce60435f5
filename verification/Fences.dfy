/** Fences and activates: what the agent sends a member's worker to close and
    open its admission, from the transaction thread, from the supervision
    step's threads, and from the thread of a transaction that has ended. */
module Fences {
  import opened Wrappers

  /** A fence in force, by the transaction that asked for it. With `reopenAt`
      an activate is owed, and goes out again at that time. */
  datatype Fence = Fence(transaction: nat, reopenAt: Option<nat>)

  /** What is in force on one member. */
  datatype Control = Control(fencedBy: Option<Fence>, retired: bool)

  datatype Operation = FenceOp(transaction: nat) | ActivateOp(transaction: nat) | RetireOp(transaction: nat)

  datatype Answer = AnsweredOk | Unsupported | NotOk

  // ----- One member -----

  function Fenced(c: Control, transaction: nat): (Control, seq<Operation>) {
    (c.(fencedBy := Some(Fence(transaction, None))), [FenceOp(transaction)])
  }

  function Retired(c: Control, transaction: nat): (Control, seq<Operation>) {
    (Control(None, true), [RetireOp(transaction)])
  }

  function Activated(c: Control, transaction: nat, unlessFenced: bool): (Control, seq<Operation>) {
    if unlessFenced && (c.fencedBy.Some? || c.retired) then (c, []) else (c, [ActivateOp(transaction)])
  }

  function Reopened(c: Control, now: nat, answer: Answer): (Control, seq<Operation>) {
    match c.fencedBy
    case None => (c, [])
    case Some(fence) =>
      (c.(fencedBy := if answer.NotOk? then Some(fence.(reopenAt := Some(now))) else None),
       [ActivateOp(fence.transaction)])
  }

  function Retried(c: Control, answer: Answer): (Control, seq<Operation>) {
    if c.fencedBy.Some? && c.fencedBy.value.reopenAt.Some?
    then (if answer.NotOk? then c else c.(fencedBy := None), [ActivateOp(c.fencedBy.value.transaction)])
    else (c, [])
  }

  /** Whether the activate a failed transaction owes is due; it is next due
      at `next`. An operation that is being sent is not waited for. */
  function FoundDue(c: Control, sending: bool, now: nat, next: nat): (Control, bool) {
    if !sending && c.fencedBy.Some? && c.fencedBy.value.reopenAt.Some? && now >= c.fencedBy.value.reopenAt.value
    then (c.(fencedBy := Some(c.fencedBy.value.(reopenAt := Some(next)))), true)
    else (c, false)
  }

  class ControlState {
    var fencedBy: Option<Fence>
    var retired: bool
    var sent: seq<Operation>

    function View(): Control
      reads this
    {
      Control(fencedBy, retired)
    }

    constructor ()
      ensures View() == Control(None, false) && sent == []
    {
      fencedBy, retired, sent := None, false, [];
    }

    method FenceFor(transaction: nat)
      modifies this
      ensures (View(), sent) == (Fenced(old(View()), transaction).0, old(sent) + Fenced(old(View()), transaction).1)
    {
      fencedBy := Some(Fence(transaction, None));
      sent := sent + [FenceOp(transaction)];
    }

    method Retire(transaction: nat)
      modifies this
      ensures (View(), sent) == (Retired(old(View()), transaction).0, old(sent) + Retired(old(View()), transaction).1)
    {
      fencedBy := None;
      retired := true;
      sent := sent + [RetireOp(transaction)];
    }

    method Activate(transaction: nat, unlessFenced: bool)
      modifies this
      ensures var (c, ops) := Activated(old(View()), transaction, unlessFenced); View() == c && sent == old(sent) + ops
    {
      if unlessFenced && (fencedBy.Some? || retired) {
        return;
      }
      sent := sent + [ActivateOp(transaction)];
    }

    method Reopen(now: nat, answer: Answer)
      modifies this
      ensures var (c, ops) := Reopened(old(View()), now, answer); View() == c && sent == old(sent) + ops
    {
      if fencedBy.None? {
        return;
      }
      var fence := fencedBy.value;
      sent := sent + [ActivateOp(fence.transaction)];
      if answer.AnsweredOk? || answer.Unsupported? {
        fencedBy := None;
      } else {
        fencedBy := Some(fence.(reopenAt := Some(now)));
      }
    }

    method RetryReopen(answer: Answer)
      modifies this
      ensures var (c, ops) := Retried(old(View()), answer); View() == c && sent == old(sent) + ops
    {
      if fencedBy.None? || fencedBy.value.reopenAt.None? {
        return;
      }
      sent := sent + [ActivateOp(fencedBy.value.transaction)];
      if !answer.NotOk? {
        fencedBy := None;
      }
    }

    method ReopenDue(sending: bool, now: nat, next: nat) returns (due: bool)
      modifies this`fencedBy
      ensures (View(), due) == FoundDue(old(View()), sending, now, next)
    {
      if sending {
        return false;
      }
      if fencedBy.Some? && fencedBy.value.reopenAt.Some? && now >= fencedBy.value.reopenAt.value {
        fencedBy := Some(fencedBy.value.(reopenAt := Some(next)));
        return true;
      }
      return false;
    }
  }

  // ----- The threads -----

  /** A thread that was given a member's control and has not sent yet: the
      activate after a restart, the activate a failed transaction owes, and
      the reopen of a transaction that has ended since. */
  datatype Pending = ActivateRestarted(member: nat, transaction: nat) | RetryOwed(member: nat) | LateReopen(member: nat)

  datatype Tx =
    | NoTx
    | Begun(id: nat)
    | Fencing(id: nat, member: nat)
    | Closed(id: nat, closed: Option<nat>)    // the fence was answered ok, or nothing is left to admit
    | Failing(id: nat)
    | Reopening(id: nat, reached: Option<nat>)
    | Switching(id: nat, left: Option<nat>, entered: nat)
    | Opening(id: nat, entered: nat)
    | Unloading(id: nat, unloaded: nat)

  /** `late` counts the failed transactions whose threads have yet to reopen
      the serving member while another transaction has begun. */
  datatype System = System(
    controls: map<nat, Control>,
    serving: Option<nat>,
    tx: Tx,
    late: nat,
    threads: seq<Pending>,
    log: seq<(nat, Operation)>)

  const Start := System(map[], None, NoTx, 0, [], [])

  const Unfenced := Control(None, false)

  function ControlOf(s: System, member: nat): Control {
    if member in s.controls then s.controls[member] else Unfenced
  }

  function Sends(s: System, member: nat, done: (Control, seq<Operation>)): System {
    s.(controls := s.controls[member := done.0],
       log := s.log + seq(|done.1|, i requires 0 <= i < |done.1| => (member, done.1[i])))
  }

  datatype Event =
    // the supervision step
    | TakeOut
    | Restart(generation: nat)
    | FindReady(transaction: nat)
    | FindOwed(sending: bool, now: nat, next: nat)
    | RunThread(i: nat, now: nat, answer: Answer)
    // the transaction in progress
    | Begin(id: nat)
    | ReachServing
    | SendFence(answer: Answer, admits: bool)
    | Switch(generation: nat)
    | SendRetire
    | SendActivate
    | Fail
    | ReachAgain
    | SendReopen(now: nat, answer: Answer)
    | Unload
    | SendUnload
    // a transaction that failed, once the store has let another begin
    | BeginOver(id: nat)
    | ReachLate

  function RunOne(s: System, pending: Pending, now: nat, answer: Answer): System {
    var c := ControlOf(s, pending.member);
    match pending
    case ActivateRestarted(member, transaction) => Sends(s, member, Activated(c, transaction, true))
    case RetryOwed(member) => Sends(s, member, Retried(c, answer))
    case LateReopen(member) => Sends(s, member, Reopened(c, now, answer))
  }

  function Supervises(s: System, event: Event): System {
    match event
    case TakeOut => s.(serving := None)
    case Restart(generation) =>
      if s.serving.Some? || generation in s.controls then s
      else s.(serving := Some(generation), controls := s.controls[generation := Unfenced])
    case FindReady(transaction) =>
      if s.serving.None? then s else s.(threads := s.threads + [ActivateRestarted(s.serving.value, transaction)])
    case FindOwed(sending, now, next) =>
      if s.serving.None? then s
      else
        var (c, due) := FoundDue(ControlOf(s, s.serving.value), sending, now, next);
        s.(controls := s.controls[s.serving.value := c],
           threads := if due then s.threads + [RetryOwed(s.serving.value)] else s.threads)
    case RunThread(i, now, answer) =>
      if i >= |s.threads| then s
      else RunOne(s.(threads := s.threads[..i] + s.threads[i + 1..]), s.threads[i], now, answer)
    case _ => s
  }

  function Transacts(s: System, event: Event): System {
    match event
    case Begin(id) => if s.tx.NoTx? then s.(tx := Begun(id)) else s
    case ReachServing =>
      if !s.tx.Begun? then s
      else if s.serving.None? then s.(tx := Closed(s.tx.id, None))
      else s.(tx := Fencing(s.tx.id, s.serving.value))
    case SendFence(answer, admits) =>
      if !s.tx.Fencing? then s
      else
        var sent := Sends(s, s.tx.member, Fenced(ControlOf(s, s.tx.member), s.tx.id));
        if answer.AnsweredOk? then sent.(tx := Closed(s.tx.id, Some(s.tx.member)))
        else if !admits then sent.(tx := Closed(s.tx.id, None))
        else sent.(tx := Failing(s.tx.id))
    case Switch(generation) =>
      if !s.tx.Closed? || generation in s.controls then s
      else s.(serving := Some(generation), controls := s.controls[generation := Unfenced],
              tx := Switching(s.tx.id, s.serving, generation))
    case SendRetire =>
      if !s.tx.Switching? then s
      else
        var next := s.(tx := Opening(s.tx.id, s.tx.entered));
        if s.tx.left.None? then next
        else Sends(next, s.tx.left.value, Retired(ControlOf(s, s.tx.left.value), s.tx.id))
    case SendActivate =>
      if !s.tx.Opening? then s
      else Sends(s.(tx := NoTx), s.tx.entered, Activated(ControlOf(s, s.tx.entered), s.tx.id, false))
    case Fail => if s.tx.Begun? || s.tx.Closed? then s.(tx := Failing(s.tx.id)) else s
    case ReachAgain => if s.tx.Failing? then s.(tx := Reopening(s.tx.id, s.serving)) else s
    case SendReopen(now, answer) =>
      if !s.tx.Reopening? then s
      else if s.tx.reached.None? then s.(tx := NoTx)
      else Sends(s.(tx := NoTx), s.tx.reached.value, Reopened(ControlOf(s, s.tx.reached.value), now, answer))
    case Unload =>
      if s.tx.NoTx? && s.serving.Some? then s.(serving := None, tx := Unloading(0, s.serving.value)) else s
    case SendUnload =>
      if !s.tx.Unloading? then s
      else Sends(s.(tx := NoTx), s.tx.unloaded, Retired(ControlOf(s, s.tx.unloaded), s.tx.id))
    case BeginOver(id) => if s.tx.Failing? then s.(tx := Begun(id), late := s.late + 1) else s
    case ReachLate =>
      if s.late == 0 then s
      else
        s.(late := s.late - 1,
           threads := if s.serving.Some? then s.threads + [LateReopen(s.serving.value)] else s.threads)
    case _ => s
  }

  predicate OfSupervision(event: Event) {
    event.TakeOut? || event.Restart? || event.FindReady? || event.FindOwed? || event.RunThread?
  }

  function Happens(s: System, event: Event): System {
    if OfSupervision(event) then Supervises(s, event) else Transacts(s, event)
  }

  function Run(s: System, events: seq<Event>): System
    decreases |events|
  {
    if events == [] then s else Run(Happens(s, events[0]), events[1..])
  }

  // ----- Between a fence and the end of its transaction -----

  /** The transaction closed the member's admission and has not ended. */
  predicate Window(s: System, member: nat) {
    s.tx.Closed? && s.tx.closed == Some(member) && ControlOf(s, member).fencedBy == Some(Fence(s.tx.id, None))
  }

  predicate Opens(entry: (nat, Operation), member: nat) {
    entry.0 == member && entry.1.ActivateOp?
  }

  predicate SentOpen(log: seq<(nat, Operation)>, from: nat, member: nat) {
    exists k :: from <= k < |log| && Opens(log[k], member)
  }

  /** The thread of a transaction that has ended sends its reopen. */
  predicate RunsLate(s: System, event: Event, member: nat) {
    event.RunThread? && event.i < |s.threads| && s.threads[event.i] == LateReopen(member)
  }

  predicate EndsTheTransaction(event: Event) {
    event.Switch? || event.Fail?
  }

  /** A fence answered ok opens the window. */
  lemma FencesOpenTheWindow(s: System, admits: bool)
    requires s.tx.Fencing?
    ensures Window(Happens(s, SendFence(AnsweredOk, admits)), s.tx.member)
  {
  }

  /** In the window nothing but a late reopen of this member opens it, and
      the window stands after everything else. */
  lemma WindowsStand(s: System, event: Event, member: nat)
    requires Window(s, member) && !EndsTheTransaction(event)
    ensures var after := Happens(s, event);
            && |s.log| <= |after.log| && after.log[..|s.log|] == s.log
            && if RunsLate(s, event, member) then |after.log| == |s.log| + 1 && Opens(after.log[|s.log|], member)
               else Window(after, member) && !SentOpen(after.log, |s.log|, member)
  {
  }

  lemma LogsGrow(s: System, event: Event)
    ensures |s.log| <= |Happens(s, event).log| && Happens(s, event).log[..|s.log|] == s.log
  {
  }

  lemma {:induction false} RunsGrowTheLog(s: System, events: seq<Event>)
    ensures |s.log| <= |Run(s, events).log| && Run(s, events).log[..|s.log|] == s.log
    decreases |events|
  {
    if events == [] {
    } else {
      var next := Happens(s, events[0]);
      LogsGrow(s, events[0]);
      RunsGrowTheLog(next, events[1..]);
      var end := Run(s, events).log;
      assert end[..|s.log|] == end[..|next.log|][..|s.log|];
    }
  }

  lemma {:induction false} RunsAppend(s: System, events: seq<Event>, event: Event)
    ensures Run(s, events + [event]) == Happens(Run(s, events), event)
    decreases |events|
  {
    if events == [] {
      assert events + [event] == [event] && [event][1..] == [];
    } else {
      RunsAppend(Happens(s, events[0]), events[1..], event);
      assert (events + [event])[1..] == events[1..] + [event];
    }
  }

  /** A late reopen of the member is on its way, or one is still to reach the
      serving member and this is it. */
  predicate MayBeReopened(s: System, member: nat) {
    LateReopen(member) in s.threads || (s.late > 0 && s.serving == Some(member))
  }

  predicate NoneEndsTheTransaction(events: seq<Event>) {
    forall i :: 0 <= i < |events| ==> !EndsTheTransaction(events[i])
  }

  /** No event but an end of the transaction brings a late reopen about. */
  lemma LateReopensComeFromBefore(s: System, event: Event, member: nat)
    requires Window(s, member) && !EndsTheTransaction(event) && !MayBeReopened(s, member)
    ensures !MayBeReopened(Happens(s, event), member)
  {
  }

  lemma {:induction false} FencesHold(s: System, events: seq<Event>, member: nat)
    requires Window(s, member) && !MayBeReopened(s, member) && NoneEndsTheTransaction(events)
    ensures !SentOpen(Run(s, events).log, |s.log|, member)
    decreases |events|
  {
    if events == [] {
    } else {
      var next := Happens(s, events[0]);
      WindowsStand(s, events[0], member);
      LateReopensComeFromBefore(s, events[0], member);
      RunsGrowTheLog(next, events[1..]);
      FencesHold(next, events[1..], member);
      var end := Run(s, events).log;
      forall k | |s.log| <= k < |next.log| ensures !Opens(end[k], member) {
        assert end[k] == end[..|next.log|][k];
      }
    }
  }

  /** The thread that has reached the member sends its activate. */
  lemma ReachedMembersAreOpened(s: System, member: nat) returns (event: Event)
    requires Window(s, member) && LateReopen(member) in s.threads
    ensures event.RunThread? && Happens(s, event).log == s.log + [(member, ActivateOp(s.tx.id))]
  {
    var i :| 0 <= i < |s.threads| && s.threads[i] == LateReopen(member);
    event := RunThread(i, 0, AnsweredOk);
  }

  lemma LateReopensOpen(s: System, member: nat) returns (events: seq<Event>)
    requires Window(s, member) && MayBeReopened(s, member)
    ensures NoneEndsTheTransaction(events) && SentOpen(Run(s, events).log, |s.log|, member)
  {
    if LateReopen(member) in s.threads {
      var event := ReachedMembersAreOpened(s, member);
      events := [event];
      RunsAppend(s, [], event);
      assert [] + [event] == events && Opens(Run(s, events).log[|s.log|], member);
    } else {
      var reached := Happens(s, ReachLate);
      var event := ReachedMembersAreOpened(reached, member);
      RunsAppend(s, [], ReachLate);
      assert [] + [ReachLate] == [ReachLate];
      RunsAppend(s, [ReachLate], event);
      events := [ReachLate] + [event];
      assert Opens(Run(s, events).log[|s.log|], member);
    }
  }

  /** From a fence answered ok until its transaction ends, no activate reaches
      the member, whatever the other threads do and however late they send,
      if and only if no reopen of a transaction that ended before can still
      reach it as the window opens. */
  lemma FencesHoldExactlyWhen(s: System, member: nat)
    requires Window(s, member)
    ensures (forall events | NoneEndsTheTransaction(events) :: !SentOpen(Run(s, events).log, |s.log|, member))
            <==> !MayBeReopened(s, member)
  {
    if MayBeReopened(s, member) {
      var events := LateReopensOpen(s, member);
    } else {
      forall events | NoneEndsTheTransaction(events) ensures !SentOpen(Run(s, events).log, |s.log|, member) {
        FencesHold(s, events, member);
      }
    }
  }

  // ----- Transactions that end before another begins -----

  predicate NoneIsLate(s: System) {
    s.late == 0 && forall p :: p in s.threads ==> !p.LateReopen?
  }

  lemma EventsStayTimely(s: System, event: Event)
    requires NoneIsLate(s) && !event.BeginOver?
    ensures NoneIsLate(Happens(s, event))
  {
  }

  lemma {:induction false} RunsStayTimely(s: System, events: seq<Event>)
    requires NoneIsLate(s) && forall i :: 0 <= i < |events| ==> !events[i].BeginOver?
    ensures NoneIsLate(Run(s, events))
    decreases |events|
  {
    if events == [] {
    } else {
      EventsStayTimely(s, events[0]);
      RunsStayTimely(Happens(s, events[0]), events[1..]);
    }
  }

  /** When no transaction begins before the one before it has ended, its
      reopen included, no activate is sent to a member between a fence
      answered ok and the end of its transaction. */
  lemma TimelyFencesHold(before: seq<Event>, events: seq<Event>, member: nat)
    requires forall i :: 0 <= i < |before| ==> !before[i].BeginOver?
    requires Window(Run(Start, before), member) && NoneEndsTheTransaction(events)
    ensures var s := Run(Start, before);
            !SentOpen(Run(s, events).log, |s.log|, member)
  {
    RunsStayTimely(Start, before);
    FencesHold(Run(Start, before), events, member);
  }

  /** A failed transaction, and another that has begun before the thread of
      the first has reopened the serving member. */
  lemma AFailedTransactionMayBeLate() returns (events: seq<Event>)
    ensures Run(Start, events) == System(map[1 := Unfenced], Some(1), Begun(2), 1, [], [])
  {
    RunsAppend(Start, [], Restart(1));
    RunsAppend(Start, [Restart(1)], Begin(1));
    RunsAppend(Start, [Restart(1)] + [Begin(1)], Fail);
    RunsAppend(Start, [Restart(1)] + [Begin(1)] + [Fail], BeginOver(2));
    assert [] + [Restart(1)] == [Restart(1)];
    events := [Restart(1)] + [Begin(1)] + [Fail] + [BeginOver(2)];
    assert Run(Start, [Restart(1)]) == System(map[1 := Unfenced], Some(1), NoTx, 0, [], []);
  }

  /** The store lets a second transaction begin before the thread of the
      failed first one has reopened the serving member: its reopen then sends
      an activate under the second transaction's fence, and lifts it. */
  lemma ALateReopenLiftsTheNextFence() returns (events: seq<Event>)
    ensures var s := Run(Start, events);
            var after := Happens(s, RunThread(0, 0, AnsweredOk));
            && Window(s, 1) && after.tx == s.tx && after.log == s.log + [(1, ActivateOp(2))]
            && ControlOf(after, 1).fencedBy.None?
  {
    var begun := AFailedTransactionMayBeLate();
    RunsAppend(Start, begun, ReachLate);
    RunsAppend(Start, begun + [ReachLate], ReachServing);
    RunsAppend(Start, begun + [ReachLate] + [ReachServing], SendFence(AnsweredOk, true));
    events := begun + [ReachLate] + [ReachServing] + [SendFence(AnsweredOk, true)];
    var s := Run(Start, events);
    assert s.threads == [LateReopen(1)];
  }

  // ----- After a retire -----

  predicate Apart(s: System, left: nat) {
    left in s.controls && s.serving != Some(left)
  }

  /** A member on its way to be retired has left the serving slot. */
  predicate Leaving(s: System) {
    && (s.serving.Some? ==> s.serving.value in s.controls)
    && (s.tx.Switching? ==>
          && s.tx.entered in s.controls
          && (s.tx.left.Some? ==> Apart(s, s.tx.left.value) && s.tx.left.value != s.tx.entered))
    && (s.tx.Opening? ==> s.tx.entered in s.controls)
    && (s.tx.Unloading? ==> Apart(s, s.tx.unloaded))
  }

  /** The member is fenced no more, serves no more, and no step of the
      transaction is about to fence or open it. */
  predicate StaysOut(s: System, g: nat) {
    && ControlOf(s, g).fencedBy.None? && s.serving != Some(g)
    && (s.tx.Fencing? ==> s.tx.member != g)
    && (s.tx.Switching? || s.tx.Opening? ==> s.tx.entered != g)
  }

  ghost predicate RetiredStayOut(s: System) {
    Leaving(s) && forall g :: ControlOf(s, g).retired ==> StaysOut(s, g)
  }

  /** Every retire in the log left its member retired, and nothing after it
      opens the member. */
  ghost predicate RetiresLast(s: System) {
    && (forall k :: 0 <= k < |s.log| && s.log[k].1.RetireOp? ==> ControlOf(s, s.log[k].0).retired)
    && (forall k, l :: 0 <= k < l < |s.log| && s.log[k].1.RetireOp? ==> !Opens(s.log[l], s.log[k].0))
  }

  lemma EventsKeepRetiredOut(s: System, event: Event)
    requires RetiredStayOut(s)
    ensures RetiredStayOut(Happens(s, event))
    ensures forall g :: ControlOf(s, g).retired ==> ControlOf(Happens(s, event), g).retired
  {
    forall g | ControlOf(Happens(s, event), g).retired ensures StaysOut(Happens(s, event), g) {
      EventsKeepOneOut(s, event, g);
    }
    forall g | ControlOf(s, g).retired ensures ControlOf(Happens(s, event), g).retired {
      EventsKeepOneRetired(s, event, g);
    }
  }

  lemma EventsKeepOneRetired(s: System, event: Event, g: nat)
    requires ControlOf(s, g).retired
    ensures ControlOf(Happens(s, event), g).retired
  {
  }

  lemma EventsKeepOneOut(s: System, event: Event, g: nat)
    requires RetiredStayOut(s) && ControlOf(Happens(s, event), g).retired
    ensures StaysOut(Happens(s, event), g)
  {
    assert ControlOf(s, g).retired ==> StaysOut(s, g);
  }

  /** What one event adds to the log. */
  lemma EventsAddOneEntry(s: System, event: Event)
    requires RetiredStayOut(s)
    ensures var after := Happens(s, event);
            || after.log == s.log
            || (|after.log| == |s.log| + 1 && after.log[..|s.log|] == s.log
                && (after.log[|s.log|].1.ActivateOp? ==> !ControlOf(s, after.log[|s.log|].0).retired)
                && (after.log[|s.log|].1.RetireOp? ==> ControlOf(after, after.log[|s.log|].0).retired))
  {
  }

  lemma EventsKeepRetiresLast(s: System, event: Event)
    requires RetiredStayOut(s) && RetiresLast(s)
    ensures RetiredStayOut(Happens(s, event)) && RetiresLast(Happens(s, event))
  {
    EventsKeepRetiredOut(s, event);
    EventsAddOneEntry(s, event);
    OneMoreEntryKeepsRetiresLast(s, Happens(s, event));
  }

  lemma OneMoreEntryKeepsRetiresLast(s: System, after: System)
    requires RetiresLast(s) && forall g :: ControlOf(s, g).retired ==> ControlOf(after, g).retired
    requires
      || after.log == s.log
      || (|after.log| == |s.log| + 1 && after.log[..|s.log|] == s.log
          && (after.log[|s.log|].1.ActivateOp? ==> !ControlOf(s, after.log[|s.log|].0).retired)
          && (after.log[|s.log|].1.RetireOp? ==> ControlOf(after, after.log[|s.log|].0).retired))
    ensures RetiresLast(after)
  {
    if after.log != s.log {
      assert forall k :: 0 <= k < |s.log| ==> after.log[k] == after.log[..|s.log|][k] == s.log[k];
    }
  }

  lemma {:induction false} RunsKeepRetiresLast(s: System, events: seq<Event>)
    requires RetiredStayOut(s) && RetiresLast(s)
    ensures RetiredStayOut(Run(s, events)) && RetiresLast(Run(s, events))
    decreases |events|
  {
    if events == [] {
    } else {
      EventsKeepRetiresLast(s, events[0]);
      RunsKeepRetiresLast(Happens(s, events[0]), events[1..]);
    }
  }

  /** No activate of any kind is sent to a member after its retire, however
      late a thread sends. */
  lemma NothingOpensARetiredMember(events: seq<Event>, k: nat, l: nat)
    requires k < l < |Run(Start, events).log| && Run(Start, events).log[k].1.RetireOp?
    ensures !Opens(Run(Start, events).log[l], Run(Start, events).log[k].0)
  {
    RunsKeepRetiresLast(Start, events);
  }

  // ----- What a failed transaction owes -----

  /** A failed transaction owes the member its activate. */
  predicate Owes(s: System, member: nat, transaction: nat) {
    var fence := ControlOf(s, member).fencedBy;
    fence.Some? && fence.value.transaction == transaction && fence.value.reopenAt.Some?
  }

  /** The event sends the member the activate and it is answered ok or
      unsupported, or it fences the member again, or retires it. */
  predicate Settles(s: System, event: Event, member: nat) {
    match event
    case RunThread(i, _, answer) =>
      i < |s.threads| && s.threads[i].member == member && !s.threads[i].ActivateRestarted? && !answer.NotOk?
    case SendReopen(_, answer) => s.tx.Reopening? && s.tx.reached == Some(member) && !answer.NotOk?
    case SendFence(_, _) => s.tx.Fencing? && s.tx.member == member
    case SendRetire => s.tx.Switching? && s.tx.left == Some(member)
    case SendUnload => s.tx.Unloading? && s.tx.unloaded == member
    case _ => false
  }

  /** A member fenced by a failed transaction stays owed its activate until
      exactly that. */
  lemma OwedUntilSettled(s: System, event: Event, member: nat, transaction: nat)
    requires Owes(s, member, transaction) && member in s.controls
    ensures Owes(Happens(s, event), member, transaction) <==> !Settles(s, event, member)
  {
  }

  /** While the member serves and the time has come, the supervision step
      starts a thread that sends the activate again. */
  lemma OwedIsSentAgain(s: System, member: nat, transaction: nat, now: nat, next: nat, answer: Answer)
    requires Owes(s, member, transaction) && s.serving == Some(member)
        && now >= ControlOf(s, member).fencedBy.value.reopenAt.value
    ensures var found := Happens(s, FindOwed(false, now, next));
            var sent := Happens(found, RunThread(|s.threads|, now, answer));
            && found.threads == s.threads + [RetryOwed(member)]
            && sent.log == s.log + [(member, ActivateOp(transaction))]
            && (Owes(sent, member, transaction) <==> answer.NotOk?)
  {
  }

  // ----- No fence is left behind -----

  /** The fence of `member` has no reopen of its own on the clock. */
  predicate ClosedOutright(s: System, member: nat) {
    var fence := ControlOf(s, member).fencedBy;
    fence.Some? && fence.value.reopenAt.None?
  }

  /** Something is still to reopen `member`: the transaction in progress, or
      the thread of one that failed before. */
  predicate SeenTo(s: System, member: nat) {
    || s.tx.Closed? || s.tx.Failing? || (s.tx.Reopening? && s.tx.reached == Some(member))
    || s.late > 0 || LateReopen(member) in s.threads
  }

  predicate NoneLeftClosed(s: System) {
    Leaving(s) && (s.serving.Some? && ClosedOutright(s, s.serving.value) ==> SeenTo(s, s.serving.value))
  }

  lemma ThreadsLeaveNoneClosed(s: System, i: nat, now: nat, answer: Answer)
    requires NoneLeftClosed(s)
    ensures NoneLeftClosed(Happens(s, RunThread(i, now, answer)))
  {
    if i < |s.threads| && s.serving.Some? {
      var rest := s.threads[..i] + s.threads[i + 1..];
      assert LateReopen(s.serving.value) in s.threads && s.threads[i] != LateReopen(s.serving.value) ==>
        LateReopen(s.serving.value) in rest;
    }
  }

  lemma EventsLeaveNoneClosed(s: System, event: Event)
    requires NoneLeftClosed(s)
    ensures NoneLeftClosed(Happens(s, event))
  {
    if event.RunThread? {
      ThreadsLeaveNoneClosed(s, event.i, event.now, event.answer);
    }
  }

  lemma {:induction false} RunsLeaveNoneClosed(s: System, events: seq<Event>)
    requires NoneLeftClosed(s)
    ensures NoneLeftClosed(Run(s, events))
    decreases |events|
  {
    if events == [] {
    } else {
      EventsLeaveNoneClosed(s, events[0]);
      RunsLeaveNoneClosed(Happens(s, events[0]), events[1..]);
    }
  }

  /** Over every run: once no transaction is in progress and no thread of a
      failed one is still to reopen, a serving member that is fenced is owed
      its activate, so the supervision step sends it again. */
  lemma NoServingMemberIsLeftClosed(events: seq<Event>, member: nat)
    requires var s := Run(Start, events);
             s.tx.NoTx? && NoneIsLate(s) && s.serving == Some(member) && ControlOf(s, member).fencedBy.Some?
    ensures var s := Run(Start, events);
            Owes(s, member, ControlOf(s, member).fencedBy.value.transaction)
  {
    RunsLeaveNoneClosed(Start, events);
  }
}
