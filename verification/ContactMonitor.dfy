/** The contact monitor of a worker's control channel, against what the whole
    history of observations says. Times are milliseconds. */
module ContactMonitoring {
  import opened Wrappers
  import opened Widths

  const FAILURE_AFTER: nat := 10000

  datatype Contact = InContact | OutOfContact | Failed

  datatype ContactEvent = WentOutOfContact | ContactRestored | MemberFailed

  datatype Monitor = Monitor(state: Contact, missed: nat, lastGood: nat)

  const Fresh := Monitor(InContact, 0, 0)

  function Since(last: nat, elapsed: nat): nat {
    if elapsed < last then 0 else elapsed - last
  }

  function EventInto(state: Contact): ContactEvent {
    match state
    case InContact => ContactRestored
    case OutOfContact => WentOutOfContact
    case Failed => MemberFailed
  }

  /** One observation. */
  function Observed(monitor: Monitor, elapsed: nat, success: bool): Monitor {
    if monitor.state.Failed? then monitor
    else if Since(monitor.lastGood, elapsed) >= FAILURE_AFTER then monitor.(state := Failed)
    else if success then Monitor(InContact, 0, elapsed)
    else
      var missed := if monitor.missed < U32_MAX then monitor.missed + 1 else U32_MAX;
      monitor.(missed := missed, state := if missed >= 3 then OutOfContact else monitor.state)
  }

  /** The event an observation emits. */
  function Emitted(before: Monitor, after: Monitor): seq<ContactEvent> {
    if before.state == after.state then [] else [EventInto(after.state)]
  }

  // ----- What the history says -----

  datatype Observation = Observation(elapsed: nat, success: bool)

  /** The monitor after a history, oldest observation first. */
  function After(history: seq<Observation>): Monitor
    decreases |history|
  {
    if history == [] then Fresh
    else
      var last := history[|history| - 1];
      Observed(After(history[..|history| - 1]), last.elapsed, last.success)
  }

  function Events(history: seq<Observation>): seq<ContactEvent>
    decreases |history|
  {
    if history == [] then []
    else
      var before := history[..|history| - 1];
      Events(before) + Emitted(After(before), After(history))
  }

  /** When contact was last good: the time of the last answered poll, or of
      the channel's creation. */
  function LastGood(history: seq<Observation>): nat
    decreases |history|
  {
    if history == [] then 0
    else if history[|history| - 1].success then history[|history| - 1].elapsed
    else LastGood(history[..|history| - 1])
  }

  /** How many observations in a row failed at the end of the history. */
  function TrailingFailures(history: seq<Observation>): nat
    decreases |history|
  {
    if history == [] || history[|history| - 1].success then 0
    else TrailingFailures(history[..|history| - 1]) + 1
  }

  /** Observation `i` came ten seconds or more after contact was last good. */
  predicate CameTooLate(history: seq<Observation>, i: nat)
    requires i < |history|
  {
    Since(LastGood(history[..i]), history[i].elapsed) >= FAILURE_AFTER
  }

  /** What the history as a whole says of the member. */
  ghost function Judged(history: seq<Observation>): Contact {
    if exists i :: 0 <= i < |history| && CameTooLate(history, i) then Failed
    else if TrailingFailures(history) >= 3 then OutOfContact
    else InContact
  }

  lemma TooLateOfAPrefix(history: seq<Observation>, i: nat)
    requires i < |history| - 1
    ensures CameTooLate(history, i) <==> CameTooLate(history[..|history| - 1], i)
  {
    assert history[..|history| - 1][..i] == history[..i];
  }

  /** The monitor's state, its count of misses and its last good time are
      what the whole history says. */
  lemma {:induction false} MonitorJudgesTheHistory(history: seq<Observation>)
    ensures After(history).state == Judged(history)
    ensures !After(history).state.Failed? ==>
      && After(history).lastGood == LastGood(history)
      && After(history).missed == (if TrailingFailures(history) <= U32_MAX then TrailingFailures(history) else U32_MAX)
    decreases |history|
  {
    if history == [] {
    } else {
      var n := |history| - 1;
      var before := history[..n];
      MonitorJudgesTheHistory(before);
      forall i | 0 <= i < n ensures CameTooLate(history, i) <==> CameTooLate(before, i) {
        TooLateOfAPrefix(history, i);
      }
      if After(before).state.Failed? {
        var i :| 0 <= i < n && CameTooLate(before, i);
        assert CameTooLate(history, i);
      } else {
        assert forall i :: 0 <= i < n ==> !CameTooLate(history, i);
        assert CameTooLate(history, n) <==> Since(After(before).lastGood, history[n].elapsed) >= FAILURE_AFTER;
      }
    }
  }

  /** The state a reader of the events is in. */
  function Replayed(events: seq<ContactEvent>): Contact {
    if events == [] then InContact
    else
      match events[|events| - 1]
      case WentOutOfContact => OutOfContact
      case ContactRestored => InContact
      case MemberFailed => Failed
  }

  /** Replaying the emitted events reproduces the state after every history;
      each event changes the state, and none follows a failure. */
  lemma {:induction false} EventsReplayTheState(history: seq<Observation>)
    ensures Replayed(Events(history)) == After(history).state
    ensures forall i :: 0 <= i < |Events(history)| ==>
      && Replayed(Events(history)[..i]) != Replayed(Events(history)[..i + 1])
      && !Replayed(Events(history)[..i]).Failed?
    decreases |history|
  {
    if history == [] {
    } else {
      var before := history[..|history| - 1];
      EventsReplayTheState(before);
      var events, emitted := Events(before), Emitted(After(before), After(history));
      forall i | 0 <= i < |Events(history)|
        ensures Replayed(Events(history)[..i]) != Replayed(Events(history)[..i + 1])
            && !Replayed(Events(history)[..i]).Failed?
      {
        if i < |events| {
          assert Events(history)[..i] == events[..i] && Events(history)[..i + 1] == events[..i + 1];
        } else {
          assert Events(history)[..i] == events && Events(history)[..i + 1] == Events(history);
        }
      }
    }
  }

  /** A member that failed stays failed, whatever is observed after. */
  lemma {:induction false} FailuresLast(history: seq<Observation>, more: seq<Observation>)
    requires After(history).state.Failed?
    ensures After(history + more).state.Failed? && Events(history + more) == Events(history)
    decreases |more|
  {
    if more == [] {
      assert history + more == history;
    } else {
      var fewer := more[..|more| - 1];
      FailuresLast(history, fewer);
      assert (history + more)[..|history + more| - 1] == history + fewer;
    }
  }

  // ----- The monitor, which keeps no history -----

  class ContactMonitor {
    var state: Contact
    var missed: nat
    var lastGood: nat
    ghost var history: seq<Observation>

    ghost predicate Valid()
      reads this
    {
      Monitor(state, missed, lastGood) == After(history)
    }

    constructor ()
      ensures Valid() && history == []
    {
      state, missed, lastGood, history := InContact, 0, 0, [];
    }

    /** Its state is the judgement of everything observed so far, and an event
        is returned exactly when that judgement changes. */
    method Observe(elapsed: nat, success: bool) returns (event: Option<ContactEvent>)
      requires Valid()
      modifies this
      ensures Valid() && history == old(history) + [Observation(elapsed, success)]
      ensures state == Judged(history)
      ensures event == if Judged(history) == Judged(old(history)) then None else Some(EventInto(Judged(history)))
    {
      MonitorJudgesTheHistory(history);
      history := history + [Observation(elapsed, success)];
      MonitorJudgesTheHistory(history);
      assert history[..|history| - 1] == old(history);
      if state.Failed? {
        return None;
      }
      var was := state;
      if Since(lastGood, elapsed) >= FAILURE_AFTER {
        state := Failed;
      } else if success {
        lastGood := elapsed;
        missed := 0;
        state := InContact;
      } else {
        if missed < U32_MAX {
          missed := missed + 1;
        } else {
          missed := U32_MAX;
        }
        if missed >= 3 {
          state := OutOfContact;
        }
      }
      if was == state {
        return None;
      }
      return Some(EventInto(state));
    }
  }
}
