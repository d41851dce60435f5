/** A serving member told to retire: how its stop goes on until its process
    is reaped. Times are milliseconds. */
module Retirement {
  import opened Wrappers

  const CONTROL_BUDGET: nat := 3000
  const RETIRE_DRAIN: nat := 30000
  const RETIRE_CLEANUP: nat := 10000

  /** How far the stop has gone: the retire was sent, it was acknowledged, or
      the process was asked to stop. */
  datatype Phase = Sent(stopAt: nat) | Acknowledged(stopAt: nat) | Terminated(killAt: nat)

  /** The phase a retire queued at `now` begins in. */
  function Begun(now: nat, stopDeadline: nat): Phase {
    Sent(now + CONTROL_BUDGET + stopDeadline)
  }

  /** The answer to the retire is recorded. */
  function Answered(phase: Phase, refused: bool, now: nat, stopDeadline: nat): Phase {
    if !phase.Sent? then phase
    else if refused then Terminated(now + stopDeadline)
    else Acknowledged(now + RETIRE_DRAIN + RETIRE_CLEANUP)
  }

  /** What a supervision step makes of it; none once it is to be reaped. */
  function Watched(phase: Phase, exited: bool, now: nat, stopDeadline: nat): Option<Phase> {
    if exited then None
    else
      match phase
      case Sent(stopAt) => Some(if now >= stopAt then Terminated(now + stopDeadline) else phase)
      case Acknowledged(stopAt) => Some(if now >= stopAt then Terminated(now + stopDeadline) else phase)
      case Terminated(killAt) => if now >= killAt then None else Some(phase)
  }

  /** On its way out already. */
  predicate Leaving(phase: Phase, exited: bool) {
    phase.Terminated? || exited
  }

  // ----- The members that are retiring -----

  class RetiringMembers {
    var phases: map<nat, Phase>

    constructor ()
      ensures phases == map[]
    {
      phases := map[];
    }

    method RetireLater(generation: nat, now: nat, stopDeadline: nat)
      modifies this
      ensures phases == old(phases)[generation := Begun(now, stopDeadline)]
    {
      phases := phases[generation := Sent(now + CONTROL_BUDGET + stopDeadline)];
    }

    method RetireAnswered(generation: nat, refused: bool, now: nat, stopDeadline: nat)
      modifies this
      ensures phases == if generation in old(phases)
                        then old(phases)[generation := Answered(old(phases)[generation], refused, now, stopDeadline)]
                        else old(phases)
    {
      if generation !in phases || !phases[generation].Sent? {
        return;
      }
      if refused {
        phases := phases[generation := Terminated(now + stopDeadline)];
      } else {
        phases := phases[generation := Acknowledged(now + RETIRE_DRAIN + RETIRE_CLEANUP)];
      }
    }

    /** Take every member out, and put back those that are not done. */
    method Watch(now: nat, exited: set<nat>, stopDeadline: nat) returns (done: set<nat>)
      modifies this
      ensures forall g :: g in done <==>
        && g in old(phases)
        && Watched(old(phases)[g], g in exited, now, stopDeadline).None?
      ensures phases.Keys == old(phases).Keys - done
      ensures forall g :: g in phases ==> Watched(old(phases)[g], g in exited, now, stopDeadline) == Some(phases[g])
    {
      var taken := phases;
      var left := taken.Keys;
      phases, done := map[], {};
      while left != {}
        invariant left <= taken.Keys && done !! left && phases.Keys == taken.Keys - left - done && done <= taken.Keys
        invariant forall g :: g in done ==> Watched(taken[g], g in exited, now, stopDeadline).None?
        invariant forall g :: g in phases ==> Watched(taken[g], g in exited, now, stopDeadline) == Some(phases[g])
        decreases left
      {
        var generation :| generation in left;
        left := left - {generation};
        var phase := taken[generation];
        if generation in exited {
          done := done + {generation};
        } else if phase.Terminated? && now >= phase.killAt {
          done := done + {generation};
        } else if !phase.Terminated? && now >= phase.stopAt {
          phases := phases[generation := Terminated(now + stopDeadline)];
        } else {
          phases := phases[generation := phase];
        }
      }
    }

    /** A new candidate needs ports: unless a member is on its way out, or
        ports are free after all, the member retired first is asked to stop. */
    method StopOldest(now: nat, draining: nat, exited: set<nat>, portsFree: bool, stopDeadline: nat)
      returns (stopped: Option<nat>)
      modifies this
      ensures stopped.None? ==> phases == old(phases)
      ensures stopped.Some? ==>
        && stopped.value in old(phases) && (forall g :: g in old(phases) ==> stopped.value <= g)
        && (forall g :: g in old(phases) ==> !Leaving(old(phases)[g], g in exited))
        && draining <= |old(phases)| && !portsFree
        && phases == old(phases)[stopped.value := Terminated(now + stopDeadline)]
      ensures stopped.None? ==>
        || phases == map[] || draining > |phases| || portsFree
        || exists g :: g in phases && Leaving(phases[g], g in exited)
    {
      if draining > |phases| {
        return None;
      }
      var left := phases.Keys;
      var oldest: Option<nat> := None;
      while left != {}
        invariant left <= phases.Keys
        invariant forall g :: g in phases.Keys - left ==> !Leaving(phases[g], g in exited)
        invariant oldest.None? ==> left == phases.Keys
        invariant oldest.Some? ==> oldest.value in phases && oldest.value !in left
        invariant oldest.Some? ==> forall g :: g in phases.Keys - left ==> oldest.value <= g
        decreases left
      {
        var generation :| generation in left;
        if Leaving(phases[generation], generation in exited) {
          return None;
        }
        assert phases.Keys - (left - {generation}) == phases.Keys - left + {generation};
        if oldest.None? || generation < oldest.value {
          oldest := Some(generation);
        }
        left := left - {generation};
      }
      assert forall g :: g in phases ==> g in phases.Keys - left;
      if portsFree || oldest.None? {
        return None;
      }
      phases := phases[oldest.value := Terminated(now + stopDeadline)];
      return oldest;
    }
  }

  // ----- One member over time -----

  /** What happens to one retiring member, at the time the clock was read. */
  datatype Event =
    | Answer(refused: bool, now: nat)
    | Step(exited: bool, now: nat)         // a supervision step
    // a candidate needs ports; `chosen` when this is the oldest and none is leaving
    | PortsWanted(chosen: bool, now: nat)

  /** Not yet reaped while it has a phase. */
  function Happens(phase: Option<Phase>, event: Event, stopDeadline: nat): Option<Phase> {
    if phase.None? then None
    else
      match event
      case Answer(refused, now) => Some(Answered(phase.value, refused, now, stopDeadline))
      case Step(exited, now) => Watched(phase.value, exited, now, stopDeadline)
      case PortsWanted(chosen, now) =>
        if chosen && !phase.value.Terminated? then Some(Terminated(now + stopDeadline)) else phase
  }

  function Run(phase: Option<Phase>, events: seq<Event>, stopDeadline: nat): Option<Phase>
    decreases |events|
  {
    if events == [] then phase else Run(Happens(phase, events[0], stopDeadline), events[1..], stopDeadline)
  }

  /** The events come in order, and a supervision step comes at most `gap`
      after the last one. */
  predicate Timely(events: seq<Event>, from: nat, lastStep: nat, gap: nat)
    decreases |events|
  {
    events == [] ||
      (from <= events[0].now <= lastStep + gap
       && Timely(events[1..], events[0].now, if events[0].Step? then events[0].now else lastStep, gap))
  }

  function Rank(phase: Option<Phase>): nat {
    match phase
    case None => 3
    case Some(Terminated(_)) => 2
    case Some(Acknowledged(_)) => 1
    case Some(Sent(_)) => 0
  }

  /** The phase only moves forward, and a kill deadline once set is kept. */
  lemma PhasesMoveForward(phase: Option<Phase>, event: Event, stopDeadline: nat)
    ensures Rank(phase) <= Rank(Happens(phase, event, stopDeadline))
    ensures phase.Some? && phase.value.Terminated? ==>
      Happens(phase, event, stopDeadline).None? || Happens(phase, event, stopDeadline) == phase
  {
  }

  /** The latest time at which an event can still find the member in this
      phase or a later one, with steps at most `gap` apart. */
  function Latest(phase: Phase, stopDeadline: nat, gap: nat): nat {
    match phase
    case Terminated(killAt) => killAt + gap
    case Acknowledged(stopAt) => stopAt + gap + stopDeadline + gap
    case Sent(stopAt) => stopAt + gap + RETIRE_DRAIN + RETIRE_CLEANUP + gap + stopDeadline + gap
  }

  function DueAt(phase: Phase): nat {
    if phase.Terminated? then phase.killAt else phase.stopAt
  }

  lemma {:induction false} NothingOutlastsItsBound(phase: Phase, events: seq<Event>, from: nat, lastStep: nat,
                                                   stopDeadline: nat, gap: nat, bound: nat)
    requires Timely(events, from, lastStep, gap) && lastStep <= from <= lastStep + gap
    requires lastStep <= DueAt(phase) && Latest(phase, stopDeadline, gap) <= bound
    requires events != [] && Run(Some(phase), events, stopDeadline).Some?
    ensures events[|events| - 1].now <= bound
    decreases |events|
  {
    var event := events[0];
    var after := Happens(Some(phase), event, stopDeadline);
    var step := if event.Step? then event.now else lastStep;
    if |events| > 1 {
      if after.None? {
        ReapedStaysReaped(events[1..], stopDeadline);
      } else {
        NothingOutlastsItsBound(after.value, events[1..], event.now, step, stopDeadline, gap, bound);
        assert events[1..][|events| - 2] == events[|events| - 1];
      }
    }
  }

  lemma {:induction false} ReapedStaysReaped(events: seq<Event>, stopDeadline: nat)
    ensures Run(None, events, stopDeadline).None?
    decreases |events|
  {
    if events == [] {
    } else {
      ReapedStaysReaped(events[1..], stopDeadline);
    }
  }

  /** With supervision steps at most `gap` apart, a member told to retire at
      `start` is reaped before any event past the answer's budget, twice the
      stop deadline, the drain, the cleanup and three gaps, whatever answers
      arrive and whichever port request cuts its drain short. */
  lemma RetirementsEnd(start: nat, events: seq<Event>, stopDeadline: nat, gap: nat)
    requires Timely(events, start, start, gap) && events != []
    requires events[|events| - 1].now >
      start + CONTROL_BUDGET + 2 * stopDeadline + RETIRE_DRAIN + RETIRE_CLEANUP + 3 * gap
    ensures Run(Some(Begun(start, stopDeadline)), events, stopDeadline).None?
  {
    if Run(Some(Begun(start, stopDeadline)), events, stopDeadline).Some? {
      NothingOutlastsItsBound(Begun(start, stopDeadline), events, start, start, stopDeadline, gap,
                              start + CONTROL_BUDGET + 2 * stopDeadline + RETIRE_DRAIN + RETIRE_CLEANUP + 3 * gap);
    }
  }
}
