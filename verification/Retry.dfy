/** The bounded retry of the platform detection at startup. Times are
    milliseconds. */
module Retry {
  import opened Wrappers
  import opened Widths

  const ATTEMPTS: nat := 6
  const BUDGET: nat := 20000

  /** How an attempt ends: only an identity that could not be established is
      worth another one. */
  datatype Outcome = Observed(value: string) | Unestablished(error: string) | Refused(error: string)

  datatype Line =
    | RetryLine(made: nat, elapsed: nat, nextIn: nat)
    | RecoveredLine(made: nat, elapsed: nat, firstError: string)
    | ExhaustedLine(made: nat, elapsed: nat)
    | StoppedLine(made: nat, elapsed: nat)

  datatype Ending = Ending(result: Option<string>, made: nat, elapsed: nat, log: seq<Line>)

  // ----- The delays -----

  function Pow2(n: nat): nat {
    if n == 0 then 1 else 2 * Pow2(n - 1)
  }

  /** The delay before attempt `next`: none for the first, and none past the
      last; otherwise it doubles from half a second, as far as 32 bits go. */
  function RetryDelay(next: nat, attempts: nat): Option<nat> {
    if next < 2 || next > attempts then None
    else Some(500 * (if Pow2(next - 2) <= U32_MAX then Pow2(next - 2) else U32_MAX))
  }

  lemma {:induction false} DelaysArePositive(n: nat)
    ensures Pow2(n) >= 1
  {
    if n == 0 {
    } else {
      DelaysArePositive(n - 1);
    }
  }

  /** The delays after the first attempt, the second, and so on. */
  function Schedule(attempts: nat): (delays: seq<nat>)
    ensures |delays| == (if attempts == 0 then 0 else attempts - 1)
    ensures forall i :: 0 <= i < |delays| ==> RetryDelay(i + 2, attempts) == Some(delays[i])
  {
    seq(if attempts == 0 then 0 else attempts - 1,
        i requires 0 <= i < attempts - 1 => RetryDelay(i + 2, attempts).value)
  }

  predicate AllPositive(delays: seq<nat>) {
    forall i :: 0 <= i < |delays| ==> delays[i] > 0
  }

  lemma SchedulesArePositive(attempts: nat)
    ensures AllPositive(Schedule(attempts))
  {
    forall i | 0 <= i < |Schedule(attempts)| ensures Schedule(attempts)[i] > 0 {
      DelaysArePositive(i);
    }
  }

  function Min(a: nat, b: nat): nat {
    if a < b then a else b
  }

  function Left(budget: nat, elapsed: nat): nat {
    if elapsed < budget then budget - elapsed else 0
  }

  /** The sleep after `made` attempts: cut to what is left of the budget, and
      none when that is nothing. */
  function NextSleep(delays: seq<nat>, budget: nat, made: nat, elapsed: nat): Option<nat>
    requires made >= 1
  {
    if made > |delays| || Min(delays[made - 1], Left(budget, elapsed)) == 0 then None
    else Some(Min(delays[made - 1], Left(budget, elapsed)))
  }

  method NextDelay(attempts: nat, budget: nat, made: nat, elapsed: nat) returns (sleep: Option<nat>)
    requires made >= 1
    ensures sleep == NextSleep(Schedule(attempts), budget, made, elapsed)
  {
    var delay := RetryDelay(made + 1, attempts);
    assert made <= |Schedule(attempts)| ==> delay == Some(Schedule(attempts)[made - 1]);
    if delay.None? {
      return None;
    }
    var cut := Min(delay.value, Left(budget, elapsed));
    return if cut == 0 then None else Some(cut);
  }

  // ----- The loop -----

  /** What the outside does at each attempt: how it ends, how long it takes,
      and how much longer than asked the sleep after it takes. */
  datatype Attempt = Attempt(outcome: Outcome, cost: nat, late: nat)

  /** The line an attempt closes the episode with, if any. */
  function ClosingLines(outcome: Outcome, made: nat, elapsed: nat, firstError: Option<string>): seq<Line> {
    match outcome
    case Observed(_) => if firstError.Some? then [RecoveredLine(made, elapsed, firstError.value)] else []
    case Refused(_) => if made > 1 then [StoppedLine(made, elapsed)] else []
    case Unestablished(_) => [ExhaustedLine(made, elapsed)]
  }

  function ResultOf(outcome: Outcome): Option<string> {
    if outcome.Observed? then Some(outcome.value) else None
  }

  function FirstError(firstError: Option<string>, error: string): Option<string> {
    if firstError.Some? then firstError else Some(error)
  }

  /** The loop from the point where `made` attempts were made, `elapsed` has
      passed and `log` was written; `world` tells of every attempt it may
      make. */
  function Go(world: seq<Attempt>, delays: seq<nat>, budget: nat, made: nat, elapsed: nat, firstError: Option<string>,
              log: seq<Line>): Ending
    requires made <= |delays| < |world|
    decreases |delays| - made
  {
    var attempt := world[made];
    var at := elapsed + attempt.cost;
    var sleep := NextSleep(delays, budget, made + 1, at);
    if !attempt.outcome.Unestablished? || sleep.None?
    then Ending(ResultOf(attempt.outcome), made + 1, at, log + ClosingLines(attempt.outcome, made + 1, at, firstError))
    else Go(world, delays, budget, made + 1, at + sleep.value + attempt.late,
            FirstError(firstError, attempt.outcome.error),
            log + [RetryLine(made + 1, at, sleep.value)])
  }

  method ObserveWithRetry(world: seq<Attempt>, attempts: nat, budget: nat) returns (end: Ending)
    requires |world| >= 1 && |world| >= attempts
    ensures end == Go(world, Schedule(attempts), budget, 0, 0, None, [])
  {
    var made: nat, elapsed: nat, firstError, log := 0, 0, None, [];
    ghost var delays := Schedule(attempts);
    while true
      invariant made <= |delays|
      invariant Go(world, delays, budget, made, elapsed, firstError, log) == Go(world, delays, budget, 0, 0, None, [])
      decreases |delays| - made
    {
      var attempt := world[made];
      made := made + 1;
      elapsed := elapsed + attempt.cost;
      if attempt.outcome.Observed? {
        if firstError.Some? {
          log := log + [RecoveredLine(made, elapsed, firstError.value)];
        }
        return Ending(Some(attempt.outcome.value), made, elapsed, log);
      }
      if attempt.outcome.Refused? {
        if made > 1 {
          log := log + [StoppedLine(made, elapsed)];
        }
        return Ending(None, made, elapsed, log);
      }
      var next := NextDelay(attempts, budget, made, elapsed);
      if next.None? {
        log := log + [ExhaustedLine(made, elapsed)];
        return Ending(None, made, elapsed, log);
      }
      log := log + [RetryLine(made, elapsed, next.value)];
      if firstError.None? {
        firstError := Some(attempt.outcome.error);
      }
      elapsed := elapsed + next.value + attempt.late;
    }
  }

  // ----- What every episode keeps -----

  lemma SleepsFitTheBudget(delays: seq<nat>, budget: nat, made: nat, elapsed: nat)
    requires made >= 1 && AllPositive(delays)
    ensures match NextSleep(delays, budget, made, elapsed)
            case Some(sleep) => made <= |delays| && 0 < sleep && elapsed + sleep <= budget
            case None => made > |delays| || elapsed >= budget
  {
  }

  /** One retry line for each of the first `made` attempts, each with a sleep
      that ends inside the budget. */
  predicate RetryLines(log: seq<Line>, made: nat, budget: nat) {
    && |log| == made
    && (forall i :: 0 <= i < made ==>
          log[i].RetryLine? && log[i].made == i + 1 && log[i].nextIn > 0 && log[i].elapsed + log[i].nextIn <= budget)
  }

  predicate AllUnestablished(world: seq<Attempt>, made: nat)
    requires made <= |world|
  {
    forall i :: 0 <= i < made ==> world[i].outcome.Unestablished?
  }

  /** The error a late success names: the first attempt's. */
  function ErrorBefore(world: seq<Attempt>, made: nat): Option<string>
    requires made <= |world|
  {
    if made == 0 || !world[0].outcome.Unestablished? then None else Some(world[0].outcome.error)
  }

  /** What an episode comes to: every attempt before the last could not
      establish an identity and is logged with its sleep, the last one gives
      the result and the line that closes the log, and an episode that ends
      without one has used up its delays or spent its budget. */
  predicate Settled(end: Ending, world: seq<Attempt>, delays: seq<nat>, budget: nat) {
    && 1 <= end.made <= |delays| + 1 && end.made <= |world|
    && AllUnestablished(world, end.made - 1)
    && var last := world[end.made - 1].outcome;
       && end.result == ResultOf(last)
       && (last.Unestablished? ==> end.made == |delays| + 1 || end.elapsed >= budget)
       && |end.log| >= end.made - 1 && RetryLines(end.log[..end.made - 1], end.made - 1, budget)
       && end.log[end.made - 1..] == ClosingLines(last, end.made, end.elapsed, ErrorBefore(world, end.made - 1))
  }

  lemma LoggingOneMore(log: seq<Line>, made: nat, budget: nat, elapsed: nat, sleep: nat)
    requires RetryLines(log, made, budget) && 0 < sleep && elapsed + sleep <= budget
    ensures RetryLines(log + [RetryLine(made + 1, elapsed, sleep)], made + 1, budget)
  {
  }

  lemma ClosingSettles(world: seq<Attempt>, delays: seq<nat>, budget: nat, made: nat, elapsed: nat, log: seq<Line>)
    requires made <= |delays| < |world| && RetryLines(log, made, budget) && AllUnestablished(world, made)
    requires var outcome := world[made].outcome;
             outcome.Unestablished? ==> made + 1 > |delays| || elapsed >= budget
    ensures var outcome := world[made].outcome;
            Settled(Ending(ResultOf(outcome), made + 1, elapsed,
                           log + ClosingLines(outcome, made + 1, elapsed, ErrorBefore(world, made))),
                    world, delays, budget)
  {
    var closing := ClosingLines(world[made].outcome, made + 1, elapsed, ErrorBefore(world, made));
    assert (log + closing)[..made] == log && (log + closing)[made..] == closing;
  }

  lemma {:induction false} EpisodesSettle(world: seq<Attempt>, delays: seq<nat>, budget: nat, made: nat, elapsed: nat,
                                          firstError: Option<string>, log: seq<Line>)
    requires made <= |delays| < |world| && AllPositive(delays)
    requires RetryLines(log, made, budget) && AllUnestablished(world, made) && firstError == ErrorBefore(world, made)
    ensures Settled(Go(world, delays, budget, made, elapsed, firstError, log), world, delays, budget)
    decreases |delays| - made
  {
    var attempt := world[made];
    var at := elapsed + attempt.cost;
    SleepsFitTheBudget(delays, budget, made + 1, at);
    var sleep := NextSleep(delays, budget, made + 1, at);
    if !attempt.outcome.Unestablished? || sleep.None? {
      ClosingSettles(world, delays, budget, made, at, log);
    } else {
      LoggingOneMore(log, made, budget, at, sleep.value);
      EpisodesSettle(world, delays, budget, made + 1, at + sleep.value + attempt.late,
                     FirstError(firstError, attempt.outcome.error), log + [RetryLine(made + 1, at, sleep.value)]);
    }
  }

  /** Every episode of the retry, for every number of attempts and every
      budget. */
  lemma EveryEpisodeSettles(world: seq<Attempt>, attempts: nat, budget: nat)
    requires |world| >= 1 && |world| >= attempts
    ensures Settled(Go(world, Schedule(attempts), budget, 0, 0, None, []), world, Schedule(attempts), budget)
  {
    SchedulesArePositive(attempts);
    EpisodesSettle(world, Schedule(attempts), budget, 0, 0, None, []);
  }

  // ----- Slow hosts -----

  lemma ShippedSchedule()
    ensures Schedule(ATTEMPTS) == [500, 1000, 2000, 4000, 8000]
  {
    assert Pow2(0) == 1 && Pow2(1) == 2 && Pow2(2) == 4 && Pow2(3) == 8 && Pow2(4) == 16;
  }

  predicate AllTake(world: seq<Attempt>, cost: nat) {
    forall i :: 0 <= i < |world| ==> world[i] == Attempt(Unestablished(""), cost, 0)
  }

  /** An episode in which every attempt takes `cost` and fails. */
  function Steady(cost: nat): (world: seq<Attempt>)
    ensures |world| == ATTEMPTS && AllTake(world, cost)
  {
    seq(ATTEMPTS, _ => Attempt(Unestablished(""), cost, 0))
  }

  function Shipped(cost: nat): Ending {
    Go(Steady(cost), Schedule(ATTEMPTS), BUDGET, 0, 0, None, [])
  }

  /** How many attempts such an episode makes. */
  function Tries(delays: seq<nat>, budget: nat, cost: nat, made: nat, elapsed: nat): nat
    requires made <= |delays|
    decreases |delays| - made
  {
    match NextSleep(delays, budget, made + 1, elapsed + cost)
    case None => made + 1
    case Some(sleep) => Tries(delays, budget, cost, made + 1, elapsed + cost + sleep)
  }

  /** A failed attempt ends the loop, or is followed by the next one. */
  lemma FailedAttemptsGoOn(world: seq<Attempt>, delays: seq<nat>, budget: nat, made: nat, elapsed: nat,
                           firstError: Option<string>, log: seq<Line>)
    requires made <= |delays| < |world| && world[made].outcome.Unestablished?
    ensures var attempt := world[made];
            var at := elapsed + attempt.cost;
            var here := Go(world, delays, budget, made, elapsed, firstError, log);
            match NextSleep(delays, budget, made + 1, at)
            case None => here.made == made + 1
            case Some(sleep) =>
              here == Go(world, delays, budget, made + 1, at + sleep + attempt.late,
                         FirstError(firstError, attempt.outcome.error),
                         log + [RetryLine(made + 1, at, sleep)])
  {
  }

  lemma {:induction false} TriesAreMade(world: seq<Attempt>, delays: seq<nat>, budget: nat, cost: nat, made: nat,
                                        elapsed: nat, firstError: Option<string>, log: seq<Line>)
    requires made <= |delays| < |world| && AllTake(world, cost)
    ensures Go(world, delays, budget, made, elapsed, firstError, log).made == Tries(delays, budget, cost, made, elapsed)
    decreases |delays| - made
  {
    FailedAttemptsGoOn(world, delays, budget, made, elapsed, firstError, log);
    var sleep := NextSleep(delays, budget, made + 1, elapsed + cost);
    if sleep.None? {
    } else {
      TriesAreMade(world, delays, budget, cost, made + 1, elapsed + cost + sleep.value, FirstError(firstError, ""),
                   log + [RetryLine(made + 1, elapsed + cost, sleep.value)]);
    }
  }

  const Delays: seq<nat> := [500, 1000, 2000, 4000, 8000]

  function ShippedTries(cost: nat, made: nat, elapsed: nat): nat
    requires made <= 5
  {
    Tries(Delays, BUDGET, cost, made, elapsed)
  }

  /** One attempt of the shipped policy more. */
  lemma OneTryMore(cost: nat, made: nat, elapsed: nat, delay: nat)
    requires made < 5 && delay == Delays[made]
    ensures elapsed + cost >= BUDGET ==> ShippedTries(cost, made, elapsed) == made + 1
    ensures elapsed + cost < BUDGET ==>
      ShippedTries(cost, made, elapsed) ==
        ShippedTries(cost, made + 1, elapsed + cost + Min(delay, BUDGET - elapsed - cost))
  {
  }

  lemma FastHostsUseEveryAttempt(cost: nat)
    requires cost < 2500
    ensures ShippedTries(cost, 0, 0) == 6
  {
    OneTryMore(cost, 0, 0, 500);
    OneTryMore(cost, 1, cost + 500, 1000);
    OneTryMore(cost, 2, 2 * cost + 1500, 2000);
    OneTryMore(cost, 3, 3 * cost + 3500, 4000);
    OneTryMore(cost, 4, 4 * cost + 7500, 8000);
  }

  lemma SlowAfterFour(cost: nat, elapsed: nat)
    requires cost >= 2500 && elapsed >= 17500
    ensures ShippedTries(cost, 4, elapsed) == 5
  {
    OneTryMore(cost, 4, elapsed, 8000);
  }

  lemma SlowAfterThree(cost: nat, elapsed: nat)
    requires cost >= 2500 && elapsed >= 11000
    ensures ShippedTries(cost, 3, elapsed) <= 5
  {
    OneTryMore(cost, 3, elapsed, 4000);
    if elapsed + cost < BUDGET {
      SlowAfterFour(cost, elapsed + cost + Min(4000, BUDGET - elapsed - cost));
    }
  }

  lemma SlowAfterTwo(cost: nat, elapsed: nat)
    requires cost >= 2500 && elapsed >= 6500
    ensures ShippedTries(cost, 2, elapsed) <= 5
  {
    OneTryMore(cost, 2, elapsed, 2000);
    if elapsed + cost < BUDGET {
      SlowAfterThree(cost, elapsed + cost + Min(2000, BUDGET - elapsed - cost));
    }
  }

  lemma SlowHostsRunOut(cost: nat)
    requires cost >= 2500
    ensures ShippedTries(cost, 0, 0) <= 5
  {
    OneTryMore(cost, 0, 0, 500);
    if cost < BUDGET {
      var elapsed := cost + Min(500, BUDGET - cost);
      OneTryMore(cost, 1, elapsed, 1000);
      if elapsed + cost < BUDGET {
        SlowAfterTwo(cost, elapsed + cost + Min(1000, BUDGET - elapsed - cost));
      }
    }
  }

  /** A host whose attempts all take `cost` makes as many of them as one whose
      attempts take no time exactly when they take less than two and a half
      seconds. */
  lemma SlowHostsGetFewerAttempts(cost: nat)
    ensures Shipped(0).made == ATTEMPTS
    ensures Shipped(cost).made >= Shipped(0).made <==> cost < 2500
  {
    ShippedSchedule();
    TriesAreMade(Steady(0), Delays, BUDGET, 0, 0, 0, None, []);
    TriesAreMade(Steady(cost), Delays, BUDGET, cost, 0, 0, None, []);
    FastHostsUseEveryAttempt(0);
    if cost < 2500 {
      FastHostsUseEveryAttempt(cost);
    } else {
      SlowHostsRunOut(cost);
    }
  }

  /** A host whose attempts take three seconds makes fewer than one whose
      attempts take no time. */
  lemma AThreeSecondHostGetsFewer(cost: nat)
    requires cost == 3000
    ensures Shipped(cost).made < Shipped(0).made
  {
    SlowHostsGetFewerAttempts(cost);
  }
}
