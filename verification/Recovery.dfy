/** Startup recovery: how a start settles the transaction it finds, decided
    from the records alone. */
module Recovery {
  import opened Wrappers
  import opened Records
  import opened StateStore
  import opened Changes

  /** The recovery test: phase, candidate and active record of `s` are those a
      committed `tx` leaves. */
  predicate Committed(s: AgentState, tx: TransactionRecord) {
    match tx.kind
    case Deploy => (tx.phase.Promoted? || tx.phase.Active?) && s.candidate.None?
    case Rollback =>
      && (tx.phase.Promoted? || tx.phase.RolledBack?)
      && s.active.Some?
      && s.active.value.deploymentId == tx.deploymentId
      && match tx.named
         case Names(named) =>
           && s.active.value.named.Names?
           && s.active.value.named.identity.generation >= named.generation
           && s.active.value.named.identity.configuration == named.configuration
         case Unnamed =>
           tx.bundleDigest.Some? && DigestsEqual(tx.bundleDigest.value, s.active.value.bundleDigest)
         case Malformed => false
  }

  datatype Settle = NothingInFlight | Forward | Ended | Failing

  function SettleOf(s: AgentState): Settle {
    if s.inFlight.None? then NothingInFlight
    else if s.inFlight.value.phase.Failed? && s.inFlight.value.kind.Rollback? then Failing
    else if Committed(s, s.inFlight.value) then Forward
    else Ended
  }

  /** The failure a settled transaction leaves as `last_error`. */
  function FailureOf(tx: TransactionRecord): ErrorRecord {
    if tx.failure.Some? then tx.failure.value else ErrorRecord(InternalError, "interrupted")
  }

  /** Whether the settling writes at all. */
  predicate SettleWrites(s: AgentState) {
    s.inFlight.Some? || s.candidate.Some?
  }

  /** The one write of a start's settling. */
  function SettleChange(s: AgentState): Change {
    match SettleOf(s)
    case NothingInFlight => ClearCandidate(s)
    case Forward => EndTransaction(s)
    case Ended => QuarantineInFlight(s, FailureOf(s.inFlight.value))
    case Failing => FailTransaction(s, FailureOf(s.inFlight.value))
  }

  /** The settling of any state a start can read, an earlier build's
      included, is never refused by the store: it leaves no transaction and
      no candidate, moves neither record and keeps the counter. */
  lemma SettlingIsNeverRefused(s: AgentState)
    requires ValidState(s)
    ensures SettleChange(s).Ok?
    ensures var next := Stamped(SettleChange(s).value.0);
            && Writable(s, next)
            && next.inFlight.None? && next.candidate.None?
            && next.active == s.active && next.previous == s.previous
            && next.nextGeneration == s.nextGeneration
  {
  }

  /** A transaction is quarantined by a start exactly when the records show
      no commit and it was not a rollback already recorded failed. */
  lemma OnlyUncommittedTransactionsAreQuarantined(s: AgentState)
    requires s.inFlight.Some? && |s.quarantined| <= MAX_QUARANTINE
    ensures var tx := s.inFlight.value;
            var next := SettleChange(s).value.0;
            if Committed(s, tx) || (tx.kind.Rollback? && tx.phase.Failed?) then next.quarantined == s.quarantined
            else
              && 0 < |next.quarantined| <= MAX_QUARANTINE
              && next.quarantined[|next.quarantined| - 1]
                 == QuarantineRecord(tx.transactionId, tx.deploymentId, tx.bundleDigest, tx.phase, FailureOf(tx))
              && next.lastError == Some(FailureOf(tx))
  {
  }
}
