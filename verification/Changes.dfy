/** The updates the agent asks of its state store, as changes of one state
    to another, and the phases of a transaction. */
module Changes {
  import opened Wrappers
  import opened Records

  type Change = Result<(AgentState, ())>

  function Changed(s: AgentState): Change {
    Ok((s, ()))
  }

  // ----- Phases -----

  predicate IsSuccessTransition(current: Phase, next: Phase) {
    match (current, next)
    case (Received, Verified) => true
    case (Verified, Staged) => true
    case (Staged, CapacityChecked) => true
    case (CapacityChecked, Prepared) => true
    case (Prepared, Warmed) => true
    case (Warmed, Promoted) => true
    case (Promoted, Active) => true
    case (_, _) => false
  }

  predicate IsPermitted(current: Phase, next: Phase) {
    || IsSuccessTransition(current, next)
    || (next.Failed? && !IsTerminal(current))
    || (next.RolledBack? && (current.Active? || current.Promoted?))
  }

  // ----- Digests -----

  function Lower(s: string): (r: string)
    ensures |r| == |s|
  {
    seq(|s|, i requires 0 <= i < |s| => if 'A' <= s[i] <= 'Z' then s[i] - 'A' + 'a' else s[i])
  }

  /** Two `algorithm:hex` digests, compared without their case. */
  predicate DigestsEqual(a: string, b: string) {
    ':' in a && ':' in b && Lower(a) == Lower(b)
  }

  // ----- Updates -----

  /** Record the next phase of the transaction in flight. */
  function RecordPhase(s: AgentState, transactionId: string, phase: Phase): Change {
    if s.inFlight.None? || s.inFlight.value.transactionId != transactionId then Err(Internal)
    else Changed(s.(inFlight := Some(s.inFlight.value.(phase := phase))))
  }

  function BeginTransaction(s: AgentState, record: TransactionRecord): Change {
    if s.inFlight.Some? && !IsTerminal(s.inFlight.value.phase) then Err(Busy)
    else Changed(s.(inFlight := Some(record)))
  }

  function EndTransaction(s: AgentState): Change {
    Changed(s.(inFlight := None, candidate := None, lastError := None))
  }

  function FailTransaction(s: AgentState, error: ErrorRecord): Change {
    Changed(s.(inFlight := None, candidate := None, lastError := Some(error)))
  }

  function RecordCandidate(s: AgentState, record: DeploymentRecord): Change {
    Changed(s.(candidate := Some(record)))
  }

  function ClearCandidate(s: AgentState): Change {
    Changed(s.(candidate := None))
  }

  function NoteBundleDigest(s: AgentState, digest: string): Change {
    if s.inFlight.None? then Changed(s)
    else Changed(s.(inFlight := Some(s.inFlight.value.(bundleDigest := Some(digest)))))
  }

  function SetLastError(s: AgentState, error: Option<ErrorRecord>): Change {
    Changed(s.(lastError := error))
  }

  /** The descriptor a transaction of this kind names for this deployment. */
  function TransactionNames(transaction: Option<TransactionRecord>, kind: Kind, deploymentId: string): Named {
    if transaction.Some? && transaction.value.kind == kind && transaction.value.deploymentId == deploymentId
    then transaction.value.named
    else Unnamed
  }

  predicate NamedAsItsDeploy(candidate: DeploymentRecord, transaction: Option<TransactionRecord>) {
    var deploy := TransactionNames(transaction, Deploy, candidate.deploymentId);
    !deploy.Malformed? && candidate.named == deploy
  }

  function RecordCommit(transaction: Option<TransactionRecord>): Option<TransactionRecord> {
    if transaction.None? then None else Some(transaction.value.(phase := Promoted))
  }

  /** A deploy's commit: the candidate becomes active, the active record is
      retained, and the transaction becomes `promoted`. */
  function PromoteCandidate(s: AgentState, at: nat): Change {
    if s.candidate.None? || !NamedAsItsDeploy(s.candidate.value, s.inFlight) then Err(Internal)
    else Changed(s.(candidate := None,
                    active := Some(s.candidate.value.(promotedAt := Some(at))),
                    previous := s.active,
                    inFlight := RecordCommit(s.inFlight)))
  }

  /** `previous` under the identity its rollback started it with. */
  function TakeRollbackIdentity(previous: DeploymentRecord,
                                transaction: Option<TransactionRecord>): Option<DeploymentRecord> {
    match (previous.named, TransactionNames(transaction, Rollback, previous.deploymentId))
    case (Unnamed, Unnamed) => Some(previous)
    case (Names(recorded), Names(started)) =>
      if started.generation > recorded.generation && started.configuration == recorded.configuration
      then Some(previous.(named := Names(recorded.(generation := started.generation,
                                                   descriptor := started.descriptor))))
      else None
    case (_, _) => None
  }

  /** A rollback's commit: the two records trade places. */
  function SwapActiveWithPrevious(s: AgentState, at: nat): Change {
    if s.previous.None? then Err(Unavailable)
    else
      match TakeRollbackIdentity(s.previous.value, s.inFlight)
      case None => Err(Internal)
      case Some(restored) =>
        Changed(s.(active := Some(restored.(promotedAt := Some(at))),
                   previous := s.active,
                   inFlight := RecordCommit(s.inFlight)))
  }

  const MAX_QUARANTINE: nat := 32

  function Newest(records: seq<QuarantineRecord>): seq<QuarantineRecord> {
    if |records| > MAX_QUARANTINE then records[|records| - MAX_QUARANTINE..] else records
  }

  function QuarantineInFlight(s: AgentState, error: ErrorRecord): Change {
    if s.inFlight.None? then Err(Internal)
    else
      var tx := s.inFlight.value;
      var record := QuarantineRecord(tx.transactionId, tx.deploymentId, tx.bundleDigest, tx.phase, error);
      Changed(s.(inFlight := None, candidate := None, lastError := Some(error),
                 quarantined := Newest(s.quarantined + [record])))
  }
}
