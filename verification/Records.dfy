/** The durable records of the agent: what `state.json` holds, which states
    decode, which state may replace which, and the generation counter. */
module Records {
  import opened Wrappers

  datatype AgentError =
    | Io
    | Internal
    | CorruptState
    | StateIndeterminate
    | Busy
    | Unavailable

  datatype Result<+T> = Ok(value: T) | Err(error: AgentError)

  /** 2^53 - 1, the largest counter value a state file carries. */
  const MAX_STATE_COUNTER: nat := 9007199254740991

  datatype Phase =
    | Received | Verified | Staged | CapacityChecked | Prepared | Warmed
    | Promoted | Active | Failed | RolledBack

  predicate IsTerminal(phase: Phase) {
    phase.Active? || phase.Failed? || phase.RolledBack?
  }

  datatype Kind = Deploy | Rollback

  /** The deployment descriptor verified for one generation. */
  datatype Identity = Identity(generation: nat, descriptor: string, configuration: string)

  /** What the three optional identity fields of a record read as: none of
      them, all of them, or a part (or a field that is malformed). */
  datatype Named = Unnamed | Names(identity: Identity) | Malformed

  datatype DeploymentRecord = DeploymentRecord(
    deploymentId: string,
    bundleDigest: string,
    stagedPath: string,
    streaming: bool,
    promotedAt: Option<nat>,
    named: Named)

  datatype ErrorCode =
    | ConfigInvalid | LoadFailed | NotReady | ShapeMismatch | Unsupported
    | OomError | Timeout | InferenceFailed | InternalError
    | Cancelled | UnavailableError | ResourceExhausted

  datatype ErrorRecord = ErrorRecord(code: ErrorCode, message: string)

  datatype TransactionRecord = TransactionRecord(
    transactionId: string,
    deploymentId: string,
    phase: Phase,
    kind: Kind,
    bundleDigest: Option<string>,
    failure: Option<ErrorRecord>,
    named: Named)

  datatype QuarantineRecord = QuarantineRecord(
    transactionId: string,
    deploymentId: string,
    bundleDigest: Option<string>,
    phase: Phase,
    error: ErrorRecord)

  datatype Version = V01 | V02

  datatype AgentState = AgentState(
    schemaVersion: Version,
    storeVersion: nat,
    active: Option<DeploymentRecord>,
    previous: Option<DeploymentRecord>,
    candidate: Option<DeploymentRecord>,
    inFlight: Option<TransactionRecord>,
    lastError: Option<ErrorRecord>,
    quarantined: seq<QuarantineRecord>,
    nextGeneration: Option<nat>)

  const Fresh := AgentState(V01, 1, None, None, None, None, None, [], None)

  predicate RecordNamesNothing(record: Option<DeploymentRecord>) {
    record.Some? ==> record.value.named.Unnamed?
  }

  predicate NamesADescriptor(s: AgentState) {
    !RecordNamesNothing(s.active) || !RecordNamesNothing(s.previous) || !RecordNamesNothing(s.candidate)
    || (s.inFlight.Some? && !s.inFlight.value.named.Unnamed?)
  }

  predicate RecordStreams(record: Option<DeploymentRecord>) {
    record.Some? && record.value.streaming
  }

  predicate LegacyCode(code: ErrorCode) {
    !(code.Cancelled? || code.UnavailableError? || code.ResourceExhausted?)
  }

  predicate LegacyError(error: Option<ErrorRecord>) {
    error.Some? ==> LegacyCode(error.value.code)
  }

  predicate UsesOnlyLegacyVocabulary(s: AgentState) {
    LegacyError(s.lastError)
    && (s.inFlight.Some? ==> LegacyError(s.inFlight.value.failure))
    && forall i :: 0 <= i < |s.quarantined| ==> LegacyCode(s.quarantined[i].error.code)
  }

  /** The oldest state version whose readers decode `s` without loss. */
  function RequiredVersion(s: AgentState): Version {
    if s.nextGeneration.Some?
       || NamesADescriptor(s)
       || RecordStreams(s.active) || RecordStreams(s.previous) || RecordStreams(s.candidate)
       || !UsesOnlyLegacyVocabulary(s)
    then V02 else V01
  }

  /** The counter a state stands at; one without a counter stands at 1. */
  function Counter(s: AgentState): nat {
    if s.nextGeneration.Some? then s.nextGeneration.value else 1
  }

  predicate IdentityAllocated(named: Named, counter: nat) {
    match named
    case Unnamed => true
    case Malformed => false
    case Names(identity) => 1 <= identity.generation <= MAX_STATE_COUNTER && identity.generation < counter
  }

  predicate RecordAllocated(record: Option<DeploymentRecord>, counter: nat) {
    record.Some? ==> IdentityAllocated(record.value.named, counter)
  }

  /** What the decoder requires of a state. */
  predicate ValidState(s: AgentState) {
    1 <= s.storeVersion
    && (s.schemaVersion.V01? ==> RequiredVersion(s).V01?)
    && (s.nextGeneration.Some? ==> 1 <= s.nextGeneration.value <= MAX_STATE_COUNTER)
    && RecordAllocated(s.active, Counter(s))
    && RecordAllocated(s.previous, Counter(s))
    && RecordAllocated(s.candidate, Counter(s))
    && (s.inFlight.Some? ==> IdentityAllocated(s.inFlight.value.named, Counter(s)))
  }

  /** The counter is never removed and never lowered. */
  predicate ValidSuccessor(current: AgentState, next: AgentState) {
    current.nextGeneration.Some? ==>
      next.nextGeneration.Some? && current.nextGeneration.value <= next.nextGeneration.value
  }

  function Max(a: nat, b: nat): nat {
    if a < b then b else a
  }

  /** The generation `allocate_generation` hands out, if the counter is not
      exhausted. */
  function NextGeneration(s: AgentState, floor: nat): Option<nat> {
    var generation := Max(Max(Counter(s), floor), 1);
    if generation >= MAX_STATE_COUNTER then None else Some(generation)
  }

  /** `s` once `generation` was handed out. */
  function Allocated(s: AgentState, generation: nat): AgentState {
    s.(nextGeneration := Some(generation + 1))
  }
}
