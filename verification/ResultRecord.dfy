// The JSON result object that travels from the receiver to the source, and the
// replay hash that the source stores with it.

module ResultRecord {
  import opened Common

  // The field names the protocol reads or writes; every other name is Other.
  datatype Field =
    | ApprovalDecisionReplayed | ApprovalReceivedAt | ApprovalToReceiveMs
    | PrepareRecoveredAfterRestart | PrepareCreatedAt
    | MessageReceivedAt | SourceToReceiveMs
    | ReplayedResult | ResultMessageId
    | Status | IntentId | RequestSha | AttemptConsumed
    | ApprovalDecisionRecovered | ApprovalCreatedAt | EnvelopeCreatedAt
    | PreAttemptRetryCount | MarkerRecovered
    | CancellationPending | Cancellation | Official
    | PendingCancellationRecovered | RecoveredAt
    | RecoveryPublishPending | RecoveryPublishedAt
    | Other(name: string)

  datatype Value = Text(text: string) | Flag(flag: bool) | Number(number: int)

  type Record = map<Field, Value>

  const VOLATILE: set<Field> := {
    ApprovalDecisionReplayed, ApprovalReceivedAt, ApprovalToReceiveMs,
    PrepareRecoveredAfterRestart, PrepareCreatedAt,
    MessageReceivedAt, SourceToReceiveMs, ReplayedResult, ResultMessageId
  }

  // The hashed part of a record. SHA-256 is taken to be injective, so two records
  // have the same replay hash exactly when their stable parts are equal.
  function Stable(r: Record): Record {
    map f | f in r && f !in VOLATILE :: r[f]
  }

  function StatusOf(r: Record): string {
    if Status in r && r[Status].Text? then r[Status].text else ""
  }

  predicate Consumed(r: Record) {
    AttemptConsumed in r && r[AttemptConsumed] == Flag(true)
  }

  predicate CancelPending(r: Record) {
    StatusOf(r) == "accepted" && CancellationPending in r && r[CancellationPending] == Flag(true)
  }

  predicate PublishPending(r: Record) {
    RecoveryPublishPending in r && r[RecoveryPublishPending] == Flag(true)
  }

  // The record names the order it belongs to.
  predicate Names(r: Record, b: Binding) {
    && IntentId in r && r[IntentId] == Text(b.intent)
    && RequestSha in r && r[RequestSha] == Text(b.request)
  }

  // Only a consumed network attempt can be reported as accepted.
  predicate Honest(r: Record) {
    StatusOf(r) == "accepted" ==> Consumed(r)
  }

  // Writing a volatile field leaves the replay hash alone.
  lemma StableIgnoresVolatile(r: Record, f: Field, v: Value)
    requires f in VOLATILE
    ensures Stable(r[f := v]) == Stable(r)
  {
  }

}
