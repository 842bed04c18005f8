/** The durable tables of the Bitcoin actuator, the guards its transactions share,
    and the audit that gates every commit. */
module ActuatorTables {
  import opened Base
  import opened ActuationScope
  import opened ActuatorErrors
  import opened FeeReplacement
  import Outcomes = PortCallOutcome

  type Id = Bytes32

  datatype Stage = Prepared | SendAttempted | BroadcastAcknowledged | MempoolObserved | Confirmed | Final | Ambiguous

  /** The last chain observation of a row. */
  datatype Seen = Seen(stage: Stage, confirmations: U32, blockHash: Option<Id>, blockHeight: Option<U64>,
                       evidence: Option<Id>)

  const NEW: Seen := Seen(Prepared, 0, None, None, None)

  datatype Operation = Operation(
    routeId: Id, leg: Leg, action: Action, fence: U64, scope: Scope, exact: ExactTx,
    generation: U32, fee: U64, sendAttempts: U32, seen: Seen)

  datatype FundingRow = FundingRow(
    routeId: Id, leg: Leg, fence: U64, scope: Scope, txid: Id, wtxid: Id,
    refundRecordDigest: Id, custodyDigest: Id, sendAttempts: U32, seen: Seen)

  datatype Choice = Choice(action: Action, effectId: Id, txid: Id)

  datatype Parity = Even | Odd
  datatype Role = Maker | Taker

  datatype Transcript = Transcript(
    routeId: Id, fence: U64, participantId: Id, role: Role, authorityDigest: Id, sessionDigest: Id,
    localNonce: Option<Bytes66>, remoteNonce: Option<Bytes66>, transcriptDigest: Option<Id>,
    localPartial: Option<Id>, remotePartial: Option<Id>, parity: Option<Parity>, verified: bool,
    createdAt: U64, updatedAt: U64)

  datatype Kind = TerminalKind | FundingKind

  /** The domain-separated custody commitments, kept as the facts they commit to. */
  datatype Custody =
    | TerminalCustody(scopeDigest: Id, txid: Id, wtxid: Id, intentDigest: Id, invariantDigest: Id)
    | FundingCustody(scopeDigest: Id, txid: Id, wtxid: Id, refundRecordDigest: Id, custodyDigest: Id)

  datatype Locator = Locator(kind: Kind, effectId: Id, scopeDigest: Id, custody: Custody)

  datatype Commitment = Commitment(outcome: Outcomes.Outcome, at: U64)
  datatype PortCall = PortCall(requestDigest: Id, locator: Locator, createdAt: U64, committed: Option<Commitment>)

  datatype Lease = Lease(owner: Id, epoch: U64, expires: U64)

  datatype Tables = Tables(
    clock: Option<U64>,
    lease: Option<Lease>,
    participant: Option<Id>,
    operations: map<Id, Operation>,
    attempts: map<(Id, nat), Attempt>,
    choices: map<(Id, Leg), Choice>,
    funding: map<Id, FundingRow>,
    transcripts: map<Id, Transcript>,
    journal: map<(Outcomes.CallKind, Id), PortCall>)

  const EMPTY: Tables := Tables(None, None, None, map[], map[], map[], map[], map[], map[])

  const MAX_LEASE_MS: nat := 24 * 60 * 60 * 1000
  const MAX_ROWS: nat := 1_000_000

  // ----- audit -----

  /** Block facts accompany exactly the confirmed and final stages. */
  predicate ObservationSound(seen: Seen) {
    && (seen.blockHash.Some? ==> !Zero(seen.blockHash.value))
    && (seen.evidence.Some? ==> !Zero(seen.evidence.value))
    && (seen.blockHash.Some? == seen.blockHeight.Some?)
    && if seen.stage.Confirmed? || seen.stage.Final?
       then seen.confirmations > 0 && seen.blockHash.Some? && seen.blockHeight.Some? && seen.evidence.Some?
       else seen.confirmations == 0 && seen.blockHash.None? && seen.blockHeight.None?
  }

  predicate OperationMatches(op: Operation, effectId: Id, scope: Scope) {
    && op.routeId == scope.routeId && effectId == scope.effectId && op.leg == scope.leg && op.action == scope.action
    && op.fence == scope.fenceEpoch && op.scope == scope
    && op.exact.txid == scope.expectedTxid && op.exact.intentDigest == scope.intentDigest
  }

  predicate FundingMatches(row: FundingRow, effectId: Id, scope: Scope) {
    && scope.action.Funding? && row.routeId == scope.routeId && effectId == scope.effectId && row.leg == scope.leg
    && row.fence == scope.fenceEpoch && row.txid == scope.expectedTxid && row.custodyDigest == scope.intentDigest
    && Some(row.refundRecordDigest) == scope.refundRecordDigest
  }

  function TerminalLocator(effectId: Id, op: Operation): Locator {
    Locator(TerminalKind, effectId, op.scope.scopeDigest,
            TerminalCustody(op.scope.scopeDigest, op.exact.txid, op.exact.wtxid, op.exact.intentDigest,
                            op.exact.invariantDigest))
  }

  function FundingLocator(effectId: Id, row: FundingRow): Locator {
    Locator(FundingKind, effectId, row.scope.scopeDigest,
            FundingCustody(row.scope.scopeDigest, row.txid, row.wtxid, row.refundRecordDigest, row.custodyDigest))
  }

  /** The locator of a custody row as the tables now hold it. */
  function CurrentLocator(t: Tables, kind: Kind, effectId: Id): Option<Locator> {
    match kind
    case TerminalKind => if effectId in t.operations then Some(TerminalLocator(effectId, t.operations[effectId]))
                         else None
    case FundingKind => if effectId in t.funding then Some(FundingLocator(effectId, t.funding[effectId])) else None
  }

  predicate PortCallSound(kind: Outcomes.CallKind, attemptId: Id, row: PortCall) {
    && !Zero(row.requestDigest) && !Zero(row.locator.effectId) && !Zero(row.locator.scopeDigest) && row.createdAt != 0
    && (row.committed.Some? ==>
          && row.committed.value.at >= row.createdAt
          && Outcomes.Committing(row.committed.value.outcome) && Outcomes.ValidFor(kind, row.committed.value.outcome))
  }

  predicate AuditJournal(t: Tables) {
    && |t.journal| <= MAX_ROWS
    && (forall k :: k in t.journal ==>
          && PortCallSound(k.0, k.1, t.journal[k])
          && CurrentLocator(t, t.journal[k].locator.kind, t.journal[k].locator.effectId) == Some(t.journal[k].locator))
  }

  predicate TranscriptSound(c: Transcript) {
    && !Zero(c.participantId) && !Zero(c.authorityDigest) && !Zero(c.sessionDigest)
    && 0 < c.createdAt <= c.updatedAt
    && (c.localPartial.Some? ==>
          c.localNonce.Some? && c.remoteNonce.Some? && c.transcriptDigest.Some? && c.parity.Some?)
    && (c.remotePartial.Some? ==> c.localPartial.Some? && c.remoteNonce.Some?)
    && (c.transcriptDigest.Some? == c.parity.Some?)
    && (c.verified ==> && c.localNonce.Some? && c.remoteNonce.Some? && c.localPartial.Some?
                       && c.remotePartial.Some? && c.transcriptDigest.Some? && c.parity.Some?)
  }

  predicate AuditTranscripts(t: Tables) {
    forall e :: e in t.transcripts ==>
      && TranscriptSound(t.transcripts[e])
      && t.participant == Some(t.transcripts[e].participantId)
      && (e in t.operations ==>
            && t.operations[e].routeId == t.transcripts[e].routeId && t.operations[e].fence == t.transcripts[e].fence
            && t.operations[e].action.Claim?)
  }

  predicate AuditOperations(t: Tables) {
    && (forall k :: k in t.attempts ==> k.0 in t.operations)
    && (forall k :: k in t.choices ==>
          var c := t.choices[k];
          && c.effectId in t.operations
          && var op := t.operations[c.effectId];
             op.routeId == k.0 && op.leg == k.1 && op.action == c.action && op.exact.txid == c.txid)
    && (forall e :: e in t.operations ==>
          var op := t.operations[e];
          && (e, op.generation) in t.attempts && t.attempts[(e, op.generation)] == Attempt(op.exact, op.fee)
          && ObservationSound(op.seen) && OperationMatches(op, e, op.scope))
  }

  predicate AuditFunding(t: Tables) {
    forall e :: e in t.funding ==>
      var row := t.funding[e];
      && !Zero(row.txid) && !Zero(row.wtxid) && !Zero(row.refundRecordDigest) && !Zero(row.custodyDigest)
      && ObservationSound(row.seen) && FundingMatches(row, e, row.scope)
  }

  predicate AuditSingletons(t: Tables) {
    && t.clock != Some(0)
    && (t.lease.Some? ==> !Zero(t.lease.value.owner) && t.lease.value.epoch != 0 && t.lease.value.expires != 0)
    && (t.participant.Some? ==> !Zero(t.participant.value))
    && |t.operations| + |t.attempts| + |t.choices| + |t.funding| + |t.transcripts| <= MAX_ROWS
  }

  predicate Audit(t: Tables) {
    AuditJournal(t) && AuditSingletons(t) && AuditOperations(t) && AuditTranscripts(t) && AuditFunding(t)
  }

  /** The audit run before a commit; a failure rolls the transaction back. */
  function Gate(t: Tables): Result<Tables> {
    if Audit(t) then Ok(t) else Err(CorruptState)
  }

  // ----- guards shared by the transactions -----

  function ClockAllows(t: Tables, now: U64): Result<Unit> {
    Check(now != 0 && (t.clock.Some? ==> t.clock.value <= now), InvalidTime)
  }

  function AdvanceClock(t: Tables, now: U64): Result<Tables> {
    var _ :- ClockAllows(t, now);
    Ok(t.(clock := Some(now)))
  }

  function RequireLease(t: Tables, owner: Id, epoch: U64, now: U64): Result<Unit> {
    Check(t.lease.Some? && t.lease.value.owner == owner && t.lease.value.epoch == epoch
          && t.lease.value.expires > now, StaleFencing)
  }

  function RequireScopeLease(t: Tables, owner: Id, scope: Scope, now: U64): Result<Unit> {
    var _ :- Check(scope.validUntil >= now, InvalidTime);
    RequireLease(t, owner, scope.fenceEpoch, now)
  }

  /** Clock and lease of a transaction that writes under a scope. */
  function OpenScoped(t: Tables, owner: Id, scope: Scope, now: U64): Result<Tables> {
    var t :- AdvanceClock(t, now);
    var _ :- RequireScopeLease(t, owner, scope, now);
    Ok(t)
  }

  /** Clock and lease of a transaction that writes under a bare epoch. */
  function OpenFenced(t: Tables, owner: Id, epoch: U64, now: U64): Result<Tables> {
    var t :- AdvanceClock(t, now);
    var _ :- RequireLease(t, owner, epoch, now);
    Ok(t)
  }

  function LoadOperation(t: Tables, effectId: Id): Result<Operation> {
    if effectId in t.operations then Ok(t.operations[effectId]) else Err(EffectNotFound)
  }

  function LoadFunding(t: Tables, effectId: Id, error: Error): Result<FundingRow> {
    if effectId in t.funding then Ok(t.funding[effectId]) else Err(error)
  }

  function RequireOperationScope(op: Operation, scope: Scope, effectId: Id): Result<Unit> {
    Check(OperationMatches(op, effectId, scope), IdempotencyConflict)
  }

  function PutOperation(t: Tables, effectId: Id, op: Operation): Tables {
    t.(operations := t.operations[effectId := op])
  }

  function PutFunding(t: Tables, effectId: Id, row: FundingRow): Tables {
    t.(funding := t.funding[effectId := row])
  }

  function PutTranscript(t: Tables, effectId: Id, c: Transcript): Tables {
    t.(transcripts := t.transcripts[effectId := c])
  }

  // ----- chain lookups -----

  datatype RpcTx = RpcTx(raw: Bytes, txid: Id, wtxid: Id, evidence: Id)
  datatype Lookup =
    | Absent(evidence: Id)
    | InMempool(tx: RpcTx)
    | InBlock(tx: RpcTx, blockHash: Id, blockHeight: U64, confirmations: U32)

  datatype Reconciliation =
    | ProvenNotExternalized
    | ExactMempool
    | ExactConfirmed(confirmations: U32, blockHeight: U64)
    | ExactFinal(confirmations: U32, blockHeight: U64)
    | ReconciledAmbiguous

  function RequireExact(raw: Bytes, tx: RpcTx): Result<Unit> {
    Check(tx.raw == raw && !Zero(tx.evidence), TransactionMismatch)
  }

  /** The answer a terminal lookup deserves. */
  function ClassifyLookup(raw: Bytes, oldStage: Stage, neverSent: bool, lookup: Lookup,
                          minimum: U32): Result<Reconciliation> {
    match lookup
    case Absent(evidence) =>
      var _ :- Check(!Zero(evidence), TransactionMismatch);
      Ok(if oldStage.Prepared? && neverSent then ProvenNotExternalized else ReconciledAmbiguous)
    case InMempool(tx) =>
      var _ :- RequireExact(raw, tx);
      Ok(ExactMempool)
    case InBlock(tx, blockHash, blockHeight, confirmations) =>
      var _ :- RequireExact(raw, tx);
      var _ :- Check(!Zero(blockHash) && confirmations != 0, TransactionMismatch);
      Ok(if confirmations >= minimum then ExactFinal(confirmations, blockHeight)
         else ExactConfirmed(confirmations, blockHeight))
  }

  /** The observation a terminal lookup persists. */
  function SeenFromLookup(raw: Bytes, oldStage: Stage, neverSent: bool, lookup: Lookup, minimum: U32): Result<Seen> {
    match lookup
    case Absent(evidence) =>
      var _ :- Check(!Zero(evidence), TransactionMismatch);
      Ok(Seen(if oldStage.Prepared? && neverSent then Prepared else Ambiguous, 0, None, None, Some(evidence)))
    case InMempool(tx) =>
      var _ :- RequireExact(raw, tx);
      Ok(Seen(MempoolObserved, 0, None, None, Some(tx.evidence)))
    case InBlock(tx, blockHash, blockHeight, confirmations) =>
      var _ :- RequireExact(raw, tx);
      var _ :- Check(!Zero(blockHash) && confirmations != 0, TransactionMismatch);
      Ok(Seen(if confirmations >= minimum then Final else Confirmed, confirmations, Some(blockHash), Some(blockHeight),
              Some(tx.evidence)))
  }

  /** Writes a lookup to the row that still holds the bytes looked up. */
  function PersistLookup(t: Tables, effectId: Id, raw: Bytes, oldStage: Stage, neverSent: bool, lookup: Lookup,
                         minimum: U32): Result<Tables> {
    var seen :- SeenFromLookup(raw, oldStage, neverSent, lookup, minimum);
    var _ :- Check(effectId in t.operations && t.operations[effectId].exact.raw == raw, IdempotencyConflict);
    Ok(PutOperation(t, effectId, t.operations[effectId].(seen := seen)))
  }

  datatype FundingVerdict = FundingVerdict(answer: Reconciliation, seen: Seen)

  function RequireFundingTx(tx: RpcTx, txid: Id, wtxid: Id): Result<Unit> {
    Check(tx.txid == txid && tx.wtxid == wtxid, TransactionMismatch)
  }

  function FundingMined(lookup: Lookup, minimum: U32): FundingVerdict
    requires lookup.InBlock?
  {
    var finality := lookup.confirmations >= minimum;
    FundingVerdict(
      if finality then ExactFinal(lookup.confirmations, lookup.blockHeight)
      else ExactConfirmed(lookup.confirmations, lookup.blockHeight),
      Seen(if finality then Final else Confirmed, lookup.confirmations, Some(lookup.blockHash),
           Some(lookup.blockHeight), Some(lookup.tx.evidence)))
  }

  function FundingAbsent(oldStage: Stage, evidence: Id): FundingVerdict {
    if oldStage.Prepared? then FundingVerdict(ProvenNotExternalized, Seen(oldStage, 0, None, None, Some(evidence)))
    else FundingVerdict(ReconciledAmbiguous, Seen(Ambiguous, 0, None, None, Some(evidence)))
  }

  /** The classification used by the funding takeover. */
  function ClassifyFunding(txid: Id, wtxid: Id, oldStage: Stage, lookup: Lookup, minimum: U32): Result<FundingVerdict> {
    match lookup
    case Absent(evidence) =>
      var _ :- Check(!Zero(evidence), TransactionMismatch);
      Ok(FundingAbsent(oldStage, evidence))
    case InMempool(tx) =>
      var _ :- RequireFundingTx(tx, txid, wtxid);
      var _ :- Check(!Zero(tx.evidence), TransactionMismatch);
      Ok(FundingVerdict(ExactMempool, Seen(MempoolObserved, 0, None, None, Some(tx.evidence))))
    case InBlock(tx, blockHash, _, confirmations) =>
      var _ :- RequireFundingTx(tx, txid, wtxid);
      var _ :- Check(!Zero(blockHash) && confirmations != 0, TransactionMismatch);
      var _ :- Check(!Zero(tx.evidence), TransactionMismatch);
      Ok(FundingMined(lookup, minimum))
  }

  /** The match written out in the funding reconciliation itself, which does not
      look at the block hash or at zero confirmations. */
  function ClassifyFundingInline(txid: Id, wtxid: Id, oldStage: Stage, lookup: Lookup,
                                 minimum: U32): Result<FundingVerdict> {
    match lookup
    case Absent(evidence) =>
      var _ :- Check(!Zero(evidence), TransactionMismatch);
      Ok(FundingAbsent(oldStage, evidence))
    case InMempool(tx) =>
      var _ :- RequireFundingTx(tx, txid, wtxid);
      var _ :- Check(!Zero(tx.evidence), TransactionMismatch);
      Ok(FundingVerdict(ExactMempool, Seen(MempoolObserved, 0, None, None, Some(tx.evidence))))
    case InBlock(tx, _, _, _) =>
      var _ :- RequireFundingTx(tx, txid, wtxid);
      var _ :- Check(!Zero(tx.evidence), TransactionMismatch);
      Ok(FundingMined(lookup, minimum))
  }

  // ----- what the classifications promise -----

  /** The stage that stands for an answer. */
  predicate AnswerMatches(answer: Reconciliation, seen: Seen) {
    match answer
    case ProvenNotExternalized => seen.stage.Prepared?
    case ExactMempool => seen.stage.MempoolObserved?
    case ExactConfirmed(c, h) => seen.stage.Confirmed? && seen.confirmations == c && seen.blockHeight == Some(h)
    case ExactFinal(c, h) => seen.stage.Final? && seen.confirmations == c && seen.blockHeight == Some(h)
    case ReconciledAmbiguous => seen.stage.Ambiguous?
  }

  /** Finality is judged against the frozen minimum. */
  predicate ThresholdSound(seen: Seen, minimum: U32) {
    (seen.stage.Final? ==> seen.confirmations >= minimum) && (seen.stage.Confirmed? ==> seen.confirmations < minimum)
  }

  /** The answer and the persisted observation of a terminal lookup agree, succeed
      together, and the observation passes the audit. */
  lemma LookupAnswerMatches(raw: Bytes, oldStage: Stage, neverSent: bool, lookup: Lookup, minimum: U32)
    ensures ClassifyLookup(raw, oldStage, neverSent, lookup, minimum).Ok? <==>
              SeenFromLookup(raw, oldStage, neverSent, lookup, minimum).Ok?
    ensures var answer := ClassifyLookup(raw, oldStage, neverSent, lookup, minimum);
            var seen := SeenFromLookup(raw, oldStage, neverSent, lookup, minimum);
            answer.Ok? ==> && AnswerMatches(answer.value, seen.value) && ObservationSound(seen.value)
                           && ThresholdSound(seen.value, minimum) && seen.value.evidence.Some?
  {
  }

  /** The two funding classifications accept the same rows: what the inline match
      lets through beyond the other, the audit of the row refuses. */
  lemma FundingClassificationsAgree(txid: Id, wtxid: Id, oldStage: Stage, lookup: Lookup, minimum: U32)
    ensures var inline := ClassifyFundingInline(txid, wtxid, oldStage, lookup, minimum);
            var shared := ClassifyFunding(txid, wtxid, oldStage, lookup, minimum);
            && (shared.Ok? ==> inline == shared && ObservationSound(shared.value.seen)
                               && AnswerMatches(shared.value.answer, shared.value.seen)
                               && ThresholdSound(shared.value.seen, minimum))
            && (inline.Ok? && ObservationSound(inline.value.seen) ==> shared == inline)
  {
  }
}
