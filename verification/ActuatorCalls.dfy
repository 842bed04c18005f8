/** The public calls of the durable Bitcoin actuator as functions of the tables:
    every transaction body, the commit gate, the chain answers and crash points
    between two commits, and a log of everything that left the process. */
module ActuatorCalls {
  import opened Base
  import opened ActuationScope
  import opened ActuatorErrors
  import opened FeeReplacement
  import opened ActuatorTables
  import Outcomes = PortCallOutcome

  // ----- what leaves the process -----

  datatype Event =
    | TerminalSent(effectId: Id, routeId: Id, leg: Leg, action: Action, generation: U32, raw: Bytes)
    | TerminalAnswered(effectId: Id, answer: Reconciliation)
    | FundingSent(effectId: Id)
    | FundingAnswered(effectId: Id, answer: Reconciliation)
    | NonceReturned(effectId: Id, nonce: Bytes66)
    | PartialReturned(effectId: Id, transcriptDigest: Id, parity: Parity, partial: Id)
    | PreSignatureReturned(effectId: Id, remoteNonce: Bytes66, remotePartial: Id, transcriptDigest: Id, parity: Parity)
    | OutcomeReturned(kind: Outcomes.CallKind, attemptId: Id, requestDigest: Id, locator: Locator,
                      outcome: Outcomes.Outcome)
    | Committed(epoch: U64, owner: Id)

  /** One process lifetime at a time: the tables on disk, the identity of the
      process holding the exclusive lock, and the history of the store. */
  datatype World = World(tables: Tables, owner: Id, log: seq<Event>)

  const START: World := World(EMPTY, Zeros(32), [])

  /** Commits a transaction that ran under `epoch`; a refusal changes nothing. */
  function Commit(w: World, body: Result<Tables>, epoch: U64): (r: (World, Result<Unit>))
    ensures r.1.Ok? <==> body.Ok? && Audit(body.value)
    ensures if r.1.Ok? then r.0.tables == body.value else r.0 == w
  {
    match body
    case Err(e) => (w, Err(e))
    case Ok(t) =>
      match Gate(t)
      case Err(e) => (w, Err(e))
      case Ok(_) => (w.(tables := t, log := w.log + [Committed(epoch, w.owner)]), Ok(Unit))
  }

  function Emit(w: World, event: Event): World {
    w.(log := w.log + [event])
  }

  // ----- lease -----

  function ValidTime(now: U64, duration: U64): Result<Unit> {
    Check(now != 0 && 0 < duration <= MAX_LEASE_MS && now + duration < U64_LIMIT, InvalidTime)
  }

  function AcquireBody(t: Tables, owner: Id, now: U64, duration: U64): (r: Result<Tables>)
    ensures r.Ok? ==> r.value.lease.Some?
  {
    var _ :- ValidTime(now, duration);
    var t :- AdvanceClock(t, now);
    match t.lease
    case None => Ok(t.(lease := Some(Lease(owner, 1, now + duration))))
    case Some(l) =>
      var _ :- Check(l.owner == owner || l.expires <= now, LeaseHeld);
      if l.owner == owner && l.expires > now then Ok(t.(lease := Some(l.(expires := now + duration))))
      else
        var _ :- Check(l.epoch + 1 < U64_LIMIT, CorruptState);
        Ok(t.(lease := Some(Lease(owner, l.epoch + 1, now + duration))))
  }

  function RenewBody(t: Tables, owner: Id, epoch: U64, now: U64, duration: U64): Result<Tables> {
    var _ :- ValidTime(now, duration);
    var t :- OpenFenced(t, owner, epoch, now);
    Ok(t.(lease := Some(t.lease.value.(expires := now + duration))))
  }

  datatype LeaseStatus = LeaseStatus(epoch: U64, expires: U64)

  function AcquireLease(w: World, now: U64, duration: U64): (World, Result<LeaseStatus>) {
    match AcquireBody(w.tables, w.owner, now, duration)
    case Err(e) => (w, Err(e))
    case Ok(t) =>
      var (w', done) := Commit(w, Ok(t), t.lease.value.epoch);
      (w', if done.Err? then Err(done.error) else Ok(LeaseStatus(t.lease.value.epoch, t.lease.value.expires)))
  }

  function RenewLease(w: World, epoch: U64, now: U64, duration: U64): (World, Result<LeaseStatus>) {
    var body := RenewBody(w.tables, w.owner, epoch, now, duration);
    var (w', done) := Commit(w, body, epoch);
    (w', if done.Err? then Err(done.error) else Ok(LeaseStatus(epoch, now + duration)))
  }

  // ----- terminal operations -----

  function PrepareBody(t: Tables, owner: Id, scope: Scope, exact: ExactTx, now: U64): (r: Result<Tables>)
    ensures r.Ok? ==> scope.effectId in r.value.operations
  {
    var _ :- ValidateTerminal(scope, exact);
    var t :- OpenScoped(t, owner, scope, now);
    var e := scope.effectId;
    if e in t.operations then
      var op := t.operations[e];
      var _ :- RequireOperationScope(op, scope, e);
      var _ :- Check(op.exact == exact, IdempotencyConflict);
      Ok(t)
    else
      var _ :- Check((e, 0) !in t.attempts, Storage);
      var op := Operation(scope.routeId, scope.leg, scope.action, scope.fenceEpoch, scope, exact, 0,
                          scope.feePolicy.initialFee, 0, NEW);
      Ok(t.(operations := t.operations[e := op],
            attempts := t.attempts[(e, 0) := Attempt(exact, scope.feePolicy.initialFee)]))
  }

  function PrepareTerminal(w: World, scope: Capability, exact: ExactTx, now: U64): (World, Result<Operation>) {
    var (w', done) := Commit(w, PrepareBody(w.tables, w.owner, scope, exact, now), scope.fenceEpoch);
    (w', if done.Err? then Err(done.error) else Ok(w'.tables.operations[scope.effectId]))
  }

  /** At most one effect per route and leg: the first to be sent is recorded. */
  function ChooseTerminal(t: Tables, scope: Scope, txid: Id): Result<Tables> {
    var k := (scope.routeId, scope.leg);
    if k in t.choices then
      var _ :- Check(t.choices[k] == Choice(scope.action, scope.effectId, txid), TerminalConflict);
      Ok(t)
    else
      var _ :- Check(forall j :: j in t.choices ==> t.choices[j].effectId != scope.effectId, Storage);
      Ok(t.(choices := t.choices[k := Choice(scope.action, scope.effectId, txid)]))
  }

  /** First transaction of a broadcast: the send intent, persisted before the send. */
  function SendIntentBody(t: Tables, owner: Id, scope: Scope, now: U64): (r: Result<Tables>)
    ensures r.Ok? ==> scope.effectId in t.operations && scope.effectId in r.value.operations
  {
    var t :- OpenScoped(t, owner, scope, now);
    var op :- LoadOperation(t, scope.effectId);
    var _ :- RequireOperationScope(op, scope, scope.effectId);
    var _ :- Check(scope.action.IsTerminal(), InvalidScope);
    var t :- ChooseTerminal(t, scope, op.exact.txid);
    if op.seen.stage.Final? then Ok(t)
    else
      var _ :- Check(op.sendAttempts + 1 < U32_LIMIT, CorruptState);
      Ok(PutOperation(t, scope.effectId,
                      op.(sendAttempts := op.sendAttempts + 1, seen := op.seen.(stage := SendAttempted))))
  }

  /** Second transaction of a broadcast: the acknowledgement. */
  function AcknowledgeBody(t: Tables, owner: Id, scope: Scope, txid: Id, intentDigest: Id, attempt: U32,
                           now: U64): Result<Tables> {
    var t :- OpenScoped(t, owner, scope, now);
    var op :- LoadOperation(t, scope.effectId);
    var _ :- RequireOperationScope(op, scope, scope.effectId);
    var _ :- Check(op.exact.txid == txid && op.exact.intentDigest == intentDigest
                   && op.sendAttempts == attempt, IdempotencyConflict);
    Ok(PutOperation(t, scope.effectId, op.(seen := op.seen.(stage := BroadcastAcknowledged))))
  }

  function MarkAmbiguousBody(t: Tables, owner: Id, scope: Scope, evidence: Id, now: U64): Result<Tables> {
    var _ :- Check(!Zero(evidence), TransactionMismatch);
    var t :- OpenScoped(t, owner, scope, now);
    var e := scope.effectId;
    var _ :- Check(e in t.operations && t.operations[e].fence == scope.fenceEpoch, StaleFencing);
    Ok(PutOperation(t, e, t.operations[e].(seen := Seen(Ambiguous, 0, None, None, Some(evidence)))))
  }

  datatype SendReply = Accepted(txid: Id) | AlreadyKnown(txid: Id) | SendFailed
  datatype Crash = NoCrash | BeforeSend | AfterSend

  /** What the node answers to a broadcast, and where the process dies, if it does. */
  datatype SendEnv = SendEnv(verified: bool, crash: Crash, reply: SendReply, lookup: Option<Lookup>)

  datatype Receipt = Receipt(effectId: Id, txid: Id, intentDigest: Id, alreadyKnown: bool, attempt: U32)

  function BroadcastTerminal(w: World, scope: Capability, now: U64, env: SendEnv): (World, Result<Receipt>) {
    if !env.verified then (w, Err(Rpc)) else
    var e := scope.effectId;
    var (w1, done) := Commit(w, SendIntentBody(w.tables, w.owner, scope, now), scope.fenceEpoch);
    if done.Err? then (w, Err(done.error))
    else
      var op := w1.tables.operations[e];
      if w.tables.operations[e].seen.stage.Final? then
        (w1, Ok(Receipt(e, op.exact.txid, op.exact.intentDigest, true, op.sendAttempts)))
      else if env.crash.BeforeSend? then (w1, Err(Storage))
      else
        var w2 := Emit(w1, TerminalSent(e, scope.routeId, scope.leg, scope.action, op.generation, op.exact.raw));
        if env.crash.AfterSend? then (w2, Err(Storage))
        else Acknowledge(w2, scope, op, now, env)
  }

  /** From the node's reply to the receipt. */
  function Acknowledge(w: World, scope: Capability, op: Operation, now: U64, env: SendEnv): (World, Result<Receipt>) {
    var known: Result<bool> := match env.reply
      case Accepted(txid) => if txid == op.exact.txid then Ok(false) else Err(TransactionMismatch)
      case AlreadyKnown(txid) => if txid == op.exact.txid then Ok(true) else Err(TransactionMismatch)
      case SendFailed =>
        match env.lookup
        case Some(InMempool(tx)) => if tx.raw == op.exact.raw then Ok(true) else Err(TransactionMismatch)
        case Some(InBlock(tx, _, _, _)) => if tx.raw == op.exact.raw then Ok(true) else Err(TransactionMismatch)
        case _ => Err(ExternalizationAmbiguous);
    if known.Err? then
      if env.reply.SendFailed? && env.lookup.Some? && env.lookup.value.Absent? then
        var (w', done) := Commit(w, MarkAmbiguousBody(w.tables, w.owner, scope, env.lookup.value.evidence, now),
                                 scope.fenceEpoch);
        (w', if done.Err? then Err(done.error) else Err(ExternalizationAmbiguous))
      else (w, Err(known.error))
    else
      var body := AcknowledgeBody(w.tables, w.owner, scope, op.exact.txid, op.exact.intentDigest, op.sendAttempts, now);
      var (w', done) := Commit(w, body, scope.fenceEpoch);
      (w', if done.Err? then Err(done.error)
           else Ok(Receipt(scope.effectId, op.exact.txid, op.exact.intentDigest, known.value, op.sendAttempts)))
  }

  /** The node's answer to a lookup and the clock read after it; a missing answer
      or clock, like a crash at that point, ends the call without a commit. */
  datatype LookupEnv = LookupEnv(verified: bool, lookup: Option<Lookup>, after: Option<U64>)

  predicate NeverSent(op: Operation) {
    op.generation == 0 && op.sendAttempts == 0
  }

  /** Read transaction of a reconciliation. */
  function ReadTerminal(t: Tables, owner: Id, scope: Scope, now: U64): Result<Operation> {
    var _ :- ClockAllows(t, now);
    var _ :- RequireScopeLease(t, owner, scope, now);
    var op :- LoadOperation(t, scope.effectId);
    var _ :- RequireOperationScope(op, scope, scope.effectId);
    var _ :- Gate(t);
    Ok(op)
  }

  function PersistTerminalBody(t: Tables, owner: Id, scope: Scope, read: Operation, lookup: Lookup,
                               now: U64): Result<Tables> {
    var t :- OpenScoped(t, owner, scope, now);
    PersistLookup(t, scope.effectId, read.exact.raw, read.seen.stage, NeverSent(read), lookup,
                  scope.minimumConfirmations)
  }

  function AfterLookup(now: U64, env: LookupEnv): Result<U64> {
    var _ :- Check(env.after.Some?, InvalidTime);
    var _ :- Check(env.after.value >= now, InvalidTime);
    Ok(env.after.value)
  }

  function ReconcileTerminal(w: World, scope: Capability, now: U64, env: LookupEnv): (World, Result<Reconciliation>) {
    if !env.verified then (w, Err(Rpc)) else
    match ReadTerminal(w.tables, w.owner, scope, now)
    case Err(e) => (w, Err(e))
    case Ok(op) =>
      if env.lookup.None? then (w, Err(Rpc)) else
      var after := AfterLookup(now, env);
      if after.Err? then (w, Err(after.error)) else
      var answer := ClassifyLookup(op.exact.raw, op.seen.stage, NeverSent(op), env.lookup.value,
                                   scope.minimumConfirmations);
      if answer.Err? then (w, Err(answer.error)) else
      var (w', done) := Commit(w, PersistTerminalBody(w.tables, w.owner, scope, op, env.lookup.value, after.value),
                               scope.fenceEpoch);
      if done.Err? then (w', Err(done.error))
      else (Emit(w', TerminalAnswered(scope.effectId, answer.value)), Ok(answer.value))
  }

  /** The choices after a replacement: the one of this effect takes the new txid. */
  function Rechosen(choices: map<(Id, Leg), Choice>, k: (Id, Leg), e: Id, txid: Id): map<(Id, Leg), Choice> {
    if k in choices && choices[k].effectId == e then choices[k := choices[k].(txid := txid)] else choices
  }

  function ReplaceBody(t: Tables, owner: Id, current: Scope, next: Scope, exact: ExactTx, now: U64): Result<Tables> {
    var _ :- Check(SameReplacementFamily(current, next) && next.expectedTxid == exact.txid
                   && next.intentDigest == exact.intentDigest, UnsafeReplacement);
    var t :- OpenScoped(t, owner, current, now);
    var e := current.effectId;
    var op :- LoadOperation(t, e);
    var _ :- RequireOperationScope(op, current, e);
    var _ :- Check(op.seen.stage.MempoolObserved?, InvalidState);
    var fee :- ReplacementFee(op.exact.tx, exact.tx, op.fee, current.feePolicy);
    var _ :- Check(op.generation + 1 < U32_LIMIT, CorruptState);
    var generation := op.generation + 1;
    var _ :- Check((e, generation) !in t.attempts, Storage);
    var op' := op.(scope := next, exact := exact, generation := generation, fee := fee, seen := NEW);
    var choices := Rechosen(t.choices, (next.routeId, next.leg), e, exact.txid);
    var t := PutOperation(t, e, op').(attempts := t.attempts[(e, generation) := Attempt(exact, fee)],
                                      choices := choices);
    var _ :- RequireOperationScope(op', next, e);
    Ok(t)
  }

  function PrepareReplacement(w: World, current: Capability, next: Capability, exact: ExactTx,
                              now: U64): (World, Result<Unit>) {
    Commit(w, ReplaceBody(w.tables, w.owner, current, next, exact, now), current.fenceEpoch)
  }

  /** The byte-range comparison of the stored and the presented scope. */
  predicate TakeoverMatches(stored: Scope, presented: Scope) {
    MatchExceptFence(CanonicalBytes(stored), CanonicalBytes(presented))
  }

  /** Read transaction of a takeover: the row belongs to an older epoch. */
  function ReadForTakeover(t: Tables, owner: Id, scope: Scope, now: U64): Result<Operation> {
    var _ :- ClockAllows(t, now);
    var _ :- RequireLease(t, owner, scope.fenceEpoch, now);
    var op :- LoadOperation(t, scope.effectId);
    var _ :- Check(op.fence < scope.fenceEpoch, StaleFencing);
    var _ :- Gate(t);
    var _ :- Check(TakeoverMatches(op.scope, scope), IdempotencyConflict);
    Ok(op)
  }

  function TakeoverBody(t: Tables, owner: Id, scope: Scope, read: Operation, lookup: Lookup, now: U64): Result<Tables> {
    var t :- OpenFenced(t, owner, scope.fenceEpoch, now);
    var e := scope.effectId;
    var _ :- Check(e in t.operations && t.operations[e].fence == read.fence, StaleFencing);
    var t := PutOperation(t, e, t.operations[e].(fence := scope.fenceEpoch, scope := scope));
    PersistLookup(t, e, read.exact.raw, read.seen.stage, NeverSent(read), lookup, scope.minimumConfirmations)
  }

  function ReconcileTakeover(w: World, scope: Capability, now: U64, env: LookupEnv): (World, Result<Reconciliation>) {
    if !env.verified then (w, Err(Rpc)) else
    match ReadForTakeover(w.tables, w.owner, scope, now)
    case Err(e) => (w, Err(e))
    case Ok(op) =>
      if env.lookup.None? then (w, Err(Rpc)) else
      var answer := ClassifyLookup(op.exact.raw, op.seen.stage, NeverSent(op), env.lookup.value,
                                   scope.minimumConfirmations);
      if answer.Err? then (w, Err(answer.error)) else
      var after := AfterLookup(now, env);
      if after.Err? then (w, Err(after.error)) else
      var (w', done) := Commit(w, TakeoverBody(w.tables, w.owner, scope, op, env.lookup.value, after.value),
                               scope.fenceEpoch);
      if done.Err? then (w', Err(done.error))
      else (Emit(w', TerminalAnswered(scope.effectId, answer.value)), Ok(answer.value))
  }

  // ----- funding custody -----

  /** The armed funding a caller presents: its durable refund and custody facts. */
  datatype Armed = Armed(
    consistent: bool, txid: Id, wtxid: Id, refundRecordDigest: Id, custodyDigest: Id,
    contractAmount: U64, fee: U64, network: Network, genesisHash: Id, signetChallengeDigest: Id)

  function ValidateFunding(scope: Scope, armed: Option<Armed>): Result<Armed> {
    var _ :- Check(armed.Some?, FundingNotArmed);
    var a := armed.value;
    var _ :- Check(&& a.consistent && scope.action.Funding? && scope.expectedTxid == a.txid
                   && scope.intentDigest == a.custodyDigest
                   && scope.refundRecordDigest == Some(a.refundRecordDigest) && scope.contractAmount == a.contractAmount
                   && scope.feePolicy.initialFee == a.fee && scope.feePolicy.changeVout.None?
                   && scope.network == a.network && scope.genesisHash == a.genesisHash
                   && scope.signetChallengeDigest == a.signetChallengeDigest
                   && !Zero(a.custodyDigest), FundingNotArmed);
    Ok(a)
  }

  predicate FundingRowIs(row: FundingRow, scope: Scope, a: Armed) {
    && row.routeId == scope.routeId && row.leg == scope.leg && row.fence == scope.fenceEpoch && row.scope == scope
    && row.txid == a.txid && row.wtxid == a.wtxid && row.refundRecordDigest == a.refundRecordDigest
    && row.custodyDigest == a.custodyDigest
  }

  function RecordFundingBody(t: Tables, owner: Id, scope: Scope, armed: Option<Armed>, now: U64): Result<Tables> {
    var _ :- Check(scope.action.Funding?, InvalidScope);
    var a :- ValidateFunding(scope, armed);
    var t :- OpenScoped(t, owner, scope, now);
    var e := scope.effectId;
    if e in t.funding then
      var _ :- Check(FundingRowIs(t.funding[e], scope, a), IdempotencyConflict);
      Ok(t)
    else
      Ok(PutFunding(t, e, FundingRow(scope.routeId, scope.leg, scope.fenceEpoch, scope, a.txid, a.wtxid,
                                     a.refundRecordDigest, a.custodyDigest, 0, NEW)))
  }

  function RecordFunding(w: World, scope: Capability, armed: Option<Armed>, now: U64): (World, Result<Unit>) {
    Commit(w, RecordFundingBody(w.tables, w.owner, scope, armed, now), scope.fenceEpoch)
  }

  function FundingIntentBody(t: Tables, owner: Id, scope: Scope, a: Armed, now: U64): (r: Result<Tables>)
    ensures r.Ok? ==> scope.effectId in t.funding && scope.effectId in r.value.funding
  {
    var t :- OpenScoped(t, owner, scope, now);
    var row :- LoadFunding(t, scope.effectId, FundingNotArmed);
    var _ :- Check(FundingRowIs(row, scope, a), IdempotencyConflict);
    if row.seen.stage.Final? then Ok(t)
    else
      var _ :- Check(row.sendAttempts + 1 < U32_LIMIT, CorruptState);
      Ok(PutFunding(t, scope.effectId,
                    row.(sendAttempts := row.sendAttempts + 1, seen := row.seen.(stage := SendAttempted))))
  }

  function FundingAcknowledgeBody(t: Tables, owner: Id, scope: Scope, attempt: U32, now: U64): Result<Tables> {
    var t :- OpenScoped(t, owner, scope, now);
    var e := scope.effectId;
    var _ :- Check(e in t.funding && t.funding[e].fence == scope.fenceEpoch
                   && t.funding[e].sendAttempts == attempt, IdempotencyConflict);
    Ok(PutFunding(t, e, t.funding[e].(seen := t.funding[e].seen.(stage := BroadcastAcknowledged))))
  }

  /** The funding broadcaster's receipt (its transaction and whether it was known). */
  datatype FundEnv = FundEnv(rpcMatches: bool, crash: Crash, receipt: Option<(Id, bool)>)

  function BroadcastFunding(w: World, scope: Capability, armed: Option<Armed>, now: U64,
                            env: FundEnv): (World, Result<Receipt>) {
    var a := ValidateFunding(scope, armed);
    if a.Err? then (w, Err(a.error)) else
    if !env.rpcMatches then (w, Err(RpcScopeMismatch)) else
    var e := scope.effectId;
    var (w1, done) := Commit(w, FundingIntentBody(w.tables, w.owner, scope, a.value, now), scope.fenceEpoch);
    if done.Err? then (w, Err(done.error))
    else
      var row := w1.tables.funding[e];
      if w.tables.funding[e].seen.stage.Final? then (w1,
                                                     Ok(Receipt(e, row.txid, row.custodyDigest, true,
                                                                row.sendAttempts)))
      else if env.crash.BeforeSend? then (w1, Err(Storage))
      else
        var w2 := Emit(w1, FundingSent(e));
        if env.crash.AfterSend? then (w2, Err(Storage))
        else if env.receipt.None? then (w2, Err(LiveFunding))
        else if env.receipt.value.0 != a.value.txid then (w2, Err(TransactionMismatch))
        else
          var (w3, done') := Commit(w2, FundingAcknowledgeBody(w2.tables, w2.owner, scope, row.sendAttempts, now),
                                    scope.fenceEpoch);
          (w3, if done'.Err? then Err(done'.error)
               else Ok(Receipt(e, a.value.txid, a.value.custodyDigest, env.receipt.value.1, row.sendAttempts)))
  }

  function ReadFunding(t: Tables, owner: Id, scope: Scope, now: U64): Result<FundingRow> {
    var _ :- ClockAllows(t, now);
    var _ :- RequireScopeLease(t, owner, scope, now);
    var row :- LoadFunding(t, scope.effectId, EffectNotFound);
    var _ :- Check(row.scope == scope, IdempotencyConflict);
    var _ :- Gate(t);
    Ok(row)
  }

  function PersistFundingBody(t: Tables, owner: Id, scope: Scope, seen: Seen, now: U64): Result<Tables> {
    var t :- OpenScoped(t, owner, scope, now);
    var e := scope.effectId;
    var _ :- Check(e in t.funding && t.funding[e].fence == scope.fenceEpoch, StaleFencing);
    Ok(PutFunding(t, e, t.funding[e].(seen := seen)))
  }

  function ReconcileFunding(w: World, scope: Capability, now: U64, env: LookupEnv): (World, Result<Reconciliation>) {
    if !env.verified then (w, Err(Rpc)) else
    match ReadFunding(w.tables, w.owner, scope, now)
    case Err(e) => (w, Err(e))
    case Ok(row) =>
      if env.lookup.None? then (w, Err(Rpc)) else
      var verdict := ClassifyFundingInline(row.txid, row.wtxid, row.seen.stage, env.lookup.value,
                                           scope.minimumConfirmations);
      if verdict.Err? then (w, Err(verdict.error)) else
      var after := AfterLookup(now, env);
      if after.Err? then (w, Err(after.error)) else
      var (w', done) := Commit(w, PersistFundingBody(w.tables, w.owner, scope, verdict.value.seen, after.value),
                               scope.fenceEpoch);
      if done.Err? then (w', Err(done.error))
      else (Emit(w', FundingAnswered(scope.effectId, verdict.value.answer)), Ok(verdict.value.answer))
  }

  function ReadFundingForTakeover(t: Tables, owner: Id, scope: Scope, now: U64): Result<FundingRow> {
    var _ :- ClockAllows(t, now);
    var _ :- RequireLease(t, owner, scope.fenceEpoch, now);
    var row :- LoadFunding(t, scope.effectId, EffectNotFound);
    var _ :- Check(row.fence < scope.fenceEpoch, StaleFencing);
    var _ :- Gate(t);
    var _ :- Check(TakeoverMatches(row.scope, scope), IdempotencyConflict);
    Ok(row)
  }

  function FundingTakeoverBody(t: Tables, owner: Id, scope: Scope, read: FundingRow, seen: Seen,
                               now: U64): Result<Tables> {
    var t :- OpenFenced(t, owner, scope.fenceEpoch, now);
    var e := scope.effectId;
    var _ :- Check(e in t.funding && t.funding[e].fence == read.fence, StaleFencing);
    Ok(PutFunding(t, e, t.funding[e].(fence := scope.fenceEpoch, scope := scope, seen := seen)))
  }

  function ReconcileFundingTakeover(w: World, scope: Capability, now: U64,
                                    env: LookupEnv): (World, Result<Reconciliation>) {
    if !scope.action.Funding? then (w, Err(InvalidScope)) else
    if !env.verified then (w, Err(Rpc)) else
    match ReadFundingForTakeover(w.tables, w.owner, scope, now)
    case Err(e) => (w, Err(e))
    case Ok(row) =>
      if env.lookup.None? then (w, Err(Rpc)) else
      var verdict := ClassifyFunding(row.txid, row.wtxid, row.seen.stage, env.lookup.value, scope.minimumConfirmations);
      if verdict.Err? then (w, Err(verdict.error)) else
      var after := AfterLookup(now, env);
      if after.Err? then (w, Err(after.error)) else
      var (w', done) := Commit(w, FundingTakeoverBody(w.tables, w.owner, scope, row, verdict.value.seen, after.value),
                               scope.fenceEpoch);
      if done.Err? then (w', Err(done.error))
      else (Emit(w', FundingAnswered(scope.effectId, verdict.value.answer)), Ok(verdict.value.answer))
  }

  // ----- claim signing -----

  datatype Authority = Authority(participantId: Id, authorityDigest: Id, role: Role)

  /** The public session facts; its commitment ignores the fence. A missing digest
      or claim transaction stands for a session the signer refuses. */
  datatype Session = Session(
    routeId: Id, effectId: Id, fenceEpoch: U64, termsDigest: Id, registryDigest: Id, profileDigest: Id,
    deploymentDigest: Id, network: Network, funding: Outpoint, fundingAmount: U64, fee: U64, digest: Option<Id>,
    claimTxid: Option<Id>)

  datatype Signing = Signing(scope: Capability, authority: Authority, session: Session)

  function RequireClaimSession(s: Signing): Result<Id> {
    var _ :- Check(s.session.digest.Some? && s.session.claimTxid.Some?, ClaimAuthorityMismatch);
    var _ :- Check(s.scope.contractOutpoint.Some?, InvalidScope);
    var scope, session := s.scope, s.session;
    var _ :- Check(&& scope.action.Claim? && scope.routeId == session.routeId && scope.effectId == session.effectId
                   && scope.fenceEpoch == session.fenceEpoch && scope.termsDigest == session.termsDigest
                   && scope.registryDigest == session.registryDigest && scope.profileDigest == session.profileDigest
                   && scope.deploymentDigest == session.deploymentDigest && scope.network == session.network
                   && scope.expectedTxid == session.claimTxid.value && scope.intentDigest == session.digest.value
                   && scope.contractOutpoint.value == session.funding && scope.contractAmount == session.fundingAmount
                   && scope.feePolicy.initialFee == session.fee
                   && scope.feePolicy.changeVout.None?, ClaimAuthorityMismatch);
    Ok(session.digest.value)
  }

  predicate SameClaim(c: Transcript, s: Signing, digest: Id) {
    && c.routeId == s.scope.routeId && c.participantId == s.authority.participantId
    && c.authorityDigest == s.authority.authorityDigest && c.sessionDigest == digest
  }

  /** Binds the store to one participant and the effect to one session. */
  function BindIdentity(t: Tables, s: Signing, digest: Id, now: U64): Result<Tables> {
    var _ :- Check(t.participant.Some? ==> t.participant.value == s.authority.participantId, ClaimAuthorityMismatch);
    var t := t.(participant := Some(s.authority.participantId));
    var e := s.scope.effectId;
    if e in t.transcripts then
      var c := t.transcripts[e];
      var _ :- Check(SameClaim(c, s, digest) && c.role == s.authority.role, IdempotencyConflict);
      var _ :- Check(c.fence >= s.scope.fenceEpoch, ReconciliationRequired);
      var _ :- Check(c.fence <= s.scope.fenceEpoch, StaleFencing);
      Ok(t)
    else
      Ok(PutTranscript(t, e,
                       Transcript(s.scope.routeId, s.scope.fenceEpoch, s.authority.participantId, s.authority.role,
                                  s.authority.authorityDigest, digest,
                                  None, None, None, None, None, None, false, now, now)))
  }

  /** A column that is written once: unset, or already this value. */
  predicate Unset<T(==)>(column: Option<T>, value: T) {
    column.None? || column.value == value
  }

  /** Clock, lease and identity of a signing transaction. */
  function OpenSigning(t: Tables, owner: Id, s: Signing, digest: Id, now: U64): (r: Result<Tables>)
    ensures r.Ok? ==> s.scope.effectId in r.value.transcripts
  {
    var t :- OpenScoped(t, owner, s.scope, now);
    BindIdentity(t, s, digest, now)
  }

  function BindRemoteNonce(t: Tables, e: Id, remoteNonce: Bytes66, now: U64): (r: Result<Tables>)
    requires e in t.transcripts
    ensures r.Ok? ==> e in r.value.transcripts
  {
    var c := t.transcripts[e];
    var _ :- Check(Unset(c.remoteNonce, remoteNonce), IdempotencyConflict);
    Ok(PutTranscript(t, e, c.(remoteNonce := Some(remoteNonce), updatedAt := now)))
  }

  function NonceBody(t: Tables, owner: Id, s: Signing, digest: Id, bytes: Bytes66, now: U64): Result<Tables> {
    var t :- OpenSigning(t, owner, s, digest, now);
    var e := s.scope.effectId;
    var c := t.transcripts[e];
    var _ :- Check(Unset(c.localNonce, bytes), IdempotencyConflict);
    Ok(PutTranscript(t, e, c.(localNonce := Some(bytes), updatedAt := now)))
  }

  /** What the nonce vault yields, if it yields anything before a crash. */
  datatype VaultNonce = VaultNonce(sessionDigest: Id, participantId: Id, bytes: Bytes66)

  function ExposeNonce(w: World, s: Signing, now: U64, vault: Option<VaultNonce>): (World, Result<Bytes66>) {
    var digest := RequireClaimSession(s);
    if digest.Err? then (w, Err(digest.error)) else
    var e := s.scope.effectId;
    var (w1, done) := Commit(w, OpenSigning(w.tables, w.owner, s, digest.value, now), s.scope.fenceEpoch);
    if done.Err? then (w, Err(done.error))
    else if w1.tables.transcripts[e].localNonce.Some? then
      var bytes := w1.tables.transcripts[e].localNonce.value;
      (Emit(w1, NonceReturned(e, bytes)), Ok(bytes))
    else if vault.None? then (w1, Err(ClaimNonceCustody))
    else if vault.value.sessionDigest != digest.value || vault.value.participantId != s.authority.participantId
         then (w1, Err(ClaimAuthorityMismatch))
    else
      var (w2, done') := Commit(w1, NonceBody(w1.tables, w1.owner, s, digest.value, vault.value.bytes, now),
                                s.scope.fenceEpoch);
      if done'.Err? then (w2, Err(done'.error))
      else (Emit(w2, NonceReturned(e, vault.value.bytes)), Ok(vault.value.bytes))
  }

  function RemoteNonceBody(t: Tables, owner: Id, s: Signing, digest: Id, remoteNonce: Bytes66,
                           now: U64): (r: Result<Tables>)
    ensures r.Ok? ==> s.scope.effectId in r.value.transcripts
  {
    var t :- OpenSigning(t, owner, s, digest, now);
    BindRemoteNonce(t, s.scope.effectId, remoteNonce, now)
  }

  function PartialBody(t: Tables, owner: Id, s: Signing, digest: Id, remoteNonce: Bytes66, p: VaultPartial,
                       now: U64): Result<Tables> {
    var t :- RemoteNonceBody(t, owner, s, digest, remoteNonce, now);
    var e := s.scope.effectId;
    var c := t.transcripts[e];
    var _ :- Check(Unset(c.localPartial, p.bytes) && Unset(c.transcriptDigest, p.transcriptDigest)
                   && Unset(c.parity, p.parity), IdempotencyConflict);
    Ok(PutTranscript(t, e,
                     c.(localPartial := Some(p.bytes), transcriptDigest := Some(p.transcriptDigest),
                        parity := Some(p.parity), updatedAt := now)))
  }

  datatype VaultPartial = VaultPartial(sessionDigest: Id, participantId: Id, transcriptDigest: Id, parity: Parity,
                                       bytes: Id)

  function ProducePartial(w: World, s: Signing, remoteNonce: Bytes66, now: U64,
                          vault: Option<VaultPartial>): (World, Result<Id>) {
    var digest := RequireClaimSession(s);
    if digest.Err? then (w, Err(digest.error)) else
    var e := s.scope.effectId;
    var (w1, done) := Commit(w, RemoteNonceBody(w.tables, w.owner, s, digest.value, remoteNonce, now),
                             s.scope.fenceEpoch);
    if done.Err? then (w, Err(done.error))
    else if w1.tables.transcripts[e].localPartial.Some? then
      var c := w1.tables.transcripts[e];
      (Emit(w1, PartialReturned(e, c.transcriptDigest.value, c.parity.value, c.localPartial.value)),
       Ok(c.localPartial.value))
    else if vault.None? then (w1, Err(ClaimNonceCustody))
    else
      var p := vault.value;
      if p.sessionDigest != digest.value || p.participantId != s.authority.participantId
      then (w1, Err(ClaimAuthorityMismatch)) else
      var (w2, done') := Commit(w1, PartialBody(w1.tables, w1.owner, s, digest.value, remoteNonce, p, now),
                                s.scope.fenceEpoch);
      if done'.Err? then (w2, Err(done'.error))
      else (Emit(w2, PartialReturned(e, p.transcriptDigest, p.parity, p.bytes)), Ok(p.bytes))
  }

  function RemotePartialBody(t: Tables, owner: Id, s: Signing, digest: Id, remoteNonce: Bytes66, remotePartial: Id,
                             now: U64): Result<Tables> {
    var t :- RemoteNonceBody(t, owner, s, digest, remoteNonce, now);
    var e := s.scope.effectId;
    var c := t.transcripts[e];
    var _ :- Check(Unset(c.remotePartial, remotePartial), IdempotencyConflict);
    Ok(PutTranscript(t, e, c.(remotePartial := Some(remotePartial), updatedAt := now)))
  }

  datatype Aggregate = Aggregate(sessionDigest: Id, transcriptDigest: Id, parity: Parity)

  function AggregateBody(t: Tables, owner: Id, s: Signing, a: Aggregate, now: U64): Result<Tables> {
    var t :- OpenScoped(t, owner, s.scope, now);
    var e := s.scope.effectId;
    var _ :- Check(e in t.transcripts && Unset(t.transcripts[e].transcriptDigest, a.transcriptDigest)
                   && Unset(t.transcripts[e].parity, a.parity), IdempotencyConflict);
    Ok(PutTranscript(t, e,
                     t.transcripts[e].(transcriptDigest := Some(a.transcriptDigest), parity := Some(a.parity),
                                       verified := true, updatedAt := now)))
  }

  function AggregatePreSignature(w: World, s: Signing, remoteNonce: Bytes66, remotePartial: Id, now: U64,
                                 result: Option<Aggregate>): (World, Result<Aggregate>) {
    var digest := RequireClaimSession(s);
    if digest.Err? then (w, Err(digest.error)) else
    var e := s.scope.effectId;
    var (w1, done) := Commit(w, RemotePartialBody(w.tables, w.owner, s, digest.value, remoteNonce, remotePartial, now),
                             s.scope.fenceEpoch);
    if done.Err? then (w, Err(done.error))
    else if result.None? then (w1, Err(ClaimCryptography))
    else if result.value.sessionDigest != digest.value then (w1, Err(ClaimAuthorityMismatch))
    else
      var a := result.value;
      var (w2, done') := Commit(w1, AggregateBody(w1.tables, w1.owner, s, a, now), s.scope.fenceEpoch);
      if done'.Err? then (w2, Err(done'.error))
      else (Emit(w2, PreSignatureReturned(e, remoteNonce, remotePartial, a.transcriptDigest, a.parity)), Ok(a))
  }

  function ClaimTakeoverBody(t: Tables, owner: Id, s: Signing, digest: Id, now: U64): Result<Tables> {
    var t :- OpenFenced(t, owner, s.scope.fenceEpoch, now);
    var e := s.scope.effectId;
    var _ :- Check(e in t.transcripts, EffectNotFound);
    var c := t.transcripts[e];
    var _ :- Check(SameClaim(c, s, digest), IdempotencyConflict);
    var _ :- Check(c.fence < s.scope.fenceEpoch, StaleFencing);
    Ok(PutTranscript(t, e, c.(fence := s.scope.fenceEpoch, updatedAt := now)))
  }

  function ClaimTakeover(w: World, s: Signing, now: U64): (World, Result<Unit>) {
    var digest := RequireClaimSession(s);
    if digest.Err? then (w, Err(digest.error))
    else Commit(w, ClaimTakeoverBody(w.tables, w.owner, s, digest.value, now), s.scope.fenceEpoch)
  }

  // ----- port-call journal -----

  datatype Key = Key(kind: Outcomes.CallKind, attemptId: Id, requestDigest: Id, locator: Locator)

  function ValidateKey(key: Key): Result<Unit> {
    Check(!Zero(key.attemptId) && !Zero(key.requestDigest) && !Zero(key.locator.effectId)
          && !Zero(key.locator.scopeDigest), InvalidScope)
  }

  /** The atomic lease-scoped binding of a custody row; yields its locator. */
  function Binding(t: Tables, owner: Id, lease: LeaseStatus, kind: Kind, effectId: Id, now: U64): Result<Locator> {
    var _ :- Check(!Zero(effectId) && lease.expires > now, StaleFencing);
    var _ :- RequireLease(t, owner, lease.epoch, now);
    match kind
    case TerminalKind =>
      var op :- LoadOperation(t, effectId);
      var _ :- RequireScopeLease(t, owner, op.scope, now);
      var _ :- Check(OperationMatches(op, effectId, op.scope), CorruptState);
      Ok(TerminalLocator(effectId, op))
    case FundingKind =>
      var row :- LoadFunding(t, effectId, EffectNotFound);
      var _ :- RequireScopeLease(t, owner, row.scope, now);
      var _ :- Check(FundingMatches(row, effectId, row.scope), CorruptState);
      Ok(FundingLocator(effectId, row))
  }

  function OperationBinding(w: World, lease: LeaseStatus, kind: Kind, effectId: Id,
                            now: U64): (World, Result<Locator>) {
    match AdvanceClock(w.tables, now)
    case Err(e) => (w, Err(e))
    case Ok(t) =>
      match Binding(t, w.owner, lease, kind, effectId, now)
      case Err(e) => (w, Err(e))
      case Ok(locator) =>
        var (w', done) := Commit(w, Ok(t), lease.epoch);
        (w', if done.Err? then Err(done.error) else Ok(locator))
  }

  /** Clock, lease and custody binding of a journal transaction. */
  function OpenJournal(t: Tables, owner: Id, lease: LeaseStatus, key: Key, now: U64): Result<Tables> {
    var _ :- ValidateKey(key);
    var t :- AdvanceClock(t, now);
    var locator :- Binding(t, owner, lease, key.locator.kind, key.locator.effectId, now);
    var _ :- Check(locator == key.locator, IdempotencyConflict);
    Ok(t)
  }

  predicate SameCall(row: PortCall, key: Key) {
    row.requestDigest == key.requestDigest && row.locator == key.locator
  }

  function BeginBody(t: Tables, owner: Id, lease: LeaseStatus, key: Key, now: U64): (r: Result<Tables>)
    ensures r.Ok? ==> (key.kind, key.attemptId) in r.value.journal
  {
    var t :- OpenJournal(t, owner, lease, key, now);
    var k := (key.kind, key.attemptId);
    if k in t.journal then
      var _ :- Check(SameCall(t.journal[k], key), IdempotencyConflict);
      Ok(t)
    else Ok(t.(journal := t.journal[k := PortCall(key.requestDigest, key.locator, now, None)]))
  }

  /** `None` is a reserved call without an outcome. */
  function BeginPortCall(w: World, lease: LeaseStatus, key: Key, now: U64): (World, Result<Option<Outcomes.Outcome>>) {
    var k := (key.kind, key.attemptId);
    var (w', done) := Commit(w, BeginBody(w.tables, w.owner, lease, key, now), lease.epoch);
    if done.Err? then (w', Err(done.error))
    else if w'.tables.journal[k].committed.Some? then
      var outcome := w'.tables.journal[k].committed.value.outcome;
      (Emit(w', OutcomeReturned(key.kind, key.attemptId, key.requestDigest, key.locator, outcome)), Ok(Some(outcome)))
    else (w', Ok(None))
  }

  function OutcomeBody(t: Tables, owner: Id, lease: LeaseStatus, key: Key, outcome: Outcomes.Outcome,
                       now: U64): (r: Result<Tables>)
    ensures r.Ok? ==>
              (key.kind, key.attemptId) in r.value.journal && r.value.journal[(key.kind, key.attemptId)].committed.Some?
  {
    var _ :- ValidateKey(key);
    var _ :- Check(Outcomes.ValidFor(key.kind, outcome), InvalidState);
    var t :- OpenJournal(t, owner, lease, key, now);
    var k := (key.kind, key.attemptId);
    var _ :- Check(k in t.journal, InvalidState);
    var row := t.journal[k];
    var _ :- Check(SameCall(row, key), IdempotencyConflict);
    if row.committed.Some? then
      var _ :- Check(Outcomes.CanonicalBytes(row.committed.value.outcome) == Outcomes.CanonicalBytes(outcome),
                     IdempotencyConflict);
      Ok(t)
    else Ok(t.(journal := t.journal[k := row.(committed := Some(Commitment(outcome, now)))]))
  }

  function CommitOutcome(w: World, lease: LeaseStatus, key: Key, outcome: Outcomes.Outcome,
                         now: U64): (World, Result<Outcomes.Outcome>) {
    var k := (key.kind, key.attemptId);
    var (w', done) := Commit(w, OutcomeBody(w.tables, w.owner, lease, key, outcome, now), lease.epoch);
    if done.Err? then (w', Err(done.error))
    else
      var committed := w'.tables.journal[k].committed.value.outcome;
      (Emit(w', OutcomeReturned(key.kind, key.attemptId, key.requestDigest, key.locator, committed)), Ok(committed))
  }

  // ----- runs -----

  datatype Call =
    | CallRestart(owner: Id)
    | CallAcquire(now: U64, duration: U64)
    | CallRenew(epoch: U64, now: U64, duration: U64)
    | CallBinding(lease: LeaseStatus, kind: Kind, effectId: Id, now: U64)
    | CallBegin(lease: LeaseStatus, key: Key, now: U64)
    | CallOutcome(lease: LeaseStatus, key: Key, outcome: Outcomes.Outcome, now: U64)
    | CallPrepare(scope: Capability, exact: ExactTx, now: U64)
    | CallBroadcast(scope: Capability, now: U64, send: SendEnv)
    | CallReconcile(scope: Capability, now: U64, env: LookupEnv)
    | CallReplace(scope: Capability, next: Capability, exact: ExactTx, now: U64)
    | CallTakeover(scope: Capability, now: U64, env: LookupEnv)
    | CallRecordFunding(scope: Capability, armed: Option<Armed>, now: U64)
    | CallBroadcastFunding(scope: Capability, armed: Option<Armed>, now: U64, fund: FundEnv)
    | CallReconcileFunding(scope: Capability, now: U64, env: LookupEnv)
    | CallFundingTakeover(scope: Capability, now: U64, env: LookupEnv)
    | CallNonce(signing: Signing, now: U64, nonce: Option<VaultNonce>)
    | CallPartial(signing: Signing, remoteNonce: Bytes66, now: U64, partial: Option<VaultPartial>)
    | CallAggregate(signing: Signing, remoteNonce: Bytes66, remotePartial: Id, now: U64, aggregate: Option<Aggregate>)
    | CallClaimTakeover(signing: Signing, now: U64)

  function Step(w: World, call: Call): World {
    match call
    case CallRestart(owner) => w.(owner := owner)
    case CallAcquire(now, duration) => AcquireLease(w, now, duration).0
    case CallRenew(epoch, now, duration) => RenewLease(w, epoch, now, duration).0
    case CallBinding(lease, kind, effectId, now) => OperationBinding(w, lease, kind, effectId, now).0
    case CallBegin(lease, key, now) => BeginPortCall(w, lease, key, now).0
    case CallOutcome(lease, key, outcome, now) => CommitOutcome(w, lease, key, outcome, now).0
    case CallPrepare(scope, exact, now) => PrepareTerminal(w, scope, exact, now).0
    case CallBroadcast(scope, now, send) => BroadcastTerminal(w, scope, now, send).0
    case CallReconcile(scope, now, env) => ReconcileTerminal(w, scope, now, env).0
    case CallReplace(scope, next, exact, now) => PrepareReplacement(w, scope, next, exact, now).0
    case CallTakeover(scope, now, env) => ReconcileTakeover(w, scope, now, env).0
    case CallRecordFunding(scope, armed, now) => RecordFunding(w, scope, armed, now).0
    case CallBroadcastFunding(scope, armed, now, fund) => BroadcastFunding(w, scope, armed, now, fund).0
    case CallReconcileFunding(scope, now, env) => ReconcileFunding(w, scope, now, env).0
    case CallFundingTakeover(scope, now, env) => ReconcileFundingTakeover(w, scope, now, env).0
    case CallNonce(signing, now, nonce) => ExposeNonce(w, signing, now, nonce).0
    case CallPartial(signing, remoteNonce, now, partial) => ProducePartial(w, signing, remoteNonce, now, partial).0
    case CallAggregate(signing, remoteNonce, remotePartial, now, aggregate) =>
      AggregatePreSignature(w, signing, remoteNonce, remotePartial, now, aggregate).0
    case CallClaimTakeover(signing, now) => ClaimTakeover(w, signing, now).0
  }

  /** The world after a sequence of calls, of any process lifetimes. */
  function Run(w: World, calls: seq<Call>): World
    decreases |calls|
  {
    if calls == [] then w else Run(Step(w, calls[0]), calls[1..])
  }
}
