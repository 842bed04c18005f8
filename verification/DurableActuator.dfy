/** The durable actuator as an object: each method works on a copy of the tables and
    commits it through the audit, around at most one exchange with the outside. */
module DurableActuator {
  import opened Base
  import opened ActuationScope
  import opened ActuatorErrors
  import opened FeeReplacement
  import opened ActuatorTables
  import Calls = ActuatorCalls
  import opened ActuatorLog
  import opened ActuatorRuns
  import opened ActuatorInvariant
  import Transactions = ActuatorTransactions
  import Steps = ActuatorSteps
  import Outcomes = PortCallOutcome

  // ----- transactions on a working copy -----

  method Acquire(before: Tables, owner: Id, now: U64, duration: U64) returns (r: Result<Tables>)
    ensures r == Calls.AcquireBody(before, owner, now, duration)
    ensures r.Ok? ==> Steps.Acquires(before, r.value, owner, now, duration)
    ensures r.Ok? && Sound(before) ==> Sound(r.value) && Evolves(before, r.value)
  {
    hide Sound, Evolves, Steps.Acquires;
    Steps.AcquireTakes(before, owner, now, duration);
    if Sound(before) { Steps.AcquireKeeps(before, owner, now, duration); }
    var _ :- Calls.ValidTime(now, duration);
    var t :- AdvanceClock(before, now);
    var epoch: U64 := 1;
    if t.lease.Some? {
      var held := t.lease.value;
      if held.owner != owner && held.expires > now { return Err(LeaseHeld); }
      if held.owner == owner && held.expires > now {
        epoch := held.epoch;
      } else {
        if held.epoch + 1 >= U64_LIMIT { return Err(CorruptState); }
        epoch := held.epoch + 1;
      }
    }
    return Ok(t.(lease := Some(Lease(owner, epoch, now + duration))));
  }

  method Renew(before: Tables, owner: Id, epoch: U64, now: U64, duration: U64) returns (r: Result<Tables>)
    ensures r == Calls.RenewBody(before, owner, epoch, now, duration)
    ensures r.Ok? ==> && Transactions.Held(before, owner, epoch) && before.lease.value.expires > now
                      && r.value == before.(clock := Some(now), lease := Some(Lease(owner, epoch, now + duration)))
    ensures r.Ok? && Sound(before) ==> Sound(r.value) && Evolves(before, r.value)
  {
    hide Sound, Evolves;
    if Sound(before) { Steps.RenewKeeps(before, owner, epoch, now, duration); }
    var _ :- Calls.ValidTime(now, duration);
    var t :- OpenFenced(before, owner, epoch, now);
    return Ok(t.(lease := Some(t.lease.value.(expires := now + duration))));
  }

  /** Persists the exact bytes as generation zero, once. */
  method Prepare(before: Tables, owner: Id, scope: Capability, exact: ExactTx, now: U64) returns (r: Result<Tables>)
    ensures r == Calls.PrepareBody(before, owner, scope, exact, now)
    ensures Sound(before) ==> Transactions.Transacts(before, r, owner, scope.fenceEpoch)
    ensures r.Ok? ==> Transactions.Prepares(before, r.value, scope, exact)
  {
    hide Sound, Transactions.Transacts, Minted, ValidateTerminal;
    if Sound(before) { Transactions.PrepareKeeps(before, owner, scope, exact, now); }
    Transactions.PrepareAdds(before, owner, scope, exact, now);
    var _ :- ValidateTerminal(scope, exact);
    var t :- OpenScoped(before, owner, scope, now);
    var e := scope.effectId;
    if e in t.operations {
      var _ :- RequireOperationScope(t.operations[e], scope, e);
      if t.operations[e].exact != exact { return Err(IdempotencyConflict); }
      return Ok(t);
    }
    if (e, 0) in t.attempts { return Err(Storage); }
    var fee := scope.feePolicy.initialFee;
    var op := Operation(scope.routeId, scope.leg, scope.action, scope.fenceEpoch, scope, exact, 0, fee, 0, NEW);
    t := t.(operations := t.operations[e := op]);
    t := t.(attempts := t.attempts[(e, 0) := Attempt(exact, fee)]);
    return Ok(t);
  }

  /** The send intent: the choice of this effect and one more durable attempt. */
  method IntendSend(before: Tables, owner: Id, scope: Capability, now: U64) returns (r: Result<Tables>)
    ensures r == Calls.SendIntentBody(before, owner, scope, now)
    ensures Sound(before) ==> Transactions.Transacts(before, r, owner, scope.fenceEpoch)
    ensures Sound(before) && r.Ok? ==>
              && Transactions.SendIntended(before.operations, r.value.operations, scope.effectId)
              && Transactions.Chosen(r.value, scope.routeId, scope.leg, scope.action, scope.effectId)
  {
    hide Sound, Transactions.Transacts, Transactions.SendIntended, Transactions.Chosen, Minted;
    if Sound(before) { Transactions.SendIntentKeeps(before, owner, scope, now); }
    var t :- OpenScoped(before, owner, scope, now);
    var e := scope.effectId;
    var op :- LoadOperation(t, e);
    var _ :- RequireOperationScope(op, scope, e);
    if !scope.action.IsTerminal() { return Err(InvalidScope); }
    t :- Calls.ChooseTerminal(t, scope, op.exact.txid);
    if op.seen.stage.Final? { return Ok(t); }
    if op.sendAttempts + 1 >= U32_LIMIT { return Err(CorruptState); }
    t := PutOperation(t, e, op.(sendAttempts := op.sendAttempts + 1, seen := op.seen.(stage := SendAttempted)));
    return Ok(t);
  }

  /** The next generation: a new attempt, a new active transaction, the choice's txid. */
  method Replace(before: Tables, owner: Id, current: Capability, next: Capability, exact: ExactTx, now: U64)
    returns (r: Result<Tables>)
    ensures r == Calls.ReplaceBody(before, owner, current, next, exact, now)
    ensures Sound(before) ==> Transactions.Transacts(before, r, owner, current.fenceEpoch)
    ensures r.Ok? ==> Transactions.Replaces(before, r.value, current.effectId, next, exact)
  {
    hide ReplacementFee, OpenScoped, Calls.Rechosen, Sound, Transactions.Transacts, Transactions.Replaces, Minted;
    if Sound(before) { Transactions.ReplacementKeeps(before, owner, current, next, exact, now); }
    Transactions.ReplacementAdds(before, owner, current, next, exact, now);
    if !SameReplacementFamily(current, next) || next.expectedTxid != exact.txid
      || next.intentDigest != exact.intentDigest {
      return Err(UnsafeReplacement);
    }
    var t :- OpenScoped(before, owner, current, now);
    var e := current.effectId;
    var op :- LoadOperation(t, e);
    var _ :- RequireOperationScope(op, current, e);
    if !op.seen.stage.MempoolObserved? { return Err(InvalidState); }
    var fee :- ValidateReplacement(op.exact.tx, exact.tx, op.fee, current.feePolicy);
    if op.generation + 1 >= U32_LIMIT { return Err(CorruptState); }
    var generation := op.generation + 1;
    if (e, generation) in t.attempts { return Err(Storage); }
    t := t.(attempts := t.attempts[(e, generation) := Attempt(exact, fee)]);
    op := op.(scope := next, exact := exact, generation := generation, fee := fee, seen := NEW);
    t := PutOperation(t, e, op);
    t := t.(choices := Calls.Rechosen(t.choices, (next.routeId, next.leg), e, exact.txid));
    return Ok(t); // the row now matches `next`: re-reading it cannot fail
  }

  /** What the read transaction of a takeover established, if the row is still there. */
  predicate Superseded(t: Tables, scope: Scope, read: Operation) {
    && scope.effectId in t.operations && t.operations[scope.effectId] == read
    && read.fence < scope.fenceEpoch && Calls.TakeoverMatches(read.scope, scope)
  }

  /** Re-fences a row of an older epoch and persists what the chain showed. */
  method TakeOver(before: Tables, owner: Id, scope: Capability, read: Operation, lookup: Lookup, now: U64)
    returns (r: Result<Tables>)
    ensures r == Calls.TakeoverBody(before, owner, scope, read, lookup, now)
    ensures r.Ok? ==> && Transactions.RewritesOperation(before, r.value, scope.effectId)
                      && Transactions.Retaken(before.operations[scope.effectId], r.value.operations[scope.effectId],
                                              scope)
    ensures Sound(before) && Superseded(before, scope, read) ==>
              && Transactions.Transacts(before, r, owner, scope.fenceEpoch)
              && (r.Ok? ==>
                    && SameExceptFence(before.operations[scope.effectId].scope,
                                       r.value.operations[scope.effectId].scope)
                            && before.operations[scope.effectId].fence < r.value.operations[scope.effectId].fence)
  {
    hide Sound, Transactions.Transacts, Minted, MatchExceptFence, CanonicalBytes, SeenFromLookup;
    Transactions.TakeoverRewrites(before, owner, scope, read, lookup, now);
    if Sound(before) && Superseded(before, scope, read) {
      Transactions.TakeoverKeeps(before, owner, scope, lookup, now);
      TakeoverTest(read.scope, scope);
    }
    var t :- OpenFenced(before, owner, scope.fenceEpoch, now);
    var e := scope.effectId;
    if e !in t.operations || t.operations[e].fence != read.fence { return Err(StaleFencing); }
    t := PutOperation(t, e, t.operations[e].(fence := scope.fenceEpoch, scope := scope));
    r := PersistLookup(t, e, read.exact.raw, read.seen.stage, Calls.NeverSent(read), lookup,
                       scope.minimumConfirmations);
  }

  method IntendFunding(before: Tables, owner: Id, scope: Capability, a: Calls.Armed, now: U64)
    returns (r: Result<Tables>)
    ensures r == Calls.FundingIntentBody(before, owner, scope, a, now)
    ensures Sound(before) ==> Transactions.Transacts(before, r, owner, scope.fenceEpoch)
    ensures Sound(before) && r.Ok? ==> Transactions.FundingIntended(before.funding, r.value.funding, scope.effectId)
  {
    hide Sound, Transactions.Transacts, Transactions.FundingIntended, Minted;
    if Sound(before) { Transactions.FundingIntentKeeps(before, owner, scope, a, now); }
    var t :- OpenScoped(before, owner, scope, now);
    var row :- LoadFunding(t, scope.effectId, FundingNotArmed);
    if !Calls.FundingRowIs(row, scope, a) { return Err(IdempotencyConflict); }
    if row.seen.stage.Final? { return Ok(t); }
    if row.sendAttempts + 1 >= U32_LIMIT { return Err(CorruptState); }
    t := PutFunding(t, scope.effectId,
                    row.(sendAttempts := row.sendAttempts + 1, seen := row.seen.(stage := SendAttempted)));
    return Ok(t);
  }

  /** Binds participant and session; creates the transcript on first use. */
  method BindSession(before: Tables, owner: Id, s: Calls.Signing, digest: Id, now: U64) returns (r: Result<Tables>)
    ensures r == Calls.OpenSigning(before, owner, s, digest, now)
    ensures r.Ok? ==> Transactions.Binds(before, r.value, s, digest)
    ensures Sound(before) ==> Transactions.Transacts(before, r, owner, s.scope.fenceEpoch)
  {
    hide Sound, Transactions.Transacts, Transactions.Binds;
    Transactions.OpenSigningBinds(before, owner, s, digest, now);
    if Sound(before) { Transactions.OpenSigningKeeps(before, owner, s, digest, now); }
    var t :- OpenScoped(before, owner, s.scope, now);
    if t.participant.Some? && t.participant.value != s.authority.participantId { return Err(ClaimAuthorityMismatch); }
    t := t.(participant := Some(s.authority.participantId));
    var e, fence := s.scope.effectId, s.scope.fenceEpoch;
    if e in t.transcripts {
      var c := t.transcripts[e];
      if !Calls.SameClaim(c, s, digest) || c.role != s.authority.role { return Err(IdempotencyConflict); }
      if c.fence < fence { return Err(ReconciliationRequired); }
      if c.fence > fence { return Err(StaleFencing); }
    } else {
      t := PutTranscript(t, e,
                         Transcript(s.scope.routeId, fence, s.authority.participantId, s.authority.role,
                                    s.authority.authorityDigest, digest,
                                    None, None, None, None, None, None, false, now, now));
    }
    return Ok(t);
  }

  /** Reserves a port call, or finds the reservation of the same call. */
  method Reserve(before: Tables, owner: Id, lease: Calls.LeaseStatus, key: Calls.Key, now: U64)
    returns (r: Result<Tables>)
    ensures r == Calls.BeginBody(before, owner, lease, key, now)
    ensures r.Ok? ==> Transactions.Journals(before, r.value, key)
    ensures r.Ok? && (key.kind, key.attemptId) in before.journal ==> r.value.journal == before.journal
    ensures Sound(before) ==> Transactions.Transacts(before, r, owner, lease.epoch)
  {
    hide Calls.OpenJournal, Sound, Transactions.Transacts;
    Transactions.BeginJournals(before, owner, lease, key, now);
    if Sound(before) { Transactions.BeginKeeps(before, owner, lease, key, now); }
    var t :- Calls.OpenJournal(before, owner, lease, key, now);
    var k := (key.kind, key.attemptId);
    if k in t.journal {
      if !Calls.SameCall(t.journal[k], key) { return Err(IdempotencyConflict); }
    } else {
      t := t.(journal := t.journal[k := PortCall(key.requestDigest, key.locator, now, None)]);
    }
    return Ok(t);
  }

  /** The row holds this outcome, as its canonical bytes tell. */
  predicate Settled(row: PortCall, outcome: Outcomes.Outcome) {
    row.committed.Some? && Outcomes.CanonicalBytes(row.committed.value.outcome) == Outcomes.CanonicalBytes(outcome)
  }

  /** Commits an outcome to its reservation, or confirms the same outcome. */
  method Settle(before: Tables, owner: Id, lease: Calls.LeaseStatus, key: Calls.Key, outcome: Outcomes.Outcome,
                now: U64) returns (r: Result<Tables>)
    ensures r == Calls.OutcomeBody(before, owner, lease, key, outcome, now)
    ensures r.Ok? ==> && Transactions.Journals(before, r.value, key)
                      && Settled(r.value.journal[(key.kind, key.attemptId)], outcome)
    ensures r.Ok? && before.journal[(key.kind, key.attemptId)].committed.Some? ==> r.value.journal == before.journal
    ensures Sound(before) ==> Transactions.Transacts(before, r, owner, lease.epoch)
  {
    hide Calls.OpenJournal, Outcomes.CanonicalBytes, Outcomes.ValidFor, Sound, Transactions.Transacts;
    Transactions.OutcomeJournals(before, owner, lease, key, outcome, now);
    if Sound(before) { Transactions.OutcomeKeeps(before, owner, lease, key, outcome, now); }
    var _ :- Calls.ValidateKey(key);
    if !Outcomes.ValidFor(key.kind, outcome) { return Err(InvalidState); }
    var t :- Calls.OpenJournal(before, owner, lease, key, now);
    var k := (key.kind, key.attemptId);
    if k !in t.journal { return Err(InvalidState); }
    var row := t.journal[k];
    if !Calls.SameCall(row, key) { return Err(IdempotencyConflict); }
    if row.committed.Some? {
      if Outcomes.CanonicalBytes(row.committed.value.outcome) != Outcomes.CanonicalBytes(outcome) {
        return Err(IdempotencyConflict);
      }
    } else {
      t := t.(journal := t.journal[k := row.(committed := Some(Commitment(outcome, now)))]);
    }
    return Ok(t);
  }

  class Actuator {
    var tables: Tables
    const owner: Id
    ghost var log: seq<Calls.Event>

    ghost function World(): Calls.World
      reads this
    {
      Calls.World(tables, owner, log)
    }

    ghost predicate Valid()
      reads this
    {
      Safe(World())
    }

    /** Opens the tables another lifetime of the store left behind. */
    constructor (world: Calls.World, owner: Id)
      requires Safe(world)
      ensures Valid() && World() == world.(owner := owner)
    {
      this.tables := world.tables;
      this.owner := owner;
      this.log := world.log;
    }

    /** Audits a working copy and makes it durable, or leaves everything as it was. */
    method Commit(t: Tables, epoch: U64) returns (r: Result<Unit>)
      modifies this
      ensures (World(), r) == Calls.Commit(old(World()), Ok(t), epoch)
      ensures r.Ok? ==> Audit(t) && tables == t
    {
      if !Audit(t) { return Err(CorruptState); }
      tables := t;
      log := log + [Calls.Committed(epoch, owner)];
      return Ok(Unit);
    }

    method AcquireLease(now: U64, duration: U64) returns (r: Result<Calls.LeaseStatus>)
      requires Valid()
      modifies this
      ensures (World(), r) == Calls.AcquireLease(old(World()), now, duration)
      ensures Valid()
    {
      hide Audit, Safe, Calls.AcquireBody;
      Steps.AcquireFollows(World(), now, duration);
      var t :- Acquire(tables, owner, now, duration);
      var _ :- Commit(t, t.lease.value.epoch);
      return Ok(Calls.LeaseStatus(t.lease.value.epoch, t.lease.value.expires));
    }

    method RenewLease(epoch: U64, now: U64, duration: U64) returns (r: Result<Calls.LeaseStatus>)
      requires Valid()
      modifies this
      ensures (World(), r) == Calls.RenewLease(old(World()), epoch, now, duration)
      ensures Valid()
    {
      hide Audit, Safe;
      Steps.RenewFollows(World(), epoch, now, duration);
      var t :- Renew(tables, owner, epoch, now, duration);
      var _ :- Commit(t, epoch);
      return Ok(Calls.LeaseStatus(epoch, now + duration));
    }

    method PrepareTerminal(scope: Capability, exact: ExactTx, now: U64) returns (r: Result<Operation>)
      requires Valid()
      modifies this
      ensures (World(), r) == Calls.PrepareTerminal(old(World()), scope, exact, now)
      ensures Valid()
    {
      hide Audit, Safe, Minted, Calls.PrepareBody;
      Steps.PrepareNext(World(), scope, exact, now);
      var t :- Prepare(tables, owner, scope, exact, now);
      var _ :- Commit(t, scope.fenceEpoch);
      return Ok(t.operations[scope.effectId]);
    }

    /** Persist, send, acknowledge; a failed send is looked up before it is judged. */
    method BroadcastTerminal(scope: Capability, now: U64, env: Calls.SendEnv) returns (r: Result<Calls.Receipt>)
      requires Valid()
      modifies this
      ensures (World(), r) == Calls.BroadcastTerminal(old(World()), scope, now, env)
      ensures Valid()
    {
      hide Audit, Safe, Minted, Calls.SendIntentBody, Calls.AcknowledgeBody, Calls.MarkAmbiguousBody;
      Steps.BroadcastNext(World(), scope, now, env);
      if !env.verified { return Err(Rpc); }
      var e := scope.effectId;
      var t :- IntendSend(tables, owner, scope, now);
      var complete := tables.operations[e].seen.stage.Final?;
      var _ :- Commit(t, scope.fenceEpoch);
      var op := t.operations[e];
      if complete { return Ok(Calls.Receipt(e, op.exact.txid, op.exact.intentDigest, true, op.sendAttempts)); }
      if env.crash.BeforeSend? { return Err(Storage); }
      log := log + [Calls.TerminalSent(e, scope.routeId, scope.leg, scope.action, op.generation, op.exact.raw)];
      if env.crash.AfterSend? { return Err(Storage); }
      r := Acknowledge(scope, op, now, env);
    }

    method Acknowledge(scope: Capability, op: Operation, now: U64, env: Calls.SendEnv)
      returns (r: Result<Calls.Receipt>)
      modifies this
      ensures (World(), r) == Calls.Acknowledge(old(World()), scope, op, now, env)
      ensures old(Valid()) ==> Valid()
    {
      hide Audit, Safe, Minted, Calls.AcknowledgeBody, Calls.MarkAmbiguousBody;
      if Valid() { Steps.AcknowledgeNext(World(), scope, op, now, env); }
      var known;
      match env.reply {
        case Accepted(txid) =>
          if txid != op.exact.txid { return Err(TransactionMismatch); }
          known := false;
        case AlreadyKnown(txid) =>
          if txid != op.exact.txid { return Err(TransactionMismatch); }
          known := true;
        case SendFailed =>
          if env.lookup.None? { return Err(ExternalizationAmbiguous); }
          match env.lookup.value {
            case Absent(evidence) =>
              var t :- Calls.MarkAmbiguousBody(tables, owner, scope, evidence, now);
              var _ :- Commit(t, scope.fenceEpoch);
              return Err(ExternalizationAmbiguous);
            case InMempool(tx) =>
              if tx.raw != op.exact.raw { return Err(TransactionMismatch); }
            case InBlock(tx, _, _, _) =>
              if tx.raw != op.exact.raw { return Err(TransactionMismatch); }
          }
          known := true;
      }
      var t :- Calls.AcknowledgeBody(tables, owner, scope, op.exact.txid, op.exact.intentDigest, op.sendAttempts, now);
      var _ :- Commit(t, scope.fenceEpoch);
      return Ok(Calls.Receipt(scope.effectId, op.exact.txid, op.exact.intentDigest, known, op.sendAttempts));
    }

    method ReconcileTerminal(scope: Capability, now: U64, env: Calls.LookupEnv) returns (r: Result<Reconciliation>)
      requires Valid()
      modifies this
      ensures (World(), r) == Calls.ReconcileTerminal(old(World()), scope, now, env)
      ensures Valid()
      ensures r == Ok(ProvenNotExternalized) ==> NeverExternalized(old(log), scope.effectId)
    {
      hide Audit, Safe, Minted, Calls.ReadTerminal, Calls.PersistTerminalBody, ClassifyLookup, NeverExternalized;
      Steps.ReconcileNext(World(), scope, now, env);
      ProvenIsRight(World(), scope, now, env);
      if !env.verified { return Err(Rpc); }
      var op :- Calls.ReadTerminal(tables, owner, scope, now);
      if env.lookup.None? { return Err(Rpc); }
      var after :- Calls.AfterLookup(now, env);
      var answer :- ClassifyLookup(op.exact.raw, op.seen.stage, Calls.NeverSent(op), env.lookup.value,
                                   scope.minimumConfirmations);
      var t :- Calls.PersistTerminalBody(tables, owner, scope, op, env.lookup.value, after);
      var _ :- Commit(t, scope.fenceEpoch);
      log := log + [Calls.TerminalAnswered(scope.effectId, answer)];
      return Ok(answer);
    }

    method PrepareReplacement(current: Capability, next: Capability, exact: ExactTx, now: U64) returns (r: Result<Unit>)
      requires Valid()
      modifies this
      ensures (World(), r) == Calls.PrepareReplacement(old(World()), current, next, exact, now)
      ensures Valid()
    {
      hide Audit, Safe, Minted, Calls.ReplaceBody;
      Steps.ReplaceNext(World(), current, next, exact, now);
      var t :- Replace(tables, owner, current, next, exact, now);
      r := Commit(t, current.fenceEpoch);
    }

    method ReconcileTakeover(scope: Capability, now: U64, env: Calls.LookupEnv) returns (r: Result<Reconciliation>)
      requires Valid()
      modifies this
      ensures (World(), r) == Calls.ReconcileTakeover(old(World()), scope, now, env)
      ensures Valid()
      ensures r == Ok(ProvenNotExternalized) ==> NeverExternalized(old(log), scope.effectId)
    {
      hide Audit, Safe, Minted, Calls.ReadForTakeover, Calls.TakeoverBody, ClassifyLookup, NeverExternalized;
      hide Sound, Superseded, Transactions.RewritesOperation, Transactions.Retaken;
      Steps.TakeoverNext(World(), scope, now, env);
      ProvenIsRight(World(), scope, now, env);
      if !env.verified { return Err(Rpc); }
      var op :- Calls.ReadForTakeover(tables, owner, scope, now);
      if env.lookup.None? { return Err(Rpc); }
      var answer :- ClassifyLookup(op.exact.raw, op.seen.stage, Calls.NeverSent(op), env.lookup.value,
                                   scope.minimumConfirmations);
      var after :- Calls.AfterLookup(now, env);
      var t :- TakeOver(tables, owner, scope, op, env.lookup.value, after);
      var _ :- Commit(t, scope.fenceEpoch);
      log := log + [Calls.TerminalAnswered(scope.effectId, answer)];
      return Ok(answer);
    }

    // ----- funding custody -----

    method RecordFunding(scope: Capability, armed: Option<Calls.Armed>, now: U64) returns (r: Result<Unit>)
      requires Valid()
      modifies this
      ensures (World(), r) == Calls.RecordFunding(old(World()), scope, armed, now)
      ensures Valid()
    {
      hide Audit, Safe, Minted, Calls.RecordFundingBody;
      Steps.RecordFundingNext(World(), scope, armed, now);
      var t :- Calls.RecordFundingBody(tables, owner, scope, armed, now);
      r := Commit(t, scope.fenceEpoch);
    }

    method BroadcastFunding(scope: Capability, armed: Option<Calls.Armed>, now: U64, env: Calls.FundEnv)
      returns (r: Result<Calls.Receipt>)
      requires Valid()
      modifies this
      ensures (World(), r) == Calls.BroadcastFunding(old(World()), scope, armed, now, env)
      ensures Valid()
    {
      hide Audit, Safe, Minted, Calls.ValidateFunding, Calls.FundingIntentBody, Calls.FundingAcknowledgeBody;
      Steps.BroadcastFundingNext(World(), scope, armed, now, env);
      var a :- Calls.ValidateFunding(scope, armed);
      if !env.rpcMatches { return Err(RpcScopeMismatch); }
      var e := scope.effectId;
      var t :- IntendFunding(tables, owner, scope, a, now);
      var complete := tables.funding[e].seen.stage.Final?;
      var _ :- Commit(t, scope.fenceEpoch);
      var row := t.funding[e];
      if complete { return Ok(Calls.Receipt(e, row.txid, row.custodyDigest, true, row.sendAttempts)); }
      if env.crash.BeforeSend? { return Err(Storage); }
      log := log + [Calls.FundingSent(e)];
      if env.crash.AfterSend? { return Err(Storage); }
      if env.receipt.None? { return Err(LiveFunding); }
      if env.receipt.value.0 != a.txid { return Err(TransactionMismatch); }
      t :- Calls.FundingAcknowledgeBody(tables, owner, scope, row.sendAttempts, now);
      var _ :- Commit(t, scope.fenceEpoch);
      return Ok(Calls.Receipt(e, a.txid, a.custodyDigest, env.receipt.value.1, row.sendAttempts));
    }

    method ReconcileFunding(scope: Capability, now: U64, env: Calls.LookupEnv) returns (r: Result<Reconciliation>)
      requires Valid()
      modifies this
      ensures (World(), r) == Calls.ReconcileFunding(old(World()), scope, now, env)
      ensures Valid()
      ensures r == Ok(ProvenNotExternalized) ==> FundingNeverExternalized(old(log), scope.effectId)
    {
      hide Audit, Safe, Minted, Calls.ReadFunding, Calls.PersistFundingBody, ClassifyFundingInline,
           FundingNeverExternalized;
      Steps.ReconcileFundingNext(World(), scope, now, env);
      FundingProvenIsRight(World(), scope, now, env);
      if !env.verified { return Err(Rpc); }
      var row :- Calls.ReadFunding(tables, owner, scope, now);
      if env.lookup.None? { return Err(Rpc); }
      var verdict :- ClassifyFundingInline(row.txid, row.wtxid, row.seen.stage, env.lookup.value,
                                           scope.minimumConfirmations);
      var after :- Calls.AfterLookup(now, env);
      var t :- Calls.PersistFundingBody(tables, owner, scope, verdict.seen, after);
      var _ :- Commit(t, scope.fenceEpoch);
      log := log + [Calls.FundingAnswered(scope.effectId, verdict.answer)];
      return Ok(verdict.answer);
    }

    method ReconcileFundingTakeover(scope: Capability, now: U64, env: Calls.LookupEnv)
      returns (r: Result<Reconciliation>)
      requires Valid()
      modifies this
      ensures (World(), r) == Calls.ReconcileFundingTakeover(old(World()), scope, now, env)
      ensures Valid()
      ensures r == Ok(ProvenNotExternalized) ==> FundingNeverExternalized(old(log), scope.effectId)
    {
      hide Audit, Safe, Minted, Calls.ReadFundingForTakeover, Calls.FundingTakeoverBody, ClassifyFunding,
           FundingNeverExternalized;
      Steps.FundingTakeoverNext(World(), scope, now, env);
      FundingProvenIsRight(World(), scope, now, env);
      if !scope.action.Funding? { return Err(InvalidScope); }
      if !env.verified { return Err(Rpc); }
      var row :- Calls.ReadFundingForTakeover(tables, owner, scope, now);
      if env.lookup.None? { return Err(Rpc); }
      var verdict :- ClassifyFunding(row.txid, row.wtxid, row.seen.stage, env.lookup.value, scope.minimumConfirmations);
      var after :- Calls.AfterLookup(now, env);
      var t :- Calls.FundingTakeoverBody(tables, owner, scope, row, verdict.seen, after);
      var _ :- Commit(t, scope.fenceEpoch);
      log := log + [Calls.FundingAnswered(scope.effectId, verdict.answer)];
      return Ok(verdict.answer);
    }

    // ----- claim signing -----

    /** The stored nonce if there is one, else the vault's, stored before it leaves. */
    method ExposeNonce(s: Calls.Signing, now: U64, vault: Option<Calls.VaultNonce>) returns (r: Result<Bytes66>)
      requires Valid()
      modifies this
      ensures (World(), r) == Calls.ExposeNonce(old(World()), s, now, vault)
      ensures Valid()
      ensures r.Ok? ==> Steps.NonceIs(tables, s.scope.effectId, r.value)
    {
      hide Audit, Safe, Minted, Calls.RequireClaimSession, Calls.OpenSigning, Calls.NonceBody;
      Steps.NonceNext(World(), s, now, vault);
      var digest :- Calls.RequireClaimSession(s);
      var e := s.scope.effectId;
      var t :- BindSession(tables, owner, s, digest, now);
      var _ :- Commit(t, s.scope.fenceEpoch);
      var nonce := t.transcripts[e].localNonce;
      if nonce.None? {
        if vault.None? { return Err(ClaimNonceCustody); }
        var local := vault.value;
        if local.sessionDigest != digest
          || local.participantId != s.authority.participantId { return Err(ClaimAuthorityMismatch); }
        t :- Calls.NonceBody(tables, owner, s, digest, local.bytes, now);
        var _ :- Commit(t, s.scope.fenceEpoch);
        nonce := Some(local.bytes);
      }
      log := log + [Calls.NonceReturned(e, nonce.value)];
      return Ok(nonce.value);
    }

    /** Binds the remote nonce first, then returns the stored or the vault's partial. */
    method ProducePartial(s: Calls.Signing, remoteNonce: Bytes66, now: U64, vault: Option<Calls.VaultPartial>)
      returns (r: Result<Id>)
      requires Valid()
      modifies this
      ensures (World(), r) == Calls.ProducePartial(old(World()), s, remoteNonce, now, vault)
      ensures Valid()
      ensures r.Ok? ==> Steps.PartialIs(tables, s.scope.effectId, r.value)
      ensures World() != old(World()) ==> Steps.RemoteNonceIs(tables, s.scope.effectId, remoteNonce)
    {
      hide Audit, Safe, Minted, Calls.RequireClaimSession, Calls.RemoteNonceBody, Calls.PartialBody;
      Steps.PartialNext(World(), s, remoteNonce, now, vault);
      var digest :- Calls.RequireClaimSession(s);
      var e := s.scope.effectId;
      var t :- Calls.RemoteNonceBody(tables, owner, s, digest, remoteNonce, now);
      var _ :- Commit(t, s.scope.fenceEpoch);
      var c := t.transcripts[e];
      if c.localPartial.Some? {
        Steps.AuditedPartial(t, e);
        log := log + [Calls.PartialReturned(e, c.transcriptDigest.value, c.parity.value, c.localPartial.value)];
        return Ok(c.localPartial.value);
      }
      if vault.None? { return Err(ClaimNonceCustody); }
      var local := vault.value;
      if local.sessionDigest != digest
        || local.participantId != s.authority.participantId { return Err(ClaimAuthorityMismatch); }
      t :- Calls.PartialBody(tables, owner, s, digest, remoteNonce, local, now);
      var _ :- Commit(t, s.scope.fenceEpoch);
      log := log + [Calls.PartialReturned(e, local.transcriptDigest, local.parity, local.bytes)];
      return Ok(local.bytes);
    }

    /** Binds the remote partial before it is verified. */
    method AggregatePreSignature(s: Calls.Signing, remoteNonce: Bytes66, remotePartial: Id, now: U64,
                                 result: Option<Calls.Aggregate>)
      returns (r: Result<Calls.Aggregate>)
      requires Valid()
      modifies this
      ensures (World(), r) == Calls.AggregatePreSignature(old(World()), s, remoteNonce, remotePartial, now, result)
      ensures Valid()
      ensures r.Ok? ==> Steps.PreSignatureIs(tables, s.scope.effectId, r.value)
      ensures World() != old(World()) ==> Steps.RemoteIs(tables, s.scope.effectId, remoteNonce, remotePartial)
    {
      hide Audit, Safe, Minted, Calls.RequireClaimSession, Calls.RemotePartialBody, Calls.AggregateBody;
      Steps.AggregateNext(World(), s, remoteNonce, remotePartial, now, result);
      var digest :- Calls.RequireClaimSession(s);
      var t :- Calls.RemotePartialBody(tables, owner, s, digest, remoteNonce, remotePartial, now);
      var _ :- Commit(t, s.scope.fenceEpoch);
      if result.None? { return Err(ClaimCryptography); }
      var a := result.value;
      if a.sessionDigest != digest { return Err(ClaimAuthorityMismatch); }
      t :- Calls.AggregateBody(tables, owner, s, a, now);
      var _ :- Commit(t, s.scope.fenceEpoch);
      log := log + [Calls.PreSignatureReturned(s.scope.effectId, remoteNonce, remotePartial, a.transcriptDigest,
                                               a.parity)];
      return Ok(a);
    }

    method ReconcileClaimTakeover(s: Calls.Signing, now: U64) returns (r: Result<Unit>)
      requires Valid()
      modifies this
      ensures (World(), r) == Calls.ClaimTakeover(old(World()), s, now)
      ensures Valid()
    {
      hide Audit, Safe, Minted, Calls.RequireClaimSession, Calls.ClaimTakeoverBody;
      Steps.ClaimTakeoverNext(World(), s, now);
      var digest :- Calls.RequireClaimSession(s);
      var t :- Calls.ClaimTakeoverBody(tables, owner, s, digest, now);
      r := Commit(t, s.scope.fenceEpoch);
    }

    // ----- port-call journal -----

    method OperationBinding(lease: Calls.LeaseStatus, kind: Kind, effectId: Id, now: U64) returns (r: Result<Locator>)
      requires Valid()
      modifies this
      ensures (World(), r) == Calls.OperationBinding(old(World()), lease, kind, effectId, now)
      ensures Valid()
    {
      hide Audit, Safe, Calls.Binding;
      Steps.BindingNext(World(), lease, kind, effectId, now);
      var t :- AdvanceClock(tables, now);
      var locator :- Calls.Binding(t, owner, lease, kind, effectId, now);
      var _ :- Commit(t, lease.epoch);
      return Ok(locator);
    }

    /** Reserves the call, or replays its committed outcome. */
    method BeginPortCall(lease: Calls.LeaseStatus, key: Calls.Key, now: U64)
      returns (r: Result<Option<Outcomes.Outcome>>)
      requires Valid()
      modifies this
      ensures (World(), r) == Calls.BeginPortCall(old(World()), lease, key, now)
      ensures Valid()
      ensures r.Ok? ==>
                Steps.Reserved(tables, key) && r.value == Steps.Recorded(tables.journal[(key.kind, key.attemptId)])
    {
      hide Audit, Safe, Calls.BeginBody;
      Steps.BeginNext(World(), lease, key, now);
      var t :- Reserve(tables, owner, lease, key, now);
      var _ :- Commit(t, lease.epoch);
      var row := t.journal[(key.kind, key.attemptId)];
      if row.committed.None? { return Ok(None); }
      log := log + [Calls.OutcomeReturned(key.kind, key.attemptId, key.requestDigest, key.locator,
                                          row.committed.value.outcome)];
      return Ok(Some(row.committed.value.outcome));
    }

    method CommitOutcome(lease: Calls.LeaseStatus, key: Calls.Key, outcome: Outcomes.Outcome, now: U64)
      returns (r: Result<Outcomes.Outcome>)
      requires Valid()
      modifies this
      ensures (World(), r) == Calls.CommitOutcome(old(World()), lease, key, outcome, now)
      ensures Valid()
      ensures r.Ok? ==> && Steps.Reserved(tables, key) && r.value == outcome
                        && Steps.Recorded(tables.journal[(key.kind, key.attemptId)]) == Some(outcome)
    {
      hide Audit, Safe, Calls.OutcomeBody;
      Steps.OutcomeNext(World(), lease, key, outcome, now);
      var t :- Settle(tables, owner, lease, key, outcome, now);
      var _ :- Commit(t, lease.epoch);
      var committed := t.journal[(key.kind, key.attemptId)].committed.value.outcome;
      log := log + [Calls.OutcomeReturned(key.kind, key.attemptId, key.requestDigest, key.locator, committed)];
      return Ok(committed);
    }
  }
}
