/** Every call keeps the invariant, whatever the chain, the vault and the crashes do. */
module ActuatorSteps {
  import opened Base
  import opened ActuationScope
  import opened ActuatorErrors
  import opened FeeReplacement
  import opened ActuatorTables
  import opened ActuatorCalls
  import opened ActuatorInvariant
  import opened ActuatorTransactions
  import opened ActuatorLog
  import Outcomes = PortCallOutcome

  // ----- lease -----

  /** A new lease of the same epoch keeps its owner; otherwise the epoch rises. */
  lemma LeaseKeeps(t: Tables, lease: Lease)
    requires Sound(t)
    requires t.lease.Some? ==>
               t.lease.value.epoch <= lease.epoch
                 && (t.lease.value.epoch == lease.epoch ==> t.lease.value.owner == lease.owner)
    ensures Sound(t.(lease := Some(lease))) && Evolves(t, t.(lease := Some(lease)))
  {
    hide SoundOperations, SoundChoices, SoundFunding;
  }

  lemma AcquireKeeps(t: Tables, owner: Id, now: U64, duration: U64)
    requires Sound(t)
    ensures var body := AcquireBody(t, owner, now, duration);
            body.Ok? ==> Sound(body.value) && Evolves(t, body.value) && body.value.lease.value.owner == owner
  {
    hide Sound, Evolves;
    var body := AcquireBody(t, owner, now, duration);
    if body.Ok? {
      var u := t.(clock := Some(now));
      ClockKeeps(t, now);
      LeaseKeeps(u, body.value.lease.value);
      EvolvesTransitive(t, u, body.value);
    }
  }

  /** A live lease of this owner keeps its epoch; every other acquisition opens one. */
  function NextEpoch(lease: Option<Lease>, owner: Id, now: U64): nat {
    if lease.None? then 1
    else if lease.value.owner == owner && lease.value.expires > now then lease.value.epoch
    else lease.value.epoch + 1
  }

  /** Only clock and lease change, and nobody else's live lease is taken. */
  predicate Acquires(a: Tables, b: Tables, owner: Id, now: U64, duration: U64) {
    && b == a.(clock := Some(now), lease := b.lease) && b.lease.Some?
    && b.lease.value.owner == owner && b.lease.value.epoch == NextEpoch(a.lease, owner, now)
    && b.lease.value.expires == now + duration
    && (a.lease.Some? ==> a.lease.value.owner == owner || a.lease.value.expires <= now)
  }

  lemma AcquireTakes(t: Tables, owner: Id, now: U64, duration: U64)
    ensures var body := AcquireBody(t, owner, now, duration);
            body.Ok? ==> Acquires(t, body.value, owner, now, duration)
  {
  }

  lemma AcquireFollows(w: World, now: U64, duration: U64)
    requires Safe(w)
    ensures Follows(w, AcquireLease(w, now, duration).0)
  {
    hide Sound, Audit, Evolves, LogSound, Follows, AcquireBody;
    AcquireKeeps(w.tables, w.owner, now, duration);
    match AcquireBody(w.tables, w.owner, now, duration)
    case Ok(t) => CommitFollows(w, Ok(t), t.lease.value.epoch);
    case Err(_) => NextReflexive(w); FollowsOfNext(w, w);
  }

  lemma FollowsOfNext(a: World, b: World)
    requires Next(a, b)
    ensures Follows(a, b)
  {
    hide Follows;
  }

  lemma RenewKeeps(t: Tables, owner: Id, epoch: U64, now: U64, duration: U64)
    requires Sound(t)
    ensures var body := RenewBody(t, owner, epoch, now, duration);
            body.Ok? ==> Sound(body.value) && Evolves(t, body.value) && Held(body.value, owner, epoch)
  {
    hide Sound, Evolves;
    var body := RenewBody(t, owner, epoch, now, duration);
    if body.Ok? {
      OpenFencedKeeps(t, owner, epoch, now);
      var u := t.(clock := Some(now));
      LeaseKeeps(u, body.value.lease.value);
      EvolvesTransitive(t, u, body.value);
    }
  }

  lemma RenewFollows(w: World, epoch: U64, now: U64, duration: U64)
    requires Safe(w)
    ensures Follows(w, RenewLease(w, epoch, now, duration).0)
  {
    hide Sound, Audit, Evolves, LogSound, Follows, RenewBody;
    RenewKeeps(w.tables, w.owner, epoch, now, duration);
    CommitFollows(w, RenewBody(w.tables, w.owner, epoch, now, duration), epoch);
  }

  // ----- terminal operations -----

  lemma PrepareNext(w: World, scope: Capability, exact: ExactTx, now: U64)
    requires Safe(w)
    ensures Next(w, PrepareTerminal(w, scope, exact, now).0)
  {
    hide Sound, Audit, Evolves, LogSound, Next, Kept, PrepareBody, Minted;
    PrepareKeeps(w.tables, w.owner, scope, exact, now);
    CommitNext(w, PrepareBody(w.tables, w.owner, scope, exact, now), scope.fenceEpoch);
  }

  lemma AcknowledgeNext(w: World, scope: Capability, op: Operation, now: U64, env: SendEnv)
    requires Safe(w)
    ensures Next(w, Acknowledge(w, scope, op, now, env).0)
  {
    hide Sound, Audit, Evolves, LogSound, Next, Kept, AcknowledgeBody, MarkAmbiguousBody, Minted;
    NextReflexive(w);
    AcknowledgeKeeps(w.tables, w.owner, scope, op.exact.txid, op.exact.intentDigest, op.sendAttempts, now);
    CommitNext(w, AcknowledgeBody(w.tables, w.owner, scope, op.exact.txid, op.exact.intentDigest, op.sendAttempts, now),
               scope.fenceEpoch);
    if env.lookup.Some? && env.lookup.value.Absent? {
      MarkAmbiguousKeeps(w.tables, w.owner, scope, env.lookup.value.evidence, now);
      CommitNext(w, MarkAmbiguousBody(w.tables, w.owner, scope, env.lookup.value.evidence, now), scope.fenceEpoch);
    }
  }

  /** The send that follows its committed intent is borne out by the tables. */
  lemma SendNext(w: World, scope: Capability, now: U64)
    requires Safe(w)
    requires var body := SendIntentBody(w.tables, w.owner, scope, now);
             body.Ok? && Audit(body.value) && !w.tables.operations[scope.effectId].seen.stage.Final?
    ensures var body := SendIntentBody(w.tables, w.owner, scope, now);
            var w1 := Commit(w, body, scope.fenceEpoch).0;
            var op := body.value.operations[scope.effectId];
            Next(w, Emit(w1,
                         TerminalSent(scope.effectId, scope.routeId, scope.leg, scope.action, op.generation,
                                      op.exact.raw)))
  {
    hide Sound, Audit, Evolves, SendIntentBody, Minted;
    var body := SendIntentBody(w.tables, w.owner, scope, now);
    var e := scope.effectId;
    SendIntentKeeps(w.tables, w.owner, scope, now);
    CommitNext(w, body, scope.fenceEpoch);
    var w1 := Commit(w, body, scope.fenceEpoch).0;
    var op := w1.tables.operations[e];
    ActiveAttempt(w1.tables, e);
    assert Sends(w1.log, e) < Attempted(w1.tables, e) by {
      assert Sends(w.log, e) <= Attempted(w.tables, e);
    }
    var sent := TerminalSent(e, scope.routeId, scope.leg, scope.action, op.generation, op.exact.raw);
    hide LogSound, Next, SendIntended;
    EmitNext(w1, sent);
    NextTransitive(w, w1, Emit(w1, sent));
  }

  lemma ActiveAttempt(t: Tables, e: Id)
    requires Sound(t) && e in t.operations
    ensures var op := t.operations[e];
            (e, op.generation as nat) in t.attempts
              && t.attempts[(e, op.generation as nat)] == Attempt(op.exact, op.fee)
  {
    hide Minted, Lineage;
    RowIsSound(t, e);
  }

  lemma BroadcastNext(w: World, scope: Capability, now: U64, env: SendEnv)
    requires Safe(w)
    ensures Next(w, BroadcastTerminal(w, scope, now, env).0)
  {
    hide Sound, Audit, Evolves, LogSound, Next, Kept, SendIntentBody, Acknowledge, Minted, SendIntended, Chosen;
    NextReflexive(w);
    var body := SendIntentBody(w.tables, w.owner, scope, now);
    SendIntentKeeps(w.tables, w.owner, scope, now);
    CommitNext(w, body, scope.fenceEpoch);
    var (w1, done) := Commit(w, body, scope.fenceEpoch);
    if done.Ok? && !w.tables.operations[scope.effectId].seen.stage.Final? {
      SendNext(w, scope, now);
      var op := w1.tables.operations[scope.effectId];
      var w2 := Emit(w1,
                     TerminalSent(scope.effectId, scope.routeId, scope.leg, scope.action, op.generation, op.exact.raw));
      NextSafe(w, w2);
      AcknowledgeNext(w2, scope, op, now, env);
      NextTransitive(w, w2, Acknowledge(w2, scope, op, now, env).0);
    }
  }

  lemma NextSafe(a: World, b: World)
    requires Next(a, b)
    ensures Safe(b)
  {
    hide Safe, Evolves;
  }

  /** The answer given is the stage persisted. */
  lemma PersistedAnswer(t: Tables, u: Tables, e: Id, op: Operation, lookup: Lookup, minimum: U32)
    requires PersistLookup(u, e, op.exact.raw, op.seen.stage, NeverSent(op), lookup, minimum) == Ok(t)
    ensures e in t.operations
    ensures ClassifyLookup(op.exact.raw, op.seen.stage, NeverSent(op), lookup, minimum).Ok?
    ensures AnswerMatches(ClassifyLookup(op.exact.raw, op.seen.stage, NeverSent(op), lookup, minimum).value,
                          t.operations[e].seen)
  {
    LookupAnswerMatches(op.exact.raw, op.seen.stage, NeverSent(op), lookup, minimum);
  }

  lemma AnswerNext(w: World, w1: World, e: Id, answer: Reconciliation)
    requires Safe(w) && Next(w, w1) && e in w1.tables.operations && AnswerMatches(answer, w1.tables.operations[e].seen)
    ensures Next(w, Emit(w1, TerminalAnswered(e, answer)))
  {
    hide Safe, Next;
    NextSafe(w, w1);
    EmitNext(w1, TerminalAnswered(e, answer));
    NextTransitive(w, w1, Emit(w1, TerminalAnswered(e, answer)));
  }

  lemma ReconcileNext(w: World, scope: Capability, now: U64, env: LookupEnv)
    requires Safe(w)
    ensures Next(w, ReconcileTerminal(w, scope, now, env).0)
    ensures var (w', r) := ReconcileTerminal(w, scope, now, env);
            r.Ok? ==>
                scope.effectId in w'.tables.operations
                  && AnswerMatches(r.value, w'.tables.operations[scope.effectId].seen)
  {
    hide Sound, Audit, Evolves, LogSound, Next, Kept, PersistLookup, ClassifyLookup, Minted, AnswerMatches;
    NextReflexive(w);
    var (w', r) := ReconcileTerminal(w, scope, now, env);
    var read := ReadTerminal(w.tables, w.owner, scope, now);
    if env.verified && read.Ok? && env.lookup.Some? && AfterLookup(now, env).Ok? {
      var after := AfterLookup(now, env).value;
      var body := PersistTerminalBody(w.tables, w.owner, scope, read.value, env.lookup.value, after);
      PersistTerminalKeeps(w.tables, w.owner, scope, env.lookup.value, after);
      CommitNext(w, body, scope.fenceEpoch);
      if r.Ok? {
        PersistedAnswer(body.value, w.tables.(clock := Some(after)), scope.effectId, read.value, env.lookup.value,
                        scope.minimumConfirmations);
        AnswerNext(w, Commit(w, body, scope.fenceEpoch).0, scope.effectId, r.value);
      }
    }
  }

  lemma TakeoverNext(w: World, scope: Capability, now: U64, env: LookupEnv)
    requires Safe(w)
    ensures Next(w, ReconcileTakeover(w, scope, now, env).0)
    ensures var (w', r) := ReconcileTakeover(w, scope, now, env);
            r.Ok? ==>
                scope.effectId in w'.tables.operations
                  && AnswerMatches(r.value, w'.tables.operations[scope.effectId].seen)
  {
    hide Sound, Audit, Evolves, LogSound, Next, Kept, PersistLookup, ClassifyLookup, Minted, AnswerMatches,
         TakeoverMatches;
    NextReflexive(w);
    var (w', r) := ReconcileTakeover(w, scope, now, env);
    var read := ReadForTakeover(w.tables, w.owner, scope, now);
    if env.verified && read.Ok? && env.lookup.Some? && AfterLookup(now, env).Ok? {
      var after := AfterLookup(now, env).value;
      var e := scope.effectId;
      var body := TakeoverBody(w.tables, w.owner, scope, read.value, env.lookup.value, after);
      TakeoverKeeps(w.tables, w.owner, scope, env.lookup.value, after);
      CommitNext(w, body, scope.fenceEpoch);
      if r.Ok? {
        var u := PutOperation(w.tables.(clock := Some(after)), e,
                              w.tables.operations[e].(fence := scope.fenceEpoch, scope := scope));
        PersistedAnswer(body.value, u, e, read.value, env.lookup.value, scope.minimumConfirmations);
        AnswerNext(w, Commit(w, body, scope.fenceEpoch).0, e, r.value);
      }
    }
  }

  lemma ReplaceNext(w: World, current: Capability, next: Capability, exact: ExactTx, now: U64)
    requires Safe(w)
    ensures Next(w, PrepareReplacement(w, current, next, exact, now).0)
  {
    hide Sound, Audit, Evolves, LogSound, Next, Kept, ReplaceBody, Minted;
    ReplacementKeeps(w.tables, w.owner, current, next, exact, now);
    CommitNext(w, ReplaceBody(w.tables, w.owner, current, next, exact, now), current.fenceEpoch);
  }

  // ----- funding custody -----

  lemma RecordFundingNext(w: World, scope: Capability, armed: Option<Armed>, now: U64)
    requires Safe(w)
    ensures Next(w, RecordFunding(w, scope, armed, now).0)
  {
    hide Sound, Audit, Evolves, LogSound, Next, Kept, RecordFundingBody, Minted;
    RecordFundingKeeps(w.tables, w.owner, scope, armed, now);
    CommitNext(w, RecordFundingBody(w.tables, w.owner, scope, armed, now), scope.fenceEpoch);
  }

  lemma FundingSendNext(w: World, scope: Capability, a: Armed, now: U64)
    requires Safe(w)
    requires var body := FundingIntentBody(w.tables, w.owner, scope, a, now);
             body.Ok? && Audit(body.value) && !w.tables.funding[scope.effectId].seen.stage.Final?
    ensures var w1 := Commit(w, FundingIntentBody(w.tables, w.owner, scope, a, now), scope.fenceEpoch).0;
            Next(w, Emit(w1, FundingSent(scope.effectId)))
  {
    hide Sound, Audit, Evolves, FundingIntentBody, Minted;
    var body := FundingIntentBody(w.tables, w.owner, scope, a, now);
    var e := scope.effectId;
    FundingIntentKeeps(w.tables, w.owner, scope, a, now);
    CommitNext(w, body, scope.fenceEpoch);
    var w1 := Commit(w, body, scope.fenceEpoch).0;
    assert FundingSends(w1.log, e) < FundingAttempted(w1.tables, e) by {
      assert FundingSends(w.log, e) <= FundingAttempted(w.tables, e);
    }
    hide LogSound, Next;
    EmitNext(w1, FundingSent(e));
    NextTransitive(w, w1, Emit(w1, FundingSent(e)));
  }

  lemma BroadcastFundingNext(w: World, scope: Capability, armed: Option<Armed>, now: U64, env: FundEnv)
    requires Safe(w)
    ensures Next(w, BroadcastFunding(w, scope, armed, now, env).0)
  {
    hide Sound, Audit, Evolves, LogSound, Next, Kept, FundingIntentBody, FundingAcknowledgeBody, ValidateFunding,
         Minted, FundingIntended;
    NextReflexive(w);
    var a := ValidateFunding(scope, armed);
    if a.Ok? {
      var body := FundingIntentBody(w.tables, w.owner, scope, a.value, now);
      FundingIntentKeeps(w.tables, w.owner, scope, a.value, now);
      CommitNext(w, body, scope.fenceEpoch);
      var (w1, done) := Commit(w, body, scope.fenceEpoch);
      if done.Ok? && !w.tables.funding[scope.effectId].seen.stage.Final? {
        FundingSendNext(w, scope, a.value, now);
        var w2 := Emit(w1, FundingSent(scope.effectId));
        NextSafe(w, w2);
        var attempt := w1.tables.funding[scope.effectId].sendAttempts;
        FundingAcknowledgeKeeps(w2.tables, w2.owner, scope, attempt, now);
        CommitNext(w2, FundingAcknowledgeBody(w2.tables, w2.owner, scope, attempt, now), scope.fenceEpoch);
        NextTransitive(w, w2,
                       Commit(w2, FundingAcknowledgeBody(w2.tables, w2.owner, scope, attempt, now),
                              scope.fenceEpoch).0);
      }
    }
  }

  lemma FundingAnswerNext(w: World, w1: World, e: Id, answer: Reconciliation)
    requires Safe(w) && Next(w, w1) && e in w1.tables.funding && AnswerMatches(answer, w1.tables.funding[e].seen)
    ensures Next(w, Emit(w1, FundingAnswered(e, answer)))
  {
    hide Safe, Next;
    NextSafe(w, w1);
    EmitNext(w1, FundingAnswered(e, answer));
    NextTransitive(w, w1, Emit(w1, FundingAnswered(e, answer)));
  }

  /** What a funding classification may persist. */
  lemma VerdictSound(txid: Id, wtxid: Id, oldStage: Stage, lookup: Lookup, minimum: U32)
    ensures var verdict := ClassifyFundingInline(txid, wtxid, oldStage, lookup, minimum);
            verdict.Ok? ==> && (verdict.value.seen.stage.Prepared? ==> oldStage.Prepared?)
                            && ThresholdSound(verdict.value.seen, minimum)
                            && AnswerMatches(verdict.value.answer, verdict.value.seen)
    ensures ClassifyFunding(txid, wtxid, oldStage, lookup, minimum).Ok? ==>
              ClassifyFunding(txid, wtxid, oldStage, lookup, minimum) ==
                  ClassifyFundingInline(txid, wtxid, oldStage, lookup, minimum)
  {
  }

  lemma ReconcileFundingNext(w: World, scope: Capability, now: U64, env: LookupEnv)
    requires Safe(w)
    ensures Next(w, ReconcileFunding(w, scope, now, env).0)
    ensures var (w', r) := ReconcileFunding(w, scope, now, env);
            r.Ok? ==>
                scope.effectId in w'.tables.funding && AnswerMatches(r.value, w'.tables.funding[scope.effectId].seen)
  {
    hide Sound, Audit, Evolves, LogSound, Next, Kept, ClassifyFundingInline, Minted, AnswerMatches;
    NextReflexive(w);
    var (w', r) := ReconcileFunding(w, scope, now, env);
    var read := ReadFunding(w.tables, w.owner, scope, now);
    if env.verified && read.Ok? && env.lookup.Some? && AfterLookup(now, env).Ok? {
      var after := AfterLookup(now, env).value;
      var verdict := ClassifyFundingInline(read.value.txid, read.value.wtxid, read.value.seen.stage, env.lookup.value,
                                           scope.minimumConfirmations);
      VerdictSound(read.value.txid, read.value.wtxid, read.value.seen.stage, env.lookup.value,
                   scope.minimumConfirmations);
      if verdict.Ok? {
        var body := PersistFundingBody(w.tables, w.owner, scope, verdict.value.seen, after);
        PersistFundingKeeps(w.tables, w.owner, scope, verdict.value.seen, after);
        CommitNext(w, body, scope.fenceEpoch);
        if r.Ok? { FundingAnswerNext(w, Commit(w, body, scope.fenceEpoch).0, scope.effectId, r.value); }
      }
    }
  }

  lemma FundingTakeoverNext(w: World, scope: Capability, now: U64, env: LookupEnv)
    requires Safe(w)
    ensures Next(w, ReconcileFundingTakeover(w, scope, now, env).0)
    ensures var (w', r) := ReconcileFundingTakeover(w, scope, now, env);
            r.Ok? ==>
                scope.effectId in w'.tables.funding && AnswerMatches(r.value, w'.tables.funding[scope.effectId].seen)
  {
    hide Sound, Audit, Evolves, LogSound, Next, Kept, ClassifyFunding, ClassifyFundingInline, Minted, AnswerMatches,
         TakeoverMatches;
    NextReflexive(w);
    var (w', r) := ReconcileFundingTakeover(w, scope, now, env);
    var read := ReadFundingForTakeover(w.tables, w.owner, scope, now);
    if env.verified && read.Ok? && env.lookup.Some? && AfterLookup(now, env).Ok? {
      var after := AfterLookup(now, env).value;
      var verdict := ClassifyFunding(read.value.txid, read.value.wtxid, read.value.seen.stage, env.lookup.value,
                                     scope.minimumConfirmations);
      VerdictSound(read.value.txid, read.value.wtxid, read.value.seen.stage, env.lookup.value,
                   scope.minimumConfirmations);
      if verdict.Ok? {
        var body := FundingTakeoverBody(w.tables, w.owner, scope, read.value, verdict.value.seen, after);
        FundingTakeoverKeeps(w.tables, w.owner, scope, verdict.value.seen, after);
        CommitNext(w, body, scope.fenceEpoch);
        if r.Ok? { FundingAnswerNext(w, Commit(w, body, scope.fenceEpoch).0, scope.effectId, r.value); }
      }
    }
  }

  // ----- claim signing -----

  lemma ReturnNext(w: World, w1: World, event: Event)
    requires Safe(w) && Next(w, w1) && EventSound(w1.tables, event)
    requires event.NonceReturned? || event.PartialReturned? || event.PreSignatureReturned? || event.OutcomeReturned?
    ensures Next(w, Emit(w1, event))
  {
    hide Safe, Next, EventSound;
    NextSafe(w, w1);
    EmitNext(w1, event);
    NextTransitive(w, w1, Emit(w1, event));
  }

  predicate NonceIs(t: Tables, e: Id, bytes: Bytes66) {
    e in t.transcripts && t.transcripts[e].localNonce == Some(bytes)
  }

  predicate RemoteNonceIs(t: Tables, e: Id, remoteNonce: Bytes66) {
    e in t.transcripts && t.transcripts[e].remoteNonce == Some(remoteNonce)
  }

  predicate PartialIs(t: Tables, e: Id, bytes: Id) {
    && e in t.transcripts && t.transcripts[e].localPartial == Some(bytes)
    && t.transcripts[e].transcriptDigest.Some? && t.transcripts[e].parity.Some?
  }

  predicate RemoteIs(t: Tables, e: Id, remoteNonce: Bytes66, remotePartial: Id) {
    RemoteNonceIs(t, e, remoteNonce) && t.transcripts[e].remotePartial == Some(remotePartial)
  }

  predicate PreSignatureIs(t: Tables, e: Id, a: Aggregate) {
    && e in t.transcripts && t.transcripts[e].verified
    && t.transcripts[e].transcriptDigest == Some(a.transcriptDigest) && t.transcripts[e].parity == Some(a.parity)
  }

  /** The nonce returned is the one the transcript holds. */
  lemma NonceNext(w: World, s: Signing, now: U64, vault: Option<VaultNonce>)
    requires Safe(w)
    ensures var (after, r) := ExposeNonce(w, s, now, vault);
            && Next(w, after)
            && (r.Ok? ==> NonceIs(after.tables, s.scope.effectId, r.value))
  {
    hide Sound, Audit, Evolves, LogSound, Next, Kept, OpenSigning, NonceBody, RequireClaimSession;
    NextReflexive(w);
    var digest := RequireClaimSession(s);
    if digest.Ok? {
      var e := s.scope.effectId;
      var body := OpenSigning(w.tables, w.owner, s, digest.value, now);
      OpenSigningKeeps(w.tables, w.owner, s, digest.value, now);
      CommitNext(w, body, s.scope.fenceEpoch);
      var (w1, done) := Commit(w, body, s.scope.fenceEpoch);
      if done.Ok? && w1.tables.transcripts[e].localNonce.Some? {
        ReturnNext(w, w1, NonceReturned(e, w1.tables.transcripts[e].localNonce.value));
      } else if done.Ok? && vault.Some? {
        NextSafe(w, w1);
        var bytes := vault.value.bytes;
        var body' := NonceBody(w1.tables, w1.owner, s, digest.value, bytes, now);
        NonceKeeps(w1.tables, w1.owner, s, digest.value, bytes, now);
        CommitNext(w1, body', s.scope.fenceEpoch);
        var (w2, done') := Commit(w1, body', s.scope.fenceEpoch);
        NextTransitive(w, w1, w2);
        if done'.Ok? { ReturnNext(w, w2, NonceReturned(e, bytes)); }
      }
    }
  }

  lemma AuditedPartial(t: Tables, e: Id)
    requires Audit(t) && e in t.transcripts && t.transcripts[e].localPartial.Some?
    ensures t.transcripts[e].transcriptDigest.Some? && t.transcripts[e].parity.Some?
  {
  }

  /** The remote nonce is bound before anything else, and the partial signature
      returned is the one the transcript holds. */
  lemma PartialNext(w: World, s: Signing, remoteNonce: Bytes66, now: U64, vault: Option<VaultPartial>)
    requires Safe(w)
    ensures var (after, r) := ProducePartial(w, s, remoteNonce, now, vault);
            && Next(w, after)
            && (after != w ==> RemoteNonceIs(after.tables, s.scope.effectId, remoteNonce))
            && (r.Ok? ==> PartialIs(after.tables, s.scope.effectId, r.value))
  {
    hide Sound, Audit, Evolves, LogSound, Next, Kept, RemoteNonceBody, PartialBody, RequireClaimSession;
    NextReflexive(w);
    var digest := RequireClaimSession(s);
    if digest.Ok? {
      var e := s.scope.effectId;
      var body := RemoteNonceBody(w.tables, w.owner, s, digest.value, remoteNonce, now);
      RemoteNonceKeeps(w.tables, w.owner, s, digest.value, remoteNonce, now);
      CommitNext(w, body, s.scope.fenceEpoch);
      var (w1, done) := Commit(w, body, s.scope.fenceEpoch);
      if done.Ok? && w1.tables.transcripts[e].localPartial.Some? {
        AuditedPartial(w1.tables, e);
        var c := w1.tables.transcripts[e];
        ReturnNext(w, w1, PartialReturned(e, c.transcriptDigest.value, c.parity.value, c.localPartial.value));
      } else if done.Ok? && vault.Some? {
        NextSafe(w, w1);
        var p := vault.value;
        var body' := PartialBody(w1.tables, w1.owner, s, digest.value, remoteNonce, p, now);
        PartialKeeps(w1.tables, w1.owner, s, digest.value, remoteNonce, p, now);
        CommitNext(w1, body', s.scope.fenceEpoch);
        var (w2, done') := Commit(w1, body', s.scope.fenceEpoch);
        NextTransitive(w, w1, w2);
        if done'.Ok? { ReturnNext(w, w2, PartialReturned(e, p.transcriptDigest, p.parity, p.bytes)); }
      }
    }
  }

  /** The remote nonce and partial are bound before the aggregation is recorded, and
      the pre-signature returned is the one the transcript marks verified. */
  lemma AggregateNext(w: World, s: Signing, remoteNonce: Bytes66, remotePartial: Id, now: U64,
                      result: Option<Aggregate>)
    requires Safe(w)
    ensures var (after, r) := AggregatePreSignature(w, s, remoteNonce, remotePartial, now, result);
            && Next(w, after)
            && (after != w ==> RemoteIs(after.tables, s.scope.effectId, remoteNonce, remotePartial))
            && (r.Ok? ==> PreSignatureIs(after.tables, s.scope.effectId, r.value))
  {
    hide Sound, Audit, Evolves, LogSound, Next, Kept, RemotePartialBody, AggregateBody, RequireClaimSession;
    NextReflexive(w);
    var digest := RequireClaimSession(s);
    if digest.Ok? {
      var e := s.scope.effectId;
      var body := RemotePartialBody(w.tables, w.owner, s, digest.value, remoteNonce, remotePartial, now);
      RemotePartialKeeps(w.tables, w.owner, s, digest.value, remoteNonce, remotePartial, now);
      CommitNext(w, body, s.scope.fenceEpoch);
      var (w1, done) := Commit(w, body, s.scope.fenceEpoch);
      if done.Ok? && result.Some? {
        NextSafe(w, w1);
        var a := result.value;
        var body' := AggregateBody(w1.tables, w1.owner, s, a, now);
        AggregateKeeps(w1.tables, w1.owner, s, a, now);
        CommitNext(w1, body', s.scope.fenceEpoch);
        var (w2, done') := Commit(w1, body', s.scope.fenceEpoch);
        NextTransitive(w, w1, w2);
        if done'.Ok? { ReturnNext(w, w2,
                                  PreSignatureReturned(e, remoteNonce, remotePartial, a.transcriptDigest, a.parity)); }
      }
    }
  }

  lemma ClaimTakeoverNext(w: World, s: Signing, now: U64)
    requires Safe(w)
    ensures Next(w, ClaimTakeover(w, s, now).0)
  {
    hide Sound, Audit, Evolves, LogSound, Next, Kept, ClaimTakeoverBody, RequireClaimSession;
    NextReflexive(w);
    var digest := RequireClaimSession(s);
    if digest.Ok? {
      ClaimTakeoverKeeps(w.tables, w.owner, s, digest.value, now);
      CommitNext(w, ClaimTakeoverBody(w.tables, w.owner, s, digest.value, now), s.scope.fenceEpoch);
    }
  }

  // ----- port-call journal -----

  lemma BindingNext(w: World, lease: LeaseStatus, kind: Kind, effectId: Id, now: U64)
    requires Safe(w)
    ensures Next(w, OperationBinding(w, lease, kind, effectId, now).0)
  {
    hide Sound, Audit, Evolves, LogSound, Next;
    NextReflexive(w);
    match AdvanceClock(w.tables, now)
    case Err(_) =>
    case Ok(t) =>
      ClockKeeps(w.tables, now);
      if Binding(t, w.owner, lease, kind, effectId, now).Ok? { CommitNext(w, Ok(t), lease.epoch); }
  }

  /** A committed row is valid for its kind. */
  lemma CommittedOutcome(t: Tables, key: Key)
    requires Audit(t) && (key.kind, key.attemptId) in t.journal && SameCall(t.journal[(key.kind, key.attemptId)], key)
    requires t.journal[(key.kind, key.attemptId)].committed.Some?
    ensures EventSound(t,
                       OutcomeReturned(key.kind, key.attemptId, key.requestDigest, key.locator,
                                       t.journal[(key.kind, key.attemptId)].committed.value.outcome))
  {
    var k := (key.kind, key.attemptId);
    assert PortCallSound(k.0, k.1, t.journal[k]);
  }

  predicate Reserved(t: Tables, key: Key) {
    (key.kind, key.attemptId) in t.journal && SameCall(t.journal[(key.kind, key.attemptId)], key)
  }

  function Recorded(row: PortCall): Option<Outcomes.Outcome> {
    if row.committed.Some? then Some(row.committed.value.outcome) else None
  }

  /** Beginning a call reserves it and replays the outcome its row holds. */
  lemma BeginNext(w: World, lease: LeaseStatus, key: Key, now: U64)
    requires Safe(w)
    ensures var (after, r) := BeginPortCall(w, lease, key, now);
            && Next(w, after)
            && (r.Ok? ==> && Reserved(after.tables, key)
                          && r.value == Recorded(after.tables.journal[(key.kind, key.attemptId)]))
  {
    hide Sound, Audit, Evolves, LogSound, Next, Kept, BeginBody;
    var body := BeginBody(w.tables, w.owner, lease, key, now);
    BeginKeeps(w.tables, w.owner, lease, key, now);
    CommitNext(w, body, lease.epoch);
    var (w', done) := Commit(w, body, lease.epoch);
    if done.Ok? && w'.tables.journal[(key.kind, key.attemptId)].committed.Some? {
      CommittedOutcome(w'.tables, key);
      hide EventSound;
      ReturnNext(w, w', OutcomeReturned(key.kind, key.attemptId, key.requestDigest, key.locator,
                                        w'.tables.journal[(key.kind, key.attemptId)].committed.value.outcome));
    }
  }

  /** Outcomes with equal canonical bytes are equal once one of them was committed. */
  lemma SameBytesSameOutcome(a: Outcomes.Outcome, b: Outcomes.Outcome)
    requires Outcomes.Committing(a) && Outcomes.CanonicalBytes(a) == Outcomes.CanonicalBytes(b)
    ensures a == b
  {
    hide Outcomes.CanonicalBytes, Outcomes.Committing;
    Outcomes.DecodeCanonical(a);
    Outcomes.DecodeCanonical(b);
  }

  lemma RecordedOutcome(t: Tables, key: Key, outcome: Outcomes.Outcome)
    requires Audit(t) && (key.kind, key.attemptId) in t.journal && t.journal[(key.kind, key.attemptId)].committed.Some?
    requires Outcomes.CanonicalBytes(t.journal[(key.kind, key.attemptId)].committed.value.outcome) ==
             Outcomes.CanonicalBytes(outcome)
    ensures t.journal[(key.kind, key.attemptId)].committed.value.outcome == outcome
  {
    hide AuditSingletons, AuditOperations, AuditTranscripts, AuditFunding, Outcomes.CanonicalBytes;
    var k := (key.kind, key.attemptId);
    assert PortCallSound(k.0, k.1, t.journal[k]);
    SameBytesSameOutcome(t.journal[k].committed.value.outcome, outcome);
  }

  /** The outcome returned is the one presented, and the row holds it: a commitment
      that contradicts an earlier one is refused. */
  lemma OutcomeNext(w: World, lease: LeaseStatus, key: Key, outcome: Outcomes.Outcome, now: U64)
    requires Safe(w)
    ensures var (after, r) := CommitOutcome(w, lease, key, outcome, now);
            && Next(w, after)
            && (r.Ok? ==> && Reserved(after.tables, key) && r.value == outcome
                          && Recorded(after.tables.journal[(key.kind, key.attemptId)]) == Some(outcome))
  {
    hide Sound, Audit, Evolves, LogSound, Next, Kept, OutcomeBody, Outcomes.CanonicalBytes;
    var body := OutcomeBody(w.tables, w.owner, lease, key, outcome, now);
    OutcomeKeeps(w.tables, w.owner, lease, key, outcome, now);
    CommitNext(w, body, lease.epoch);
    var (w', done) := Commit(w, body, lease.epoch);
    if done.Ok? {
      RecordedOutcome(w'.tables, key, outcome);
      CommittedOutcome(w'.tables, key);
      hide EventSound;
      ReturnNext(w, w', OutcomeReturned(key.kind, key.attemptId, key.requestDigest, key.locator,
                                        w'.tables.journal[(key.kind, key.attemptId)].committed.value.outcome));
    }
  }
}
