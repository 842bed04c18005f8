/** What holds of every run of the actuator: any calls, in any order, of any number
    of process lifetimes, with any chain answers, vault answers and crash points. */
module ActuatorRuns {
  import opened Base
  import opened ActuationScope
  import opened ActuatorErrors
  import opened FeeReplacement
  import opened ActuatorTables
  import opened ActuatorCalls
  import opened ActuatorInvariant
  import opened ActuatorTransactions
  import opened ActuatorLog
  import opened ActuatorSteps
  import Outcomes = PortCallOutcome

  // ----- every run is safe -----

  predicate MovesLease(call: Call) {
    call.CallRestart? || call.CallAcquire? || call.CallRenew?
  }

  /** Any call but the lease calls leaves owner and lease alone. */
  lemma StepNext(w: World, call: Call)
    requires Safe(w) && !MovesLease(call)
    ensures Next(w, Step(w, call))
  {
    hide Safe, Next, Minted, OperationBinding, BeginPortCall, CommitOutcome, PrepareTerminal, BroadcastTerminal,
         ReconcileTerminal, PrepareReplacement, ReconcileTakeover, RecordFunding, BroadcastFunding, ReconcileFunding,
         ReconcileFundingTakeover, ExposeNonce, ProducePartial, AggregatePreSignature, ClaimTakeover;
    match call
    case CallBinding(lease, kind, effectId, now) => BindingNext(w, lease, kind, effectId, now);
    case CallBegin(lease, key, now) => BeginNext(w, lease, key, now);
    case CallOutcome(lease, key, outcome, now) => OutcomeNext(w, lease, key, outcome, now);
    case CallPrepare(scope, exact, now) => PrepareNext(w, scope, exact, now);
    case CallBroadcast(scope, now, send) => BroadcastNext(w, scope, now, send);
    case CallReconcile(scope, now, env) => ReconcileNext(w, scope, now, env);
    case CallReplace(scope, next, exact, now) => ReplaceNext(w, scope, next, exact, now);
    case CallTakeover(scope, now, env) => TakeoverNext(w, scope, now, env);
    case CallRecordFunding(scope, armed, now) => RecordFundingNext(w, scope, armed, now);
    case CallBroadcastFunding(scope, armed, now, fund) => BroadcastFundingNext(w, scope, armed, now, fund);
    case CallReconcileFunding(scope, now, env) => ReconcileFundingNext(w, scope, now, env);
    case CallFundingTakeover(scope, now, env) => FundingTakeoverNext(w, scope, now, env);
    case CallNonce(signing, now, nonce) => NonceNext(w, signing, now, nonce);
    case CallPartial(signing, remoteNonce, now, partial) => PartialNext(w, signing, remoteNonce, now, partial);
    case CallAggregate(signing, remoteNonce, remotePartial, now, aggregate) =>
      AggregateNext(w, signing, remoteNonce, remotePartial, now, aggregate);
    case CallClaimTakeover(signing, now) => ClaimTakeoverNext(w, signing, now);
  }

  lemma StepFollows(w: World, call: Call)
    requires Safe(w)
    ensures Follows(w, Step(w, call))
  {
    hide Follows, Minted, Sound, Audit, LogSound;
    match call
    case CallRestart(owner) => RestartFollows(w, owner);
    case CallAcquire(now, duration) => AcquireFollows(w, now, duration);
    case CallRenew(epoch, now, duration) => RenewFollows(w, epoch, now, duration);
    case _ => StepNext(w, call); FollowsOfNext(w, Step(w, call));
  }

  lemma RestartFollows(w: World, owner: Id)
    requires Safe(w)
    ensures Follows(w, w.(owner := owner))
  {
    hide Sound, Audit, LogSound, Evolves;
    EvolvesReflexive(w.tables);
  }

  lemma {:induction false} RunFollows(w: World, calls: seq<Call>)
    requires Safe(w)
    ensures Follows(w, Run(w, calls))
    decreases |calls|
  {
    hide Step, Sound, Audit, LogSound, Evolves;
    if calls == [] {
      NextReflexive(w);
    } else {
      var next := Step(w, calls[0]);
      StepFollows(w, calls[0]);
      RunFollows(next, calls[1..]);
      FollowsTransitive(w, next, Run(next, calls[1..]));
    }
  }

  lemma StartIsSafe()
    ensures Safe(START)
  {
  }

  /** The world reached by some calls on a freshly created store. */
  function After(calls: seq<Call>): World {
    Run(START, calls)
  }

  lemma RunIsSafe(calls: seq<Call>)
    ensures Safe(After(calls))
  {
    hide Safe, Evolves;
    StartIsSafe();
    RunFollows(START, calls);
  }

  // ----- proven not externalized -----

  /** No generation was handed to the broadcaster, and none was seen on chain. */
  predicate NeverExternalized(log: seq<Event>, e: Id) {
    forall i :: 0 <= i < |log| ==>
      && !(log[i].TerminalSent? && log[i].effectId == e)
      && !(log[i].TerminalAnswered? && log[i].effectId == e && Observed(log[i].answer))
  }

  predicate FundingNeverExternalized(log: seq<Event>, e: Id) {
    forall i :: 0 <= i < |log| ==>
      && !(log[i] == FundingSent(e))
      && !(log[i].FundingAnswered? && log[i].effectId == e && Observed(log[i].answer))
  }

  lemma UntouchedIsUnsent(w: World, e: Id)
    requires Safe(w) && e in w.tables.operations && Untouched(w.tables.operations[e])
    ensures NeverExternalized(w.log, e)
  {
    hide Sound, Audit, SendsCounted, EpochsOrdered, LeaseLogged;
    forall i | 0 <= i < |w.log|
      ensures !(w.log[i].TerminalSent? && w.log[i].effectId == e)
      ensures !(w.log[i].TerminalAnswered? && w.log[i].effectId == e && Observed(w.log[i].answer))
    {
      assert EventSound(w.tables, w.log[i]);
    }
  }

  lemma PreparedIsUnsent(w: World, e: Id)
    requires Safe(w) && e in w.tables.funding && w.tables.funding[e].seen.stage.Prepared?
    ensures FundingNeverExternalized(w.log, e)
  {
    hide Sound, Audit, SendsCounted, EpochsOrdered, LeaseLogged;
    forall i | 0 <= i < |w.log|
      ensures !(w.log[i] == FundingSent(e))
      ensures !(w.log[i].FundingAnswered? && w.log[i].effectId == e && Observed(w.log[i].answer))
    {
      assert EventSound(w.tables, w.log[i]);
    }
  }

  lemma ProvenIsRight(w: World, scope: Capability, now: U64, env: LookupEnv)
    requires Safe(w)
    ensures ReconcileTerminal(w, scope, now, env).1 == Ok(ProvenNotExternalized) ==>
              NeverExternalized(w.log, scope.effectId)
    ensures ReconcileTakeover(w, scope, now, env).1 == Ok(ProvenNotExternalized) ==>
              NeverExternalized(w.log, scope.effectId)
  {
    hide Safe, Minted, Audit, NeverExternalized, PersistTerminalBody, TakeoverBody, MatchExceptFence, CanonicalBytes;
    if scope.effectId in w.tables.operations && Untouched(w.tables.operations[scope.effectId]) {
      UntouchedIsUnsent(w, scope.effectId);
    }
  }

  lemma FundingProvenIsRight(w: World, scope: Capability, now: U64, env: LookupEnv)
    requires Safe(w)
    ensures ReconcileFunding(w, scope, now, env).1 == Ok(ProvenNotExternalized) ==>
              FundingNeverExternalized(w.log, scope.effectId)
    ensures ReconcileFundingTakeover(w, scope, now, env).1 == Ok(ProvenNotExternalized) ==>
              FundingNeverExternalized(w.log, scope.effectId)
  {
    hide Safe, Minted, Audit, FundingNeverExternalized, PersistFundingBody, FundingTakeoverBody, MatchExceptFence,
         CanonicalBytes;
    if scope.effectId in w.tables.funding && w.tables.funding[scope.effectId].seen.stage.Prepared? {
      PreparedIsUnsent(w, scope.effectId);
    }
  }

  /** In every run, a terminal reconciliation or takeover that answers "proven not
      externalized" is right about the whole history of the effect. */
  lemma ProvenMeansNeverExternalized(calls: seq<Call>, scope: Capability, now: U64, env: LookupEnv)
    ensures ReconcileTerminal(After(calls), scope, now, env).1 == Ok(ProvenNotExternalized) ==>
              NeverExternalized(After(calls).log, scope.effectId)
    ensures ReconcileTakeover(After(calls), scope, now, env).1 == Ok(ProvenNotExternalized) ==>
              NeverExternalized(After(calls).log, scope.effectId)
  {
    hide Safe, Run, Minted, NeverExternalized, ReconcileTerminal, ReconcileTakeover;
    RunIsSafe(calls);
    ProvenIsRight(After(calls), scope, now, env);
  }

  lemma FundingProvenMeansNeverExternalized(calls: seq<Call>, scope: Capability, now: U64, env: LookupEnv)
    ensures ReconcileFunding(After(calls), scope, now, env).1 == Ok(ProvenNotExternalized) ==>
              FundingNeverExternalized(After(calls).log, scope.effectId)
    ensures ReconcileFundingTakeover(After(calls), scope, now, env).1 == Ok(ProvenNotExternalized) ==>
              FundingNeverExternalized(After(calls).log, scope.effectId)
  {
    hide Safe, Run, Minted, FundingNeverExternalized, ReconcileFunding, ReconcileFundingTakeover;
    RunIsSafe(calls);
    FundingProvenIsRight(After(calls), scope, now, env);
  }

  /** External sends never exceed the durable attempts, which never fall. */
  lemma SendsNeverExceedAttempts(calls: seq<Call>, more: seq<Call>, e: Id)
    ensures var w, later := After(calls), Run(After(calls), more);
            && Sends(w.log, e) <= Attempted(w.tables, e) <= Attempted(later.tables, e)
            && FundingSends(w.log, e) <= FundingAttempted(w.tables, e) <= FundingAttempted(later.tables, e)
  {
    hide Run, Sound, Audit, EventsSound, EpochsOrdered, LeaseLogged, TranscriptsEvolve, JournalEvolves;
    RunIsSafe(calls);
    RunFollows(After(calls), more);
  }

  // ----- one effect per route and leg -----

  /** At most one effect of a route and leg is ever sent, so never both a claim and
      a refund; and two sends of one generation send the same bytes. */
  lemma AtMostOneEffectSent(calls: seq<Call>, i: nat, j: nat)
    requires i < |After(calls).log| && j < |After(calls).log|
    requires var a, b := After(calls).log[i], After(calls).log[j];
             a.TerminalSent? && b.TerminalSent? && a.routeId == b.routeId && a.leg == b.leg
    ensures var a, b := After(calls).log[i], After(calls).log[j];
            a.effectId == b.effectId && a.action == b.action && (a.generation == b.generation ==> a.raw == b.raw)
  {
    hide Run, Sound, Audit, SendsCounted, EpochsOrdered, LeaseLogged;
    RunIsSafe(calls);
    assert EventSound(After(calls).tables, After(calls).log[i]) && EventSound(After(calls).tables, After(calls).log[j]);
  }

  // ----- fees -----

  /** Generation `g` of an effect, if recorded: it conserves the contract amount and
      generation zero's inputs, scripts and non-change outputs, and has a fee above
      its predecessor's and within the caps. */
  ghost predicate GenerationSound(t: Tables, e: Id, g: nat)
    requires e in t.operations && (e, 0) in t.attempts && (e, g) in t.attempts
  {
    var policy, first, attempt := t.operations[e].scope.feePolicy, t.attempts[(e, 0)], t.attempts[(e, g)];
    && OutputSum(attempt.exact.tx.outputs) + attempt.fee == t.operations[e].scope.contractAmount
    && SameButChange(first.exact.tx, attempt.exact.tx, policy)
    && policy.initialFee + g <= attempt.fee <= policy.maximumFee
    && (g > 0 ==>
          WithinCaps(attempt.fee, attempt.exact.tx.vsize, policy) && (e, g - 1) in t.attempts
            && t.attempts[(e, g - 1)].fee < attempt.fee)
  }

  predicate RateAllowed(fee: nat, vsize: nat, policy: FeePolicy) {
    vsize > 0 && CeilRate(fee, vsize) <= policy.maximumRate
  }

  /** The check that preparing a transaction does not make. */
  predicate InitialRateAllowed(exact: ExactTx, policy: FeePolicy) {
    RateAllowed(policy.initialFee, exact.tx.vsize, policy)
  }

  /** The attempts are exactly the generations, the first pays the policy's initial
      fee, the last is the active transaction, their number is bounded by the fee
      headroom, a claim never leaves generation zero, and the active rate is within
      its cap exactly when the operation was replaced or the initial fee is within the
      cap for generation zero's size. */
  ghost predicate FeesSound(t: Tables, e: Id)
    requires e in t.operations
  {
    var op := t.operations[e];
    && (forall g: nat :: (e, g) in t.attempts <==> g <= op.generation)
    && (forall g: nat :: (e, g) in t.attempts ==> GenerationSound(t, e, g))
    && t.attempts[(e, 0)].fee == op.scope.feePolicy.initialFee
    && t.attempts[(e, op.generation as nat)] == Attempt(op.exact, op.fee)
    && op.generation <= op.scope.feePolicy.maximumFee - op.scope.feePolicy.initialFee
    && (op.action.Claim? ==> op.generation == 0)
    && (RateAllowed(op.fee, op.exact.tx.vsize, op.scope.feePolicy) <==>
        op.generation > 0 || InitialRateAllowed(t.attempts[(e, 0)].exact, op.scope.feePolicy))
  }

  lemma FeesAreConserved(calls: seq<Call>, e: Id)
    requires e in After(calls).tables.operations
    ensures FeesSound(After(calls).tables, e)
  {
    hide Run, Audit, LogSound, After, Sound, FeesSound;
    RunIsSafe(calls);
    HistoryFacts(After(calls).tables, e);
  }

  lemma HistoryFacts(t: Tables, e: Id)
    requires Sound(t) && e in t.operations
    ensures FeesSound(t, e)
  {
    hide Sound, SoundOperation, GenerationSound, RateAllowed, InitialRateAllowed;
    GenerationsExact(t, e);
    forall g: nat | (e, g) in t.attempts
      ensures GenerationSound(t, e, g)
    {
      GenerationFacts(t, e, g);
    }
    ActiveFacts(t, e);
  }

  lemma GenerationsExact(t: Tables, e: Id)
    requires Sound(t) && e in t.operations
    ensures forall g: nat :: (e, g) in t.attempts <==> g <= t.operations[e].generation
  {
    hide Minted, Lineage, SoundChoices, SoundFunding, Fenced;
    assert SoundOperation(t.attempts, e, t.operations[e]);
  }

  lemma GenerationFacts(t: Tables, e: Id, g: nat)
    requires Sound(t) && e in t.operations && g <= t.operations[e].generation
    ensures (e, 0) in t.attempts && (e, g) in t.attempts && GenerationSound(t, e, g)
  {
    hide Sound, Lineage, SameButChange, WithinCaps;
    RowIsSound(t, e);
    var op := t.operations[e];
    LineageFacts(History(t.attempts, e, op.generation), op.scope.feePolicy, op.scope.contractAmount, g);
  }

  lemma ActiveFacts(t: Tables, e: Id)
    requires Sound(t) && e in t.operations
    ensures var op := t.operations[e];
            && (e, 0) in t.attempts && (e, op.generation as nat) in t.attempts
            && t.attempts[(e, op.generation as nat)] == Attempt(op.exact, op.fee)
            && op.generation <= op.scope.feePolicy.maximumFee - op.scope.feePolicy.initialFee
            && (op.action.Claim? ==> op.generation == 0)
            && t.attempts[(e, 0)].fee == op.scope.feePolicy.initialFee
            && (RateAllowed(op.fee, op.exact.tx.vsize, op.scope.feePolicy) <==>
                op.generation > 0 || InitialRateAllowed(t.attempts[(e, 0)].exact, op.scope.feePolicy))
  {
    hide Sound, SameButChange;
    RowIsSound(t, e);
    var op := t.operations[e];
    var history := History(t.attempts, e, op.generation);
    LineageBounded(history, op.scope.feePolicy, op.scope.contractAmount);
    LineageFacts(history, op.scope.feePolicy, op.scope.contractAmount, op.generation);
  }

  /** A newly prepared effect is its generation zero. */
  lemma PreparedRow(w: World, scope: Capability, exact: ExactTx, now: U64)
    requires scope.effectId !in w.tables.operations && PrepareTerminal(w, scope, exact, now).1.Ok?
    ensures var e, t := scope.effectId, PrepareTerminal(w, scope, exact, now).0.tables;
            && e in t.operations && t.operations[e].scope == scope && t.operations[e].generation == 0
            && t.operations[e].exact == exact && t.operations[e].fee == scope.feePolicy.initialFee
            && (e, 0) in t.attempts && t.attempts[(e, 0)].exact == exact
  {
    hide Audit, Minted, ValidateTerminal;
  }

  /** The rate of the active transaction after any further calls: within the cap
      exactly when the operation was replaced meanwhile, or the prepared transaction
      met the check that preparation leaves out. */
  lemma RateAfter(w: World, scope: Capability, exact: ExactTx, now: U64, more: seq<Call>)
    requires Safe(w) && scope.effectId !in w.tables.operations && PrepareTerminal(w, scope, exact, now).1.Ok?
    ensures var e, t := scope.effectId, Run(PrepareTerminal(w, scope, exact, now).0, more).tables;
            && e in t.operations
            && (ActiveRateAllowed(t, e) <==>
                  t.operations[e].generation > 0 || InitialRateAllowed(exact, scope.feePolicy))
  {
    hide Run, Sound, Audit, LogSound, PrepareTerminal, RateAllowed;
    var next := PrepareTerminal(w, scope, exact, now).0;
    PreparedRow(w, scope, exact, now);
    PrepareNext(w, scope, exact, now);
    RunFollows(next, more);
    assert OperationEvolves(next.tables.operations[scope.effectId], Run(next, more).tables.operations[scope.effectId]);
    HistoryFacts(Run(next, more).tables, scope.effectId);
  }

  predicate ActiveRateAllowed(t: Tables, e: Id)
    requires e in t.operations
  {
    RateAllowed(t.operations[e].fee, t.operations[e].exact.tx.vsize, t.operations[e].scope.feePolicy)
  }

  /** The cap binds the active transaction of a newly prepared effect now, or in every
      later run, if and only if its size and the policy's initial fee meet it. */
  lemma RateIsCapped(w: World, scope: Capability, exact: ExactTx, now: U64)
    requires Safe(w) && scope.effectId !in w.tables.operations && PrepareTerminal(w, scope, exact, now).1.Ok?
    ensures var e, next := scope.effectId, PrepareTerminal(w, scope, exact, now).0;
            && e in next.tables.operations
            && (ActiveRateAllowed(next.tables, e) <==> InitialRateAllowed(exact, scope.feePolicy))
            && (InitialRateAllowed(exact, scope.feePolicy) <==>
                forall more :: e in Run(next, more).tables.operations && ActiveRateAllowed(Run(next, more).tables, e))
  {
    hide Safe, Step, PrepareTerminal, ActiveRateAllowed, InitialRateAllowed;
    var e, next := scope.effectId, PrepareTerminal(w, scope, exact, now).0;
    forall more
      ensures e in Run(next, more).tables.operations
      ensures InitialRateAllowed(exact, scope.feePolicy) ==> ActiveRateAllowed(Run(next, more).tables, e)
    {
      RateAfter(w, scope, exact, now, more);
    }
    RateAfter(w, scope, exact, now, []);
    PreparedRow(w, scope, exact, now);
    assert Run(next, []) == next;
  }

  /** The tables after one acquisition, and after preparing the expensive refund. */
  function Leased(): Tables {
    EMPTY.(clock := Some(1), lease := Some(Lease(Repeat(1), 1, 11)))
  }

  function ExpensivePrepared(scope: Scope): Tables {
    var op := Operation(scope.routeId, scope.leg, scope.action, 1, scope, ExpensiveTx(), 0, 999, 0, NEW);
    Leased().(operations := map[scope.effectId := op],
              attempts := map[(scope.effectId, 0) := Attempt(ExpensiveTx(), 999)])
  }

  lemma AcquiresFirst()
    ensures Step(START.(owner := Repeat(1)), CallAcquire(1, 10)) ==
            World(Leased(), Repeat(1), [Committed(1, Repeat(1))])
  {
    assert AcquireBody(EMPTY, Repeat(1), 1, 10) == Ok(Leased());
    assert Audit(Leased());
  }

  lemma PreparesExpensively(w: World, scope: Capability)
    requires w.tables == Leased() && w.owner == Repeat(1) && scope == ExpensiveScope(COMMITMENT)
    ensures Step(w, CallPrepare(scope, ExpensiveTx(), 1)).tables == ExpensivePrepared(scope)
  {
    hide Audit, Minted, PrepareBody;
    ExpensiveBody(scope);
    ExpensiveAudit(scope);
  }

  lemma ExpensiveBody(scope: Scope)
    requires scope == ExpensiveScope(COMMITMENT)
    ensures PrepareBody(Leased(), Repeat(1), scope, ExpensiveTx(), 1) == Ok(ExpensivePrepared(scope))
  {
    hide Minted, OutputSum;
    RateOfGenerationZeroUnchecked(COMMITMENT);
  }

  lemma ExpensiveAudit(scope: Scope)
    requires scope == ExpensiveScope(COMMITMENT)
    ensures Audit(ExpensivePrepared(scope))
  {
  }

  /** The per-vbyte cap does not bind generation zero: a run in which a refund above
      its cap becomes the active transaction. */
  lemma ExpensiveRefundIsAdmitted(scope: Capability)
    requires scope == ExpensiveScope(COMMITMENT)
    ensures var t := After([CallRestart(Repeat(1)), CallAcquire(1, 10), CallPrepare(scope, ExpensiveTx(), 1)]).tables;
            && scope.effectId in t.operations && t.operations[scope.effectId].exact == ExpensiveTx()
            && !ActiveRateAllowed(t, scope.effectId)
  {
    var call := CallPrepare(scope, ExpensiveTx(), 1);
    RateOfGenerationZeroUnchecked(COMMITMENT);
    var w0 := START.(owner := Repeat(1));
    assert Step(START, CallRestart(Repeat(1))) == w0;
    hide Step, Audit, Minted, ValidateTerminal;
    AcquiresFirst();
    var w1 := Step(w0, CallAcquire(1, 10));
    PreparesExpensively(w1, scope);
    var w2 := Step(w1, call);
    assert Run(w1, [call]) == Run(w2, []) == w2;
    assert Run(w0, [CallAcquire(1, 10), call]) == w2;
  }

  // ----- lease and fences -----

  /** A lease keeps owner and epoch, or is acquired after its recorded expiry with
      the next epoch. */
  predicate LeaseMoves(w: World, after: World, call: Call)
    requires w.tables.lease.Some?
  {
    var before := w.tables.lease.value;
    && after.tables.lease.Some?
    && (after.tables.lease.value.owner != before.owner || after.tables.lease.value.epoch != before.epoch ==>
          && call.CallAcquire? && before.expires <= call.now && after.tables.clock == Some(call.now)
          && after.tables.lease.value.owner == w.owner && after.tables.lease.value.epoch == before.epoch + 1)
  }

  lemma OwnershipChanges(w: World, call: Call)
    requires Safe(w) && w.tables.lease.Some?
    ensures LeaseMoves(w, Step(w, call), call)
  {
    hide Safe;
    if MovesLease(call) {
      LeaseCallMoves(w, call);
    } else {
      hide Step;
      StepNext(w, call);
    }
  }

  lemma LeaseCallMoves(w: World, call: Call)
    requires w.tables.lease.Some? && MovesLease(call)
    ensures LeaseMoves(w, Step(w, call), call)
  {
    hide Audit, LeaseMoves, AcquireLease, RenewLease;
    match call
    case CallAcquire(now, duration) => AcquireMoves(w, now, duration);
    case CallRenew(epoch, now, duration) => RenewMoves(w, epoch, now, duration);
    case CallRestart(owner) => assert LeaseMoves(w, w.(owner := owner), call) by { RestartMoves(w, owner); }
  }

  lemma AcquireMoves(w: World, now: U64, duration: U64)
    requires w.tables.lease.Some?
    ensures LeaseMoves(w, AcquireLease(w, now, duration).0, CallAcquire(now, duration))
  {
    hide Audit, AcquireBody;
    AcquireTakes(w.tables, w.owner, now, duration);
  }

  lemma RenewMoves(w: World, epoch: U64, now: U64, duration: U64)
    requires w.tables.lease.Some?
    ensures LeaseMoves(w, RenewLease(w, epoch, now, duration).0, CallRenew(epoch, now, duration))
  {
    hide Audit;
  }

  lemma RestartMoves(w: World, owner: Id)
    requires w.tables.lease.Some?
    ensures LeaseMoves(w, w.(owner := owner), CallRestart(owner))
  {
  }

  /** Clock, epochs and fences never go back; no row is fenced beyond the lease. */
  lemma FencesNeverFall(calls: seq<Call>, more: seq<Call>, e: Id)
    ensures var a, b := After(calls).tables, Run(After(calls), more).tables;
            && SingletonsEvolve(a, b)
            && (e in a.operations ==>
                  e in b.operations && FenceWithin(a.operations[e].fence, a.lease)
                    && a.operations[e].fence <= b.operations[e].fence)
            && (e in a.funding ==>
                  e in b.funding && FenceWithin(a.funding[e].fence, a.lease)
                    && a.funding[e].fence <= b.funding[e].fence)
            && (e in a.transcripts ==>
                  e in b.transcripts && FenceWithin(a.transcripts[e].fence, a.lease)
                    && a.transcripts[e].fence <= b.transcripts[e].fence)
  {
    hide Run, Audit, LogSound, SoundOperations, SoundChoices, SoundFunding, JournalEvolves;
    RunIsSafe(calls);
    RunFollows(After(calls), more);
  }

  /** Once an epoch is superseded, nothing commits under it again, and an epoch only
      ever serves the owner it was committed for. */
  lemma SupersededNeverCommits(calls: seq<Call>, more: seq<Call>, i: nat)
    requires After(calls).tables.lease.Some?
    requires |After(calls).log| <= i < |Run(After(calls), more).log| && Run(After(calls), more).log[i].Committed?
    ensures var lease, commit := After(calls).tables.lease.value, Run(After(calls), more).log[i];
            lease.epoch <= commit.epoch && (lease.epoch == commit.epoch ==> lease.owner == commit.owner)
  {
    hide Run, Sound, Audit, Evolves, EventsSound, SendsCounted;
    RunIsSafe(calls);
    var w, later := After(calls), Run(After(calls), more);
    RunFollows(w, more);
    var lease := w.tables.lease.value;
    var k :| 0 <= k < |w.log| && w.log[k] == Committed(lease.epoch, lease.owner);
    assert later.log[k] == w.log[k];
  }

  /** A reconciliation whose lease expired while the node answered commits nothing. */
  lemma ExpiredDuringLookup(w: World, scope: Capability, now: U64, env: LookupEnv)
    requires env.after.Some? && (w.tables.lease.Some? ==> w.tables.lease.value.expires <= env.after.value)
    ensures ReconcileTerminal(w, scope, now, env).0 == w && ReconcileTerminal(w, scope, now, env).1.Err?
    ensures ReconcileTakeover(w, scope, now, env).0 == w && ReconcileTakeover(w, scope, now, env).1.Err?
    ensures ReconcileFunding(w, scope, now, env).0 == w && ReconcileFunding(w, scope, now, env).1.Err?
    ensures ReconcileFundingTakeover(w, scope, now, env).0 == w && ReconcileFundingTakeover(w, scope, now, env).1.Err?
  {
    hide Audit, Minted, ClassifyLookup, ClassifyFunding, ClassifyFundingInline, PersistLookup, TakeoverMatches;
  }

  // ----- write-once signing material -----

  /** Every nonce, partial and pre-signature returned for an effect is the same one. */
  lemma ReturnsAgree(calls: seq<Call>, i: nat, j: nat)
    requires i < |After(calls).log| && j < |After(calls).log|
    ensures var a, b := After(calls).log[i], After(calls).log[j];
            && (a.NonceReturned? && b.NonceReturned? && a.effectId == b.effectId ==> a == b)
            && (a.PartialReturned? && b.PartialReturned? && a.effectId == b.effectId ==> a == b)
            && (a.PreSignatureReturned? && b.PreSignatureReturned? && a.effectId == b.effectId ==> a == b)
            && (a.PartialReturned? && b.PreSignatureReturned? && a.effectId == b.effectId ==>
                  a.transcriptDigest == b.transcriptDigest && a.parity == b.parity)
  {
    hide Run, Sound, Audit, SendsCounted, EpochsOrdered, LeaseLogged;
    RunIsSafe(calls);
    assert EventSound(After(calls).tables, After(calls).log[i]) && EventSound(After(calls).tables, After(calls).log[j]);
  }

  /** Each column of a transcript takes one value for the whole run, a verified
      remote partial has everything before it, and one store serves one participant. */
  lemma TranscriptsWriteOnce(calls: seq<Call>, more: seq<Call>, e: Id)
    requires e in After(calls).tables.transcripts
    ensures var a, b := After(calls).tables, Run(After(calls), more).tables;
            && e in b.transcripts && TranscriptEvolves(a.transcripts[e], b.transcripts[e])
            && TranscriptSound(a.transcripts[e])
            && a.participant == b.participant == Some(a.transcripts[e].participantId)
  {
    hide Run, Sound, LogSound, OperationsEvolve, FundingEvolves, JournalEvolves;
    RunIsSafe(calls);
    RunFollows(After(calls), more);
  }

  // ----- port-call outcomes -----

  /** Every answer for a call kind and attempt is the same valid outcome of the same
      request against the same custody. */
  lemma OutcomesAgree(calls: seq<Call>, i: nat, j: nat)
    requires i < |After(calls).log| && j < |After(calls).log|
    requires var a, b := After(calls).log[i], After(calls).log[j];
             a.OutcomeReturned? && b.OutcomeReturned? && a.kind == b.kind && a.attemptId == b.attemptId
    ensures After(calls).log[i] == After(calls).log[j]
    ensures Outcomes.ValidFor(After(calls).log[i].kind, After(calls).log[i].outcome)
  {
    hide Run, Sound, Audit, SendsCounted, EpochsOrdered, LeaseLogged;
    RunIsSafe(calls);
    assert EventSound(After(calls).tables, After(calls).log[i]) && EventSound(After(calls).tables, After(calls).log[j]);
  }

  /** Once journaled, a custody row keeps its scope digest and transaction for good. */
  lemma JournaledCustodyIsFrozen(calls: seq<Call>, more: seq<Call>, k: (Outcomes.CallKind, Id))
    requires k in After(calls).tables.journal
    ensures var a, b := After(calls).tables, Run(After(calls), more).tables;
            var locator := a.journal[k].locator;
            && CurrentLocator(a, locator.kind, locator.effectId) == Some(locator)
            && CurrentLocator(b, locator.kind, locator.effectId) == Some(locator)
  {
    hide Run, Sound, LogSound, OperationsEvolve, FundingEvolves, TranscriptsEvolve, CurrentLocator;
    RunIsSafe(calls);
    var w := After(calls);
    RunFollows(w, more);
    assert k in Run(w, more).tables.journal && PortCallEvolves(w.tables.journal[k], Run(w, more).tables.journal[k]);
  }

  // ----- stages -----

  /** Block facts and finality, as every committed row shows them. */
  predicate StageSound(seen: Seen, minimum: U32) {
    match seen.stage
    case Final => seen.blockHash.Some? && seen.blockHeight.Some? && seen.evidence.Some? && !Zero(seen.evidence.value)
      && seen.confirmations >= minimum
    case Confirmed => seen.blockHash.Some? && seen.blockHeight.Some? && seen.evidence.Some?
      && 0 < seen.confirmations < minimum
    case _ => seen.blockHash.None? && seen.blockHeight.None? && seen.confirmations == 0
  }

  lemma StagesAreSound(calls: seq<Call>, e: Id)
    ensures var t := After(calls).tables;
            && (e in t.operations ==> StageSound(t.operations[e].seen, t.operations[e].scope.minimumConfirmations))
            && (e in t.funding ==> StageSound(t.funding[e].seen, t.funding[e].scope.minimumConfirmations))
  {
    hide Run, LogSound, SoundChoices, Fenced, AuditJournal, AuditSingletons, AuditTranscripts, Minted, Lineage;
    RunIsSafe(calls);
  }

  /** What a successful reconciliation returns is what the store then holds. */
  lemma AnswersMatchStages(calls: seq<Call>, scope: Capability, now: U64, env: LookupEnv)
    ensures var (w, r) := ReconcileTerminal(After(calls), scope, now, env);
            r.Ok? ==>
                scope.effectId in w.tables.operations
                  && AnswerMatches(r.value, w.tables.operations[scope.effectId].seen)
    ensures var (w, r) := ReconcileTakeover(After(calls), scope, now, env);
            r.Ok? ==>
                scope.effectId in w.tables.operations
                  && AnswerMatches(r.value, w.tables.operations[scope.effectId].seen)
    ensures var (w, r) := ReconcileFunding(After(calls), scope, now, env);
            r.Ok? ==>
                scope.effectId in w.tables.funding && AnswerMatches(r.value, w.tables.funding[scope.effectId].seen)
    ensures var (w, r) := ReconcileFundingTakeover(After(calls), scope, now, env);
            r.Ok? ==>
                scope.effectId in w.tables.funding && AnswerMatches(r.value, w.tables.funding[scope.effectId].seen)
  {
    hide Run, Safe, Next, ReconcileTerminal, ReconcileTakeover, ReconcileFunding, ReconcileFundingTakeover,
         AnswerMatches, Minted;
    RunIsSafe(calls);
    var w := After(calls);
    ReconcileNext(w, scope, now, env);
    TakeoverNext(w, scope, now, env);
    ReconcileFundingNext(w, scope, now, env);
    FundingTakeoverNext(w, scope, now, env);
  }

  // ----- steps that only the audit refuses -----

  /** A confirmed transaction is not sent again. */
  lemma ConfirmedIsNotResent(w: World, scope: Capability, now: U64, env: SendEnv)
    requires Safe(w) && scope.effectId in w.tables.operations
             && w.tables.operations[scope.effectId].seen.stage.Confirmed?
    ensures BroadcastTerminal(w, scope, now, env).0 == w && BroadcastTerminal(w, scope, now, env).1.Err?
  {
    hide Sound, LogSound, AuditJournal, AuditSingletons, AuditTranscripts, AuditFunding, Minted, SendIntentBody;
    var e := scope.effectId;
    var body := SendIntentBody(w.tables, w.owner, scope, now);
    if body.Ok? {
      IntentKeepsBlock(w.tables, w.owner, scope, now);
      assert !ObservationSound(body.value.operations[e].seen);
    }
  }

  lemma IntentKeepsBlock(t: Tables, owner: Id, scope: Capability, now: U64)
    requires SendIntentBody(t, owner, scope, now).Ok? && !t.operations[scope.effectId].seen.stage.Final?
    ensures var after := SendIntentBody(t, owner, scope, now).value.operations[scope.effectId].seen;
            after.stage.SendAttempted? && after.blockHash == t.operations[scope.effectId].seen.blockHash
  {
    hide Minted;
  }

  /** An operation and a transcript of one effect cannot be taken over one by one. */
  lemma SharedEffectIsNotTakenOver(w: World, scope: Capability, now: U64, env: LookupEnv)
    requires Safe(w) && scope.effectId in w.tables.transcripts
    ensures ReconcileTakeover(w, scope, now, env).0 == w && ReconcileTakeover(w, scope, now, env).1.Err?
  {
    hide Sound, LogSound, AuditJournal, AuditSingletons, AuditFunding, AuditOperations, Minted, TakeoverMatches,
         ClassifyLookup, TakeoverBody;
    var read := ReadForTakeover(w.tables, w.owner, scope, now);
    if read.Ok? && env.lookup.Some? && AfterLookup(now, env).Ok? {
      TakeoverRewrites(w.tables, w.owner, scope, read.value, env.lookup.value, AfterLookup(now, env).value);
    }
  }

  lemma SharedClaimIsNotTakenOver(w: World, s: Signing, now: U64)
    requires Safe(w) && s.scope.effectId in w.tables.operations
    ensures ClaimTakeover(w, s, now).0 == w && ClaimTakeover(w, s, now).1.Err?
  {
    hide Sound, LogSound, AuditJournal, AuditSingletons, AuditFunding, AuditOperations, RequireClaimSession;
    var e, digest := s.scope.effectId, RequireClaimSession(s);
    if digest.Ok? {
      var body := ClaimTakeoverBody(w.tables, w.owner, s, digest.value, now);
      if body.Ok? {
        assert body.value.transcripts[e].fence != w.tables.operations[e].fence
               && body.value.operations == w.tables.operations;
        assert !AuditTranscripts(body.value);
      }
    }
  }

  /** Tables in which a journaled custody row moved fail the audit. */
  lemma MovedCustodyFailsAudit(t: Tables, after: Tables, k: (Outcomes.CallKind, Id))
    requires k in t.journal && after.journal == t.journal
    requires CurrentLocator(after, t.journal[k].locator.kind,
                            t.journal[k].locator.effectId) != Some(t.journal[k].locator)
    ensures !Audit(after)
  {
    hide AuditSingletons, AuditOperations, AuditTranscripts, AuditFunding;
  }

  lemma JournalNamesCustody(t: Tables, k: (Outcomes.CallKind, Id))
    requires Audit(t) && k in t.journal
    ensures CurrentLocator(t, t.journal[k].locator.kind, t.journal[k].locator.effectId) == Some(t.journal[k].locator)
  {
    hide AuditSingletons, AuditOperations, AuditTranscripts, AuditFunding;
  }

  /** Different outputs have different transaction ids. */
  predicate TxidsSeparated(a: ExactTx, b: ExactTx) {
    a.txid == b.txid ==> a.tx.outputs == b.tx.outputs
  }

  /** A replacement installs another transaction under the same effect. */
  lemma ReplacementMovesTxid(t: Tables, owner: Id, current: Scope, next: Scope, exact: ExactTx, now: U64)
    requires current.effectId in t.operations ==> TxidsSeparated(t.operations[current.effectId].exact, exact)
    ensures var e, body := current.effectId, ReplaceBody(t, owner, current, next, exact, now);
            body.Ok? ==> && e in t.operations && e in body.value.operations && body.value.journal == t.journal
                         && body.value.operations[e].exact.txid != t.operations[e].exact.txid
  {
    hide ReplacementFee;
    var body := ReplaceBody(t, owner, current, next, exact, now);
    if body.Ok? {
      var op := t.operations[current.effectId];
      ReplacementMovesOutputs(op.exact.tx, exact.tx, op.fee, current.feePolicy);
    }
  }

  /** A replacement of a journaled effect commits nothing. */
  lemma JournaledEffectIsNotReplaced(w: World, k: (Outcomes.CallKind, Id), current: Capability, next: Capability,
                                     exact: ExactTx, now: U64)
    requires Safe(w) && k in w.tables.journal && w.tables.journal[k].locator.kind.TerminalKind?
    requires w.tables.journal[k].locator.effectId == current.effectId
    requires current.effectId in w.tables.operations ==>
               TxidsSeparated(w.tables.operations[current.effectId].exact, exact)
    ensures PrepareReplacement(w, current, next, exact, now).0 == w
            && PrepareReplacement(w, current, next, exact, now).1.Err?
  {
    hide Sound, LogSound, Audit, Minted, ReplaceBody, TxidsSeparated;
    JournalNamesCustody(w.tables, k);
    var body := ReplaceBody(w.tables, w.owner, current, next, exact, now);
    ReplacementMovesTxid(w.tables, w.owner, current, next, exact, now);
    if body.Ok? { MovedCustodyFailsAudit(w.tables, body.value, k); }
  }

  /** Two fences of one custody row have two digests. */
  lemma FenceMovesDigest(stored: Scope, scope: Scope)
    requires Minted(stored) && Minted(scope) && Separated(stored, scope) && stored.fenceEpoch < scope.fenceEpoch
    ensures stored.scopeDigest != scope.scopeDigest
  {
    hide Minted, Separated;
    MintedDigestsDiffer(stored, scope);
  }

  /** A takeover of a journaled effect commits nothing. */
  lemma JournaledEffectIsNotTakenOver(w: World, k: (Outcomes.CallKind, Id), scope: Capability, now: U64, env: LookupEnv)
    requires Safe(w) && k in w.tables.journal && w.tables.journal[k].locator.kind.TerminalKind?
    requires w.tables.journal[k].locator.effectId == scope.effectId
    requires scope.effectId in w.tables.operations ==> Separated(w.tables.operations[scope.effectId].scope, scope)
    ensures ReconcileTakeover(w, scope, now, env).0 == w && ReconcileTakeover(w, scope, now, env).1.Err?
  {
    hide Sound, LogSound, Audit, Minted, Separated, TakeoverMatches, ClassifyLookup, TakeoverBody;
    JournalNamesCustody(w.tables, k);
    var read := ReadForTakeover(w.tables, w.owner, scope, now);
    if read.Ok? && env.lookup.Some? && AfterLookup(now, env).Ok? {
      var body := TakeoverBody(w.tables, w.owner, scope, read.value, env.lookup.value, AfterLookup(now, env).value);
      TakeoverRewrites(w.tables, w.owner, scope, read.value, env.lookup.value, AfterLookup(now, env).value);
      StoredScope(w.tables, scope.effectId);
      FenceMovesDigest(w.tables.operations[scope.effectId].scope, scope);
      if body.Ok? { MovedCustodyFailsAudit(w.tables, body.value, k); }
    }
  }

  lemma StoredScope(t: Tables, e: Id)
    requires Sound(t)
    ensures e in t.operations ==>
              Minted(t.operations[e].scope) && t.operations[e].scope.fenceEpoch == t.operations[e].fence
    ensures e in t.funding ==> Minted(t.funding[e].scope) && t.funding[e].scope.fenceEpoch == t.funding[e].fence
  {
    hide Minted, Lineage, SoundChoices, Fenced;
  }

  lemma JournaledFundingIsNotTakenOver(w: World, k: (Outcomes.CallKind, Id), scope: Capability, now: U64,
                                       env: LookupEnv)
    requires Safe(w) && k in w.tables.journal && w.tables.journal[k].locator.kind.FundingKind?
    requires w.tables.journal[k].locator.effectId == scope.effectId
    requires scope.effectId in w.tables.funding ==> Separated(w.tables.funding[scope.effectId].scope, scope)
    ensures ReconcileFundingTakeover(w, scope, now, env).0 == w && ReconcileFundingTakeover(w, scope, now, env).1.Err?
  {
    hide Sound, LogSound, Audit, Minted, Separated, TakeoverMatches, ClassifyFunding;
    JournalNamesCustody(w.tables, k);
    var read := ReadFundingForTakeover(w.tables, w.owner, scope, now);
    if read.Ok? && env.lookup.Some? && AfterLookup(now, env).Ok? {
      var verdict := ClassifyFunding(read.value.txid, read.value.wtxid, read.value.seen.stage, env.lookup.value,
                                     scope.minimumConfirmations);
      StoredScope(w.tables, scope.effectId);
      FenceMovesDigest(w.tables.funding[scope.effectId].scope, scope);
      if verdict.Ok? {
        var body := FundingTakeoverBody(w.tables, w.owner, scope, read.value, verdict.value.seen,
                                        AfterLookup(now, env).value);
        if body.Ok? { MovedCustodyFailsAudit(w.tables, body.value, k); }
      }
    }
  }
}
