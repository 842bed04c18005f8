/** Every transaction body of the actuator yields a sound successor of the tables
    it started from, by its own guards alone. */
module ActuatorTransactions {
  import opened Base
  import opened ActuationScope
  import opened ActuatorErrors
  import opened FeeReplacement
  import opened ActuatorTables
  import opened ActuatorCalls
  import opened ActuatorInvariant
  import Outcomes = PortCallOutcome

  /** The lease is the caller's, at this epoch. */
  predicate Held(t: Tables, owner: Id, epoch: U64) {
    t.lease.Some? && t.lease.value.owner == owner && t.lease.value.epoch == epoch
  }

  /** A transaction body that succeeds holds the lease and keeps the tables sound. */
  ghost predicate Transacts(t: Tables, body: Result<Tables>, owner: Id, epoch: U64) {
    body.Ok? ==> Kept(t, body.value) && Held(body.value, owner, epoch)
  }

  lemma OpenScopedKeeps(t: Tables, owner: Id, scope: Scope, now: U64)
    requires Sound(t)
    ensures Transacts(t, OpenScoped(t, owner, scope, now), owner, scope.fenceEpoch)
    ensures OpenScoped(t, owner, scope, now).Ok? ==> OpenScoped(t, owner, scope, now).value == t.(clock := Some(now))
  {
    hide Sound, Kept;
    if OpenScoped(t, owner, scope, now).Ok? { ClockKeeps(t, now); }
  }

  lemma OpenFencedKeeps(t: Tables, owner: Id, epoch: U64, now: U64)
    requires Sound(t)
    ensures Transacts(t, OpenFenced(t, owner, epoch, now), owner, epoch)
    ensures OpenFenced(t, owner, epoch, now).Ok? ==> OpenFenced(t, owner, epoch, now).value == t.(clock := Some(now))
  {
    hide Sound, Kept;
    if OpenFenced(t, owner, epoch, now).Ok? { ClockKeeps(t, now); }
  }

  lemma KeptReflexive(t: Tables)
    requires Sound(t)
    ensures Kept(t, t)
  {
    hide Sound;
  }

  lemma RowIsSound(t: Tables, e: Id)
    requires Sound(t) && e in t.operations
    ensures SoundOperation(t.attempts, e, t.operations[e]) && FenceWithin(t.operations[e].fence, t.lease)
  {
    hide SoundOperation;
  }

  // ----- terminal operations -----

  lemma PrepareKeeps(t: Tables, owner: Id, scope: Capability, exact: ExactTx, now: U64)
    requires Sound(t)
    ensures Transacts(t, PrepareBody(t, owner, scope, exact, now), owner, scope.fenceEpoch)
  {
    hide Sound, Evolves, SoundOperation, Minted;
    if PrepareBody(t, owner, scope, exact, now).Ok? {
      OpenScopedKeeps(t, owner, scope, now);
      var u := t.(clock := Some(now));
      var e := scope.effectId;
      if e !in t.operations {
        FirstAttempt(t.attempts, scope, exact);
        var op := Operation(scope.routeId, scope.leg, scope.action, scope.fenceEpoch, scope, exact, 0,
                            scope.feePolicy.initialFee, 0, NEW);
        NewOperationKeeps(u, e, op);
        KeptTransitive(t, u, PrepareBody(t, owner, scope, exact, now).value);
      }
    }
  }

  /** The effect holds exactly this transaction under this scope; a row that was there
      is kept, a new one is generation zero at the initial fee. */
  predicate Prepares(a: Tables, b: Tables, scope: Scope, exact: ExactTx) {
    var e := scope.effectId;
    && e in b.operations && b.operations[e].scope == scope && b.operations[e].exact == exact
    && if e in a.operations then b == a.(clock := b.clock)
       else && (e, 0) !in a.attempts && b.operations[e].generation == 0 && Untouched(b.operations[e])
            && b == a.(clock := b.clock, operations := a.operations[e := b.operations[e]],
                       attempts := a.attempts[(e, 0) := Attempt(exact, scope.feePolicy.initialFee)])
  }

  lemma PrepareAdds(t: Tables, owner: Id, scope: Scope, exact: ExactTx, now: U64)
    ensures var body := PrepareBody(t, owner, scope, exact, now);
            body.Ok? ==> Prepares(t, body.value, scope, exact)
  {
    hide ValidateTerminal;
  }

  lemma FirstAttempt(attempts: map<(Id, nat), Attempt>, scope: Capability, exact: ExactTx)
    requires ValidateTerminal(scope, exact).Ok?
    ensures SoundOperation(attempts[(scope.effectId, 0) := Attempt(exact, scope.feePolicy.initialFee)], scope.effectId,
                           Operation(scope.routeId, scope.leg, scope.action, scope.fenceEpoch, scope, exact, 0,
                                     scope.feePolicy.initialFee, 0, NEW))
  {
    LineageStart(scope, exact);
    var after := attempts[(scope.effectId, 0) := Attempt(exact, scope.feePolicy.initialFee)];
    assert Complete(after, scope.effectId, 0);
    assert History(after, scope.effectId, 0) == [Attempt(exact, scope.feePolicy.initialFee)];
  }

  /** Send counters, observations and a re-fenced scope leave an operation sound. */
  lemma Reseen(attempts: map<(Id, nat), Attempt>, e: Id, op: Operation, after: Operation)
    requires SoundOperation(attempts, e, op)
    requires after == op.(fence := after.scope.fenceEpoch, scope := after.scope, seen := after.seen,
                          sendAttempts := after.sendAttempts)
    requires SameExceptFence(op.scope, after.scope) && Minted(after.scope)
    requires ThresholdSound(after.seen, op.scope.minimumConfirmations)
    ensures SoundOperation(attempts, e, after)
  {
    hide Minted, Lineage, ThresholdSound;
  }

  /** The rewriting of one row in a transaction whose clock has advanced. */
  lemma RewriteKeeps(t: Tables, u: Tables, e: Id, after: Operation)
    requires Sound(t) && Kept(t, u) && e in u.operations && FenceWithin(after.fence, t.lease)
    requires var op := u.operations[e];
             && after == op.(fence := after.scope.fenceEpoch, scope := after.scope, seen := after.seen,
                             sendAttempts := after.sendAttempts)
             && SameExceptFence(op.scope, after.scope) && Minted(after.scope)
             && ThresholdSound(after.seen, op.scope.minimumConfirmations)
             && op.fence <= after.fence && op.sendAttempts <= after.sendAttempts && (Untouched(after) ==> Untouched(op))
    ensures Kept(t, PutOperation(u, e, after))
  {
    hide Sound, Evolves, SoundOperation, Minted;
    RowIsSound(u, e);
    Reseen(u.attempts, e, u.operations[e], after);
    PutOperationKeeps(u, e, after);
    KeptTransitive(t, u, PutOperation(u, e, after));
  }

  lemma ChooseKeeps(t: Tables, scope: Scope, txid: Id)
    requires Sound(t) && scope.effectId in t.operations
    requires var op := t.operations[scope.effectId];
             op.routeId == scope.routeId && op.leg == scope.leg && op.action == scope.action && op.exact.txid == txid
    ensures ChooseTerminal(t, scope, txid).Ok? ==>
              && Kept(t, ChooseTerminal(t, scope, txid).value)
              && Chosen(ChooseTerminal(t, scope, txid).value, scope.routeId, scope.leg, scope.action, scope.effectId)
              && ChooseTerminal(t, scope, txid).value.operations == t.operations
  {
    hide Sound, Evolves;
    var k := (scope.routeId, scope.leg);
    if k in t.choices {
      KeptReflexive(t);
    } else {
      ChoiceKeeps(t, k, Choice(scope.action, scope.effectId, txid));
    }
  }

  /** The effect recorded for a route and leg. */
  predicate Chosen(t: Tables, routeId: Id, leg: Leg, action: Action, e: Id) {
    (routeId, leg) in t.choices && t.choices[(routeId, leg)].effectId == e && t.choices[(routeId, leg)].action == action
  }

  /** One operation has one more durable send attempt, unless it is final. */
  predicate SendIntended(before: map<Id, Operation>, after: map<Id, Operation>, e: Id) {
    && e in before && e in after && after.Keys == before.Keys
    && after[e].generation == before[e].generation && after[e].exact == before[e].exact
    && (if before[e].seen.stage.Final? then after[e] == before[e]
        else after[e].sendAttempts == before[e].sendAttempts + 1 && after[e].seen.stage.SendAttempted?)
    && (forall d :: d in before && d != e ==> after[d] == before[d])
  }

  /** A send intent names the chosen effect and is one more durable attempt. */
  lemma SendIntentKeeps(t: Tables, owner: Id, scope: Capability, now: U64)
    requires Sound(t)
    ensures Transacts(t, SendIntentBody(t, owner, scope, now), owner, scope.fenceEpoch)
    ensures var body := SendIntentBody(t, owner, scope, now);
            body.Ok? ==> SendIntended(t.operations, body.value.operations, scope.effectId)
                         && Chosen(body.value, scope.routeId, scope.leg, scope.action, scope.effectId)
  {
    hide Sound, Evolves, SoundOperation, Minted;
    var body := SendIntentBody(t, owner, scope, now);
    if body.Ok? {
      var e := scope.effectId;
      OpenScopedKeeps(t, owner, scope, now);
      var u := t.(clock := Some(now));
      var op := u.operations[e];
      ChooseKeeps(u, scope, op.exact.txid);
      var v := ChooseTerminal(u, scope, op.exact.txid).value;
      KeptTransitive(t, u, v);
      if !op.seen.stage.Final? {
        RewriteKeeps(t, v, e, op.(sendAttempts := op.sendAttempts + 1, seen := op.seen.(stage := SendAttempted)));
      }
    }
  }

  lemma AcknowledgeKeeps(t: Tables, owner: Id, scope: Capability, txid: Id, intentDigest: Id, attempt: U32, now: U64)
    requires Sound(t)
    ensures Transacts(t, AcknowledgeBody(t, owner, scope, txid, intentDigest, attempt, now), owner, scope.fenceEpoch)
  {
    hide Sound, Evolves, SoundOperation, Minted;
    if AcknowledgeBody(t, owner, scope, txid, intentDigest, attempt, now).Ok? {
      OpenScopedKeeps(t, owner, scope, now);
      var op := t.operations[scope.effectId];
      RewriteKeeps(t, t.(clock := Some(now)), scope.effectId, op.(seen := op.seen.(stage := BroadcastAcknowledged)));
    }
  }

  lemma MarkAmbiguousKeeps(t: Tables, owner: Id, scope: Capability, evidence: Id, now: U64)
    requires Sound(t)
    ensures Transacts(t, MarkAmbiguousBody(t, owner, scope, evidence, now), owner, scope.fenceEpoch)
  {
    hide Sound, Evolves, Minted, Lineage;
    if MarkAmbiguousBody(t, owner, scope, evidence, now).Ok? {
      OpenScopedKeeps(t, owner, scope, now);
      var u, e := t.(clock := Some(now)), scope.effectId;
      RowIsSound(u, e);
      RewriteKeeps(t, u, e, u.operations[e].(seen := Seen(Ambiguous, 0, None, None, Some(evidence))));
    }
  }

  /** Persisting a lookup of the row that was read. */
  lemma LookupKeeps(t: Tables, u: Tables, e: Id, op: Operation, lookup: Lookup, minimum: U32)
    requires Sound(t) && Kept(t, u) && e in u.operations && u.operations[e].seen == op.seen
             && NeverSent(u.operations[e]) == NeverSent(op)
    requires minimum == u.operations[e].scope.minimumConfirmations
    ensures var after := PersistLookup(u, e, op.exact.raw, op.seen.stage, NeverSent(op), lookup, minimum);
            after.Ok? ==> Kept(t, after.value)
  {
    hide Sound, Evolves, Minted, Lineage;
    RowIsSound(u, e);
    LookupAnswerMatches(op.exact.raw, op.seen.stage, NeverSent(op), lookup, minimum);
    var seen := SeenFromLookup(op.exact.raw, op.seen.stage, NeverSent(op), lookup, minimum);
    if PersistLookup(u, e, op.exact.raw, op.seen.stage, NeverSent(op), lookup, minimum).Ok? {
      RewriteKeeps(t, u, e, u.operations[e].(seen := seen.value));
    }
  }

  lemma PersistTerminalKeeps(t: Tables, owner: Id, scope: Capability, lookup: Lookup, now: U64)
    requires Sound(t) && scope.effectId in t.operations && t.operations[scope.effectId].scope == scope
    ensures Transacts(t, PersistTerminalBody(t, owner, scope, t.operations[scope.effectId], lookup, now), owner,
                      scope.fenceEpoch)
  {
    hide Sound, Evolves, Minted, PersistLookup;
    OpenScopedKeeps(t, owner, scope, now);
    if OpenScoped(t, owner, scope, now).Ok? {
      LookupKeeps(t, t.(clock := Some(now)), scope.effectId, t.operations[scope.effectId], lookup,
                  scope.minimumConfirmations);
    }
  }

  /** Nothing changed but the clock and one operation. */
  predicate RewritesOperation(a: Tables, b: Tables, e: Id) {
    && e in a.operations && e in b.operations
    && b == a.(clock := b.clock, operations := a.operations[e := b.operations[e]])
  }

  /** The row keeps its transaction, lineage and counters under the presented scope. */
  predicate Retaken(before: Operation, after: Operation, scope: Scope) {
    after == before.(fence := scope.fenceEpoch, scope := scope, seen := after.seen)
  }

  lemma TakeoverRewrites(t: Tables, owner: Id, scope: Scope, read: Operation, lookup: Lookup, now: U64)
    ensures var e, body := scope.effectId, TakeoverBody(t, owner, scope, read, lookup, now);
            body.Ok? ==> && RewritesOperation(t, body.value, e)
                         && Retaken(t.operations[e], body.value.operations[e], scope)
  {
    hide SeenFromLookup;
  }

  lemma TakeoverKeeps(t: Tables, owner: Id, scope: Capability, lookup: Lookup, now: U64)
    requires Sound(t) && scope.effectId in t.operations
    requires var op := t.operations[scope.effectId]; op.fence < scope.fenceEpoch && TakeoverMatches(op.scope, scope)
    ensures Transacts(t, TakeoverBody(t, owner, scope, t.operations[scope.effectId], lookup, now), owner,
                      scope.fenceEpoch)
  {
    hide Sound, Evolves, Minted, PersistLookup, Lineage, MatchExceptFence, CanonicalBytes;
    var e, op := scope.effectId, t.operations[scope.effectId];
    TakeoverTest(op.scope, scope);
    OpenFencedKeeps(t, owner, scope.fenceEpoch, now);
    if OpenFenced(t, owner, scope.fenceEpoch, now).Ok? {
      var u := t.(clock := Some(now));
      RowIsSound(u, e);
      var after := op.(fence := scope.fenceEpoch, scope := scope);
      RewriteKeeps(t, u, e, after);
      LookupKeeps(t, PutOperation(u, e, after), e, op, lookup, scope.minimumConfirmations);
    }
  }

  lemma ReplacementKeeps(t: Tables, owner: Id, current: Capability, next: Capability, exact: ExactTx, now: U64)
    requires Sound(t)
    ensures Transacts(t, ReplaceBody(t, owner, current, next, exact, now), owner, current.fenceEpoch)
  {
    hide Sound, Evolves, SoundOperation, Minted, ReplacementFee;
    var body := ReplaceBody(t, owner, current, next, exact, now);
    if body.Ok? {
      var e := current.effectId;
      OpenScopedKeeps(t, owner, current, now);
      var u := t.(clock := Some(now));
      RowIsSound(u, e);
      var op := u.operations[e];
      var fee := ReplacementFee(op.exact.tx, exact.tx, op.fee, current.feePolicy).value;
      var after := op.(scope := next, exact := exact, generation := op.generation + 1, fee := fee, seen := NEW);
      NextAttempt(u.attempts, e, op, after);
      ReplaceKeeps(u, e, after, body.value.attempts, body.value.choices);
      KeptTransitive(t, u, body.value);
    }
  }

  /** One more generation of a transaction seen in the mempool: a higher fee within the
      policy's caps, every earlier attempt kept, no other effect touched. */
  predicate Replaces(a: Tables, b: Tables, e: Id, next: Scope, exact: ExactTx) {
    && e in a.operations && e in b.operations
    && var before, after := a.operations[e], b.operations[e];
    && before.seen.stage.MempoolObserved? && after.seen == NEW
    && after.scope == next && after.exact == exact && after.generation == before.generation + 1
    && before.fee < after.fee && WithinCaps(after.fee, exact.tx.vsize, before.scope.feePolicy)
    && (e, after.generation as nat) !in a.attempts
    && b == a.(clock := b.clock, operations := a.operations[e := after],
               attempts := a.attempts[(e, after.generation as nat) := Attempt(exact, after.fee)],
               choices := Rechosen(a.choices, (next.routeId, next.leg), e, exact.txid))
  }

  lemma ReplacementAdds(t: Tables, owner: Id, current: Scope, next: Scope, exact: ExactTx, now: U64)
    ensures var body := ReplaceBody(t, owner, current, next, exact, now);
            body.Ok? ==> Replaces(t, body.value, current.effectId, next, exact)
  {
    hide WithinCaps;
  }

  /** An admissible replacement continues the lineage of its effect. */
  lemma NextAttempt(attempts: map<(Id, nat), Attempt>, e: Id, op: Operation, after: Operation)
    requires SoundOperation(attempts, e, op) && Minted(after.scope) && OperationMatches(after, e, after.scope)
    requires SameReplacementFamily(op.scope, after.scope) && op.generation + 1 < U32_LIMIT
    requires after == op.(scope := after.scope, exact := after.exact, generation := op.generation + 1, fee := after.fee,
                          seen := NEW)
    requires ReplacementFee(op.exact.tx, after.exact.tx, op.fee, op.scope.feePolicy) == Ok(after.fee)
    ensures SoundOperation(attempts[(e, after.generation as nat) := Attempt(after.exact, after.fee)], e, after)
    ensures op.fee < after.fee
  {
    hide Minted, ReplacementFee;
    var next := Attempt(after.exact, after.fee);
    var grown := attempts[(e, after.generation as nat) := next];
    var history := History(attempts, e, op.generation);
    ReplacementConserves(op.exact.tx, after.exact.tx, op.fee, op.scope.feePolicy);
    LineageExtend(history, op.scope.feePolicy, op.scope.contractAmount, next);
    assert Complete(grown, e, after.generation);
    assert History(grown, e, after.generation) == history + [next];
  }

  // ----- funding custody -----

  /** A funding row may be rewritten as the custody it was, with a fence no older
      and a stage that does not return to prepared. */
  lemma RefundKeeps(t: Tables, u: Tables, e: Id, after: FundingRow)
    requires Sound(t) && Kept(t, u) && e in u.funding && FenceWithin(after.fence, t.lease)
    requires FundingRowEvolves(u.funding[e], after) && SoundFundingRow(e, after)
    ensures Kept(t, PutFunding(u, e, after))
  {
    hide Sound, Evolves, SoundFundingRow, FundingRowEvolves;
    PutFundingKeeps(u, e, after);
    KeptTransitive(t, u, PutFunding(u, e, after));
  }

  lemma FundingRowIsSound(t: Tables, e: Id)
    requires Sound(t) && e in t.funding
    ensures SoundFundingRow(e, t.funding[e])
  {
    hide SoundFundingRow;
  }

  lemma RecordFundingKeeps(t: Tables, owner: Id, scope: Capability, armed: Option<Armed>, now: U64)
    requires Sound(t)
    ensures Transacts(t, RecordFundingBody(t, owner, scope, armed, now), owner, scope.fenceEpoch)
  {
    hide Sound, Evolves, Minted;
    var body := RecordFundingBody(t, owner, scope, armed, now);
    if body.Ok? {
      OpenScopedKeeps(t, owner, scope, now);
      if scope.effectId !in t.funding {
        var u := t.(clock := Some(now));
        PutFundingKeeps(u, scope.effectId, body.value.funding[scope.effectId]);
        KeptTransitive(t, u, body.value);
      }
    }
  }

  predicate FundingIntended(before: map<Id, FundingRow>, after: map<Id, FundingRow>, e: Id) {
    && e in before && e in after && after.Keys == before.Keys
    && (if before[e].seen.stage.Final? then after[e] == before[e]
        else after[e].sendAttempts == before[e].sendAttempts + 1 && after[e].seen.stage.SendAttempted?)
    && (forall d :: d in before && d != e ==> after[d] == before[d])
  }

  lemma FundingIntentKeeps(t: Tables, owner: Id, scope: Capability, a: Armed, now: U64)
    requires Sound(t)
    ensures Transacts(t, FundingIntentBody(t, owner, scope, a, now), owner, scope.fenceEpoch)
    ensures var body := FundingIntentBody(t, owner, scope, a, now);
            body.Ok? ==> FundingIntended(t.funding, body.value.funding, scope.effectId)
  {
    hide Sound, Evolves, Minted;
    var body := FundingIntentBody(t, owner, scope, a, now);
    if body.Ok? {
      OpenScopedKeeps(t, owner, scope, now);
      var u := t.(clock := Some(now));
      FundingRowIsSound(u, scope.effectId);
      if !u.funding[scope.effectId].seen.stage.Final? {
        RefundKeeps(t, u, scope.effectId, body.value.funding[scope.effectId]);
      }
    }
  }

  lemma FundingAcknowledgeKeeps(t: Tables, owner: Id, scope: Capability, attempt: U32, now: U64)
    requires Sound(t)
    ensures Transacts(t, FundingAcknowledgeBody(t, owner, scope, attempt, now), owner, scope.fenceEpoch)
  {
    hide Sound, Evolves, Minted;
    var body := FundingAcknowledgeBody(t, owner, scope, attempt, now);
    if body.Ok? {
      OpenScopedKeeps(t, owner, scope, now);
      var u := t.(clock := Some(now));
      FundingRowIsSound(u, scope.effectId);
      RefundKeeps(t, u, scope.effectId, body.value.funding[scope.effectId]);
    }
  }

  lemma PersistFundingKeeps(t: Tables, owner: Id, scope: Capability, seen: Seen, now: U64)
    requires Sound(t) && scope.effectId in t.funding && t.funding[scope.effectId].scope == scope
    requires seen.stage.Prepared? ==> t.funding[scope.effectId].seen.stage.Prepared?
    requires ThresholdSound(seen, scope.minimumConfirmations)
    ensures Transacts(t, PersistFundingBody(t, owner, scope, seen, now), owner, scope.fenceEpoch)
  {
    hide Sound, Evolves, Minted;
    var body := PersistFundingBody(t, owner, scope, seen, now);
    if body.Ok? {
      OpenScopedKeeps(t, owner, scope, now);
      var u := t.(clock := Some(now));
      FundingRowIsSound(u, scope.effectId);
      RefundKeeps(t, u, scope.effectId, body.value.funding[scope.effectId]);
    }
  }

  lemma FundingTakeoverKeeps(t: Tables, owner: Id, scope: Capability, seen: Seen, now: U64)
    requires Sound(t) && scope.effectId in t.funding
    requires var row := t.funding[scope.effectId]; row.fence < scope.fenceEpoch && TakeoverMatches(row.scope, scope)
    requires seen.stage.Prepared? ==> t.funding[scope.effectId].seen.stage.Prepared?
    requires ThresholdSound(seen, scope.minimumConfirmations)
    ensures Transacts(t, FundingTakeoverBody(t, owner, scope, t.funding[scope.effectId], seen, now), owner,
                      scope.fenceEpoch)
  {
    hide Sound, Evolves, Minted, MatchExceptFence, CanonicalBytes;
    var body := FundingTakeoverBody(t, owner, scope, t.funding[scope.effectId], seen, now);
    TakeoverTest(t.funding[scope.effectId].scope, scope);
    if body.Ok? {
      OpenFencedKeeps(t, owner, scope.fenceEpoch, now);
      var u := t.(clock := Some(now));
      FundingRowIsSound(u, scope.effectId);
      RefundKeeps(t, u, scope.effectId, body.value.funding[scope.effectId]);
    }
  }

  // ----- claim signing -----

  lemma RetranscribeKeeps(t: Tables, u: Tables, e: Id, after: Transcript)
    requires Sound(t) && Kept(t, u) && FenceWithin(after.fence, t.lease)
    requires e in u.transcripts ==> TranscriptEvolves(u.transcripts[e], after)
    ensures Kept(t, PutTranscript(u, e, after))
  {
    hide Sound, Evolves, TranscriptEvolves;
    PutTranscriptKeeps(u, e, after);
    KeptTransitive(t, u, PutTranscript(u, e, after));
  }

  lemma ParticipantKeeps(t: Tables, participant: Id)
    requires Sound(t) && (t.participant.Some? ==> t.participant.value == participant)
    ensures Kept(t, t.(participant := Some(participant)))
  {
    hide SoundOperations, SoundChoices, SoundFunding;
  }

  /** A signing transaction ends with a transcript fenced at the current epoch. */
  lemma OpenSigningKeeps(t: Tables, owner: Id, s: Signing, digest: Id, now: U64)
    requires Sound(t)
    ensures Transacts(t, OpenSigning(t, owner, s, digest, now), owner, s.scope.fenceEpoch)
    ensures var body := OpenSigning(t, owner, s, digest, now);
            body.Ok? ==> body.value.transcripts[s.scope.effectId].fence == s.scope.fenceEpoch
  {
    hide Sound, Evolves;
    if OpenSigning(t, owner, s, digest, now).Ok? {
      OpenScopedKeeps(t, owner, s.scope, now);
      var u := t.(clock := Some(now));
      ParticipantKeeps(u, s.authority.participantId);
      var v := u.(participant := Some(s.authority.participantId));
      KeptTransitive(t, u, v);
      if s.scope.effectId !in v.transcripts {
        RetranscribeKeeps(t, v, s.scope.effectId,
                          OpenSigning(t, owner, s, digest, now).value.transcripts[s.scope.effectId]);
      }
    }
  }

  /** Store and effect are bound to one participant and session; a transcript that was
      there is kept as it is. */
  predicate Binds(a: Tables, b: Tables, s: Signing, digest: Id) {
    var e := s.scope.effectId;
    && e in b.transcripts && SameClaim(b.transcripts[e], s, digest) && b.transcripts[e].role == s.authority.role
    && b.transcripts[e].fence == s.scope.fenceEpoch && b.participant == Some(s.authority.participantId)
    && (e in a.transcripts ==> b.transcripts[e] == a.transcripts[e])
    && b == a.(clock := b.clock, participant := b.participant, transcripts := a.transcripts[e := b.transcripts[e]])
  }

  lemma OpenSigningBinds(t: Tables, owner: Id, s: Signing, digest: Id, now: U64)
    ensures var body := OpenSigning(t, owner, s, digest, now);
            body.Ok? ==> Binds(t, body.value, s, digest)
  {
    var body := OpenSigning(t, owner, s, digest, now);
    if body.Ok? && s.scope.effectId in t.transcripts {
      assert t.transcripts[s.scope.effectId := t.transcripts[s.scope.effectId]] == t.transcripts;
    }
  }

  lemma NonceKeeps(t: Tables, owner: Id, s: Signing, digest: Id, bytes: Bytes66, now: U64)
    requires Sound(t)
    ensures Transacts(t, NonceBody(t, owner, s, digest, bytes, now), owner, s.scope.fenceEpoch)
    ensures var body := NonceBody(t, owner, s, digest, bytes, now);
            body.Ok? ==>
                s.scope.effectId in body.value.transcripts
                  && body.value.transcripts[s.scope.effectId].localNonce == Some(bytes)
  {
    hide Sound, Evolves, OpenSigning;
    OpenSigningKeeps(t, owner, s, digest, now);
    var body := NonceBody(t, owner, s, digest, bytes, now);
    if body.Ok? {
      RetranscribeKeeps(t, OpenSigning(t, owner, s, digest, now).value, s.scope.effectId,
                        body.value.transcripts[s.scope.effectId]);
    }
  }

  lemma RemoteNonceKeeps(t: Tables, owner: Id, s: Signing, digest: Id, remoteNonce: Bytes66, now: U64)
    requires Sound(t)
    ensures Transacts(t, RemoteNonceBody(t, owner, s, digest, remoteNonce, now), owner, s.scope.fenceEpoch)
    ensures var body := RemoteNonceBody(t, owner, s, digest, remoteNonce, now);
            body.Ok? ==> && body.value.transcripts[s.scope.effectId].fence == s.scope.fenceEpoch
                         && body.value.transcripts[s.scope.effectId].remoteNonce == Some(remoteNonce)
  {
    hide Sound, Evolves, OpenSigning;
    OpenSigningKeeps(t, owner, s, digest, now);
    var body := RemoteNonceBody(t, owner, s, digest, remoteNonce, now);
    if body.Ok? {
      RetranscribeKeeps(t, OpenSigning(t, owner, s, digest, now).value, s.scope.effectId,
                        body.value.transcripts[s.scope.effectId]);
    }
  }

  lemma PartialKeeps(t: Tables, owner: Id, s: Signing, digest: Id, remoteNonce: Bytes66, p: VaultPartial, now: U64)
    requires Sound(t)
    ensures Transacts(t, PartialBody(t, owner, s, digest, remoteNonce, p, now), owner, s.scope.fenceEpoch)
    ensures var body := PartialBody(t, owner, s, digest, remoteNonce, p, now);
            body.Ok? ==> && s.scope.effectId in body.value.transcripts
                         && var c := body.value.transcripts[s.scope.effectId];
                            && c.remoteNonce == Some(remoteNonce) && c.localPartial == Some(p.bytes)
                            && c.transcriptDigest == Some(p.transcriptDigest) && c.parity == Some(p.parity)
  {
    hide Sound, Evolves, RemoteNonceBody;
    RemoteNonceKeeps(t, owner, s, digest, remoteNonce, now);
    var body := PartialBody(t, owner, s, digest, remoteNonce, p, now);
    if body.Ok? {
      RetranscribeKeeps(t, RemoteNonceBody(t, owner, s, digest, remoteNonce, now).value, s.scope.effectId,
                        body.value.transcripts[s.scope.effectId]);
    }
  }

  lemma RemotePartialKeeps(t: Tables, owner: Id, s: Signing, digest: Id, remoteNonce: Bytes66, remotePartial: Id,
                           now: U64)
    requires Sound(t)
    ensures Transacts(t, RemotePartialBody(t, owner, s, digest, remoteNonce, remotePartial, now), owner,
                      s.scope.fenceEpoch)
    ensures var body := RemotePartialBody(t, owner, s, digest, remoteNonce, remotePartial, now);
            body.Ok? ==> && s.scope.effectId in body.value.transcripts
                         && var c := body.value.transcripts[s.scope.effectId];
                            c.remoteNonce == Some(remoteNonce) && c.remotePartial == Some(remotePartial)
  {
    hide Sound, Evolves, RemoteNonceBody;
    RemoteNonceKeeps(t, owner, s, digest, remoteNonce, now);
    var body := RemotePartialBody(t, owner, s, digest, remoteNonce, remotePartial, now);
    if body.Ok? {
      RetranscribeKeeps(t, RemoteNonceBody(t, owner, s, digest, remoteNonce, now).value, s.scope.effectId,
                        body.value.transcripts[s.scope.effectId]);
    }
  }

  lemma AggregateKeeps(t: Tables, owner: Id, s: Signing, a: Aggregate, now: U64)
    requires Sound(t)
    ensures Transacts(t, AggregateBody(t, owner, s, a, now), owner, s.scope.fenceEpoch)
    ensures var body := AggregateBody(t, owner, s, a, now);
            var e := s.scope.effectId;
            body.Ok? ==> && e in t.transcripts && e in body.value.transcripts
                         && var before, after := t.transcripts[e], body.value.transcripts[e];
                            && after.transcriptDigest == Some(a.transcriptDigest) && after.parity == Some(a.parity)
                            && after.verified
                            && after.remoteNonce == before.remoteNonce && after.remotePartial == before.remotePartial
  {
    hide Sound, Evolves;
    var body := AggregateBody(t, owner, s, a, now);
    if body.Ok? {
      OpenScopedKeeps(t, owner, s.scope, now);
      var u := t.(clock := Some(now));
      TranscriptFenced(u, s.scope.effectId);
      RetranscribeKeeps(t, u, s.scope.effectId, body.value.transcripts[s.scope.effectId]);
    }
  }

  lemma TranscriptFenced(t: Tables, e: Id)
    requires Sound(t) && e in t.transcripts
    ensures FenceWithin(t.transcripts[e].fence, t.lease)
  {
    hide SoundOperations, SoundChoices, SoundFunding;
  }

  lemma ClaimTakeoverKeeps(t: Tables, owner: Id, s: Signing, digest: Id, now: U64)
    requires Sound(t)
    ensures Transacts(t, ClaimTakeoverBody(t, owner, s, digest, now), owner, s.scope.fenceEpoch)
  {
    hide Sound, Evolves;
    var body := ClaimTakeoverBody(t, owner, s, digest, now);
    if body.Ok? {
      OpenFencedKeeps(t, owner, s.scope.fenceEpoch, now);
      RetranscribeKeeps(t, t.(clock := Some(now)), s.scope.effectId, body.value.transcripts[s.scope.effectId]);
    }
  }

  // ----- port-call journal -----

  lemma OpenJournalClock(t: Tables, owner: Id, lease: LeaseStatus, key: Key, now: U64)
    ensures OpenJournal(t, owner, lease, key, now).Ok? ==>
              OpenJournal(t, owner, lease, key, now).value == t.(clock := Some(now))
  {
  }

  lemma OpenJournalKeeps(t: Tables, owner: Id, lease: LeaseStatus, key: Key, now: U64)
    requires Sound(t)
    ensures Transacts(t, OpenJournal(t, owner, lease, key, now), owner, lease.epoch)
    ensures OpenJournal(t, owner, lease, key, now).Ok? ==>
              OpenJournal(t, owner, lease, key, now).value == t.(clock := Some(now))
  {
    hide Sound, Evolves;
    if OpenJournal(t, owner, lease, key, now).Ok? { ClockKeeps(t, now); }
  }

  /** Nothing changed but the clock and the row of this call. */
  predicate Journals(a: Tables, b: Tables, key: Key) {
    var k := (key.kind, key.attemptId);
    && k in b.journal && SameCall(b.journal[k], key)
    && b == a.(clock := b.clock, journal := a.journal[k := b.journal[k]])
  }

  lemma BeginJournals(t: Tables, owner: Id, lease: LeaseStatus, key: Key, now: U64)
    ensures var k, body := (key.kind, key.attemptId), BeginBody(t, owner, lease, key, now);
            body.Ok? ==> && Journals(t, body.value, key)
                         && (if k in t.journal then body.value.journal[k] == t.journal[k]
                             else body.value.journal[k].committed.None?)
  {
    hide OpenJournal, Audit;
    OpenJournalClock(t, owner, lease, key, now);
    var k, body := (key.kind, key.attemptId), BeginBody(t, owner, lease, key, now);
    if body.Ok? && k in t.journal { assert t.journal[k := t.journal[k]] == t.journal; }
  }

  lemma OutcomeJournals(t: Tables, owner: Id, lease: LeaseStatus, key: Key, outcome: Outcomes.Outcome, now: U64)
    ensures var k, body := (key.kind, key.attemptId), OutcomeBody(t, owner, lease, key, outcome, now);
            body.Ok? ==> && Journals(t, body.value, key) && Outcomes.ValidFor(key.kind, outcome) && k in t.journal
                         && (if t.journal[k].committed.Some? then body.value.journal[k] == t.journal[k]
                             else body.value.journal[k].committed == Some(Commitment(outcome, now)))
  {
    hide OpenJournal, Outcomes.CanonicalBytes, Outcomes.ValidFor;
    OpenJournalClock(t, owner, lease, key, now);
    var k, body := (key.kind, key.attemptId), OutcomeBody(t, owner, lease, key, outcome, now);
    if body.Ok? && t.journal[k].committed.Some? { assert t.journal[k := t.journal[k]] == t.journal; }
  }

  lemma BeginKeeps(t: Tables, owner: Id, lease: LeaseStatus, key: Key, now: U64)
    requires Sound(t)
    ensures Transacts(t, BeginBody(t, owner, lease, key, now), owner, lease.epoch)
    ensures var body := BeginBody(t, owner, lease, key, now);
            body.Ok? ==> SameCall(body.value.journal[(key.kind, key.attemptId)], key)
  {
    hide Sound, Evolves, OpenJournal;
    OpenJournalKeeps(t, owner, lease, key, now);
    var body := BeginBody(t, owner, lease, key, now);
    var k := (key.kind, key.attemptId);
    if body.Ok? && k !in t.journal {
      PutPortCallKeeps(t.(clock := Some(now)), k, body.value.journal[k]);
      KeptTransitive(t, t.(clock := Some(now)), body.value);
    }
  }

  lemma OutcomeKeeps(t: Tables, owner: Id, lease: LeaseStatus, key: Key, outcome: Outcomes.Outcome, now: U64)
    requires Sound(t)
    ensures Transacts(t, OutcomeBody(t, owner, lease, key, outcome, now), owner, lease.epoch)
    ensures var body := OutcomeBody(t, owner, lease, key, outcome, now);
            var k := (key.kind, key.attemptId);
            body.Ok? ==> && SameCall(body.value.journal[k], key)
                         && Outcomes.CanonicalBytes(body.value.journal[k].committed.value.outcome) ==
                            Outcomes.CanonicalBytes(outcome)
  {
    hide Sound, Evolves, OpenJournal, Outcomes.CanonicalBytes;
    OpenJournalKeeps(t, owner, lease, key, now);
    var body := OutcomeBody(t, owner, lease, key, outcome, now);
    var k := (key.kind, key.attemptId);
    if body.Ok? && t.journal[k].committed.None? {
      PutPortCallKeeps(t.(clock := Some(now)), k, body.value.journal[k]);
      KeptTransitive(t, t.(clock := Some(now)), body.value);
    }
  }
}
