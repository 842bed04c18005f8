/** What every transaction of the actuator keeps by its own guards, before the
    audit looks: the shape of the rows (`Sound`) and the directions in which they
    may move (`Evolves`). */
module ActuatorInvariant {
  import opened Base
  import opened ActuationScope
  import opened ActuatorErrors
  import opened FeeReplacement
  import opened ActuatorTables
  import opened ActuatorCalls
  import Outcomes = PortCallOutcome

  // ----- the shape of the rows -----

  ghost predicate Complete(attempts: map<(Id, nat), Attempt>, e: Id, last: nat) {
    forall g: nat :: g <= last ==> (e, g) in attempts
  }

  /** The attempts of an effect from generation zero to its active generation. */
  ghost function History(attempts: map<(Id, nat), Attempt>, e: Id, last: nat): (r: seq<Attempt>)
    requires Complete(attempts, e, last)
    ensures |r| == last + 1 && forall g: nat :: g <= last ==> r[g] == attempts[(e, g)]
  {
    seq(last + 1, g requires 0 <= g <= last => attempts[(e, g)])
  }

  ghost predicate SoundOperation(attempts: map<(Id, nat), Attempt>, e: Id, op: Operation) {
    && OperationMatches(op, e, op.scope) && Minted(op.scope) && op.action.IsTerminal()
    && Complete(attempts, e, op.generation)
    && attempts[(e, op.generation)] == Attempt(op.exact, op.fee)
    && Lineage(History(attempts, e, op.generation), op.scope.feePolicy, op.scope.contractAmount)
    && (op.action.Claim? ==> op.scope.feePolicy.changeVout.None?)
    && ThresholdSound(op.seen, op.scope.minimumConfirmations)
  }

  /** The attempts of an effect are exactly its generations. */
  ghost predicate SoundOperations(operations: map<Id, Operation>, attempts: map<(Id, nat), Attempt>) {
    && (forall e :: e in operations ==> SoundOperation(attempts, e, operations[e]))
    && (forall k :: k in attempts ==> k.0 in operations && k.1 <= operations[k.0].generation)
  }

  ghost predicate SoundChoice(operations: map<Id, Operation>, k: (Id, Leg), c: Choice) {
    && c.effectId in operations
    && var op := operations[c.effectId];
       op.routeId == k.0 && op.leg == k.1 && op.action == c.action && op.exact.txid == c.txid
  }

  ghost predicate SoundChoices(choices: map<(Id, Leg), Choice>, operations: map<Id, Operation>) {
    forall k :: k in choices ==> SoundChoice(operations, k, choices[k])
  }

  ghost predicate SoundFundingRow(e: Id, row: FundingRow) {
    FundingMatches(row, e, row.scope) && Minted(row.scope) && ThresholdSound(row.seen, row.scope.minimumConfirmations)
  }

  ghost predicate SoundFunding(funding: map<Id, FundingRow>) {
    forall e :: e in funding ==> SoundFundingRow(e, funding[e])
  }

  ghost predicate FenceWithin(fence: U64, lease: Option<Lease>) {
    lease.Some? && fence <= lease.value.epoch
  }

  /** No row is fenced beyond the lease. */
  ghost predicate Fenced(t: Tables) {
    && (forall e :: e in t.operations ==> FenceWithin(t.operations[e].fence, t.lease))
    && (forall e :: e in t.funding ==> FenceWithin(t.funding[e].fence, t.lease))
    && (forall e :: e in t.transcripts ==> FenceWithin(t.transcripts[e].fence, t.lease))
  }

  ghost predicate Sound(t: Tables) {
    && SoundOperations(t.operations, t.attempts) && SoundChoices(t.choices, t.operations)
    && SoundFunding(t.funding) && Fenced(t)
  }

  // ----- the directions in which rows move -----

  /** Nothing of this effect has been sent, replaced or seen on chain. */
  predicate Untouched(op: Operation) {
    op.seen.stage.Prepared? && NeverSent(op)
  }

  /** Agreement on everything but fence, expiry, digest and active transaction. */
  predicate SameFamily(a: Scope, b: Scope) {
    a.(fenceEpoch := b.fenceEpoch, validUntil := b.validUntil, scopeDigest := b.scopeDigest,
       expectedTxid := b.expectedTxid, intentDigest := b.intentDigest) == b
  }

  predicate OperationEvolves(a: Operation, b: Operation)
    ensures a == b ==> OperationEvolves(a, b)
  {
    && a.routeId == b.routeId && a.leg == b.leg && a.action == b.action && SameFamily(a.scope, b.scope)
    && a.fence <= b.fence && a.generation <= b.generation && a.fee <= b.fee && a.sendAttempts <= b.sendAttempts
    && (Untouched(b) ==> Untouched(a))
  }

  predicate FundingRowEvolves(a: FundingRow, b: FundingRow)
    ensures a == b ==> FundingRowEvolves(a, b)
  {
    && a.routeId == b.routeId && a.leg == b.leg && SameExceptFence(a.scope, b.scope)
    && a.txid == b.txid && a.wtxid == b.wtxid && a.refundRecordDigest == b.refundRecordDigest
    && a.custodyDigest == b.custodyDigest
    && a.fence <= b.fence && a.sendAttempts <= b.sendAttempts
    && (b.seen.stage.Prepared? ==> a.seen.stage.Prepared?)
  }

  /** A column once written keeps its value. */
  predicate WrittenOnce<T(==)>(a: Option<T>, b: Option<T>) {
    a.Some? ==> a == b
  }

  predicate TranscriptEvolves(a: Transcript, b: Transcript)
    ensures a == b ==> TranscriptEvolves(a, b)
  {
    && a.routeId == b.routeId && a.participantId == b.participantId && a.role == b.role
    && a.authorityDigest == b.authorityDigest && a.sessionDigest == b.sessionDigest && a.fence <= b.fence
    && WrittenOnce(a.localNonce, b.localNonce) && WrittenOnce(a.remoteNonce, b.remoteNonce)
    && WrittenOnce(a.transcriptDigest, b.transcriptDigest) && WrittenOnce(a.parity, b.parity)
    && WrittenOnce(a.localPartial, b.localPartial) && WrittenOnce(a.remotePartial, b.remotePartial)
    && (a.verified ==> b.verified)
  }

  predicate PortCallEvolves(a: PortCall, b: PortCall)
    ensures a == b ==> PortCallEvolves(a, b)
  {
    && a.requestDigest == b.requestDigest && a.locator == b.locator && a.createdAt == b.createdAt
    && WrittenOnce(a.committed, b.committed)
  }

  ghost predicate OperationsEvolve(a: map<Id, Operation>, b: map<Id, Operation>)
    ensures a == b ==> OperationsEvolve(a, b)
  {
    forall e :: e in a ==> e in b && OperationEvolves(a[e], b[e])
  }

  ghost predicate AttemptsEvolve(a: map<(Id, nat), Attempt>, b: map<(Id, nat), Attempt>)
    ensures a == b ==> AttemptsEvolve(a, b)
  {
    forall k :: k in a ==> k in b && a[k] == b[k]
  }

  ghost predicate ChoicesEvolve(a: map<(Id, Leg), Choice>, b: map<(Id, Leg), Choice>)
    ensures a == b ==> ChoicesEvolve(a, b)
  {
    forall k :: k in a ==> k in b && a[k].effectId == b[k].effectId && a[k].action == b[k].action
  }

  ghost predicate FundingEvolves(a: map<Id, FundingRow>, b: map<Id, FundingRow>)
    ensures a == b ==> FundingEvolves(a, b)
  {
    forall e :: e in a ==> e in b && FundingRowEvolves(a[e], b[e])
  }

  ghost predicate TranscriptsEvolve(a: map<Id, Transcript>, b: map<Id, Transcript>)
    ensures a == b ==> TranscriptsEvolve(a, b)
  {
    forall e :: e in a ==> e in b && TranscriptEvolves(a[e], b[e])
  }

  ghost predicate JournalEvolves(a: map<(Outcomes.CallKind, Id), PortCall>, b: map<(Outcomes.CallKind, Id), PortCall>)
    ensures a == b ==> JournalEvolves(a, b)
  {
    forall k :: k in a ==> k in b && PortCallEvolves(a[k], b[k])
  }

  /** Clock and epoch never fall, an epoch has one owner, a store one participant. */
  predicate SingletonsEvolve(a: Tables, b: Tables) {
    && (a.clock.Some? ==> b.clock.Some? && a.clock.value <= b.clock.value)
    && (a.lease.Some? ==> && b.lease.Some? && a.lease.value.epoch <= b.lease.value.epoch
                          && (a.lease.value.epoch == b.lease.value.epoch ==>
                                a.lease.value.owner == b.lease.value.owner))
    && WrittenOnce(a.participant, b.participant)
  }

  ghost predicate Evolves(a: Tables, b: Tables) {
    && OperationsEvolve(a.operations, b.operations) && AttemptsEvolve(a.attempts, b.attempts)
    && ChoicesEvolve(a.choices, b.choices) && FundingEvolves(a.funding, b.funding)
    && TranscriptsEvolve(a.transcripts, b.transcripts) && JournalEvolves(a.journal, b.journal) && SingletonsEvolve(a, b)
  }

  lemma EvolvesTransitive(a: Tables, b: Tables, c: Tables)
    requires Evolves(a, b) && Evolves(b, c)
    ensures Evolves(a, c)
  {
    assert OperationsEvolve(a.operations, c.operations)
      by { OperationsTransitive(a.operations, b.operations, c.operations); }
    assert FundingEvolves(a.funding, c.funding) by { FundingTransitive(a.funding, b.funding, c.funding); }
    hide OperationsEvolve, FundingEvolves;
  }

  lemma OperationsTransitive(a: map<Id, Operation>, b: map<Id, Operation>, c: map<Id, Operation>)
    requires OperationsEvolve(a, b) && OperationsEvolve(b, c)
    ensures OperationsEvolve(a, c)
  {
    forall e | e in a
      ensures e in c && OperationEvolves(a[e], c[e])
    {
      assert OperationEvolves(a[e], b[e]) && OperationEvolves(b[e], c[e]);
    }
  }

  lemma FundingTransitive(a: map<Id, FundingRow>, b: map<Id, FundingRow>, c: map<Id, FundingRow>)
    requires FundingEvolves(a, b) && FundingEvolves(b, c)
    ensures FundingEvolves(a, c)
  {
    forall e | e in a
      ensures e in c && FundingRowEvolves(a[e], c[e])
    {
      assert FundingRowEvolves(a[e], b[e]) && FundingRowEvolves(b[e], c[e]);
    }
  }

  // ----- one row at a time -----

  /** `b` is a sound successor of `a` under the same lease. */
  ghost predicate Kept(a: Tables, b: Tables) {
    Sound(b) && Evolves(a, b) && a.lease == b.lease
  }

  lemma KeptTransitive(a: Tables, b: Tables, c: Tables)
    requires Kept(a, b) && Kept(b, c)
    ensures Kept(a, c)
  {
    EvolvesTransitive(a, b, c);
  }

  lemma ClockKeeps(t: Tables, now: U64)
    requires Sound(t) && ClockAllows(t, now).Ok?
    ensures Kept(t, t.(clock := Some(now)))
  {
  }

  /** An operation may be rewritten if its new row is sound. */
  lemma PutSound(operations: map<Id, Operation>, attempts: map<(Id, nat), Attempt>, e: Id, op: Operation)
    requires forall d :: d in operations && d != e ==> SoundOperation(attempts, d, operations[d])
    requires SoundOperation(attempts, e, op)
    requires forall k :: k in attempts && k.0 != e ==> k.0 in operations && k.1 <= operations[k.0].generation
    requires forall g: nat :: (e, g) in attempts ==> g <= op.generation
    ensures SoundOperations(operations[e := op], attempts)
  {
    hide SoundOperation;
    forall k | k in attempts
      ensures k.0 in operations[e := op] && k.1 <= operations[e := op][k.0].generation
    {
      assert k == (k.0, k.1);
    }
  }

  /** A choice follows the row of its effect. */
  lemma PutChoices(operations: map<Id, Operation>, choices: map<(Id, Leg), Choice>, e: Id, op: Operation)
    requires SoundChoices(choices, operations)
    requires e in operations ==> OperationEvolves(operations[e], op) && op.exact == operations[e].exact
    ensures SoundChoices(choices, operations[e := op])
  {
    forall k | k in choices
      ensures SoundChoice(operations[e := op], k, choices[k])
    {
      assert SoundChoice(operations, k, choices[k]);
    }
  }

  lemma PutEvolves(operations: map<Id, Operation>, e: Id, op: Operation)
    requires e in operations ==> OperationEvolves(operations[e], op)
    ensures OperationsEvolve(operations, operations[e := op])
  {
    hide OperationEvolves;
  }

  /** Rewriting an operation without touching its transaction. */
  lemma PutOperationKeeps(t: Tables, e: Id, op: Operation)
    requires Sound(t) && e in t.operations
    requires OperationEvolves(t.operations[e], op) && SoundOperation(t.attempts, e, op)
    requires op.generation == t.operations[e].generation && op.exact == t.operations[e].exact
             && FenceWithin(op.fence, t.lease)
    ensures Kept(t, PutOperation(t, e, op))
  {
    hide SoundOperation, OperationEvolves, SoundChoices, OperationsEvolve;
    PutSound(t.operations, t.attempts, e, op);
    PutChoices(t.operations, t.choices, e, op);
    PutEvolves(t.operations, e, op);
    hide SoundOperations;
  }

  lemma NewOperationKeeps(t: Tables, e: Id, op: Operation)
    requires Sound(t) && e !in t.operations && op.generation == 0 && FenceWithin(op.fence, t.lease)
    requires SoundOperation(t.attempts[(e, 0) := Attempt(op.exact, op.fee)], e, op)
    ensures Kept(t, t.(operations := t.operations[e := op],
                       attempts := t.attempts[(e, 0) := Attempt(op.exact, op.fee)]))
  {
    hide SoundOperation, SoundOperations, SoundChoices, AttemptsEvolve, OperationsEvolve;
    GrowSound(t.operations, t.attempts, e, op);
    PutChoices(t.operations, t.choices, e, op);
    PutEvolves(t.operations, e, op);
  }

  /** A new attempt of one effect leaves the other operations sound. */
  lemma AddAttempt(operations: map<Id, Operation>, attempts: map<(Id, nat), Attempt>, e: Id, g: nat, a: Attempt)
    requires SoundOperations(operations, attempts) && (e, g) !in attempts
    ensures forall d :: d in operations && d != e ==> SoundOperation(attempts[(e, g) := a], d, operations[d])
  {
    hide Minted, Lineage, OperationMatches, ThresholdSound;
    forall d | d in operations && d != e
      ensures SoundOperation(attempts[(e, g) := a], d, operations[d])
    {
      OtherAttempts(attempts, attempts[(e, g) := a], d, operations[d]);
    }
  }

  /** The first or the next generation of an effect. */
  lemma GrowSound(operations: map<Id, Operation>, attempts: map<(Id, nat), Attempt>, e: Id, op: Operation)
    requires SoundOperations(operations, attempts)
    requires op.generation == if e in operations then operations[e].generation + 1 else 0
    requires SoundOperation(attempts[(e, op.generation as nat) := Attempt(op.exact, op.fee)], e, op)
    ensures (e, op.generation as nat) !in attempts
    ensures SoundOperations(operations[e := op], attempts[(e, op.generation as nat) := Attempt(op.exact, op.fee)])
    ensures AttemptsEvolve(attempts, attempts[(e, op.generation as nat) := Attempt(op.exact, op.fee)])
  {
    hide SoundOperation;
    var after := attempts[(e, op.generation as nat) := Attempt(op.exact, op.fee)];
    AddAttempt(operations, attempts, e, op.generation, Attempt(op.exact, op.fee));
    PutSound(operations, after, e, op);
  }

  /** An operation's soundness depends on its own attempts only. */
  lemma OtherAttempts(a: map<(Id, nat), Attempt>, b: map<(Id, nat), Attempt>, e: Id, op: Operation)
    requires SoundOperation(a, e, op)
    requires forall g: nat :: g <= op.generation ==> (e, g) in b && ((e, g) in a ==> b[(e, g)] == a[(e, g)])
    ensures SoundOperation(b, e, op)
  {
    assert History(a, e, op.generation) == History(b, e, op.generation);
  }

  lemma RechosenSound(operations: map<Id, Operation>, choices: map<(Id, Leg), Choice>, e: Id, op: Operation)
    requires SoundChoices(choices, operations) && e in operations && OperationEvolves(operations[e], op)
    ensures SoundChoices(Rechosen(choices, (op.routeId, op.leg), e, op.exact.txid), operations[e := op])
    ensures ChoicesEvolve(choices, Rechosen(choices, (op.routeId, op.leg), e, op.exact.txid))
  {
    var after := Rechosen(choices, (op.routeId, op.leg), e, op.exact.txid);
    forall k | k in after
      ensures SoundChoice(operations[e := op], k, after[k])
    {
      assert SoundChoice(operations, k, choices[k]);
    }
  }

  /** The next generation of an operation; its choice, if made, follows. */
  lemma ReplaceKeeps(t: Tables, e: Id, op: Operation, attempts: map<(Id, nat), Attempt>,
                     choices: map<(Id, Leg), Choice>)
    requires Sound(t) && e in t.operations && OperationEvolves(t.operations[e], op)
    requires op.generation == t.operations[e].generation + 1 && FenceWithin(op.fence, t.lease)
    requires attempts == t.attempts[(e, op.generation as nat) := Attempt(op.exact, op.fee)]
    requires SoundOperation(attempts, e, op)
    requires choices == Rechosen(t.choices, (op.routeId, op.leg), e, op.exact.txid)
    ensures Kept(t, PutOperation(t, e, op).(attempts := attempts, choices := choices))
  {
    hide SoundOperation, SoundOperations, OperationEvolves, SoundChoices, AttemptsEvolve, ChoicesEvolve,
         OperationsEvolve;
    GrowSound(t.operations, t.attempts, e, op);
    RechosenSound(t.operations, t.choices, e, op);
    PutEvolves(t.operations, e, op);
  }

  lemma ChoiceKeeps(t: Tables, k: (Id, Leg), c: Choice)
    requires Sound(t) && k !in t.choices && SoundChoice(t.operations, k, c)
    ensures Kept(t, t.(choices := t.choices[k := c]))
  {
    hide SoundChoice, SoundOperations;
  }

  lemma PutFundingKeeps(t: Tables, e: Id, row: FundingRow)
    requires Sound(t) && SoundFundingRow(e, row) && FenceWithin(row.fence, t.lease)
    requires e in t.funding ==> FundingRowEvolves(t.funding[e], row)
    ensures Kept(t, PutFunding(t, e, row))
  {
    hide SoundFundingRow, FundingRowEvolves, SoundOperations, SoundChoices;
  }

  lemma PutTranscriptKeeps(t: Tables, e: Id, c: Transcript)
    requires Sound(t) && FenceWithin(c.fence, t.lease)
    requires e in t.transcripts ==> TranscriptEvolves(t.transcripts[e], c)
    ensures Kept(t, PutTranscript(t, e, c))
  {
    hide TranscriptEvolves, SoundOperations, SoundChoices, SoundFunding;
  }

  lemma PutPortCallKeeps(t: Tables, k: (Outcomes.CallKind, Id), row: PortCall)
    requires Sound(t) && (k in t.journal ==> PortCallEvolves(t.journal[k], row))
    ensures Kept(t, t.(journal := t.journal[k := row]))
  {
    hide PortCallEvolves, SoundOperations, SoundChoices, SoundFunding;
  }
}
