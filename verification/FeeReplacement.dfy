/** Exact transactions, the fee of generation zero, and fee-bumping replacements. */
module FeeReplacement {
  import opened Base
  import opened ActuationScope
  import opened ActuatorErrors

  datatype TxIn = TxIn(previousOutput: Outpoint, sequence: U32, scriptSig: Bytes)
  datatype TxOut = TxOut(value: U64, script: Bytes)
  /** `vsize` is the virtual size of the whole witness-bearing transaction. */
  datatype Transaction = Transaction(version: int, lockTime: U32, inputs: seq<TxIn>, outputs: seq<TxOut>, vsize: nat)

  /** A transaction with its consensus bytes and the commitments derived from them. */
  datatype ExactTx = ExactTx(tx: Transaction, raw: Bytes, txid: Bytes32, wtxid: Bytes32, intentDigest: Bytes32,
                             invariantDigest: Bytes32)

  datatype Attempt = Attempt(exact: ExactTx, fee: U64)

  function OutputSum(outputs: seq<TxOut>): (r: nat) {
    if outputs == [] then 0 else outputs[0].value + OutputSum(outputs[1..])
  }

  /** Admission of a claim or refund transaction under its scope. */
  function ValidateTerminal(scope: Scope, exact: ExactTx): Result<Unit> {
    var _ :- Check(scope.action.IsTerminal() && scope.expectedTxid == exact.txid
                   && scope.intentDigest == exact.intentDigest && |exact.tx.inputs| == 1, TransactionMismatch);
    var _ :- Check(scope.contractOutpoint.Some?, InvalidScope);
    var _ :- Check(exact.tx.inputs[0].previousOutput == scope.contractOutpoint.value, TransactionMismatch);
    var total := OutputSum(exact.tx.outputs);
    var _ :- Check(total < U64_LIMIT, InvalidTransaction);
    var _ :- Check(scope.contractAmount >= total, TransactionMismatch);
    var _ :- Check(scope.contractAmount - total == scope.feePolicy.initialFee, TransactionMismatch);
    Check(!(scope.action.Claim? && scope.feePolicy.changeVout.Some?), InvalidScope)
  }

  /** Satoshis per virtual byte, rounded up; there is none for an empty size. */
  function CeilRate(fee: nat, vsize: nat): (r: nat)
    requires vsize > 0
  {
    (fee + vsize - 1) / vsize
  }

  /** Everything but the values of the outputs is the same. */
  predicate SameSkeleton(a: Transaction, b: Transaction) {
    && a.version == b.version && a.lockTime == b.lockTime && a.inputs == b.inputs
    && |a.outputs| == |b.outputs|
    && (forall i :: 0 <= i < |a.outputs| ==> a.outputs[i].script == b.outputs[i].script)
  }

  predicate SameExceptAt(a: seq<TxOut>, b: seq<TxOut>, change: nat) {
    |a| == |b| && forall i :: 0 <= i < |a| && i != change ==> a[i].value == b[i].value
  }

  /** The replacement keeps the skeleton and every value but the change, which falls. */
  predicate OnlyChangeFalls(previous: Transaction, replacement: Transaction, change: nat) {
    && SameSkeleton(previous, replacement) && change < |previous.outputs|
    && SameExceptAt(previous.outputs, replacement.outputs, change)
    && replacement.outputs[change].value < previous.outputs[change].value
  }

  predicate WithinCaps(fee: nat, vsize: nat, policy: FeePolicy) {
    && vsize > 0 && fee + vsize - 1 < U64_LIMIT
    && fee <= policy.maximumFee && CeilRate(fee, vsize) <= policy.maximumRate
  }

  /** The fee of an admissible replacement; every refusal is the one
      unsafe-replacement error. */
  function ReplacementFee(previous: Transaction, replacement: Transaction, previousFee: U64,
                          policy: FeePolicy): (r: Result<U64>) {
    if policy.changeVout.None? || !OnlyChangeFalls(previous, replacement, policy.changeVout.value)
    then Err(UnsafeReplacement)
    else
      var change := policy.changeVout.value;
      var fee := previousFee + previous.outputs[change].value - replacement.outputs[change].value;
      if WithinCaps(fee, replacement.vsize, policy) then Ok(fee) else Err(UnsafeReplacement)
  }

  lemma ReplacementMovesOutputs(previous: Transaction, replacement: Transaction, previousFee: U64, policy: FeePolicy)
    requires ReplacementFee(previous, replacement, previousFee, policy).Ok?
    ensures previous.outputs != replacement.outputs
  {
  }

  method ValidateReplacement(previous: Transaction, replacement: Transaction, previousFee: U64, policy: FeePolicy)
    returns (r: Result<U64>)
    ensures r == ReplacementFee(previous, replacement, previousFee, policy)
  {
    if previous.version != replacement.version || previous.lockTime != replacement.lockTime
       || |previous.inputs| != |replacement.inputs| || |previous.outputs| != |replacement.outputs|
       || policy.changeVout.None? {
      return Err(UnsafeReplacement);
    }
    for i := 0 to |previous.inputs|
      invariant forall k :: 0 <= k < i ==> previous.inputs[k] == replacement.inputs[k]
    {
      var older, newer := previous.inputs[i], replacement.inputs[i];
      if older.previousOutput != newer.previousOutput || older.sequence != newer.sequence
        || older.scriptSig != newer.scriptSig {
        return Err(UnsafeReplacement);
      }
    }
    var change := policy.changeVout.value;
    if change >= |previous.outputs| { return Err(UnsafeReplacement); }
    var reduction := 0;
    for i := 0 to |previous.outputs|
      invariant forall k :: 0 <= k < i ==> previous.outputs[k].script == replacement.outputs[k].script
      invariant forall k :: 0 <= k < i && k != change ==> previous.outputs[k].value == replacement.outputs[k].value
      invariant change < i ==> reduction == previous.outputs[change].value - replacement.outputs[change].value > 0
    {
      var older, newer := previous.outputs[i], replacement.outputs[i];
      if older.script != newer.script { return Err(UnsafeReplacement); }
      if i == change {
        if older.value <= newer.value { return Err(UnsafeReplacement); }
        reduction := older.value - newer.value;
      } else if older.value != newer.value {
        return Err(UnsafeReplacement);
      }
    }
    assert previous.inputs == replacement.inputs;
    var fee := previousFee + reduction;
    if fee >= U64_LIMIT || replacement.vsize == 0
      || fee + replacement.vsize - 1 >= U64_LIMIT { return Err(UnsafeReplacement); }
    if fee > policy.maximumFee
      || CeilRate(fee, replacement.vsize) > policy.maximumRate { return Err(UnsafeReplacement); }
    return Ok(fee);
  }

  /** Lists that differ at one index differ in their sums by that entry only. */
  lemma {:induction false} SumsDifferAt(a: seq<TxOut>, b: seq<TxOut>, change: nat)
    requires SameExceptAt(a, b, change) && change < |a|
    ensures OutputSum(a) + b[change].value == OutputSum(b) + a[change].value
  {
    if change == 0 {
      SumsEqual(a[1..], b[1..]);
    } else {
      SumsDifferAt(a[1..], b[1..], change - 1);
    }
  }

  lemma {:induction false} SumsEqual(a: seq<TxOut>, b: seq<TxOut>)
    requires |a| == |b| && forall i :: 0 <= i < |a| ==> a[i].value == b[i].value
    ensures OutputSum(a) == OutputSum(b)
  {
    if a != [] { SumsEqual(a[1..], b[1..]); }
  }

  /** A replacement moves satoshis from the change to the fee and nowhere else. */
  lemma ReplacementConserves(previous: Transaction, replacement: Transaction, previousFee: U64, policy: FeePolicy)
    requires ReplacementFee(previous, replacement, previousFee, policy).Ok?
    ensures OutputSum(previous.outputs) + previousFee
            == OutputSum(replacement.outputs) + ReplacementFee(previous, replacement, previousFee, policy).value
    ensures ReplacementFee(previous, replacement, previousFee, policy).value > previousFee
  {
    SumsDifferAt(previous.outputs, replacement.outputs, policy.changeVout.value);
  }

  // ----- chains of replacements -----

  /** Each attempt is an admissible replacement of the one before. */
  predicate Chain(attempts: seq<Attempt>, policy: FeePolicy) {
    forall g :: 0 < g < |attempts| ==>
      ReplacementFee(attempts[g - 1].exact.tx, attempts[g].exact.tx, attempts[g - 1].fee, policy) == Ok(attempts[g].fee)
  }

  /** Admitted generation zero followed by admissible replacements, all paid out
      of one contract amount. */
  predicate Lineage(attempts: seq<Attempt>, policy: FeePolicy, contractAmount: nat) {
    && attempts != [] && attempts[0].fee == policy.initialFee
    && OutputSum(attempts[0].exact.tx.outputs) + attempts[0].fee == contractAmount
    && Chain(attempts, policy)
  }

  predicate SameButChange(first: Transaction, later: Transaction, policy: FeePolicy) {
    && SameSkeleton(first, later)
    && (forall i :: 0 <= i < |first.outputs| && policy.changeVout != Some(i) ==>
          first.outputs[i].value == later.outputs[i].value)
  }

  /** Every generation conserves the contract amount, keeps inputs, scripts and
      non-change outputs of generation zero, and has raised the fee by at least one
      satoshi per generation, within the absolute cap and, from generation one on,
      within the per-vbyte cap. */
  lemma {:induction false} LineageFacts(attempts: seq<Attempt>, policy: FeePolicy, contractAmount: nat, g: nat)
    requires Lineage(attempts, policy, contractAmount) && g < |attempts| && policy.initialFee <= policy.maximumFee
    ensures OutputSum(attempts[g].exact.tx.outputs) + attempts[g].fee == contractAmount
    ensures SameButChange(attempts[0].exact.tx, attempts[g].exact.tx, policy)
    ensures policy.initialFee + g <= attempts[g].fee <= policy.maximumFee
    ensures g > 0 ==> WithinCaps(attempts[g].fee, attempts[g].exact.tx.vsize, policy)
    ensures g > 0 ==> attempts[g - 1].fee < attempts[g].fee && policy.changeVout.Some?
  {
    if g > 0 {
      LineageFacts(attempts, policy, contractAmount, g - 1);
      ReplacementConserves(attempts[g - 1].exact.tx, attempts[g].exact.tx, attempts[g - 1].fee, policy);
    }
  }

  /** So a lineage is never longer than the fee headroom of its policy, and without
      a change output it never leaves generation zero. */
  lemma LineageBounded(attempts: seq<Attempt>, policy: FeePolicy, contractAmount: nat)
    requires Lineage(attempts, policy, contractAmount) && policy.initialFee <= policy.maximumFee
    ensures |attempts| - 1 <= policy.maximumFee - policy.initialFee
    ensures policy.changeVout.None? ==> |attempts| == 1
  {
    LineageFacts(attempts, policy, contractAmount, |attempts| - 1);
  }

  lemma LineageStart(scope: Scope, exact: ExactTx)
    requires ValidateTerminal(scope, exact).Ok?
    ensures Lineage([Attempt(exact, scope.feePolicy.initialFee)], scope.feePolicy, scope.contractAmount)
  {
  }

  lemma LineageExtend(attempts: seq<Attempt>, policy: FeePolicy, contractAmount: nat, next: Attempt)
    requires Lineage(attempts, policy, contractAmount)
    requires var last := attempts[|attempts| - 1];
             ReplacementFee(last.exact.tx, next.exact.tx, last.fee, policy) == Ok(next.fee)
    ensures Lineage(attempts + [next], policy, contractAmount)
  {
    var longer := attempts + [next];
    forall g | 0 < g < |longer|
      ensures ReplacementFee(longer[g - 1].exact.tx, longer[g].exact.tx, longer[g - 1].fee, policy) == Ok(longer[g].fee)
    {
      if g < |attempts| { assert longer[g - 1] == attempts[g - 1] && longer[g] == attempts[g]; }
    }
  }

  // ----- the per-vbyte cap of generation zero -----

  function Repeat(b: Byte): (r: Bytes32)
    ensures b != 0 ==> !Zero(r)
  {
    var r: Bytes32 := seq(32, _ => b);
    assert r[0] == b;
    r
  }

  /** A request for a refund of 1000 satoshis with an initial fee of 999 under a cap
      of one satoshi per vbyte, and a deployment that grants it. */
  function ExpensiveRequest(): (Deployment, Request) {
    var some := Repeat(1);
    (Deployment(true, Some(Regtest), some, 1, some, some, some, 1, some, [], 1, 1),
     Request(some, some, Upstream, Refund, 1, some, some, some, Some(Outpoint(some, 0)), 1000, None,
             FeePolicy(999, 999, 1, None), 1))
  }

  /** The refund itself, of 100 vbytes. */
  function ExpensiveTx(): ExactTx {
    var some := Repeat(1);
    ExactTx(Transaction(2, 0, [TxIn(Outpoint(some, 0), 0, [])], [TxOut(1, [])], 100), [0], some, some, some, some)
  }

  function ExpensiveScope(hash: Hash): Scope {
    var (d, q) := ExpensiveRequest();
    Authorize(hash, d, q).value
  }

  lemma ExpensiveIsGranted(hash: Hash)
    ensures WellFormed(ExpensiveScope(hash)) && Authentic(hash, ExpensiveScope(hash))
  {
    hide Parse, Decode, CanonicalBytes, BytesWithoutDigest;
    var (d, q) := ExpensiveRequest();
    AuthorizedDecodes(hash, d, q);
    DecodeCanonical(hash, ExpensiveScope(hash));
  }

  /** Admission compares the fee with the policy's initial fee but never with its
      per-vbyte cap: whatever the commitment, a scope is granted under which a
      transaction above the cap is admitted. */
  lemma RateOfGenerationZeroUnchecked(hash: Hash)
    ensures var scope, exact := ExpensiveScope(hash), ExpensiveTx();
            && WellFormed(scope) && Authentic(hash, scope) && ValidateTerminal(scope, exact).Ok?
            && CeilRate(scope.feePolicy.initialFee, exact.tx.vsize) > scope.feePolicy.maximumRate
  {
    hide WellFormed, Authentic;
    ExpensiveIsGranted(hash);
    assert OutputSum([TxOut(1, [])]) == 1 + OutputSum([TxOut(1, [])][1..]) == 1;
  }

  ghost function SomeMinted(): (s: Scope)
    ensures Minted(s)
  {
    ExpensiveIsGranted(COMMITMENT);
    ExpensiveScope(COMMITMENT)
  }

  /** A scope as callers hold it. */
  type Capability = s: Scope | Minted(s) ghost witness SomeMinted()
}
