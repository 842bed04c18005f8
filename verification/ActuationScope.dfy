/** The route/effect/action capability of the Bitcoin actuator and its 554-byte
    canonical form. */
module ActuationScope {
  import opened Base
  import opened FieldList

  datatype Leg = Upstream | Downstream
  datatype Action = Funding | Claim | Refund {
    predicate IsTerminal() { Claim? || Refund? }
  }
  datatype Network = Regtest | CustomSignet | PublicSignet

  datatype Outpoint = Outpoint(txid: Bytes32, vout: U32)

  datatype FeePolicy = FeePolicy(initialFee: U64, maximumFee: U64, maximumRate: U64, changeVout: Option<U32>) {
    predicate Valid(deploymentMaximumRate: U64) {
      initialFee != 0 && maximumFee >= initialFee && 0 < maximumRate <= deploymentMaximumRate
    }
  }

  datatype Scope = Scope(
    routeId: Bytes32,
    effectId: Bytes32,
    leg: Leg,
    action: Action,
    fenceEpoch: U64,
    termsDigest: Bytes32,
    registryDigest: Bytes32,
    registryEpoch: U64,
    profileDigest: Bytes32,
    assetBindingDigest: Bytes32,
    chainId: Bytes32,
    deploymentDigest: Bytes32,
    network: Network,
    genesisHash: Bytes32,
    signetChallengeDigest: Bytes32,
    expectedTxid: Bytes32,
    intentDigest: Bytes32,
    contractOutpoint: Option<Outpoint>,
    contractAmount: U64,
    refundRecordDigest: Option<Bytes32>,
    feePolicy: FeePolicy,
    minimumConfirmations: U32,
    validUntil: U64,
    scopeDigest: Bytes32)

  /** Domain-separated 32-byte commitments, left uninterpreted. */
  datatype Domain = ScopeDomain | DeploymentDomain | ChallengeDomain
  type Hash = (Domain, Bytes) -> Bytes32

  const MAX_MONEY_SAT: nat := 21_000_000 * 100_000_000
  const MAX_SIGNET_CHALLENGE_BYTES: nat := 10_000
  const ACTUATION_SCOPE_BYTES: nat := 554
  const U64_MAX: U64 := U64_LIMIT - 1

  predicate Zero(b: Bytes32) { b == Zeros(32) }

  /** What both the authorisation and the decoder demand of the field values. */
  predicate WellFormed(s: Scope) {
    && !Zero(s.routeId) && !Zero(s.effectId) && s.fenceEpoch != 0
    && !Zero(s.termsDigest) && !Zero(s.registryDigest) && s.registryEpoch != 0
    && !Zero(s.profileDigest) && !Zero(s.assetBindingDigest) && !Zero(s.chainId)
    && !Zero(s.genesisHash) && !Zero(s.expectedTxid) && !Zero(s.intentDigest)
    && 0 < s.contractAmount <= MAX_MONEY_SAT
    && s.minimumConfirmations != 0 && s.validUntil != 0
    && (s.action.IsTerminal() ==> s.contractOutpoint.Some?)
    && (s.action.Funding? ==>
          s.contractOutpoint.None? && s.refundRecordDigest.Some? && !Zero(s.refundRecordDigest.value))
    && s.feePolicy.Valid(U64_MAX)
  }

  // ----- encoding -----

  function LegTag(leg: Leg): Byte { match leg case Upstream => 1 case Downstream => 2 }
  function ActionTag(action: Action): Byte { match action case Funding => 1 case Claim => 2 case Refund => 3 }
  function NetworkTag(network: Network): Byte {
    match network case Regtest => 1 case CustomSignet => 2 case PublicSignet => 3
  }

  function LegFromTag(tag: Byte): Option<Leg> {
    if tag == 1 then Some(Upstream) else if tag == 2 then Some(Downstream) else None
  }
  function ActionFromTag(tag: Byte): Option<Action> {
    if tag == 1 then Some(Funding) else if tag == 2 then Some(Claim) else if tag == 3 then Some(Refund) else None
  }
  function NetworkFromTag(tag: Byte): Option<Network> {
    if tag == 1 then Some(Regtest) else if tag == 2 then Some(CustomSignet) else if tag == 3 then Some(PublicSignet)
    else None
  }

  /** Fields in front of the fence: the identity a takeover must keep. */
  function PrefixFields(s: Scope): seq<Bytes> {
    [s.routeId, s.effectId, [LegTag(s.leg)], [ActionTag(s.action)]]
  }

  function OutpointFields(o: Option<Outpoint>): seq<Bytes> {
    match o
    case Some(p) => [[1], p.txid, BigEndian(p.vout, 4)]
    case None => [[0], Zeros(32), Zeros(4)]
  }

  function RefundFields(d: Option<Bytes32>): seq<Bytes> {
    match d case Some(v) => [[1], v] case None => [[0], Zeros(32)]
  }

  function ChangeFields(c: Option<U32>): seq<Bytes> {
    match c case Some(v) => [[1], BigEndian(v, 4)] case None => [[0], BigEndian(0, 4)]
  }

  function AuthorityFields(s: Scope): seq<Bytes> {
    [s.termsDigest, s.registryDigest, BigEndian(s.registryEpoch, 8), s.profileDigest,
     s.assetBindingDigest, s.chainId, s.deploymentDigest, [NetworkTag(s.network)],
     s.genesisHash, s.signetChallengeDigest, s.expectedTxid, s.intentDigest]
  }

  function MoneyFields(s: Scope): seq<Bytes> {
    OutpointFields(s.contractOutpoint) + [BigEndian(s.contractAmount, 8)] + RefundFields(s.refundRecordDigest)
    + [BigEndian(s.feePolicy.initialFee, 8), BigEndian(s.feePolicy.maximumFee, 8),
       BigEndian(s.feePolicy.maximumRate, 8)]
    + ChangeFields(s.feePolicy.changeVout) + [BigEndian(s.minimumConfirmations, 4)]
  }

  /** Fields between the fence and the expiry. */
  function BodyFields(s: Scope): seq<Bytes> {
    AuthorityFields(s) + MoneyFields(s)
  }

  function BytesWithoutDigest(s: Scope): Bytes {
    Flatten(PrefixFields(s)) + BigEndian(s.fenceEpoch, 8) + Flatten(BodyFields(s)) + BigEndian(s.validUntil, 8)
  }

  function CanonicalBytes(s: Scope): Bytes {
    BytesWithoutDigest(s) + s.scopeDigest
  }

  // ----- layout -----

  const PREFIX_WIDTHS: seq<nat> := [32, 32, 1, 1]
  const AUTHORITY_WIDTHS: seq<nat> := [32, 32, 8, 32, 32, 32, 32, 1, 32, 32, 32, 32]
  const MONEY_WIDTHS: seq<nat> := [1, 32, 4, 8, 1, 32, 8, 8, 8, 1, 4, 4]

  predicate HasWidths(fields: seq<Bytes>, widths: seq<nat>) {
    |fields| == |widths| && forall i :: 0 <= i < |fields| ==> |fields[i]| == widths[i]
  }

  type Prefix = f: seq<Bytes> | HasWidths(f, PREFIX_WIDTHS) witness [Zeros(32), Zeros(32), [0], [0]]
  type Authority = f: seq<Bytes> | HasWidths(f, AUTHORITY_WIDTHS)
    witness [Zeros(32), Zeros(32), Zeros(8), Zeros(32), Zeros(32), Zeros(32), Zeros(32), [0], Zeros(32), Zeros(32),
             Zeros(32), Zeros(32)]
  type Money = f: seq<Bytes> | HasWidths(f, MONEY_WIDTHS)
    witness [[0], Zeros(32), Zeros(4), Zeros(8), [0], Zeros(32), Zeros(8), Zeros(8), Zeros(8), [0], Zeros(4), Zeros(4)]

  lemma PrefixLayout(s: Scope)
    ensures HasWidths(PrefixFields(s), PREFIX_WIDTHS) && |Flatten(PrefixFields(s))| == 66
  {
    FlattenLength(PrefixFields(s), PREFIX_WIDTHS);
    PrefixSum();
  }

  lemma AuthorityLayout(s: Scope)
    ensures HasWidths(AuthorityFields(s), AUTHORITY_WIDTHS) && |Flatten(AuthorityFields(s))| == 329
  {
    FlattenLength(AuthorityFields(s), AUTHORITY_WIDTHS);
    AuthoritySum();
  }

  lemma MoneyLayout(s: Scope)
    ensures HasWidths(MoneyFields(s), MONEY_WIDTHS) && |Flatten(MoneyFields(s))| == 111
  {
    FlattenLength(MoneyFields(s), MONEY_WIDTHS);
    MoneySum();
  }

  lemma PrefixSum()
    ensures Sum(PREFIX_WIDTHS) == 66
  {
    Sum4(32, 32, 1, 1);
  }

  lemma AuthoritySum()
    ensures Sum(AUTHORITY_WIDTHS) == 329
  {
    Sum4(32, 32, 8, 32);
    Sum4(32, 32, 32, 1);
    Sum4(32, 32, 32, 32);
    SumConcat([32, 32, 8, 32], [32, 32, 32, 1]);
    SumConcat([32, 32, 8, 32] + [32, 32, 32, 1], [32, 32, 32, 32]);
    assert AUTHORITY_WIDTHS == [32, 32, 8, 32] + [32, 32, 32, 1] + [32, 32, 32, 32];
  }

  lemma MoneySum()
    ensures Sum(MONEY_WIDTHS) == 111
  {
    Sum4(1, 32, 4, 8);
    Sum4(1, 32, 8, 8);
    Sum4(8, 1, 4, 4);
    SumConcat([1, 32, 4, 8], [1, 32, 8, 8]);
    SumConcat([1, 32, 4, 8] + [1, 32, 8, 8], [8, 1, 4, 4]);
    assert MONEY_WIDTHS == [1, 32, 4, 8] + [1, 32, 8, 8] + [8, 1, 4, 4];
  }

  /** The canonical form has the frozen length. */
  lemma CanonicalLength(s: Scope)
    ensures |Flatten(PrefixFields(s))| == 66 && |Flatten(BodyFields(s))| == 440
    ensures |CanonicalBytes(s)| == ACTUATION_SCOPE_BYTES
  {
    PrefixLayout(s);
    AuthorityLayout(s);
    MoneyLayout(s);
    FlattenConcat(AuthorityFields(s), MoneyFields(s));
  }

  // ----- decoding -----

  function ParseOutpoint(flag: Bytes, txid: Bytes, vout: Bytes): (r: Option<Option<Outpoint>>)
    requires |flag| == 1 && |txid| == 32 && |vout| == 4
  {
    PowersOf256();
    if flag[0] == 0 then if txid == Zeros(32) && vout == Zeros(4) then Some(None) else None
    else if flag[0] == 1 then Some(Some(Outpoint(txid, FromBigEndian(vout))))
    else None
  }

  function ParseRefund(flag: Bytes, digest: Bytes): (r: Option<Option<Bytes32>>)
    requires |flag| == 1 && |digest| == 32
  {
    if flag[0] == 0 then if digest == Zeros(32) then Some(None) else None
    else if flag[0] == 1 then Some(Some(digest))
    else None
  }

  function ParseChange(flag: Bytes, vout: Bytes): (r: Option<Option<U32>>)
    requires |flag| == 1 && |vout| == 4
  {
    PowersOf256();
    if flag[0] == 0 then if vout == Zeros(4) then Some(None) else None
    else if flag[0] == 1 then Some(Some(FromBigEndian(vout)))
    else None
  }

  function U64At(bytes: Bytes): (r: U64)
    requires |bytes| == 8
  {
    PowersOf256();
    FromBigEndian(bytes)
  }

  function U32At(bytes: Bytes): (r: U32)
    requires |bytes| == 4
  {
    PowersOf256();
    FromBigEndian(bytes)
  }

  /** The record the fields denote, before any of its values is checked. */
  function FromFields(p: Prefix, fence: Bytes, a: Authority, m: Money, expiry: Bytes, digest: Bytes): (r: Option<Scope>)
    requires |fence| == 8 && |expiry| == 8 && |digest| == 32
  {
    match (LegFromTag(p[2][0]), ActionFromTag(p[3][0]), NetworkFromTag(a[7][0]),
           ParseOutpoint(m[0], m[1], m[2]), ParseRefund(m[4], m[5]), ParseChange(m[9], m[10]))
    case (Some(leg), Some(action), Some(network), Some(outpoint), Some(refund), Some(change)) =>
      Some(Scope(p[0], p[1], leg, action, U64At(fence),
                 a[0], a[1], U64At(a[2]), a[3], a[4], a[5], a[6], network, a[8], a[9], a[10], a[11],
                 outpoint, U64At(m[3]), refund,
                 FeePolicy(U64At(m[6]), U64At(m[7]), U64At(m[8]), change),
                 U32At(m[11]), U64At(expiry), digest))
    case _ => None
  }

  function PrefixOf(bytes: Bytes): (r: Prefix)
    requires |bytes| == ACTUATION_SCOPE_BYTES
    ensures Flatten(r) == bytes[..66]
  {
    PrefixSum();
    FlattenSplit(bytes[..66], PREFIX_WIDTHS);
    Split(bytes[..66], PREFIX_WIDTHS)
  }

  function AuthorityOf(bytes: Bytes): (r: Authority)
    requires |bytes| == ACTUATION_SCOPE_BYTES
    ensures Flatten(r) == bytes[74..403]
  {
    AuthoritySum();
    FlattenSplit(bytes[74..403], AUTHORITY_WIDTHS);
    Split(bytes[74..403], AUTHORITY_WIDTHS)
  }

  function MoneyOf(bytes: Bytes): (r: Money)
    requires |bytes| == ACTUATION_SCOPE_BYTES
    ensures Flatten(r) == bytes[403..514]
  {
    MoneySum();
    FlattenSplit(bytes[403..514], MONEY_WIDTHS);
    Split(bytes[403..514], MONEY_WIDTHS)
  }

  function Parse(bytes: Bytes): (r: Option<Scope>)
    requires |bytes| == ACTUATION_SCOPE_BYTES
  {
    hide PrefixOf, AuthorityOf, MoneyOf, HasWidths;
    var p, a, m := PrefixOf(bytes), AuthorityOf(bytes), MoneyOf(bytes);
    FromFields(p, bytes[66..74], a, m, bytes[514..522], bytes[522..554])
  }

  /** The decoder; every refusal is the one corrupt-state error. */
  function Decode(hash: Hash, bytes: Bytes): (r: Option<Scope>) {
    if |bytes| != ACTUATION_SCOPE_BYTES then None
    else match Parse(bytes)
      case None => None
      case Some(s) =>
        if WellFormed(s) && s.scopeDigest == hash(ScopeDomain, BytesWithoutDigest(s)) && CanonicalBytes(s) == bytes
        then Some(s) else None
  }

  // ----- the two directions -----

  lemma TagRoundTrips(leg: Leg, action: Action, network: Network)
    ensures LegFromTag(LegTag(leg)) == Some(leg)
    ensures ActionFromTag(ActionTag(action)) == Some(action)
    ensures NetworkFromTag(NetworkTag(network)) == Some(network)
  {
  }

  lemma IntegerRoundTrips(s: Scope)
    ensures U64At(BigEndian(s.fenceEpoch, 8)) == s.fenceEpoch && U64At(BigEndian(s.registryEpoch, 8)) == s.registryEpoch
    ensures U64At(BigEndian(s.contractAmount, 8)) == s.contractAmount
            && U64At(BigEndian(s.validUntil, 8)) == s.validUntil
    ensures U64At(BigEndian(s.feePolicy.initialFee, 8)) == s.feePolicy.initialFee
    ensures U64At(BigEndian(s.feePolicy.maximumFee, 8)) == s.feePolicy.maximumFee
    ensures U64At(BigEndian(s.feePolicy.maximumRate, 8)) == s.feePolicy.maximumRate
    ensures U32At(BigEndian(s.minimumConfirmations, 4)) == s.minimumConfirmations
  {
    PowersOf256();
    BigEndianRoundTrip(s.fenceEpoch, 8);
    BigEndianRoundTrip(s.registryEpoch, 8);
    BigEndianRoundTrip(s.contractAmount, 8);
    BigEndianRoundTrip(s.validUntil, 8);
    BigEndianRoundTrip(s.feePolicy.initialFee, 8);
    BigEndianRoundTrip(s.feePolicy.maximumFee, 8);
    BigEndianRoundTrip(s.feePolicy.maximumRate, 8);
    BigEndianRoundTrip(s.minimumConfirmations, 4);
  }

  lemma OptionRoundTrips(s: Scope)
    ensures var o := OutpointFields(s.contractOutpoint); ParseOutpoint(o[0], o[1], o[2]) == Some(s.contractOutpoint)
    ensures var d := RefundFields(s.refundRecordDigest); ParseRefund(d[0], d[1]) == Some(s.refundRecordDigest)
    ensures var c := ChangeFields(s.feePolicy.changeVout); ParseChange(c[0], c[1]) == Some(s.feePolicy.changeVout)
  {
    PowersOf256();
    ZeroBigEndian();
    match s.contractOutpoint { case Some(p) => BigEndianRoundTrip(p.vout, 4); case None => }
    match s.feePolicy.changeVout { case Some(v) => BigEndianRoundTrip(v, 4); case None => }
  }

  lemma ZeroBigEndian()
    ensures BigEndian(0, 4) == Zeros(4)
  {
    assert BigEndian(0, 1) == BigEndian(0, 0) + [0];
    assert BigEndian(0, 2) == BigEndian(0, 1) + [0];
    assert BigEndian(0, 3) == BigEndian(0, 2) + [0];
  }

  /** The fields of a record denote the record. */
  lemma FieldsRoundTrip(s: Scope)
    requires HasWidths(PrefixFields(s), PREFIX_WIDTHS) && HasWidths(AuthorityFields(s), AUTHORITY_WIDTHS)
    requires HasWidths(MoneyFields(s), MONEY_WIDTHS)
    ensures FromFields(PrefixFields(s), BigEndian(s.fenceEpoch, 8), AuthorityFields(s), MoneyFields(s),
                       BigEndian(s.validUntil, 8), s.scopeDigest) == Some(s)
  {
    TagRoundTrips(s.leg, s.action, s.network);
    IntegerRoundTrips(s);
    OptionRoundTrips(s);
  }

  /** Where the parts of the canonical form stand. */
  lemma CanonicalSlices(s: Scope)
    ensures |CanonicalBytes(s)| == ACTUATION_SCOPE_BYTES
    ensures var b := CanonicalBytes(s);
            && b[..66] == Flatten(PrefixFields(s)) && b[66..74] == BigEndian(s.fenceEpoch, 8)
            && b[74..403] == Flatten(AuthorityFields(s)) && b[403..514] == Flatten(MoneyFields(s))
            && b[514..522] == BigEndian(s.validUntil, 8) && b[522..554] == s.scopeDigest
            && b[74..514] == Flatten(BodyFields(s))
  {
    PrefixLayout(s);
    AuthorityLayout(s);
    MoneyLayout(s);
    FlattenConcat(AuthorityFields(s), MoneyFields(s));
    SlicesOf(Flatten(PrefixFields(s)), BigEndian(s.fenceEpoch, 8), Flatten(AuthorityFields(s)), Flatten(MoneyFields(s)),
             BigEndian(s.validUntil, 8), s.scopeDigest);
  }

  lemma SlicesOf(p: Bytes, f: Bytes, a: Bytes, m: Bytes, e: Bytes, d: Bytes)
    requires |p| == 66 && |f| == 8 && |a| == 329 && |m| == 111 && |e| == 8 && |d| == 32
    ensures var b := p + f + (a + m) + e + d;
            && |b| == 554 && b[..66] == p && b[66..74] == f && b[74..403] == a && b[403..514] == m
            && b[514..522] == e && b[522..554] == d && b[74..514] == a + m
  {
  }

  /** Parsing a canonical form gives the record back. */
  lemma ParseCanonical(s: Scope)
    ensures |CanonicalBytes(s)| == ACTUATION_SCOPE_BYTES && Parse(CanonicalBytes(s)) == Some(s)
  {
    CanonicalSlices(s);
    PrefixLayout(s);
    AuthorityLayout(s);
    MoneyLayout(s);
    PrefixSum();
    AuthoritySum();
    MoneySum();
    SplitFlatten(PrefixFields(s), PREFIX_WIDTHS);
    SplitFlatten(AuthorityFields(s), AUTHORITY_WIDTHS);
    SplitFlatten(MoneyFields(s), MONEY_WIDTHS);
    FieldsRoundTrip(s);
  }

  lemma U64Inverse(bytes: Bytes)
    requires |bytes| == 8
    ensures BigEndian(U64At(bytes), 8) == bytes
  {
    FromBigEndianRoundTrip(bytes);
  }

  lemma OptionInverses(m: Money)
    ensures var o := ParseOutpoint(m[0], m[1], m[2]); o.Some? ==> OutpointFields(o.value) == m[0..3]
    ensures var d := ParseRefund(m[4], m[5]); d.Some? ==> RefundFields(d.value) == m[4..6]
    ensures var c := ParseChange(m[9], m[10]); c.Some? ==> ChangeFields(c.value) == m[9..11]
  {
    ZeroBigEndian();
    FromBigEndianRoundTrip(m[2]);
    FromBigEndianRoundTrip(m[10]);
    assert m[0] == [m[0][0]] && m[4] == [m[4][0]] && m[9] == [m[9][0]];
  }

  lemma MoneyInverse(m: Money, s: Scope)
    requires ParseOutpoint(m[0], m[1], m[2]) == Some(s.contractOutpoint)
             && ParseRefund(m[4], m[5]) == Some(s.refundRecordDigest)
    requires ParseChange(m[9], m[10]) == Some(s.feePolicy.changeVout)
    requires s.contractAmount == U64At(m[3]) && s.feePolicy.initialFee == U64At(m[6])
             && s.feePolicy.maximumFee == U64At(m[7])
    requires s.feePolicy.maximumRate == U64At(m[8]) && s.minimumConfirmations == U32At(m[11])
    ensures MoneyFields(s) == m
  {
    OptionInverses(m);
    U64Inverse(m[3]);
    U64Inverse(m[6]);
    U64Inverse(m[7]);
    U64Inverse(m[8]);
    FromBigEndianRoundTrip(m[11]);
    assert m == m[0..3] + [m[3]] + m[4..6] + [m[6], m[7], m[8]] + m[9..11] + [m[11]];
  }

  lemma FieldsInverse(p: Prefix, fence: Bytes, a: Authority, m: Money, expiry: Bytes, digest: Bytes)
    requires |fence| == 8 && |expiry| == 8 && |digest| == 32
    requires FromFields(p, fence, a, m, expiry, digest).Some?
    ensures var s := FromFields(p, fence, a, m, expiry, digest).value;
            && PrefixFields(s) == p && BigEndian(s.fenceEpoch, 8) == fence && AuthorityFields(s) == a
            && MoneyFields(s) == m
            && BigEndian(s.validUntil, 8) == expiry && s.scopeDigest == digest
  {
    var s := FromFields(p, fence, a, m, expiry, digest).value;
    U64Inverse(fence);
    U64Inverse(expiry);
    U64Inverse(a[2]);
    assert p[2] == [p[2][0]] && p[3] == [p[3][0]] && a[7] == [a[7][0]];
    MoneyInverse(m, s);
  }

  lemma Rejoin(bytes: Bytes)
    requires |bytes| == 554
    ensures bytes[..66] + bytes[66..74] + (bytes[74..403] + bytes[403..514]) + bytes[514..522] + bytes[522..554] ==
            bytes
  {
  }

  /** Whatever parses re-encodes to itself, so the decoder's final comparison with
      the canonical form never refuses anything on its own. */
  lemma ParseInverts(bytes: Bytes)
    requires |bytes| == ACTUATION_SCOPE_BYTES && Parse(bytes).Some?
    ensures CanonicalBytes(Parse(bytes).value) == bytes
  {
    hide FromFields, PrefixFields, AuthorityFields, MoneyFields, HasWidths, Flatten, BigEndian, PrefixOf, AuthorityOf,
         MoneyOf;
    var s := Parse(bytes).value;
    FieldsInverse(PrefixOf(bytes), bytes[66..74], AuthorityOf(bytes), MoneyOf(bytes), bytes[514..522], bytes[522..554]);
    FlattenConcat(AuthorityFields(s), MoneyFields(s));
    Rejoin(bytes);
  }

  predicate Authentic(hash: Hash, s: Scope) {
    s.scopeDigest == hash(ScopeDomain, BytesWithoutDigest(s))
  }

  /** Decoding inverts encoding exactly on well-formed scopes that carry their own
      commitment. */
  lemma DecodeCanonical(hash: Hash, s: Scope)
    ensures Decode(hash, CanonicalBytes(s)) == Some(s) <==> WellFormed(s) && Authentic(hash, s)
    ensures Decode(hash, CanonicalBytes(s)).Some? ==> Decode(hash, CanonicalBytes(s)) == Some(s)
  {
    ParseCanonical(s);
  }

  /** Accepted bytes are exactly the canonical forms of well-formed authentic
      scopes, each accepted by one string only. */
  lemma DecodeAccepts(hash: Hash, bytes: Bytes)
    ensures Decode(hash, bytes).Some? <==>
              exists s :: WellFormed(s) && Authentic(hash, s) && CanonicalBytes(s) == bytes
    ensures Decode(hash, bytes).Some? ==> CanonicalBytes(Decode(hash, bytes).value) == bytes
  {
    forall s | WellFormed(s) && Authentic(hash, s) && CanonicalBytes(s) == bytes
      ensures Decode(hash, bytes) == Some(s)
    {
      DecodeCanonical(hash, s);
    }
    if Decode(hash, bytes).Some? {
      var s := Decode(hash, bytes).value;
      assert WellFormed(s) && Authentic(hash, s) && CanonicalBytes(s) == bytes;
    }
  }

  // ----- takeover test -----

  /** The byte-range comparison two encoded scopes must pass for a takeover. */
  predicate MatchExceptFence(before: Bytes, after: Bytes) {
    var protectedEnd := if |before| < 40 then 0 else |before| - 40;
    && |before| == |after| && |before| >= 74 + 40
    && before[..66] == after[..66]
    && before[74..protectedEnd] == after[74..protectedEnd]
  }

  /** Agreement on every field except the fence, the expiry and the commitment. */
  predicate SameExceptFence(a: Scope, b: Scope) {
    a.(fenceEpoch := b.fenceEpoch, validUntil := b.validUntil, scopeDigest := b.scopeDigest) == b
  }

  lemma BodyFieldsInjective(a: Scope, b: Scope)
    requires PrefixFields(a) == PrefixFields(b) && AuthorityFields(a) == AuthorityFields(b)
             && MoneyFields(a) == MoneyFields(b)
    ensures SameExceptFence(a, b)
  {
    var c := a.(fenceEpoch := b.fenceEpoch, validUntil := b.validUntil, scopeDigest := b.scopeDigest);
    PrefixLayout(b);
    AuthorityLayout(b);
    MoneyLayout(b);
    assert PrefixFields(c) == PrefixFields(a) && AuthorityFields(c) == AuthorityFields(a)
           && MoneyFields(c) == MoneyFields(a);
    FieldsRoundTrip(b);
    FieldsRoundTrip(c);
  }

  /** The byte test holds exactly when the scopes agree on every protected field. */
  lemma TakeoverTest(a: Scope, b: Scope)
    ensures MatchExceptFence(CanonicalBytes(a), CanonicalBytes(b)) <==> SameExceptFence(a, b)
  {
    CanonicalSlices(a);
    CanonicalSlices(b);
    if MatchExceptFence(CanonicalBytes(a), CanonicalBytes(b)) {
      PrefixLayout(a);
      PrefixLayout(b);
      FlattenInjective(PrefixFields(a), PrefixFields(b));
      AuthorityLayout(a);
      AuthorityLayout(b);
      MoneyLayout(a);
      MoneyLayout(b);
      FlattenConcat(AuthorityFields(a), MoneyFields(a));
      FlattenConcat(AuthorityFields(b), MoneyFields(b));
      ConcatInjective(Flatten(AuthorityFields(a)), Flatten(MoneyFields(a)), Flatten(AuthorityFields(b)),
                      Flatten(MoneyFields(b)));
      FlattenInjective(AuthorityFields(a), AuthorityFields(b));
      FlattenInjective(MoneyFields(a), MoneyFields(b));
      BodyFieldsInjective(a, b);
    }
  }

  /** Scopes of one fee-replacement family differ at most in transaction identity. */
  predicate SameReplacementFamily(a: Scope, b: Scope) {
    a.(expectedTxid := b.expectedTxid, intentDigest := b.intentDigest, scopeDigest := b.scopeDigest) == b
  }

  // ----- authorisation -----

  /** The threshold-resolved deployment facts a scope is minted from. */
  datatype Deployment = Deployment(
    profileValid: bool,
    bitcoinNetwork: Option<Network>,
    registryDigest: Bytes32,
    registryEpoch: U64,
    profileDigest: Bytes32,
    assetBindingDigest: Bytes32,
    chainId: Bytes32,
    minimumConfirmations: U32,
    genesisHash: Bytes32,
    signetChallenge: Bytes,
    maximumFeeRate: U64,
    minimumRelayFee: U64)

  datatype Request = Request(
    routeId: Bytes32,
    effectId: Bytes32,
    leg: Leg,
    action: Action,
    fenceEpoch: U64,
    termsDigest: Bytes32,
    expectedTxid: Bytes32,
    intentDigest: Bytes32,
    contractOutpoint: Option<Outpoint>,
    contractAmount: U64,
    refundRecordDigest: Option<Bytes32>,
    feePolicy: FeePolicy,
    validUntil: U64)

  function DeploymentDigest(hash: Hash, d: Deployment): Bytes32 {
    hash(DeploymentDomain,
         d.genesisHash + d.signetChallenge + BigEndian(d.maximumFeeRate, 8) + BigEndian(d.minimumRelayFee, 8))
  }

  /** Mints a scope; every refusal is the one invalid-scope error. */
  function Authorize(hash: Hash, d: Deployment, q: Request): (r: Option<Scope>) {
    if !d.profileValid || d.bitcoinNetwork.None? || !q.feePolicy.Valid(d.maximumFeeRate)
       || Zero(q.routeId) || Zero(q.effectId) || q.fenceEpoch == 0 || Zero(q.termsDigest)
       || Zero(d.registryDigest) || d.registryEpoch == 0 || Zero(d.profileDigest) || Zero(d.assetBindingDigest)
       || Zero(d.chainId) || Zero(d.genesisHash) || |d.signetChallenge| > MAX_SIGNET_CHALLENGE_BYTES
       || Zero(q.expectedTxid) || Zero(q.intentDigest)
       || q.contractAmount == 0 || q.contractAmount > MAX_MONEY_SAT
       || d.minimumConfirmations == 0 || q.validUntil == 0
       || (q.action.IsTerminal() && q.contractOutpoint.None?)
       || (q.action.Funding? && q.contractOutpoint.Some?)
       || (q.action.Funding? && (q.refundRecordDigest.None? || Zero(q.refundRecordDigest.value)))
    then None
    else
      var draft := Scope(q.routeId, q.effectId, q.leg, q.action, q.fenceEpoch, q.termsDigest,
                         d.registryDigest, d.registryEpoch, d.profileDigest, d.assetBindingDigest, d.chainId,
                         DeploymentDigest(hash, d), d.bitcoinNetwork.value, d.genesisHash,
                         hash(ChallengeDomain, d.signetChallenge), q.expectedTxid, q.intentDigest,
                         q.contractOutpoint, q.contractAmount, q.refundRecordDigest, q.feePolicy,
                         d.minimumConfirmations, q.validUntil, Zeros(32));
      Some(draft.(scopeDigest := hash(ScopeDomain, BytesWithoutDigest(draft))))
  }

  /** Every minted scope survives its own encoding. */
  lemma AuthorizedDecodes(hash: Hash, d: Deployment, q: Request)
    requires Authorize(hash, d, q).Some?
    ensures var s := Authorize(hash, d, q).value;
            WellFormed(s) && Decode(hash, CanonicalBytes(s)) == Some(s) && s.feePolicy.Valid(d.maximumFeeRate)
  {
    var s := Authorize(hash, d, q).value;
    assert BytesWithoutDigest(s) == BytesWithoutDigest(s.(scopeDigest := Zeros(32))) by {
      assert PrefixFields(s) == PrefixFields(s.(scopeDigest := Zeros(32)));
      assert AuthorityFields(s) == AuthorityFields(s.(scopeDigest := Zeros(32)));
    }
    DecodeCanonical(hash, s);
  }

  // ----- minted scopes -----

  /** The commitment function of the deployment; nothing is known about it. */
  ghost const COMMITMENT: Hash

  /** Well-formed and carrying the commitment to its own fields. */
  ghost predicate Minted(s: Scope) {
    WellFormed(s) && Authentic(COMMITMENT, s)
  }

  lemma AuthorizedIsMinted(d: Deployment, q: Request)
    requires Authorize(COMMITMENT, d, q).Some?
    ensures Minted(Authorize(COMMITMENT, d, q).value)
  {
    AuthorizedDecodes(COMMITMENT, d, q);
    DecodeCanonical(COMMITMENT, Authorize(COMMITMENT, d, q).value);
  }

  /** The commitment does not collide on these two scopes. */
  ghost predicate Separated(a: Scope, b: Scope) {
    COMMITMENT(ScopeDomain, BytesWithoutDigest(a)) == COMMITMENT(ScopeDomain, BytesWithoutDigest(b)) ==>
      BytesWithoutDigest(a) == BytesWithoutDigest(b)
  }

  lemma DigestIsLast(s: Scope, digest: Bytes32)
    ensures CanonicalBytes(s.(scopeDigest := digest)) == BytesWithoutDigest(s) + digest
  {
    var t := s.(scopeDigest := digest);
    assert PrefixFields(s) == PrefixFields(t) && AuthorityFields(s) == AuthorityFields(t);
  }

  /** The committed bytes determine every other field. */
  lemma CommittedBytesAreInjective(a: Scope, b: Scope)
    requires BytesWithoutDigest(a) == BytesWithoutDigest(b)
    ensures a.(scopeDigest := b.scopeDigest) == b
  {
    DigestIsLast(a, b.scopeDigest);
    ParseCanonical(a.(scopeDigest := b.scopeDigest));
    ParseCanonical(b);
  }

  /** Minted scopes that differ in any field differ in their digest. */
  lemma MintedDigestsDiffer(a: Scope, b: Scope)
    requires Minted(a) && Minted(b) && Separated(a, b)
    ensures a.scopeDigest == b.scopeDigest <==> a == b
  {
    if a.scopeDigest == b.scopeDigest { CommittedBytesAreInjective(a, b); }
  }
}
