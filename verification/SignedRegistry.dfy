/** Authority sets, signed envelopes and threshold verification of the registry. */
module SignedRegistry {
  import opened Base
  import opened RegistryWire
  import opened ManifestCodec

  const MAX_AUTHORITIES: nat := 16
  const MAX_AUTHORITY_SET_BYTES: nat := 16 + MAX_AUTHORITIES * 32
  const MAX_SIGNED_BYTES: nat := MAX_MANIFEST_BYTES + 18 + MAX_AUTHORITIES * 66
  const AUTHORITY_SET_VERSION: U16 := 1
  /** "DOMRAUS1" and "DOMREGS1". */
  const AUTHORITY_MAGIC: Bytes := [0x44, 0x4f, 0x4d, 0x52, 0x41, 0x55, 0x53, 0x31]
  const SIGNED_MAGIC: Bytes := [0x44, 0x4f, 0x4d, 0x52, 0x45, 0x47, 0x53, 0x31]

  datatype AuthoritySet = AuthoritySet(threshold: U16, keys: seq<Bytes32>)
  datatype Signature = Signature(signer: U16, bytes: Bytes64)
  datatype Signed = Signed(manifest: Bytes, signatures: seq<Signature>)

  // ----- authority sets -----

  predicate Distinct(keys: seq<Bytes32>) {
    forall i, j :: 0 <= i < j < |keys| ==> keys[i] != keys[j]
  }

  predicate AuthoritySound(a: AuthoritySet) {
    && 0 < |a.keys| <= MAX_AUTHORITIES && 0 < a.threshold <= |a.keys|
    && (forall i :: 0 <= i < |a.keys| ==> a.keys[i] != Zeros(32)) && Distinct(a.keys)
  }

  /** The constructor's checks, with the set of keys seen so far. */
  method NewAuthoritySet(threshold: U16, keys: seq<Bytes32>) returns (r: Result<AuthoritySet>)
    ensures r == if AuthoritySound(AuthoritySet(threshold, keys)) then Ok(AuthoritySet(threshold, keys))
                 else Err(InvalidAuthoritySet)
  {
    if keys == [] || |keys| > MAX_AUTHORITIES || threshold == 0
      || threshold > |keys| { return Err(InvalidAuthoritySet); }
    var unique: set<Bytes32> := {};
    for i := 0 to |keys|
      invariant forall k :: k in unique <==> k in keys[..i]
      invariant forall j :: 0 <= j < i ==> keys[j] != Zeros(32)
      invariant Distinct(keys[..i])
    {
      if keys[i] == Zeros(32) || keys[i] in unique {
        assert keys[i] in unique ==> exists j :: 0 <= j < i && keys[j] == keys[i];
        return Err(InvalidAuthoritySet);
      }
      unique := unique + {keys[i]};
      assert keys[..i + 1] == keys[..i] + [keys[i]];
    }
    assert keys[..|keys|] == keys;
    return Ok(AuthoritySet(threshold, keys));
  }

  function PutAuthoritySet(a: AuthoritySet): Bytes {
    PutVersion(AUTHORITY_MAGIC, AUTHORITY_SET_VERSION, PutU16(a.threshold, PutNumber(|a.keys|, 2, PutIds(a.keys, []))))
  }

  function EncodeAuthoritySet(a: AuthoritySet): Result<Bytes> {
    var _ :- Check(AuthoritySound(a), InvalidAuthoritySet);
    var _ :- Check(|PutAuthoritySet(a)| <= MAX_AUTHORITY_SET_BYTES, BoundExceeded);
    Ok(PutAuthoritySet(a))
  }

  function ParseAuthoritySet(b: Bytes): Result<AuthoritySet> {
    var (_, b) :- GetVersion(b, AUTHORITY_MAGIC, AUTHORITY_SET_VERSION);
    var (threshold, b) :- GetU16(b);
    var (count, b) :- GetU16(b);
    var _ :- Check(0 < count <= MAX_AUTHORITIES, BoundExceeded);
    var (keys, b) :- GetIds(b, count);
    var _ :- Check(b == [], NonCanonicalEncoding);
    Ok(AuthoritySet(threshold, keys))
  }

  function DecodeAuthoritySet(b: Bytes): Result<AuthoritySet> {
    var _ :- Check(16 <= |b| <= MAX_AUTHORITY_SET_BYTES, BoundExceeded);
    var a :- ParseAuthoritySet(b);
    var canonical :- EncodeAuthoritySet(a);
    var _ :- Check(canonical == b, NonCanonicalEncoding);
    Ok(a)
  }

  lemma {:induction false} IdsLength(ids: seq<Bytes32>, rest: Bytes)
    ensures |PutIds(ids, rest)| == 32 * |ids| + |rest|
  {
    if ids != [] { IdsLength(ids[1..], rest); }
  }

  lemma AuthorityParse(a: AuthoritySet)
    requires 0 < |a.keys| <= MAX_AUTHORITIES
    ensures ParseAuthoritySet(PutAuthoritySet(a)) == Ok(a) && |PutAuthoritySet(a)| == 16 + 32 * |a.keys|
  {
    hide PutIds, GetIds;
    PowersOf256();
    IdsRoundTrip(a.keys, []);
    IdsLength(a.keys, []);
  }

  lemma AuthorityParseInverse(b: Bytes)
    requires ParseAuthoritySet(b).Ok?
    ensures b == PutAuthoritySet(ParseAuthoritySet(b).value) && 0 < |ParseAuthoritySet(b).value.keys| <= MAX_AUTHORITIES
  {
    hide PutIds, GetIds;
    var (_, b1) := GetVersion(b, AUTHORITY_MAGIC, AUTHORITY_SET_VERSION).value;
    assert b == PutVersion(AUTHORITY_MAGIC, AUTHORITY_SET_VERSION, b1);
  }

  /** Accepted authority-set bytes are exactly the canonical bytes of sound sets. */
  lemma AuthorityCodec(b: Bytes, a: AuthoritySet)
    ensures DecodeAuthoritySet(b) == Ok(a) <==> EncodeAuthoritySet(a) == Ok(b)
  {
    hide PutAuthoritySet, ParseAuthoritySet, Distinct;
    if EncodeAuthoritySet(a).Ok? { AuthorityParse(a); }
    if ParseAuthoritySet(b).Ok? { AuthorityParseInverse(b); }
  }

  // ----- signature lists -----

  predicate Increasing(sigs: seq<Signature>) {
    forall i, j :: 0 <= i < j < |sigs| ==> sigs[i].signer < sigs[j].signer
  }

  predicate NonZero(sigs: seq<Signature>) {
    forall i :: 0 <= i < |sigs| ==> sigs[i].bytes != Zeros(64)
  }

  function Shape(sigs: seq<Signature>): Result<Unit> {
    var _ :- Check(0 < |sigs| <= MAX_AUTHORITIES, BoundExceeded);
    Check(NonZero(sigs) && Increasing(sigs), InvalidSignature)
  }

  /** Each signature against the previous one only. */
  method ValidateShape(sigs: seq<Signature>) returns (r: Result<Unit>)
    ensures r == Shape(sigs)
  {
    if sigs == [] || |sigs| > MAX_AUTHORITIES { return Err(BoundExceeded); }
    var previous: Option<U16> := None;
    for i := 0 to |sigs|
      invariant previous == if i == 0 then None else Some(sigs[i - 1].signer)
      invariant forall j :: 0 <= j < i ==>
                  sigs[j].bytes != Zeros(64) && (i > 0 ==> sigs[j].signer <= sigs[i - 1].signer)
      invariant forall j, k :: 0 <= j < k < i ==> sigs[j].signer < sigs[k].signer
    {
      if sigs[i].bytes == Zeros(64)
        || (previous.Some? && sigs[i].signer <= previous.value) { return Err(InvalidSignature); }
      previous := Some(sigs[i].signer);
    }
    return Ok(Unit);
  }

  function PutSignatures(sigs: seq<Signature>, rest: Bytes): Bytes {
    if sigs == [] then rest else PutU16(sigs[0].signer, Put(sigs[0].bytes, PutSignatures(sigs[1..], rest)))
  }

  function GetSignatures(b: Bytes, n: nat): (r: Parsed<seq<Signature>>)
    ensures r.Ok? ==> |r.value.0| == n && b == PutSignatures(r.value.0, r.value.1)
    decreases n
  {
    if n == 0 then Ok(([], b))
    else
      var (signer, b) :- GetU16(b);
      var (bytes, b) :- Take(b, 64);
      var (sigs, b) :- GetSignatures(b, n - 1);
      Ok(([Signature(signer, bytes)] + sigs, b))
  }

  lemma {:induction false} SignaturesRoundTrip(sigs: seq<Signature>, rest: Bytes)
    ensures GetSignatures(PutSignatures(sigs, rest), |sigs|) == Ok((sigs, rest))
    ensures |PutSignatures(sigs, rest)| == 66 * |sigs| + |rest|
  {
    if sigs != [] {
      SignaturesRoundTrip(sigs[1..], rest);
      assert [sigs[0]] + sigs[1..] == sigs;
    }
  }

  // ----- envelopes -----

  function PutSigned(s: Signed): Bytes {
    PutVersion(SIGNED_MAGIC, REGISTRY_VERSION,
      PutNumber(|s.manifest|, 4, Put(s.manifest, PutNumber(|s.signatures|, 2, PutSignatures(s.signatures, [])))))
  }

  function CanonicalSigned(rules: Validation, s: Signed): Result<Bytes> {
    var _ :- Decode(rules, s.manifest);
    var _ :- Shape(s.signatures);
    var _ :- Check(|s.manifest| < U32_LIMIT && |s.signatures| < U16_LIMIT, BoundExceeded);
    var _ :- Check(|PutSigned(s)| <= MAX_SIGNED_BYTES, BoundExceeded);
    Ok(PutSigned(s))
  }

  function ParseSigned(b: Bytes): Result<Signed> {
    var (_, b) :- GetVersion(b, SIGNED_MAGIC, REGISTRY_VERSION);
    var (length, b) :- GetU32(b);
    var _ :- Check(length <= MAX_MANIFEST_BYTES, BoundExceeded);
    var (manifest, b) :- Take(b, length);
    var (count, b) :- GetU16(b);
    var _ :- Check(0 < count <= MAX_AUTHORITIES, BoundExceeded);
    var (signatures, b) :- GetSignatures(b, count);
    var _ :- Check(b == [], NonCanonicalEncoding);
    Ok(Signed(manifest, signatures))
  }

  function DecodeSigned(rules: Validation, b: Bytes): Result<Signed> {
    var _ :- Check(|b| <= MAX_SIGNED_BYTES, BoundExceeded);
    var s :- ParseSigned(b);
    var _ :- Decode(rules, s.manifest);
    var _ :- Shape(s.signatures);
    var canonical :- CanonicalSigned(rules, s);
    var _ :- Check(canonical == b, NonCanonicalEncoding);
    Ok(s)
  }

  lemma SignedParse(s: Signed)
    requires |s.manifest| <= MAX_MANIFEST_BYTES && 0 < |s.signatures| <= MAX_AUTHORITIES
    ensures ParseSigned(PutSigned(s)) == Ok(s) && |PutSigned(s)| == 18 + |s.manifest| + 66 * |s.signatures|
  {
    hide PutSignatures, GetSignatures;
    PowersOf256();
    SignaturesRoundTrip(s.signatures, []);
  }

  lemma SignedParseInverse(b: Bytes)
    requires ParseSigned(b).Ok?
    ensures var s := ParseSigned(b).value;
            b == PutSigned(s) && |s.manifest| <= MAX_MANIFEST_BYTES && 0 < |s.signatures| <= MAX_AUTHORITIES
  {
    hide PutSignatures, GetSignatures, GetVersion, GetU32, GetU16, Take, PutNumber;
    var (_, b1) := GetVersion(b, SIGNED_MAGIC, REGISTRY_VERSION).value;
    assert b == PutVersion(SIGNED_MAGIC, REGISTRY_VERSION, b1);
    var (length, b2) := GetU32(b1).value;
    var (manifest, b3) := Take(b2, length).value;
    var (count, b4) := GetU16(b3).value;
    assert b2 == Put(manifest, b3) && b1 == PutNumber(length, 4, b2) && b3 == PutNumber(count, 2, b4);
  }

  /** Accepted envelope bytes are exactly the canonical bytes of envelopes that hold a
      canonical manifest and well-shaped signatures. */
  lemma SignedCodec(rules: Validation, b: Bytes, s: Signed)
    ensures DecodeSigned(rules, b) == Ok(s) <==> CanonicalSigned(rules, s) == Ok(b)
  {
    hide PutSigned, ParseSigned, DecodeManifest, EncodeManifest, CanonicalBytes, NonZero, Increasing;
    if CanonicalSigned(rules, s).Ok? { SignedParse(s); }
    if ParseSigned(b).Ok? { SignedParseInverse(b); }
  }

  // ----- verification -----

  /** The cryptographic backend: key membership, BIP340 verification of a digest, and
      the domain-separated manifest digest. */
  datatype Crypto = Crypto(validKey: Bytes32 -> bool, verify: (Bytes32, Bytes32, Bytes64) -> bool,
                           digest: Bytes -> Bytes32)

  datatype Policy = Policy(now: U64, networkId: Bytes32, minimumEpoch: U64)
  datatype Resolved = Resolved(manifest: Manifest, digest: Bytes32)

  predicate KeysValid(crypto: Crypto, a: AuthoritySet) {
    forall i :: 0 <= i < |a.keys| ==> crypto.validKey(a.keys[i])
  }

  predicate SignatureHolds(crypto: Crypto, a: AuthoritySet, digest: Bytes32, sig: Signature) {
    sig.signer < |a.keys| && crypto.verify(a.keys[sig.signer], digest, sig.bytes)
  }

  function VerifyAuthenticity(rules: Validation, crypto: Crypto, a: AuthoritySet, s: Signed,
                              networkId: Bytes32): Result<Resolved> {
    var _ :- Check(KeysValid(crypto, a), InvalidAuthoritySet);
    var _ :- Shape(s.signatures);
    var m :- Decode(rules, s.manifest);
    var _ :- Check(m.networkId == networkId, WrongNetwork);
    var bytes :- CanonicalBytes(rules, m);
    var digest := crypto.digest(bytes);
    var _ :- Check(forall i :: 0 <= i < |s.signatures| ==>
                     SignatureHolds(crypto, a, digest, s.signatures[i]), InvalidSignature);
    var _ :- Check(|s.signatures| >= a.threshold, ThresholdNotMet);
    Ok(Resolved(m, digest))
  }

  function Verify(rules: Validation, crypto: Crypto, a: AuthoritySet, s: Signed, policy: Policy): Result<Resolved> {
    var r :- VerifyAuthenticity(rules, crypto, a, s, policy.networkId);
    var _ :- Validate(rules, r.manifest);
    var _ :- Check(r.manifest.networkId == policy.networkId, WrongNetwork);
    var _ :- Check(r.manifest.epoch >= policy.minimumEpoch, EpochBelowMinimum);
    var _ :- Check(r.manifest.validFrom <= policy.now < r.manifest.expiresAt, InvalidTime);
    Ok(r)
  }

  /** Signature by signature, as the envelope lists them. */
  method CheckSignatures(crypto: Crypto, a: AuthoritySet, digest: Bytes32, sigs: seq<Signature>)
    returns (r: Result<Unit>)
    ensures r == Check(forall i :: 0 <= i < |sigs| ==> SignatureHolds(crypto, a, digest, sigs[i]), InvalidSignature)
  {
    for i := 0 to |sigs|
      invariant forall j :: 0 <= j < i ==> SignatureHolds(crypto, a, digest, sigs[j])
    {
      if sigs[i].signer >= |a.keys| { return Err(InvalidSignature); }
      if !crypto.verify(a.keys[sigs[i].signer], digest, sigs[i].bytes) { return Err(InvalidSignature); }
    }
    return Ok(Unit);
  }

  /** The keys that signed. */
  function Signers(a: AuthoritySet, sigs: seq<Signature>): set<Bytes32>
    requires forall i :: 0 <= i < |sigs| ==> sigs[i].signer < |a.keys|
  {
    set i | 0 <= i < |sigs| :: a.keys[sigs[i].signer]
  }

  /** Increasing indices into distinct keys are that many different signers. */
  lemma {:induction false} SignersAreDistinct(a: AuthoritySet, sigs: seq<Signature>)
    requires Distinct(a.keys) && Increasing(sigs) && forall i :: 0 <= i < |sigs| ==> sigs[i].signer < |a.keys|
    ensures |Signers(a, sigs)| == |sigs|
  {
    if sigs != [] {
      var n := |sigs| - 1;
      var front := sigs[..n];
      SignersAreDistinct(a, front);
      var last := a.keys[sigs[n].signer];
      assert forall i :: 0 <= i < n ==> front[i] == sigs[i];
      assert last !in Signers(a, front);
      assert Signers(a, sigs) == Signers(a, front) + {last};
    } else {
      assert Signers(a, sigs) == {};
    }
  }

  /** What an accepted envelope proves: at least `threshold` pairwise distinct keys of
      the set signed the digest of its canonical, valid manifest. */
  lemma ThresholdSigned(rules: Validation, crypto: Crypto, a: AuthoritySet, s: Signed, networkId: Bytes32)
    requires AuthoritySound(a) && VerifyAuthenticity(rules, crypto, a, s, networkId).Ok?
    ensures var r := VerifyAuthenticity(rules, crypto, a, s, networkId).value;
            && (forall i :: 0 <= i < |s.signatures| ==> s.signatures[i].signer < |a.keys|)
            && |Signers(a, s.signatures)| >= a.threshold && (forall k :: k in Signers(a, s.signatures) ==> k in a.keys)
            && (forall k :: k in Signers(a, s.signatures) ==>
                  exists sig :: sig in s.signatures && crypto.verify(k, r.digest, sig.bytes))
            && r.digest == crypto.digest(s.manifest) && r.manifest.networkId == networkId
            && Decode(rules, s.manifest) == Ok(r.manifest)
  {
    hide DecodeManifest, EncodeManifest, NonZero, Distinct, Increasing;
    var r := VerifyAuthenticity(rules, crypto, a, s, networkId).value;
    assert forall i :: 0 <= i < |s.signatures| ==> SignatureHolds(crypto, a, r.digest, s.signatures[i]);
    SignersAreDistinct(a, s.signatures);
    forall k | k in Signers(a, s.signatures)
      ensures exists sig :: sig in s.signatures && crypto.verify(k, r.digest, sig.bytes)
    {
      var i :| 0 <= i < |s.signatures| && k == a.keys[s.signatures[i].signer];
      assert SignatureHolds(crypto, a, r.digest, s.signatures[i]) && s.signatures[i] in s.signatures;
    }
  }
}
