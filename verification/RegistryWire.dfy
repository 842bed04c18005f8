/** The fixed-width fields of the deployment registry's binary forms. A `Put` puts a
    field in front of the bytes that follow it; a `Get` takes it off again. */
module RegistryWire {
  import opened Base

  datatype RegistryError =
    | BoundExceeded | NonCanonicalEncoding | UnsupportedVersion | ZeroField | InvalidTime | WrongNetwork
    | EpochBelowMinimum | Rollback | InvalidAuthoritySet | InvalidSignature | ThresholdNotMet | CorruptState
    | InvalidManifest

  datatype Result<+T> = Ok(value: T) | Err(error: RegistryError) {
    predicate IsFailure() { Err? }
    function PropagateFailure<U>(): Result<U> requires Err? { Err(error) }
    function Extract(): T requires Ok? { value }
  }

  datatype Unit = Unit

  function Check(condition: bool, error: RegistryError): Result<Unit> {
    if condition then Ok(Unit) else Err(error)
  }

  /** A field and the bytes after it. */
  type Parsed<+T> = Result<(T, Bytes)>

  function Take(b: Bytes, n: nat): (r: Parsed<Bytes>)
    ensures r.Ok? <==> n <= |b|
    ensures r.Ok? ==> |r.value.0| == n && b == r.value.0 + r.value.1
  {
    if n <= |b| then Ok((b[..n], b[n..])) else Err(NonCanonicalEncoding)
  }

  function Put(p: Bytes, rest: Bytes): (r: Bytes)
    ensures Take(r, |p|) == Ok((p, rest))
  {
    assert (p + rest)[..|p|] == p && (p + rest)[|p|..] == rest;
    p + rest
  }

  function GetByte(b: Bytes): (r: Parsed<Byte>)
    ensures r.Ok? ==> b == [r.value.0] + r.value.1
  {
    var (v, rest) :- Take(b, 1);
    Ok((v[0], rest))
  }

  function PutByte(v: Byte, rest: Bytes): (r: Bytes)
    ensures GetByte(r) == Ok((v, rest))
  {
    Put([v], rest)
  }

  function GetNumber(b: Bytes, width: nat): (r: Parsed<nat>)
    ensures r.Ok? ==> r.value.0 < Pow256(width) && b == BigEndian(r.value.0, width) + r.value.1
  {
    var (v, rest) :- Take(b, width);
    FromBigEndianRoundTrip(v);
    Ok((FromBigEndian(v), rest))
  }

  /** The low `width` bytes of a number. */
  function PutNumber(v: nat, width: nat, rest: Bytes): (r: Bytes)
    ensures v < Pow256(width) ==> GetNumber(r, width) == Ok((v, rest))
  {
    if v < Pow256(width) then BigEndianRoundTrip(v, width); Put(BigEndian(v, width), rest)
    else Put(BigEndian(v, width), rest)
  }

  function GetU16(b: Bytes): (r: Parsed<U16>)
    ensures r.Ok? ==> b == PutNumber(r.value.0, 2, r.value.1)
  {
    PowersOf256();
    var (v, rest) :- GetNumber(b, 2);
    Ok((v, rest))
  }

  function GetU32(b: Bytes): (r: Parsed<U32>)
    ensures r.Ok? ==> b == PutNumber(r.value.0, 4, r.value.1)
  {
    PowersOf256();
    var (v, rest) :- GetNumber(b, 4);
    Ok((v, rest))
  }

  function GetU64(b: Bytes): (r: Parsed<U64>)
    ensures r.Ok? ==> b == PutNumber(r.value.0, 8, r.value.1)
  {
    PowersOf256();
    var (v, rest) :- GetNumber(b, 8);
    Ok((v, rest))
  }

  function GetU128(b: Bytes): (r: Parsed<U128>)
    ensures r.Ok? ==> b == PutNumber(r.value.0, 16, r.value.1)
  {
    PowersOf256();
    var (v, rest) :- GetNumber(b, 16);
    Ok((v, rest))
  }

  function PutU16(v: U16, rest: Bytes): (r: Bytes)
    ensures GetU16(r) == Ok((v, rest))
  {
    PowersOf256();
    PutNumber(v, 2, rest)
  }

  function PutU32(v: U32, rest: Bytes): (r: Bytes)
    ensures GetU32(r) == Ok((v, rest))
  {
    PowersOf256();
    PutNumber(v, 4, rest)
  }

  function PutU64(v: U64, rest: Bytes): (r: Bytes)
    ensures GetU64(r) == Ok((v, rest))
  {
    PowersOf256();
    PutNumber(v, 8, rest)
  }

  function PutU128(v: U128, rest: Bytes): (r: Bytes)
    ensures GetU128(r) == Ok((v, rest))
  {
    PowersOf256();
    PutNumber(v, 16, rest)
  }

  function GetId(b: Bytes): (r: Parsed<Bytes32>)
    ensures r.Ok? ==> b == r.value.0 + r.value.1
  {
    var (v, rest) :- Take(b, 32);
    Ok((v, rest))
  }

  function PutId(v: Bytes32, rest: Bytes): (r: Bytes)
    ensures GetId(r) == Ok((v, rest))
  {
    Put(v, rest)
  }

  function GetAddress(b: Bytes): (r: Parsed<Bytes20>)
    ensures r.Ok? ==> b == r.value.0 + r.value.1
  {
    var (v, rest) :- Take(b, 20);
    Ok((v, rest))
  }

  function PutAddress(v: Bytes20, rest: Bytes): (r: Bytes)
    ensures GetAddress(r) == Ok((v, rest))
  {
    Put(v, rest)
  }

  // ----- magic, version and reserved bytes -----

  function PutVersion(magic: Bytes, version: U16, rest: Bytes): (r: Bytes)
    ensures |magic| == 8 ==> GetVersion(r, magic, version) == Ok(((), rest))
  {
    hide PutU16, GetU16, Put;
    Put(magic, PutU16(version, PutU16(0, rest)))
  }

  function GetVersion(b: Bytes, magic: Bytes, version: U16): (r: Parsed<()>)
    ensures r.Ok? ==> b == magic + PutNumber(version, 2, PutNumber(0, 2, r.value.1))
  {
    var (found, b) :- Take(b, 8);
    var _ :- Check(found == magic, NonCanonicalEncoding);
    var (v, b) :- GetU16(b);
    var _ :- Check(v == version, UnsupportedVersion);
    var (reserved, b) :- GetU16(b);
    var _ :- Check(reserved == 0, NonCanonicalEncoding);
    Ok(((), b))
  }

  // ----- lists of identifiers -----

  function PutIds(ids: seq<Bytes32>, rest: Bytes): Bytes {
    if ids == [] then rest else PutId(ids[0], PutIds(ids[1..], rest))
  }

  function GetIds(b: Bytes, n: nat): (r: Parsed<seq<Bytes32>>)
    ensures r.Ok? ==> |r.value.0| == n && b == PutIds(r.value.0, r.value.1)
    decreases n
  {
    if n == 0 then Ok(([], b))
    else
      var (id, rest) :- GetId(b);
      var (ids, rest) :- GetIds(rest, n - 1);
      Ok(([id] + ids, rest))
  }

  lemma {:induction false} IdsRoundTrip(ids: seq<Bytes32>, rest: Bytes)
    ensures GetIds(PutIds(ids, rest), |ids|) == Ok((ids, rest))
  {
    if ids != [] {
      IdsRoundTrip(ids[1..], rest);
      assert [ids[0]] + ids[1..] == ids;
    }
  }
}
