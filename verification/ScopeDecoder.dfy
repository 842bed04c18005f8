/** The moving-offset reader that decodes a stored scope. */
module ScopeDecoder {
  import opened Base
  import opened FieldList
  import opened ActuationScope

  class Decoder {
    const bytes: Bytes
    var offset: nat

    constructor (bytes: Bytes)
      ensures this.bytes == bytes && offset == 0
    {
      this.bytes := bytes;
      offset := 0;
    }

    /** The next `length` bytes, or a refusal that leaves the offset alone. */
    method Take(length: nat) returns (r: Option<Bytes>)
      requires offset <= |bytes|
      modifies `offset
      ensures r.Some? <==> old(offset) + length <= |bytes|
      ensures r.Some? ==> offset == old(offset) + length && r.value == bytes[old(offset)..offset]
      ensures r.None? ==> offset == old(offset)
    {
      var end := offset + length;
      if end > |bytes| { return None; }
      r := Some(bytes[offset..end]);
      offset := end;
    }

    /** Four consecutive fields. */
    method TakeFour(a: nat, b: nat, c: nat, d: nat) returns (r: Option<seq<Bytes>>)
      requires offset <= |bytes|
      modifies `offset
      ensures r.Some? <==> old(offset) + a + b + c + d <= |bytes|
      ensures r.Some? ==> offset == old(offset) + a + b + c + d && HasWidths(r.value, [a, b, c, d])
      ensures r.Some? ==> Flatten(r.value) == bytes[old(offset)..offset]
    {
      var w :- Take(a);
      var x :- Take(b);
      var y :- Take(c);
      var z :- Take(d);
      hide Flatten;
      FlattenFour(w, x, y, z);
      Adjacent(bytes, old(offset), a, b, c, d);
      r := Some([w, x, y, z]);
    }
  }

  lemma FlattenFour(a: Bytes, b: Bytes, c: Bytes, d: Bytes)
    ensures Flatten([a, b, c, d]) == a + b + c + d
  {
    assert [d][1..] == [] && Flatten([d]) == d + Flatten([]) == d;
    assert [c, d][1..] == [d] && Flatten([c, d]) == c + Flatten([d]);
    assert [b, c, d][1..] == [c, d] && Flatten([b, c, d]) == b + Flatten([c, d]);
    assert [a, b, c, d][1..] == [b, c, d] && Flatten([a, b, c, d]) == a + Flatten([b, c, d]);
  }

  lemma Adjacent(bytes: Bytes, o: nat, a: nat, b: nat, c: nat, d: nat)
    requires o + a + b + c + d <= |bytes|
    ensures bytes[o..o + a] + bytes[o + a..o + a + b] + bytes[o + a + b..o + a + b + c]
            + bytes[o + a + b + c..o + a + b + c + d] == bytes[o..o + a + b + c + d]
  {
    assert bytes[o..o + a] + bytes[o + a..o + a + b] == bytes[o..o + a + b];
    assert bytes[o..o + a + b] + bytes[o + a + b..o + a + b + c] == bytes[o..o + a + b + c];
  }

  lemma WidthsConcat(x: seq<Bytes>, wx: seq<nat>, y: seq<Bytes>, wy: seq<nat>)
    requires HasWidths(x, wx) && HasWidths(y, wy)
    ensures HasWidths(x + y, wx + wy)
  {
  }

  lemma SameRecord(a: seq<Bytes>, b: seq<Bytes>, widths: seq<nat>)
    requires HasWidths(a, widths) && HasWidths(b, widths) && Flatten(a) == Flatten(b)
    ensures a == b
  {
    FlattenInjective(a, b);
  }

  /** Three adjacent groups make the whole record. */
  lemma Groups(x: seq<Bytes>, y: seq<Bytes>, z: seq<Bytes>, wx: seq<nat>, wy: seq<nat>, wz: seq<nat>, whole: seq<Bytes>)
    requires HasWidths(x, wx) && HasWidths(y, wy) && HasWidths(z, wz) && HasWidths(whole, wx + wy + wz)
    requires Flatten(whole) == Flatten(x) + Flatten(y) + Flatten(z)
    ensures x + y + z == whole
  {
    hide HasWidths, Flatten;
    FlattenConcat(x, y);
    FlattenConcat(x + y, z);
    WidthsConcat(x, wx, y, wy);
    WidthsConcat(x + y, wx + wy, z, wz);
    SameRecord(x + y + z, whole, wx + wy + wz);
  }

  method FromCanonicalBytes(hash: Hash, bytes: Bytes) returns (r: Option<Scope>)
    ensures r == Decode(hash, bytes)
  {
    hide Parse, WellFormed, BytesWithoutDigest, CanonicalBytes;
    if |bytes| != ACTUATION_SCOPE_BYTES { return None; }
    var scope := ReadRecord(bytes);
    if scope.None? { return None; }
    if !WellFormed(scope.value) || scope.value.scopeDigest != hash(ScopeDomain, BytesWithoutDigest(scope.value)) {
      return None;
    }
    if CanonicalBytes(scope.value) != bytes { return None; }
    return scope;
  }

  method ReadRecord(bytes: Bytes) returns (r: Option<Scope>)
    requires |bytes| == ACTUATION_SCOPE_BYTES
    ensures r == Parse(bytes)
  {
    var p, fence, a, m, expiry, digest := ReadFields(bytes);
    hide FromFields, PrefixOf, AuthorityOf, MoneyOf, HasWidths;
    r := FromFields(p, fence, a, m, expiry, digest);
  }

  method ReadFields(bytes: Bytes)
    returns (p: Prefix, fence: Bytes, a: Authority, m: Money, expiry: Bytes, digest: Bytes)
    requires |bytes| == ACTUATION_SCOPE_BYTES
    ensures p == PrefixOf(bytes) && fence == bytes[66..74] && a == AuthorityOf(bytes) && m == MoneyOf(bytes)
    ensures expiry == bytes[514..522] && digest == bytes[522..554]
  {
    hide PrefixOf, AuthorityOf, MoneyOf, HasWidths, Flatten;
    var decoder := new Decoder(bytes);
    p := ReadPrefix(decoder);
    var f := decoder.Take(8);
    a := ReadAuthority(decoder);
    m := ReadMoney(decoder);
    var e := decoder.Take(8);
    var d := decoder.Take(32);
    fence, expiry, digest := f.value, e.value, d.value;
  }

  method ReadPrefix(decoder: Decoder) returns (p: Prefix)
    requires |decoder.bytes| == ACTUATION_SCOPE_BYTES && decoder.offset == 0
    modifies decoder`offset
    ensures decoder.offset == 66 && p == PrefixOf(decoder.bytes)
  {
    var x := decoder.TakeFour(32, 32, 1, 1);
    assert decoder.bytes[0..66] == decoder.bytes[..66];
    SameRecord(x.value, PrefixOf(decoder.bytes), PREFIX_WIDTHS);
    p := x.value;
  }

  method ReadAuthority(decoder: Decoder) returns (a: Authority)
    requires |decoder.bytes| == ACTUATION_SCOPE_BYTES && decoder.offset == 74
    modifies decoder`offset
    ensures decoder.offset == 403 && a == AuthorityOf(decoder.bytes)
  {
    var x := decoder.TakeFour(32, 32, 8, 32);
    var y := decoder.TakeFour(32, 32, 32, 1);
    var z := decoder.TakeFour(32, 32, 32, 32);
    ghost var b := decoder.bytes;
    assert b[74..403] == b[74..178] + b[178..275] + b[275..403];
    assert [32, 32, 8, 32] + [32, 32, 32, 1] + [32, 32, 32, 32] == AUTHORITY_WIDTHS;
    Groups(x.value, y.value, z.value, [32, 32, 8, 32], [32, 32, 32, 1], [32, 32, 32, 32], AuthorityOf(b));
    a := x.value + y.value + z.value;
  }

  method ReadMoney(decoder: Decoder) returns (m: Money)
    requires |decoder.bytes| == ACTUATION_SCOPE_BYTES && decoder.offset == 403
    modifies decoder`offset
    ensures decoder.offset == 514 && m == MoneyOf(decoder.bytes)
  {
    var x := decoder.TakeFour(1, 32, 4, 8);
    var y := decoder.TakeFour(1, 32, 8, 8);
    var z := decoder.TakeFour(8, 1, 4, 4);
    ghost var b := decoder.bytes;
    assert b[403..514] == b[403..448] + b[448..497] + b[497..514];
    assert [1, 32, 4, 8] + [1, 32, 8, 8] + [8, 1, 4, 4] == MONEY_WIDTHS;
    Groups(x.value, y.value, z.value, [1, 32, 4, 8], [1, 32, 8, 8], [8, 1, 4, 4], MoneyOf(b));
    m := x.value + y.value + z.value;
  }
}
