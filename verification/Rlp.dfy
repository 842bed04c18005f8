/** Recursive Length Prefix framing (Appendix B of the Ethereum Yellow Paper) as
    used for the CREATE address preimage, with the decoder that undoes it. */
module Rlp {
  import opened Base

  /** Shortest big-endian form; zero is the empty string. */
  function Minimal(n: nat): (r: Bytes)
    ensures n > 0 ==> r != [] && r[0] != 0
    ensures n == 0 ==> r == []
  {
    if n == 0 then [] else Minimal(n / 256) + [n % 256]
  }

  lemma {:induction false} MinimalRoundTrip(n: nat)
    ensures FromBigEndian(Minimal(n)) == n
  {
    if n > 0 {
      MinimalRoundTrip(n / 256);
      assert Minimal(n)[..|Minimal(n)| - 1] == Minimal(n / 256);
    }
  }

  lemma {:induction false} MinimalLength(n: nat, width: nat)
    requires n < Pow256(width)
    ensures |Minimal(n)| <= width
  {
    if n > 0 {
      MinimalLength(n / 256, width - 1);
    }
  }

  /** Header of a payload: the short form below 56 bytes, otherwise the length of
      the length followed by the length. */
  function Header(base: nat, length: nat): (r: Bytes)
    requires base == 0x80 || base == 0xC0
    requires length < U64_LIMIT
  {
    if length <= 55 then [base + length]
    else
      MinimalFits(length);
      [base + 55 + |Minimal(length)|] + Minimal(length)
  }

  lemma MinimalFits(length: nat)
    requires length < U64_LIMIT
    ensures |Minimal(length)| <= 8
  {
    PowersOf256();
    MinimalLength(length, 8);
  }

  function RlpBytes(value: Bytes): (r: Bytes)
    requires |value| < U64_LIMIT
  {
    if |value| == 1 && value[0] < 0x80 then value
    else Header(0x80, |value|) + value
  }

  predicate AllFit(values: seq<Bytes>) {
    forall v :: v in values ==> |v| < U64_LIMIT
  }

  function Payload(values: seq<Bytes>): (r: Bytes)
    requires AllFit(values)
  {
    if values == [] then [] else RlpBytes(values[0]) + Payload(values[1..])
  }

  function RlpList(values: seq<Bytes>): (r: Bytes)
    requires AllFit(values) && |Payload(values)| < U64_LIMIT
  {
    Header(0xC0, |Payload(values)|) + Payload(values)
  }

  /** Reads a header and splits the input into the payload it announces and the
      rest. */
  function ReadHeader(base: nat, bytes: Bytes): (r: Option<(Bytes, Bytes)>)
    requires base == 0x80 || base == 0xC0
  {
    if bytes == [] || bytes[0] < base then None
    else if bytes[0] <= base + 55 then
      var length := bytes[0] - base;
      if 1 + length <= |bytes| then Some((bytes[1..1 + length], bytes[1 + length..])) else None
    else
      var width := bytes[0] - base - 55;
      if |bytes| < 1 + width then None
      else
        var length := FromBigEndian(bytes[1..1 + width]);
        if 1 + width + length <= |bytes|
        then Some((bytes[1 + width..1 + width + length], bytes[1 + width + length..]))
        else None
  }

  function ReadItem(bytes: Bytes): (r: Option<(Bytes, Bytes)>) {
    if bytes != [] && bytes[0] < 0x80 then Some((bytes[..1], bytes[1..])) else ReadHeader(0x80, bytes)
  }

  function ReadItems(bytes: Bytes): (r: Option<seq<Bytes>>)
    decreases |bytes|
  {
    if bytes == [] then Some([])
    else match ReadItem(bytes)
      case None => None
      case Some((value, rest)) =>
        if |rest| >= |bytes| then None
        else match ReadItems(rest)
          case None => None
          case Some(values) => Some([value] + values)
  }

  function ReadList(bytes: Bytes): (r: Option<seq<Bytes>>) {
    match ReadHeader(0xC0, bytes)
    case Some((payload, rest)) => if rest == [] then ReadItems(payload) else None
    case None => None
  }

  /** Reading a framed payload gives back the payload and whatever follows. */
  lemma HeaderRoundTrip(base: nat, payload: Bytes, rest: Bytes)
    requires base == 0x80 || base == 0xC0
    requires |payload| < U64_LIMIT
    ensures ReadHeader(base, Header(base, |payload|) + payload + rest) == Some((payload, rest))
  {
    var n := |payload|;
    var header := Header(base, n);
    var all := header + payload + rest;
    if n <= 55 {
      assert all[1..1 + n] == payload && all[1 + n..] == rest;
    } else {
      var width := |Minimal(n)|;
      MinimalFits(n);
      MinimalRoundTrip(n);
      assert all[0] == base + 55 + width;
      assert all[1..1 + width] == Minimal(n);
      assert all[1 + width..1 + width + n] == payload && all[1 + width + n..] == rest;
    }
  }

  lemma ItemRoundTrip(value: Bytes, rest: Bytes)
    requires |value| < U64_LIMIT
    ensures ReadItem(RlpBytes(value) + rest) == Some((value, rest))
  {
    var all := RlpBytes(value) + rest;
    if |value| == 1 && value[0] < 0x80 {
      assert all[..1] == value && all[1..] == rest;
    } else {
      assert all[0] == Header(0x80, |value|)[0] >= 0x80;
      HeaderRoundTrip(0x80, value, rest);
    }
  }

  lemma {:induction false} PayloadRoundTrip(values: seq<Bytes>)
    requires AllFit(values)
    ensures ReadItems(Payload(values)) == Some(values)
  {
    if values != [] {
      ItemRoundTrip(values[0], Payload(values[1..]));
      assert |RlpBytes(values[0])| > 0;
      PayloadRoundTrip(values[1..]);
      assert [values[0]] + values[1..] == values;
    }
  }

  /** Decoding an encoded list gives the list back, for all byte strings and
      payloads below 2^64 bytes. */
  lemma ListRoundTrip(values: seq<Bytes>)
    requires AllFit(values) && |Payload(values)| < U64_LIMIT
    ensures ReadList(RlpList(values)) == Some(values)
  {
    var payload := Payload(values);
    HeaderRoundTrip(0xC0, payload, []);
    assert RlpList(values) == Header(0xC0, |payload|) + payload + [];
    PayloadRoundTrip(values);
  }

  lemma ListInjective(a: seq<Bytes>, b: seq<Bytes>)
    requires AllFit(a) && |Payload(a)| < U64_LIMIT
    requires AllFit(b) && |Payload(b)| < U64_LIMIT
    requires RlpList(a) == RlpList(b)
    ensures a == b
  {
    ListRoundTrip(a);
    ListRoundTrip(b);
  }

  /** The two items hashed into a CREATE address. */
  function CreateItems(sender: Bytes20, nonce: nat): (r: seq<Bytes>) {
    [sender, Minimal(nonce)]
  }

  lemma CreateItemsInjective(sender: Bytes20, nonce: nat, sender': Bytes20, nonce': nat)
    requires AllFit(CreateItems(sender, nonce)) && |Payload(CreateItems(sender, nonce))| < U64_LIMIT
    requires AllFit(CreateItems(sender', nonce')) && |Payload(CreateItems(sender', nonce'))| < U64_LIMIT
    requires RlpList(CreateItems(sender, nonce)) == RlpList(CreateItems(sender', nonce'))
    ensures sender == sender' && nonce == nonce'
  {
    var a, b := CreateItems(sender, nonce), CreateItems(sender', nonce');
    ListInjective(a, b);
    assert a[0] == b[0] && a[1] == b[1];
    MinimalRoundTrip(nonce);
    MinimalRoundTrip(nonce');
  }

  /** Every CREATE preimage of a 64-bit nonce is a short list. */
  lemma CreateFits(sender: Bytes20, nonce: U64)
    ensures AllFit(CreateItems(sender, nonce)) && |Payload(CreateItems(sender, nonce))| <= 30
  {
    MinimalFits(nonce);
    var items := CreateItems(sender, nonce);
    assert items[1..] == [Minimal(nonce)];
    assert Payload([Minimal(nonce)]) == RlpBytes(Minimal(nonce)) + Payload([Minimal(nonce)][1..]);
  }

  function CreatePreimage(sender: Bytes20, nonce: U64): Bytes {
    CreateFits(sender, nonce);
    RlpList(CreateItems(sender, nonce))
  }

  /** Distinct (sender, nonce) pairs have distinct CREATE preimages. */
  lemma CreatePreimageInjective(sender: Bytes20, nonce: U64, sender': Bytes20, nonce': U64)
    ensures CreatePreimage(sender, nonce) == CreatePreimage(sender', nonce') <==> sender == sender' && nonce == nonce'
  {
    CreateFits(sender, nonce);
    CreateFits(sender', nonce');
    if CreatePreimage(sender, nonce) == CreatePreimage(sender', nonce') {
      CreateItemsInjective(sender, nonce, sender', nonce');
    }
  }
}
