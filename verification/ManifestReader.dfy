/** The manifest decoder as it works: a position moving over the bytes. */
module ManifestReader {
  import opened Base
  import opened RegistryWire
  import Codec = ManifestCodec
  import opened ManifestCodec

  /** A read took what the parser takes and left what it leaves. */
  predicate Reads<T(==)>(parsed: Parsed<T>, r: Result<T>, rest: Bytes) {
    match parsed
    case Ok((value, after)) => r == Ok(value) && rest == after
    case Err(e) => r == Err(e)
  }

  class Reader {
    const bytes: Bytes
    var position: nat

    predicate Valid()
      reads this
    {
      position <= |bytes|
    }

    function Rest(): Bytes
      requires Valid()
      reads this
    {
      bytes[position..]
    }

    constructor (bytes: Bytes)
      ensures Valid() && this.bytes == bytes && Rest() == bytes
    {
      this.bytes := bytes;
      position := 0;
    }

    method Bytes(n: nat) returns (r: Result<Bytes>)
      requires Valid()
      modifies this
      ensures Valid() && Reads(Take(old(Rest()), n), r, Rest())
      ensures r.Err? ==> position == old(position)
    {
      if position + n > |bytes| { return Err(NonCanonicalEncoding); }
      var value := bytes[position..position + n];
      assert value == Rest()[..n] && bytes[position + n..] == Rest()[n..];
      position := position + n;
      return Ok(value);
    }

    method Octet() returns (r: Result<Byte>)
      requires Valid()
      modifies this
      ensures Valid() && Reads(GetByte(old(Rest())), r, Rest())
    {
      var value :- Bytes(1);
      return Ok(value[0]);
    }

    method Id() returns (r: Result<Bytes32>)
      requires Valid()
      modifies this
      ensures Valid() && Reads(GetId(old(Rest())), r, Rest())
    {
      var value :- Bytes(32);
      return Ok(value);
    }

    method Address() returns (r: Result<Bytes20>)
      requires Valid()
      modifies this
      ensures Valid() && Reads(GetAddress(old(Rest())), r, Rest())
    {
      var value :- Bytes(20);
      return Ok(value);
    }

    method U16() returns (r: Result<U16>)
      requires Valid()
      modifies this
      ensures Valid() && Reads(GetU16(old(Rest())), r, Rest())
    {
      PowersOf256();
      var value :- Bytes(2);
      return Ok(FromBigEndian(value));
    }

    method U32() returns (r: Result<U32>)
      requires Valid()
      modifies this
      ensures Valid() && Reads(GetU32(old(Rest())), r, Rest())
    {
      PowersOf256();
      var value :- Bytes(4);
      return Ok(FromBigEndian(value));
    }

    method U64() returns (r: Result<U64>)
      requires Valid()
      modifies this
      ensures Valid() && Reads(GetU64(old(Rest())), r, Rest())
    {
      PowersOf256();
      var value :- Bytes(8);
      return Ok(FromBigEndian(value));
    }

    method U128() returns (r: Result<U128>)
      requires Valid()
      modifies this
      ensures Valid() && Reads(GetU128(old(Rest())), r, Rest())
    {
      PowersOf256();
      var value :- Bytes(16);
      return Ok(FromBigEndian(value));
    }

    method Timing() returns (r: Result<Timing>)
      requires Valid()
      modifies this
      ensures Valid() && Reads(GetTiming(old(Rest())), r, Rest())
    {
      hide Rest, GetU32;
      var minBlock :- U32();
      var maxBlock :- U32();
      var maxReorg :- U32();
      var observation :- U32();
      var broadcast :- U32();
      return Ok(Codec.Timing(minBlock, maxBlock, maxReorg, observation, broadcast));
    }

    method Finality() returns (r: Result<Finality>)
      requires Valid()
      modifies this
      ensures Valid() && Reads(GetFinality(old(Rest())), r, Rest())
    {
      hide Rest, GetU32;
      var minConfirmations :- U32();
      var maxReorgDepth :- U32();
      return Ok(Codec.Finality(minConfirmations, maxReorgDepth));
    }

    method Dom() returns (r: Result<Dom>)
      requires Valid()
      modifies this
      ensures Valid() && Reads(GetDom(old(Rest())), r, Rest())
    {
      hide Rest, GetId, GetByte, GetU32, GetTiming, GetFinality, DomFromTag, PutDom, PutTiming, PutFinality, PutNumber;
      var chainId :- Id();
      var genesisHash :- Id();
      var tag :- Octet();
      var network :- DomFromTag(tag);
      var magic :- U32();
      var protocolVersion :- U32();
      var rangeProofVersion :- Octet();
      var consensusRules :- Id();
      var apiVersion :- U32();
      var timing :- Timing();
      var finality :- Finality();
      var nativeAsset :- Id();
      return Ok(Codec.Dom(chainId, genesisHash, network, magic, protocolVersion, rangeProofVersion, consensusRules,
                          apiVersion, timing, finality, nativeAsset));
    }

    method Kind() returns (r: Result<ChainKind>)
      requires Valid()
      modifies this
      ensures Valid() && Reads(GetKind(old(Rest())), r, Rest())
    {
      hide Rest, GetId, GetByte, GetU64, GetAddress, BitcoinFromTag, MoneroFromTag, SolanaFromTag;
      var kind :- Octet();
      if kind == 1 {
        var evmChainId :- U64();
        var lock :- Address();
        var lockCodeHash :- Id();
        var flag :- Octet();
        if flag == 0 { return Ok(Evm(evmChainId, lock, lockCodeHash, None)); }
        if flag != 1 { return Err(NonCanonicalEncoding); }
        var contract :- Address();
        var hash :- Id();
        return Ok(Evm(evmChainId, lock, lockCodeHash, Some((contract, hash))));
      }
      if kind == 2 {
        var tag :- Octet();
        var network :- BitcoinFromTag(tag);
        return Ok(Bitcoin(network));
      }
      if kind == 3 {
        var tag :- Octet();
        var network :- MoneroFromTag(tag);
        return Ok(Monero(network));
      }
      if kind == 4 {
        var tag :- Octet();
        var network :- SolanaFromTag(tag);
        var program :- Id();
        var programDataHash :- Id();
        return Ok(Solana(network, program, programDataHash));
      }
      return Err(NonCanonicalEncoding);
    }

    method EvmDeploymentFields() returns (r: Result<Deployment>)
      requires Valid()
      modifies this
      ensures Valid() && Reads(GetEvmDeployment(old(Rest())), r, Rest())
    {
      hide Rest, GetId, GetByte, GetU64, GetU128;
      var genesisHash :- Id();
      var startBlock :- U64();
      var erc20StartBlock: Option<U64> := None;
      var flag :- Octet();
      if flag == 1 {
        var start :- U64();
        erc20StartBlock := Some(start);
      } else if flag != 0 {
        return Err(NonCanonicalEncoding);
      }
      var abi :- Id();
      var compiler :- Id();
      var source :- Id();
      var deployment :- Id();
      var finalized :- Octet();
      if finalized > 1 { return Err(NonCanonicalEncoding); }
      var pageSize :- U64();
      var gasLimit :- U64();
      var maxFee :- U128();
      var maxPriorityFee :- U128();
      return Ok(EvmDeployment(genesisHash, startBlock, erc20StartBlock, abi, compiler, source, deployment,
                              finalized == 1, pageSize, gasLimit, maxFee, maxPriorityFee));
    }

    method Deployment() returns (r: Result<Deployment>)
      requires Valid()
      modifies this
      ensures Valid() && Reads(GetDeployment(old(Rest())), r, Rest())
    {
      hide Rest, GetId, GetByte, GetU16, GetU64, GetEvmDeployment, Take;
      var kind :- Octet();
      if kind == 1 {
        r := EvmDeploymentFields();
        return;
      }
      if kind == 2 {
        var genesisHash :- Id();
        var length :- U16();
        if length > MAX_SIGNET_CHALLENGE { return Err(BoundExceeded); }
        var signetChallenge :- Bytes(length);
        var maxFeeRate :- U64();
        var minRelayFee :- U64();
        return Ok(BitcoinDeployment(genesisHash, signetChallenge, maxFeeRate, minRelayFee));
      }
      if kind != 3 && kind != 4 { return Err(NonCanonicalEncoding); }
      var genesisHash :- Id();
      var maxFee :- U64();
      return Ok(if kind == 3 then MoneroDeployment(genesisHash, maxFee) else SolanaDeployment(genesisHash, maxFee));
    }

    /** `count` identifiers, pushed one by one. */
    method Ids(count: nat) returns (r: Result<seq<Bytes32>>)
      requires Valid()
      modifies this
      ensures Valid() && Reads(GetIds(old(Rest()), count), r, Rest())
    {
      hide Rest, GetIds, GetId, PutIds;
      var ids: seq<Bytes32> := [];
      IdsFromStart(Rest(), count);
      for i := 0 to count
        invariant Valid() && IdsAfter(ids, Rest(), count - i) == IdsAfter([], old(Rest()), count)
      {
        var id :- Id();
        ids := ids + [id];
      }
      return Ok(ids);
    }

    method Allowed() returns (r: Result<seq<Bytes32>>)
      requires Valid()
      modifies this
      ensures Valid() && Reads(GetAllowed(old(Rest())), r, Rest())
    {
      hide Rest, GetU16, GetIds;
      var count :- U16();
      if count > MAX_ALLOWED_ASSETS { return Err(BoundExceeded); }
      r := Ids(count);
    }

    method Chain() returns (r: Result<Chain>)
      requires Valid()
      modifies this
      ensures Valid() && Reads(GetChain(old(Rest())), r, Rest())
    {
      hide Rest, GetId, GetKind, GetTiming, GetFinality, GetAllowed, GetDeployment, PutChain, PutKind, PutTiming,
           PutFinality, PutAllowed, PutDeployment, DeploymentBounded;
      var chainId :- Id();
      var kind :- Kind();
      var timing :- Timing();
      var finality :- Finality();
      var nativeAsset :- Id();
      var allowedAssets :- Allowed();
      var deployment :- Deployment();
      return Ok(Codec.Chain(chainId, kind, timing, finality, nativeAsset, allowedAssets, deployment));
    }

    method Asset() returns (r: Result<Asset>)
      requires Valid()
      modifies this
      ensures Valid() && Reads(GetAsset(old(Rest())), r, Rest())
    {
      hide Rest, GetId, GetByte, GetAddress;
      var chainId :- Id();
      var assetId :- Id();
      var decimals :- Octet();
      var kind :- Octet();
      if kind == 1 { return Ok(Codec.Asset(chainId, assetId, decimals, Native)); }
      if kind != 2 { return Err(NonCanonicalEncoding); }
      var token :- Address();
      var codeHash :- Id();
      return Ok(Codec.Asset(chainId, assetId, decimals, Erc20(token, codeHash)));
    }

    method Chains(count: nat) returns (r: Result<seq<Chain>>)
      requires Valid()
      modifies this
      ensures Valid() && Reads(GetChains(old(Rest()), count), r, Rest())
    {
      hide Rest, GetChains, GetChain, PutChain, ChainBounded;
      var chains: seq<Chain> := [];
      ChainsFromStart(Rest(), count);
      for i := 0 to count
        invariant Valid() && ChainsAfter(chains, Rest(), count - i) == ChainsAfter([], old(Rest()), count)
      {
        var chain :- Chain();
        chains := chains + [chain];
      }
      return Ok(chains);
    }

    method Assets(count: nat) returns (r: Result<seq<Asset>>)
      requires Valid()
      modifies this
      ensures Valid() && Reads(GetAssets(old(Rest()), count), r, Rest())
    {
      hide Rest, GetAssets, GetAsset, PutAsset, PutAssets;
      var assets: seq<Asset> := [];
      AssetsFromStart(Rest(), count);
      for i := 0 to count
        invariant Valid() && AssetsAfter(assets, Rest(), count - i) == AssetsAfter([], old(Rest()), count)
      {
        var asset :- Asset();
        assets := assets + [asset];
      }
      return Ok(assets);
    }

    method Version(magic: Bytes, version: U16) returns (r: Result<()>)
      requires Valid()
      modifies this
      ensures Valid() && Reads(GetVersion(old(Rest()), magic, version), r, Rest())
    {
      hide Rest, GetU16, Take;
      var found :- Bytes(8);
      if found != magic { return Err(NonCanonicalEncoding); }
      var v :- U16();
      if v != version { return Err(UnsupportedVersion); }
      var reserved :- U16();
      if reserved != 0 { return Err(NonCanonicalEncoding); }
      return Ok(());
    }

    /** Chains, assets and the end of the bytes. */
    method Lists() returns (r: Result<(seq<Chain>, seq<Asset>)>)
      requires Valid()
      modifies this
      ensures r == GetLists(old(Rest()))
    {
      hide GetU16, GetChains, GetAssets;
      var chainCount :- U16();
      if chainCount == 0 || chainCount > MAX_CHAINS { return Err(BoundExceeded); }
      var chains :- Chains(chainCount);
      var assetCount :- U16();
      if assetCount == 0 || assetCount > MAX_ASSET_BINDINGS { return Err(BoundExceeded); }
      var assets :- Assets(assetCount);
      if position != |bytes| { return Err(NonCanonicalEncoding); }
      return Ok((chains, assets));
    }

    method Manifest() returns (r: Result<Manifest>)
      requires Valid()
      modifies this
      ensures r == DecodeManifest(old(Rest()))
    {
      hide Rest, GetId, GetU64, GetVersion, GetDom, GetLists;
      var _ :- Version(MAGIC, REGISTRY_VERSION);
      var networkId :- Id();
      var epoch :- U64();
      var validFrom :- U64();
      var expiresAt :- U64();
      var dom :- Dom();
      var lists :- Lists();
      return Ok(Codec.Manifest(networkId, epoch, validFrom, expiresAt, dom, lists.0, lists.1));
    }
  }

  // ----- the list parsers, front to back -----

  /** Elements already read, in front of a parsed list. */
  function Joined<T>(done: seq<T>, parsed: Parsed<seq<T>>): Parsed<seq<T>> {
    match parsed
    case Ok((xs, rest)) => Ok((done + xs, rest))
    case Err(e) => Err(e)
  }

  lemma JoinOne<T>(done: seq<T>, x: T, parsed: Parsed<seq<T>>)
    ensures Joined(done, Joined([x], parsed)) == Joined(done + [x], parsed)
  {
    if parsed.Ok? { assert done + ([x] + parsed.value.0) == (done + [x]) + parsed.value.0; }
  }

  lemma JoinNone<T>(parsed: Parsed<seq<T>>)
    ensures Joined([], parsed) == parsed
  {
    if parsed.Ok? { assert [] + parsed.value.0 == parsed.value.0; }
  }

  function IdsAfter(done: seq<Bytes32>, b: Bytes, n: nat): Parsed<seq<Bytes32>>
    decreases n
  {
    if n == 0 then Ok((done, b))
    else
      var (x, rest) :- GetId(b);
      IdsAfter(done + [x], rest, n - 1)
  }

  lemma {:induction false} IdsForward(done: seq<Bytes32>, b: Bytes, n: nat)
    ensures IdsAfter(done, b, n) == Joined(done, GetIds(b, n))
    decreases n
  {
    hide GetId, PutIds;
    if n == 0 {
      assert done + [] == done;
    } else if GetId(b).Ok? {
      var (x, rest) := GetId(b).value;
      IdsForward(done + [x], rest, n - 1);
      assert GetIds(b, n) == Joined([x], GetIds(rest, n - 1))
             && IdsAfter(done, b, n) == IdsAfter(done + [x], rest, n - 1);
      hide GetIds, IdsAfter;
      JoinOne(done, x, GetIds(rest, n - 1));
    }
  }

  lemma IdsFromStart(b: Bytes, n: nat)
    ensures IdsAfter([], b, n) == GetIds(b, n)
  {
    hide GetIds, IdsAfter;
    IdsForward([], b, n);
    JoinNone(GetIds(b, n));
  }

  function ChainsAfter(done: seq<Chain>, b: Bytes, n: nat): Parsed<seq<Chain>>
    decreases n
  {
    if n == 0 then Ok((done, b))
    else
      var (x, rest) :- GetChain(b);
      ChainsAfter(done + [x], rest, n - 1)
  }

  lemma {:induction false} ChainsForward(done: seq<Chain>, b: Bytes, n: nat)
    ensures ChainsAfter(done, b, n) == Joined(done, GetChains(b, n))
    decreases n
  {
    hide GetChain, PutChain, ChainBounded;
    if n == 0 {
      assert done + [] == done;
    } else if GetChain(b).Ok? {
      var (x, rest) := GetChain(b).value;
      ChainsForward(done + [x], rest, n - 1);
      assert GetChains(b, n) == Joined([x], GetChains(rest, n - 1))
             && ChainsAfter(done, b, n) == ChainsAfter(done + [x], rest, n - 1);
      hide GetChains, ChainsAfter;
      JoinOne(done, x, GetChains(rest, n - 1));
    }
  }

  lemma ChainsFromStart(b: Bytes, n: nat)
    ensures ChainsAfter([], b, n) == GetChains(b, n)
  {
    hide GetChains, ChainsAfter;
    ChainsForward([], b, n);
    JoinNone(GetChains(b, n));
  }

  function AssetsAfter(done: seq<Asset>, b: Bytes, n: nat): Parsed<seq<Asset>>
    decreases n
  {
    if n == 0 then Ok((done, b))
    else
      var (x, rest) :- GetAsset(b);
      AssetsAfter(done + [x], rest, n - 1)
  }

  lemma {:induction false} AssetsForward(done: seq<Asset>, b: Bytes, n: nat)
    ensures AssetsAfter(done, b, n) == Joined(done, GetAssets(b, n))
    decreases n
  {
    hide GetAsset, PutAsset, PutAssets;
    if n == 0 {
      assert done + [] == done;
    } else if GetAsset(b).Ok? {
      var (x, rest) := GetAsset(b).value;
      AssetsForward(done + [x], rest, n - 1);
      assert GetAssets(b, n) == Joined([x], GetAssets(rest, n - 1))
             && AssetsAfter(done, b, n) == AssetsAfter(done + [x], rest, n - 1);
      hide GetAssets, AssetsAfter;
      JoinOne(done, x, GetAssets(rest, n - 1));
    }
  }

  lemma AssetsFromStart(b: Bytes, n: nat)
    ensures AssetsAfter([], b, n) == GetAssets(b, n)
  {
    hide GetAssets, AssetsAfter;
    AssetsForward([], b, n);
    JoinNone(GetAssets(b, n));
  }
}
