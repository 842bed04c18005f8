/** The deployment registry manifest and its strict binary form. */
module ManifestCodec {
  import opened Base
  import opened RegistryWire

  const MAX_CHAINS: nat := 32
  const MAX_ASSET_BINDINGS: nat := 256
  const MAX_ALLOWED_ASSETS: nat := 64
  const MAX_SIGNET_CHALLENGE: nat := 520
  const MAX_MANIFEST_BYTES: nat := 256 * 1024
  const REGISTRY_VERSION: U16 := 2
  /** "DOMREG1" and a zero byte. */
  const MAGIC: Bytes := [0x44, 0x4f, 0x4d, 0x52, 0x45, 0x47, 0x31, 0x00]

  // ----- data -----

  datatype Timing = Timing(minBlock: U32, maxBlock: U32, maxReorg: U32, observation: U32, broadcast: U32)
  datatype Finality = Finality(minConfirmations: U32, maxReorgDepth: U32)

  datatype DomNetwork = DomMainnet | DomTestnet | DomRegtest
  datatype BitcoinNetwork = BitcoinRegtest | CustomSignet | PublicSignet
  datatype MoneroNetwork = Stagenet | MoneroTestnet
  datatype SolanaNetwork = Devnet | SolanaTestnet | LocalValidator

  datatype Dom = Dom(
    chainId: Bytes32, genesisHash: Bytes32, network: DomNetwork, magic: U32, protocolVersion: U32,
    rangeProofVersion: Byte, consensusRules: Bytes32, apiVersion: U32, timing: Timing, finality: Finality,
    nativeAsset: Bytes32)

  datatype ChainKind =
    | Evm(evmChainId: U64, lock: Bytes20, lockCodeHash: Bytes32, erc20Lock: Option<(Bytes20, Bytes32)>)
    | Bitcoin(bitcoin: BitcoinNetwork)
    | Monero(monero: MoneroNetwork)
    | Solana(solana: SolanaNetwork, program: Bytes32, programDataHash: Bytes32)

  datatype Deployment =
    | EvmDeployment(
        genesisHash: Bytes32, startBlock: U64, erc20StartBlock: Option<U64>, abi: Bytes32, compiler: Bytes32,
        source: Bytes32, deployment: Bytes32, finalizedTag: bool, pageSize: U64, gasLimit: U64, maxFee: U128,
        maxPriorityFee: U128)
    | BitcoinDeployment(genesisHash: Bytes32, signetChallenge: Bytes, maxFeeRate: U64, minRelayFee: U64)
    | MoneroDeployment(genesisHash: Bytes32, maxFeePiconero: U64)
    | SolanaDeployment(genesisHash: Bytes32, maxFeeLamports: U64)

  datatype Chain = Chain(
    chainId: Bytes32, kind: ChainKind, timing: Timing, finality: Finality, nativeAsset: Bytes32,
    allowedAssets: seq<Bytes32>, deployment: Deployment)

  datatype Representation = Native | Erc20(token: Bytes20, codeHash: Bytes32)
  datatype Asset = Asset(chainId: Bytes32, assetId: Bytes32, decimals: Byte, representation: Representation)

  datatype Manifest = Manifest(
    networkId: Bytes32, epoch: U64, validFrom: U64, expiresAt: U64, dom: Dom, chains: seq<Chain>, assets: seq<Asset>)

  // ----- small records -----

  function PutTiming(t: Timing, rest: Bytes): Bytes {
    PutU32(t.minBlock, PutU32(t.maxBlock, PutU32(t.maxReorg, PutU32(t.observation, PutU32(t.broadcast, rest)))))
  }

  function GetTiming(b: Bytes): (r: Parsed<Timing>)
    ensures r.Ok? ==> b == PutTiming(r.value.0, r.value.1)
  {
    var (minBlock, b) :- GetU32(b);
    var (maxBlock, b) :- GetU32(b);
    var (maxReorg, b) :- GetU32(b);
    var (observation, b) :- GetU32(b);
    var (broadcast, b) :- GetU32(b);
    Ok((Timing(minBlock, maxBlock, maxReorg, observation, broadcast), b))
  }

  function PutFinality(f: Finality, rest: Bytes): Bytes {
    PutU32(f.minConfirmations, PutU32(f.maxReorgDepth, rest))
  }

  function GetFinality(b: Bytes): (r: Parsed<Finality>)
    ensures r.Ok? ==> b == PutFinality(r.value.0, r.value.1)
  {
    var (minConfirmations, b) :- GetU32(b);
    var (maxReorgDepth, b) :- GetU32(b);
    Ok((Finality(minConfirmations, maxReorgDepth), b))
  }

  lemma PolicyRoundTrip(t: Timing, f: Finality, rest: Bytes)
    ensures GetTiming(PutTiming(t, rest)) == Ok((t, rest))
    ensures GetFinality(PutFinality(f, rest)) == Ok((f, rest))
  {
    hide PutU32, GetU32;
  }

  function DomTag(n: DomNetwork): Byte { match n case DomMainnet => 1 case DomTestnet => 2 case DomRegtest => 3 }
  function BitcoinTag(n: BitcoinNetwork): Byte {
    match n case BitcoinRegtest => 1 case CustomSignet => 2 case PublicSignet => 3
  }
  function MoneroTag(n: MoneroNetwork): Byte { match n case Stagenet => 2 case MoneroTestnet => 3 }
  function SolanaTag(n: SolanaNetwork): Byte {
    match n case Devnet => 2 case SolanaTestnet => 3 case LocalValidator => 4
  }

  function DomFromTag(tag: Byte): (r: Result<DomNetwork>)
    ensures r.Ok? ==> DomTag(r.value) == tag
  {
    if tag == 1 then Ok(DomMainnet) else if tag == 2 then Ok(DomTestnet) else if tag == 3 then Ok(DomRegtest)
    else Err(NonCanonicalEncoding)
  }

  function BitcoinFromTag(tag: Byte): (r: Result<BitcoinNetwork>)
    ensures r.Ok? ==> BitcoinTag(r.value) == tag
  {
    if tag == 1 then Ok(BitcoinRegtest) else if tag == 2 then Ok(CustomSignet) else if tag == 3 then Ok(PublicSignet)
    else Err(NonCanonicalEncoding)
  }

  function MoneroFromTag(tag: Byte): (r: Result<MoneroNetwork>)
    ensures r.Ok? ==> MoneroTag(r.value) == tag
  {
    if tag == 2 then Ok(Stagenet) else if tag == 3 then Ok(MoneroTestnet) else Err(NonCanonicalEncoding)
  }

  function SolanaFromTag(tag: Byte): (r: Result<SolanaNetwork>)
    ensures r.Ok? ==> SolanaTag(r.value) == tag
  {
    if tag == 2 then Ok(Devnet) else if tag == 3 then Ok(SolanaTestnet) else if tag == 4 then Ok(LocalValidator)
    else Err(NonCanonicalEncoding)
  }

  function PutDom(d: Dom, rest: Bytes): Bytes {
    PutId(d.chainId, PutId(d.genesisHash, PutByte(DomTag(d.network), PutU32(d.magic, PutU32(d.protocolVersion,
      PutByte(d.rangeProofVersion, PutId(d.consensusRules, PutU32(d.apiVersion,
        PutTiming(d.timing, PutFinality(d.finality, PutId(d.nativeAsset, rest)))))))))))
  }

  function GetDom(b: Bytes): (r: Parsed<Dom>)
    ensures r.Ok? ==> b == PutDom(r.value.0, r.value.1)
  {
    hide PutU32, GetU32, PutTiming, PutFinality, GetTiming, GetFinality, DomTag;
    var (chainId, b) :- GetId(b);
    var (genesisHash, b) :- GetId(b);
    var (tag, b) :- GetByte(b);
    var network :- DomFromTag(tag);
    var (magic, b) :- GetU32(b);
    var (protocolVersion, b) :- GetU32(b);
    var (rangeProofVersion, b) :- GetByte(b);
    var (consensusRules, b) :- GetId(b);
    var (apiVersion, b) :- GetU32(b);
    var (timing, b) :- GetTiming(b);
    var (finality, b) :- GetFinality(b);
    var (nativeAsset, b) :- GetId(b);
    Ok((Dom(chainId, genesisHash, network, magic, protocolVersion, rangeProofVersion, consensusRules, apiVersion,
            timing, finality, nativeAsset), b))
  }

  lemma DomRoundTrip(d: Dom, rest: Bytes)
    ensures GetDom(PutDom(d, rest)) == Ok((d, rest))
  {
    hide PutU32, GetU32, PutId, GetId, PutByte, GetByte, PutTiming, PutFinality, GetTiming, GetFinality;
    var tail := PutId(d.nativeAsset, rest);
    PolicyRoundTrip(d.timing, d.finality, tail);
    PolicyRoundTrip(d.timing, d.finality, PutFinality(d.finality, tail));
  }

  // ----- chain kinds and deployments -----

  function PutKind(k: ChainKind, rest: Bytes): Bytes {
    match k
    case Evm(evmChainId, lock, lockCodeHash, erc20Lock) =>
      PutByte(1, PutU64(evmChainId, PutAddress(lock, PutId(lockCodeHash,
        match erc20Lock
        case None => PutByte(0, rest)
        case Some((contract, hash)) => PutByte(1, PutAddress(contract, PutId(hash, rest)))))))
    case Bitcoin(network) => PutByte(2, PutByte(BitcoinTag(network), rest))
    case Monero(network) => PutByte(3, PutByte(MoneroTag(network), rest))
    case Solana(network, program, programDataHash) =>
      PutByte(4, PutByte(SolanaTag(network), PutId(program, PutId(programDataHash, rest))))
  }

  function GetErc20Lock(b: Bytes): (r: Parsed<Option<(Bytes20, Bytes32)>>)
    ensures r.Ok? ==> b == match r.value.0
                           case None => PutByte(0, r.value.1)
                           case Some((contract, hash)) => PutByte(1, PutAddress(contract, PutId(hash, r.value.1)))
  {
    var (flag, b) :- GetByte(b);
    if flag == 0 then Ok((None, b))
    else if flag == 1 then
      var (contract, b) :- GetAddress(b);
      var (hash, b) :- GetId(b);
      Ok((Some((contract, hash)), b))
    else Err(NonCanonicalEncoding)
  }

  function GetEvmKind(b: Bytes): (r: Parsed<ChainKind>)
    ensures r.Ok? ==> r.value.0.Evm? && [1] + b == PutKind(r.value.0, r.value.1)
  {
    var (evmChainId, b) :- GetU64(b);
    var (lock, b) :- GetAddress(b);
    var (lockCodeHash, b) :- GetId(b);
    var (erc20Lock, b) :- GetErc20Lock(b);
    Ok((Evm(evmChainId, lock, lockCodeHash, erc20Lock), b))
  }

  function GetSolanaKind(b: Bytes): (r: Parsed<ChainKind>)
    ensures r.Ok? ==> r.value.0.Solana? && [4] + b == PutKind(r.value.0, r.value.1)
  {
    var (tag, b) :- GetByte(b);
    var network :- SolanaFromTag(tag);
    var (program, b) :- GetId(b);
    var (programDataHash, b) :- GetId(b);
    Ok((Solana(network, program, programDataHash), b))
  }

  function GetKind(b: Bytes): (r: Parsed<ChainKind>)
    ensures r.Ok? ==> b == PutKind(r.value.0, r.value.1)
  {
    var (kind, b) :- GetByte(b);
    if kind == 1 then GetEvmKind(b)
    else if kind == 2 then
      var (tag, b) :- GetByte(b);
      var network :- BitcoinFromTag(tag);
      Ok((Bitcoin(network), b))
    else if kind == 3 then
      var (tag, b) :- GetByte(b);
      var network :- MoneroFromTag(tag);
      Ok((Monero(network), b))
    else if kind == 4 then GetSolanaKind(b)
    else Err(NonCanonicalEncoding)
  }

  lemma KindRoundTrip(k: ChainKind, rest: Bytes)
    ensures GetKind(PutKind(k, rest)) == Ok((k, rest))
  {
    hide PutU64, GetU64, PutId, GetId, PutByte, GetByte, PutAddress, GetAddress;
    if k.Evm? {
      assert GetErc20Lock(match k.erc20Lock
                          case None => PutByte(0, rest)
                          case Some((contract, hash)) => PutByte(1, PutAddress(contract, PutId(hash, rest)))) ==
                              Ok((k.erc20Lock, rest));
    }
  }

  function PutEvmDeployment(d: Deployment, rest: Bytes): Bytes
    requires d.EvmDeployment?
  {
    PutId(d.genesisHash, PutU64(d.startBlock, PutStart(d.erc20StartBlock,
      PutId(d.abi, PutId(d.compiler, PutId(d.source, PutId(d.deployment, PutByte(if d.finalizedTag then 1 else 0,
        PutU64(d.pageSize, PutU64(d.gasLimit, PutU128(d.maxFee, PutU128(d.maxPriorityFee, rest))))))))))))
  }

  function PutStart(start: Option<U64>, rest: Bytes): Bytes {
    match start case None => PutByte(0, rest) case Some(value) => PutByte(1, PutU64(value, rest))
  }

  function GetStart(b: Bytes): (r: Parsed<Option<U64>>)
    ensures r.Ok? ==> b == PutStart(r.value.0, r.value.1)
  {
    var (flag, b) :- GetByte(b);
    if flag == 0 then Ok((None, b))
    else if flag == 1 then
      var (value, b) :- GetU64(b);
      Ok((Some(value), b))
    else Err(NonCanonicalEncoding)
  }

  function GetBool(b: Bytes): (r: Parsed<bool>)
    ensures r.Ok? ==> b == PutByte(if r.value.0 then 1 else 0, r.value.1)
  {
    var (flag, b) :- GetByte(b);
    if flag <= 1 then Ok((flag == 1, b)) else Err(NonCanonicalEncoding)
  }

  function GetEvmDeployment(b: Bytes): (r: Parsed<Deployment>)
    ensures r.Ok? ==> r.value.0.EvmDeployment? && b == PutEvmDeployment(r.value.0, r.value.1)
  {
    var (genesisHash, b) :- GetId(b);
    var (startBlock, b) :- GetU64(b);
    var (erc20StartBlock, b) :- GetStart(b);
    var (abi, b) :- GetId(b);
    var (compiler, b) :- GetId(b);
    var (source, b) :- GetId(b);
    var (deployment, b) :- GetId(b);
    var (finalizedTag, b) :- GetBool(b);
    var (pageSize, b) :- GetU64(b);
    var (gasLimit, b) :- GetU64(b);
    var (maxFee, b) :- GetU128(b);
    var (maxPriorityFee, b) :- GetU128(b);
    Ok((EvmDeployment(genesisHash, startBlock, erc20StartBlock, abi, compiler, source, deployment, finalizedTag,
                      pageSize, gasLimit, maxFee, maxPriorityFee), b))
  }

  function PutBitcoinDeployment(d: Deployment, rest: Bytes): Bytes
    requires d.BitcoinDeployment?
  {
    PutId(d.genesisHash,
          PutNumber(|d.signetChallenge|, 2, Put(d.signetChallenge, PutU64(d.maxFeeRate, PutU64(d.minRelayFee, rest)))))
  }

  function GetBitcoinDeployment(b: Bytes): (r: Parsed<Deployment>)
    ensures r.Ok? ==>
              r.value.0.BitcoinDeployment? && DeploymentBounded(r.value.0)
                && b == PutBitcoinDeployment(r.value.0, r.value.1)
  {
    var (genesisHash, b) :- GetId(b);
    var (length, b) :- GetU16(b);
    var _ :- Check(length <= MAX_SIGNET_CHALLENGE, BoundExceeded);
    var (signetChallenge, b) :- Take(b, length);
    var (maxFeeRate, b) :- GetU64(b);
    var (minRelayFee, b) :- GetU64(b);
    Ok((BitcoinDeployment(genesisHash, signetChallenge, maxFeeRate, minRelayFee), b))
  }

  predicate DeploymentBounded(d: Deployment) {
    d.BitcoinDeployment? ==> |d.signetChallenge| <= MAX_SIGNET_CHALLENGE
  }

  function PutDeployment(d: Deployment, rest: Bytes): Bytes {
    match d
    case EvmDeployment(_, _, _, _, _, _, _, _, _, _, _, _) => PutByte(1, PutEvmDeployment(d, rest))
    case BitcoinDeployment(_, _, _, _) => PutByte(2, PutBitcoinDeployment(d, rest))
    case MoneroDeployment(genesisHash, maxFee) => PutByte(3, PutId(genesisHash, PutU64(maxFee, rest)))
    case SolanaDeployment(genesisHash, maxFee) => PutByte(4, PutId(genesisHash, PutU64(maxFee, rest)))
  }

  function GetDeployment(b: Bytes): (r: Parsed<Deployment>)
    ensures r.Ok? ==> DeploymentBounded(r.value.0) && b == PutDeployment(r.value.0, r.value.1)
  {
    hide PutEvmDeployment, PutBitcoinDeployment, GetEvmDeployment, GetBitcoinDeployment;
    var (kind, b) :- GetByte(b);
    if kind == 1 then GetEvmDeployment(b)
    else if kind == 2 then GetBitcoinDeployment(b)
    else if kind == 3 || kind == 4 then
      var (genesisHash, b) :- GetId(b);
      var (maxFee, b) :- GetU64(b);
      Ok((if kind == 3 then MoneroDeployment(genesisHash, maxFee) else SolanaDeployment(genesisHash, maxFee), b))
    else Err(NonCanonicalEncoding)
  }

  lemma FlagsRoundTrip(start: Option<U64>, flag: bool, rest: Bytes)
    ensures GetStart(PutStart(start, rest)) == Ok((start, rest))
    ensures GetBool(PutByte(if flag then 1 else 0, rest)) == Ok((flag, rest))
  {
    hide PutU64, GetU64, PutByte, GetByte;
  }

  lemma EvmDeploymentRoundTrip(d: Deployment, rest: Bytes)
    requires d.EvmDeployment?
    ensures GetEvmDeployment(PutEvmDeployment(d, rest)) == Ok((d, rest))
  {
    hide PutU64, GetU64, PutU128, GetU128, PutId, GetId, PutByte, GetByte, PutStart, GetStart, GetBool;
    var fees := PutU64(d.pageSize, PutU64(d.gasLimit, PutU128(d.maxFee, PutU128(d.maxPriorityFee, rest))));
    var digests := PutId(d.abi,
                         PutId(d.compiler,
                               PutId(d.source, PutId(d.deployment, PutByte(if d.finalizedTag then 1 else 0, fees)))));
    FlagsRoundTrip(d.erc20StartBlock, d.finalizedTag, fees);
    FlagsRoundTrip(d.erc20StartBlock, d.finalizedTag, digests);
  }

  lemma BitcoinDeploymentRoundTrip(d: Deployment, rest: Bytes)
    requires d.BitcoinDeployment? && |d.signetChallenge| <= MAX_SIGNET_CHALLENGE
    ensures GetBitcoinDeployment(PutBitcoinDeployment(d, rest)) == Ok((d, rest))
  {
    hide PutU64, GetU64, PutId, GetId, Put, Take;
    PowersOf256();
  }

  lemma DeploymentRoundTrip(d: Deployment, rest: Bytes)
    requires DeploymentBounded(d)
    ensures GetDeployment(PutDeployment(d, rest)) == Ok((d, rest))
  {
    hide PutEvmDeployment, PutBitcoinDeployment, GetEvmDeployment, GetBitcoinDeployment, PutU64, GetU64, PutId, GetId,
         PutByte, GetByte;
    if d.EvmDeployment? { EvmDeploymentRoundTrip(d, rest); }
    if d.BitcoinDeployment? { BitcoinDeploymentRoundTrip(d, rest); }
  }

  // ----- chains -----

  predicate ChainBounded(c: Chain) {
    |c.allowedAssets| <= MAX_ALLOWED_ASSETS && DeploymentBounded(c.deployment)
  }

  function PutAllowed(ids: seq<Bytes32>, rest: Bytes): Bytes {
    PutNumber(|ids|, 2, PutIds(ids, rest))
  }

  function GetAllowed(b: Bytes): (r: Parsed<seq<Bytes32>>)
    ensures r.Ok? ==> |r.value.0| <= MAX_ALLOWED_ASSETS && b == PutAllowed(r.value.0, r.value.1)
  {
    var (count, b) :- GetU16(b);
    var _ :- Check(count <= MAX_ALLOWED_ASSETS, BoundExceeded);
    GetIds(b, count)
  }

  lemma AllowedRoundTrip(ids: seq<Bytes32>, rest: Bytes)
    requires |ids| <= MAX_ALLOWED_ASSETS
    ensures GetAllowed(PutAllowed(ids, rest)) == Ok((ids, rest))
  {
    hide PutIds, GetIds;
    PowersOf256();
    IdsRoundTrip(ids, rest);
  }

  function PutChain(c: Chain, rest: Bytes): Bytes {
    PutId(c.chainId, PutKind(c.kind, PutTiming(c.timing, PutFinality(c.finality, PutId(c.nativeAsset,
      PutAllowed(c.allowedAssets, PutDeployment(c.deployment, rest)))))))
  }

  function GetChain(b: Bytes): (r: Parsed<Chain>)
    ensures r.Ok? ==> ChainBounded(r.value.0) && b == PutChain(r.value.0, r.value.1)
  {
    hide PutKind, GetKind, PutTiming, PutFinality, GetTiming, GetFinality, PutAllowed, GetAllowed, PutDeployment,
         GetDeployment;
    var (chainId, b) :- GetId(b);
    var (kind, b) :- GetKind(b);
    var (timing, b) :- GetTiming(b);
    var (finality, b) :- GetFinality(b);
    var (nativeAsset, b) :- GetId(b);
    var (allowedAssets, b) :- GetAllowed(b);
    var (deployment, b) :- GetDeployment(b);
    Ok((Chain(chainId, kind, timing, finality, nativeAsset, allowedAssets, deployment), b))
  }

  lemma ChainRoundTrip(c: Chain, rest: Bytes)
    requires ChainBounded(c)
    ensures GetChain(PutChain(c, rest)) == Ok((c, rest))
  {
    hide PutId, GetId, PutKind, GetKind, PutTiming, PutFinality, GetTiming, GetFinality, PutAllowed, GetAllowed,
         PutDeployment, GetDeployment;
    var b0 := PutDeployment(c.deployment, rest);
    var b1 := PutId(c.nativeAsset, PutAllowed(c.allowedAssets, b0));
    var b2 := PutFinality(c.finality, b1);
    DeploymentRoundTrip(c.deployment, rest);
    AllowedRoundTrip(c.allowedAssets, b0);
    PolicyRoundTrip(c.timing, c.finality, b1);
    PolicyRoundTrip(c.timing, c.finality, b2);
    KindRoundTrip(c.kind, PutTiming(c.timing, b2));
  }

  predicate AllBounded(cs: seq<Chain>) {
    cs == [] || (ChainBounded(cs[0]) && AllBounded(cs[1..]))
  }

  function PutChains(cs: seq<Chain>, rest: Bytes): Bytes {
    if cs == [] then rest else PutChain(cs[0], PutChains(cs[1..], rest))
  }

  function GetChains(b: Bytes, n: nat): Parsed<seq<Chain>>
    decreases n
  {
    if n == 0 then Ok(([], b))
    else
      var (c, rest) :- GetChain(b);
      var (cs, rest) :- GetChains(rest, n - 1);
      Ok(([c] + cs, rest))
  }

  lemma {:induction false} ChainsInverse(b: Bytes, n: nat)
    requires GetChains(b, n).Ok?
    ensures var (cs, rest) := GetChains(b, n).value;
            |cs| == n && AllBounded(cs) && b == PutChains(cs, rest)
    decreases n
  {
    hide PutChain, GetChain, ChainBounded;
    if n > 0 {
      var (c, b') := GetChain(b).value;
      ChainsInverse(b', n - 1);
      var (cs, rest) := GetChains(b', n - 1).value;
      assert ([c] + cs)[1..] == cs;
      assert b == PutChain(c, b');
    }
  }

  lemma {:induction false} ChainsRoundTrip(cs: seq<Chain>, rest: Bytes)
    requires AllBounded(cs)
    ensures GetChains(PutChains(cs, rest), |cs|) == Ok((cs, rest))
  {
    hide PutChain, GetChain, ChainBounded;
    if cs != [] {
      ChainRoundTrip(cs[0], PutChains(cs[1..], rest));
      ChainsRoundTrip(cs[1..], rest);
      assert [cs[0]] + cs[1..] == cs;
    }
  }

  // ----- assets -----

  function PutAsset(a: Asset, rest: Bytes): Bytes {
    PutId(a.chainId, PutId(a.assetId, PutByte(a.decimals,
      match a.representation
      case Native => PutByte(1, rest)
      case Erc20(token, codeHash) => PutByte(2, PutAddress(token, PutId(codeHash, rest))))))
  }

  function GetRepresentation(b: Bytes): (r: Parsed<Representation>)
    ensures r.Ok? ==> b == match r.value.0
                           case Native => PutByte(1, r.value.1)
                           case Erc20(token, codeHash) => PutByte(2, PutAddress(token, PutId(codeHash, r.value.1)))
  {
    var (kind, b) :- GetByte(b);
    if kind == 1 then Ok((Native, b))
    else if kind == 2 then
      var (token, b) :- GetAddress(b);
      var (codeHash, b) :- GetId(b);
      Ok((Erc20(token, codeHash), b))
    else Err(NonCanonicalEncoding)
  }

  function GetAsset(b: Bytes): (r: Parsed<Asset>)
    ensures r.Ok? ==> b == PutAsset(r.value.0, r.value.1)
  {
    var (chainId, b) :- GetId(b);
    var (assetId, b) :- GetId(b);
    var (decimals, b) :- GetByte(b);
    var (representation, b) :- GetRepresentation(b);
    Ok((Asset(chainId, assetId, decimals, representation), b))
  }

  lemma AssetRoundTrip(a: Asset, rest: Bytes)
    ensures GetAsset(PutAsset(a, rest)) == Ok((a, rest))
  {
    hide PutId, GetId, PutByte, GetByte, PutAddress, GetAddress;
    var tail := match a.representation
      case Native => PutByte(1, rest)
      case Erc20(token, codeHash) => PutByte(2, PutAddress(token, PutId(codeHash, rest)));
    assert GetRepresentation(tail) == Ok((a.representation, rest));
  }

  function PutAssets(xs: seq<Asset>, rest: Bytes): Bytes {
    if xs == [] then rest else PutAsset(xs[0], PutAssets(xs[1..], rest))
  }

  function GetAssets(b: Bytes, n: nat): (r: Parsed<seq<Asset>>)
    ensures r.Ok? ==> |r.value.0| == n && b == PutAssets(r.value.0, r.value.1)
    decreases n
  {
    hide PutAsset, GetAsset;
    if n == 0 then Ok(([], b))
    else
      var (a, rest) :- GetAsset(b);
      var (xs, rest) :- GetAssets(rest, n - 1);
      Ok(([a] + xs, rest))
  }

  lemma {:induction false} AssetsRoundTrip(xs: seq<Asset>, rest: Bytes)
    ensures GetAssets(PutAssets(xs, rest), |xs|) == Ok((xs, rest))
  {
    hide PutAsset, GetAsset;
    if xs != [] {
      AssetRoundTrip(xs[0], PutAssets(xs[1..], rest));
      AssetsRoundTrip(xs[1..], rest);
      assert [xs[0]] + xs[1..] == xs;
    }
  }

  // ----- manifests -----

  /** The lists a decoder admits. */
  predicate Bounded(m: Manifest) {
    0 < |m.chains| <= MAX_CHAINS && 0 < |m.assets| <= MAX_ASSET_BINDINGS && AllBounded(m.chains)
  }

  /** The lists whose lengths fit their two-byte counts. */
  predicate Countable(m: Manifest) {
    && |m.chains| < U16_LIMIT && |m.assets| < U16_LIMIT
    && (forall i :: 0 <= i < |m.chains| ==>
          && |m.chains[i].allowedAssets| < U16_LIMIT
          && (m.chains[i].deployment.BitcoinDeployment? ==> |m.chains[i].deployment.signetChallenge| < U16_LIMIT))
  }

  function PutDocument(m: Manifest, rest: Bytes): Bytes {
    PutVersion(MAGIC, REGISTRY_VERSION, PutId(m.networkId, PutU64(m.epoch, PutU64(m.validFrom, PutU64(m.expiresAt,
      PutDom(m.dom, PutLists(m.chains, m.assets, rest)))))))
  }

  function PutLists(chains: seq<Chain>, assets: seq<Asset>, rest: Bytes): Bytes {
    PutNumber(|chains|, 2, PutChains(chains, PutNumber(|assets|, 2, PutAssets(assets, rest))))
  }

  function PutManifest(m: Manifest): Bytes {
    PutDocument(m, [])
  }

  function EncodeManifest(m: Manifest): Result<Bytes> {
    var _ :- Check(Countable(m) && |PutManifest(m)| <= MAX_MANIFEST_BYTES, BoundExceeded);
    Ok(PutManifest(m))
  }

  function GetLists(b: Bytes): Result<(seq<Chain>, seq<Asset>)> {
    var (chainCount, b) :- GetU16(b);
    var _ :- Check(0 < chainCount <= MAX_CHAINS, BoundExceeded);
    var (chains, b) :- GetChains(b, chainCount);
    var (assetCount, b) :- GetU16(b);
    var _ :- Check(0 < assetCount <= MAX_ASSET_BINDINGS, BoundExceeded);
    var (assets, b) :- GetAssets(b, assetCount);
    var _ :- Check(b == [], NonCanonicalEncoding);
    Ok((chains, assets))
  }

  function DecodeManifest(b: Bytes): Result<Manifest> {
    var (_, b) :- GetVersion(b, MAGIC, REGISTRY_VERSION);
    var (networkId, b) :- GetId(b);
    var (epoch, b) :- GetU64(b);
    var (validFrom, b) :- GetU64(b);
    var (expiresAt, b) :- GetU64(b);
    var (dom, b) :- GetDom(b);
    var (chains, assets) :- GetLists(b);
    Ok(Manifest(networkId, epoch, validFrom, expiresAt, dom, chains, assets))
  }

  lemma ListsInverse(b: Bytes)
    requires GetLists(b).Ok?
    ensures var (chains, assets) := GetLists(b).value;
            0 < |chains| <= MAX_CHAINS && 0 < |assets| <= MAX_ASSET_BINDINGS && AllBounded(chains)
              && b == PutLists(chains, assets, [])
  {
    hide PutChains, GetChains, PutAssets, GetAssets, AllBounded;
    var (chainCount, b') := GetU16(b).value;
    ChainsInverse(b', chainCount);
  }

  /** Parsed bytes are the encoding of what was parsed, which is within bounds. */
  lemma ManifestInverse(b: Bytes)
    requires DecodeManifest(b).Ok?
    ensures Bounded(DecodeManifest(b).value) && b == PutManifest(DecodeManifest(b).value)
  {
    hide PutDom, GetDom, PutLists, GetLists, AllBounded, GetU64, GetId, GetVersion;
    var m := DecodeManifest(b).value;
    var (_, b1) := GetVersion(b, MAGIC, REGISTRY_VERSION).value;
    var (_, b2) := GetId(b1).value;
    var (_, b3) := GetU64(b2).value;
    var (_, b4) := GetU64(b3).value;
    var (_, b5) := GetU64(b4).value;
    var (_, b6) := GetDom(b5).value;
    ListsInverse(b6);
    assert b1 == PutId(m.networkId, b2);
    assert b == PutVersion(MAGIC, REGISTRY_VERSION, b1);
  }

  lemma ListsRoundTrip(chains: seq<Chain>, assets: seq<Asset>)
    requires 0 < |chains| <= MAX_CHAINS && 0 < |assets| <= MAX_ASSET_BINDINGS
    requires AllBounded(chains)
    ensures GetLists(PutLists(chains, assets, [])) == Ok((chains, assets))
  {
    hide PutChains, GetChains, PutAssets, GetAssets, AllBounded;
    PowersOf256();
    ChainsRoundTrip(chains, PutNumber(|assets|, 2, PutAssets(assets, [])));
    AssetsRoundTrip(assets, []);
  }

  /** Decoding undoes encoding exactly on the manifests within the decoder's bounds. */
  lemma ManifestRoundTrip(m: Manifest)
    ensures DecodeManifest(PutManifest(m)) == Ok(m) <==> Bounded(m)
  {
    hide PutVersion, GetVersion, PutId, GetId, PutU64, GetU64, PutDom, GetDom, PutLists, GetLists, AllBounded;
    if Bounded(m) {
      DomRoundTrip(m.dom, PutLists(m.chains, m.assets, []));
      ListsRoundTrip(m.chains, m.assets);
    } else if DecodeManifest(PutManifest(m)).Ok? {
      ManifestInverse(PutManifest(m));
    }
  }

  // ----- validated manifests -----

  /** The cross-field rules of a manifest; `None` admits it. */
  type Validation = Manifest -> Option<RegistryError>

  function Validate(rules: Validation, m: Manifest): Result<Unit> {
    match rules(m) case None => Ok(Unit) case Some(e) => Err(e)
  }

  function CanonicalBytes(rules: Validation, m: Manifest): Result<Bytes> {
    var _ :- Validate(rules, m);
    EncodeManifest(m)
  }

  function Decode(rules: Validation, b: Bytes): (r: Result<Manifest>) {
    var _ :- Check(|b| <= MAX_MANIFEST_BYTES, BoundExceeded);
    var m :- DecodeManifest(b);
    var _ :- Validate(rules, m);
    var canonical :- CanonicalBytes(rules, m);
    var _ :- Check(canonical == b, NonCanonicalEncoding);
    Ok(m)
  }

  /** Accepted bytes are exactly the canonical bytes of a valid manifest within the
      decoder's bounds: the re-encoding test refuses nothing the parser let through. */
  lemma DecodeAccepts(rules: Validation, b: Bytes, m: Manifest)
    ensures Decode(rules, b) == Ok(m) <==> Bounded(m) && CanonicalBytes(rules, m) == Ok(b)
  {
    hide PutManifest, DecodeManifest;
    ManifestRoundTrip(m);
    if DecodeManifest(b).Ok? {
      ManifestInverse(b);
      BoundedIsCountable(DecodeManifest(b).value);
    }
  }

  lemma BoundedIsCountable(m: Manifest)
    requires Bounded(m)
    ensures Countable(m)
  {
    EachBounded(m.chains);
  }

  lemma {:induction false} EachBounded(cs: seq<Chain>)
    requires AllBounded(cs)
    ensures forall i :: 0 <= i < |cs| ==> ChainBounded(cs[i])
  {
    hide ChainBounded;
    if cs != [] {
      EachBounded(cs[1..]);
      assert forall i :: 0 < i < |cs| ==> cs[i] == cs[1..][i - 1];
    }
  }

  /** One manifest has one accepted form. */
  lemma DecodeInjective(rules: Validation, a: Bytes, b: Bytes)
    requires Decode(rules, a).Ok? && Decode(rules, a) == Decode(rules, b)
    ensures a == b
  {
    hide CanonicalBytes, Decode;
    DecodeAccepts(rules, a, Decode(rules, a).value);
    DecodeAccepts(rules, b, Decode(rules, b).value);
  }
}
