/** The manifest encoder as it works: a buffer that grows. Whatever is written after
    a method's own bytes follows them. */
module ManifestWriter {
  import opened Base
  import opened RegistryWire
  import Codec = ManifestCodec
  import opened ManifestCodec

  predicate DeploymentCountable(d: Deployment) {
    d.BitcoinDeployment? ==> |d.signetChallenge| < U16_LIMIT
  }

  predicate ChainCountable(c: Chain) {
    |c.allowedAssets| < U16_LIMIT && DeploymentCountable(c.deployment)
  }

  class Writer {
    var out: Bytes

    constructor ()
      ensures out == []
    {
      out := [];
    }

    method Append(p: Bytes)
      modifies this
      ensures forall rest :: out + rest == old(out) + Put(p, rest)
    {
      forall rest: Bytes
        ensures (out + p) + rest == out + Put(p, rest)
      {
        assert (out + p) + rest == out + (p + rest);
      }
      out := out + p;
    }

    method Octet(v: Byte)
      modifies this
      ensures forall rest :: out + rest == old(out) + PutByte(v, rest)
    {
      Append([v]);
    }

    method Number(v: nat, width: nat)
      modifies this
      ensures forall rest :: out + rest == old(out) + PutNumber(v, width, rest)
    {
      Append(BigEndian(v, width));
    }

    method Timing(t: Timing)
      modifies this
      ensures forall rest :: out + rest == old(out) + PutTiming(t, rest)
    {
      Number(t.minBlock, 4);
      Number(t.maxBlock, 4);
      Number(t.maxReorg, 4);
      Number(t.observation, 4);
      Number(t.broadcast, 4);
    }

    method Finality(f: Finality)
      modifies this
      ensures forall rest :: out + rest == old(out) + PutFinality(f, rest)
    {
      Number(f.minConfirmations, 4);
      Number(f.maxReorgDepth, 4);
    }

    method Dom(d: Dom)
      modifies this
      ensures forall rest :: out + rest == old(out) + PutDom(d, rest)
    {
      hide PutByte, PutNumber, PutTiming, PutFinality, Put;
      Append(d.chainId);
      Append(d.genesisHash);
      Octet(DomTag(d.network));
      Number(d.magic, 4);
      Number(d.protocolVersion, 4);
      Octet(d.rangeProofVersion);
      Append(d.consensusRules);
      Number(d.apiVersion, 4);
      Timing(d.timing);
      Finality(d.finality);
      Append(d.nativeAsset);
    }

    method Kind(k: ChainKind)
      modifies this
      ensures forall rest :: out + rest == old(out) + PutKind(k, rest)
    {
      hide PutByte, PutNumber, Put;
      match k {
        case Evm(evmChainId, lock, lockCodeHash, erc20Lock) =>
          Octet(1);
          Number(evmChainId, 8);
          Append(lock);
          Append(lockCodeHash);
          match erc20Lock {
            case None => Octet(0);
            case Some((contract, hash)) =>
              Octet(1);
              Append(contract);
              Append(hash);
          }
        case Bitcoin(network) =>
          Octet(2);
          Octet(BitcoinTag(network));
        case Monero(network) =>
          Octet(3);
          Octet(MoneroTag(network));
        case Solana(network, program, programDataHash) =>
          Octet(4);
          Octet(SolanaTag(network));
          Append(program);
          Append(programDataHash);
      }
    }

    method EvmDeploymentFields(d: Deployment)
      requires d.EvmDeployment?
      modifies this
      ensures forall rest :: out + rest == old(out) + PutEvmDeployment(d, rest)
    {
      hide PutByte, PutNumber, Put;
      Append(d.genesisHash);
      Number(d.startBlock, 8);
      match d.erc20StartBlock {
        case None => Octet(0);
        case Some(start) =>
          Octet(1);
          Number(start, 8);
      }
      Append(d.abi);
      Append(d.compiler);
      Append(d.source);
      Append(d.deployment);
      Octet(if d.finalizedTag then 1 else 0);
      Number(d.pageSize, 8);
      Number(d.gasLimit, 8);
      Number(d.maxFee, 16);
      Number(d.maxPriorityFee, 16);
    }

    method Deployment(d: Deployment) returns (r: Result<Unit>)
      modifies this
      ensures r == Check(DeploymentCountable(d), BoundExceeded)
      ensures r.Ok? ==> forall rest :: out + rest == old(out) + PutDeployment(d, rest)
    {
      hide PutByte, PutNumber, Put, PutEvmDeployment;
      match d {
        case EvmDeployment(_, _, _, _, _, _, _, _, _, _, _, _) =>
          Octet(1);
          EvmDeploymentFields(d);
        case MoneroDeployment(genesisHash, maxFee) =>
          Octet(3);
          Append(genesisHash);
          Number(maxFee, 8);
        case SolanaDeployment(genesisHash, maxFee) =>
          Octet(4);
          Append(genesisHash);
          Number(maxFee, 8);
        case BitcoinDeployment(genesisHash, challenge, maxFeeRate, minRelayFee) =>
          Octet(2);
          Append(genesisHash);
          if |challenge| >= U16_LIMIT { return Err(BoundExceeded); }
          Number(|challenge|, 2);
          Append(challenge);
          Number(maxFeeRate, 8);
          Number(minRelayFee, 8);
      }
      return Ok(Unit);
    }

    method Ids(ids: seq<Bytes32>)
      modifies this
      ensures forall rest :: out + rest == old(out) + PutIds(ids, rest)
    {
      hide Put;
      for i := 0 to |ids|
        invariant forall rest :: out + PutIds(ids[i..], rest) == old(out) + PutIds(ids, rest)
      {
        assert ids[i..][1..] == ids[i + 1..];
        Append(ids[i]);
      }
    }

    method Chain(c: Chain) returns (r: Result<Unit>)
      modifies this
      ensures r == Check(ChainCountable(c), BoundExceeded)
      ensures r.Ok? ==> forall rest :: out + rest == old(out) + PutChain(c, rest)
    {
      hide PutNumber, Put, PutKind, PutTiming, PutFinality, PutDeployment, PutIds, DeploymentCountable;
      Append(c.chainId);
      Kind(c.kind);
      Timing(c.timing);
      Finality(c.finality);
      Append(c.nativeAsset);
      if |c.allowedAssets| >= U16_LIMIT { return Err(BoundExceeded); }
      Number(|c.allowedAssets|, 2);
      Ids(c.allowedAssets);
      r := Deployment(c.deployment);
    }

    method Asset(a: Asset)
      modifies this
      ensures forall rest :: out + rest == old(out) + PutAsset(a, rest)
    {
      hide PutByte, Put;
      Append(a.chainId);
      Append(a.assetId);
      Octet(a.decimals);
      match a.representation {
        case Native => Octet(1);
        case Erc20(token, codeHash) =>
          Octet(2);
          Append(token);
          Append(codeHash);
      }
    }

    method Chains(cs: seq<Chain>) returns (r: Result<Unit>)
      modifies this
      ensures r == Check(forall i :: 0 <= i < |cs| ==> ChainCountable(cs[i]), BoundExceeded)
      ensures r.Ok? ==> forall rest :: out + rest == old(out) + PutChains(cs, rest)
    {
      hide PutChain, ChainCountable;
      for i := 0 to |cs|
        invariant forall j :: 0 <= j < i ==> ChainCountable(cs[j])
        invariant forall rest :: out + PutChains(cs[i..], rest) == old(out) + PutChains(cs, rest)
      {
        assert cs[i..][1..] == cs[i + 1..];
        var _ :- Chain(cs[i]);
      }
      return Ok(Unit);
    }

    method Assets(xs: seq<Asset>)
      modifies this
      ensures forall rest :: out + rest == old(out) + PutAssets(xs, rest)
    {
      hide PutAsset;
      for i := 0 to |xs|
        invariant forall rest :: out + PutAssets(xs[i..], rest) == old(out) + PutAssets(xs, rest)
      {
        assert xs[i..][1..] == xs[i + 1..];
        Asset(xs[i]);
      }
    }

    method Lists(m: Manifest) returns (r: Result<Unit>)
      modifies this
      ensures r == Check(Countable(m), BoundExceeded)
      ensures r.Ok? ==> forall rest :: out + rest == old(out) + PutLists(m.chains, m.assets, rest)
    {
      hide PutNumber, PutChains, PutAssets, ChainCountable, Countable;
      CountableChains(m);
      if |m.chains| >= U16_LIMIT { return Err(BoundExceeded); }
      Number(|m.chains|, 2);
      var _ :- Chains(m.chains);
      if |m.assets| >= U16_LIMIT { return Err(BoundExceeded); }
      Number(|m.assets|, 2);
      Assets(m.assets);
      return Ok(Unit);
    }

    method Document(m: Manifest) returns (r: Result<Unit>)
      modifies this
      ensures r == Check(Countable(m), BoundExceeded)
      ensures r.Ok? ==> forall rest :: out + rest == old(out) + PutDocument(m, rest)
    {
      hide PutNumber, Put, PutDom, PutLists, Countable;
      Append(MAGIC);
      Number(REGISTRY_VERSION, 2);
      Number(0, 2);
      Append(m.networkId);
      Number(m.epoch, 8);
      Number(m.validFrom, 8);
      Number(m.expiresAt, 8);
      Dom(m.dom);
      r := Lists(m);
    }

    method Manifest(m: Manifest) returns (r: Result<Bytes>)
      requires out == []
      modifies this
      ensures r == EncodeManifest(m)
    {
      hide PutDocument, Countable;
      var _ :- Document(m);
      assert out == out + [] == [] + PutDocument(m, []) == PutManifest(m);
      if |out| > MAX_MANIFEST_BYTES { return Err(BoundExceeded); }
      return Ok(out);
    }
  }

  lemma CountableChains(m: Manifest)
    ensures Countable(m) <==> |m.chains| < U16_LIMIT && |m.assets| < U16_LIMIT && forall i :: 0 <= i < |m.chains| ==>
              ChainCountable(m.chains[i])
  {
  }
}
