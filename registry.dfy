/** The shared blockchain service: one JSON-RPC provider per configured
    chain, the signing wallet, and the finality query the watcher uses. */
module Registry {
  import opened Wrappers
  import opened Json
  import opened Chains

  /** A JSON-RPC client; only the endpoint it was built for matters here. */
  datatype Provider = Provider(rpcUrl: string)

  /** The wallet built from the configured private key. */
  datatype Signer = Signer(privateKey: string)

  /** A block as the provider returns it: its height and its `transactions` list. */
  datatype Block = Block(number: int, transactions: seq<Json>)

  const SignerKey := "SIGNER_PRIVATE_KEY"

  /** `configService.get(key)` is truthy: present and not "". */
  predicate Configured(env: map<string, string>, key: string) {
    key in env && env[key] != ""
  }

  // ---------------------------------------------------------------------
  // The registration loop, as functions of the map and key order it starts from

  /** The provider map after registering `chains` in order on top of `p0`. */
  function ProvidersAfter(p0: map<string, Provider>, env: map<string, string>, chains: seq<Blockchain>)
    : map<string, Provider>
  {
    if chains == [] then p0
    else
      var p := ProvidersAfter(p0, env, chains[..|chains| - 1]);
      var c := chains[|chains| - 1];
      if Configured(env, c.rpcUrlEnvVar) then p[c.hexChainId := Provider(env[c.rpcUrlEnvVar])] else p
  }

  /** The map's key order after the same loop: a new key goes last, a key set
      again keeps its place. */
  function KeysAfter(k0: seq<string>, env: map<string, string>, chains: seq<Blockchain>): (r: seq<string>)
    ensures |k0| <= |r| && r[..|k0|] == k0
  {
    if chains == [] then k0
    else
      var k := KeysAfter(k0, env, chains[..|chains| - 1]);
      var c := chains[|chains| - 1];
      if Configured(env, c.rpcUrlEnvVar) && c.hexChainId !in k then k + [c.hexChainId] else k
  }

  /** The hex ids of the rows whose RPC variable is set. */
  function ConfiguredHexIds(env: map<string, string>, chains: seq<Blockchain>): set<string> {
    set c | c in chains && Configured(env, c.rpcUrlEnvVar) :: c.hexChainId
  }

  /** The key order lists the map's keys, each once. */
  predicate Consistent(providers: map<string, Provider>, keys: seq<string>) {
    (forall k :: k in keys ==> k in providers)
    && (forall k :: k in providers ==> k in keys)
    && (forall i, j :: 0 <= i < j < |keys| ==> keys[i] != keys[j])
  }

  /** Registration keeps the key order consistent with the map. */
  lemma {:induction false} RegistrationConsistent(p0: map<string, Provider>, k0: seq<string>,
                                                  env: map<string, string>, chains: seq<Blockchain>)
    requires Consistent(p0, k0)
    ensures Consistent(ProvidersAfter(p0, env, chains), KeysAfter(k0, env, chains))
  {
    if chains != [] {
      var init := chains[..|chains| - 1];
      RegistrationConsistent(p0, k0, env, init);
      var k := KeysAfter(k0, env, init);
      var c := chains[|chains| - 1];
    }
  }

  /** With distinct hex ids, a provider is registered under exactly the hex id
      of every row whose RPC variable is set, built from that URL; a missing
      URL skips only its own row, and entries already present for other ids
      stay as they were. */
  lemma {:induction false} RegistrationExact(p0: map<string, Provider>, env: map<string, string>,
                                             chains: seq<Blockchain>)
    requires DistinctHexIds(chains)
    ensures forall k :: k in ProvidersAfter(p0, env, chains) <==> k in p0 || k in ConfiguredHexIds(env, chains)
    ensures forall c :: c in chains && Configured(env, c.rpcUrlEnvVar) ==>
              c.hexChainId in ProvidersAfter(p0, env, chains)
              && ProvidersAfter(p0, env, chains)[c.hexChainId] == Provider(env[c.rpcUrlEnvVar])
    ensures forall k :: k in p0 && k !in ConfiguredHexIds(env, chains) ==>
              ProvidersAfter(p0, env, chains)[k] == p0[k]
  {
    if chains != [] {
      var init := chains[..|chains| - 1];
      var last := chains[|chains| - 1];
      assert chains == init + [last];
      assert DistinctHexIds(init);
      RegistrationExact(p0, env, init);
      assert ConfiguredHexIds(env, chains) ==
             ConfiguredHexIds(env, init) + (if Configured(env, last.rpcUrlEnvVar) then {last.hexChainId} else {});
      forall c | c in chains && Configured(env, c.rpcUrlEnvVar)
        ensures c.hexChainId in ProvidersAfter(p0, env, chains)
        ensures ProvidersAfter(p0, env, chains)[c.hexChainId] == Provider(env[c.rpcUrlEnvVar])
      {
        if c != last {
          var i :| 0 <= i < |chains| && chains[i] == c;
          assert i < |chains| - 1;
          assert c in init;
          assert c.hexChainId != last.hexChainId;
        }
      }
    }
  }

  /** The loop of `onModuleInit` over the chain table, starting from the
      current map and key order. */
  method RegisterProviders(env: map<string, string>, p0: map<string, Provider>, k0: seq<string>)
    returns (providers: map<string, Provider>, keys: seq<string>)
    ensures providers == ProvidersAfter(p0, env, SupportedChains)
    ensures keys == KeysAfter(k0, env, SupportedChains)
  {
    providers, keys := p0, k0;
    for i := 0 to |SupportedChains|
      invariant providers == ProvidersAfter(p0, env, SupportedChains[..i])
      invariant keys == KeysAfter(k0, env, SupportedChains[..i])
    {
      var chain := SupportedChains[i];
      assert SupportedChains[..i + 1][..i] == SupportedChains[..i];
      if Configured(env, chain.rpcUrlEnvVar) {
        if chain.hexChainId !in keys {
          keys := keys + [chain.hexChainId];
        }
        providers := providers[chain.hexChainId := Provider(env[chain.rpcUrlEnvVar])];
      }
    }
    assert SupportedChains[..|SupportedChains|] == SupportedChains;
  }

  /** Starting empty, the registry holds exactly the configured chains, keyed
      by hex id and listed in table order. */
  lemma RegistryFromEmpty(env: map<string, string>)
    ensures forall k :: k in ProvidersAfter(map[], env, SupportedChains) <==> k in ConfiguredHexIds(env, SupportedChains)
    ensures forall c :: c in SupportedChains && Configured(env, c.rpcUrlEnvVar) ==>
              c.hexChainId in ProvidersAfter(map[], env, SupportedChains)
              && ProvidersAfter(map[], env, SupportedChains)[c.hexChainId] == Provider(env[c.rpcUrlEnvVar])
    ensures Consistent(ProvidersAfter(map[], env, SupportedChains), KeysAfter([], env, SupportedChains))
  {
    ChainKeysDistinct();
    RegistrationExact(map[], env, SupportedChains);
    RegistrationConsistent(map[], [], env, SupportedChains);
  }

  // ---------------------------------------------------------------------
  // The finality query

  /** `getBlock('finalized')`, falling back to `getBlock('latest')` only when
      the first call throws; a null block, from either call, is an error. */
  function FinalizedBlock(finalized: Call<Option<Block>>, latest: Call<Option<Block>>): (r: Call<Block>)
    ensures r.Returned? <==>
              (finalized.Returned? && finalized.value.Some?)
              || (finalized.Threw? && latest.Returned? && latest.value.Some?)
    ensures r.Returned? && finalized.Returned? ==> finalized.value == Some(r.value)
    ensures r.Returned? && finalized.Threw? ==> latest.value == Some(r.value)
  {
    var block := if finalized.Threw? then latest else finalized;
    match block
    case Threw => Threw
    case Returned(None) => Threw
    case Returned(Some(b)) => Returned(b)
  }

  /** A null `finalized` result is not retried against `latest`. */
  lemma NullFinalizedIsAnError(latest: Call<Option<Block>>)
    ensures FinalizedBlock(Returned(None), latest) == Threw
  {
  }

  /** `finalizedBlock.number >= blockNumber`, where a block number that is not
      a number (`None`) compares false. */
  function AtOrBelow(block: Block, blockNumber: Option<int>): (r: bool)
    ensures r <==> blockNumber.Some? && blockNumber.value <= block.number
  {
    match blockNumber
    case None => false
    case Some(n) => block.number >= n
  }

  // ---------------------------------------------------------------------
  // The service object

  class BlockchainService {
    var providers: map<string, Provider>
    /** Insertion order of `providers`, which is the order its keys are yielded in. */
    var keys: seq<string>
    var signer: Option<Signer>

    predicate Valid()
      reads this
    {
      Consistent(providers, keys)
    }

    constructor()
      ensures providers == map[] && keys == [] && signer == None
      ensures Valid()
    {
      providers, keys, signer := map[], [], None;
    }

    /** Start-up: refuse a missing or empty signing key before anything else,
        register what the table and environment allow, then build the wallet
        (`walletAccepted` is whether the wallet constructor accepts the key; if
        it does not, the call throws after the providers are in place). */
    method OnModuleInit(env: map<string, string>, walletAccepted: bool) returns (threw: bool)
      requires Valid()
      modifies this
      ensures Valid()
      ensures threw <==> !Configured(env, SignerKey) || !walletAccepted
      ensures !Configured(env, SignerKey) ==> providers == old(providers) && keys == old(keys) && signer == old(signer)
      ensures Configured(env, SignerKey) ==>
                providers == ProvidersAfter(old(providers), env, SupportedChains)
                && keys == KeysAfter(old(keys), env, SupportedChains)
      ensures signer == if Configured(env, SignerKey) && walletAccepted then Some(Signer(env[SignerKey])) else old(signer)
    {
      if !Configured(env, SignerKey) {
        return true;
      }
      RegistrationConsistent(providers, keys, env, SupportedChains);
      providers, keys := RegisterProviders(env, providers, keys);
      if !walletAccepted {
        return true;
      }
      signer := Some(Signer(env[SignerKey]));
      return false;
    }

    /** The provider registered under `chainId`; any other id throws. */
    function GetProvider(chainId: string): (r: Call<Provider>)
      reads this
      ensures r.Returned? <==> chainId in providers
      ensures r.Returned? ==> r.value == providers[chainId]
    {
      if chainId in providers then Returned(providers[chainId]) else Threw
    }

    function GetSigner(): Option<Signer>
      reads this
    {
      signer
    }

    /** The registered chain ids, in registration order. */
    function SupportedChainIds(): (ids: seq<string>)
      reads this
      requires Valid()
      ensures forall k :: k in ids <==> k in providers
      ensures forall i, j :: 0 <= i < j < |ids| ==> ids[i] != ids[j]
    {
      keys
    }

    /** `getFinalizedBlock(chainId)`: the provider lookup, then the fallback. */
    function GetFinalizedBlock(chainId: string, finalized: Call<Option<Block>>, latest: Call<Option<Block>>)
      : (r: Call<Block>)
      reads this
      ensures r.Returned? <==> chainId in providers && FinalizedBlock(finalized, latest).Returned?
      ensures r.Returned? ==> r == FinalizedBlock(finalized, latest)
    {
      if GetProvider(chainId).Threw? then Threw else FinalizedBlock(finalized, latest)
    }

    /** `isBlockFinalized(chainId, blockNumber)`: throws where the block query
        throws, and otherwise holds iff the block obtained is at or above
        `blockNumber`. */
    function IsBlockFinalized(chainId: string, blockNumber: Option<int>,
                              finalized: Call<Option<Block>>, latest: Call<Option<Block>>)
      : (r: Call<bool>)
      reads this
      ensures r.Returned? <==> GetFinalizedBlock(chainId, finalized, latest).Returned?
      ensures r.Returned? ==>
                (r.value <==> blockNumber.Some?
                              && blockNumber.value <= GetFinalizedBlock(chainId, finalized, latest).value.number)
    {
      match GetFinalizedBlock(chainId, finalized, latest)
      case Threw => Threw
      case Returned(b) => Returned(AtOrBelow(b, blockNumber))
    }
  }

  /** Initialising a fresh service with a usable key registers exactly the
      configured chains, and `getProvider` then succeeds for exactly their hex ids. */
  lemma InitThenLookup(env: map<string, string>, chainId: string)
    ensures var p := ProvidersAfter(map[], env, SupportedChains);
            (chainId in p <==> exists c :: c in SupportedChains && Configured(env, c.rpcUrlEnvVar) && c.hexChainId == chainId)
  {
    RegistryFromEmpty(env);
  }
}
