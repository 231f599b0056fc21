/** The older copy of the blockchain service: the same registry and lookup,
    without the finality query. It shares the registration loop and its
    specification with `Registry`. */
module LegacyRegistry {
  import opened Wrappers
  import opened Chains
  import opened Registry

  class BlockchainService {
    var providers: map<string, Provider>
    var keys: seq<string>
    var signer: Option<Signer>

    predicate Valid()
      reads this
    {
      Consistent(providers, keys)
    }

    constructor()
      ensures providers == map[] && keys == [] && signer == None
      ensures Valid()
    {
      providers, keys, signer := map[], [], None;
    }

    /** Start-up: a missing or empty signing key throws before any provider
        is registered; a chain without an RPC URL is skipped. */
    method OnModuleInit(env: map<string, string>, walletAccepted: bool) returns (threw: bool)
      requires Valid()
      modifies this
      ensures Valid()
      ensures threw <==> !Configured(env, SignerKey) || !walletAccepted
      ensures !Configured(env, SignerKey) ==> providers == old(providers) && keys == old(keys) && signer == old(signer)
      ensures Configured(env, SignerKey) ==>
                providers == ProvidersAfter(old(providers), env, SupportedChains)
                && keys == KeysAfter(old(keys), env, SupportedChains)
      ensures signer == if Configured(env, SignerKey) && walletAccepted then Some(Signer(env[SignerKey])) else old(signer)
    {
      if !Configured(env, SignerKey) {
        return true;
      }
      RegistrationConsistent(providers, keys, env, SupportedChains);
      providers, keys := RegisterProviders(env, providers, keys);
      if !walletAccepted {
        return true;
      }
      signer := Some(Signer(env[SignerKey]));
      return false;
    }

    /** The registered provider, or a throw for an unknown id. */
    function GetProvider(chainId: string): (r: Call<Provider>)
      reads this
      ensures r.Returned? <==> chainId in providers
      ensures r.Returned? ==> r.value == providers[chainId]
    {
      if chainId in providers then Returned(providers[chainId]) else Threw
    }

    /** The registry's keys, each once. */
    function SupportedChainIds(): (ids: seq<string>)
      reads this
      requires Valid()
      ensures forall k :: k in ids <==> k in providers
      ensures forall i, j :: 0 <= i < j < |ids| ==> ids[i] != ids[j]
    {
      keys
    }
  }
}
