/** The environment schema the API and sender processes validate at start-up (the watcher process validates none). */
module Config {
  import opened Wrappers
  import Decimal
  import Chains

  const ChainConfirmationsKey := "CHAIN_CONFIRMATIONS"
  const DefaultChainConfirmations := 3

  /** Connection targets and key material. */
  const InfrastructureKeys: seq<string> := ["DATABASE_URL", "REDIS_URL", "KAFKA_BROKERS", "SIGNER_PRIVATE_KEY"]

  /** One RPC endpoint variable per chain. */
  const RpcUrlKeys: seq<string> := ["ETHEREUM_SEPOLIA_RPC_URL", "POLYGON_AMOY_RPC_URL", "BSC_TESTNET_RPC_URL"]

  /** Keys that must be present as (non-empty) strings. */
  const RequiredStringKeys: seq<string> := InfrastructureKeys + RpcUrlKeys

  const MaxSafeInteger := 9007199254740991

  /** A value accepted where the schema asks for a string: an empty string is refused. */
  predicate StringOk(env: map<string, string>, key: string) {
    key in env && env[key] != ""
  }

  /** The integer an environment string converts to where the schema asks for a number. */
  function NumberValue(text: string): (r: Option<int>)
    ensures r.Some? ==> -MaxSafeInteger <= r.value <= MaxSafeInteger
    ensures r.Some? ==> text != []
  {
    if text == [] then None
    else
      match Decimal.NumberOf(text)
      case None => None
      case Some(n) => if -MaxSafeInteger <= n <= MaxSafeInteger then Some(n) else None
  }

  /** The validated configuration: the environment with CHAIN_CONFIRMATIONS as a number. */
  datatype ValidConfig = ValidConfig(env: map<string, string>, chainConfirmations: int)

  /** The failing required keys of `keys`, in order. */
  function MissingKeys(env: map<string, string>, keys: seq<string>): (r: seq<string>)
    ensures forall k :: k in r <==> k in keys && !StringOk(env, k)
  {
    if keys == [] then []
    else (if StringOk(env, keys[0]) then [] else [keys[0]]) + MissingKeys(env, keys[1..])
  }

  /** Validation collects every failing key (the schema does not stop at the
      first); unknown keys are allowed. */
  function Validate(env: map<string, string>): (r: Result<ValidConfig, seq<string>>)
    ensures r.Ok? <==>
              (forall k :: k in RequiredStringKeys ==> StringOk(env, k))
              && (ChainConfirmationsKey in env ==> NumberValue(env[ChainConfirmationsKey]).Some?)
    ensures r.Ok? ==> r.value.env == env
    ensures r.Ok? && ChainConfirmationsKey !in env ==> r.value.chainConfirmations == DefaultChainConfirmations
    ensures r.Ok? && ChainConfirmationsKey in env ==>
              Some(r.value.chainConfirmations) == NumberValue(env[ChainConfirmationsKey])
    ensures r.Err? ==> forall k :: k in r.error ==>
              (k in RequiredStringKeys && !StringOk(env, k))
              || (k == ChainConfirmationsKey && k in env && NumberValue(env[k]).None?)
    ensures r.Err? ==> (forall k :: k in RequiredStringKeys && !StringOk(env, k) ==> k in r.error)
                       && (ChainConfirmationsKey in env && NumberValue(env[ChainConfirmationsKey]).None? ==>
                             ChainConfirmationsKey in r.error)
  {
    var missing := MissingKeys(env, RequiredStringKeys);
    var confirmations :=
      if ChainConfirmationsKey !in env then Some(DefaultChainConfirmations)
      else NumberValue(env[ChainConfirmationsKey]);
    var errors := missing + (if confirmations.None? then [ChainConfirmationsKey] else []);
    assert missing != [] ==> missing[0] in missing;
    if errors == [] then Ok(ValidConfig(env, confirmations.value)) else Err(errors)
  }

  /** The RPC variables the schema requires are exactly the table's
      `rpcUrlEnvVar`s, in table order. */
  lemma RpcKeysMatchChainTable()
    ensures |RpcUrlKeys| == |Chains.SupportedChains|
    ensures forall i :: 0 <= i < |RpcUrlKeys| ==> RpcUrlKeys[i] == Chains.SupportedChains[i].rpcUrlEnvVar
    ensures forall c :: c in Chains.SupportedChains ==> c.rpcUrlEnvVar in RequiredStringKeys
  {
  }
}
