/** The table of supported chains and the index of it by hexadecimal id. */
module Chains {

  datatype Blockchain = Blockchain(name: string, chainId: nat, hexChainId: string, rpcUrlEnvVar: string)

  const EthereumSepolia := Blockchain("Ethereum Sepolia", 11155111, "0xaa36a7", "ETHEREUM_SEPOLIA_RPC_URL")
  const PolygonAmoy := Blockchain("Polygon Amoy", 80002, "0x13882", "POLYGON_AMOY_RPC_URL")
  const BscTestnet := Blockchain("BSC Testnet", 97, "0x61", "BSC_TESTNET_RPC_URL")

  /** `Object.values(SUPPORTED_CHAINS)`, in declaration order. */
  const SupportedChains: seq<Blockchain> := [EthereumSepolia, PolygonAmoy, BscTestnet]

  // ---------------------------------------------------------------------
  // Lower-case hexadecimal

  predicate IsLowerHex(c: char) {
    ('0' <= c <= '9') || ('a' <= c <= 'f')
  }

  function LowerHexDigit(d: nat): (c: char)
    requires d < 16
    ensures IsLowerHex(c) && LowerHexValue(c) == d
  {
    if d < 10 then ('0' as int + d) as char else ('a' as int + d - 10) as char
  }

  function LowerHexValue(c: char): (d: nat)
    requires IsLowerHex(c)
    ensures d < 16
  {
    if c <= '9' then c as int - '0' as int else c as int - 'a' as int + 10
  }

  predicate AllLowerHex(s: string) {
    forall i :: 0 <= i < |s| ==> IsLowerHex(s[i])
  }

  /** `n.toString(16)`: lower-case digits, most significant first, no leading zero. */
  function HexText(n: nat): (s: string)
    ensures 1 <= |s| && AllLowerHex(s)
    ensures |s| > 1 ==> s[0] != '0'
  {
    if n < 16 then [LowerHexDigit(n)] else HexText(n / 16) + [LowerHexDigit(n % 16)]
  }

  function HexValue(s: string): nat
    requires AllLowerHex(s)
  {
    if s == [] then 0 else HexValue(s[..|s| - 1]) * 16 + LowerHexValue(s[|s| - 1])
  }

  /** The hexadecimal text denotes the number it was written from. */
  lemma {:induction false} HexTextValue(n: nat)
    ensures HexValue(HexText(n)) == n
  {
    if n >= 16 {
      var s := HexText(n);
      assert s[..|s| - 1] == HexText(n / 16);
      HexTextValue(n / 16);
    }
  }

  /** The `0x`-prefixed hexadecimal id of a numeric chain id. */
  function HexChainId(chainId: nat): string {
    "0x" + HexText(chainId)
  }

  /** One digit more: `n` written in hexadecimal is `q` written, then the digit `d`. */
  lemma HexTextDigit(n: nat, q: nat, d: nat)
    requires n == q * 16 + d && d < 16 && 0 < q
    ensures HexText(n) == HexText(q) + [LowerHexDigit(d)]
  {
    assert n / 16 == q && n % 16 == d;
  }

  lemma SepoliaHex()
    ensures HexText(11155111) == "aa36a7"
  {
    assert HexText(10) == "a";
    HexTextDigit(170, 10, 10);
    assert HexText(170) == "aa";
    HexTextDigit(2723, 170, 3);
    assert HexText(2723) == "aa3";
    HexTextDigit(43574, 2723, 6);
    assert HexText(43574) == "aa36";
    HexTextDigit(697194, 43574, 10);
    assert HexText(697194) == "aa36a";
    HexTextDigit(11155111, 697194, 7);
  }

  lemma AmoyHex()
    ensures HexText(80002) == "13882"
  {
    assert HexText(1) == "1";
    HexTextDigit(19, 1, 3);
    assert HexText(19) == "13";
    HexTextDigit(312, 19, 8);
    assert HexText(312) == "138";
    HexTextDigit(5000, 312, 8);
    assert HexText(5000) == "1388";
    HexTextDigit(80002, 5000, 2);
  }

  lemma BscHex()
    ensures HexText(97) == "61"
  {
    assert HexText(6) == "6";
    HexTextDigit(97, 6, 1);
  }

  /** Every table row's `hexChainId` is the hexadecimal of its `chainId`. */
  lemma HexIdsEncodeChainIds()
    ensures forall c :: c in SupportedChains ==> c.hexChainId == HexChainId(c.chainId)
  {
    SepoliaHex();
    HexIdOf(EthereumSepolia, "aa36a7");
    AmoyHex();
    HexIdOf(PolygonAmoy, "13882");
    BscHex();
    HexIdOf(BscTestnet, "61");
  }

  lemma HexIdOf(c: Blockchain, digits: string)
    requires HexText(c.chainId) == digits && c.hexChainId == "0x" + digits
    ensures c.hexChainId == HexChainId(c.chainId)
  {
  }

  /** Hex ids, numeric ids and RPC variable names are each pairwise distinct. */
  lemma ChainKeysDistinct()
    ensures |SupportedChains| == 3
    ensures forall i, j :: 0 <= i < j < |SupportedChains| ==>
              SupportedChains[i].hexChainId != SupportedChains[j].hexChainId
              && SupportedChains[i].rpcUrlEnvVar != SupportedChains[j].rpcUrlEnvVar
              && SupportedChains[i].chainId != SupportedChains[j].chainId
  {
  }

  // ---------------------------------------------------------------------
  // CHAIN_ID_TO_NETWORK

  /** The `reduce` that stores each chain under its hex id, later rows
      overwriting earlier ones under the same key. */
  function IndexByHex(chains: seq<Blockchain>): map<string, Blockchain> {
    if chains == [] then map[]
    else IndexByHex(chains[..|chains| - 1])[chains[|chains| - 1].hexChainId := chains[|chains| - 1]]
  }

  predicate DistinctHexIds(chains: seq<Blockchain>) {
    forall i, j :: 0 <= i < j < |chains| ==> chains[i].hexChainId != chains[j].hexChainId
  }

  /** With distinct hex ids the fold overwrites nothing: its keys are exactly
      the hex ids and each maps to its own row. */
  lemma {:induction false} IndexByHexExact(chains: seq<Blockchain>)
    requires DistinctHexIds(chains)
    ensures IndexByHex(chains).Keys == set c | c in chains :: c.hexChainId
    ensures forall c :: c in chains ==> IndexByHex(chains)[c.hexChainId] == c
  {
    if chains != [] {
      var init := chains[..|chains| - 1];
      var last := chains[|chains| - 1];
      assert DistinctHexIds(init);
      IndexByHexExact(init);
      assert chains == init + [last];
      forall c | c in chains ensures IndexByHex(chains)[c.hexChainId] == c {
        if c != last {
          var i :| 0 <= i < |chains| && chains[i] == c;
          assert i < |chains| - 1;
          assert c in init;
        }
      }
    }
  }

  const ChainIdToNetwork: map<string, Blockchain> := IndexByHex(SupportedChains)

  lemma ChainIdToNetworkExact()
    ensures ChainIdToNetwork.Keys == {"0xaa36a7", "0x13882", "0x61"}
    ensures forall c :: c in SupportedChains ==> ChainIdToNetwork[c.hexChainId] == c
  {
    IndexByHexExact(SupportedChains);
    assert (set c | c in SupportedChains :: c.hexChainId) == {"0xaa36a7", "0x13882", "0x61"};
  }
}
