/** src/config/constants.ts: the L2 resolver contract of each supported network,
    and whether the build runs in development mode. */
module Constants {
  import opened Js
  import opened Chains

  /** `CONTRACTS.L2_RESOLVER_ADDR`: chain id to resolver contract address. */
  const L2_RESOLVER_ADDR: map<int, string> := map[
    ZILLIQA_ID := "0x5c0c7BFd25efCAE366fE62219fD5558305Ffc46F",
    ZILLIQA_TESTNET_ID := "0x579C72c5377a5a4A8Ce6d43A1701F389c8FDFC8e"
  ]

  /** `isDevelopment`, with `process.env.NODE_ENV` passed in (`None` when unset). */
  function IsDevelopment(nodeEnv: Option<string>): (r: bool)
    ensures r <==> nodeEnv == Some("development")
  {
    nodeEnv.Some? && nodeEnv.value == "development"
  }

  /** The table has an entry for the two Zilliqa networks and for nothing else;
      each entry is a non-empty address, and the two addresses differ. */
  lemma ResolverTable(chainId: int)
    ensures TruthyString(Get(L2_RESOLVER_ADDR, chainId)) <==> chainId == ZILLIQA_ID || chainId == ZILLIQA_TESTNET_ID
    ensures Get(L2_RESOLVER_ADDR, chainId).None? <==> chainId != ZILLIQA_ID && chainId != ZILLIQA_TESTNET_ID
    ensures L2_RESOLVER_ADDR.Keys == {ZILLIQA_ID, ZILLIQA_TESTNET_ID}
    ensures L2_RESOLVER_ADDR[ZILLIQA_ID] != L2_RESOLVER_ADDR[ZILLIQA_TESTNET_ID]
  {
  }
}
