/** src/lib/hooks/useZilnameChain.ts: which Zilliqa network a name lives on, which
    chain ids the naming service supports, the public client for a chain id, and
    the chain a page works against given a username and the connected wallet. */
module ZilnameChain {
  import opened Js
  import opened Chains
  import Constants

  /** `USERNAME_DOMAINS`: the name suffix of each network. */
  const USERNAME_DOMAINS: map<int, string> := map[ZILLIQA_TESTNET_ID := "test.zil", ZILLIQA_ID := "zil"]

  /** `supportedChainIds`. */
  const SUPPORTED_CHAIN_IDS: seq<int> := [ZILLIQA_ID, ZILLIQA_TESTNET_ID]

  /** `getChainForZilname`: a name ending in ".test.zil" is a testnet name; every
      other string, with or without a suffix, is taken to be a mainnet name. */
  function GetChainForZilname(username: string): (chain: Chain)
    ensures chain == ZilliqaTestnet <==> EndsWith(username, ".test.zil")
    ensures chain == Zilliqa <==> !EndsWith(username, ".test.zil")
  {
    if EndsWith(username, "." + USERNAME_DOMAINS[ZILLIQA_TESTNET_ID]) then ZilliqaTestnet else Zilliqa
  }

  /** The bare domain "test.zil" lacks the leading dot, so it maps to mainnet;
      "alice.test.zil" maps to the testnet and "alice.zil" to mainnet. */
  lemma GetChainForZilnameExamples()
    ensures GetChainForZilname("test.zil") == Zilliqa
    ensures GetChainForZilname("alice.test.zil") == ZilliqaTestnet
    ensures GetChainForZilname("alice.zil") == Zilliqa
  {
    assert "alice.test.zil"[5..] == ".test.zil";
  }

  /** `isZilnameSupportedChain`. */
  function IsZilnameSupportedChain(chainId: int): (r: bool)
    ensures r <==> chainId == ZILLIQA_ID || chainId == ZILLIQA_TESTNET_ID
  {
    chainId in SUPPORTED_CHAIN_IDS
  }

  /** What `createPublicClient` is given: a chain and the URL of its HTTP transport. */
  datatype PublicClient = PublicClient(chain: Chain, transport: string)

  /** `getZilnamePublicClient`: the testnet for the testnet id, mainnet for every
      other id, supported or not. The endpoint and the chain are picked by two
      separate tests in the source; they always agree. */
  function GetZilnamePublicClient(chainId: int): (client: PublicClient)
    ensures client.chain == ZilliqaTestnet <==> chainId == ZILLIQA_TESTNET_ID
    ensures client.chain == Zilliqa <==> chainId != ZILLIQA_TESTNET_ID
    ensures client.transport == client.chain.rpcUrl
    ensures IsZilnameSupportedChain(chainId) ==> client.chain.id == chainId
  {
    var rpcEndpoint := if chainId == ZILLIQA_TESTNET_ID then ZilliqaTestnet.rpcUrl else Zilliqa.rpcUrl;
    var chain := if chainId == ZILLIQA_TESTNET_ID then ZilliqaTestnet else Zilliqa;
    PublicClient(chain, rpcEndpoint)
  }

  /** What `useZilnameChain` returns. */
  datatype ZilnameChainView = ZilnameChainView(zilnameChain: Chain, zilnamePublicClient: PublicClient)

  /** The chain chosen by `useZilnameChain`'s memoised callback, from the username,
      the connected wallet's chain (`None` when not connected) and `isDevelopment`. */
  function ChooseZilnameChain(username: Option<string>, connectedChain: Option<Chain>, isDevelopment: bool): (chain: Chain)
    ensures IsZilnameSupportedChain(chain.id)
    ensures TruthyString(username) ==> chain == GetChainForZilname(username.value)
    ensures !TruthyString(username) && connectedChain.Some? && IsZilnameSupportedChain(connectedChain.value.id) ==>
              chain == connectedChain.value
    ensures !TruthyString(username) && (connectedChain.None? || !IsZilnameSupportedChain(connectedChain.value.id)) ==>
              chain == (if isDevelopment then ZilliqaTestnet else Zilliqa)
  {
    if TruthyString(username) then
      GetChainForZilname(username.value)
    else if connectedChain.Some? && connectedChain.value.id in SUPPORTED_CHAIN_IDS then
      connectedChain.value
    else if isDevelopment then
      ZilliqaTestnet
    else
      Zilliqa
  }

  /** `useZilnameChain(username)`, with `process.env.NODE_ENV` passed in: the chosen
      chain and a public client for it. The client is built from the configured
      chain with that id and its RPC URL, not from the connected wallet's chain
      object. */
  function UseZilnameChain(username: Option<string>, connectedChain: Option<Chain>, nodeEnv: Option<string>): (view: ZilnameChainView)
    ensures view.zilnameChain == ChooseZilnameChain(username, connectedChain, Constants.IsDevelopment(nodeEnv))
    ensures view.zilnamePublicClient.chain == (if view.zilnameChain.id == ZILLIQA_TESTNET_ID then ZilliqaTestnet else Zilliqa)
    ensures view.zilnamePublicClient.chain.id == view.zilnameChain.id
    ensures view.zilnamePublicClient.transport == view.zilnamePublicClient.chain.rpcUrl
  {
    var chain := ChooseZilnameChain(username, connectedChain, Constants.IsDevelopment(nodeEnv));
    ZilnameChainView(chain, GetZilnamePublicClient(chain.id))
  }

  /** With no username and no supported wallet chain, the page works against the
      testnet exactly when `NODE_ENV` is "development", and mainnet otherwise. */
  lemma DefaultChainFollowsNodeEnv(connectedChain: Option<Chain>, nodeEnv: Option<string>)
    requires connectedChain.None? || !IsZilnameSupportedChain(connectedChain.value.id)
    ensures UseZilnameChain(None, connectedChain, nodeEnv).zilnameChain == ZilliqaTestnet <==> nodeEnv == Some("development")
    ensures UseZilnameChain(None, connectedChain, nodeEnv).zilnameChain == Zilliqa <==> nodeEnv != Some("development")
  {
  }

  /** A username decides the network whatever wallet is connected and whatever the
      environment. */
  lemma UsernameTakesPrecedence(username: string, c1: Option<Chain>, c2: Option<Chain>, d1: bool, d2: bool)
    requires username != ""
    ensures ChooseZilnameChain(Some(username), c1, d1) == ChooseZilnameChain(Some(username), c2, d2)
  {
  }

  /** Without a username, an unsupported connected chain is ignored exactly as if no
      wallet were connected. */
  lemma UnsupportedConnectedChainIgnored(username: Option<string>, connected: Chain, isDevelopment: bool)
    requires !IsZilnameSupportedChain(connected.id)
    ensures ChooseZilnameChain(username, Some(connected), isDevelopment) == ChooseZilnameChain(username, None, isDevelopment)
  {
  }
}
