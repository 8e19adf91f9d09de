/** What the three resolution hooks share: the resolver contract's read-only
    surface, the library helpers they call (kept uninterpreted, passed in as
    functions), the shape of a query's outcome, and the chain selection that
    opens each `queryFn`. */
module Resolver {
  import opened Js
  import opened Chains
  import ZilnameChain

  /** A `0x`-prefixed hexadecimal address, as viem passes it around. */
  type Address = string

  /** A `0x`-prefixed 32-byte hex string: a namehash or a reverse node. */
  type Hex = string

  /** The resolver functions the hooks read: `addr(node)`, `name(node)` and
      `text(node, key)`. */
  datatype ResolverCall = Addr(node: Hex) | Name(node: Hex) | Text(node: Hex, key: string)

  /** One `client.readContract` call: the client's chain, the contract address and
      the function with its arguments. */
  datatype ContractCall = ContractCall(chain: Chain, contract: Address, call: ResolverCall)

  /** What a helper or a contract read does: return a value or throw. */
  datatype Outcome<+T> = Ok(value: T) | Err(reason: string)

  /** The helpers the hooks call and whose code is not part of this model:
      `namehash` (viem/ens), `convertReverseNodeToBytes`, `isAddress` (viem),
      `IsValidIpfsUrl` and `getIpfsGatewayUrl`, and `readContract` (the network). */
  datatype Oracles = Oracles(
    namehash: string -> Hex,
    convertReverseNodeToBytes: (Address, int) -> Outcome<Hex>,
    isAddress: string -> bool,
    isValidIpfsUrl: string -> bool,
    getIpfsGatewayUrl: string -> Option<string>,
    readContract: ContractCall -> Outcome<string>
  )

  /** How a `queryFn` settles: with a value, with `null`, or by throwing. */
  datatype Resolution<+T> = Found(value: T) | NotFound | Failed(reason: string)

  /** A `queryFn` run: how it settled and the contract reads it made, in order. */
  datatype QueryRun<+T> = QueryRun(result: Resolution<T>, calls: seq<ContractCall>)

  /** A React Query `queryKey`: `[kind, input, chainId]`. */
  datatype QueryKey = QueryKey(kind: string, input: Option<string>, chainId: Option<int>)

  /** The nested ternary each `queryFn` opens with: zilliqa for its id, the testnet
      for its id, `null` otherwise. It selects exactly the supported ids, and the
      same chain `getZilnamePublicClient` would. */
  function ChainFor(chainId: int): (chain: Option<Chain>)
    ensures chain.Some? <==> ZilnameChain.IsZilnameSupportedChain(chainId)
    ensures chain.Some? ==> chain.value.id == chainId
    ensures chain.Some? ==> chain.value == ZilnameChain.GetZilnamePublicClient(chainId).chain
  {
    if chainId == Zilliqa.id then Some(Zilliqa)
    else if chainId == ZilliqaTestnet.id then Some(ZilliqaTestnet)
    else None
  }
}
