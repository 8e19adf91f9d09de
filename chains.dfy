/** The two Zilliqa networks the resolver knows, as configured in
    src/config/chains.ts, and Ethereum mainnet's id as used by the coin-type rule. */
module Chains {

  /** The part of a chain definition the resolver consults: its id, its display
      name and its default RPC endpoint. */
  datatype Chain = Chain(id: int, name: string, rpcUrl: string)

  const ZILLIQA_ID: int := 32769
  const ZILLIQA_TESTNET_ID: int := 33101

  /** Ethereum mainnet's chain id. */
  const ETHEREUM_MAINNET_ID: int := 1

  const Zilliqa: Chain := Chain(ZILLIQA_ID, "Zilliqa", "https://api.zilliqa.com/")
  const ZilliqaTestnet: Chain := Chain(ZILLIQA_TESTNET_ID, "Zilliqa Testnet", "https://api.testnet.zilliqa.com/")
}
