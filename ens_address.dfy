/** src/lib/hooks/useZilliqaEnsAddress.ts: forward resolution, name to address,
    by one `addr(namehash(name))` read on the network's L2 resolver. Read errors
    are rethrown, so a failure stays distinguishable from "no address". */
module EnsAddress {
  import opened Js
  import opened Chains
  import opened Resolver
  import Constants

  /** The all-zero address: the resolver's answer for a name with no address set. */
  const ZERO_ADDRESS: Address := "0x0000000000000000000000000000000000000000"

  /** The query's `enabled` flag: a name, a chain id, and a name that is not only
      white space. */
  function Enabled(name: Option<string>, chainId: Option<int>): (r: bool)
    ensures r <==> TruthyString(name) && TruthyNumber(chainId) && !AllWhiteSpace(name.value)
  {
    TruthyString(name) && TruthyNumber(chainId)
    && (TrimEmptyIffAllWhiteSpace(name.value); Trim(name.value) != "")
  }

  /** The query's `queryKey`: the name exactly as given, untrimmed. */
  function QueryKeyOf(name: Option<string>, chainId: Option<int>): (key: QueryKey)
  {
    QueryKey("ziladdress", name, chainId)
  }

  /** The guards `queryFn` passes before it reads the contract: a name, a chain id,
      a supported chain, and a resolver address for it in `table`. */
  predicate ReadsContract(table: map<int, Address>, name: Option<string>, chainId: Option<int>) {
    TruthyString(name) && TruthyNumber(chainId) && ChainFor(chainId.value).Some?
    && TruthyString(Get(table, chainId.value))
  }

  /** The one read `queryFn` makes once past its guards. */
  function AddrCall(o: Oracles, table: map<int, Address>, name: Option<string>, chainId: Option<int>): ContractCall
    requires ReadsContract(table, name, chainId)
  {
    ContractCall(ChainFor(chainId.value).value, table[chainId.value], Addr(o.namehash(name.value)))
  }

  /** The query's `queryFn`, with the resolver table `CONTRACTS.L2_RESOLVER_ADDR`
      passed in as `table`. Missing input, an unsupported chain and a missing
      resolver give `null` without a read; otherwise exactly one `addr` read of the
      untrimmed name's namehash, whose non-empty answer (even the zero address) is
      the result, whose empty answer is `null`, and whose error is rethrown. */
  function QueryFn(o: Oracles, table: map<int, Address>, name: Option<string>, chainId: Option<int>): (run: QueryRun<Address>)
    ensures !ReadsContract(table, name, chainId) ==> run == QueryRun(NotFound, [])
    ensures ReadsContract(table, name, chainId) ==> run.calls == [AddrCall(o, table, name, chainId)]
    ensures run.result.Failed? <==> run.calls != [] && o.readContract(run.calls[0]).Err?
    ensures run.result.Failed? ==> run.result.reason == o.readContract(run.calls[0]).reason
    ensures run.result.Found? <==>
              run.calls != [] && o.readContract(run.calls[0]).Ok? && o.readContract(run.calls[0]).value != ""
    ensures run.result.Found? ==> run.result.value == o.readContract(run.calls[0]).value
  {
    if !TruthyString(name) || !TruthyNumber(chainId) then
      QueryRun(NotFound, [])
    else
      match ChainFor(chainId.value)
      case None => QueryRun(NotFound, [])
      case Some(chain) =>
        var contractAddress := Get(table, chainId.value);
        if !TruthyString(contractAddress) then
          QueryRun(NotFound, [])
        else
          var call := ContractCall(chain, contractAddress.value, Addr(o.namehash(name.value)));
          match o.readContract(call)
          case Err(error) => QueryRun(Failed(error), [call])
          case Ok(address) => QueryRun(if address != "" then Found(address) else NotFound, [call])
  }

  /** What `useZilliqaEnsAddress` returns once its query has settled (or stayed
      disabled): `address` is `data ?? null`, `error` the rethrown read error. */
  datatype AddressView = AddressView(address: Option<Address>, error: Option<string>, key: QueryKey, calls: seq<ContractCall>)

  /** `useZilliqaEnsAddress({ name, chainId })` against the configured resolvers. */
  function UseZilliqaEnsAddress(o: Oracles, name: Option<string>, chainId: Option<int>): (view: AddressView)
    ensures view.key == QueryKeyOf(name, chainId)
    ensures !Enabled(name, chainId) ==> view.address.None? && view.error.None? && view.calls == []
    ensures Enabled(name, chainId) ==> view.calls == QueryFn(o, Constants.L2_RESOLVER_ADDR, name, chainId).calls
    ensures view.address.Some? ==> view.error.None? && view.address.value != ""
    ensures view.address.Some? <==> view.calls != [] && o.readContract(view.calls[0]).Ok? && o.readContract(view.calls[0]).value != ""
    ensures view.address.Some? ==> view.address.value == o.readContract(view.calls[0]).value
    ensures view.error.Some? <==> view.calls != [] && o.readContract(view.calls[0]).Err?
    ensures view.error.Some? ==> view.error.value == o.readContract(view.calls[0]).reason
  {
    var key := QueryKeyOf(name, chainId);
    if !Enabled(name, chainId) then
      AddressView(None, None, key, [])
    else
      var run := QueryFn(o, Constants.L2_RESOLVER_ADDR, name, chainId);
      match run.result
      case Found(address) => AddressView(Some(address), None, key, run.calls)
      case NotFound => AddressView(None, None, key, run.calls)
      case Failed(error) => AddressView(None, Some(error), key, run.calls)
  }

  /** A name made only of white space never reaches the contract. */
  lemma {:induction false} BlankNameNeverRead(o: Oracles, name: string, chainId: Option<int>)
    requires AllWhiteSpace(name)
    ensures UseZilliqaEnsAddress(o, Some(name), chainId).calls == []
  {
  }

  /** The `enabled` flag is what keeps a blank name away from the contract:
      `queryFn` alone would hash and look up " ". */
  lemma QueryFnAloneReadsBlankName(o: Oracles)
    ensures QueryFn(o, Constants.L2_RESOLVER_ADDR, Some(" "), Some(ZILLIQA_ID)).calls
            == [ContractCall(Zilliqa, Constants.L2_RESOLVER_ADDR[ZILLIQA_ID], Addr(o.namehash(" ")))]
  {
  }

  /** There is no zero-address check: a resolver answering the zero address for a
      name with no address set gives that address as the result. */
  lemma ZeroAddressIsFound(o: Oracles, name: string, chainId: int)
    requires ReadsContract(Constants.L2_RESOLVER_ADDR, Some(name), Some(chainId)) && !AllWhiteSpace(name)
    requires o.readContract(AddrCall(o, Constants.L2_RESOLVER_ADDR, Some(name), Some(chainId))) == Ok(ZERO_ADDRESS)
    ensures UseZilliqaEnsAddress(o, Some(name), Some(chainId)).address == Some(ZERO_ADDRESS)
  {
    Constants.ResolverTable(chainId);
  }
}
