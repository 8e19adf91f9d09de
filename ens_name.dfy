/** src/lib/hooks/useZilliqaEnsName.ts: reverse resolution, address to name, by one
    `name(reverseNode)` read on the network's L2 resolver. Read errors are caught
    and become `null`; the reverse node is computed before the `try`, so an error
    there is not caught. */
module EnsName {
  import opened Js
  import opened Chains
  import opened Resolver
  import Constants

  /** The query's `enabled` flag: an address, a chain id, and `isAddress(address)`. */
  function Enabled(o: Oracles, address: Option<Address>, chainId: Option<int>): (r: bool)
    ensures r ==> TruthyString(address) && TruthyNumber(chainId)
    ensures TruthyString(address) && TruthyNumber(chainId) ==> (r <==> o.isAddress(address.value))
  {
    TruthyString(address) && TruthyNumber(chainId) && o.isAddress(address.value)
  }

  /** The query's `queryKey`: the address as given, not case-normalised. */
  function QueryKeyOf(address: Option<Address>, chainId: Option<int>): (key: QueryKey)
  {
    QueryKey("zilname", address, chainId)
  }

  /** The guards `queryFn` passes before computing the reverse node. */
  predicate PastChainCheck(address: Option<Address>, chainId: Option<int>) {
    TruthyString(address) && TruthyNumber(chainId) && ChainFor(chainId.value).Some?
  }

  /** The reverse node `convertReverseNodeToBytes(address, chainId)` gives. */
  function ReverseNode(o: Oracles, address: Option<Address>, chainId: Option<int>): Outcome<Hex>
    requires PastChainCheck(address, chainId)
  {
    o.convertReverseNodeToBytes(address.value, chainId.value)
  }

  /** The guards `queryFn` passes before it reads the contract. */
  predicate ReadsContract(o: Oracles, table: map<int, Address>, address: Option<Address>, chainId: Option<int>) {
    PastChainCheck(address, chainId) && ReverseNode(o, address, chainId).Ok?
    && TruthyString(Get(table, chainId.value))
  }

  /** The one read `queryFn` makes once past its guards. */
  function NameCall(o: Oracles, table: map<int, Address>, address: Option<Address>, chainId: Option<int>): ContractCall
    requires ReadsContract(o, table, address, chainId)
  {
    ContractCall(ChainFor(chainId.value).value, table[chainId.value], Name(ReverseNode(o, address, chainId).value))
  }

  /** The query's `queryFn`, with `CONTRACTS.L2_RESOLVER_ADDR` passed in as `table`.
      Missing input and an unsupported chain give `null` without a read; an error
      from the reverse-node helper is thrown; a missing resolver gives `null`
      without a read; otherwise exactly one `name` read of the reverse node, whose
      non-empty answer is the result and whose empty answer or error is `null`. */
  function QueryFn(o: Oracles, table: map<int, Address>, address: Option<Address>, chainId: Option<int>): (run: QueryRun<string>)
    ensures !PastChainCheck(address, chainId) ==> run == QueryRun(NotFound, [])
    ensures ReadsContract(o, table, address, chainId) ==> run.calls == [NameCall(o, table, address, chainId)]
    ensures !ReadsContract(o, table, address, chainId) ==> run.calls == []
    ensures run.result.Failed? <==> PastChainCheck(address, chainId) && ReverseNode(o, address, chainId).Err?
    ensures run.result.Failed? ==> run.result.reason == ReverseNode(o, address, chainId).reason
    ensures run.result.Found? <==>
              run.calls != [] && o.readContract(run.calls[0]).Ok? && o.readContract(run.calls[0]).value != ""
    ensures run.result.Found? ==> run.result.value == o.readContract(run.calls[0]).value
  {
    if !TruthyString(address) || !TruthyNumber(chainId) then
      QueryRun(NotFound, [])
    else
      match ChainFor(chainId.value)
      case None => QueryRun(NotFound, [])
      case Some(chain) =>
        match o.convertReverseNodeToBytes(address.value, chainId.value)
        case Err(error) => QueryRun(Failed(error), [])
        case Ok(addressReverseNode) =>
          var contractAddress := Get(table, chainId.value);
          if !TruthyString(contractAddress) then
            QueryRun(NotFound, [])
          else
            var call := ContractCall(chain, contractAddress.value, Name(addressReverseNode));
            match o.readContract(call)
            case Err(_) => QueryRun(NotFound, [call])
            case Ok(zilname) => QueryRun(if zilname != "" then Found(zilname) else NotFound, [call])
  }

  /** What `useZilliqaEnsName` returns once its query has settled (or stayed
      disabled): `name` is `data ?? null`; the hook exposes no error. */
  datatype NameView = NameView(name: Option<string>, key: QueryKey, calls: seq<ContractCall>)

  /** `useZilliqaEnsName({ address, chainId })` against the configured resolvers. */
  function UseZilliqaEnsName(o: Oracles, address: Option<Address>, chainId: Option<int>): (view: NameView)
    ensures view.key == QueryKeyOf(address, chainId)
    ensures !Enabled(o, address, chainId) ==> view.name.None? && view.calls == []
    ensures Enabled(o, address, chainId) ==> view.calls == QueryFn(o, Constants.L2_RESOLVER_ADDR, address, chainId).calls
    ensures view.name.Some? <==> view.calls != [] && o.readContract(view.calls[0]).Ok? && o.readContract(view.calls[0]).value != ""
    ensures view.name.Some? ==> view.name.value == o.readContract(view.calls[0]).value
  {
    var key := QueryKeyOf(address, chainId);
    if !Enabled(o, address, chainId) then
      NameView(None, key, [])
    else
      var run := QueryFn(o, Constants.L2_RESOLVER_ADDR, address, chainId);
      match run.result
      case Found(zilname) => NameView(Some(zilname), key, run.calls)
      case NotFound => NameView(None, key, run.calls)
      case Failed(_) => NameView(None, key, run.calls)
  }

  /** A failed read and an empty reverse record settle the query the same way: the
      two cannot be told apart from its result. */
  lemma {:induction false} ReadErrorLooksLikeNoRecord(o1: Oracles, o2: Oracles, table: map<int, Address>, address: Address, chainId: int, reason: string)
    requires o1.convertReverseNodeToBytes == o2.convertReverseNodeToBytes
    requires ReadsContract(o1, table, Some(address), Some(chainId))
    requires o1.readContract(NameCall(o1, table, Some(address), Some(chainId))) == Err(reason)
    requires o2.readContract(NameCall(o2, table, Some(address), Some(chainId))) == Ok("")
    ensures QueryFn(o1, table, Some(address), Some(chainId)) == QueryFn(o2, table, Some(address), Some(chainId))
  {
    assert ReadsContract(o2, table, Some(address), Some(chainId));
    assert NameCall(o1, table, Some(address), Some(chainId)) == NameCall(o2, table, Some(address), Some(chainId));
  }

  /** The reverse node is computed before the resolver lookup and outside the
      `try`: its error escapes even for a network with no resolver. */
  lemma ReverseNodeErrorEscapes(o: Oracles, address: Address, chainId: int, reason: string)
    requires address != "" && (chainId == ZILLIQA_ID || chainId == ZILLIQA_TESTNET_ID)
    requires o.convertReverseNodeToBytes(address, chainId) == Err(reason)
    ensures QueryFn(o, map[], Some(address), Some(chainId)).result == Failed(reason)
  {
  }

  /** The cache key keeps the address's letter case: an address with an upper-case
      letter (a checksummed address) and its lower-cased form get two cache entries. */
  lemma KeyIsCaseSensitive(address: Address, chainId: Option<int>, i: nat)
    requires i < |address| && 'A' <= address[i] <= 'Z'
    ensures QueryKeyOf(Some(address), chainId) != QueryKeyOf(Some(ToLower(address)), chainId)
  {
    assert ToLower(address)[i] != address[i];
  }
}
