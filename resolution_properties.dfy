/** Properties that compare the three resolution queries of src/lib/hooks:
    they share their guards but part ways on errors. */
module ResolutionProperties {
  import opened Js
  import opened Resolver
  import ZilnameChain
  import EnsAddress
  import EnsName
  import EnsAvatar

  /** A chain id other than the two Zilliqa networks makes all three queries settle
      with `null` and no contract read, whatever the resolver table holds. */
  lemma UnsupportedChainNeverRead(o: Oracles, table: map<int, Address>, name: Option<string>, address: Option<Address>, chainId: int)
    requires !ZilnameChain.IsZilnameSupportedChain(chainId)
    ensures EnsAddress.QueryFn(o, table, name, Some(chainId)) == QueryRun(NotFound, [])
    ensures EnsName.QueryFn(o, table, address, Some(chainId)) == QueryRun(NotFound, [])
    ensures EnsAvatar.QueryFn(o, table, name, Some(chainId)) == QueryRun(NotFound, [])
  {
  }

  /** When every contract read fails, forward resolution reports the failure while
      reverse and avatar resolution report no record. */
  lemma ReadFailureHandling(o: Oracles, table: map<int, Address>, name: string, address: Address, chainId: int)
    requires forall c :: o.readContract(c).Err?
    requires EnsAddress.ReadsContract(table, Some(name), Some(chainId))
    requires EnsName.ReadsContract(o, table, Some(address), Some(chainId))
    ensures EnsAddress.QueryFn(o, table, Some(name), Some(chainId)).result.Failed?
    ensures EnsName.QueryFn(o, table, Some(address), Some(chainId)).result == NotFound
    ensures EnsAvatar.QueryFn(o, table, Some(name), Some(chainId)).result == NotFound
  {
  }

  /** The three hooks share one query cache: their keys never collide, and within
      one hook two calls share an entry exactly when their arguments are equal
      (the name or address as given, not normalised). */
  lemma QueryKeysSeparateHooks(name: Option<string>, address: Option<Address>, avatarName: Option<string>,
                               c1: Option<int>, c2: Option<int>, c3: Option<int>)
    ensures EnsAddress.QueryKeyOf(name, c1) != EnsName.QueryKeyOf(address, c2)
    ensures EnsAddress.QueryKeyOf(name, c1) != EnsAvatar.QueryKeyOf(avatarName, c3)
    ensures EnsName.QueryKeyOf(address, c2) != EnsAvatar.QueryKeyOf(avatarName, c3)
  {
    assert "ziladdress"[3] != "zilname"[3];
    assert "ziladdress"[4] != "zilavatar"[4];
    assert "zilname"[3] != "zilavatar"[3];
  }

  /** Within one hook, two calls share a cache entry iff their arguments are equal. */
  lemma QueryKeySharedIffSameArguments(i1: Option<string>, i2: Option<string>, c1: Option<int>, c2: Option<int>)
    ensures EnsAddress.QueryKeyOf(i1, c1) == EnsAddress.QueryKeyOf(i2, c2) <==> i1 == i2 && c1 == c2
    ensures EnsName.QueryKeyOf(i1, c1) == EnsName.QueryKeyOf(i2, c2) <==> i1 == i2 && c1 == c2
    ensures EnsAvatar.QueryKeyOf(i1, c1) == EnsAvatar.QueryKeyOf(i2, c2) <==> i1 == i2 && c1 == c2
  {
  }
}
