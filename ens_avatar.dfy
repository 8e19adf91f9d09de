/** src/lib/hooks/useZilEnsAvatar.ts: the avatar of an address, found by first
    reverse-resolving the address to a name and then reading that name's "avatar"
    text record; IPFS records are rewritten to a gateway URL, errors become `null`. */
module EnsAvatar {
  import opened Js
  import opened Chains
  import opened Resolver
  import Constants
  import EnsName

  /** The text-record key the hook reads. */
  const AVATAR_KEY: string := "avatar"

  /** The query's `enabled` flag: a name, no name lookup in flight, a chain id. */
  function Enabled(name: Option<string>, isNameLoading: bool, chainId: Option<int>): (r: bool)
    ensures r ==> TruthyString(name) && TruthyNumber(chainId)
    ensures TruthyString(name) && !isNameLoading && TruthyNumber(chainId) ==> r
    ensures isNameLoading ==> !r
  {
    TruthyString(name) && !isNameLoading && TruthyNumber(chainId)
  }

  /** The query's `queryKey`: keyed by the name, never by the address. */
  function QueryKeyOf(name: Option<string>, chainId: Option<int>): (key: QueryKey)
  {
    QueryKey("zilavatar", name, chainId)
  }

  /** The guards `queryFn` passes before it reads the contract. */
  predicate ReadsContract(table: map<int, Address>, name: Option<string>, chainId: Option<int>) {
    TruthyString(name) && TruthyNumber(chainId) && ChainFor(chainId.value).Some?
    && TruthyString(Get(table, chainId.value))
  }

  /** The one read `queryFn` makes once past its guards. */
  function TextCall(o: Oracles, table: map<int, Address>, name: Option<string>, chainId: Option<int>): ContractCall
    requires ReadsContract(table, name, chainId)
  {
    ContractCall(ChainFor(chainId.value).value, table[chainId.value], Text(o.namehash(name.value), AVATAR_KEY))
  }

  /** How `queryFn` turns the avatar record into its result: an empty record is no
      avatar; an IPFS record becomes its gateway URL, or no avatar when the gateway
      helper gives nothing; any other record is used as it is. */
  function AvatarUrl(o: Oracles, avatar: string): (url: Option<string>)
    ensures avatar == "" ==> url.None?
    ensures avatar != "" && o.isValidIpfsUrl(avatar) ==>
              url == (if TruthyString(o.getIpfsGatewayUrl(avatar)) then o.getIpfsGatewayUrl(avatar) else None)
    ensures avatar != "" && !o.isValidIpfsUrl(avatar) ==> url == Some(avatar)
    ensures url.Some? ==> url.value != ""
  {
    if avatar == "" then None
    else if o.isValidIpfsUrl(avatar) then
      var gatewayUrl := o.getIpfsGatewayUrl(avatar);
      if TruthyString(gatewayUrl) then gatewayUrl else None
    else Some(avatar)
  }

  /** The query's `queryFn`, with `CONTRACTS.L2_RESOLVER_ADDR` passed in as `table`.
      Missing input, an unsupported chain and a missing resolver give `null`
      without a read; otherwise exactly one `text(namehash(name), "avatar")` read,
      mapped by `AvatarUrl`; a read error gives `null`. It never throws. */
  function QueryFn(o: Oracles, table: map<int, Address>, name: Option<string>, chainId: Option<int>): (run: QueryRun<string>)
    ensures !ReadsContract(table, name, chainId) ==> run == QueryRun(NotFound, [])
    ensures ReadsContract(table, name, chainId) ==> run.calls == [TextCall(o, table, name, chainId)]
    ensures !run.result.Failed?
    ensures run.result.Found? <==>
              run.calls != [] && o.readContract(run.calls[0]).Ok? && AvatarUrl(o, o.readContract(run.calls[0]).value).Some?
    ensures run.result.Found? ==> Some(run.result.value) == AvatarUrl(o, o.readContract(run.calls[0]).value)
  {
    if !TruthyString(name) || !TruthyNumber(chainId) then
      QueryRun(NotFound, [])
    else
      match ChainFor(chainId.value)
      case None => QueryRun(NotFound, [])
      case Some(chain) =>
        var contractAddress := Get(table, chainId.value);
        if !TruthyString(contractAddress) then
          QueryRun(NotFound, [])
        else
          var call := ContractCall(chain, contractAddress.value, Text(o.namehash(name.value), AVATAR_KEY));
          match o.readContract(call)
          case Err(_) => QueryRun(NotFound, [call])
          case Ok(avatar) =>
            match AvatarUrl(o, avatar)
            case None => QueryRun(NotFound, [call])
            case Some(url) => QueryRun(Found(url), [call])
  }

  /** The hook's `isLoading`: the avatar query or the name query is loading. */
  function IsLoading(isAvatarLoading: bool, isNameLoading: bool): (r: bool)
    ensures r <==> isAvatarLoading || isNameLoading
    ensures !r ==> !isNameLoading && !isAvatarLoading
  {
    isAvatarLoading || isNameLoading
  }

  /** What `useZilEnsAvatar` returns: `avatar` is `data ?? null`, `isLoading` the
      combined flag; `name` is the reverse-resolved name the avatar query was keyed
      by. `calls` are the reads issued so far, answered or in flight. */
  datatype AvatarView = AvatarView(avatar: Option<string>, isLoading: bool, name: Option<string>, key: QueryKey, calls: seq<ContractCall>)

  /** `useZilEnsAvatar({ address, chainId })`: reverse-resolve the address with
      `useZilliqaEnsName`, then run the avatar query for the name found.
      `nameLoading` says the name query has not yet answered (so its `data`, and
      the name, are still `null`); `avatarLoading` says the avatar query, once
      enabled, has not yet answered. A disabled query is not loading. */
  function UseZilEnsAvatar(o: Oracles, address: Option<Address>, chainId: Option<int>, nameLoading: bool, avatarLoading: bool): (view: AvatarView)
    ensures nameLoading ==> view.name.None?
    ensures !nameLoading ==> view.name == EnsName.UseZilliqaEnsName(o, address, chainId).name
    ensures view.key == QueryKeyOf(view.name, chainId)
    ensures view.calls == EnsName.UseZilliqaEnsName(o, address, chainId).calls
                          + (if Enabled(view.name, nameLoading, chainId)
                             then QueryFn(o, Constants.L2_RESOLVER_ADDR, view.name, chainId).calls else [])
    ensures view.isLoading <==> nameLoading || (avatarLoading && Enabled(view.name, nameLoading, chainId))
    ensures view.avatar.Some? <==>
              !avatarLoading && Enabled(view.name, nameLoading, chainId)
              && QueryFn(o, Constants.L2_RESOLVER_ADDR, view.name, chainId).result.Found?
    ensures view.avatar.Some? ==> view.avatar.value == QueryFn(o, Constants.L2_RESOLVER_ADDR, view.name, chainId).result.value
    ensures view.avatar.Some? ==> !view.isLoading && view.name.Some? && view.avatar.value != ""
  {
    var nameView := EnsName.UseZilliqaEnsName(o, address, chainId);
    var name := if nameLoading then None else nameView.name;
    var key := QueryKeyOf(name, chainId);
    if !Enabled(name, nameLoading, chainId) then
      AvatarView(None, IsLoading(false, nameLoading), name, key, nameView.calls)
    else
      var run := QueryFn(o, Constants.L2_RESOLVER_ADDR, name, chainId);
      var avatar := if !avatarLoading && run.result.Found? then Some(run.result.value) else None;
      AvatarView(avatar, IsLoading(avatarLoading, nameLoading), name, key, nameView.calls + run.calls)
  }

  /** While the name lookup is in flight the hook reports loading, shows no avatar,
      and makes no `text` read: every read so far is the reverse `name` read. */
  lemma {:induction false} NameLoadingHoldsAvatarBack(o: Oracles, address: Option<Address>, chainId: Option<int>, avatarLoading: bool)
    ensures var view := UseZilEnsAvatar(o, address, chainId, true, avatarLoading);
            view.isLoading && view.avatar.None?
            && forall i :: 0 <= i < |view.calls| ==> view.calls[i].call.Name?
  {
    var nameView := EnsName.UseZilliqaEnsName(o, address, chainId);
    if nameView.calls != [] {
      assert EnsName.ReadsContract(o, Constants.L2_RESOLVER_ADDR, address, chainId);
      assert nameView.calls == [EnsName.NameCall(o, Constants.L2_RESOLVER_ADDR, address, chainId)];
    }
  }

  /** The avatar depends on the address only through its name: two addresses with
      the same reverse name share the avatar query's key and its answer. */
  lemma {:induction false} AvatarKeyedByName(o: Oracles, a1: Option<Address>, a2: Option<Address>, chainId: Option<int>,
                                             nameLoading: bool, avatarLoading: bool)
    requires EnsName.UseZilliqaEnsName(o, a1, chainId).name == EnsName.UseZilliqaEnsName(o, a2, chainId).name
    ensures UseZilEnsAvatar(o, a1, chainId, nameLoading, avatarLoading).key == UseZilEnsAvatar(o, a2, chainId, nameLoading, avatarLoading).key
    ensures UseZilEnsAvatar(o, a1, chainId, nameLoading, avatarLoading).avatar == UseZilEnsAvatar(o, a2, chainId, nameLoading, avatarLoading).avatar
  {
  }

  /** The avatar read is `text(namehash(name), "avatar")` for the name the address
      reverse-resolved to, on that name's network resolver. */
  lemma AvatarReadUsesResolvedName(o: Oracles, address: Option<Address>, chainId: Option<int>, nameLoading: bool, avatarLoading: bool)
    requires |UseZilEnsAvatar(o, address, chainId, nameLoading, avatarLoading).calls| == 2
    ensures var view := UseZilEnsAvatar(o, address, chainId, nameLoading, avatarLoading);
            view.name.Some? && view.calls[1].call == Text(o.namehash(view.name.value), AVATAR_KEY)
  {
    var nameView := EnsName.UseZilliqaEnsName(o, address, chainId);
    assert |nameView.calls| <= 1;
  }
}
