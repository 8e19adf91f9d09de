# Zilnames resolver — a Dafny model

This project models the decision logic of the Zilnames resolver in a Next.js
sample app. Zilnames are ENS-style names (`alice.zil`, `alice.test.zil`) on Zilliqa
mainnet (chain id 32769) and the Zilliqa testnet (chain id 33101). The model
covers:

- **Coin-type derivation** (`convertChainIdToCoinType`). It maps a chain id to the
  coin-type string used in reverse names. Ethereum mainnet gives `"addr"` and the
  testnet a fixed literal. Every other chain follows the ENSIP-11 rule
  `(0x80000000 | chainId) >>> 0`, printed as upper-case hex.
- **Network inference and selection** (`useZilnameChain`). This covers the
  `.test.zil` suffix test, the supported-chain check, the public-client endpoint
  and the three-way precedence (username, connected chain, environment).
- **The resolver table** (`CONTRACTS.L2_RESOLVER_ADDR`) and `isDevelopment`.
- **The three resolution queries**, each modelled with its `enabled` guard, its
  query key and the value the hook exposes:
  - forward, name → address (`useZilliqaEnsAddress`);
  - reverse, address → name (`useZilliqaEnsName`);
  - avatar, address → name → `avatar` text record (`useZilEnsAvatar`).

  Each `queryFn` returns its result and the list of contract reads it made. A
  result is a value, `null` or a thrown error. The contracts state which branches
  make no read, what the single read's arguments are, and how answers and errors
  are mapped.
- **The EIP-6963 wallet list** (`CustomWalletList`). This is a class whose list and
  refresh counter are updated by `HandleAnnouncement` and `RefreshWalletList`. The
  list never repeats a uuid or a name up to letter case. The model also covers the
  first-match connector search used on mobile browsers.

The library helpers are passed in as the fields of one `Resolver.Oracles` value:
- `namehash`;
- `convertReverseNodeToBytes`, which may throw;
- `isAddress`;
- `IsValidIpfsUrl` and `getIpfsGatewayUrl`;
- `readContract`, which returns a value or throws.

Nothing is assumed about them beyond their types.

Behaviour of the code worth noting, all of it stated by the contracts:
- Forward resolution has no zero-address check: the zero address is a found
  address.
- Whitespace-only names are stopped by the query's `enabled` flag, not by the
  query function.
- Query keys keep the address's letter case.
- Reverse resolution turns read errors into `null`.
- An error from the reverse-node helper is not caught.

## Model

| member | source | states |
|---|---|---|
| `CoinType.CoinTypeNumber` | src/lib/utils/convertChainIdToCoinType.ts:14 | `(0x80000000 \| chainId) >>> 0` is 2^31 plus the chain id's low 31 bits (the id taken modulo 2^32, bit 31 set) |
| `CoinType.ToHexString` | src/lib/utils/convertChainIdToCoinType.ts:15 | `toString(16)` gives a non-empty numeral of lower-case hex digits with no leading zero |
| `CoinType.ConvertChainIdToCoinType` | src/lib/utils/convertChainIdToCoinType.ts:6-16 | chain 1 gives "addr", the testnet gives "80002105", and any other id gives 8 upper-case hex digits that read back as the coin-type number |
| `CoinType.HexStringLength` | src/lib/utils/convertChainIdToCoinType.ts:15 | a number with k hex digits prints as exactly k characters |
| `CoinType.UpperHexRoundTrip` | src/lib/utils/convertChainIdToCoinType.ts:15 | upper-casing `toString(16)` gives upper-case hex that parses back to the number |
| `CoinType.ComputedCoinType` | src/lib/utils/convertChainIdToCoinType.ts:14-15 | for 0 <= id < 2^31 outside the literal cases, the string is the hex of 2^31 + id and is never "addr" |
| `CoinType.ComputedCoinTypeInjective` | src/lib/utils/convertChainIdToCoinType.ts:14-15 | two non-literal ids get the same string iff they agree modulo 2^31, so the rule is injective on [0, 2^31) |
| `CoinType.ZilliqaMainnetCoinType` | src/lib/utils/convertChainIdToCoinType.ts:8-15 | Zilliqa mainnet 32769 is not the "addr" case; it computes "80008001" |
| `CoinType.TestnetLiteralIsNotComputed` | src/lib/utils/convertChainIdToCoinType.ts:10-15 | the testnet literal "80002105" differs from the "8000814D" the rule would give 33101 |
| `CoinType.TestnetCollidesWithChain8453` | src/lib/utils/convertChainIdToCoinType.ts:11-15 | chain 8453 computes the testnet literal, so the mapping is not injective over all ids |
| `Constants.ResolverTable` | src/config/constants.ts:7-10 | resolvers exist for exactly 32769 and 33101, other ids look up nothing, and the two addresses differ |
| `ZilnameChain.GetChainForZilname` | src/lib/hooks/useZilnameChain.ts:13-17 | a name is a testnet name iff it ends with ".test.zil"; every other string is mainnet |
| `ZilnameChain.GetChainForZilnameExamples` | src/lib/hooks/useZilnameChain.ts:8-17 | bare "test.zil" and "alice.zil" map to mainnet, "alice.test.zil" to the testnet |
| `ZilnameChain.IsZilnameSupportedChain` | src/lib/hooks/useZilnameChain.ts:32-35 | true exactly for 32769 and 33101 |
| `ZilnameChain.GetZilnamePublicClient` | src/lib/hooks/useZilnameChain.ts:19-30 | the testnet iff the id is the testnet id, mainnet for every other id; the endpoint always belongs to the chosen chain |
| `ZilnameChain.ChooseZilnameChain` | src/lib/hooks/useZilnameChain.ts:40-51 | a username decides, else a supported connected chain, else testnet in development and mainnet otherwise; the choice is always a supported id |
| `ZilnameChain.UseZilnameChain` | src/lib/hooks/useZilnameChain.ts:37-59 | returns the chain chosen with `isDevelopment` computed from `NODE_ENV`, and a client built from the configured chain with that id (never the connected wallet's chain object) and that chain's RPC URL |
| `ZilnameChain.DefaultChainFollowsNodeEnv` | src/lib/hooks/useZilnameChain.ts:49-50 | with no username and no supported wallet chain, the testnet is used iff `NODE_ENV` is "development", mainnet otherwise |
| `ZilnameChain.UsernameTakesPrecedence` | src/lib/hooks/useZilnameChain.ts:42 | with a username, the connected chain and the environment do not matter |
| `ZilnameChain.UnsupportedConnectedChainIgnored` | src/lib/hooks/useZilnameChain.ts:45-50 | an unsupported connected chain is treated as no connection |
| `Resolver.ChainFor` | src/lib/hooks/useZilliqaEnsAddress.ts:28-35 | each query's chain ternary selects exactly the supported ids, the chain with that id, the same one `getZilnamePublicClient` picks |
| `EnsAddress.Enabled` | src/lib/hooks/useZilliqaEnsAddress.ts:72 | enabled iff name and chain id are present and the name is not all white space |
| `EnsAddress.QueryFn` | src/lib/hooks/useZilliqaEnsAddress.ts:24-71 | no read for missing input, an unsupported chain or no resolver; else exactly one `addr(namehash(name))` read; its non-empty answer is found, an empty answer is null, and its error is rethrown |
| `EnsAddress.UseZilliqaEnsAddress` | src/lib/hooks/useZilliqaEnsAddress.ts:21-81 | disabled means no read, no address and no error; the address is exposed iff the read returned a non-empty string, and is that string; the error is exposed iff the read failed, and is the read's error |
| `EnsAddress.BlankNameNeverRead` | src/lib/hooks/useZilliqaEnsAddress.ts:72 | a whitespace-only name never reaches the contract |
| `EnsAddress.QueryFnAloneReadsBlankName` | src/lib/hooks/useZilliqaEnsAddress.ts:25-58 | the query function by itself would read `addr(namehash(" "))`; only the guard prevents it |
| `EnsAddress.ZeroAddressIsFound` | src/lib/hooks/useZilliqaEnsAddress.ts:62-66 | a zero-address answer is exposed as the address |
| `EnsName.Enabled` | src/lib/hooks/useZilliqaEnsName.ts:69 | enabled iff address and chain id are present and `isAddress(address)` |
| `EnsName.QueryFn` | src/lib/hooks/useZilliqaEnsName.ts:23-68 | no read for missing input or an unsupported chain; a reverse-node error is thrown; no resolver means no read; else one `name(reverseNode)` read whose non-empty answer is found and whose empty answer or error is null |
| `EnsName.UseZilliqaEnsName` | src/lib/hooks/useZilliqaEnsName.ts:20-77 | disabled means no read and no name; the name is exposed iff the read returned a non-empty string |
| `EnsName.ReadErrorLooksLikeNoRecord` | src/lib/hooks/useZilliqaEnsName.ts:59-67 | a failed read and an empty record settle the query identically |
| `EnsName.ReverseNodeErrorEscapes` | src/lib/hooks/useZilliqaEnsName.ts:39-47 | the reverse node is computed outside the `try`, so its error is thrown even when there is no resolver |
| `EnsName.KeyIsCaseSensitive` | src/lib/hooks/useZilliqaEnsName.ts:22 | an address with an upper-case letter and its lower-cased form get different cache keys |
| `EnsAvatar.Enabled` | src/lib/hooks/useZilEnsAvatar.ts:90 | enabled exactly when there is a name and a chain id and the name lookup is not in flight |
| `EnsAvatar.AvatarUrl` | src/lib/hooks/useZilEnsAvatar.ts:62-77 | an empty record gives null; an IPFS record gives the gateway URL or null; any other record is returned as is; a result is never empty |
| `EnsAvatar.QueryFn` | src/lib/hooks/useZilEnsAvatar.ts:28-89 | no read for missing input, an unsupported chain or no resolver; else one `text(namehash(name), "avatar")` read mapped by `AvatarUrl`; errors give null and it never throws |
| `EnsAvatar.UseZilEnsAvatar` | src/lib/hooks/useZilEnsAvatar.ts:23-98 | reverse-resolves first, then reads at most one avatar record for that name; the avatar is shown iff the enabled avatar query has answered with a found URL, and is that URL; loading iff the name lookup or the enabled avatar query is in flight |
| `EnsAvatar.NameLoadingHoldsAvatarBack` | src/lib/hooks/useZilEnsAvatar.ts:90-95 | while the name lookup is in flight the hook reports loading, shows no avatar and has made no `text` read |
| `EnsAvatar.AvatarKeyedByName` | src/lib/hooks/useZilEnsAvatar.ts:24-27 | addresses with the same reverse name share the avatar key and the avatar |
| `EnsAvatar.AvatarReadUsesResolvedName` | src/lib/hooks/useZilEnsAvatar.ts:53-58 | the avatar read hashes the name the address resolved to, with key "avatar" |
| `ResolutionProperties.UnsupportedChainNeverRead` | src/lib/hooks/useZilliqaEnsAddress.ts:28-35 | an unsupported chain makes all three queries return null without a read, whatever the table |
| `ResolutionProperties.ReadFailureHandling` | src/lib/hooks/useZilliqaEnsAddress.ts:67-70 | when reads fail, forward resolution reports failure while reverse and avatar report no record |
| `ResolutionProperties.QueryKeysSeparateHooks` | src/lib/hooks/useZilliqaEnsAddress.ts:23 | the keys "ziladdress", "zilname" and "zilavatar" keep the three hooks' cache entries apart for any arguments |
| `ResolutionProperties.QueryKeySharedIffSameArguments` | src/lib/hooks/useZilliqaEnsName.ts:22 | within each hook, two calls share a cache entry iff their input and chain id are equal, with no normalisation |
| `Js.TrimEmptyIffAllWhiteSpace` | src/lib/hooks/useZilliqaEnsAddress.ts:72 | `name.trim()` is empty iff the name is all white space |
| `WalletList.AddAnnounced` | src/components/CustomWalletList.tsx:30-49 | the list is unchanged iff the uuid or the case-folded name is already listed; otherwise exactly the announced entry is appended |
| `WalletList.OnAnnouncement` | src/components/CustomWalletList.tsx:28-51 | an event without `detail.info` changes nothing; one with it gives `AddAnnounced` of its info and provider; the old list is always kept as a prefix |
| `WalletList.AddAnnouncedPreservesDistinct` | src/components/CustomWalletList.tsx:32-48 | adding keeps ids and lower-cased names pairwise distinct |
| `WalletList.AddAnnouncedIdempotent` | src/components/CustomWalletList.tsx:32-33 | hearing the same announcement twice lists it once |
| `WalletList.ReplayDistinct` | src/components/CustomWalletList.tsx:21-49 | from the empty list, any run of announcements keeps ids and names distinct |
| `WalletList.CustomWalletList.constructor` | src/components/CustomWalletList.tsx:21-24 | the list starts empty and the refresh count at 0 |
| `WalletList.CustomWalletList.HandleAnnouncement` | src/components/CustomWalletList.tsx:28-51 | the list becomes `OnAnnouncement` of the old list, keeps its invariant, and the count is unchanged |
| `WalletList.CustomWalletList.RefreshWalletList` | src/components/CustomWalletList.tsx:124-135 | in a browser the list empties and the count rises by exactly 1; otherwise nothing changes |
| `WalletList.FirstMatch` | src/components/CustomWalletList.tsx:87-90 | gives the first connector that is injected or whose lower-cased name contains the wallet's lower-cased name |
| `WalletList.FirstInjectedId` | src/components/CustomWalletList.tsx:96 | gives the first connector with id "injected" |
| `WalletList.ChooseConnector` | src/components/CustomWalletList.tsx:87-99 | the first match, else the first connector with id "injected" (only when nothing matches), else none |
| `WalletList.ChooseConnectorSound` | src/components/CustomWalletList.tsx:87-99 | the choice is in the list and passes one test; the fallback is used only when no connector matches |
| `WalletList.EmptyWalletNamePicksFirst` | src/components/CustomWalletList.tsx:87-90 | an empty wallet name matches every connector, so the first is chosen |

## Left out

- React Query is not modelled: no caching, request deduplication, staleness,
  retries or `isFetching`. The forward and reverse hook models show the state once
  the query has settled, or while it stays disabled. For `EnsAvatar.UseZilEnsAvatar`,
  whether each query is still in flight is an input. It is not derived from the
  query's lifecycle.
- The helpers `namehash`, `convertReverseNodeToBytes`, `isAddress`,
  `IsValidIpfsUrl` and `getIpfsGatewayUrl` are parameters. Their files, or viem,
  are not part of this model. The model does not define a reverse-name format, an
  IPFS rewrite rule or a hash function.
- `namehash` and `getIpfsGatewayUrl` are modelled as never throwing. In the source
  both run inside a `try`, so an exception would be rethrown (forward) or become
  `null` (avatar).
- Network I/O (`readContract`, `createPublicClient`, `getChainPublicClient`) is
  modelled as data. A read is a `Resolver.ContractCall` answered by the
  `readContract` parameter.
- `console.log` and `console.error` are not modelled.
- `useMemo` memoisation is not modelled. `ZilnameChain.ChooseZilnameChain` models
  only the callback's result.
- CustomWalletList is modelled only as its list updater, refresh and connector
  search. Not modelled: the event-listener registration, `eth_requestAccounts`,
  user-agent detection, the loading and error flags, the `wallet.connector` branch
  and rendering.
- Js.ToLower: maps ASCII letters only; JavaScript's full Unicode case mapping is
  not modelled. The uniqueness results hold for any case mapping.
- Js.ToUpper: maps ASCII letters only. It stands for the source's
  `toLocaleUpperCase()`. It is applied only to hex digits, where every locale
  agrees.
- CoinType.CoinTypeNumber: covers integer chain ids only. `NaN`, fractions and
  infinities are not modelled.
- Chain ids are integers. A missing chain id and 0 are both falsy, as `!chainId`
  treats them.
- UI components, layout, NetworkSelector, wagmi configuration and page state are
  not part of this model.
- WalletList.AddAnnounced: `info.uuid` and `info.name` are always strings here.
  The source's `event` is untyped. With a non-empty list, an info without a string
  name makes `toLowerCase()` throw a TypeError inside the state updater. The model
  cannot express that case.
