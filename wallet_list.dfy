/** src/components/CustomWalletList.tsx: the list of wallets announced over
    EIP-6963 (`eip6963:announceProvider` events), kept free of repeated uuids and
    of names repeated up to letter case; the refresh that empties it; and the
    connector picked for a wallet on mobile browsers. */
module WalletList {
  import opened Js

  /** The opaque EIP-1193 provider object an announcement carries. */
  datatype Provider = Provider(handle: nat)

  /** An announcement's `detail.info`. */
  datatype ProviderInfo = ProviderInfo(uuid: string, name: string, icon: Option<string>)

  /** An announcement's `detail`. */
  datatype AnnouncementDetail = AnnouncementDetail(info: Option<ProviderInfo>, provider: Option<Provider>)

  /** An `eip6963:announceProvider` event. */
  datatype AnnouncementEvent = AnnouncementEvent(detail: Option<AnnouncementDetail>)

  /** `WalletInfo`; `kind` is its `type` field. */
  datatype WalletInfo = WalletInfo(id: string, name: string, kind: string, icon: Option<string>, provider: Option<Provider>)

  const EIP6963_TYPE: string := "EIP-6963"

  /** `prev.some(w => w.id === uuid)`. */
  predicate HasId(wallets: seq<WalletInfo>, uuid: string) {
    exists i :: 0 <= i < |wallets| && wallets[i].id == uuid
  }

  /** `prev.some(w => w.name.toLowerCase() === name.toLowerCase())`. */
  predicate HasNameIgnoringCase(wallets: seq<WalletInfo>, name: string) {
    exists i :: 0 <= i < |wallets| && ToLower(wallets[i].name) == ToLower(name)
  }

  /** No two listed wallets share an id, nor a name up to letter case. */
  predicate Distinct(wallets: seq<WalletInfo>) {
    forall i, j :: 0 <= i < j < |wallets| ==>
      wallets[i].id != wallets[j].id && ToLower(wallets[i].name) != ToLower(wallets[j].name)
  }

  /** The entry an announcement adds. */
  function AnnouncedWallet(info: ProviderInfo, provider: Option<Provider>): WalletInfo {
    WalletInfo(info.uuid, info.name, EIP6963_TYPE, info.icon, provider)
  }

  /** The `setEip6963Wallets` updater: the previous list when the uuid or the name
      (ignoring case) is already listed, else the previous list with the announced
      wallet appended. */
  function AddAnnounced(prev: seq<WalletInfo>, info: ProviderInfo, provider: Option<Provider>): (next: seq<WalletInfo>)
    ensures next == prev <==> HasId(prev, info.uuid) || HasNameIgnoringCase(prev, info.name)
    ensures next != prev ==> next == prev + [AnnouncedWallet(info, provider)]
  {
    if HasId(prev, info.uuid) then prev
    else if HasNameIgnoringCase(prev, info.name) then prev
    else prev + [AnnouncedWallet(info, provider)]
  }

  /** `handleAnnouncement`'s effect on the list: an event without `detail.info`
      changes nothing. */
  function OnAnnouncement(prev: seq<WalletInfo>, event: AnnouncementEvent): (next: seq<WalletInfo>)
    ensures event.detail.None? || event.detail.value.info.None? ==> next == prev
    ensures event.detail.Some? && event.detail.value.info.Some? ==>
              next == AddAnnounced(prev, event.detail.value.info.value, event.detail.value.provider)
    ensures |prev| <= |next| <= |prev| + 1 && next[..|prev|] == prev
  {
    match event.detail
    case Some(AnnouncementDetail(Some(info), provider)) => AddAnnounced(prev, info, provider)
    case _ => prev
  }

  /** Adding an announcement keeps the list free of repeated ids and names. */
  lemma {:induction false} AddAnnouncedPreservesDistinct(prev: seq<WalletInfo>, info: ProviderInfo, provider: Option<Provider>)
    requires Distinct(prev)
    ensures Distinct(AddAnnounced(prev, info, provider))
  {
    var next := AddAnnounced(prev, info, provider);
    if next != prev {
      forall i, j | 0 <= i < j < |next|
        ensures next[i].id != next[j].id && ToLower(next[i].name) != ToLower(next[j].name)
      {
        if j == |prev| {
          assert !HasId(prev, info.uuid) && !HasNameIgnoringCase(prev, info.name);
          assert next[i] == prev[i];
        }
      }
    }
  }

  /** Hearing the same announcement twice lists the wallet once. */
  lemma {:induction false} AddAnnouncedIdempotent(prev: seq<WalletInfo>, info: ProviderInfo, provider: Option<Provider>)
    ensures AddAnnounced(AddAnnounced(prev, info, provider), info, provider) == AddAnnounced(prev, info, provider)
  {
    var next := AddAnnounced(prev, info, provider);
    if next != prev {
      assert next[|prev|].id == info.uuid;
      assert HasId(next, info.uuid);
    }
  }

  /** The list after a run of announcements heard from the empty list, in order. */
  function Replay(events: seq<AnnouncementEvent>): (wallets: seq<WalletInfo>)
    ensures |wallets| <= |events|
  {
    if events == [] then [] else OnAnnouncement(Replay(events[..|events| - 1]), events[|events| - 1])
  }

  /** Whatever announcements arrive, ids and lower-cased names stay pairwise distinct. */
  lemma {:induction false} ReplayDistinct(events: seq<AnnouncementEvent>)
    ensures Distinct(Replay(events))
  {
    if events != [] {
      var prev := Replay(events[..|events| - 1]);
      ReplayDistinct(events[..|events| - 1]);
      var event := events[|events| - 1];
      if event.detail.Some? && event.detail.value.info.Some? {
        AddAnnouncedPreservesDistinct(prev, event.detail.value.info.value, event.detail.value.provider);
      }
    }
  }

  /** The component's list state and its `refreshCount`. */
  class CustomWalletList {
    var eip6963Wallets: seq<WalletInfo>
    var refreshCount: nat

    ghost predicate Valid()
      reads this
    {
      Distinct(eip6963Wallets)
    }

    /** `useState([])` and `useState(0)`. */
    constructor ()
      ensures Valid()
      ensures eip6963Wallets == [] && refreshCount == 0
    {
      eip6963Wallets := [];
      refreshCount := 0;
    }

    /** `handleAnnouncement(event)`. */
    method HandleAnnouncement(event: AnnouncementEvent)
      requires Valid()
      modifies this
      ensures Valid()
      ensures eip6963Wallets == OnAnnouncement(old(eip6963Wallets), event)
      ensures refreshCount == old(refreshCount)
    {
      if event.detail.Some? && event.detail.value.info.Some? {
        AddAnnouncedPreservesDistinct(eip6963Wallets, event.detail.value.info.value, event.detail.value.provider);
      }
      eip6963Wallets := OnAnnouncement(eip6963Wallets, event);
    }

    /** `refreshWalletList()`; `hasWindow` is `typeof window !== 'undefined'`. */
    method RefreshWalletList(hasWindow: bool)
      requires Valid()
      modifies this
      ensures Valid()
      ensures hasWindow ==> eip6963Wallets == [] && refreshCount == old(refreshCount) + 1
      ensures !hasWindow ==> eip6963Wallets == old(eip6963Wallets) && refreshCount == old(refreshCount)
    {
      if hasWindow {
        eip6963Wallets := [];
        refreshCount := refreshCount + 1;
      }
    }
  }

  /** A wagmi connector as the search sees it; `kind` is its `type` field. */
  datatype Connector = Connector(id: string, name: string, kind: string)

  /** The first test of `handleConnectWallet`'s search: an injected connector, or
      one whose name contains the wallet's name, ignoring case. */
  predicate MatchesWallet(connector: Connector, walletName: string) {
    connector.kind == "injected" || Includes(ToLower(connector.name), ToLower(walletName))
  }

  /** The fallback test: the connector whose id is "injected". */
  predicate IsInjectedId(connector: Connector) {
    connector.id == "injected"
  }

  /** `connectors.findIndex(c => MatchesWallet(c, walletName))`, as an option. */
  function FirstMatch(connectors: seq<Connector>, walletName: string): (k: Option<nat>)
    ensures k.Some? ==> k.value < |connectors| && MatchesWallet(connectors[k.value], walletName)
    ensures k.Some? ==> forall j :: 0 <= j < k.value ==> !MatchesWallet(connectors[j], walletName)
    ensures k.None? ==> forall j :: 0 <= j < |connectors| ==> !MatchesWallet(connectors[j], walletName)
  {
    if connectors == [] then None
    else if MatchesWallet(connectors[0], walletName) then Some(0)
    else match FirstMatch(connectors[1..], walletName)
      case None => None
      case Some(k) => Some(k + 1)
  }

  /** `connectors.findIndex(c => c.id === 'injected')`, as an option. */
  function FirstInjectedId(connectors: seq<Connector>): (k: Option<nat>)
    ensures k.Some? ==> k.value < |connectors| && IsInjectedId(connectors[k.value])
    ensures k.Some? ==> forall j :: 0 <= j < k.value ==> !IsInjectedId(connectors[j])
    ensures k.None? ==> forall j :: 0 <= j < |connectors| ==> !IsInjectedId(connectors[j])
  {
    if connectors == [] then None
    else if IsInjectedId(connectors[0]) then Some(0)
    else match FirstInjectedId(connectors[1..])
      case None => None
      case Some(k) => Some(k + 1)
  }

  /** The connector `handleConnectWallet` connects with on mobile and in-app
      browsers: the first matching one, and only when none matches, the first with
      id "injected"; `None` when neither exists. */
  function ChooseConnector(connectors: seq<Connector>, walletName: string): (c: Option<Connector>)
    ensures FirstMatch(connectors, walletName).Some? ==> c == Some(connectors[FirstMatch(connectors, walletName).value])
    ensures FirstMatch(connectors, walletName).None? && FirstInjectedId(connectors).Some? ==>
              c == Some(connectors[FirstInjectedId(connectors).value])
    ensures c.None? <==> FirstMatch(connectors, walletName).None? && FirstInjectedId(connectors).None?
  {
    match FirstMatch(connectors, walletName)
    case Some(k) => Some(connectors[k])
    case None =>
      match FirstInjectedId(connectors)
      case Some(k) => Some(connectors[k])
      case None => None
  }

  /** The chosen connector always comes from the list and passes one of the two
      tests; the fallback is taken only when no connector passes the first. */
  lemma {:induction false} ChooseConnectorSound(connectors: seq<Connector>, walletName: string)
    ensures var c := ChooseConnector(connectors, walletName);
            c.Some? ==> c.value in connectors && (MatchesWallet(c.value, walletName) || IsInjectedId(c.value))
    ensures var c := ChooseConnector(connectors, walletName);
            c.Some? && !MatchesWallet(c.value, walletName) ==>
              forall j :: 0 <= j < |connectors| ==> !MatchesWallet(connectors[j], walletName)
  {
  }

  /** An empty wallet name is contained in every connector name, so the first
      connector in the list is chosen. */
  lemma {:induction false} EmptyWalletNamePicksFirst(connectors: seq<Connector>)
    requires connectors != []
    ensures ChooseConnector(connectors, "") == Some(connectors[0])
  {
    IncludesEmpty(ToLower(connectors[0].name));
  }
}
