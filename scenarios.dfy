/** Runs of the component as a client sees them: what a caller can
    conclude from the contracts alone. */
module Scenarios {

  import opened Wrappers
  import opened Text
  import opened Catalog
  import opened DepositModal

  function AllGateways(a: Option<string>): map<string, bool>
  {
    map["OPEN" := true, "RUDEX" := true]
  }

  /** Mounting with OPEN.<coin> and an empty cache sends exactly one
      request, for the lower-cased coin to open.<coin> paid to the account,
      and waits for it. */
  method MountOpenLedgerMiss(account: string, coin: string, coinType: string, wallet: string)
    returns (sent: seq<Request>, shown: AddressField, fetching: bool)
    requires '.' !in coin
    ensures sent == [Request(ToLower(coin), "open." + ToLower(coin), account)]
    ensures shown == Null && fetching
  {
    var coins := map["OPEN" := [BackingCoin(Some(coinType), Some(coin), wallet)]];
    var c := new DepositModalContent(account, Some("OPEN" + "." + coin), coins, AllGateways, map[]);
    QualifiedNameSplits("OPEN", coin);
    OpenUpper();
    var mounted := c.ComponentWillMount();
    sent, shown, fetching := c.requests, c.state.depositAddress, c.state.fetchingAddress;
  }

  /** Once the callback has stored an address for the selected coin,
      resolving the same coin at OPEN again reads it from the cache and
      sends nothing. */
  method CallbackThenCacheHit(account: string, coin: string, coinType: string, wallet: string, d: Target)
    returns (first: AddressField, second: AddressField, sent: seq<Request>)
    ensures first == Present(d)
    ensures second == Present(Cached(d))
    ensures sent == [OpenRequest(account, coin)]
  {
    var coins := map["OPEN" := [BackingCoin(Some(coinType), Some(coin), wallet)]];
    var c := new DepositModalContent(account, None, coins, AllGateways, map[]);
    OpenUpper();
    var selected := c.OnAssetSelected(Some(coin), Some("OPEN"));
    var ok := c.AddDepositAddress(d);
    first := c.state.depositAddress;
    var changed := c.OnGatewayChanged("OPEN");
    second, sent := c.state.depositAddress, c.requests;
  }

  /** Mounting with RUDEX.<coin> shows the gateway's wallet with memo
      dex:<account> at once, sending nothing and caching nothing. */
  method MountRudex(account: string, coin: string, coinType: string, wallet: string)
    returns (shown: AddressField, fetching: bool, sent: seq<Request>, cached: map<CacheKey, Target>)
    requires '.' !in coin
    ensures shown == Present(Target(Some(wallet), Some("dex:" + account), None))
    ensures !fetching && sent == [] && cached == map[]
  {
    var coins := map["RUDEX" := [BackingCoin(Some(coinType), Some(coin), wallet)]];
    var c := new DepositModalContent(account, Some("RUDEX" + "." + coin), coins, AllGateways, map[]);
    QualifiedNameSplits("RUDEX", coin);
    RudexUpper();
    var mounted := c.ComponentWillMount();
    shown, fetching, sent, cached := c.state.depositAddress, c.state.fetchingAddress, c.requests, c.cache;
  }

  /** A callback that arrives after the user moved on to another coin at
      OPEN shows the first coin's address for the second coin and files it
      in the cache under the second coin's key, the entry the next lookup
      of the second coin reads. */
  method StaleCallback(account: string, first: string, second: string, wallet: string, d: Target)
    returns (shown: AddressField, filed: map<CacheKey, Target>, sent: seq<Request>)
    ensures shown == Present(d)
    ensures filed == map[LookupKey(account, "OPEN", second) := Cached(d)]
    ensures sent == [OpenRequest(account, first), OpenRequest(account, second)]
  {
    var coins := map["OPEN" := [BackingCoin(Some(first), Some(first), wallet), BackingCoin(Some(second), Some(second), wallet)]];
    var c := new DepositModalContent(account, None, coins, AllGateways, map[]);
    OpenUpper();
    var ok1 := c.OnAssetSelected(Some(first), Some("OPEN"));
    assert c.requests == [OpenRequest(account, first)] && c.cache == map[];
    assert CoinsOf(coins, "OPEN")[1] == BackingCoin(Some(second), Some(second), wallet);
    assert FindBackingAsset(coins, "OPEN", Some(second)).Some?;
    var ok2 := c.OnAssetSelected(Some(second), Some("OPEN"));
    assert c.requests == [OpenRequest(account, first), OpenRequest(account, second)];
    assert c.state.selectedAsset == Some(second) && c.state.selectedGateway == Some("OPEN");
    var ok := c.AddDepositAddress(d);
    assert c.cache == map[][CallbackKey(account, "OPEN", second) := Cached(d)];
    CallbackWriteIsRead(account, "OPEN", second, second);
    shown, filed, sent := c.state.depositAddress, c.cache, c.requests;
  }

  /** Mounting with an asset that names no gateway selects BTS, and the
      view then deposits straight to the account. */
  method MountDirect(account: string, symbol: string) returns (view: DepositView)
    requires symbol != "" && GatewayPrefix(symbol) != "OPEN" && GatewayPrefix(symbol) != "RUDEX"
    ensures view == DepositView(false, Present(Target(Some(account), None, None)))
  {
    var c := new DepositModalContent(account, Some(symbol), map[], AllGateways, map[]);
    var mounted := c.ComponentWillMount();
    view := View(c.state, account);
  }

  /** Choosing the gateway as "open" finds the coin (the catalogue is read
      under the upper-cased name) but matches neither OPEN nor RUDEX: the
      component logs, and stays fetching with no address. */
  method LowerCaseGateway(account: string, coin: string, wallet: string)
    returns (shown: AddressField, fetching: bool, logged: seq<string>)
    ensures shown == Null && fetching
    ensures logged == [UnknownGatewayMessage("open", Some(coin))]
  {
    var coins := map["OPEN" := [BackingCoin(Some(coin), Some(coin), wallet)]];
    var c := new DepositModalContent(account, None, coins, AllGateways, map[]);
    OpenFromLower();
    var selected := c.OnAssetSelected(Some(coin), Some("open"));
    shown, fetching, logged := c.state.depositAddress, c.state.fetchingAddress, c.diagnostics;
  }

  /** Mounting with a bare gateway name such as OPEN selects an undefined
      asset. When every record of the catalogue defines both coin fields no
      backing coin matches it, so the component ends with no address, not
      fetching, and sends nothing. */
  method MountBareGateway(account: string, coins: BackedCoins)
    returns (selected: Option<string>, gateway: Option<string>, shown: AddressField, fetching: bool, sent: seq<Request>)
    requires forall g, b :: g in coins && b in coins[g] ==> b.backingCoinType.Some? && b.backingCoin.Some?
    ensures selected == None && gateway == Some("OPEN")
    ensures shown == Null && !fetching && sent == []
  {
    var c := new DepositModalContent(account, Some("OPEN"), coins, AllGateways, map[]);
    var mounted := c.ComponentWillMount();
    selected, gateway := c.state.selectedAsset, c.state.selectedGateway;
    shown, fetching, sent := c.state.depositAddress, c.state.fetchingAddress, c.requests;
  }

  /** When a record of the OPEN list lacks a coin field, the undefined asset
      of a bare OPEN matches it, and the OpenLedger branch throws on
      lower-casing the asset: the component is left fetching, with no
      address, no gateway selected and nothing sent. */
  method MountBareGatewayThrows(account: string, coinType: string, wallet: string)
    returns (ok: bool, gateway: Option<string>, shown: AddressField, fetching: bool, sent: seq<Request>)
    ensures !ok && gateway == None
    ensures shown == Null && fetching && sent == []
  {
    var coins := map["OPEN" := [BackingCoin(Some(coinType), None, wallet)]];
    var c := new DepositModalContent(account, Some("OPEN"), coins, AllGateways, map[]);
    OpenUpper();
    ok := c.ComponentWillMount();
    gateway := c.state.selectedGateway;
    shown, fetching, sent := c.state.depositAddress, c.state.fetchingAddress, c.requests;
  }
}
