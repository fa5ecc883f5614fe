/** `DepositModalContent`: the state of the deposit dialog and the
    transitions that resolve a deposit address for the selected asset and
    gateway. React's `setState` is modelled as a field-wise overwrite of
    the named fields, applied in program order. */
module DepositModal {

  import opened Wrappers
  import opened Text
  import opened Catalog

  /** A deposit address object as the component stores it: `address` and
      `memo`, and the `error` flag a failed address request carries. A
      `None` field is one that is missing (`undefined`) or `null`; the
      component only shows these fields or tests them for truthiness, where
      the two agree. */
  datatype Target = Target(address: Option<string>, memo: Option<string>, error: Option<string>)

  /** The `depositAddress` state field: the empty string it starts with,
      `null`, or an address object. */
  datatype AddressField = Blank | Null | Present(target: Target)

  /** The key under which the deposit-address cache stores an entry:
      wallet type, account, input coin type, output coin type. */
  datatype CacheKey = CacheKey(walletType: string, account: string, inputCoinType: string, outputCoinType: string)

  /** A `requestDepositAddress` call; its `stateCallback` is always the
      component's own `AddDepositAddress`. */
  datatype Request = Request(inputCoinType: string, outputCoinType: string, outputAddress: string)

  /** `this.state`, less the parts only the view reads. */
  datatype ComponentState = ComponentState(
    depositAddress: AddressField,
    /** `None` is `undefined`, as `backedAsset[1]` gives for a bare name. */
    selectedAsset: Option<string>,
    /** `None` is the initial `null`. */
    selectedGateway: Option<string>,
    fetchingAddress: bool,
    /** `None` is the initial `null`; the state never takes the
        `undefined` of a failed `find`, since that path keeps the old value. */
    backingAsset: Option<BackingCoin>,
    /** Gateway id to its `enabled` flag. */
    gatewayStatus: map<string, bool>,
    /** Not in the initial state; absent reads as false. */
    isOpenledger: bool)

  /** A fetch in progress never has an address ready to show: while
      `fetchingAddress` is set, `depositAddress` is `null`. The deposit
      details of `render` show the address without testing the flag. */
  predicate AddressSettled(s: ComponentState)
  {
    s.fetchingAddress ==> s.depositAddress == Null
  }

  /** The state the constructor sets. */
  function InitialState(): ComponentState
  {
    ComponentState(Blank, Some(""), None, false, None, map["OPEN" := false, "RUDEX" := false], false)
  }

  /** What the top of `render` derives from the state. */
  datatype DepositView = DepositView(usingGateway: bool, depositAddress: AddressField)

  /** The top of `render`: with no gateway and BTS selected the deposit
      goes straight to the account, with no gateway in use; in every other
      case a gateway is in use and the stored address is what is shown. */
  function View(s: ComponentState, account: string): DepositView
  {
    if s.selectedGateway.None? && s.selectedAsset == Some("BTS") then
      DepositView(false, Present(Target(Some(account), None, None)))
    else
      DepositView(true, s.depositAddress)
  }

  /** The key `_getDepositAddress` reads for `gateway` and `asset`. */
  function LookupKey(account: string, gateway: string, asset: string): CacheKey
  {
    CacheKey(ToUpper(gateway), account, ToLower(asset), ToLower(gateway) + "." + ToLower(asset))
  }

  /** The key `addDepositAddress` writes, from the selection current when
      the callback runs. */
  function CallbackKey(account: string, selectedGateway: string, selectedAsset: string): CacheKey
  {
    CacheKey("OPEN", account, ToLower(selectedAsset), ToLower(selectedGateway) + "." + ToLower(selectedAsset))
  }

  /** The request issued for the OpenLedger gateway on a cache miss. */
  function OpenRequest(account: string, asset: string): Request
  {
    Request(ToLower(asset), "open." + ToLower(asset), account)
  }

  /** The address the RuDEX gateway uses: its static wallet, with the
      account in the memo. */
  function RudexTarget(coin: BackingCoin, account: string): Target
  {
    Target(Some(coin.gatewayWallet), Some("dex:" + account), None)
  }

  /** A possibly `undefined` string as string concatenation renders it. */
  function Shown(s: Option<string>): string
  {
    if s.None? then "undefined" else s.value
  }

  function UnknownGatewayMessage(gateway: string, asset: Option<string>): string
  {
    "Withdraw Modal Error: Unknown Gateway " + gateway + " for asset " + Shown(asset)
  }

  /** What a cache write keeps of the address object. */
  function Cached(d: Target): Target
  {
    Target(d.address, d.memo, None)
  }

  /** The entry a callback writes is the one a later OpenLedger lookup for
      `asset` reads exactly when the selected gateway is OPEN in any case
      and the selected asset is `asset` in any case. In particular a
      callback that arrives after the user chose another OPEN asset files
      its address under that other asset, and one that arrives after the
      user chose another gateway writes an entry no lookup ever reads. */
  lemma CallbackWriteIsRead(account: string, selectedGateway: string, selectedAsset: string, asset: string)
    ensures CallbackKey(account, selectedGateway, selectedAsset) == LookupKey(account, "OPEN", asset)
        <==> ToLower(selectedGateway) == "open" && ToLower(selectedAsset) == ToLower(asset)
  {
    var g, x, y := ToLower(selectedGateway), ToLower(selectedAsset), ToLower(asset);
    OpenUpper();
    OpenLower();
    var k := LookupKey(account, "OPEN", asset);
    assert k == CacheKey("OPEN", account, y, "open." + y) by {
      assert "open" + "." + y == "open." + y;
    }
    if x == y {
      OutputCoinShape(g, x, y);
    }
  }

  /** `g.x` is `open.y` for equally long `x` and `y` exactly when `g` is
      `open` and `x` is `y`. */
  lemma OutputCoinShape(g: string, x: string, y: string)
    requires |x| == |y|
    ensures g + "." + x == "open." + y <==> g == "open" && x == y
  {
    if g + "." + x == "open." + y {
      SameTailSameHead(g + ".", "open.", x, y);
      assert g == (g + ".")[..|g|];
      assert x == (g + "." + x)[|g| + 1..];
    }
  }

  /** The gateway names OPEN and RUDEX under the case mappings, one fact
      per lemma: each is cheap alone, but proving them together makes the
      solver unroll all four literals at once. */
  lemma OpenUpper()
    ensures ToUpper("OPEN") == "OPEN"
  {
  }

  lemma OpenLower()
    ensures ToLower("OPEN") == "open"
  {
  }

  lemma OpenFromLower()
    ensures ToUpper("open") == "OPEN"
  {
  }

  lemma RudexUpper()
    ensures ToUpper("RUDEX") == "RUDEX"
  {
  }

  /** Two strings that agree after equally long tails agree before them. */
  lemma SameTailSameHead(g: string, h: string, x: string, y: string)
    requires g + x == h + y && |x| == |y|
    ensures g == h
  {
    assert g == (g + x)[..|g|];
    assert h == (h + y)[..|h|];
  }

  class DepositModalContent {

    // Properties, fixed for the component's lifetime.
    const account: string
    /** `None` is a missing `asset` property (`undefined`). */
    const asset: Option<string>
    const backedCoins: BackedCoins
    /** `_getAvailableGateways`: the gateway table for an asset. Its source
        is not part of this model, so it is an arbitrary function here. */
    const availableGateways: Option<string> -> map<string, bool>

    /** `this.state`; every `setState` overwrites the fields it names. */
    var state: ComponentState

    // Collaborators.
    /** The deposit-address cache. */
    var cache: map<CacheKey, Target>
    /** Every `requestDepositAddress` call, in order. */
    var requests: seq<Request>
    /** Every console diagnostic, in order. */
    var diagnostics: seq<string>

    constructor (account: string, asset: Option<string>, backedCoins: BackedCoins,
                 availableGateways: Option<string> -> map<string, bool>,
                 cached: map<CacheKey, Target>)
      ensures this.account == account && this.asset == asset
      ensures this.backedCoins == backedCoins && this.availableGateways == availableGateways
      ensures state == InitialState()
      ensures AddressSettled(state)
      ensures cache == cached && requests == [] && diagnostics == []
    {
      this.account := account;
      this.asset := asset;
      this.backedCoins := backedCoins;
      this.availableGateways := availableGateways;
      state := InitialState();
      cache := cached;
      requests := [];
      diagnostics := [];
    }

    /** Whether `_getDepositAddress(a, gateway)` throws: the OpenLedger
        branch lower-cases the asset, and an `undefined` asset can reach it
        through a record that lacks a coin field. */
    predicate Throws(a: Option<string>, gateway: string)
    {
      FindBackingAsset(backedCoins, gateway, a).Some? && gateway == "OPEN" && a.None?
    }

    /** The outcome of `_getDepositAddress(a, gateway)`, relating the state
        before to the state after. */
    twostate predicate Resolved(a: Option<string>, gateway: string)
      reads this
    {
      var found := FindBackingAsset(backedCoins, gateway, a);
      var s, s0 := state, old(state);
      // The TypeError: the first two `setState` calls stand, nothing else happens.
      && (Throws(a, gateway) ==>
            && s == s0.(fetchingAddress := true, depositAddress := Null,
                        gatewayStatus := availableGateways(a), isOpenledger := true)
            && cache == old(cache) && requests == old(requests) && diagnostics == old(diagnostics))
      // Recorded on every other path.
      && (!Throws(a, gateway) ==>
            && s.gatewayStatus == availableGateways(a)
            && s.selectedAsset == a
            && s.selectedGateway == Some(gateway)
            && s.backingAsset == (if found.None? then s0.backingAsset else found))
      // No backing asset: no address, not fetching, nothing read or sent.
      && (found.None? ==>
            && s.depositAddress == Null && !s.fetchingAddress
            && s.isOpenledger == s0.isOpenledger
            && cache == old(cache) && requests == old(requests) && diagnostics == old(diagnostics))
      // OpenLedger: cache first, else exactly one request.
      && (found.Some? && gateway == "OPEN" && a.Some? ==>
            && s.isOpenledger && cache == old(cache) && diagnostics == old(diagnostics)
            && var key := LookupKey(account, gateway, a.value);
               if key in old(cache) then
                 s.depositAddress == Present(old(cache)[key]) && !s.fetchingAddress && requests == old(requests)
               else
                 s.depositAddress == Null && s.fetchingAddress
                 && requests == old(requests) + [OpenRequest(account, a.value)])
      // RuDEX: the static wallet, no cache, no request.
      && (found.Some? && gateway == "RUDEX" ==>
            && s.depositAddress == Present(RudexTarget(found.value, account))
            && !s.fetchingAddress && !s.isOpenledger
            && cache == old(cache) && requests == old(requests) && diagnostics == old(diagnostics))
      // Any other gateway: a diagnostic only; still fetching, no address.
      && (found.Some? && gateway != "OPEN" && gateway != "RUDEX" ==>
            && s.depositAddress == Null && s.fetchingAddress
            && s.isOpenledger == s0.isOpenledger
            && cache == old(cache) && requests == old(requests)
            && diagnostics == old(diagnostics) + [UnknownGatewayMessage(gateway, a)])
    }

    /** `_getDepositAddress`; `ok` is false when it throws. Whenever it
        returns normally, the view afterwards uses a gateway and shows the
        stored address. */
    method GetDepositAddress(a: Option<string>, gateway: string) returns (ok: bool)
      modifies this
      ensures Resolved(a, gateway)
      ensures ok <==> !Throws(a, gateway)
      ensures ok ==> View(state, account) == DepositView(true, state.depositAddress)
      ensures AddressSettled(state)
    {
      state := state.(fetchingAddress := true, depositAddress := Null, gatewayStatus := availableGateways(a));

      var found := FindBackingAsset(backedCoins, gateway, a);
      if found.None? {
        state := state.(depositAddress := Null, selectedAsset := a, selectedGateway := Some(gateway),
                        fetchingAddress := false);
        return true;
      }

      if gateway == "OPEN" {
        state := state.(isOpenledger := true);
        if a.None? {
          return false;
        }
        var key := LookupKey(account, gateway, a.value);
        if key !in cache {
          requests := requests + [OpenRequest(account, a.value)];
        } else {
          state := state.(depositAddress := Present(cache[key]), fetchingAddress := false);
        }
      } else if gateway == "RUDEX" {
        state := state.(depositAddress := Present(RudexTarget(found.value, account)),
                        fetchingAddress := false, isOpenledger := false);
      } else {
        diagnostics := diagnostics + [UnknownGatewayMessage(gateway, a)];
      }

      state := state.(selectedAsset := a, selectedGateway := Some(gateway), backingAsset := found);
      ok := true;
    }

    /** `addDepositAddress`, the callback of every request: caches the
        address under the CURRENT selection and shows it, whatever the
        selection was when the request went out. With no asset or no
        gateway selected, `toLowerCase` throws before anything changes
        (`ok` is false). */
    method AddDepositAddress(d: Target) returns (ok: bool)
      modifies this
      ensures ok <==> old(state).selectedAsset.Some? && old(state).selectedGateway.Some?
      ensures !ok ==> unchanged(this)
      ensures ok ==> cache == old(cache)[CallbackKey(account, old(state).selectedGateway.value,
                                                     old(state).selectedAsset.value) := Cached(d)]
      ensures ok ==> state == old(state).(depositAddress := Present(d), fetchingAddress := false)
      ensures requests == old(requests) && diagnostics == old(diagnostics)
      ensures AddressSettled(old(state)) ==> AddressSettled(state)
    {
      if state.selectedAsset.None? || state.selectedGateway.None? {
        return false;
      }
      var sa, sg := state.selectedAsset.value, state.selectedGateway.value;
      cache := cache[CacheKey("OPEN", account, ToLower(sa), ToLower(sg) + "." + ToLower(sa)) := Target(d.address, d.memo, None)];
      state := state.(depositAddress := Present(d), fetchingAddress := false);
      ok := true;
    }

    /** `componentWillMount`: with no asset property nothing happens; an
        asset whose first dot-separated segment names a gateway of the
        status table resolves the segment after it at that gateway; any
        other asset selects the core asset BTS and nothing else. `ok` is
        false when the resolution throws. */
    method ComponentWillMount() returns (ok: bool)
      modifies this
      ensures (asset.None? || asset == Some("")) ==> ok && unchanged(this)
      ensures asset.Some? && asset.value != "" && GatewayPrefix(asset.value) in old(state).gatewayStatus ==>
                && Resolved(AssetSegment(asset.value), GatewayPrefix(asset.value))
                && (ok <==> !Throws(AssetSegment(asset.value), GatewayPrefix(asset.value)))
      ensures asset.Some? && asset.value != "" && GatewayPrefix(asset.value) !in old(state).gatewayStatus ==>
                && ok && state == old(state).(selectedAsset := Some("BTS"))
                && cache == old(cache) && requests == old(requests) && diagnostics == old(diagnostics)
      ensures AddressSettled(old(state)) ==> AddressSettled(state)
    {
      if asset.None? || asset.value == "" {
        return true;
      }
      var prefix := GatewayPrefix(asset.value);
      if prefix in state.gatewayStatus {
        ok := GetDepositAddress(AssetSegment(asset.value), prefix);
      } else {
        state := state.(selectedAsset := Some("BTS"));
        ok := true;
      }
    }

    /** `onGatewayChanged`: an empty choice is ignored; any other resolves
        the current asset at the chosen gateway. */
    method OnGatewayChanged(value: string) returns (ok: bool)
      modifies this
      ensures value == "" ==> ok && unchanged(this)
      ensures value != "" ==> Resolved(old(state).selectedAsset, value)
                              && (ok <==> !Throws(old(state).selectedAsset, value))
      ensures AddressSettled(old(state)) ==> AddressSettled(state)
    {
      if value == "" {
        return true;
      }
      ok := GetDepositAddress(state.selectedAsset, value);
    }

    /** `onAssetSelected`, given what `_onAssetSelected` returned: resolves
        only when that names a gateway. A `None` in the answer is a missing
        (`undefined`) field of it. */
    method OnAssetSelected(chosenAsset: Option<string>, chosenGateway: Option<string>) returns (ok: bool)
      modifies this
      ensures (chosenGateway.None? || chosenGateway == Some("")) ==> ok && unchanged(this)
      ensures chosenGateway.Some? && chosenGateway.value != "" ==>
                Resolved(chosenAsset, chosenGateway.value) && (ok <==> !Throws(chosenAsset, chosenGateway.value))
      ensures AddressSettled(old(state)) ==> AddressSettled(state)
    {
      ok := true;
      if chosenGateway.Some? && chosenGateway.value != "" {
        ok := GetDepositAddress(chosenAsset, chosenGateway.value);
      }
    }
  }
}
