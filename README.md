# Deposit address resolution of the BitShares deposit dialog

This project models `DepositModalContent`, the body of the BitShares wallet's
deposit dialog. The component takes the account being funded and an asset,
optionally qualified by a gateway (`OPEN.BTC`, `RUDEX.EOS`). It then works out
where the user should send coins:

- with no gateway, directly to the account;
- through the OpenLedger gateway (`OPEN`), to an address taken from the
  deposit-address cache or else requested from the gateway;
- through the RuDEX gateway (`RUDEX`), to the gateway's fixed wallet, with the
  memo `dex:<account>`.

The model has five modules:

- `Wrappers` holds the `Option` type. Each declaration that uses it says
  whether `None` stands for `null`, for `undefined`, or for either where the
  component only tests truthiness.
- `Text` covers the string operations the component applies to asset and gateway
  names: ASCII `toUpperCase` and `toLowerCase`, and `split(".")` together with
  its first two pieces.
- `Catalog` covers the `backedCoins` property and the `find` that picks a
  gateway's backing coin for the selected asset.
- `DepositModal` holds the component as a class. Its properties are constant
  fields. `this.state` is a single datatype field, and each `setState` call is a
  datatype update that overwrites the fields it names, applied in program order.
  The collaborators are three fields: the address cache is a map, the
  `requestDepositAddress` calls are a sequence of recorded requests, and the
  console diagnostics are a sequence of strings. The two-state predicate
  `Resolved` states the whole outcome of `_getDepositAddress`, and every entry
  point that resolves promises it. The predicate `AddressSettled` is the
  component's state invariant: while a fetch is in progress, the stored
  address is `null`. The deposit details in `render` (lines 303-306) show
  the stored address without testing the fetching flag, so this is what
  keeps an address from showing during a fetch. The constructor and
  `_getDepositAddress` establish it, and every other transition keeps it.
- `Scenarios` are client runs over arbitrary accounts and coins. Each one
  concludes, from the contracts alone, what happens on a particular path.

The component has no guard against stale request callbacks, and the model keeps
that. `addDepositAddress` files the address under the selection that is current
when the callback runs, not the one the request was made for, and shows it.
`CallbackWriteIsRead` characterises exactly which later lookup reads such an
entry. `StaleCallback` shows the result: a slow answer for one coin is displayed
and cached as the address of the coin the user picked afterwards. Nothing in the
component ties a callback to the request that produced it (`DepositModal.jsx`
line 178 reads the selection at callback time).

A catalogue record may lack `backingCoinType` or `backingCoin`. Strict equality
then matches that record against an `undefined` asset, which is what a bare
gateway name such as `OPEN` selects. At OpenLedger the component then throws
on `selectedAsset.toLowerCase()`. The model keeps this path: `Throws` names it,
and the entry points report it as `ok == false`.

## Model

| member | source | states |
|---|---|---|
| Text.ToLower | app/components/Modal/DepositModal.jsx:134-137 | `toLowerCase` keeps the length and maps every character to its lower case (ASCII letters). |
| Text.ToUpper | app/components/Modal/DepositModal.jsx:108 | `toUpperCase` keeps the length and maps every character to its upper case (ASCII letters). |
| Text.Split | app/components/Modal/DepositModal.jsx:64 | `split(".")` gives at least one piece. No piece contains the separator, joining the pieces with the separator gives back the input, and there is one piece exactly when the input has no separator. |
| Text.GatewayPrefix | app/components/Modal/DepositModal.jsx:64-65 | `backedAsset[0]` is the longest dot-free prefix of the asset. It is followed by a dot unless it is the whole asset, and it is the whole asset exactly when the asset has no dot. |
| Text.AssetSegment | app/components/Modal/DepositModal.jsx:70 | `backedAsset[1]` is `undefined` exactly when the asset has no dot. Otherwise it is the dot-free text after the first dot, up to the next dot or the end. |
| Text.SplitAfterPiece | app/components/Modal/DepositModal.jsx:64 | A dot-free piece followed by a dot splits off as the first piece, ahead of the pieces of the rest. |
| Text.QualifiedNameSplits | app/components/Modal/DepositModal.jsx:64-71 | For a dot-free gateway and coin, `gateway.coin` splits back into that gateway and that coin. |
| Catalog.FirstBacking | app/components/Modal/DepositModal.jsx:109-114 | The position `find` stops at: the first coin whose `backingCoinType` or `backingCoin` strictly equals the asset (a missing field equals an `undefined` asset). No earlier coin matches, and there is no position only when no coin matches. |
| Catalog.FindBackingAsset | app/components/Modal/DepositModal.jsx:107-114 | The backing asset is the first matching coin of `backedCoins[upper(gateway)]`, and none when the key is absent. The result is none exactly when no listed coin backs the asset. A coin found for an `undefined` asset lacks one of its coin fields. |
| DepositModal.CallbackWriteIsRead | app/components/Modal/DepositModal.jsx:181-185 | The key the callback writes equals the key an OPEN lookup for `asset` reads exactly when the current gateway lower-cases to `open` and the current asset lower-cases like `asset`. |
| DepositModal.OutputCoinShape | app/components/Modal/DepositModal.jsx:135-137 | The output coin `g.x` equals `open.y` for equally long `x` and `y` exactly when `g` is `open` and `x` is `y`. |
| DepositModal.DepositModalContent.constructor | app/components/Modal/DepositModal.jsx:22-53 | The initial state is: address `""`, asset `""`, no gateway, not fetching, no backing asset, and OPEN and RUDEX both disabled. The cache starts from the stored entries, and no request or diagnostic exists yet. The state starts with `AddressSettled`: no fetch in progress has an address ready to show. |
| DepositModal.DepositModalContent.GetDepositAddress | app/components/Modal/DepositModal.jsx:97-175 | `Resolved`: when an `undefined` asset finds a backing coin at OPEN, `toLowerCase` throws (`ok` false). The first two `setState` calls stand: fetching, no address, the new gateway table and `isOpenledger`; nothing else changes. On every other path the gateway table, the asset and the gateway are recorded. With no backing asset, the method ends with no address, not fetching, and the previous backing asset. At OPEN, a cache hit shows the cached address and stops fetching. A miss sends exactly one request (lower(asset) to `open.`+lower(asset), paid to the account) and stays fetching with no address. At RUDEX, it returns the wallet with memo `dex:<account>`. At any other gateway, it logs once (an `undefined` asset prints as `undefined`) and stays fetching. Whenever it returns normally, the top of `render` (lines 205-210) then uses a gateway and shows the stored address. On every path, including the throw, it ends in `AddressSettled`: while fetching, the address is `null`. |
| DepositModal.DepositModalContent.AddDepositAddress | app/components/Modal/DepositModal.jsx:177-193 | The callback caches the address and memo under the current selection's key and shows the address, not fetching. Nothing else changes, and the selection is not checked against the request. With no asset or no gateway selected it throws and changes nothing. It keeps `AddressSettled`. |
| DepositModal.DepositModalContent.ComponentWillMount | app/components/Modal/DepositModal.jsx:59-76 | With no asset, nothing changes. If the first segment is a key of the gateway table, it resolves (second segment, first segment) and throws exactly when that resolution does. Otherwise only the asset changes, to BTS. It keeps `AddressSettled`. |
| DepositModal.DepositModalContent.OnGatewayChanged | app/components/Modal/DepositModal.jsx:82-85 | An empty value changes nothing. Any other value resolves the current asset at that gateway, and throws exactly when that resolution does. It keeps `AddressSettled`. |
| DepositModal.DepositModalContent.OnAssetSelected | app/components/Modal/DepositModal.jsx:87-95 | When the mixin's answer names a gateway, the component resolves its asset there, and throws exactly when that resolution does. Otherwise nothing changes. It keeps `AddressSettled`. |
| Scenarios.MountOpenLedgerMiss | app/components/Modal/DepositModal.jsx:127-145 | Mounting with `OPEN.<coin>` and an empty cache sends the single request (lower(coin), `open.`+lower(coin), account), with no address shown and fetching in progress. |
| Scenarios.CallbackThenCacheHit | app/components/Modal/DepositModal.jsx:131-151 | After the callback shows an address, resolving the same coin at OPEN again shows the cached copy and sends no second request. |
| Scenarios.MountRudex | app/components/Modal/DepositModal.jsx:152-160 | Mounting with `RUDEX.<coin>` shows `{wallet, dex:<account>}` at once, not fetching, with no request and no cache entry. |
| Scenarios.StaleCallback | app/components/Modal/DepositModal.jsx:177-193 | After a switch to a second OPEN coin, the first coin's late answer is shown and cached under the key the second coin's lookup reads. |
| Scenarios.MountDirect | app/components/Modal/DepositModal.jsx:205-210 | Mounting with an asset that names no gateway selects BTS (lines 73-75), and the top of `render` then uses no gateway and deposits straight to `{address: account}`. |
| Scenarios.LowerCaseGateway | app/components/Modal/DepositModal.jsx:161-168 | A gateway spelt `open` finds its coin through the upper-cased catalogue key. It still takes the unknown-gateway branch: one diagnostic, no address, fetching, with no request outstanding. |
| Scenarios.MountBareGateway | app/components/Modal/DepositModal.jsx:116-125 | Mounting with a bare `OPEN`, when every catalogue record defines both coin fields, selects an `undefined` asset and the OPEN gateway. It ends with no address, not fetching, and no request. |
| Scenarios.MountBareGatewayThrows | app/components/Modal/DepositModal.jsx:109-134 | Mounting with a bare `OPEN` when the OPEN list holds a record without `backingCoin` throws. The component is left fetching, with no address, no gateway selected and no request. |

## Left out

- JSX rendering is left out, along with QR codes, translated strings, CSS, copy buttons, the loading indicator and the gateway selector. This is presentation only.
- Opening and closing the dialog (`onClose`, `ZfApi.publish`) and the `DepositModal` wrapper class are left out as dialog chrome.
- The minimum-deposit and fee texts are left out: they depend on floating-point formatting of `minAmount`, `precision` and `gateFee`.
- React's batched, asynchronous `setState` is left out, and so is `shouldComponentUpdate`. Each `setState` takes effect at once, in program order.
- The deposit-address cache is a map that starts from stored entries. Its persistence and internals are not modelled. A lookup hits exactly when an entry is present under the key.
- `requestDepositAddress` is recorded, not performed. The network, its failures and its timing are not modelled. The callback may be invoked at any time and any number of times, by calling `AddDepositAddress`.
- `_getAvailableGateways` is an arbitrary function of the asset, fixed when the component is built, because its source is not part of this model. Each gateway entry keeps only its `enabled` flag; the name, support URL and `selected` fields are dropped.
- `DepositModal.DepositModalContent.OnAssetSelected`: the answer of `_onAssetSelected` is a parameter, and any state that mixin writes itself is not modelled, because its source is not part of this model.
- `DepositModal.DepositModalContent.OnAssetSelected`: a `null` asset from `_onAssetSelected` is not modelled. `None` as an asset means `undefined`, the only absent asset this component produces itself (line 70). A `null` asset would match no catalogue record, while the model's `None` matches a record that lacks a coin field.
- `Catalog.Backs`: a catalogue coin field set to `null` is not modelled, only a missing (`undefined`) one. Strict equality tells the two apart, and `Option` does not.
- `_getNumberAvailableGateways` and `gatewaySelector` only feed the view, and are left out.
- `Text.ToLower` maps ASCII letters only. JavaScript's full Unicode lower-case mapping, which can change a string's length, is not modelled.
- `Text.ToUpper` maps ASCII letters only. JavaScript's full Unicode upper-case mapping, which can change a string's length, is not modelled.
- `DepositModal.DepositModalContent.ComponentWillMount` treats only the gateway table's own keys as gateways. JavaScript's property lookup would also find inherited names such as `constructor` or `toString`, and the model does not capture that.
- `DepositModal.DepositModalContent.AddDepositAddress` reports the `TypeError` thrown for a missing asset or gateway as `ok == false`, and `GetDepositAddress` and its callers report theirs the same way. Where these exceptions go afterwards is not modelled.
- The `account` property is taken to be a string, and it is never `undefined`.
