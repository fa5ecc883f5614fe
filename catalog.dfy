/** The `backedCoins` property: for each gateway (keyed by its upper-case
    name) the list of coins it backs, and the lookup the component makes
    in it. */
module Catalog {

  import opened Wrappers
  import Text

  /** One entry of a gateway's backing-coin list, reduced to the fields the
      address resolution reads. A record may lack either coin field, which
      then reads as `undefined` (`None`); a field set to `null` is not
      modelled. A record is taken to carry a `gatewayWallet`. */
  datatype BackingCoin = BackingCoin(backingCoinType: Option<string>, backingCoin: Option<string>, gatewayWallet: string)

  type BackedCoins = map<string, seq<BackingCoin>>

  /** The `find` predicate: strict equality of either coin field with the
      selected asset (`None` is `undefined`). An `undefined` asset equals
      no string, but it does equal a field the record lacks. */
  predicate Backs(coin: BackingCoin, asset: Option<string>)
  {
    coin.backingCoinType == asset || coin.backingCoin == asset
  }

  /** `backedCoins.get(gateway.toUpperCase(), [])`. */
  function CoinsOf(backedCoins: BackedCoins, gateway: string): seq<BackingCoin>
  {
    var key := Text.ToUpper(gateway);
    if key in backedCoins then backedCoins[key] else []
  }

  /** Position of the first coin that backs `asset`. */
  function FirstBacking(coins: seq<BackingCoin>, asset: Option<string>): (r: Option<nat>)
    ensures r.Some? ==> r.value < |coins| && Backs(coins[r.value], asset)
    ensures r.Some? ==> forall j :: 0 <= j < r.value ==> !Backs(coins[j], asset)
    ensures r.None? ==> forall j :: 0 <= j < |coins| ==> !Backs(coins[j], asset)
  {
    if coins == [] then None
    else if Backs(coins[0], asset) then Some(0)
    else match FirstBacking(coins[1..], asset)
      case None => None
      case Some(i) => Some(i + 1)
  }

  /** The backing asset of `asset` at `gateway`: the first coin of the
      gateway's list that backs it, none (the `undefined` of `find`) when
      no coin does or the gateway has no list. */
  function FindBackingAsset(backedCoins: BackedCoins, gateway: string, asset: Option<string>): (r: Option<BackingCoin>)
    ensures r.Some? ==> Backs(r.value, asset)
    ensures r.Some? && asset.None? ==> r.value.backingCoinType.None? || r.value.backingCoin.None?
    ensures r.None? <==> forall c :: c in CoinsOf(backedCoins, gateway) ==> !Backs(c, asset)
    ensures r.Some? ==> var coins := CoinsOf(backedCoins, gateway);
                        exists i :: 0 <= i < |coins| && coins[i] == r.value &&
                                    forall j :: 0 <= j < i ==> !Backs(coins[j], asset)
    ensures Text.ToUpper(gateway) !in backedCoins ==> r.None?
  {
    var coins := CoinsOf(backedCoins, gateway);
    match FirstBacking(coins, asset)
    case None => None
    case Some(i) => Some(coins[i])
  }
}
