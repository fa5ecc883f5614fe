/** The string operations the component applies to asset symbols and
    gateway names: `toUpperCase`, `toLowerCase` and `split(".")`. */
module Text {

  import opened Wrappers

  /** Case mapping of one ASCII letter; every other character is kept. */
  function LowerChar(c: char): char
  {
    if 'A' <= c <= 'Z' then (c as int + 32) as char else c
  }

  function UpperChar(c: char): char
  {
    if 'a' <= c <= 'z' then (c as int - 32) as char else c
  }

  /** `String.prototype.toLowerCase` on ASCII letters. */
  function ToLower(s: string): (r: string)
    ensures |r| == |s|
    ensures forall i :: 0 <= i < |s| ==> r[i] == LowerChar(s[i])
    ensures forall i :: 0 <= i < |r| ==> !('A' <= r[i] <= 'Z')
  {
    if s == [] then [] else [LowerChar(s[0])] + ToLower(s[1..])
  }

  /** `String.prototype.toUpperCase` on ASCII letters. */
  function ToUpper(s: string): (r: string)
    ensures |r| == |s|
    ensures forall i :: 0 <= i < |s| ==> r[i] == UpperChar(s[i])
    ensures forall i :: 0 <= i < |r| ==> !('a' <= r[i] <= 'z')
  {
    if s == [] then [] else [UpperChar(s[0])] + ToUpper(s[1..])
  }

  /** The pieces joined back with the separator between them. */
  function Join(parts: seq<string>, sep: char): string
    requires |parts| >= 1
  {
    if |parts| == 1 then parts[0] else parts[0] + [sep] + Join(parts[1..], sep)
  }

  /** `String.prototype.split` with a one-character separator: the maximal
      runs of non-separator characters, an empty piece on either side of
      each separator that has nothing there. */
  function Split(s: string, sep: char): (parts: seq<string>)
    ensures |parts| >= 1
    ensures forall k :: 0 <= k < |parts| ==> sep !in parts[k]
    ensures Join(parts, sep) == s
    ensures |parts| == 1 <==> sep !in s
  {
    if s == [] then [""]
    else
      var rest := Split(s[1..], sep);
      assert s == [s[0]] + s[1..];
      if s[0] == sep then
        [""] + rest
      else
        var parts := [[s[0]] + rest[0]] + rest[1..];
        assert parts[1..] == rest[1..];
        parts
  }

  /** `asset.split(".")[0]`: what comes before the first dot, or all of
      `asset` when it has none. */
  function GatewayPrefix(asset: string): (r: string)
    ensures '.' !in r
    ensures r <= asset
    ensures |r| < |asset| ==> asset[|r|] == '.'
    ensures r == asset <==> '.' !in asset
  {
    var parts := Split(asset, '.');
    assert |parts| > 1 ==> asset == parts[0] + ['.'] + Join(parts[1..], '.');
    parts[0]
  }

  /** `asset.split(".")[1]`: what lies between the first dot and the next
      one (or the end), and `undefined` when `asset` has no dot. */
  function AssetSegment(asset: string): (r: Option<string>)
    ensures r.None? <==> '.' !in asset
    ensures r.Some? ==> '.' !in r.value
    ensures r.Some? ==> GatewayPrefix(asset) + ['.'] + r.value <= asset
    ensures r.Some? ==> var n := |GatewayPrefix(asset)| + 1 + |r.value|;
                        n < |asset| ==> asset[n] == '.'
  {
    var parts := Split(asset, '.');
    if |parts| > 1 then
      var tail := parts[1..];
      assert asset == parts[0] + ['.'] + Join(tail, '.');
      assert |tail| > 1 ==> Join(tail, '.') == parts[1] + ['.'] + Join(tail[1..], '.');
      Some(parts[1])
    else
      None
  }

  /** A separator-free piece followed by the separator splits off as the
      first piece. */
  lemma {:induction false} SplitAfterPiece(piece: string, rest: string, sep: char)
    requires sep !in piece
    ensures Split(piece + [sep] + rest, sep) == [piece] + Split(rest, sep)
  {
    var s := piece + [sep] + rest;
    if piece == [] {
      assert s[1..] == rest;
    } else {
      assert s[1..] == piece[1..] + [sep] + rest;
      SplitAfterPiece(piece[1..], rest, sep);
      assert [s[0]] + piece[1..] == piece;
    }
  }

  /** A string without the separator is its own single piece. */
  lemma SplitWhole(s: string, sep: char)
    requires sep !in s
    ensures Split(s, sep) == [s]
  {
  }

  /** Splitting the qualified name `gateway.coin` gives back the gateway
      and the coin, provided neither contains a dot. */
  lemma QualifiedNameSplits(gateway: string, coin: string)
    requires '.' !in gateway && '.' !in coin
    ensures GatewayPrefix(gateway + "." + coin) == gateway
    ensures AssetSegment(gateway + "." + coin) == Some(coin)
  {
    SplitAfterPiece(gateway, coin, '.');
    SplitWhole(coin, '.');
    assert Split(gateway + "." + coin, '.') == [gateway, coin];
  }
}
