/**
  The market endpoint's GET: with a non-empty `symbol` query parameter, the
  asset whose symbol equals its upper case (404 when there is none); without
  one, every asset with the total market capitalisation.
 */
module MarketRoute {
  import opened Wrappers
  import opened JsBuiltins

  datatype CryptoAsset = CryptoAsset(
    symbol: string, name: string, price: real, marketCap: real,
    volume24h: real, change24h: real, changePercent24h: real, dominance: real)

  const MockCryptos: seq<CryptoAsset> := [
    CryptoAsset("BTC", "Bitcoin", 48250.0, 950e9, 28.5e9, 1250.0, 2.66, 51.2),
    CryptoAsset("ETH", "Ethereum", 2850.0, 342e9, 15.2e9, -85.0, -2.89, 18.5),
    CryptoAsset("SOL", "Solana", 185.5, 85e9, 2.1e9, 12.5, 7.21, 4.6),
    CryptoAsset("XRP", "Ripple", 2.15, 115e9, 1.8e9, 0.18, 9.3, 6.2),
    CryptoAsset("ADA", "Cardano", 0.95, 34e9, 450e6, 0.05, 5.6, 1.8)
  ]

  /** The table's symbols are distinct and already upper case. */
  lemma MockCryptosWellFormed()
    ensures forall i, j :: 0 <= i < j < |MockCryptos| ==> MockCryptos[i].symbol != MockCryptos[j].symbol
    ensures forall i :: 0 <= i < |MockCryptos| ==> ToUpper(MockCryptos[i].symbol) == MockCryptos[i].symbol
  {
  }

  /** Index i holds the first asset whose symbol is key. */
  predicate FirstWith(assets: seq<CryptoAsset>, key: string, i: int) {
    && 0 <= i < |assets|
    && assets[i].symbol == key
    && forall j :: 0 <= j < i ==> assets[j].symbol != key
  }

  /** `assets.find(c => c.symbol === key)`: the first asset with that symbol. */
  function Find(assets: seq<CryptoAsset>, key: string): (r: Option<CryptoAsset>)
    ensures r.None? <==> forall i :: 0 <= i < |assets| ==> assets[i].symbol != key
    ensures r.Some? ==> exists i :: FirstWith(assets, key, i) && assets[i] == r.value
  {
    if assets == [] then None
    else if assets[0].symbol == key then Some(assets[0])
    else
      var r := Find(assets[1..], key);
      assert r.Some? ==> exists i :: FirstWith(assets, key, i) && assets[i] == r.value by {
        if r.Some? {
          var i :| FirstWith(assets[1..], key, i) && assets[1..][i] == r.value;
          assert assets[i + 1] == r.value;
          forall j | 0 <= j < i + 1 ensures assets[j].symbol != key {
            if j > 0 { assert assets[j] == assets[1..][j - 1]; }
          }
          assert FirstWith(assets, key, i + 1);
        }
      }
      r
  }

  /** `assets.reduce((sum, c) => sum + c.marketCap, acc)`: a left fold. */
  function SumMarketCaps(assets: seq<CryptoAsset>, acc: real): (sum: real)
    ensures (forall i :: 0 <= i < |assets| ==> assets[i].marketCap >= 0.0) ==> sum >= acc
    ensures assets == [] ==> sum == acc
  {
    if assets == [] then acc else SumMarketCaps(assets[1..], acc + assets[0].marketCap)
  }

  /** The plain sum of the market capitalisations, element by element from the end. */
  function TotalOf(assets: seq<CryptoAsset>): real {
    if assets == [] then 0.0 else TotalOf(assets[..|assets| - 1]) + assets[|assets| - 1].marketCap
  }

  lemma {:induction false} TotalOfCons(a: CryptoAsset, rest: seq<CryptoAsset>)
    ensures TotalOf([a] + rest) == a.marketCap + TotalOf(rest)
    decreases |rest|
  {
    if rest != [] {
      var last := rest[|rest| - 1];
      assert ([a] + rest)[..|rest|] == [a] + rest[..|rest| - 1];
      TotalOfCons(a, rest[..|rest| - 1]);
    }
  }

  /** The reduce the handler runs adds up exactly the capitalisations, onto its
      starting value. */
  lemma {:induction false} SumMarketCapsIsTotal(assets: seq<CryptoAsset>, acc: real)
    ensures SumMarketCaps(assets, acc) == acc + TotalOf(assets)
  {
    if assets != [] {
      SumMarketCapsIsTotal(assets[1..], acc + assets[0].marketCap);
      assert assets == [assets[0]] + assets[1..];
      TotalOfCons(assets[0], assets[1..]);
    }
  }

  datatype MarketResponse =
    | AssetFound(asset: CryptoAsset)
    | NotFound(status: int, error: string)
    | AllAssets(data: seq<CryptoAsset>, timestamp: int, totalMarketCap: real)

  /** GET /api/market. `symbol` is the query parameter (None when absent); `now`
      is the clock reading the listing is stamped with. */
  function HandleGet(symbol: Option<string>, now: int): (r: MarketResponse)
    ensures symbol.None? || symbol.value == "" ==>
      r == AllAssets(MockCryptos, now, TotalOf(MockCryptos))
    ensures symbol.Some? && symbol.value != "" ==>
      (r.NotFound? <==> forall i :: 0 <= i < |MockCryptos| ==> MockCryptos[i].symbol != ToUpper(symbol.value))
    ensures symbol.Some? && symbol.value != "" ==> r.NotFound? || r.AssetFound?
    ensures r.NotFound? ==> r.status == 404 && r.error == "Cryptocurrency not found"
    ensures r.AssetFound? ==> r.asset in MockCryptos && r.asset.symbol == ToUpper(symbol.value)
  {
    if symbol.Some? && symbol.value != "" then
      match Find(MockCryptos, ToUpper(symbol.value))
      case None => NotFound(404, "Cryptocurrency not found")
      case Some(c) => AssetFound(c)
    else
      SumMarketCapsIsTotal(MockCryptos, 0.0);
      AllAssets(MockCryptos, now, SumMarketCaps(MockCryptos, 0.0))
  }

  /** A symbol in any case finds the one asset with that symbol, which is
      unique because the table's symbols are distinct. */
  lemma FoundAssetIsUnique(symbol: string, now: int, i: nat)
    requires i < |MockCryptos| && ToUpper(symbol) == MockCryptos[i].symbol
    ensures HandleGet(Some(symbol), now) == AssetFound(MockCryptos[i])
  {
    MockCryptosWellFormed();
    assert symbol != "" by {
      assert |ToUpper(symbol)| == |MockCryptos[i].symbol| > 0;
    }
  }

  /** The listing's total is 1,526 billion. */
  lemma TotalMarketCap()
    ensures HandleGet(None, 0).totalMarketCap == 1526e9
  {
    var m := MockCryptos;
    assert TotalOf(m[..1]) == 950e9 by { assert m[..1][..0] == []; }
    assert TotalOf(m[..2]) == 1292e9 by { assert m[..2][..1] == m[..1]; }
    assert TotalOf(m[..3]) == 1377e9 by { assert m[..3][..2] == m[..2]; }
    assert TotalOf(m[..4]) == 1492e9 by { assert m[..4][..3] == m[..3]; }
    assert m[..5] == m;
    assert TotalOf(m) == 1526e9 by { assert m[..4] == m[..|m| - 1]; }
  }
}
