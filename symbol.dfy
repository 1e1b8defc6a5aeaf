/** The symbol page outside its order book: the bounded newest-first trade
    history and the two suffix rewrites applied to the (upper-cased) symbol
    from the route. */
module Symbol {
  import opened Wrappers
  import opened Text

  /** An aggregated trade as the page keeps it. */
  datatype Trade = Trade(timestamp: int, price: real, quantity: real, buyerMaker: bool)

  /** `exchangeSymbol`: the market's quote suffix is written with an
      underscore; ETH is written "_ETC". */
  function ExchangeSymbol(symbol: string): string {
    ReplaceSuffix(ReplaceSuffix(ReplaceSuffix(ReplaceSuffix(symbol, "BTC", "_BTC"), "ETH", "_ETC"), "BNB", "_BNB"), "USDT", "_USDT")
  }

  /** `baseAsset`: the suffixes BTC, USDT, BNB and ETH removed one after the
      other, each at most once. */
  function BaseAsset(symbol: string): string {
    ReplaceSuffix(ReplaceSuffix(ReplaceSuffix(ReplaceSuffix(symbol, "BTC", ""), "USDT", ""), "BNB", ""), "ETH", "")
  }

  /** The exchange-symbol chain rewrites at most one suffix: the first of
      BTC, ETH, BNB, USDT that the symbol ends with, and leaves other symbols
      alone. */
  lemma ExchangeSymbolRewritesOneSuffix(symbol: string)
    ensures EndsWith(symbol, "BTC") ==>
              ExchangeSymbol(symbol) == symbol[..|symbol| - 3] + "_BTC"
    ensures !EndsWith(symbol, "BTC") && EndsWith(symbol, "ETH") ==>
              ExchangeSymbol(symbol) == symbol[..|symbol| - 3] + "_ETC"
    ensures !EndsWith(symbol, "BTC") && !EndsWith(symbol, "ETH") && EndsWith(symbol, "BNB") ==>
              ExchangeSymbol(symbol) == symbol[..|symbol| - 3] + "_BNB"
    ensures !EndsWith(symbol, "BTC") && !EndsWith(symbol, "ETH") && !EndsWith(symbol, "BNB") &&
            EndsWith(symbol, "USDT") ==>
              ExchangeSymbol(symbol) == symbol[..|symbol| - 4] + "_USDT"
    ensures !EndsWith(symbol, "BTC") && !EndsWith(symbol, "ETH") && !EndsWith(symbol, "BNB") &&
            !EndsWith(symbol, "USDT") ==>
              ExchangeSymbol(symbol) == symbol
  {
    var s1 := ReplaceSuffix(symbol, "BTC", "_BTC");
    if EndsWith(symbol, "BTC") {
      var t := s1[|s1| - 4..];
      assert t == "_BTC";
      assert s1[|s1| - 3..] == "BTC";
      assert !EndsWith(s1, "ETH") by { assert s1[|s1| - 3..][0] == 'B'; }
      assert !EndsWith(s1, "BNB") by { assert s1[|s1| - 3..][1] == 'T'; }
      assert !EndsWith(s1, "USDT") by { assert s1[|s1| - 4..][0] == '_'; }
    } else if EndsWith(symbol, "ETH") {
      var s2 := ReplaceSuffix(s1, "ETH", "_ETC");
      assert s2[|s2| - 3..] == "ETC";
      assert !EndsWith(s2, "BNB") by { assert s2[|s2| - 3..][0] == 'E'; }
      assert !EndsWith(s2, "USDT") by { assert s2[|s2| - 4..][0] == '_'; }
    } else if EndsWith(symbol, "BNB") {
      var s3 := ReplaceSuffix(symbol, "BNB", "_BNB");
      assert s3[|s3| - 4..] == "_BNB";
      assert !EndsWith(s3, "USDT") by { assert s3[|s3| - 4..][0] == '_'; }
    }
  }

  /** The exchange symbol for an ETH market ends in "_ETC". */
  lemma ExchangeSymbolOfEthMarket()
    ensures ExchangeSymbol("NEOETH") == "NEO_ETC"
  {
    var symbol := "NEOETH";
    assert EndsWith(symbol, "ETH") && !EndsWith(symbol, "BTC");
    ExchangeSymbolRewritesOneSuffix(symbol);
    assert symbol[..|symbol| - 3] == "NEO";
  }

  /** The exchange symbol for a BTC market ends in "_BTC". */
  lemma ExchangeSymbolOfBtcMarket()
    ensures ExchangeSymbol("NEOBTC") == "NEO_BTC"
  {
    var symbol := "NEOBTC";
    assert EndsWith(symbol, "BTC");
    ExchangeSymbolRewritesOneSuffix(symbol);
    assert symbol[..|symbol| - 3] == "NEO";
  }

  lemma ReplaceSuffixByEmptyIsPrefix(s: string, suffix: string)
    ensures |ReplaceSuffix(s, suffix, "")| <= |s|
    ensures ReplaceSuffix(s, suffix, "") == s[..|ReplaceSuffix(s, suffix, "")|]
  {
  }

  /** The base asset is always a prefix of the symbol. */
  lemma BaseAssetIsPrefix(symbol: string)
    ensures |BaseAsset(symbol)| <= |symbol|
    ensures BaseAsset(symbol) == symbol[..|BaseAsset(symbol)|]
  {
    var s1 := ReplaceSuffix(symbol, "BTC", "");
    var s2 := ReplaceSuffix(s1, "USDT", "");
    var s3 := ReplaceSuffix(s2, "BNB", "");
    ReplaceSuffixByEmptyIsPrefix(symbol, "BTC");
    ReplaceSuffixByEmptyIsPrefix(s1, "USDT");
    ReplaceSuffixByEmptyIsPrefix(s2, "BNB");
    ReplaceSuffixByEmptyIsPrefix(s3, "ETH");
  }

  lemma StripSuffix(base: string, suffix: string)
    ensures ReplaceSuffix(base + suffix, suffix, "") == base
  {
    assert (base + suffix)[|base + suffix| - |suffix|..] == suffix;
    assert (base + suffix)[..|base|] == base;
  }

  /** Because the suffixes are stripped in sequence, a market quoted in BTC
      whose base is itself ETH or BNB loses its whole name. */
  lemma BaseAssetStripsTwice()
    ensures BaseAsset("ETHBTC") == ""
    ensures BaseAsset("BNBBTC") == ""
  {
    StripSuffix("ETH", "BTC");
    assert "ETH" + "BTC" == "ETHBTC";
    assert !EndsWith("ETH", "USDT") && !EndsWith("ETH", "BNB");
    StripSuffix("", "ETH");
    assert "" + "ETH" == "ETH";
    StripSuffix("BNB", "BTC");
    assert "BNB" + "BTC" == "BNBBTC";
    assert !EndsWith("BNB", "USDT");
    StripSuffix("", "BNB");
    assert "" + "BNB" == "BNB";
    assert !EndsWith("", "ETH");
  }

  /** A USDT market keeps its base asset. */
  lemma BaseAssetOfUsdtMarket()
    ensures BaseAsset("BTCUSDT") == "BTC"
  {
    assert !EndsWith("BTCUSDT", "BTC");
    StripSuffix("BTC", "USDT");
    assert "BTC" + "USDT" == "BTCUSDT";
    assert !EndsWith("BTC", "BNB") && !EndsWith("BTC", "ETH");
  }

  /** A BTC market keeps its base asset. */
  lemma BaseAssetOfBtcMarket()
    ensures BaseAsset("XRPBTC") == "XRP"
  {
    StripSuffix("XRP", "BTC");
    assert "XRP" + "BTC" == "XRPBTC";
    assert !EndsWith("XRP", "USDT") && !EndsWith("XRP", "BNB") && !EndsWith("XRP", "ETH");
  }

  /** The trade list of the symbol page. */
  class SymbolTrades {
    const maxTradeHistory: nat := 20
    var trades: seq<Trade>
    var lastPrice: Option<real>

    constructor ()
      ensures trades == [] && lastPrice == None
    {
      trades := [];
      lastPrice := None;
    }

    /** Puts the trade first, drops the oldest beyond `maxTradeHistory`, and
        takes the newest price as the last price. */
    method AddTrade(trade: Trade)
      modifies this
      ensures |trades| == if |old(trades)| + 1 < maxTradeHistory then |old(trades)| + 1 else maxTradeHistory
      ensures trades == ([trade] + old(trades))[..|trades|]
      ensures lastPrice == Some(trade.price)
    {
      trades := [trade] + trades;
      ghost var full := trades;
      while |trades| > maxTradeHistory
        invariant |trades| >= maxTradeHistory || trades == full
        invariant |trades| <= |full| && trades == full[..|trades|]
        decreases |trades|
      {
        trades := trades[..|trades| - 1];
      }
      lastPrice := Some(trades[0].price);
    }
  }
}
