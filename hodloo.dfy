/** The `hodlooLink` pipe: a market symbol becomes a link to its chart on
    Hodloo, with a hyphen before the quote asset and everything lower-cased. */
module Hodloo {
  import opened Text

  const HodlooPrefix := "https://qft.hodloo.com/#/binance:"

  /** The four anchored replacements, in the order the pipe applies them. */
  function Hyphenated(value: string): string {
    ReplaceSuffix(ReplaceSuffix(ReplaceSuffix(ReplaceSuffix(value, "BTC", "-BTC"), "ETH", "-ETH"), "USDT", "-USDT"), "BNB", "-BNB")
  }

  /** `transform(value, exchange)`; the exchange argument is accepted and
      not used. */
  function HodlooLink(value: string, exchange: string): string {
    HodlooPrefix + Lower(Hyphenated(value))
  }

  /** At most one suffix gets a hyphen: the first of BTC, ETH, USDT, BNB
      that the symbol ends with; a symbol with none of them is unchanged. */
  lemma HyphenatedOneSuffix(value: string)
    ensures EndsWith(value, "BTC") ==>
              Hyphenated(value) == value[..|value| - 3] + "-BTC"
    ensures !EndsWith(value, "BTC") && EndsWith(value, "ETH") ==>
              Hyphenated(value) == value[..|value| - 3] + "-ETH"
    ensures !EndsWith(value, "BTC") && !EndsWith(value, "ETH") && EndsWith(value, "USDT") ==>
              Hyphenated(value) == value[..|value| - 4] + "-USDT"
    ensures !EndsWith(value, "BTC") && !EndsWith(value, "ETH") && !EndsWith(value, "USDT") &&
            EndsWith(value, "BNB") ==>
              Hyphenated(value) == value[..|value| - 3] + "-BNB"
    ensures !EndsWith(value, "BTC") && !EndsWith(value, "ETH") && !EndsWith(value, "USDT") &&
            !EndsWith(value, "BNB") ==>
              Hyphenated(value) == value
  {
    if EndsWith(value, "BTC") {
      HyphenatedBtc(value);
    } else if EndsWith(value, "ETH") {
      HyphenatedEth(value);
    } else if EndsWith(value, "USDT") {
      HyphenatedUsdt(value);
    }
  }

  /** A string with a replacement appended ends with `y` exactly when the
      replacement does. */
  lemma EndsWithAppended(p: string, repl: string, y: string)
    requires |y| <= |repl|
    ensures EndsWith(p + repl, y) <==> EndsWith(repl, y)
  {
    assert (p + repl)[|p + repl| - |y|..] == repl[|repl| - |y|..];
  }

  /** A BTC market: only the BTC suffix gets a hyphen. */
  lemma HyphenatedBtc(value: string)
    requires EndsWith(value, "BTC")
    ensures Hyphenated(value) == value[..|value| - 3] + "-BTC"
  {
    var p := value[..|value| - 3];
    EndsWithAppended(p, "-BTC", "ETH");
    EndsWithAppended(p, "-BTC", "USDT");
    EndsWithAppended(p, "-BTC", "BNB");
    assert !EndsWith("-BTC", "ETH") && !EndsWith("-BTC", "USDT") && !EndsWith("-BTC", "BNB");
  }

  /** An ETH market: only the ETH suffix gets a hyphen. */
  lemma HyphenatedEth(value: string)
    requires !EndsWith(value, "BTC") && EndsWith(value, "ETH")
    ensures Hyphenated(value) == value[..|value| - 3] + "-ETH"
  {
    var p := value[..|value| - 3];
    EndsWithAppended(p, "-ETH", "USDT");
    EndsWithAppended(p, "-ETH", "BNB");
    assert !EndsWith("-ETH", "USDT") && !EndsWith("-ETH", "BNB");
  }

  /** A USDT market: only the USDT suffix gets a hyphen. */
  lemma HyphenatedUsdt(value: string)
    requires !EndsWith(value, "BTC") && !EndsWith(value, "ETH") && EndsWith(value, "USDT")
    ensures Hyphenated(value) == value[..|value| - 4] + "-USDT"
  {
    var p := value[..|value| - 4];
    EndsWithAppended(p, "-USDT", "BNB");
    assert !EndsWith("-USDT", "BNB");
  }

  /** The link always starts with the Hodloo prefix, and what follows is
      the hyphenated symbol, lower-cased, whatever the exchange. */
  lemma HodlooLinkShape(value: string, exchange: string)
    ensures StartsWith(HodlooLink(value, exchange), HodlooPrefix)
    ensures var tail := HodlooLink(value, exchange)[|HodlooPrefix|..];
            |tail| == |Hyphenated(value)| &&
            forall i :: 0 <= i < |tail| ==> tail[i] == LowerChar(Hyphenated(value)[i]) && !('A' <= tail[i] <= 'Z')
  {
    var h := Hyphenated(value);
    assert HodlooLink(value, exchange)[|HodlooPrefix|..] == Lower(h);
    assert HodlooLink(value, exchange)[..|HodlooPrefix|] == HodlooPrefix;
  }

  /** "ETHBTC" is hyphenated as "ETH-BTC": only the BTC suffix is. */
  lemma HyphenatedEthBtc()
    ensures Hyphenated("ETHBTC") == "ETH-BTC"
  {
    var value := "ETHBTC";
    assert EndsWith(value, "BTC");
    HyphenatedBtc(value);
    assert value[..|value| - 3] == "ETH";
  }

  /** "ETHBTC" is linked as "eth-btc". */
  lemma HodlooLinkOfEthBtc(exchange: string)
    ensures HodlooLink("ETHBTC", exchange) == HodlooPrefix + "eth-btc"
  {
    HyphenatedEthBtc();
    LowerEthBtc();
  }

  /** Lower-casing changes the letters only, keeping the hyphen. */
  lemma LowerEthBtc()
    ensures Lower("ETH-BTC") == "eth-btc"
  {
    var l := Lower("ETH-BTC");
    assert forall i :: 0 <= i < 7 ==> l[i] == LowerChar("ETH-BTC"[i]);
  }
}
