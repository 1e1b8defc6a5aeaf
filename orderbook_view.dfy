/** The order-book table of the symbol page: it shows the first 20 levels of
    each side it is given and the average amount of the shown levels. A
    division 0 / 0 (no levels) is JavaScript's NaN, here `None`. */
module OrderBookView {
  import opened Wrappers
  import opened OrderBook

  const DisplayCount: nat := 20

  /** The sum of the quantities of `levels`. */
  function SumQty(levels: seq<Level>): real
    decreases |levels|
  {
    if levels == [] then 0.0 else SumQty(levels[..|levels| - 1]) + levels[|levels| - 1].qty
  }

  /** The average of the shown amounts as the table computes it: the loop
      stops one level short, so the last level's amount is left out of the
      sum but counted in the divisor. */
  function AverageAsWritten(levels: seq<Level>): Option<real> {
    if levels == [] then None
    else Some(SumQty(levels[..|levels| - 1]) / |levels| as real)
  }

  /** The mean amount of the shown levels. */
  function Mean(levels: seq<Level>): Option<real> {
    if levels == [] then None else Some(SumQty(levels) / |levels| as real)
  }

  lemma {:induction false} SumQtyBounds(levels: seq<Level>, lo: real, hi: real)
    requires forall i :: 0 <= i < |levels| ==> lo <= levels[i].qty <= hi
    ensures lo * |levels| as real <= SumQty(levels) <= hi * |levels| as real
    decreases |levels|
  {
    if levels != [] {
      var n := |levels| - 1;
      SumQtyBounds(levels[..n], lo, hi);
      assert levels[..n] + [levels[n]] == levels;
    }
  }

  /** The mean lies between the smallest and the largest amount shown. */
  lemma MeanWithinBounds(levels: seq<Level>, lo: real, hi: real)
    requires forall i :: 0 <= i < |levels| ==> lo <= levels[i].qty <= hi
    ensures levels != [] ==> Mean(levels).Some? && lo <= Mean(levels).value <= hi
  {
    if levels != [] {
      SumQtyBounds(levels, lo, hi);
      var n := |levels| as real;
      assert lo * n <= SumQty(levels) <= hi * n;
      assert lo <= SumQty(levels) / n <= hi by {
        assert SumQty(levels) / n * n == SumQty(levels);
      }
    }
  }

  /** One level with amount 5: the table shows an average amount of 0. */
  lemma AverageAsWrittenDropsLastLevel()
    ensures AverageAsWritten([Level(1.0, 5.0)]) == Some(0.0)
    ensures Mean([Level(1.0, 5.0)]) == Some(5.0)
  {
    assert [Level(1.0, 5.0)][..0] == [];
    assert SumQty([Level(1.0, 5.0)]) == 5.0;
  }

  /** The averaging loop of `ngOnChanges`, as written. */
  method AverageAmountAsWritten(levels: seq<Level>) returns (average: Option<real>)
    ensures average == AverageAsWritten(levels)
  {
    var total := 0.0;
    var n := |levels| - 1;
    var i := 0;
    while i < n
      invariant 0 <= i && (i <= n || i == 0)
      invariant n >= 0 ==> total == SumQty(levels[..i])
      invariant n < 0 ==> total == 0.0
    {
      assert levels[..i + 1][..i] == levels[..i];
      total := total + levels[i].qty;
      i := i + 1;
    }
    if |levels| == 0 {
      average := None;
    } else {
      average := Some(total / |levels| as real);
    }
  }

  /** The average with every shown level summed. */
  method MeanAmount(levels: seq<Level>) returns (average: Option<real>)
    ensures average == Mean(levels)
  {
    var total := 0.0;
    for i := 0 to |levels|
      invariant total == SumQty(levels[..i])
    {
      assert levels[..i + 1][..i] == levels[..i];
      total := total + levels[i].qty;
    }
    assert levels[..|levels|] == levels;
    if |levels| == 0 {
      average := None;
    } else {
      average := Some(total / |levels| as real);
    }
  }

  class OrderbookComponent {
    /** The sides handed in by the page. */
    var inputBids: seq<Level>
    var inputAsks: seq<Level>
    /** The sides shown. */
    var bids: seq<Level>
    var asks: seq<Level>
    var averageBidAmount: Option<real>
    var averageAskAmount: Option<real>

    constructor (inputBids: seq<Level>, inputAsks: seq<Level>)
      ensures this.inputBids == inputBids && this.inputAsks == inputAsks
      ensures bids == [] && asks == []
      ensures averageBidAmount == Some(0.0) && averageAskAmount == Some(0.0)
    {
      this.inputBids := inputBids;
      this.inputAsks := inputAsks;
      bids := [];
      asks := [];
      averageBidAmount := Some(0.0);
      averageAskAmount := Some(0.0);
    }

    /** Shows the first 20 levels of each input and their averages, leaving
        the inputs as they are. */
    method NgOnChanges()
      modifies this
      ensures inputBids == old(inputBids) && inputAsks == old(inputAsks)
      ensures bids == inputBids[..if |inputBids| < DisplayCount then |inputBids| else DisplayCount]
      ensures asks == inputAsks[..if |inputAsks| < DisplayCount then |inputAsks| else DisplayCount]
      ensures averageBidAmount == AverageAsWritten(bids)
      ensures averageAskAmount == AverageAsWritten(asks)
    {
      bids := inputBids[..if |inputBids| < DisplayCount then |inputBids| else DisplayCount];
      asks := inputAsks[..if |inputAsks| < DisplayCount then |inputAsks| else DisplayCount];
      averageBidAmount := AverageAmountAsWritten(bids);
      averageAskAmount := AverageAmountAsWritten(asks);
    }
  }
}
