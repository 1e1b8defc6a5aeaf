/** The per-minute volume histogram: 60 buckets of trade counts and
    quote-asset volumes, split into buyer-taker ("buy") and buyer-maker
    ("sell") trades, indexed by the trade's age in whole minutes. Ages are
    milliseconds; for non-negative ages, nanosecond clock readings truncate
    to the same bucket. */
module VolumeHistogram {
  import opened Tracking

  const BucketCount := 60

  /** `int(age.Truncate(time.Minute).Minutes())`: whole minutes of the
      age, rounded toward zero. */
  function AgeBucket(now: int, timestamp: int): int {
    var age := now - timestamp;
    if age >= 0 then age / MinuteMs else -((-age) / MinuteMs)
  }

  /** A trade of non-negative age lands in the bucket of its whole minutes;
      a trade less than a minute in the future lands in bucket 0; one a
      minute or more in the future gets a negative bucket. */
  lemma AgeBucketMinutes(now: int, timestamp: int)
    ensures now - timestamp >= 0 ==>
              AgeBucket(now, timestamp) * MinuteMs <= now - timestamp < (AgeBucket(now, timestamp) + 1) * MinuteMs
    ensures -MinuteMs < now - timestamp < 0 ==> AgeBucket(now, timestamp) == 0
    ensures now - timestamp <= -MinuteMs ==> AgeBucket(now, timestamp) < 0
  {
  }

  class VolumeHistogramCalculator {
    var tradeCount: array<nat>
    var sellTradeCount: array<nat>
    var buyTradeCount: array<nat>
    var volume: array<real>
    var sellVolume: array<real>
    var buyVolume: array<real>

    /** Six distinct arrays of 60 buckets. */
    ghost predicate Valid()
      reads this
    {
      && tradeCount.Length == BucketCount && sellTradeCount.Length == BucketCount
      && buyTradeCount.Length == BucketCount && volume.Length == BucketCount
      && sellVolume.Length == BucketCount && buyVolume.Length == BucketCount
      && tradeCount != sellTradeCount && tradeCount != buyTradeCount && sellTradeCount != buyTradeCount
      && volume != sellVolume && volume != buyVolume && sellVolume != buyVolume
    }

    /** Every bucket's count and volume are its buy and sell parts added. */
    ghost predicate Balanced()
      reads this, tradeCount, sellTradeCount, buyTradeCount, volume, sellVolume, buyVolume
      requires Valid()
    {
      forall b :: 0 <= b < BucketCount ==>
        tradeCount[b] == buyTradeCount[b] + sellTradeCount[b] && volume[b] == buyVolume[b] + sellVolume[b]
    }

    /** `NewVolumeHistogramCalculator`: every bucket of every array zero. */
    constructor()
      ensures Valid() && Balanced()
      ensures forall b :: 0 <= b < BucketCount ==>
                tradeCount[b] == 0 && sellTradeCount[b] == 0 && buyTradeCount[b] == 0 &&
                volume[b] == 0.0 && sellVolume[b] == 0.0 && buyVolume[b] == 0.0
    {
      tradeCount := new nat[BucketCount](_ => 0);
      sellTradeCount := new nat[BucketCount](_ => 0);
      buyTradeCount := new nat[BucketCount](_ => 0);
      volume := new real[BucketCount](_ => 0.0);
      sellVolume := new real[BucketCount](_ => 0.0);
      buyVolume := new real[BucketCount](_ => 0.0);
    }

    /** `AddTrade` at wall-clock time `now`, with the trade's quote-asset
        quantity. A trade in a bucket below 60 adds one to the count and
        its quantity to the volume of that bucket only, on the sell side for
        a buyer-maker trade and on the buy side otherwise; an older trade
        changes nothing. A trade a minute or more in the future indexes a
        negative bucket, which panics before anything changes. */
    method AddTrade(trade: Trade, quote: real, now: int) returns (panicked: bool)
      requires Valid()
      modifies tradeCount, sellTradeCount, buyTradeCount, volume, sellVolume, buyVolume
      ensures panicked <==> AgeBucket(now, trade.timestamp) < 0
      ensures var b := AgeBucket(now, trade.timestamp);
              b < 0 ==>
                tradeCount[..] == old(tradeCount[..]) && volume[..] == old(volume[..]) &&
                sellTradeCount[..] == old(sellTradeCount[..]) && buyTradeCount[..] == old(buyTradeCount[..]) &&
                sellVolume[..] == old(sellVolume[..]) && buyVolume[..] == old(buyVolume[..])
      ensures var b := AgeBucket(now, trade.timestamp);
              b >= BucketCount ==>
                tradeCount[..] == old(tradeCount[..]) && volume[..] == old(volume[..]) &&
                sellTradeCount[..] == old(sellTradeCount[..]) && buyTradeCount[..] == old(buyTradeCount[..]) &&
                sellVolume[..] == old(sellVolume[..]) && buyVolume[..] == old(buyVolume[..])
      ensures var b := AgeBucket(now, trade.timestamp);
              0 <= b < BucketCount ==>
                tradeCount[..] == old(tradeCount[..])[b := old(tradeCount[b]) + 1] &&
                volume[..] == old(volume[..])[b := old(volume[b]) + quote]
      ensures var b := AgeBucket(now, trade.timestamp);
              0 <= b < BucketCount && trade.buyerMaker ==>
                sellTradeCount[..] == old(sellTradeCount[..])[b := old(sellTradeCount[b]) + 1] &&
                sellVolume[..] == old(sellVolume[..])[b := old(sellVolume[b]) + quote] &&
                buyTradeCount[..] == old(buyTradeCount[..]) && buyVolume[..] == old(buyVolume[..])
      ensures var b := AgeBucket(now, trade.timestamp);
              0 <= b < BucketCount && !trade.buyerMaker ==>
                buyTradeCount[..] == old(buyTradeCount[..])[b := old(buyTradeCount[b]) + 1] &&
                buyVolume[..] == old(buyVolume[..])[b := old(buyVolume[b]) + quote] &&
                sellTradeCount[..] == old(sellTradeCount[..]) && sellVolume[..] == old(sellVolume[..])
      ensures Valid() && (old(Balanced()) ==> Balanced())
    {
      var age := now - trade.timestamp;
      var bucket := if age >= 0 then age / MinuteMs else -((-age) / MinuteMs);
      assert bucket == AgeBucket(now, trade.timestamp);
      if bucket < 0 {
        return true;
      }
      panicked := false;
      if bucket < BucketCount {
        ghost var balanced := Balanced();
        tradeCount[bucket] := tradeCount[bucket] + 1;
        volume[bucket] := volume[bucket] + quote;
        if trade.buyerMaker {
          sellVolume[bucket] := sellVolume[bucket] + quote;
          sellTradeCount[bucket] := sellTradeCount[bucket] + 1;
        } else {
          buyVolume[bucket] := buyVolume[bucket] + quote;
          buyTradeCount[bucket] := buyTradeCount[bucket] + 1;
        }
        assert balanced ==> Balanced();
      }
    }
  }
}
