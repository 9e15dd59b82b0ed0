/**
 * The candle record (`KLine` in src/models/kline.rs): creation from a first
 * trade, extension by later trades while open, and closing.
 */
module KLineModel {
  import opened TimeIntervals

  datatype KLine = KLine(
    token: string,
    timestamp: int,          // start of the bucket
    interval: TimeInterval,
    open: real,
    high: real,
    low: real,
    close: real,
    volume: real,
    isClosed: bool)

  /** `f64::max` on exact reals: the larger argument. */
  function Max(a: real, b: real): (r: real)
    ensures a <= r && b <= r
    ensures r == a || r == b
  {
    if a < b then b else a
  }

  /** `f64::min` on exact reals: the smaller argument. */
  function Min(a: real, b: real): (r: real)
    ensures r <= a && r <= b
    ensures r == a || r == b
  {
    if b < a then b else a
  }

  /** The OHLC invariant: low <= min(open, close) <= max(open, close) <= high. */
  predicate OhlcValid(k: KLine)
  {
    k.low <= Min(k.open, k.close) && Max(k.open, k.close) <= k.high
  }

  /** `KLine::new`: a candle opened by its first trade. */
  function New(token: string, timestamp: int, interval: TimeInterval, price: real, volume: real): (k: KLine)
    ensures k.token == token && k.timestamp == timestamp && k.interval == interval
    ensures k.open == price && k.high == price && k.low == price && k.close == price
    ensures k.volume == volume && !k.isClosed
    ensures OhlcValid(k)
  {
    KLine(token, timestamp, interval, price, price, price, price, volume, false)
  }

  /**
   * `KLine::update`: an open candle takes the trade into its high, low, close and
   * volume; a closed candle ignores it.
   */
  function Update(k: KLine, price: real, volume: real): (r: KLine)
    ensures r.token == k.token && r.timestamp == k.timestamp && r.interval == k.interval
    ensures r.open == k.open && r.isClosed == k.isClosed
    ensures k.isClosed ==> r == k
    ensures !k.isClosed ==> r.close == price && r.volume == k.volume + volume
    ensures !k.isClosed ==> k.high <= r.high && price <= r.high && (r.high == k.high || r.high == price)
    ensures !k.isClosed ==> r.low <= k.low && r.low <= price && (r.low == k.low || r.low == price)
    ensures OhlcValid(k) ==> OhlcValid(r)
  {
    if k.isClosed then k
    else k.(high := Max(k.high, price), low := Min(k.low, price), close := price, volume := k.volume + volume)
  }

  /** `KLine::close`: mark the candle completed, nothing else changes. */
  function Close(k: KLine): (r: KLine)
    ensures r.isClosed
    ensures r.(isClosed := k.isClosed) == k
    ensures OhlcValid(k) ==> OhlcValid(r)
  {
    k.(isClosed := true)
  }

  /** Closing twice is closing once. */
  lemma CloseIdempotent(k: KLine)
    ensures Close(Close(k)) == Close(k)
    ensures k.isClosed ==> Close(k) == k
  {
  }

  // ---------------------------------------------------------------------------
  // A candle built from a sequence of trades in one bucket

  /** The price and volume of one trade, in arrival order. */
  datatype Trade = Trade(price: real, volume: real)

  /** The candle after `New` with the first trade and `Update` with each later one. */
  function Aggregate(token: string, timestamp: int, interval: TimeInterval, trades: seq<Trade>): (k: KLine)
    requires |trades| > 0
    ensures k.token == token && k.timestamp == timestamp && k.interval == interval
  {
    if |trades| == 1 then New(token, timestamp, interval, trades[0].price, trades[0].volume)
    else
      var last := trades[|trades| - 1];
      Update(Aggregate(token, timestamp, interval, trades[..|trades| - 1]), last.price, last.volume)
  }

  /** Highest price among the trades. */
  function MaxPrice(trades: seq<Trade>): real
    requires |trades| > 0
  {
    if |trades| == 1 then trades[0].price
    else Max(MaxPrice(trades[..|trades| - 1]), trades[|trades| - 1].price)
  }

  /** Lowest price among the trades. */
  function MinPrice(trades: seq<Trade>): real
    requires |trades| > 0
  {
    if |trades| == 1 then trades[0].price
    else Min(MinPrice(trades[..|trades| - 1]), trades[|trades| - 1].price)
  }

  /** Total volume of the trades. */
  function SumVolume(trades: seq<Trade>): real
  {
    if |trades| == 0 then 0.0
    else SumVolume(trades[..|trades| - 1]) + trades[|trades| - 1].volume
  }

  /** MaxPrice and MinPrice are the largest and smallest prices present. */
  lemma {:induction false} PriceExtremes(trades: seq<Trade>)
    requires |trades| > 0
    ensures forall i :: 0 <= i < |trades| ==> MinPrice(trades) <= trades[i].price <= MaxPrice(trades)
    ensures exists i :: 0 <= i < |trades| && trades[i].price == MaxPrice(trades)
    ensures exists i :: 0 <= i < |trades| && trades[i].price == MinPrice(trades)
  {
    var n := |trades|;
    if n > 1 {
      var init := trades[..n - 1];
      PriceExtremes(init);
      assert forall i :: 0 <= i < n - 1 ==> trades[i] == init[i];
      var iMax :| 0 <= iMax < n - 1 && init[iMax].price == MaxPrice(init);
      var iMin :| 0 <= iMin < n - 1 && init[iMin].price == MinPrice(init);
      if MaxPrice(trades) == trades[n - 1].price {
        assert trades[n - 1].price == MaxPrice(trades);
      } else {
        assert trades[iMax].price == MaxPrice(trades);
      }
      if MinPrice(trades) == trades[n - 1].price {
        assert trades[n - 1].price == MinPrice(trades);
      } else {
        assert trades[iMin].price == MinPrice(trades);
      }
    } else {
      assert trades[0].price == MaxPrice(trades) == MinPrice(trades);
    }
  }

  /**
   * OHLCV correctness: after the first trade creates the candle and the others
   * update it, open is the first price, close the last, high the highest, low
   * the lowest and volume the total; the candle stays open and valid.
   */
  lemma {:induction false} AggregateIsOhlcv(token: string, timestamp: int, interval: TimeInterval, trades: seq<Trade>)
    requires |trades| > 0
    ensures var k := Aggregate(token, timestamp, interval, trades);
      && k.token == token && k.timestamp == timestamp && k.interval == interval
      && k.open == trades[0].price
      && k.close == trades[|trades| - 1].price
      && k.high == MaxPrice(trades)
      && k.low == MinPrice(trades)
      && k.volume == SumVolume(trades)
      && !k.isClosed
      && OhlcValid(k)
  {
    var n := |trades|;
    if n == 1 {
      assert trades[..0] == [];
    } else {
      var init := trades[..n - 1];
      AggregateIsOhlcv(token, timestamp, interval, init);
      assert init[0] == trades[0];
    }
  }

  /** The scenario of tests/kline_tests.rs:80-103: three trades in one minute. */
  lemma ThreeTradeExample(timestamp: int)
    ensures Aggregate("DOGE", timestamp, Minute1, [Trade(0.15, 100.0), Trade(0.16, 50.0), Trade(0.14, 75.0)])
         == KLine("DOGE", timestamp, Minute1, 0.15, 0.16, 0.14, 0.14, 225.0, false)
  {
    var trades := [Trade(0.15, 100.0), Trade(0.16, 50.0), Trade(0.14, 75.0)];
    assert trades[..1] == [Trade(0.15, 100.0)];
    assert trades[..2] == [Trade(0.15, 100.0), Trade(0.16, 50.0)];
    assert Aggregate("DOGE", timestamp, Minute1, trades[..1])
        == KLine("DOGE", timestamp, Minute1, 0.15, 0.15, 0.15, 0.15, 100.0, false);
    assert Aggregate("DOGE", timestamp, Minute1, trades[..2])
        == KLine("DOGE", timestamp, Minute1, 0.15, 0.16, 0.15, 0.16, 150.0, false);
  }
}
