/**
 * What a (token, interval) stream holds after a whole sequence of trades
 * (src/services/kline.rs:22-81): candles are created on demand, updated while
 * their bucket is current, and closed lazily once a trade of a later bucket
 * arrives.
 */
module StreamHistory {
  import opened TimeIntervals
  import opened TransactionModel
  import opened KLineModel
  import opened Calendar
  import opened KLineStore

  /** Trades arrive in time order: timestamps never decrease. */
  predicate NonDecreasing(txs: seq<Transaction>)
  {
    forall i, j :: 0 <= i < j < |txs| ==> txs[i].timestamp <= txs[j].timestamp
  }

  /** The trades of one token, in processing order. */
  function TokenTrades(txs: seq<Transaction>, token: string): (ts: seq<Transaction>)
    ensures forall tx :: tx in ts ==> tx in txs && tx.token == token
  {
    if txs == [] then []
    else
      var init, last := txs[..|txs| - 1], txs[|txs| - 1];
      assert forall tx :: tx in init ==> tx in txs;
      TokenTrades(init, token) + (if last.token == token then [last] else [])
  }

  /** The bucket starts the trades fall in. */
  function Buckets(ts: seq<Transaction>, iv: TimeInterval): set<int>
  {
    set tx | tx in ts :: GetIntervalStart(tx.timestamp, iv)
  }

  /** The trades that fall in the bucket starting at `k`, in processing order. */
  function BucketTrades(ts: seq<Transaction>, iv: TimeInterval, k: int): (b: seq<Transaction>)
    ensures forall tx :: tx in b ==> tx in ts && GetIntervalStart(tx.timestamp, iv) == k
    ensures b != [] <==> k in Buckets(ts, iv)
  {
    if ts == [] then []
    else
      var init, last := ts[..|ts| - 1], ts[|ts| - 1];
      assert ts == init + [last];
      assert Buckets(ts, iv) == Buckets(init, iv) + {GetIntervalStart(last.timestamp, iv)};
      BucketTrades(init, iv, k) + (if GetIntervalStart(last.timestamp, iv) == k then [last] else [])
  }

  /** Some trade falls in a bucket starting at or after the end of the bucket at `k`. */
  predicate PassedBy(ts: seq<Transaction>, iv: TimeInterval, k: int)
  {
    exists tx :: tx in ts && GetIntervalStart(tx.timestamp, iv) >= k + DurationNanos(iv)
  }

  /**
   * The candle the bucket at `k` should hold: the OHLCV of the bucket's trades,
   * closed once a trade of a later bucket has been seen.
   */
  function ExpectedCandle(token: string, iv: TimeInterval, k: int, ts: seq<Transaction>): KLine
    requires BucketTrades(ts, iv, k) != []
  {
    var a := Aggregate(token, k, iv, TradesOf(BucketTrades(ts, iv, k)));
    if PassedBy(ts, iv, k) then Close(a) else a
  }

  /** A stream holds exactly one candle per touched bucket, each as expected. */
  predicate StreamMatches(m: IntervalMap, token: string, iv: TimeInterval, ts: seq<Transaction>)
  {
    && m.Keys == Buckets(ts, iv)
    && forall k :: k in m ==> BucketTrades(ts, iv, k) != [] && m[k] == ExpectedCandle(token, iv, k, ts)
  }

  /**
   * Lazy closing over a whole sequence: from an empty service, after trades in
   * time order, every stream holds one candle per bucket its token's trades
   * touched; each candle is the aggregate of its bucket's trades, and it is
   * closed exactly when a trade of that token fell in a bucket starting at or
   * after its end.
   */
  lemma {:induction false} LazyClosing(txs: seq<Transaction>, token: string, iv: TimeInterval)
    requires NonDecreasing(txs)
    ensures StreamMatches(IntervalMapOf(Replay(map[], txs), token, iv), token, iv, TokenTrades(txs, token))
  {
    if txs == [] {
      assert Replay(map[], txs) == map[];
    } else {
      var n := |txs|;
      var init, last := txs[..n - 1], txs[n - 1];
      assert NonDecreasing(init);
      LazyClosing(init, token, iv);
      var s := Replay(map[], init);
      assert Replay(map[], txs) == Processed(s, last);
      if last.token != token {
        OtherTokenStream(s, last, token, iv);
        assert TokenTrades(txs, token) == TokenTrades(init, token);
      } else {
        TradesBeforeLast(txs, token);
        assert txs == init + [last];
        SameTokenStep(init, last, iv);
      }
    }
  }

  /** The induction step of LazyClosing for a trade of the stream's own token. */
  lemma SameTokenStep(init: seq<Transaction>, last: Transaction, iv: TimeInterval)
    requires forall tx :: tx in TokenTrades(init, last.token) ==> tx.timestamp <= last.timestamp
    requires StreamMatches(IntervalMapOf(Replay(map[], init), last.token, iv), last.token, iv, TokenTrades(init, last.token))
    ensures StreamMatches(IntervalMapOf(Replay(map[], init + [last]), last.token, iv), last.token, iv,
                          TokenTrades(init + [last], last.token))
  {
    var txs := init + [last];
    assert txs[..|txs| - 1] == init;
    var s := Replay(map[], init);
    ProcessedStream(s, last, iv);
    ReplayWellFormed(init);
    StreamStep(IntervalMapOf(s, last.token, iv), TokenTrades(init, last.token), last, iv);
  }

  /** In time order, the earlier trades of a token are no later than the last trade. */
  lemma TradesBeforeLast(txs: seq<Transaction>, token: string)
    requires |txs| > 0 && NonDecreasing(txs)
    ensures forall tx :: tx in TokenTrades(txs[..|txs| - 1], token) ==> tx.timestamp <= txs[|txs| - 1].timestamp
  {
    var init := txs[..|txs| - 1];
    forall tx | tx in TokenTrades(init, token) ensures tx.timestamp <= txs[|txs| - 1].timestamp {
      var i :| 0 <= i < |init| && init[i] == tx;
    }
  }

  /** Processing a trade of another token leaves a stream unchanged. */
  lemma OtherTokenStream(s: Store, tx: Transaction, token: string, iv: TimeInterval)
    requires token != tx.token
    ensures IntervalMapOf(Processed(s, tx), token, iv) == IntervalMapOf(s, token, iv)
  {
    ProcessedEffect(s, tx);
  }

  /** From an empty service, replaying trades keeps the store invariant. */
  lemma {:induction false} ReplayWellFormed(txs: seq<Transaction>)
    ensures WellFormed(Replay(map[], txs))
  {
    if txs != [] {
      ReplayWellFormed(txs[..|txs| - 1]);
      ProcessedWellFormed(Replay(map[], txs[..|txs| - 1]), txs[|txs| - 1]);
    }
  }

  /** One more trade, no earlier than the others, keeps a stream as expected. */
  lemma StreamStep(m: IntervalMap, ts: seq<Transaction>, last: Transaction, iv: TimeInterval)
    requires IntervalMapWellFormed(last.token, iv, m)
    requires StreamMatches(m, last.token, iv, ts)
    requires forall tx :: tx in ts ==> tx.timestamp <= last.timestamp
    ensures StreamMatches(IntervalStep(m, last, iv), last.token, iv, ts + [last])
  {
    var token, start := last.token, GetIntervalStart(last.timestamp, iv);
    var r := IntervalStep(m, last, iv);
    IntervalStepEffect(m, last, iv);
    BucketsAppend(ts, last, iv);
    EarlierBuckets(ts, last, iv);
    forall k | k in r
      ensures BucketTrades(ts + [last], iv, k) != [] && r[k] == ExpectedCandle(token, iv, k, ts + [last])
    {
      AppendTrade(ts, last, iv, k);
      if k != start {
        EarlierBucket(token, ts, last, iv, k);
      } else if start in m {
        UpdatedBucket(token, ts, last, iv);
      } else {
        CreatedBucket(token, ts, last, iv);
      }
    }
  }

  /** One more trade adds its bucket to the touched ones. */
  lemma BucketsAppend(ts: seq<Transaction>, last: Transaction, iv: TimeInterval)
    ensures Buckets(ts + [last], iv) == Buckets(ts, iv) + {GetIntervalStart(last.timestamp, iv)}
  {
    var ts' := ts + [last];
    forall b | b in Buckets(ts', iv) ensures b in Buckets(ts, iv) + {GetIntervalStart(last.timestamp, iv)} {
      var tx :| tx in ts' && GetIntervalStart(tx.timestamp, iv) == b;
      if tx != last {
        assert tx in ts;
      }
    }
  }

  /** Earlier trades fall in buckets no later than a later trade's. */
  lemma EarlierBuckets(ts: seq<Transaction>, last: Transaction, iv: TimeInterval)
    requires forall tx :: tx in ts ==> tx.timestamp <= last.timestamp
    ensures forall tx :: tx in ts ==> GetIntervalStart(tx.timestamp, iv) <= GetIntervalStart(last.timestamp, iv)
  {
    forall tx | tx in ts ensures GetIntervalStart(tx.timestamp, iv) <= GetIntervalStart(last.timestamp, iv) {
      IntervalStartMonotonic(tx.timestamp, last.timestamp, iv);
    }
  }

  /** One more trade joins its own bucket's trades, and passes the buckets that end at or before its bucket's start. */
  lemma AppendTrade(ts: seq<Transaction>, last: Transaction, iv: TimeInterval, k: int)
    ensures BucketTrades(ts + [last], iv, k)
         == BucketTrades(ts, iv, k) + (if GetIntervalStart(last.timestamp, iv) == k then [last] else [])
    ensures PassedBy(ts + [last], iv, k)
        <==> PassedBy(ts, iv, k) || GetIntervalStart(last.timestamp, iv) >= k + DurationNanos(iv)
  {
    var ts' := ts + [last];
    assert ts'[..|ts'| - 1] == ts;
    if PassedBy(ts', iv, k) && !PassedBy(ts, iv, k) {
      var tx :| tx in ts' && GetIntervalStart(tx.timestamp, iv) >= k + DurationNanos(iv);
      assert tx !in ts;
    }
    if GetIntervalStart(last.timestamp, iv) >= k + DurationNanos(iv) {
      assert last in ts';
    }
  }

  /** The trade's bucket already has a candle: `update` turns it into the expected one. */
  lemma UpdatedBucket(token: string, ts: seq<Transaction>, last: Transaction, iv: TimeInterval)
    requires BucketTrades(ts, iv, GetIntervalStart(last.timestamp, iv)) != []
    requires forall tx :: tx in ts ==> GetIntervalStart(tx.timestamp, iv) <= GetIntervalStart(last.timestamp, iv)
    ensures var start := GetIntervalStart(last.timestamp, iv);
      Update(ExpectedCandle(token, iv, start, ts), last.price, last.volume) == ExpectedCandle(token, iv, start, ts + [last])
  {
    var start := GetIntervalStart(last.timestamp, iv);
    AppendTrade(ts, last, iv, start);
    var b' := BucketTrades(ts + [last], iv, start);
    assert b'[..|b'| - 1] == BucketTrades(ts, iv, start);
    AggregateLastTrade(token, start, iv, b');
  }

  /** The trade's bucket has no candle yet: `new` creates the expected one. */
  lemma {:induction false} CreatedBucket(token: string, ts: seq<Transaction>, last: Transaction, iv: TimeInterval)
    requires GetIntervalStart(last.timestamp, iv) !in Buckets(ts, iv)
    requires forall tx :: tx in ts ==> GetIntervalStart(tx.timestamp, iv) <= GetIntervalStart(last.timestamp, iv)
    ensures var start := GetIntervalStart(last.timestamp, iv);
      && BucketTrades(ts + [last], iv, start) != []
      && New(token, start, iv, last.price, last.volume) == ExpectedCandle(token, iv, start, ts + [last])
  {
    OnlyTradeOfBucket(ts, last, iv);
    NotYetPassed(ts, last, iv);
    assert TradesOf([last]) == [Trade(last.price, last.volume)];
  }

  /** A trade whose bucket no earlier trade touched is the only trade of that bucket. */
  lemma OnlyTradeOfBucket(ts: seq<Transaction>, last: Transaction, iv: TimeInterval)
    requires GetIntervalStart(last.timestamp, iv) !in Buckets(ts, iv)
    ensures BucketTrades(ts + [last], iv, GetIntervalStart(last.timestamp, iv)) == [last]
  {
    var start := GetIntervalStart(last.timestamp, iv);
    AppendTrade(ts, last, iv, start);
    assert BucketTrades(ts, iv, start) == [];
  }

  /** A trade whose bucket is no earlier than every earlier trade's has not passed its own bucket. */
  lemma NotYetPassed(ts: seq<Transaction>, last: Transaction, iv: TimeInterval)
    requires forall tx :: tx in ts ==> GetIntervalStart(tx.timestamp, iv) <= GetIntervalStart(last.timestamp, iv)
    ensures !PassedBy(ts + [last], iv, GetIntervalStart(last.timestamp, iv))
  {
    var start := GetIntervalStart(last.timestamp, iv);
    forall tx | tx in ts + [last] ensures GetIntervalStart(tx.timestamp, iv) < start + DurationNanos(iv) {
      if tx != last {
        assert tx in ts;
      }
    }
  }

  /** Another bucket keeps its trades and is closed once the trade's bucket starts at or past its end. */
  lemma EarlierBucket(token: string, ts: seq<Transaction>, last: Transaction, iv: TimeInterval, k: int)
    requires BucketTrades(ts, iv, k) != [] && k != GetIntervalStart(last.timestamp, iv)
    ensures var start := GetIntervalStart(last.timestamp, iv);
      var candle := ExpectedCandle(token, iv, k, ts);
      && BucketTrades(ts + [last], iv, k) != []
      && (if k + DurationNanos(iv) <= start then Close(candle) else candle) == ExpectedCandle(token, iv, k, ts + [last])
  {
    var start := GetIntervalStart(last.timestamp, iv);
    AppendTrade(ts, last, iv, k);
    assert BucketTrades(ts + [last], iv, k) == BucketTrades(ts, iv, k);
    var a := Aggregate(token, k, iv, TradesOf(BucketTrades(ts, iv, k)));
    if k + DurationNanos(iv) <= start {
      CloseIdempotent(a);
      assert ExpectedCandle(token, iv, k, ts + [last]) == Close(a);
    } else {
      assert PassedBy(ts + [last], iv, k) == PassedBy(ts, iv, k);
    }
  }

  /**
   * A trade in bucket N followed by one of the same token in bucket N+1, from
   * an empty service: the stream holds bucket N's candle, now closed, and a new
   * open candle for bucket N+1 that opens at the second trade's price.
   */
  lemma NextBucketCloses(first: Transaction, last: Transaction, iv: TimeInterval)
    requires first.token == last.token
    requires GetIntervalStart(last.timestamp, iv) == GetIntervalStart(first.timestamp, iv) + DurationNanos(iv)
    ensures var n, next := GetIntervalStart(first.timestamp, iv), GetIntervalStart(last.timestamp, iv);
      IntervalMapOf(Replay(map[], [first] + [last]), first.token, iv)
        == map[n := Close(New(first.token, n, iv, first.price, first.volume)),
               next := New(last.token, next, iv, last.price, last.volume)]
  {
    ReplayFirst(first, iv);
    var n := GetIntervalStart(first.timestamp, iv);
    ReplayIntoNextBucket([first], last, iv, New(first.token, n, iv, first.price, first.volume));
  }
}
