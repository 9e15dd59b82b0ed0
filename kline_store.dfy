/**
 * The aggregation store (`KLineService` in src/services/kline.rs): a map
 * token -> interval -> bucket start -> candle, updated by every trade for all
 * five intervals, with a lazy closing sweep, and read by range, latest and
 * current-open queries. The concurrent maps are ordinary maps here.
 */
module KLineStore {
  import opened Wrappers
  import opened TimeIntervals
  import opened TransactionModel
  import opened KLineModel
  import opened Calendar
  import opened Sets

  /** Candles of one (token, interval) stream, keyed by bucket start. */
  type IntervalMap = map<int, KLine>
  type TokenMap = map<TimeInterval, IntervalMap>
  type Store = map<string, TokenMap>

  // ---------------------------------------------------------------------------
  // Store invariant

  /** A stored candle sits under its own bucket start, token and interval. */
  predicate CandleAt(token: string, iv: TimeInterval, start: int, k: KLine)
  {
    && k.timestamp == start
    && k.token == token
    && k.interval == iv
    && start % DurationNanos(iv) == 0
    && OhlcValid(k)
  }

  predicate IntervalMapWellFormed(token: string, iv: TimeInterval, m: IntervalMap)
  {
    forall start :: start in m ==> CandleAt(token, iv, start, m[start])
  }

  predicate TokenMapWellFormed(token: string, tm: TokenMap)
  {
    forall iv :: iv in tm ==> IntervalMapWellFormed(token, iv, tm[iv])
  }

  predicate WellFormed(s: Store)
  {
    forall token :: token in s ==> TokenMapWellFormed(token, s[token])
  }

  /** The (token, interval) stream of the store; empty when either level is absent. */
  function IntervalMapOf(s: Store, token: string, iv: TimeInterval): IntervalMap
  {
    if token in s && iv in s[token] then s[token][iv] else map[]
  }

  // ---------------------------------------------------------------------------
  // One update, as functions on values

  /**
   * `close_expired_klines`: close every candle whose bucket ended at or before
   * the current bucket start. The `!is_closed` guard makes no difference to the
   * result, since closing a closed candle changes nothing.
   */
  function SweepExpired(m: IntervalMap, currentStart: int, iv: TimeInterval): (r: IntervalMap)
    ensures r.Keys == m.Keys
    ensures forall start :: start in m ==>
      r[start] == if m[start].timestamp + DurationNanos(iv) <= currentStart then Close(m[start]) else m[start]
  {
    map start | start in m ::
      if m[start].timestamp + DurationNanos(iv) <= currentStart && !m[start].isClosed
      then Close(m[start]) else m[start]
  }

  /** `entry(start).and_modify(update).or_insert_with(new)`. */
  function Upsert(m: IntervalMap, start: int, tx: Transaction, iv: TimeInterval): (r: IntervalMap)
    ensures r.Keys == m.Keys + {start}
    ensures forall k :: k in m && k != start ==> r[k] == m[k]
  {
    if start in m then m[start := Update(m[start], tx.price, tx.volume)]
    else m[start := New(tx.token, start, iv, tx.price, tx.volume)]
  }

  /** `update_kline_for_interval` on one stream: sweep, then get-or-create-or-update. */
  function IntervalStep(m: IntervalMap, tx: Transaction, iv: TimeInterval): IntervalMap
  {
    var start := GetIntervalStart(tx.timestamp, iv);
    Upsert(SweepExpired(m, start, iv), start, tx, iv)
  }

  /** `update_kline_for_interval` on the whole store (the `or_default` levels included). */
  function StoreAfterInterval(s: Store, tx: Transaction, iv: TimeInterval): Store
  {
    var tm := if tx.token in s then s[tx.token] else map[];
    s[tx.token := tm[iv := IntervalStep(IntervalMapOf(s, tx.token, iv), tx, iv)]]
  }

  /** The updates for the given intervals, in order. */
  function StoreAfterIntervals(s: Store, tx: Transaction, ivs: seq<TimeInterval>): Store
  {
    if ivs == [] then s
    else StoreAfterInterval(StoreAfterIntervals(s, tx, ivs[..|ivs| - 1]), tx, ivs[|ivs| - 1])
  }

  /** `process_transaction`: the update for every interval. */
  function Processed(s: Store, tx: Transaction): Store
  {
    StoreAfterIntervals(s, tx, AllIntervals)
  }

  /** Processing a sequence of trades in order. */
  function Replay(s: Store, txs: seq<Transaction>): Store
  {
    if txs == [] then s else Processed(Replay(s, txs[..|txs| - 1]), txs[|txs| - 1])
  }

  // ---------------------------------------------------------------------------
  // Sorting (`Vec::sort_by` on the timestamp)

  predicate SortedByTimestamp(s: seq<KLine>)
  {
    forall i, j :: 0 <= i < j < |s| ==> s[i].timestamp <= s[j].timestamp
  }

  predicate StrictlyIncreasing(s: seq<KLine>)
  {
    forall i, j :: 0 <= i < j < |s| ==> s[i].timestamp < s[j].timestamp
  }

  predicate DistinctTimestamps(s: seq<KLine>)
  {
    forall i, j :: 0 <= i < j < |s| ==> s[i].timestamp != s[j].timestamp
  }

  /** Insert after every candle whose timestamp is not greater (keeps the sort stable). */
  function InsertByTimestamp(s: seq<KLine>, x: KLine): (r: seq<KLine>)
    ensures multiset(r) == multiset(s) + multiset{x}
    ensures |r| == |s| + 1
    ensures r[0] == x || (|s| > 0 && r[0] == s[0])
  {
    if s == [] then [x]
    else if x.timestamp < s[0].timestamp then [x] + s
    else
      assert s == [s[0]] + s[1..];
      [s[0]] + InsertByTimestamp(s[1..], x)
  }

  /** Inserting into a sorted list keeps it sorted. */
  lemma {:induction false} InsertKeepsSorted(s: seq<KLine>, x: KLine)
    requires SortedByTimestamp(s)
    ensures SortedByTimestamp(InsertByTimestamp(s, x))
  {
    if s == [] {
    } else if x.timestamp < s[0].timestamp {
      SortedCons(x, s);
    } else {
      InsertKeepsSorted(s[1..], x);
      SortedCons(s[0], InsertByTimestamp(s[1..], x));
    }
  }

  /** Inserting a fresh timestamp into a strictly increasing list keeps it strictly increasing. */
  lemma {:induction false} InsertKeepsStrict(s: seq<KLine>, x: KLine)
    requires StrictlyIncreasing(s)
    requires forall i :: 0 <= i < |s| ==> s[i].timestamp != x.timestamp
    ensures StrictlyIncreasing(InsertByTimestamp(s, x))
  {
    if s == [] {
    } else if x.timestamp < s[0].timestamp {
      StrictCons(x, s);
    } else {
      assert x.timestamp != s[0].timestamp;
      InsertKeepsStrict(s[1..], x);
      StrictCons(s[0], InsertByTimestamp(s[1..], x));
    }
  }

  /** A permutation of the first candles has no timestamp of the last one, when all are distinct. */
  lemma LastTimestampFresh(init: seq<KLine>, last: KLine, perm: seq<KLine>)
    requires DistinctTimestamps(init + [last])
    requires multiset(perm) == multiset(init)
    ensures forall i :: 0 <= i < |perm| ==> perm[i].timestamp != last.timestamp
  {
    var s := init + [last];
    forall i | 0 <= i < |perm| ensures perm[i].timestamp != last.timestamp {
      assert perm[i] in multiset(init);
      var j :| 0 <= j < |init| && init[j] == perm[i];
      assert s[j] == init[j] && s[|init|] == last;
    }
  }

  lemma SortedCons(a: KLine, t: seq<KLine>)
    requires SortedByTimestamp(t) && (|t| > 0 ==> a.timestamp <= t[0].timestamp)
    ensures SortedByTimestamp([a] + t)
  {
    forall i, j | 0 <= i < j < |t| + 1 ensures ([a] + t)[i].timestamp <= ([a] + t)[j].timestamp {
      if i == 0 { assert ([a] + t)[j] == t[j - 1]; }
    }
  }

  lemma StrictCons(a: KLine, t: seq<KLine>)
    requires StrictlyIncreasing(t) && (|t| > 0 ==> a.timestamp < t[0].timestamp)
    ensures StrictlyIncreasing([a] + t)
  {
    forall i, j | 0 <= i < j < |t| + 1 ensures ([a] + t)[i].timestamp < ([a] + t)[j].timestamp {
      if i == 0 { assert ([a] + t)[j] == t[j - 1]; }
    }
  }

  /** A stable sort by timestamp (insertion sort). */
  function SortByTimestamp(s: seq<KLine>): (r: seq<KLine>)
    ensures multiset(r) == multiset(s)
    ensures |r| == |s|
    ensures SortedByTimestamp(r)
  {
    if s == [] then []
    else
      var init, last := s[..|s| - 1], s[|s| - 1];
      assert s == init + [last];
      var sortedInit := SortByTimestamp(init);
      InsertKeepsSorted(sortedInit, last);
      InsertByTimestamp(sortedInit, last)
  }

  /** Sorting candles with distinct timestamps gives a strictly increasing list. */
  lemma {:induction false} SortStrict(s: seq<KLine>)
    requires DistinctTimestamps(s)
    ensures StrictlyIncreasing(SortByTimestamp(s))
  {
    if s != [] {
      var init, last := s[..|s| - 1], s[|s| - 1];
      assert s == init + [last];
      assert DistinctTimestamps(init) by {
        forall i, j | 0 <= i < j < |init| ensures init[i].timestamp != init[j].timestamp {
          assert init[i] == s[i] && init[j] == s[j];
        }
      }
      SortStrict(init);
      var sortedInit := SortByTimestamp(init);
      LastTimestampFresh(init, last, sortedInit);
      InsertKeepsStrict(sortedInit, last);
    }
  }

  // ---------------------------------------------------------------------------
  // Queries on values

  /** Bucket starts of a stream within [start, end], both ends included. */
  function InRangeKeys(m: IntervalMap, start: int, end: int): set<int>
  {
    set k | k in m && start <= k <= end
  }

  /** The length `truncate(limit)` leaves. */
  function LimitedCount(n: nat, limit: Option<nat>): nat
  {
    match limit
    case None => n
    case Some(l) => if l < n then l else n
  }

  /** `Vec::truncate(limit)` when a limit is given. */
  function Truncated(s: seq<KLine>, limit: Option<nat>): (r: seq<KLine>)
    ensures |r| == LimitedCount(|s|, limit)
    ensures r == s[..|r|]
  {
    if limit.Some? && limit.value < |s| then s[..limit.value] else s
  }

  /** `collected` holds the candles of `m` under exactly the keys `keys`, each once. */
  predicate CollectedFrom(m: IntervalMap, keys: set<int>, collected: seq<KLine>)
  {
    && keys <= m.Keys
    && |collected| == |keys|
    && (forall i :: 0 <= i < |collected| ==>
          collected[i].timestamp in keys && m[collected[i].timestamp] == collected[i])
    && (forall k :: k in keys ==> m[k] in collected)
    && DistinctTimestamps(collected)
  }

  /** The candles of a stream within a range, each once: what the collecting loop gathers. */
  predicate CollectedRange(m: IntervalMap, start: int, end: int, collected: seq<KLine>)
  {
    CollectedFrom(m, InRangeKeys(m, start, end), collected)
  }

  /** Pushing the candle of a key not yet collected extends the collection by that key. */
  lemma CollectOne(m: IntervalMap, keys: set<int>, collected: seq<KLine>, k: int)
    requires forall key :: key in m ==> m[key].timestamp == key
    requires k in m && k !in keys
    requires CollectedFrom(m, keys, collected)
    ensures CollectedFrom(m, keys + {k}, collected + [m[k]])
  {
    var next := collected + [m[k]];
    assert |keys + {k}| == |keys| + 1;
    forall i, j | 0 <= i < j < |next| ensures next[i].timestamp != next[j].timestamp {
      if j == |collected| {
        assert next[i].timestamp in keys;
      }
    }
  }

  /** Sorting keeps exactly the same candles. */
  lemma SortKeepsElements(s: seq<KLine>)
    ensures forall c :: c in SortByTimestamp(s) <==> c in s
  {
    var sorted := SortByTimestamp(s);
    forall c ensures c in sorted <==> c in s {
      assert c in sorted <==> c in multiset(sorted);
      assert c in s <==> c in multiset(s);
    }
  }

  /**
   * Truncating an increasing sequence keeps it increasing, and every candle
   * it drops comes after every candle it keeps.
   */
  lemma TruncatedPrefix(s: seq<KLine>, limit: Option<nat>)
    requires StrictlyIncreasing(s)
    ensures var r := Truncated(s, limit);
      && |r| == LimitedCount(|s|, limit)
      && StrictlyIncreasing(r)
      && (forall i :: 0 <= i < |r| ==> r[i] == s[i])
      && (forall p :: 0 <= p < |s| ==> s[p] in r || forall i :: 0 <= i < |r| ==> r[i].timestamp < s[p].timestamp)
  {
    var r := Truncated(s, limit);
    forall p | 0 <= p < |s|
      ensures s[p] in r || forall i :: 0 <= i < |r| ==> r[i].timestamp < s[p].timestamp
    {
      if p < |r| {
        assert r[p] == s[p];
      }
    }
  }

  /**
   * What `get_klines` answers for one stream: in-range candles of the stream
   * in strictly increasing order of bucket start, as many as the limit
   * allows, and no in-range candle left out that precedes one kept.
   */
  predicate RangeAnswer(m: IntervalMap, start: int, end: int, limit: Option<nat>, result: seq<KLine>)
  {
    && StrictlyIncreasing(result)
    && (forall i :: 0 <= i < |result| ==>
          result[i].timestamp in InRangeKeys(m, start, end) && m[result[i].timestamp] == result[i])
    && |result| == LimitedCount(|InRangeKeys(m, start, end)|, limit)
    && (forall k :: k in InRangeKeys(m, start, end) ==>
          m[k] in result || forall i :: 0 <= i < |result| ==> result[i].timestamp < k)
  }

  /**
   * The collected in-range candles, sorted and truncated, are the first
   * `limit` in-range candles in increasing order of bucket start.
   */
  lemma RangeQueryResult(m: IntervalMap, start: int, end: int, collected: seq<KLine>, limit: Option<nat>)
    requires CollectedRange(m, start, end, collected)
    requires forall k :: k in m ==> m[k].timestamp == k
    ensures RangeAnswer(m, start, end, limit, Truncated(SortByTimestamp(collected), limit))
  {
    var sorted := SortByTimestamp(collected);
    var result := Truncated(sorted, limit);
    SortKeepsElements(collected);
    SortStrict(collected);
    TruncatedPrefix(sorted, limit);
    forall i | 0 <= i < |result|
      ensures result[i].timestamp in InRangeKeys(m, start, end) && m[result[i].timestamp] == result[i]
    {
      assert result[i] in collected;
    }
    forall k | k in InRangeKeys(m, start, end)
      ensures m[k] in result || forall i :: 0 <= i < |result| ==> result[i].timestamp < k
    {
      assert m[k] in sorted;
      var p :| 0 <= p < |sorted| && sorted[p] == m[k];
    }
  }

  /** `max_by_key(timestamp)` over the candles under the given keys. */
  ghost function LatestAmong(m: IntervalMap, keys: set<int>): (r: Option<KLine>)
    requires keys <= m.Keys
    ensures r.None? <==> keys == {}
    ensures r.Some? ==> exists k :: k in keys && m[k] == r.value
    ensures r.Some? ==> forall k :: k in keys ==> m[k].timestamp <= r.value.timestamp
    decreases keys
  {
    if keys == {} then None
    else
      NonEmptySet(keys);
      var key :| key in keys;
      var rest := LatestAmong(m, keys - {key});
      if rest.None? || rest.value.timestamp <= m[key].timestamp then Some(m[key]) else rest
  }

  /** The candles of a stream that are still open. */
  function OpenCandles(m: IntervalMap): (r: IntervalMap)
    ensures forall k :: k in r <==> k in m && !m[k].isClosed
    ensures forall k :: k in r ==> r[k] == m[k]
  {
    map k | k in m && !m[k].isClosed :: m[k]
  }

  // ---------------------------------------------------------------------------
  // The service object

  class KLineService {
    var klines: Store

    ghost predicate Valid()
      reads this
    {
      WellFormed(klines)
    }

    /** `KLineService::new`: no candles. */
    constructor ()
      ensures klines == map[]
      ensures Valid()
    {
      klines := map[];
    }

    /** `process_transaction`: update the trade's token for each interval in order. */
    method ProcessTransaction(tx: Transaction)
      requires Valid()
      modifies this
      ensures Valid()
      ensures klines == Processed(old(klines), tx)
    {
      for i := 0 to |AllIntervals|
        invariant WellFormed(klines)
        invariant klines == StoreAfterIntervals(old(klines), tx, AllIntervals[..i])
      {
        assert AllIntervals[..i + 1][..i] == AllIntervals[..i];
        UpdateKLineForInterval(tx, AllIntervals[i]);
      }
      assert AllIntervals[..|AllIntervals|] == AllIntervals;
    }

    /** `update_kline_for_interval`. */
    method UpdateKLineForInterval(tx: Transaction, iv: TimeInterval)
      requires Valid()
      modifies this
      ensures Valid()
      ensures klines == StoreAfterInterval(old(klines), tx, iv)
    {
      var intervalStart := GetIntervalStart(tx.timestamp, iv);
      var tokenKLines := if tx.token in klines then klines[tx.token] else map[];
      var intervalKLines := if iv in tokenKLines then tokenKLines[iv] else map[];
      intervalKLines := CloseExpiredKLines(intervalKLines, intervalStart, iv);
      if intervalStart in intervalKLines {
        intervalKLines := intervalKLines[intervalStart := Update(intervalKLines[intervalStart], tx.price, tx.volume)];
      } else {
        intervalKLines := intervalKLines[intervalStart := New(tx.token, intervalStart, iv, tx.price, tx.volume)];
      }
      StoreAfterIntervalWellFormed(klines, tx, iv);
      klines := klines[tx.token := tokenKLines[iv := intervalKLines]];
    }

    /** `close_expired_klines`: one pass over the stream, closing expired open candles. */
    static method CloseExpiredKLines(intervalKLines: IntervalMap, currentIntervalStart: int, iv: TimeInterval)
      returns (swept: IntervalMap)
      ensures swept == SweepExpired(intervalKLines, currentIntervalStart, iv)
    {
      var intervalDuration := DurationNanos(iv);
      swept := intervalKLines;
      var pending := intervalKLines.Keys;
      while pending != {}
        invariant pending <= intervalKLines.Keys
        invariant swept.Keys == intervalKLines.Keys
        invariant forall k :: k in pending ==> swept[k] == intervalKLines[k]
        invariant forall k :: k in intervalKLines && k !in pending ==>
          swept[k] == SweepExpired(intervalKLines, currentIntervalStart, iv)[k]
        decreases pending
      {
        NonEmptySet(pending);
        var k :| k in pending;
        var kline := swept[k];
        if kline.timestamp + intervalDuration <= currentIntervalStart && !kline.isClosed {
          swept := swept[k := Close(kline)];
        }
        pending := pending - {k};
      }
      var expected := SweepExpired(intervalKLines, currentIntervalStart, iv);
      assert swept.Keys == expected.Keys;
      assert forall k :: k in swept ==> swept[k] == expected[k];
    }

    /**
     * `get_klines`: the stream's candles with start <= bucket start <= end, in
     * ascending order of timestamp, cut to the first `limit` when one is given.
     */
    method GetKLines(token: string, iv: TimeInterval, start: int, end: int, limit: Option<nat>)
      returns (result: seq<KLine>)
      requires Valid()
      ensures RangeAnswer(IntervalMapOf(klines, token, iv), start, end, limit, result)
      ensures token !in klines || iv !in klines[token] ==> result == []
    {
      var m := IntervalMapOf(klines, token, iv);
      result := [];
      if token in klines {
        var tokenKLines := klines[token];
        if iv in tokenKLines {
          assert IntervalMapWellFormed(token, iv, m);
          result := CollectInRange(tokenKLines[iv], start, end);
        }
      }
      ghost var collected := result;
      result := SortByTimestamp(result);
      if limit.Some? && limit.value < |result| {
        result := result[..limit.value];
      }
      assert result == Truncated(SortByTimestamp(collected), limit);
      assert forall k :: k in m ==> m[k].timestamp == k;
      RangeQueryResult(m, start, end, collected, limit);
    }

    /** The filtering loop of `get_klines`: push every candle whose bucket start is in range. */
    static method CollectInRange(intervalKLines: IntervalMap, start: int, end: int) returns (result: seq<KLine>)
      requires forall k :: k in intervalKLines ==> intervalKLines[k].timestamp == k
      ensures CollectedRange(intervalKLines, start, end, result)
    {
      result := [];
      ghost var seen: set<int> := {};
      var pending := intervalKLines.Keys;
      while pending != {}
        invariant pending <= intervalKLines.Keys
        invariant seen == InRangeKeys(intervalKLines, start, end) - pending
        invariant CollectedFrom(intervalKLines, seen, result)
        decreases pending
      {
        NonEmptySet(pending);
        var timestamp :| timestamp in pending;
        if timestamp >= start && timestamp <= end {
          CollectOne(intervalKLines, seen, result, timestamp);
          result := result + [intervalKLines[timestamp]];
          seen := seen + {timestamp};
        }
        pending := pending - {timestamp};
      }
    }

    /** `get_latest_kline`: a candle of greatest timestamp in the stream, closed or not. */
    ghost function GetLatestKLine(token: string, iv: TimeInterval): (r: Option<KLine>)
      reads this
      ensures r.None? <==> IntervalMapOf(klines, token, iv) == map[]
      ensures r.Some? ==> r.value in IntervalMapOf(klines, token, iv).Values
      ensures r.Some? ==> forall k :: k in IntervalMapOf(klines, token, iv) ==>
        IntervalMapOf(klines, token, iv)[k].timestamp <= r.value.timestamp
    {
      if token in klines && iv in klines[token] then
        var m := klines[token][iv];
        LatestAmong(m, m.Keys)
      else None
    }

    /** `get_current_kline`: a candle of greatest timestamp among the open ones. */
    ghost function GetCurrentKLine(token: string, iv: TimeInterval): (r: Option<KLine>)
      reads this
      ensures r.None? <==> OpenCandles(IntervalMapOf(klines, token, iv)) == map[]
      ensures r.Some? ==> r.value in IntervalMapOf(klines, token, iv).Values && !r.value.isClosed
      ensures r.Some? ==> forall k :: k in IntervalMapOf(klines, token, iv) && !IntervalMapOf(klines, token, iv)[k].isClosed ==>
        IntervalMapOf(klines, token, iv)[k].timestamp <= r.value.timestamp
    {
      if token in klines && iv in klines[token] then
        var m := OpenCandles(klines[token][iv]);
        LatestAmong(m, m.Keys)
      else None
    }

    /** `get_available_tokens`: every token with a stored entry. */
    function GetAvailableTokens(): (tokens: set<string>)
      reads this
      ensures forall t :: t in tokens <==> t in klines
    {
      klines.Keys
    }
  }

  // ---------------------------------------------------------------------------
  // Properties of one update

  /** The update of one stream keeps the store invariant and touches nothing else. */
  lemma StoreAfterIntervalWellFormed(s: Store, tx: Transaction, iv: TimeInterval)
    requires WellFormed(s)
    ensures WellFormed(StoreAfterInterval(s, tx, iv))
  {
    IntervalStepEffect(IntervalMapOf(s, tx.token, iv), tx, iv);
  }

  /**
   * One stream's update: the bucket of the trade is created with the trade, or
   * updated by it (a no-op if already closed); every other candle is closed
   * exactly when its bucket ended at or before the trade's bucket start, and
   * otherwise left as it was; nothing is removed, and the target bucket is never
   * closed by the sweep.
   */
  lemma IntervalStepEffect(m: IntervalMap, tx: Transaction, iv: TimeInterval)
    requires IntervalMapWellFormed(tx.token, iv, m)
    ensures var start := GetIntervalStart(tx.timestamp, iv);
      var r := IntervalStep(m, tx, iv);
      && r.Keys == m.Keys + {start}
      && r[start] == (if start in m then Update(m[start], tx.price, tx.volume)
                      else New(tx.token, start, iv, tx.price, tx.volume))
      && (forall k :: k in m && k != start ==>
            r[k] == if k + DurationNanos(iv) <= start then Close(m[k]) else m[k])
      && IntervalMapWellFormed(tx.token, iv, r)
  {
    IntervalStartContains(tx.timestamp, iv);
    SweepThenUpsert(m, tx, iv, GetIntervalStart(tx.timestamp, iv));
  }

  /** The sweep-then-upsert step for an aligned bucket start. */
  lemma SweepThenUpsert(m: IntervalMap, tx: Transaction, iv: TimeInterval, start: int)
    requires IntervalMapWellFormed(tx.token, iv, m)
    requires start % DurationNanos(iv) == 0
    ensures var r := Upsert(SweepExpired(m, start, iv), start, tx, iv);
      && r.Keys == m.Keys + {start}
      && r[start] == (if start in m then Update(m[start], tx.price, tx.volume)
                      else New(tx.token, start, iv, tx.price, tx.volume))
      && (forall k :: k in m && k != start ==>
            r[k] == if k + DurationNanos(iv) <= start then Close(m[k]) else m[k])
      && IntervalMapWellFormed(tx.token, iv, r)
  {
    var swept := SweepExpired(m, start, iv);
    assert IntervalMapWellFormed(tx.token, iv, swept) by {
      forall k | k in swept ensures CandleAt(tx.token, iv, k, swept[k]) {
        assert CandleAt(tx.token, iv, k, m[k]);
      }
    }
    if start in m {
      assert m[start].timestamp == start;
      assert swept[start] == m[start];
    }
  }

  /**
   * One stream update on the whole store: other tokens are untouched; the
   * token gets the stream (created if need be) holding the one-stream update;
   * its other streams are untouched.
   */
  lemma StoreAfterIntervalShape(s: Store, tx: Transaction, iv: TimeInterval)
    ensures var r := StoreAfterInterval(s, tx, iv);
      && (forall t :: t != tx.token ==> (t in r <==> t in s) && (t in s ==> r[t] == s[t]))
      && tx.token in r && iv in r[tx.token]
      && r[tx.token][iv] == IntervalStep(IntervalMapOf(s, tx.token, iv), tx, iv)
      && (forall other :: other != iv ==>
            (other in r[tx.token] <==> tx.token in s && other in s[tx.token])
            && IntervalMapOf(r, tx.token, other) == IntervalMapOf(s, tx.token, other))
  {
    PutStream(s, tx.token, iv, IntervalStep(IntervalMapOf(s, tx.token, iv), tx, iv));
  }

  /** Storing one stream of one token, creating the token's map if need be. */
  lemma PutStream(s: Store, token: string, iv: TimeInterval, stream: IntervalMap)
    ensures var r := s[token := (if token in s then s[token] else map[])[iv := stream]];
      && (forall t :: t != token ==> (t in r <==> t in s) && (t in s ==> r[t] == s[t]))
      && token in r && iv in r[token] && r[token][iv] == stream
      && (forall other :: other != iv ==>
            (other in r[token] <==> token in s && other in s[token])
            && IntervalMapOf(r, token, other) == IntervalMapOf(s, token, other))
  {
  }

  /** Updating any list of intervals leaves the other tokens as they were. */
  lemma {:induction false} AfterIntervalsOtherTokens(s: Store, tx: Transaction, ivs: seq<TimeInterval>)
    ensures var r := StoreAfterIntervals(s, tx, ivs);
      forall t :: t != tx.token ==> (t in r <==> t in s) && (t in s ==> r[t] == s[t])
  {
    if ivs != [] {
      var init := ivs[..|ivs| - 1];
      AfterIntervalsOtherTokens(s, tx, init);
      StoreAfterIntervalShape(StoreAfterIntervals(s, tx, init), tx, ivs[|ivs| - 1]);
    }
  }

  /**
   * Updating a list of distinct intervals gives the trade's token exactly those
   * streams' one-stream updates, and leaves its other streams as they were.
   */
  lemma {:induction false} AfterIntervalsStreams(s: Store, tx: Transaction, ivs: seq<TimeInterval>)
    requires forall i, j :: 0 <= i < j < |ivs| ==> ivs[i] != ivs[j]
    ensures var r := StoreAfterIntervals(s, tx, ivs);
      && (ivs != [] ==> tx.token in r && forall iv :: iv in ivs ==> iv in r[tx.token])
      && (forall iv :: iv in ivs ==>
            IntervalMapOf(r, tx.token, iv) == IntervalStep(IntervalMapOf(s, tx.token, iv), tx, iv))
      && (forall iv :: iv !in ivs ==>
            (tx.token in r && iv in r[tx.token] <==> tx.token in s && iv in s[tx.token])
            && IntervalMapOf(r, tx.token, iv) == IntervalMapOf(s, tx.token, iv))
  {
    if ivs != [] {
      var init, last := ivs[..|ivs| - 1], ivs[|ivs| - 1];
      AfterIntervalsStreams(s, tx, init);
      StoreAfterIntervalShape(StoreAfterIntervals(s, tx, init), tx, last);
      assert forall iv :: iv in ivs <==> iv in init || iv == last;
      assert last !in init;
    }
  }

  /**
   * `process_transaction` touches only the trade's token, gives it all five
   * intervals, and applies the one-stream update to each of them.
   */
  lemma ProcessedEffect(s: Store, tx: Transaction)
    ensures var r := Processed(s, tx);
      && (forall t :: t != tx.token ==> (t in r <==> t in s) && (t in s ==> r[t] == s[t]))
      && tx.token in r
      && (forall iv :: iv in r[tx.token])
      && (forall iv :: r[tx.token][iv] == IntervalStep(IntervalMapOf(s, tx.token, iv), tx, iv))
  {
    AfterIntervalsOtherTokens(s, tx, AllIntervals);
    AfterIntervalsStreams(s, tx, AllIntervals);
    forall iv ensures iv in AllIntervals { AllIntervalsComplete(iv); }
  }

  /** `process_transaction` keeps the store invariant. */
  lemma {:induction false} ProcessedWellFormed(s: Store, tx: Transaction)
    requires WellFormed(s)
    ensures WellFormed(Processed(s, tx))
  {
    ProcessedEffect(s, tx);
    var r := Processed(s, tx);
    forall iv ensures IntervalMapWellFormed(tx.token, iv, r[tx.token][iv]) {
      IntervalStepEffect(IntervalMapOf(s, tx.token, iv), tx, iv);
    }
  }

  /** The tokens of the store after processing are the old ones plus the trade's token. */
  lemma ProcessedTokens(s: Store, tx: Transaction)
    ensures Processed(s, tx).Keys == s.Keys + {tx.token}
  {
    ProcessedEffect(s, tx);
  }

  /** From an empty service, the tokens listed are exactly those of the trades processed. */
  lemma {:induction false} ReplayTokens(txs: seq<Transaction>)
    ensures Replay(map[], txs).Keys == set i | 0 <= i < |txs| :: txs[i].token
  {
    if txs != [] {
      var init := txs[..|txs| - 1];
      ReplayTokens(init);
      ProcessedTokens(Replay(map[], init), txs[|txs| - 1]);
      assert (set i | 0 <= i < |txs| :: txs[i].token)
          == (set i | 0 <= i < |init| :: init[i].token) + {txs[|txs| - 1].token} by {
        var all := set i | 0 <= i < |txs| :: txs[i].token;
        forall t | t in all
          ensures t in (set i | 0 <= i < |init| :: init[i].token) + {txs[|txs| - 1].token}
        {
          var i :| 0 <= i < |txs| && txs[i].token == t;
          if i < |init| { assert init[i].token == t; }
        }
      }
    }
  }

  // ---------------------------------------------------------------------------
  // Trades that fall in one bucket

  /** The prices and volumes of a sequence of trades, in order. */
  function TradesOf(txs: seq<Transaction>): (trades: seq<Trade>)
    ensures |trades| == |txs|
    ensures forall i :: 0 <= i < |txs| ==> trades[i] == Trade(txs[i].price, txs[i].volume)
  {
    seq(|txs|, i requires 0 <= i < |txs| => Trade(txs[i].price, txs[i].volume))
  }

  /** After processing, a stream of the trade's token is the one-stream update of its old contents. */
  lemma ProcessedStream(s: Store, tx: Transaction, iv: TimeInterval)
    ensures IntervalMapOf(Processed(s, tx), tx.token, iv) == IntervalStep(IntervalMapOf(s, tx.token, iv), tx, iv)
  {
    ProcessedEffect(s, tx);
  }

  /** The first trade of a stream creates its bucket's candle. */
  lemma StepOnEmpty(tx: Transaction, iv: TimeInterval)
    ensures var start := GetIntervalStart(tx.timestamp, iv);
      IntervalStep(map[], tx, iv) == map[start := New(tx.token, start, iv, tx.price, tx.volume)]
  {
    var start := GetIntervalStart(tx.timestamp, iv);
    assert SweepExpired(map[], start, iv) == map[];
  }

  /** A trade in the bucket of a stream's only candle updates that candle. */
  lemma StepInSameBucket(a: KLine, tx: Transaction, iv: TimeInterval)
    requires a.timestamp == GetIntervalStart(tx.timestamp, iv)
    ensures IntervalStep(map[a.timestamp := a], tx, iv) == map[a.timestamp := Update(a, tx.price, tx.volume)]
  {
    var m := map[a.timestamp := a];
    assert SweepExpired(m, a.timestamp, iv) == m;
  }

  /** Replaying one more trade in the bucket of a stream's only candle updates that candle. */
  lemma ReplayInSameBucket(init: seq<Transaction>, last: Transaction, iv: TimeInterval, a: KLine)
    requires IntervalMapOf(Replay(map[], init), last.token, iv) == map[a.timestamp := a]
    requires a.timestamp == GetIntervalStart(last.timestamp, iv)
    ensures IntervalMapOf(Replay(map[], init + [last]), last.token, iv)
         == map[a.timestamp := Update(a, last.price, last.volume)]
  {
    assert (init + [last])[..|init|] == init;
    ProcessedStream(Replay(map[], init), last, iv);
    StepInSameBucket(a, last, iv);
  }

  /**
   * A trade in the bucket right after that of a stream's only candle closes
   * that candle and opens the trade's bucket at the trade's price.
   */
  lemma StepIntoNextBucket(a: KLine, tx: Transaction, iv: TimeInterval)
    requires a.timestamp + DurationNanos(iv) == GetIntervalStart(tx.timestamp, iv)
    ensures var next := a.timestamp + DurationNanos(iv);
      IntervalStep(map[a.timestamp := a], tx, iv)
        == map[a.timestamp := Close(a), next := New(tx.token, next, iv, tx.price, tx.volume)]
  {
    var m := map[a.timestamp := a];
    var next := a.timestamp + DurationNanos(iv);
    assert SweepExpired(m, next, iv) == map[a.timestamp := Close(a)];
  }

  /** Replaying one more trade in the bucket after a stream's only candle closes it and opens the next. */
  lemma ReplayIntoNextBucket(init: seq<Transaction>, last: Transaction, iv: TimeInterval, a: KLine)
    requires IntervalMapOf(Replay(map[], init), last.token, iv) == map[a.timestamp := a]
    requires a.timestamp + DurationNanos(iv) == GetIntervalStart(last.timestamp, iv)
    ensures var next := a.timestamp + DurationNanos(iv);
      IntervalMapOf(Replay(map[], init + [last]), last.token, iv)
        == map[a.timestamp := Close(a), next := New(last.token, next, iv, last.price, last.volume)]
  {
    assert (init + [last])[..|init|] == init;
    ProcessedStream(Replay(map[], init), last, iv);
    StepIntoNextBucket(a, last, iv);
  }

  /**
   * From an empty service, trades of one token that all align to the same
   * bucket of an interval leave exactly one candle in that stream: the candle
   * `KLine::new` and successive `KLine::update`s build from them.
   */
  lemma {:induction false} SameBucketReplay(txs: seq<Transaction>, iv: TimeInterval)
    requires |txs| > 0
    requires forall i :: 0 <= i < |txs| ==> txs[i].token == txs[0].token
    requires forall i :: 0 <= i < |txs| ==>
      GetIntervalStart(txs[i].timestamp, iv) == GetIntervalStart(txs[0].timestamp, iv)
    ensures var start := GetIntervalStart(txs[0].timestamp, iv);
      IntervalMapOf(Replay(map[], txs), txs[0].token, iv)
        == map[start := Aggregate(txs[0].token, start, iv, TradesOf(txs))]
  {
    var n := |txs|;
    if n == 1 {
      ReplayFirst(txs[0], iv);
      assert txs == [txs[0]];
      assert TradesOf(txs) == [Trade(txs[0].price, txs[0].volume)];
    } else {
      var init := txs[..n - 1];
      assert forall i :: 0 <= i < |init| ==> init[i] == txs[i];
      SameBucketReplay(init, iv);
      SameBucketStep(txs, iv);
    }
  }

  /** The induction step of `SameBucketReplay`: one more trade in the same bucket. */
  lemma SameBucketStep(txs: seq<Transaction>, iv: TimeInterval)
    requires |txs| > 1
    requires txs[|txs| - 1].token == txs[0].token
    requires GetIntervalStart(txs[|txs| - 1].timestamp, iv) == GetIntervalStart(txs[0].timestamp, iv)
    requires var start := GetIntervalStart(txs[0].timestamp, iv);
      IntervalMapOf(Replay(map[], txs[..|txs| - 1]), txs[0].token, iv)
        == map[start := Aggregate(txs[0].token, start, iv, TradesOf(txs[..|txs| - 1]))]
    ensures var start := GetIntervalStart(txs[0].timestamp, iv);
      IntervalMapOf(Replay(map[], txs), txs[0].token, iv)
        == map[start := Aggregate(txs[0].token, start, iv, TradesOf(txs))]
  {
    var n := |txs|;
    var token, start := txs[0].token, GetIntervalStart(txs[0].timestamp, iv);
    assert txs == txs[..n - 1] + [txs[n - 1]];
    ReplayInSameBucket(txs[..n - 1], txs[n - 1], iv, Aggregate(token, start, iv, TradesOf(txs[..n - 1])));
    AggregateLastTrade(token, start, iv, txs);
  }

  /** The aggregate of the trades of some transactions, one transaction at a time. */
  lemma AggregateLastTrade(token: string, start: int, iv: TimeInterval, txs: seq<Transaction>)
    requires |txs| > 1
    ensures Aggregate(token, start, iv, TradesOf(txs))
         == Update(Aggregate(token, start, iv, TradesOf(txs[..|txs| - 1])), txs[|txs| - 1].price, txs[|txs| - 1].volume)
  {
    var init, trades := TradesOf(txs[..|txs| - 1]), TradesOf(txs);
    assert trades[..|txs| - 1] == init;
    AggregateStep(token, start, iv, init, trades);
  }

  /** From an empty service, one trade creates its bucket's candle with `new`. */
  lemma ReplayFirst(tx: Transaction, iv: TimeInterval)
    ensures var start := GetIntervalStart(tx.timestamp, iv);
      IntervalMapOf(Replay(map[], [tx]), tx.token, iv) == map[start := New(tx.token, start, iv, tx.price, tx.volume)]
  {
    assert [tx][..0] == [];
    ProcessedStream(map[], tx, iv);
    StepOnEmpty(tx, iv);
  }

  /** Aggregating one more trade is updating the aggregate of the earlier ones. */
  lemma AggregateStep(token: string, start: int, iv: TimeInterval, init: seq<Trade>, trades: seq<Trade>)
    requires |init| > 0 && |trades| == |init| + 1 && trades[..|init|] == init
    ensures Aggregate(token, start, iv, trades)
         == Update(Aggregate(token, start, iv, init), trades[|init|].price, trades[|init|].volume)
  {
  }

  /** 2024-01-15T14:00:00Z, the hour used by tests/time_interval_tests.rs:206-252. */
  const HourStart: int := 1705327200_000000000

  /** The trades of tests/time_interval_tests.rs:206-252: at 14:05, 14:25 and 14:45. */
  const SameHourTrades: seq<Transaction> := [
    Transaction("DOGE", 0.15, 100.0, HourStart + 300_000000000, true),
    Transaction("DOGE", 0.16, 200.0, HourStart + 1500_000000000, true),
    Transaction("DOGE", 0.14, 150.0, HourStart + 2700_000000000, true)]

  /**
   * The scenario of tests/time_interval_tests.rs:206-252: the three trades make
   * a single hourly candle at 14:00 with open 0.15, high 0.16, low 0.14, close
   * 0.14 and volume 450.
   */
  lemma SameHourExample()
    ensures IntervalMapOf(Replay(map[], SameHourTrades), "DOGE", Hour1)
         == map[HourStart := KLine("DOGE", HourStart, Hour1, 0.15, 0.16, 0.14, 0.14, 450.0, false)]
  {
    var txs := SameHourTrades;
    SameHourAligned();
    SameBucketReplay(txs, Hour1);
    assert TradesOf(txs) == [Trade(0.15, 100.0), Trade(0.16, 200.0), Trade(0.14, 150.0)];
    SameHourAggregate();
  }

  /** 14:05, 14:25 and 14:45 all align to the 14:00 hour. */
  lemma SameHourAligned()
    ensures GetIntervalStart(HourStart + 300_000000000, Hour1) == HourStart
    ensures GetIntervalStart(HourStart + 1500_000000000, Hour1) == HourStart
    ensures GetIntervalStart(HourStart + 2700_000000000, Hour1) == HourStart
  {
    IntervalStartOf(HourStart + 300_000000000, Hour1, 473702, 300_000000000);
    IntervalStartOf(HourStart + 1500_000000000, Hour1, 473702, 1500_000000000);
    IntervalStartOf(HourStart + 2700_000000000, Hour1, 473702, 2700_000000000);
  }

  /** The hourly candle of the three trades of the scenario. */
  lemma SameHourAggregate()
    ensures Aggregate("DOGE", HourStart, Hour1, [Trade(0.15, 100.0), Trade(0.16, 200.0), Trade(0.14, 150.0)])
         == KLine("DOGE", HourStart, Hour1, 0.15, 0.16, 0.14, 0.14, 450.0, false)
  {
    var trades := [Trade(0.15, 100.0), Trade(0.16, 200.0), Trade(0.14, 150.0)];
    assert trades[..1] == [Trade(0.15, 100.0)];
    assert trades[..2] == [Trade(0.15, 100.0), Trade(0.16, 200.0)];
    assert Aggregate("DOGE", HourStart, Hour1, trades[..2])
        == KLine("DOGE", HourStart, Hour1, 0.15, 0.16, 0.15, 0.16, 300.0, false);
  }

}
