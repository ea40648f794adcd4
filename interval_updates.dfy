/**
 * Hourly and daily rollups of a pool (src/handlers/utils/intervalUpdates.ts).
 * A bucket is chosen by flooring the event timestamp to the bucket length,
 * created from the pool's current price when absent, and then refreshed from
 * the pool: high/low widen to the current price, close and the snapshot
 * fields take the pool's values and the bucket's transaction count grows by
 * one.
 */
module IntervalUpdates {
  import opened Entities
  import opened Ids
  import opened EntityStore

  /** `Math.floor(timestamp / 86400)`: the day whose window holds the timestamp. */
  function DayIndex(timestamp: int): (r: int)
    ensures r * DayLength <= timestamp < r * DayLength + DayLength
  {
    timestamp / DayLength
  }

  /** `Math.floor(timestamp / 3600)`: the hour whose window holds the timestamp. */
  function HourIndex(timestamp: int): (r: int)
    ensures r * HourLength <= timestamp < r * HourLength + HourLength
  {
    timestamp / HourLength
  }

  /** Euclidean division places `t` in the window of index `t / length`. */
  lemma WindowOfQuotient(t: int, length: int)
    requires length > 0
    ensures t / length * length <= t < t / length * length + length
  {
    var q, m := t / length, t % length;
    assert t == q * length + m;
    assert 0 <= m < length;
  }

  /** Windows of smaller index end no later than windows of larger index begin. */
  lemma WindowsOrdered(i: int, j: int, length: int)
    requires length > 0
    ensures i < j ==> i * length + length <= j * length
  {
    if i < j {
      MulMonotone(i + 1, j, length);
    }
  }

  /** A timestamp lies in exactly one window: the window of index i holds t iff i is t's index. */
  lemma WindowIsUnique(t: int, i: int, length: int)
    requires length > 0
    ensures i * length <= t < i * length + length <==> i == t / length
  {
    var j := t / length;
    WindowOfQuotient(t, length);
    WindowsOrdered(i, j, length);
    WindowsOrdered(j, i, length);
  }

  lemma MulMonotone(a: int, b: int, k: int)
    requires a <= b && k > 0
    ensures a * k <= b * k
  {
  }

  /**
   * Two events of one pool read and write the same day record exactly when
   * the second timestamp lies in the day window of the first.
   */
  lemma SameDayRecordIffSameWindow(poolId: string, t1: int, t2: int)
    ensures BucketId(poolId, DayIndex(t1)) == BucketId(poolId, DayIndex(t2))
            <==> DayIndex(t1) * DayLength <= t2 < DayIndex(t1) * DayLength + DayLength
  {
    BucketIdInjective(poolId, DayIndex(t1), DayIndex(t2));
    WindowIsUnique(t2, DayIndex(t1), DayLength);
  }

  /** The same for hour records. */
  lemma SameHourRecordIffSameWindow(poolId: string, t1: int, t2: int)
    ensures BucketId(poolId, HourIndex(t1)) == BucketId(poolId, HourIndex(t2))
            <==> HourIndex(t1) * HourLength <= t2 < HourIndex(t1) * HourLength + HourLength
  {
    BucketIdInjective(poolId, HourIndex(t1), HourIndex(t2));
    WindowIsUnique(t2, HourIndex(t1), HourLength);
  }

  /** A fresh day record: empty volumes and count, all four prices at the pool's price, the pool's snapshot. */
  function NewDayData(id: string, date: int, pool: Pool): (r: IntervalData)
    ensures r.id == id && r.periodStart == date && r.poolId == pool.id
    ensures r.volumeToken0 == r.volumeToken1 == r.volumeUsd == r.feesUsd == 0.0 && r.txCount == 0
    ensures r.openingPrice == r.high == r.low == r.close == pool.token0Price
    ensures r.liquidity == pool.liquidity && r.sqrtPrice == pool.sqrtPrice && r.tick == pool.tick
    ensures r.token0Price == pool.token0Price && r.token1Price == pool.token1Price
    ensures r.tvlUsd == pool.totalValueLockedUsd
  {
    IntervalData(
      id := id, periodStart := date, poolId := pool.id,
      volumeToken0 := 0.0, volumeToken1 := 0.0, volumeUsd := 0.0, feesUsd := 0.0, txCount := 0,
      openingPrice := pool.token0Price, high := pool.token0Price, low := pool.token0Price,
      close := pool.token0Price,
      liquidity := pool.liquidity, sqrtPrice := pool.sqrtPrice,
      token0Price := pool.token0Price, token1Price := pool.token1Price,
      tick := pool.tick, tvlUsd := pool.totalValueLockedUsd)
  }

  /** A fresh hour record: like a day record, but its snapshot fields start empty. */
  function NewHourData(id: string, periodStartUnix: int, pool: Pool): (r: IntervalData)
    ensures r.id == id && r.periodStart == periodStartUnix && r.poolId == pool.id
    ensures r.volumeToken0 == r.volumeToken1 == r.volumeUsd == r.feesUsd == 0.0 && r.txCount == 0
    ensures r.openingPrice == r.high == r.low == r.close == pool.token0Price
    ensures r.liquidity == 0 && r.sqrtPrice == 0 && r.tick == None
    ensures r.token0Price == 0.0 && r.token1Price == 0.0 && r.tvlUsd == 0.0
  {
    IntervalData(
      id := id, periodStart := periodStartUnix, poolId := pool.id,
      volumeToken0 := 0.0, volumeToken1 := 0.0, volumeUsd := 0.0, txCount := 0, feesUsd := 0.0,
      openingPrice := pool.token0Price, high := pool.token0Price, low := pool.token0Price,
      close := pool.token0Price,
      liquidity := 0, sqrtPrice := 0, token0Price := 0.0, token1Price := 0.0,
      tick := None, tvlUsd := 0.0)
  }

  /**
   * The refresh both updaters apply to a (loaded or fresh) bucket: high becomes
   * the larger and low the smaller of itself and the pool's price; close and the
   * snapshot are the pool's; the count grows by one; identity, opening price,
   * volumes and fees are kept. It keeps open and close within [low, high].
   */
  function Touched(b: IntervalData, pool: Pool): (r: IntervalData)
    ensures r.high >= b.high && r.high >= pool.token0Price
    ensures r.high == b.high || r.high == pool.token0Price
    ensures r.low <= b.low && r.low <= pool.token0Price
    ensures r.low == b.low || r.low == pool.token0Price
    ensures r.close == pool.token0Price
    ensures r.liquidity == pool.liquidity && r.sqrtPrice == pool.sqrtPrice && r.tick == pool.tick
    ensures r.token0Price == pool.token0Price && r.token1Price == pool.token1Price
    ensures r.tvlUsd == pool.totalValueLockedUsd
    ensures r.txCount == b.txCount + 1
    ensures r.id == b.id && r.periodStart == b.periodStart && r.poolId == b.poolId
    ensures r.openingPrice == b.openingPrice
    ensures r.volumeToken0 == b.volumeToken0 && r.volumeToken1 == b.volumeToken1
    ensures r.volumeUsd == b.volumeUsd && r.feesUsd == b.feesUsd
    ensures PriceRangeOrdered(b) ==> PriceRangeOrdered(r)
  {
    b.(
      high := if pool.token0Price > b.high then pool.token0Price else b.high,
      low := if pool.token0Price < b.low then pool.token0Price else b.low,
      liquidity := pool.liquidity,
      sqrtPrice := pool.sqrtPrice,
      token0Price := pool.token0Price,
      token1Price := pool.token1Price,
      close := pool.token0Price,
      tick := pool.tick,
      tvlUsd := pool.totalValueLockedUsd,
      txCount := b.txCount + 1)
  }

  /**
   * The day records after one `updatePoolDayData(timestamp, pool)`: the pool's
   * record for the day holding the timestamp is present and refreshed from the
   * pool (a new one starts at the day boundary, with one transaction and every
   * price of the range at the pool's current price); no other record changes.
   */
  function DayRollup(days: map<string, IntervalData>, timestamp: int, pool: Pool): (r: map<string, IntervalData>)
    ensures r.Keys == days.Keys + {BucketId(pool.id, DayIndex(timestamp))}
    ensures forall k :: k in days && k != BucketId(pool.id, DayIndex(timestamp)) ==> r[k] == days[k]
    ensures var id := BucketId(pool.id, DayIndex(timestamp));
      id in days ==> r[id] == Touched(days[id], pool)
    ensures var id := BucketId(pool.id, DayIndex(timestamp));
      id !in days ==> r[id] == Touched(NewDayData(id, DayIndex(timestamp) * DayLength, pool), pool)
    ensures var id := BucketId(pool.id, DayIndex(timestamp));
      id in days && days[id].id == id ==> r[id].id == id
    ensures var id := BucketId(pool.id, DayIndex(timestamp));
      id !in days ==> r[id].id == id
    ensures var b := r[BucketId(pool.id, DayIndex(timestamp))];
      BucketId(pool.id, DayIndex(timestamp)) !in days ==>
        && b.periodStart == DayIndex(timestamp) * DayLength && b.poolId == pool.id && b.txCount == 1
        && b.openingPrice == b.high == b.low == b.close == pool.token0Price
        && b.volumeToken0 == b.volumeToken1 == b.volumeUsd == b.feesUsd == 0.0
  {
    var id := BucketId(pool.id, DayIndex(timestamp));
    var prev := if id in days then days[id] else NewDayData(id, DayIndex(timestamp) * DayLength, pool);
    days[id := Touched(prev, pool)]
  }

  /** The hour records after one `updatePoolHourData(timestamp, pool)`, as `DayRollup` for hours. */
  function HourRollup(hours: map<string, IntervalData>, timestamp: int, pool: Pool): (r: map<string, IntervalData>)
    ensures r.Keys == hours.Keys + {BucketId(pool.id, HourIndex(timestamp))}
    ensures forall k :: k in hours && k != BucketId(pool.id, HourIndex(timestamp)) ==> r[k] == hours[k]
    ensures var id := BucketId(pool.id, HourIndex(timestamp));
      id in hours ==> r[id] == Touched(hours[id], pool)
    ensures var id := BucketId(pool.id, HourIndex(timestamp));
      id !in hours ==> r[id] == Touched(NewHourData(id, HourIndex(timestamp) * HourLength, pool), pool)
    ensures var id := BucketId(pool.id, HourIndex(timestamp));
      id in hours && hours[id].id == id ==> r[id].id == id
    ensures var id := BucketId(pool.id, HourIndex(timestamp));
      id !in hours ==> r[id].id == id
    ensures var b := r[BucketId(pool.id, HourIndex(timestamp))];
      BucketId(pool.id, HourIndex(timestamp)) !in hours ==>
        && b.periodStart == HourIndex(timestamp) * HourLength && b.poolId == pool.id && b.txCount == 1
        && b.openingPrice == b.high == b.low == b.close == pool.token0Price
        && b.volumeToken0 == b.volumeToken1 == b.volumeUsd == b.feesUsd == 0.0
  {
    var id := BucketId(pool.id, HourIndex(timestamp));
    var prev := if id in hours then hours[id] else NewHourData(id, HourIndex(timestamp) * HourLength, pool);
    hours[id := Touched(prev, pool)]
  }

  /**
   * A refreshed record with one swap's volume added: USD volume, both token
   * volumes and USD fees grow by the given amounts; nothing else changes, so a
   * well-formed record stays well formed.
   */
  function WithSwapVolume(b: IntervalData, volumeUsd: real, volumeToken0: real, volumeToken1: real, feesUsd: real)
    : (r: IntervalData)
    ensures r.volumeUsd - b.volumeUsd == volumeUsd && r.feesUsd - b.feesUsd == feesUsd
    ensures r.volumeToken0 - b.volumeToken0 == volumeToken0 && r.volumeToken1 - b.volumeToken1 == volumeToken1
    ensures r == b.(volumeUsd := r.volumeUsd, volumeToken0 := r.volumeToken0,
                    volumeToken1 := r.volumeToken1, feesUsd := r.feesUsd)
    ensures forall length :: length > 0 && WellFormedBucket(b, b.id, length) ==> WellFormedBucket(r, r.id, length)
  {
    b.(volumeUsd := b.volumeUsd + volumeUsd, volumeToken0 := b.volumeToken0 + volumeToken0,
       volumeToken1 := b.volumeToken1 + volumeToken1, feesUsd := b.feesUsd + feesUsd)
  }

  lemma AlignedDayStart(index: int)
    ensures (index * DayLength) % DayLength == 0 && (index * DayLength) / DayLength == index
  {
  }

  lemma AlignedHourStart(index: int)
    ensures (index * HourLength) % HourLength == 0 && (index * HourLength) / HourLength == index
  {
  }

  /** Refreshing a stored or freshly created bucket yields a well-formed stored bucket. */
  lemma TouchedIsWellFormed(b: IntervalData, pool: Pool, length: int)
    requires length > 0
    requires b.txCount >= 0 && PriceRangeOrdered(b)
    requires b.periodStart % length == 0 && b.id == BucketId(b.poolId, b.periodStart / length)
    ensures WellFormedBucket(Touched(b, pool), b.id, length)
  {
  }

  method UpdatePoolDayData(store: Store, timestamp: int, pool: Pool) returns (d: IntervalData)
    requires store.Valid()
    modifies store
    ensures store.Valid()
    ensures d.id == BucketId(pool.id, DayIndex(timestamp))
    ensures store.poolDayData == DayRollup(old(store.poolDayData), timestamp, pool)
    ensures store.poolDayData[d.id] == d
    ensures store.factories == old(store.factories) && store.bundles == old(store.bundles)
    ensures store.tokens == old(store.tokens) && store.pools == old(store.pools)
    ensures store.ticks == old(store.ticks) && store.poolHourData == old(store.poolHourData)
  {
    var dayId := DayIndex(timestamp);
    var dayStartTimestamp := dayId * DayLength;
    var dayPoolId := BucketId(pool.id, dayId);
    var loaded := Get(store.poolDayData, dayPoolId);
    var day := if loaded.Some? then loaded.value else NewDayData(dayPoolId, dayStartTimestamp, pool);
    ghost var before := day;

    if pool.token0Price > day.high {
      day := day.(high := pool.token0Price);
    }
    if pool.token0Price < day.low {
      day := day.(low := pool.token0Price);
    }
    day := day.(liquidity := pool.liquidity);
    day := day.(sqrtPrice := pool.sqrtPrice);
    day := day.(token0Price := pool.token0Price);
    day := day.(token1Price := pool.token1Price);
    day := day.(close := pool.token0Price);
    day := day.(tick := pool.tick);
    day := day.(tvlUsd := pool.totalValueLockedUsd);
    day := day.(txCount := day.txCount + 1);
    assert day == Touched(before, pool);

    AlignedDayStart(dayId);
    TouchedIsWellFormed(before, pool, DayLength);
    store.poolDayData := store.poolDayData[day.id := day];
    d := day;
  }

  method UpdatePoolHourData(store: Store, timestamp: int, pool: Pool) returns (h: IntervalData)
    requires store.Valid()
    modifies store
    ensures store.Valid()
    ensures h.id == BucketId(pool.id, HourIndex(timestamp))
    ensures store.poolHourData == HourRollup(old(store.poolHourData), timestamp, pool)
    ensures store.poolHourData[h.id] == h
    ensures store.factories == old(store.factories) && store.bundles == old(store.bundles)
    ensures store.tokens == old(store.tokens) && store.pools == old(store.pools)
    ensures store.ticks == old(store.ticks) && store.poolDayData == old(store.poolDayData)
  {
    var hourIndex := HourIndex(timestamp);
    var hourStartUnix := hourIndex * HourLength;
    var hourPoolId := BucketId(pool.id, hourIndex);
    var loaded := Get(store.poolHourData, hourPoolId);
    var hour := if loaded.Some? then loaded.value else NewHourData(hourPoolId, hourStartUnix, pool);
    ghost var before := hour;

    if pool.token0Price > hour.high {
      hour := hour.(high := pool.token0Price);
    }
    if pool.token0Price < hour.low {
      hour := hour.(low := pool.token0Price);
    }
    hour := hour.(liquidity := pool.liquidity);
    hour := hour.(sqrtPrice := pool.sqrtPrice);
    hour := hour.(token0Price := pool.token0Price);
    hour := hour.(token1Price := pool.token1Price);
    hour := hour.(close := pool.token0Price);
    hour := hour.(tick := pool.tick);
    hour := hour.(tvlUsd := pool.totalValueLockedUsd);
    hour := hour.(txCount := hour.txCount + 1);
    assert hour == Touched(before, pool);

    AlignedHourStart(hourIndex);
    TouchedIsWellFormed(before, pool, HourLength);
    store.poolHourData := store.poolHourData[hour.id := hour];
    h := hour;
  }
}
