/**
 * The keyed entity store the handlers read and write: one map per record kind,
 * from id to record. `get` is a map lookup and `set(record)` writes the record
 * under its own id.
 */
module EntityStore {
  import opened Entities
  import opened Ids

  function Get<T>(m: map<string, T>, id: string): (r: Option<T>)
    ensures r.Some? <==> id in m
    ensures r.Some? ==> r.value == m[id]
  {
    if id in m then Some(m[id]) else None
  }

  /** Writing the same key twice keeps only the second write. */
  lemma OverwriteTwice<T>(m: map<string, T>, k: string, a: T, b: T)
    ensures m[k := a][k := b] == m[k := b]
  {
  }

  /**
   * A stored rollup: written under its own id, which names its pool and its
   * bucket index; its start is aligned to the bucket length; it has been
   * touched at least once; and its opening and closing prices lie in
   * [low, high].
   */
  ghost predicate WellFormedBucket(b: IntervalData, key: string, length: int)
    requires length > 0
  {
    && b.id == key
    && b.periodStart % length == 0
    && b.id == BucketId(b.poolId, b.periodStart / length)
    && b.txCount >= 1
    && PriceRangeOrdered(b)
  }

  class Store {
    var factories: map<string, Factory>
    var bundles: map<string, Bundle>
    var tokens: map<string, Token>
    var pools: map<string, Pool>
    var ticks: map<string, Tick>
    var poolDayData: map<string, IntervalData>
    var poolHourData: map<string, IntervalData>

    /** Every record is stored under its own id; stored rollups are well formed. */
    ghost predicate Valid()
      reads this
    {
      && (forall k :: k in factories ==> factories[k].id == k)
      && (forall k :: k in bundles ==> bundles[k].id == k)
      && (forall k :: k in tokens ==> tokens[k].id == k)
      && (forall k :: k in pools ==> pools[k].id == k)
      && (forall k :: k in ticks ==> ticks[k].id == k)
      && (forall k :: k in poolDayData ==> WellFormedBucket(poolDayData[k], k, DayLength))
      && (forall k :: k in poolHourData ==> WellFormedBucket(poolHourData[k], k, HourLength))
    }

    constructor ()
      ensures Valid()
      ensures factories == map[] && bundles == map[] && tokens == map[] && pools == map[]
      ensures ticks == map[] && poolDayData == map[] && poolHourData == map[]
    {
      factories, bundles, tokens, pools := map[], map[], map[], map[];
      ticks, poolDayData, poolHourData := map[], map[], map[];
    }

    /** `context.Factory.set`: the record is stored under its own id; nothing else changes. */
    method SetFactory(f: Factory)
      requires Valid()
      modifies this
      ensures Valid()
      ensures factories == old(factories)[f.id := f]
      ensures bundles == old(bundles) && tokens == old(tokens) && pools == old(pools)
      ensures ticks == old(ticks) && poolDayData == old(poolDayData) && poolHourData == old(poolHourData)
    {
      factories := factories[f.id := f];
    }

    /** `context.Bundle.set`. */
    method SetBundle(b: Bundle)
      requires Valid()
      modifies this
      ensures Valid()
      ensures bundles == old(bundles)[b.id := b]
      ensures factories == old(factories) && tokens == old(tokens) && pools == old(pools)
      ensures ticks == old(ticks) && poolDayData == old(poolDayData) && poolHourData == old(poolHourData)
    {
      bundles := bundles[b.id := b];
    }

    /** `context.Token.set`. */
    method SetToken(t: Token)
      requires Valid()
      modifies this
      ensures Valid()
      ensures tokens == old(tokens)[t.id := t]
      ensures factories == old(factories) && bundles == old(bundles) && pools == old(pools)
      ensures ticks == old(ticks) && poolDayData == old(poolDayData) && poolHourData == old(poolHourData)
    {
      tokens := tokens[t.id := t];
    }

    /** `context.Pool.set`. */
    method SetPool(p: Pool)
      requires Valid()
      modifies this
      ensures Valid()
      ensures pools == old(pools)[p.id := p]
      ensures factories == old(factories) && bundles == old(bundles) && tokens == old(tokens)
      ensures ticks == old(ticks) && poolDayData == old(poolDayData) && poolHourData == old(poolHourData)
    {
      pools := pools[p.id := p];
    }

    /** `context.PoolDayData.set`: only a well-formed day record may be stored. */
    method SetPoolDayData(d: IntervalData)
      requires Valid() && WellFormedBucket(d, d.id, DayLength)
      modifies this
      ensures Valid()
      ensures poolDayData == old(poolDayData)[d.id := d]
      ensures factories == old(factories) && bundles == old(bundles) && tokens == old(tokens)
      ensures pools == old(pools) && ticks == old(ticks) && poolHourData == old(poolHourData)
    {
      poolDayData := poolDayData[d.id := d];
    }

    /** `context.PoolHourData.set`: only a well-formed hour record may be stored. */
    method SetPoolHourData(h: IntervalData)
      requires Valid() && WellFormedBucket(h, h.id, HourLength)
      modifies this
      ensures Valid()
      ensures poolHourData == old(poolHourData)[h.id := h]
      ensures factories == old(factories) && bundles == old(bundles) && tokens == old(tokens)
      ensures pools == old(pools) && ticks == old(ticks) && poolDayData == old(poolDayData)
    {
      poolHourData := poolHourData[h.id := h];
    }

    /** `context.Tick.set`. */
    method SetTick(t: Tick)
      requires Valid()
      modifies this
      ensures Valid()
      ensures ticks == old(ticks)[t.id := t]
      ensures factories == old(factories) && bundles == old(bundles) && tokens == old(tokens)
      ensures pools == old(pools) && poolDayData == old(poolDayData) && poolHourData == old(poolHourData)
    {
      ticks := ticks[t.id := t];
    }
  }
}
