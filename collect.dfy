/**
 * The Collect handler (src/handlers/collect.ts): a position owner withdraws
 * tokens from a pool. The withdrawn amounts leave the pool's and the tokens'
 * locked value and are added to the pool's collected fees.
 */
module Collect {
  import opened Entities
  import opened Ids
  import opened Externals
  import opened EntityStore
  import opened HandlerCommon
  import opened IntervalUpdates

  /**
   * The pool after a collect: one more transaction; each locked amount goes
   * down by exactly what its collected-fee total goes up by; the USD fee
   * total grows by the tracked USD value; TVL is re-derived. Liquidity, tick,
   * price and volume fields are untouched.
   */
  function CollectedPool(p: Pool, collected0: real, collected1: real, trackedUsd: real,
                         derivedEth0: real, derivedEth1: real, ethPriceUsd: real): (r: Pool)
    ensures r.txCount == p.txCount + 1
    ensures p.totalValueLockedToken0 - r.totalValueLockedToken0 == collected0
    ensures p.totalValueLockedToken1 - r.totalValueLockedToken1 == collected1
    ensures r.collectedFeesToken0 - p.collectedFeesToken0 == collected0
    ensures r.collectedFeesToken1 - p.collectedFeesToken1 == collected1
    ensures r.totalValueLockedToken0 + r.collectedFeesToken0 == p.totalValueLockedToken0 + p.collectedFeesToken0
    ensures r.totalValueLockedToken1 + r.collectedFeesToken1 == p.totalValueLockedToken1 + p.collectedFeesToken1
    ensures r.collectedFeesUsd - p.collectedFeesUsd == trackedUsd
    ensures r.totalValueLockedEth == r.totalValueLockedToken0 * derivedEth0 + r.totalValueLockedToken1 * derivedEth1
    ensures r.totalValueLockedUsd == r.totalValueLockedEth * ethPriceUsd
    ensures r == p.(txCount := r.txCount,
                    totalValueLockedToken0 := r.totalValueLockedToken0,
                    totalValueLockedToken1 := r.totalValueLockedToken1,
                    totalValueLockedEth := r.totalValueLockedEth, totalValueLockedUsd := r.totalValueLockedUsd,
                    collectedFeesToken0 := r.collectedFeesToken0, collectedFeesToken1 := r.collectedFeesToken1,
                    collectedFeesUsd := r.collectedFeesUsd)
  {
    PoolRevalued(
      p.(txCount := p.txCount + 1,
         totalValueLockedToken0 := p.totalValueLockedToken0 - collected0,
         totalValueLockedToken1 := p.totalValueLockedToken1 - collected1),
      derivedEth0, derivedEth1, ethPriceUsd)
    .(collectedFeesToken0 := p.collectedFeesToken0 + collected0,
      collectedFeesToken1 := p.collectedFeesToken1 + collected1,
      collectedFeesUsd := p.collectedFeesUsd + trackedUsd)
  }

  /**
   * The five loaded records after a collect: the bundle is untouched; pool,
   * factory and both tokens count one more transaction; each token's locked
   * amount goes down exactly as the pool's locked amount of that token; the
   * factory's ETH TVL moves exactly as the pool's; the collected USD value is
   * the tracked amount of the two collected amounts at the pre-event prices.
   */
  function Collected(c: Loaded, ev: CollectEvent, whitelistTokens: seq<string>, nu: NumberUtils, pr: Pricing)
    : (r: Loaded)
    ensures r.bundle == c.bundle
    ensures r.pool.txCount == c.pool.txCount + 1 && r.factory.txCount == c.factory.txCount + 1
    ensures r.token0.txCount == c.token0.txCount + 1 && r.token1.txCount == c.token1.txCount + 1
    ensures r.token0.totalValueLocked - c.token0.totalValueLocked
            == r.pool.totalValueLockedToken0 - c.pool.totalValueLockedToken0
    ensures r.token1.totalValueLocked - c.token1.totalValueLocked
            == r.pool.totalValueLockedToken1 - c.pool.totalValueLockedToken1
    ensures r.factory.totalValueLockedEth - c.factory.totalValueLockedEth
            == r.pool.totalValueLockedEth - c.pool.totalValueLockedEth
    ensures var collected0 := nu.convertTokenToDecimal(ev.amount0, c.token0.decimals);
      var collected1 := nu.convertTokenToDecimal(ev.amount1, c.token1.decimals);
      var trackedUsd := pr.getTrackedAmountUsd(c.bundle, collected0, c.token0, collected1, c.token1, whitelistTokens);
      && r.pool == CollectedPool(c.pool, collected0, collected1, trackedUsd,
                                 c.token0.derivedEth, c.token1.derivedEth, c.bundle.ethPriceUsd)
      && r.token0 == TokenTvlMoved(c.token0, -collected0, c.bundle.ethPriceUsd)
      && r.token1 == TokenTvlMoved(c.token1, -collected1, c.bundle.ethPriceUsd)
      && r.factory == c.factory.(txCount := r.factory.txCount, totalValueLockedEth := r.factory.totalValueLockedEth,
                                 totalValueLockedUsd := r.factory.totalValueLockedEth * c.bundle.ethPriceUsd)
  {
    var collected0 := nu.convertTokenToDecimal(ev.amount0, c.token0.decimals);
    var collected1 := nu.convertTokenToDecimal(ev.amount1, c.token1.decimals);
    var trackedUsd := pr.getTrackedAmountUsd(c.bundle, collected0, c.token0, collected1, c.token1, whitelistTokens);
    var pool := CollectedPool(c.pool, collected0, collected1, trackedUsd,
                              c.token0.derivedEth, c.token1.derivedEth, c.bundle.ethPriceUsd);
    Loaded(
      pool, c.bundle,
      FactoryReaggregated(c.factory.(txCount := c.factory.txCount + 1),
                          c.pool.totalValueLockedEth, pool.totalValueLockedEth, c.bundle.ethPriceUsd),
      TokenTvlMoved(c.token0, -collected0, c.bundle.ethPriceUsd),
      TokenTvlMoved(c.token1, -collected1, c.bundle.ethPriceUsd))
  }

  /** The handler's working copies, updated field by field in the order collect.ts updates them. */
  method CollectedRecords(c: Loaded, ev: CollectEvent, whitelistTokens: seq<string>, nu: NumberUtils, pr: Pricing)
    returns (pool: Pool, factory: Factory, token0: Token, token1: Token)
    ensures Loaded(pool, c.bundle, factory, token0, token1) == Collected(c, ev, whitelistTokens, nu, pr)
  {
    var bundle := c.bundle;
    factory, pool, token0, token1 := c.factory, c.pool, c.token0, c.token1;
    var collected0 := nu.convertTokenToDecimal(ev.amount0, token0.decimals);
    var collected1 := nu.convertTokenToDecimal(ev.amount1, token1.decimals);
    var trackedUsd := pr.getTrackedAmountUsd(bundle, collected0, token0, collected1, token1, whitelistTokens);

    // the pool's old TVL leaves the factory total until the new one is known
    factory := factory.(totalValueLockedEth := factory.totalValueLockedEth - pool.totalValueLockedEth);
    factory := factory.(txCount := factory.txCount + 1);

    token0 := token0.(txCount := token0.txCount + 1);
    token0 := token0.(totalValueLocked := token0.totalValueLocked - collected0);
    token0 := token0.(totalValueLockedUsd := token0.totalValueLocked * (token0.derivedEth * bundle.ethPriceUsd));

    token1 := token1.(txCount := token1.txCount + 1);
    token1 := token1.(totalValueLocked := token1.totalValueLocked - collected1);
    token1 := token1.(totalValueLockedUsd := token1.totalValueLocked * (token1.derivedEth * bundle.ethPriceUsd));
    assert token0 == TokenTvlMoved(c.token0, -collected0, bundle.ethPriceUsd);
    assert token1 == TokenTvlMoved(c.token1, -collected1, bundle.ethPriceUsd);

    pool := pool.(txCount := pool.txCount + 1);
    pool := pool.(totalValueLockedToken0 := pool.totalValueLockedToken0 - collected0);
    pool := pool.(totalValueLockedToken1 := pool.totalValueLockedToken1 - collected1);
    pool := pool.(totalValueLockedEth := pool.totalValueLockedToken0 * token0.derivedEth
                                         + pool.totalValueLockedToken1 * token1.derivedEth);
    pool := pool.(totalValueLockedUsd := pool.totalValueLockedEth * bundle.ethPriceUsd);

    pool := pool.(collectedFeesToken0 := pool.collectedFeesToken0 + collected0);
    pool := pool.(collectedFeesToken1 := pool.collectedFeesToken1 + collected1);
    pool := pool.(collectedFeesUsd := pool.collectedFeesUsd + trackedUsd);
    assert pool == CollectedPool(c.pool, collected0, collected1, trackedUsd,
                                 token0.derivedEth, token1.derivedEth, bundle.ethPriceUsd);

    // the pool's new TVL joins the factory total
    factory := factory.(totalValueLockedEth := factory.totalValueLockedEth + pool.totalValueLockedEth);
    factory := factory.(totalValueLockedUsd := factory.totalValueLockedEth * bundle.ethPriceUsd);
  }

  /**
   * A collect event. Dropped, with nothing written, when the pool, bundle,
   * factory or either token is missing. Otherwise the day and hour rollups,
   * the tokens, the pool and the factory are written in that order; no tick
   * and no bundle is touched.
   */
  method HandleCollect(store: Store, ev: CollectEvent, cfg: ChainConfig, nu: NumberUtils, pr: Pricing)
    returns (r: Outcome)
    requires store.Valid()
    modifies store
    ensures store.Valid()
    ensures var load := old(LoadFrom(store, ev.header, cfg.factoryAddress));
      load.NotFound? ==> r == Skipped(load.reason) && unchanged(store)
    ensures var load := old(LoadFrom(store, ev.header, cfg.factoryAddress));
      load.Found? ==>
        var c := load.ctx;
        var k := Collected(c, ev, cfg.whitelistTokens, nu, pr);
        && r == Applied
        && store.poolDayData == DayRollup(old(store.poolDayData), ev.header.blockTimestamp, k.pool)
        && store.poolHourData == HourRollup(old(store.poolHourData), ev.header.blockTimestamp, k.pool)
        && store.tokens == old(store.tokens)[c.token0.id := k.token0][c.token1.id := k.token1]
        && store.pools == old(store.pools)[c.pool.id := k.pool]
        && store.factories == old(store.factories)[c.factory.id := k.factory]
        && store.ticks == old(store.ticks)
        && store.bundles == old(store.bundles)
  {
    var load := LoadPoolEvent(store.pools, store.bundles, store.factories, store.tokens, ev.header, cfg.factoryAddress);
    if load.NotFound? {
      return Skipped(load.reason);
    }
    LoadedIds(store, ev.header, cfg.factoryAddress);
    var c := load.ctx;

    var pool, factory, token0, token1 := CollectedRecords(c, ev, cfg.whitelistTokens, nu, pr);
    var timestamp := ev.header.blockTimestamp;

    var _ := UpdatePoolDayData(store, timestamp, pool);
    var _ := UpdatePoolHourData(store, timestamp, pool);

    store.SetToken(token0);
    store.SetToken(token1);
    store.SetPool(pool);
    store.SetFactory(factory);
    r := Applied;
  }
}
