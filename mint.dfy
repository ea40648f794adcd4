/**
 * The Mint handler (src/handlers/mint.ts): liquidity added to a position
 * [tickLower, tickUpper) of a pool.
 */
module Mint {
  import opened Entities
  import opened Ids
  import opened Externals
  import opened EntityStore
  import opened HandlerCommon
  import opened IntervalUpdates

  /**
   * `createTick`: an empty tick record whose price of token0 is 1.0001^tickIdx
   * and whose price of token1 is the safe inverse of that.
   */
  function CreateTick(tickId: string, tickIdx: int, poolId: string, timestamp: int, blockNumber: int,
                      nu: NumberUtils): (r: Tick)
    ensures r.id == tickId && r.tickIdx == tickIdx && r.poolId == poolId && r.poolAddress == poolId
    ensures r.liquidityGross == 0 && r.liquidityNet == 0
    ensures r.price0 == nu.fastExponentiation(1.0001, tickIdx)
    ensures r.price1 == nu.safeDiv(1.0, r.price0)
    ensures r.createdAtTimestamp == timestamp && r.createdAtBlockNumber == blockNumber
  {
    var price0 := nu.fastExponentiation(1.0001, tickIdx);
    Tick(
      id := tickId, tickIdx := tickIdx, poolId := poolId, poolAddress := poolId,
      createdAtTimestamp := timestamp, createdAtBlockNumber := blockNumber,
      liquidityGross := 0, liquidityNet := 0,
      price0 := price0, price1 := nu.safeDiv(1.0, price0))
  }

  /** The boundary tick as the handler starts from it: the stored record, or a new one. */
  function TickOrNew(ticks: map<string, Tick>, poolId: string, tickIdx: int, header: EventHeader,
                     nu: NumberUtils): (r: Tick)
    ensures TickId(poolId, tickIdx) in ticks ==> r == ticks[TickId(poolId, tickIdx)]
    ensures TickId(poolId, tickIdx) !in ticks ==> r.liquidityGross == 0 && r.liquidityNet == 0
    ensures TickId(poolId, tickIdx) !in ticks ==> r.id == TickId(poolId, tickIdx) && r.tickIdx == tickIdx
    ensures (forall k :: k in ticks ==> ticks[k].id == k) ==> r.id == TickId(poolId, tickIdx)
  {
    var id := TickId(poolId, tickIdx);
    if id in ticks then ticks[id]
    else CreateTick(id, tickIdx, poolId, header.blockTimestamp, header.blockNumber, nu)
  }

  /** Crossing the lower boundary upward adds the liquidity: gross and net both grow by amount. */
  function MintedLowerTick(t: Tick, amount: int): (r: Tick)
    ensures r.liquidityGross - t.liquidityGross == amount
    ensures r.liquidityNet - t.liquidityNet == amount
    ensures r == t.(liquidityGross := r.liquidityGross, liquidityNet := r.liquidityNet)
  {
    t.(liquidityGross := t.liquidityGross + amount, liquidityNet := t.liquidityNet + amount)
  }

  /** Crossing the upper boundary upward removes the liquidity: gross grows, net shrinks by amount. */
  function MintedUpperTick(t: Tick, amount: int): (r: Tick)
    ensures r.liquidityGross - t.liquidityGross == amount
    ensures t.liquidityNet - r.liquidityNet == amount
    ensures r == t.(liquidityGross := r.liquidityGross, liquidityNet := r.liquidityNet)
  {
    t.(liquidityGross := t.liquidityGross + amount, liquidityNet := t.liquidityNet - amount)
  }

  /**
   * The tick map after a mint: both boundary ticks are present afterwards,
   * the lower one with gross and net liquidity raised by the amount, the upper
   * one with gross raised and net lowered by it (when both boundaries are the
   * same tick the upper update, written last, wins). Every other tick is kept.
   */
  function MintedTicks(ticks: map<string, Tick>, poolId: string, ev: PositionEvent, nu: NumberUtils)
    : (r: map<string, Tick>)
    ensures r.Keys == ticks.Keys + {TickId(poolId, ev.tickLower), TickId(poolId, ev.tickUpper)}
    ensures forall k :: k in ticks && k != TickId(poolId, ev.tickLower) && k != TickId(poolId, ev.tickUpper)
                        ==> r[k] == ticks[k]
    ensures r[TickId(poolId, ev.tickUpper)]
            == MintedUpperTick(TickOrNew(ticks, poolId, ev.tickUpper, ev.header, nu), ev.amount)
    ensures ev.tickLower != ev.tickUpper ==>
      r[TickId(poolId, ev.tickLower)] == MintedLowerTick(TickOrNew(ticks, poolId, ev.tickLower, ev.header, nu), ev.amount)
  {
    var lower := TickOrNew(ticks, poolId, ev.tickLower, ev.header, nu);
    var upper := TickOrNew(ticks, poolId, ev.tickUpper, ev.header, nu);
    TickIdInjective(poolId, ev.tickLower, ev.tickUpper);
    ticks[TickId(poolId, ev.tickLower) := MintedLowerTick(lower, ev.amount)]
         [TickId(poolId, ev.tickUpper) := MintedUpperTick(upper, ev.amount)]
  }

  /**
   * The pool after a mint: one more transaction; active liquidity grows by the
   * minted amount exactly when the position covers the current tick; locked
   * amounts grow by the converted token amounts and TVL is re-derived from
   * them. No other field changes.
   */
  function MintedPool(p: Pool, ev: PositionEvent, amount0: real, amount1: real,
                      derivedEth0: real, derivedEth1: real, ethPriceUsd: real): (r: Pool)
    ensures r.txCount == p.txCount + 1
    ensures r.liquidity == if Straddles(p.tick, ev.tickLower, ev.tickUpper) then p.liquidity + ev.amount else p.liquidity
    ensures r.totalValueLockedToken0 - p.totalValueLockedToken0 == amount0
    ensures r.totalValueLockedToken1 - p.totalValueLockedToken1 == amount1
    ensures r.totalValueLockedEth == r.totalValueLockedToken0 * derivedEth0 + r.totalValueLockedToken1 * derivedEth1
    ensures r.totalValueLockedUsd == r.totalValueLockedEth * ethPriceUsd
    ensures r == p.(txCount := r.txCount, liquidity := r.liquidity,
                    totalValueLockedToken0 := r.totalValueLockedToken0,
                    totalValueLockedToken1 := r.totalValueLockedToken1,
                    totalValueLockedEth := r.totalValueLockedEth, totalValueLockedUsd := r.totalValueLockedUsd)
  {
    var liquidity := if Straddles(p.tick, ev.tickLower, ev.tickUpper) then p.liquidity + ev.amount else p.liquidity;
    PoolRevalued(
      p.(txCount := p.txCount + 1, liquidity := liquidity,
         totalValueLockedToken0 := p.totalValueLockedToken0 + amount0,
         totalValueLockedToken1 := p.totalValueLockedToken1 + amount1),
      derivedEth0, derivedEth1, ethPriceUsd)
  }

  /**
   * The five loaded records after a mint: the bundle is untouched; pool,
   * factory and both tokens count one more transaction; each token's locked
   * amount moves exactly as the pool's locked amount of that token; and the
   * factory's ETH TVL moves exactly as the pool's.
   */
  function Minted(c: Loaded, ev: PositionEvent, nu: NumberUtils): (r: Loaded)
    ensures r.bundle == c.bundle
    ensures r.pool.txCount == c.pool.txCount + 1 && r.factory.txCount == c.factory.txCount + 1
    ensures r.token0.txCount == c.token0.txCount + 1 && r.token1.txCount == c.token1.txCount + 1
    ensures r.token0.totalValueLocked - c.token0.totalValueLocked
            == r.pool.totalValueLockedToken0 - c.pool.totalValueLockedToken0
    ensures r.token1.totalValueLocked - c.token1.totalValueLocked
            == r.pool.totalValueLockedToken1 - c.pool.totalValueLockedToken1
    ensures r.factory.totalValueLockedEth - c.factory.totalValueLockedEth
            == r.pool.totalValueLockedEth - c.pool.totalValueLockedEth
    ensures var amount0 := nu.convertTokenToDecimal(ev.amount0, c.token0.decimals);
      var amount1 := nu.convertTokenToDecimal(ev.amount1, c.token1.decimals);
      && r.pool == MintedPool(c.pool, ev, amount0, amount1, c.token0.derivedEth, c.token1.derivedEth,
                              c.bundle.ethPriceUsd)
      && r.token0 == TokenTvlMoved(c.token0, amount0, c.bundle.ethPriceUsd)
      && r.token1 == TokenTvlMoved(c.token1, amount1, c.bundle.ethPriceUsd)
      && r.factory == c.factory.(txCount := r.factory.txCount, totalValueLockedEth := r.factory.totalValueLockedEth,
                                 totalValueLockedUsd := r.factory.totalValueLockedEth * c.bundle.ethPriceUsd)
  {
    var amount0 := nu.convertTokenToDecimal(ev.amount0, c.token0.decimals);
    var amount1 := nu.convertTokenToDecimal(ev.amount1, c.token1.decimals);
    var pool := MintedPool(c.pool, ev, amount0, amount1, c.token0.derivedEth, c.token1.derivedEth,
                           c.bundle.ethPriceUsd);
    Loaded(
      pool, c.bundle,
      FactoryReaggregated(c.factory.(txCount := c.factory.txCount + 1),
                          c.pool.totalValueLockedEth, pool.totalValueLockedEth, c.bundle.ethPriceUsd),
      TokenTvlMoved(c.token0, amount0, c.bundle.ethPriceUsd),
      TokenTvlMoved(c.token1, amount1, c.bundle.ethPriceUsd))
  }

  /**
   * The handler's working copies of the pool, factory and tokens, updated field
   * by field in the order mint.ts updates them.
   */
  method MintedRecords(c: Loaded, ev: PositionEvent, nu: NumberUtils)
    returns (pool: Pool, factory: Factory, token0: Token, token1: Token)
    ensures Loaded(pool, c.bundle, factory, token0, token1) == Minted(c, ev, nu)
  {
    var bundle := c.bundle;
    factory, pool, token0, token1 := c.factory, c.pool, c.token0, c.token1;
    var amount0 := nu.convertTokenToDecimal(ev.amount0, token0.decimals);
    var amount1 := nu.convertTokenToDecimal(ev.amount1, token1.decimals);

    // the pool's old TVL leaves the factory total until the new one is known
    factory := factory.(totalValueLockedEth := factory.totalValueLockedEth - pool.totalValueLockedEth);
    factory := factory.(txCount := factory.txCount + 1);

    token0 := token0.(txCount := token0.txCount + 1);
    token0 := token0.(totalValueLocked := token0.totalValueLocked + amount0);
    token0 := token0.(totalValueLockedUsd := token0.totalValueLocked * (token0.derivedEth * bundle.ethPriceUsd));

    token1 := token1.(txCount := token1.txCount + 1);
    token1 := token1.(totalValueLocked := token1.totalValueLocked + amount1);
    token1 := token1.(totalValueLockedUsd := token1.totalValueLocked * (token1.derivedEth * bundle.ethPriceUsd));
    assert token0 == TokenTvlMoved(c.token0, amount0, bundle.ethPriceUsd);
    assert token1 == TokenTvlMoved(c.token1, amount1, bundle.ethPriceUsd);

    pool := pool.(txCount := pool.txCount + 1);
    // active liquidity only counts positions that cover the current tick
    if pool.tick.Some? && ev.tickLower <= pool.tick.value && ev.tickUpper > pool.tick.value {
      pool := pool.(liquidity := pool.liquidity + ev.amount);
    }
    pool := pool.(totalValueLockedToken0 := pool.totalValueLockedToken0 + amount0);
    pool := pool.(totalValueLockedToken1 := pool.totalValueLockedToken1 + amount1);
    pool := pool.(totalValueLockedEth := pool.totalValueLockedToken0 * token0.derivedEth
                                         + pool.totalValueLockedToken1 * token1.derivedEth);
    pool := pool.(totalValueLockedUsd := pool.totalValueLockedEth * bundle.ethPriceUsd);
    assert pool == MintedPool(c.pool, ev, amount0, amount1, token0.derivedEth, token1.derivedEth, bundle.ethPriceUsd);

    // the pool's new TVL joins the factory total
    factory := factory.(totalValueLockedEth := factory.totalValueLockedEth + pool.totalValueLockedEth);
    factory := factory.(totalValueLockedUsd := factory.totalValueLockedEth * bundle.ethPriceUsd);
  }

  /**
   * A mint event. Dropped, with nothing written, when the pool, bundle, factory
   * or either token is missing; a missing boundary tick is created instead.
   * Otherwise the ticks, the day and hour rollups, the tokens, the pool and the
   * factory are written in that order.
   */
  method HandleMint(store: Store, ev: PositionEvent, cfg: ChainConfig, nu: NumberUtils) returns (r: Outcome)
    requires store.Valid()
    modifies store
    ensures store.Valid()
    ensures var load := old(LoadFrom(store, ev.header, cfg.factoryAddress));
      load.NotFound? ==> r == Skipped(load.reason) && unchanged(store)
    ensures var load := old(LoadFrom(store, ev.header, cfg.factoryAddress));
      load.Found? ==>
        var c := load.ctx;
        var m := Minted(c, ev, nu);
        && r == Applied
        && store.ticks == MintedTicks(old(store.ticks), c.pool.id, ev, nu)
        && store.poolDayData == DayRollup(old(store.poolDayData), ev.header.blockTimestamp, m.pool)
        && store.poolHourData == HourRollup(old(store.poolHourData), ev.header.blockTimestamp, m.pool)
        && store.tokens == old(store.tokens)[c.token0.id := m.token0][c.token1.id := m.token1]
        && store.pools == old(store.pools)[c.pool.id := m.pool]
        && store.factories == old(store.factories)[c.factory.id := m.factory]
        && store.bundles == old(store.bundles)
  {
    var load := LoadPoolEvent(store.pools, store.bundles, store.factories, store.tokens, ev.header, cfg.factoryAddress);
    if load.NotFound? {
      return Skipped(load.reason);
    }
    LoadedIds(store, ev.header, cfg.factoryAddress);
    var c := load.ctx;
    var poolId := EntityId(ev.header.chainId, ev.header.srcAddress);
    var lowerTick := TickOrNew(store.ticks, poolId, ev.tickLower, ev.header, nu);
    var upperTick := TickOrNew(store.ticks, poolId, ev.tickUpper, ev.header, nu);

    var pool, factory, token0, token1 := MintedRecords(c, ev, nu);
    var timestamp := ev.header.blockTimestamp;

    lowerTick := MintedLowerTick(lowerTick, ev.amount);
    upperTick := MintedUpperTick(upperTick, ev.amount);
    store.SetTick(lowerTick);
    store.SetTick(upperTick);
    assert store.ticks == MintedTicks(old(store.ticks), c.pool.id, ev, nu);

    var _ := UpdatePoolDayData(store, timestamp, pool);
    var _ := UpdatePoolHourData(store, timestamp, pool);

    store.SetToken(token0);
    store.SetToken(token1);
    store.SetPool(pool);
    store.SetFactory(factory);
    r := Applied;
  }
}
