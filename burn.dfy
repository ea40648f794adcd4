/**
 * The Burn handler (src/handlers/burn.ts): liquidity removed from a position
 * [tickLower, tickUpper) of a pool. Only transaction counts, the pool's active
 * liquidity and the boundary ticks change; TVL is left to the Collect handler.
 */
module Burn {
  import opened Entities
  import opened Ids
  import opened Externals
  import opened EntityStore
  import opened HandlerCommon
  import opened IntervalUpdates
  import opened Mint

  /**
   * The pool after a burn: one more transaction, and active liquidity lowered
   * by the burnt amount exactly when the position covers the current tick.
   * No TVL, volume, fee or price field changes.
   */
  function BurnedPool(p: Pool, ev: PositionEvent): (r: Pool)
    ensures r.txCount == p.txCount + 1
    ensures Straddles(p.tick, ev.tickLower, ev.tickUpper) ==> p.liquidity - r.liquidity == ev.amount
    ensures !Straddles(p.tick, ev.tickLower, ev.tickUpper) ==> r.liquidity == p.liquidity
    ensures r == p.(txCount := r.txCount, liquidity := r.liquidity)
  {
    p.(txCount := p.txCount + 1,
       liquidity := if Straddles(p.tick, ev.tickLower, ev.tickUpper) then p.liquidity - ev.amount else p.liquidity)
  }

  /**
   * A boundary tick after a burn, as burn.ts updates both the lower and the
   * upper one: gross and net liquidity each lowered by the amount.
   */
  function BurnedTick(t: Tick, amount: int): (r: Tick)
    ensures t.liquidityGross - r.liquidityGross == amount
    ensures t.liquidityNet - r.liquidityNet == amount
    ensures r == t.(liquidityGross := r.liquidityGross, liquidityNet := r.liquidityNet)
  {
    t.(liquidityGross := t.liquidityGross - amount, liquidityNet := t.liquidityNet - amount)
  }

  /**
   * The tick map after a burn: the boundary ticks change only when both are
   * stored; unlike a mint, a burn never creates a tick. When both boundaries
   * are the same tick the upper update, written last, wins.
   */
  function BurnedTicks(ticks: map<string, Tick>, poolId: string, ev: PositionEvent): (r: map<string, Tick>)
    ensures r.Keys == ticks.Keys
    ensures forall k :: k in ticks && k != TickId(poolId, ev.tickLower) && k != TickId(poolId, ev.tickUpper)
                        ==> r[k] == ticks[k]
    ensures !(TickId(poolId, ev.tickLower) in ticks && TickId(poolId, ev.tickUpper) in ticks) ==> r == ticks
    ensures TickId(poolId, ev.tickLower) in ticks && TickId(poolId, ev.tickUpper) in ticks ==>
      && r[TickId(poolId, ev.tickUpper)] == BurnedTick(ticks[TickId(poolId, ev.tickUpper)], ev.amount)
      && (ev.tickLower != ev.tickUpper ==>
            r[TickId(poolId, ev.tickLower)] == BurnedTick(ticks[TickId(poolId, ev.tickLower)], ev.amount))
  {
    var lowerId, upperId := TickId(poolId, ev.tickLower), TickId(poolId, ev.tickUpper);
    TickIdInjective(poolId, ev.tickLower, ev.tickUpper);
    if lowerId in ticks && upperId in ticks then
      ticks[lowerId := BurnedTick(ticks[lowerId], ev.amount)][upperId := BurnedTick(ticks[upperId], ev.amount)]
    else
      ticks
  }

  /**
   * The five loaded records after a burn: pool, factory and both tokens count
   * one more transaction and nothing else moves except the pool's active
   * liquidity; the bundle is untouched.
   */
  function Burned(c: Loaded, ev: PositionEvent): (r: Loaded)
    ensures r.bundle == c.bundle
    ensures r.pool == BurnedPool(c.pool, ev)
    ensures r.factory == c.factory.(txCount := c.factory.txCount + 1)
    ensures r.token0 == c.token0.(txCount := c.token0.txCount + 1)
    ensures r.token1 == c.token1.(txCount := c.token1.txCount + 1)
    ensures r.pool.totalValueLockedEth == c.pool.totalValueLockedEth
    ensures r.factory.totalValueLockedEth == c.factory.totalValueLockedEth
    ensures r.token0.totalValueLocked == c.token0.totalValueLocked
    ensures r.token1.totalValueLocked == c.token1.totalValueLocked
  {
    Loaded(BurnedPool(c.pool, ev), c.bundle, c.factory.(txCount := c.factory.txCount + 1),
           c.token0.(txCount := c.token0.txCount + 1), c.token1.(txCount := c.token1.txCount + 1))
  }

  /** The handler's working copies, updated field by field in the order burn.ts updates them. */
  method BurnedRecords(c: Loaded, ev: PositionEvent)
    returns (pool: Pool, factory: Factory, token0: Token, token1: Token)
    ensures Loaded(pool, c.bundle, factory, token0, token1) == Burned(c, ev)
  {
    factory, pool, token0, token1 := c.factory, c.pool, c.token0, c.token1;
    factory := factory.(txCount := factory.txCount + 1);
    token0 := token0.(txCount := token0.txCount + 1);
    token1 := token1.(txCount := token1.txCount + 1);
    pool := pool.(txCount := pool.txCount + 1);
    // active liquidity only counts positions that cover the current tick
    if pool.tick.Some? && ev.tickLower <= pool.tick.value && ev.tickUpper > pool.tick.value {
      pool := pool.(liquidity := pool.liquidity - ev.amount);
    }
  }

  /**
   * A burn event. Dropped, with nothing written, when the pool, bundle, factory
   * or either token is missing. Otherwise the boundary ticks (when both are
   * stored), the day and hour rollups, the tokens, the pool and the factory
   * are written in that order. Both boundary ticks lose the amount in gross
   * and in net liquidity, as burn.ts writes them (see `MintThenBurnTicks`).
   */
  method HandleBurn(store: Store, ev: PositionEvent, cfg: ChainConfig) returns (r: Outcome)
    requires store.Valid()
    modifies store
    ensures store.Valid()
    ensures var load := old(LoadFrom(store, ev.header, cfg.factoryAddress));
      load.NotFound? ==> r == Skipped(load.reason) && unchanged(store)
    ensures var load := old(LoadFrom(store, ev.header, cfg.factoryAddress));
      load.Found? ==>
        var c := load.ctx;
        var b := Burned(c, ev);
        && r == Applied
        && store.ticks == BurnedTicks(old(store.ticks), c.pool.id, ev)
        && store.poolDayData == DayRollup(old(store.poolDayData), ev.header.blockTimestamp, b.pool)
        && store.poolHourData == HourRollup(old(store.poolHourData), ev.header.blockTimestamp, b.pool)
        && store.tokens == old(store.tokens)[c.token0.id := b.token0][c.token1.id := b.token1]
        && store.pools == old(store.pools)[c.pool.id := b.pool]
        && store.factories == old(store.factories)[c.factory.id := b.factory]
        && store.bundles == old(store.bundles)
  {
    var load := LoadPoolEvent(store.pools, store.bundles, store.factories, store.tokens, ev.header, cfg.factoryAddress);
    if load.NotFound? {
      return Skipped(load.reason);
    }
    LoadedIds(store, ev.header, cfg.factoryAddress);
    var c := load.ctx;
    var poolId := EntityId(ev.header.chainId, ev.header.srcAddress);
    var lowerTickRO := Get(store.ticks, TickId(poolId, ev.tickLower));
    var upperTickRO := Get(store.ticks, TickId(poolId, ev.tickUpper));

    var pool, factory, token0, token1 := BurnedRecords(c, ev);
    var timestamp := ev.header.blockTimestamp;

    if lowerTickRO.Some? && upperTickRO.Some? {
      var lowerTick := BurnedTick(lowerTickRO.value, ev.amount);
      var upperTick := BurnedTick(upperTickRO.value, ev.amount);
      store.SetTick(lowerTick);
      store.SetTick(upperTick);
    }
    assert store.ticks == BurnedTicks(old(store.ticks), c.pool.id, ev);

    var _ := UpdatePoolDayData(store, timestamp, pool);
    var _ := UpdatePoolHourData(store, timestamp, pool);

    store.SetToken(token0);
    store.SetToken(token1);
    store.SetPool(pool);
    store.SetFactory(factory);
    r := Applied;
  }

  /**
   * Minting a position and then burning it, as the two handlers are written:
   * both gross liquidities and the lower tick's net liquidity come back to
   * where they started (a tick the mint created stays, empty), but the upper
   * tick's net liquidity ends twice the amount lower.
   */
  lemma MintThenBurnTicks(ticks: map<string, Tick>, poolId: string, ev: PositionEvent, nu: NumberUtils)
    requires ev.tickLower != ev.tickUpper
    ensures var lower := TickOrNew(ticks, poolId, ev.tickLower, ev.header, nu);
      var upper := TickOrNew(ticks, poolId, ev.tickUpper, ev.header, nu);
      BurnedTicks(MintedTicks(ticks, poolId, ev, nu), poolId, ev)
        == ticks[TickId(poolId, ev.tickLower) := lower]
                [TickId(poolId, ev.tickUpper) := upper.(liquidityNet := upper.liquidityNet - 2 * ev.amount)]
  {
  }

  /**
   * A concrete instance: minting one unit on ticks [0, 10) of a pool with no
   * ticks and then burning it, as written, leaves the upper tick with net
   * liquidity -2 where it started at 0.
   */
  lemma MintThenBurnExample(nu: NumberUtils)
    ensures var ev := PositionEvent(EventHeader(1, "0xpool", 100, 1700000000), 0, 10, 1, 0, 0);
      var after := BurnedTicks(MintedTicks(map[], "1-0xpool", ev, nu), "1-0xpool", ev);
      && TickId("1-0xpool", 10) in after
      && after[TickId("1-0xpool", 10)].liquidityNet == -2
  {
    var ev := PositionEvent(EventHeader(1, "0xpool", 100, 1700000000), 0, 10, 1, 0, 0);
    MintThenBurnTicks(map[], "1-0xpool", ev, nu);
  }

  /**
   * The upper boundary as a burn is evidently meant to update it, reversing
   * the mint: gross lowered and net raised by the amount.
   */
  function RestoringBurnedUpperTick(t: Tick, amount: int): (r: Tick)
    ensures t.liquidityGross - r.liquidityGross == amount
    ensures r.liquidityNet - t.liquidityNet == amount
    ensures r == t.(liquidityGross := r.liquidityGross, liquidityNet := r.liquidityNet)
  {
    t.(liquidityGross := t.liquidityGross - amount, liquidityNet := t.liquidityNet + amount)
  }

  /** The tick map after a burn with the upper boundary updated as `RestoringBurnedUpperTick` says. */
  function RestoringBurnedTicks(ticks: map<string, Tick>, poolId: string, ev: PositionEvent)
    : (r: map<string, Tick>)
    ensures r.Keys == ticks.Keys
    ensures forall k :: k in ticks && k != TickId(poolId, ev.tickLower) && k != TickId(poolId, ev.tickUpper)
                        ==> r[k] == ticks[k]
    ensures !(TickId(poolId, ev.tickLower) in ticks && TickId(poolId, ev.tickUpper) in ticks) ==> r == ticks
    ensures TickId(poolId, ev.tickLower) in ticks && TickId(poolId, ev.tickUpper) in ticks ==>
      && r[TickId(poolId, ev.tickUpper)] == RestoringBurnedUpperTick(ticks[TickId(poolId, ev.tickUpper)], ev.amount)
      && (ev.tickLower != ev.tickUpper ==>
            r[TickId(poolId, ev.tickLower)] == BurnedTick(ticks[TickId(poolId, ev.tickLower)], ev.amount))
  {
    var lowerId, upperId := TickId(poolId, ev.tickLower), TickId(poolId, ev.tickUpper);
    TickIdInjective(poolId, ev.tickLower, ev.tickUpper);
    if lowerId in ticks && upperId in ticks then
      ticks[lowerId := BurnedTick(ticks[lowerId], ev.amount)]
           [upperId := RestoringBurnedUpperTick(ticks[upperId], ev.amount)]
    else
      ticks
  }

  /**
   * With the corrected upper-tick update, burning what was just minted puts
   * every boundary tick back as it was before the mint (a tick the mint
   * created stays, empty).
   */
  lemma MintThenRestoringBurnTicks(ticks: map<string, Tick>, poolId: string, ev: PositionEvent,
                                   nu: NumberUtils)
    requires ev.tickLower != ev.tickUpper
    ensures RestoringBurnedTicks(MintedTicks(ticks, poolId, ev, nu), poolId, ev)
            == ticks[TickId(poolId, ev.tickLower) := TickOrNew(ticks, poolId, ev.tickLower, ev.header, nu)]
                    [TickId(poolId, ev.tickUpper) := TickOrNew(ticks, poolId, ev.tickUpper, ev.header, nu)]
  {
  }
}
