/**
 * The Swap handler (src/handlers/swap.ts): a trade against a pool. Volumes
 * and fees accumulate, the pool takes the event's liquidity, price and tick,
 * and then the ETH price and both tokens' ETH prices are re-derived from the
 * store, which at that moment already holds the swapped pool.
 */
module Swap {
  import opened Entities
  import opened Ids
  import opened Externals
  import opened EntityStore
  import opened HandlerCommon
  import opened IntervalUpdates

  /** The lower-cased address of the pool whose swaps are ignored on every chain. */
  const ExcludedPoolAddress: string := "0x9663f2ca0454accad3e094448ea6f77443880454"

  function ExcludedPoolId(chainId: int): string
  {
    ChainKey(chainId) + "-" + ExcludedPoolAddress
  }

  /** A swap is ignored exactly when it comes from the excluded address, in any letter case. */
  lemma ExcludedIffAddress(chainId: int, srcAddress: string)
    ensures EntityId(chainId, srcAddress) == ExcludedPoolId(chainId) <==> ToLower(srcAddress) == ExcludedPoolAddress
  {
    if EntityId(chainId, srcAddress) == ExcludedPoolId(chainId) {
      SameTailIfSamePrefix(ChainKey(chainId) + "-", ToLower(srcAddress), ExcludedPoolAddress);
    }
  }

  /** The absolute value of a signed token delta. */
  function Abs(x: real): (r: real)
    ensures r >= 0.0
    ensures r == x || r == -x
  {
    if x < 0.0 then x * -1.0 else x
  }

  /** The amounts one swap contributes, all computed from pre-swap prices. */
  datatype SwapAmounts = SwapAmounts(
    amount0: real, amount1: real,          // signed token deltas, as decimals
    amount0Abs: real, amount1Abs: real,    // their absolute values
    trackedUsd: real, trackedEth: real,    // volume counted once, priced through whitelisted tokens
    untrackedUsd: real,                    // volume counted once, priced through derivedEth
    feesEth: real, feesUsd: real)

  /**
   * The volume of a swap: input and output are both counted by the price
   * helpers, so tracked and untracked USD volume are half of the sum; fees are
   * the tracked volume times the fee tier in millionths.
   */
  function SwapAmountsOf(c: Loaded, ev: SwapEvent, whitelistTokens: seq<string>, nu: NumberUtils, pr: Pricing)
    : (a: SwapAmounts)
    ensures a.amount0 == nu.convertTokenToDecimal(ev.amount0, c.token0.decimals)
    ensures a.amount1 == nu.convertTokenToDecimal(ev.amount1, c.token1.decimals)
    ensures a.amount0Abs >= 0.0 && (a.amount0Abs == a.amount0 || a.amount0Abs == -a.amount0)
    ensures a.amount1Abs >= 0.0 && (a.amount1Abs == a.amount1 || a.amount1Abs == -a.amount1)
    ensures 2.0 * a.trackedUsd
            == pr.getTrackedAmountUsd(c.bundle, a.amount0Abs, c.token0, a.amount1Abs, c.token1, whitelistTokens)
    ensures a.trackedEth == nu.safeDiv(a.trackedUsd, c.bundle.ethPriceUsd)
    ensures 2.0 * a.untrackedUsd == a.amount0Abs * c.token0.derivedEth * c.bundle.ethPriceUsd
                                    + a.amount1Abs * c.token1.derivedEth * c.bundle.ethPriceUsd
    ensures a.feesUsd == a.trackedUsd * (c.pool.feeTier as real / 1000000.0)
    ensures a.feesEth == a.trackedEth * (c.pool.feeTier as real / 1000000.0)
  {
    var amount0 := nu.convertTokenToDecimal(ev.amount0, c.token0.decimals);
    var amount1 := nu.convertTokenToDecimal(ev.amount1, c.token1.decimals);
    var amount0Abs, amount1Abs := Abs(amount0), Abs(amount1);
    var amount0Usd := amount0Abs * c.token0.derivedEth * c.bundle.ethPriceUsd;
    var amount1Usd := amount1Abs * c.token1.derivedEth * c.bundle.ethPriceUsd;
    var trackedUsd :=
      pr.getTrackedAmountUsd(c.bundle, amount0Abs, c.token0, amount1Abs, c.token1, whitelistTokens) / 2.0;
    var trackedEth := nu.safeDiv(trackedUsd, c.bundle.ethPriceUsd);
    var scaler := c.pool.feeTier as real / 1000000.0;
    SwapAmounts(amount0, amount1, amount0Abs, amount1Abs, trackedUsd, trackedEth,
                (amount0Usd + amount1Usd) / 2.0, trackedEth * scaler, trackedUsd * scaler)
  }

  /**
   * The factory's counters after a swap: one more transaction and one more
   * swap, volumes and fees grown by the swap's amounts. TVL is handled by
   * `FactoryReaggregated`.
   */
  function SwappedFactory(f: Factory, a: SwapAmounts): (r: Factory)
    ensures r.txCount == f.txCount + 1 && r.numberOfSwaps == f.numberOfSwaps + 1
    ensures r.totalVolumeEth - f.totalVolumeEth == a.trackedEth
    ensures r.totalVolumeUsd - f.totalVolumeUsd == a.trackedUsd
    ensures r.untrackedVolumeUsd - f.untrackedVolumeUsd == a.untrackedUsd
    ensures r.totalFeesEth - f.totalFeesEth == a.feesEth && r.totalFeesUsd - f.totalFeesUsd == a.feesUsd
    ensures r == f.(txCount := r.txCount, numberOfSwaps := r.numberOfSwaps,
                    totalVolumeEth := r.totalVolumeEth, totalVolumeUsd := r.totalVolumeUsd,
                    untrackedVolumeUsd := r.untrackedVolumeUsd,
                    totalFeesEth := r.totalFeesEth, totalFeesUsd := r.totalFeesUsd)
  {
    f.(txCount := f.txCount + 1, numberOfSwaps := f.numberOfSwaps + 1,
       totalVolumeEth := f.totalVolumeEth + a.trackedEth, totalVolumeUsd := f.totalVolumeUsd + a.trackedUsd,
       untrackedVolumeUsd := f.untrackedVolumeUsd + a.untrackedUsd,
       totalFeesEth := f.totalFeesEth + a.feesEth, totalFeesUsd := f.totalFeesUsd + a.feesUsd)
  }

  /**
   * A token's counters after a swap in which it moved by `amount`: traded
   * volume grows by the absolute amount, the locked amount by the signed
   * amount, USD volumes and fees by the swap's, one more transaction.
   */
  function SwappedToken(t: Token, amount: real, amountAbs: real, a: SwapAmounts): (r: Token)
    ensures r.volume - t.volume == amountAbs
    ensures r.totalValueLocked - t.totalValueLocked == amount
    ensures r.volumeUsd - t.volumeUsd == a.trackedUsd
    ensures r.untrackedVolumeUsd - t.untrackedVolumeUsd == a.untrackedUsd
    ensures r.feesUsd - t.feesUsd == a.feesUsd
    ensures r.txCount == t.txCount + 1
    ensures r == t.(volume := r.volume, totalValueLocked := r.totalValueLocked, volumeUsd := r.volumeUsd,
                    untrackedVolumeUsd := r.untrackedVolumeUsd, feesUsd := r.feesUsd, txCount := r.txCount)
  {
    t.(volume := t.volume + amountAbs, totalValueLocked := t.totalValueLocked + amount,
       volumeUsd := t.volumeUsd + a.trackedUsd, untrackedVolumeUsd := t.untrackedVolumeUsd + a.untrackedUsd,
       feesUsd := t.feesUsd + a.feesUsd, txCount := t.txCount + 1)
  }

  /**
   * The pool as the handler first writes it, before the ETH prices are
   * refreshed: volumes and fees grown, one more transaction, liquidity,
   * square-root price and tick overwritten from the event, locked amounts
   * moved by the signed deltas, token prices from the new square-root price.
   * Its ETH and USD TVL still hold their pre-swap values.
   */
  function SwappedPool(p: Pool, ev: SwapEvent, a: SwapAmounts, prices: (real, real)): (r: Pool)
    ensures r.volumeToken0 - p.volumeToken0 == a.amount0Abs && r.volumeToken1 - p.volumeToken1 == a.amount1Abs
    ensures r.volumeUsd - p.volumeUsd == a.trackedUsd
    ensures r.untrackedVolumeUsd - p.untrackedVolumeUsd == a.untrackedUsd
    ensures r.feesUsd - p.feesUsd == a.feesUsd
    ensures r.txCount == p.txCount + 1
    ensures r.liquidity == ev.liquidity && r.tick == Some(ev.tick) && r.sqrtPrice == ev.sqrtPriceX96
    ensures r.totalValueLockedToken0 - p.totalValueLockedToken0 == a.amount0
    ensures r.totalValueLockedToken1 - p.totalValueLockedToken1 == a.amount1
    ensures r.token0Price == prices.0 && r.token1Price == prices.1
    ensures r == p.(volumeToken0 := r.volumeToken0, volumeToken1 := r.volumeToken1, volumeUsd := r.volumeUsd,
                    untrackedVolumeUsd := r.untrackedVolumeUsd, feesUsd := r.feesUsd, txCount := r.txCount,
                    liquidity := r.liquidity, tick := r.tick, sqrtPrice := r.sqrtPrice,
                    totalValueLockedToken0 := r.totalValueLockedToken0,
                    totalValueLockedToken1 := r.totalValueLockedToken1,
                    token0Price := r.token0Price, token1Price := r.token1Price)
  {
    p.(volumeToken0 := p.volumeToken0 + a.amount0Abs, volumeToken1 := p.volumeToken1 + a.amount1Abs,
       volumeUsd := p.volumeUsd + a.trackedUsd, untrackedVolumeUsd := p.untrackedVolumeUsd + a.untrackedUsd,
       feesUsd := p.feesUsd + a.feesUsd, txCount := p.txCount + 1,
       liquidity := ev.liquidity, tick := Some(ev.tick), sqrtPrice := ev.sqrtPriceX96,
       totalValueLockedToken0 := p.totalValueLockedToken0 + a.amount0,
       totalValueLockedToken1 := p.totalValueLockedToken1 + a.amount1,
       token0Price := prices.0, token1Price := prices.1)
  }

  /** A token with a refreshed ETH price and its locked value re-priced in USD. */
  function Repriced(t: Token, derivedEth: real, ethPriceUsd: real): (r: Token)
    ensures r.derivedEth == derivedEth
    ensures r.totalValueLockedUsd == t.totalValueLocked * derivedEth * ethPriceUsd
    ensures r == t.(derivedEth := r.derivedEth, totalValueLockedUsd := r.totalValueLockedUsd)
  {
    t.(derivedEth := derivedEth, totalValueLockedUsd := t.totalValueLocked * derivedEth * ethPriceUsd)
  }

  /** The pool as first written, with its new token prices computed from the swapped tokens. */
  function FirstWrittenPool(c: Loaded, ev: SwapEvent, a: SwapAmounts, cfg: ChainConfig, pr: Pricing): (r: Pool)
    ensures r == SwappedPool(c.pool, ev, a,
                             pr.sqrtPriceX96ToTokenPrices(ev.sqrtPriceX96,
                                                          SwappedToken(c.token0, a.amount0, a.amount0Abs, a),
                                                          SwappedToken(c.token1, a.amount1, a.amount1Abs, a),
                                                          cfg.nativeTokenDetails))
  {
    var token0 := SwappedToken(c.token0, a.amount0, a.amount0Abs, a);
    var token1 := SwappedToken(c.token1, a.amount1, a.amount1Abs, a);
    SwappedPool(c.pool, ev, a, pr.sqrtPriceX96ToTokenPrices(ev.sqrtPriceX96, token0, token1, cfg.nativeTokenDetails))
  }

  /**
   * The five loaded records after a swap, given the store's pools and tokens
   * before it. The new ETH price is read from the pools with the swapped pool
   * already in place, and each token's ETH price from those pools, the new
   * bundle, the swapped token itself and the stored tokens as they were before
   * the swap. Traded volumes never
   * decrease; locked amounts move together in pool and token; the factory's
   * ETH TVL moves as the pool's; all TVL is re-derived at the new prices.
   */
  function Swapped(c: Loaded, ev: SwapEvent, cfg: ChainConfig, nu: NumberUtils, pr: Pricing,
                   pools: map<string, Pool>, tokens: map<string, Token>): (r: Loaded)
    ensures var a := SwapAmountsOf(c, ev, cfg.whitelistTokens, nu, pr);
      var written := pools[c.pool.id := FirstWrittenPool(c, ev, a, cfg, pr)];
      && r.bundle == c.bundle.(ethPriceUsd := pr.getNativePriceInUsd(written, ev.header.chainId,
                                                cfg.stablecoinWrappedNativePoolId, cfg.stablecoinIsToken0))
      && r.token0.derivedEth == pr.findNativePerToken(written, tokens, SwappedToken(c.token0, a.amount0, a.amount0Abs, a),
                                  r.bundle, cfg.wrappedNativeAddress, cfg.stablecoinAddresses, cfg.minimumNativeLocked)
      && r.token1.derivedEth == pr.findNativePerToken(written, tokens, SwappedToken(c.token1, a.amount1, a.amount1Abs, a),
                                  r.bundle, cfg.wrappedNativeAddress, cfg.stablecoinAddresses, cfg.minimumNativeLocked)
    ensures r.pool.volumeToken0 >= c.pool.volumeToken0 && r.pool.volumeToken1 >= c.pool.volumeToken1
    ensures r.token0.volume >= c.token0.volume && r.token1.volume >= c.token1.volume
    ensures r.pool.liquidity == ev.liquidity && r.pool.tick == Some(ev.tick) && r.pool.sqrtPrice == ev.sqrtPriceX96
    ensures r.pool.txCount == c.pool.txCount + 1 && r.factory.txCount == c.factory.txCount + 1
    ensures r.token0.txCount == c.token0.txCount + 1 && r.token1.txCount == c.token1.txCount + 1
    ensures r.factory.numberOfSwaps == c.factory.numberOfSwaps + 1
    ensures r.token0.totalValueLocked - c.token0.totalValueLocked
            == r.pool.totalValueLockedToken0 - c.pool.totalValueLockedToken0
    ensures r.token1.totalValueLocked - c.token1.totalValueLocked
            == r.pool.totalValueLockedToken1 - c.pool.totalValueLockedToken1
    ensures r.factory.totalValueLockedEth - c.factory.totalValueLockedEth
            == r.pool.totalValueLockedEth - c.pool.totalValueLockedEth
    ensures r.pool.totalValueLockedEth == r.pool.totalValueLockedToken0 * r.token0.derivedEth
                                         + r.pool.totalValueLockedToken1 * r.token1.derivedEth
    ensures r.pool.totalValueLockedUsd == r.pool.totalValueLockedEth * r.bundle.ethPriceUsd
    ensures r.factory.totalValueLockedUsd == r.factory.totalValueLockedEth * r.bundle.ethPriceUsd
    ensures r.token0.totalValueLockedUsd == r.token0.totalValueLocked * r.token0.derivedEth * r.bundle.ethPriceUsd
    ensures r.token1.totalValueLockedUsd == r.token1.totalValueLocked * r.token1.derivedEth * r.bundle.ethPriceUsd
    ensures var a := SwapAmountsOf(c, ev, cfg.whitelistTokens, nu, pr);
      && r.pool == PoolRevalued(FirstWrittenPool(c, ev, a, cfg, pr), r.token0.derivedEth, r.token1.derivedEth,
                                r.bundle.ethPriceUsd)
      && r.factory == FactoryReaggregated(SwappedFactory(c.factory, a), c.pool.totalValueLockedEth,
                                          r.pool.totalValueLockedEth, r.bundle.ethPriceUsd)
      && r.token0 == Repriced(SwappedToken(c.token0, a.amount0, a.amount0Abs, a), r.token0.derivedEth,
                              r.bundle.ethPriceUsd)
      && r.token1 == Repriced(SwappedToken(c.token1, a.amount1, a.amount1Abs, a), r.token1.derivedEth,
                              r.bundle.ethPriceUsd)
  {
    var a := SwapAmountsOf(c, ev, cfg.whitelistTokens, nu, pr);
    var token0 := SwappedToken(c.token0, a.amount0, a.amount0Abs, a);
    var token1 := SwappedToken(c.token1, a.amount1, a.amount1Abs, a);
    var written := pools[c.pool.id := FirstWrittenPool(c, ev, a, cfg, pr)];
    var bundle := c.bundle.(ethPriceUsd := pr.getNativePriceInUsd(written, ev.header.chainId,
                                             cfg.stablecoinWrappedNativePoolId, cfg.stablecoinIsToken0));
    var derivedEth0 := pr.findNativePerToken(written, tokens, token0, bundle, cfg.wrappedNativeAddress,
                                             cfg.stablecoinAddresses, cfg.minimumNativeLocked);
    var derivedEth1 := pr.findNativePerToken(written, tokens, token1, bundle, cfg.wrappedNativeAddress,
                                             cfg.stablecoinAddresses, cfg.minimumNativeLocked);
    var pool := PoolRevalued(FirstWrittenPool(c, ev, a, cfg, pr), derivedEth0, derivedEth1, bundle.ethPriceUsd);
    Loaded(pool, bundle,
           FactoryReaggregated(SwappedFactory(c.factory, a), c.pool.totalValueLockedEth,
                               pool.totalValueLockedEth, bundle.ethPriceUsd),
           Repriced(token0, derivedEth0, bundle.ethPriceUsd),
           Repriced(token1, derivedEth1, bundle.ethPriceUsd))
  }

  /**
   * The handler's working copies up to the first write of the pool, updated
   * field by field in the order swap.ts updates them. The factory has the
   * pool's old ETH TVL taken out of its total.
   */
  method SwappedRecords(c: Loaded, ev: SwapEvent, a: SwapAmounts, cfg: ChainConfig, pr: Pricing)
    returns (pool: Pool, factory: Factory, token0: Token, token1: Token)
    ensures pool == FirstWrittenPool(c, ev, a, cfg, pr)
    ensures factory == SwappedFactory(c.factory, a).(totalValueLockedEth := c.factory.totalValueLockedEth
                                                                            - c.pool.totalValueLockedEth)
    ensures token0 == SwappedToken(c.token0, a.amount0, a.amount0Abs, a)
    ensures token1 == SwappedToken(c.token1, a.amount1, a.amount1Abs, a)
  {
    factory, pool, token0, token1 := c.factory, c.pool, c.token0, c.token1;

    factory := factory.(txCount := factory.txCount + 1);
    factory := factory.(numberOfSwaps := factory.numberOfSwaps + 1);
    factory := factory.(totalVolumeEth := factory.totalVolumeEth + a.trackedEth);
    factory := factory.(totalVolumeUsd := factory.totalVolumeUsd + a.trackedUsd);
    factory := factory.(untrackedVolumeUsd := factory.untrackedVolumeUsd + a.untrackedUsd);
    factory := factory.(totalFeesEth := factory.totalFeesEth + a.feesEth);
    factory := factory.(totalFeesUsd := factory.totalFeesUsd + a.feesUsd);
    // the pool's old TVL leaves the factory total until the new one is known
    factory := factory.(totalValueLockedEth := factory.totalValueLockedEth - pool.totalValueLockedEth);

    pool := pool.(volumeToken0 := pool.volumeToken0 + a.amount0Abs);
    pool := pool.(volumeToken1 := pool.volumeToken1 + a.amount1Abs);
    pool := pool.(volumeUsd := pool.volumeUsd + a.trackedUsd);
    pool := pool.(untrackedVolumeUsd := pool.untrackedVolumeUsd + a.untrackedUsd);
    pool := pool.(feesUsd := pool.feesUsd + a.feesUsd);
    pool := pool.(txCount := pool.txCount + 1);

    pool := pool.(liquidity := ev.liquidity);
    pool := pool.(tick := Some(ev.tick));
    pool := pool.(sqrtPrice := ev.sqrtPriceX96);
    pool := pool.(totalValueLockedToken0 := pool.totalValueLockedToken0 + a.amount0);
    pool := pool.(totalValueLockedToken1 := pool.totalValueLockedToken1 + a.amount1);

    token0 := token0.(volume := token0.volume + a.amount0Abs);
    token0 := token0.(totalValueLocked := token0.totalValueLocked + a.amount0);
    token0 := token0.(volumeUsd := token0.volumeUsd + a.trackedUsd);
    token0 := token0.(untrackedVolumeUsd := token0.untrackedVolumeUsd + a.untrackedUsd);
    token0 := token0.(feesUsd := token0.feesUsd + a.feesUsd);
    token0 := token0.(txCount := token0.txCount + 1);

    token1 := token1.(volume := token1.volume + a.amount1Abs);
    token1 := token1.(totalValueLocked := token1.totalValueLocked + a.amount1);
    token1 := token1.(volumeUsd := token1.volumeUsd + a.trackedUsd);
    token1 := token1.(untrackedVolumeUsd := token1.untrackedVolumeUsd + a.untrackedUsd);
    token1 := token1.(feesUsd := token1.feesUsd + a.feesUsd);
    token1 := token1.(txCount := token1.txCount + 1);

    var prices := pr.sqrtPriceX96ToTokenPrices(pool.sqrtPrice, token0, token1, cfg.nativeTokenDetails);
    pool := pool.(token0Price := prices.0);
    pool := pool.(token1Price := prices.1);
  }

  /**
   * The working copies once the ETH prices are refreshed: the pool's TVL is
   * re-derived, its new ETH TVL joins the factory total (from which the old
   * one was taken out), and both tokens' locked value is re-priced.
   */
  method RepricedRecords(pool0: Pool, factory0: Factory, token00: Token, token10: Token,
                         derivedEth0: real, derivedEth1: real, ethPriceUsd: real)
    returns (pool: Pool, factory: Factory, token0: Token, token1: Token)
    ensures pool == PoolRevalued(pool0, derivedEth0, derivedEth1, ethPriceUsd)
    ensures factory == factory0.(totalValueLockedEth := factory0.totalValueLockedEth + pool.totalValueLockedEth,
                                 totalValueLockedUsd := (factory0.totalValueLockedEth + pool.totalValueLockedEth)
                                                        * ethPriceUsd)
    ensures token0 == Repriced(token00, derivedEth0, ethPriceUsd)
    ensures token1 == Repriced(token10, derivedEth1, ethPriceUsd)
  {
    pool, factory := pool0, factory0;
    token0 := token00.(derivedEth := derivedEth0);
    token1 := token10.(derivedEth := derivedEth1);
    pool := pool.(totalValueLockedEth := pool.totalValueLockedToken0 * token0.derivedEth
                                         + pool.totalValueLockedToken1 * token1.derivedEth);
    pool := pool.(totalValueLockedUsd := pool.totalValueLockedEth * ethPriceUsd);
    factory := factory.(totalValueLockedEth := factory.totalValueLockedEth + pool.totalValueLockedEth);
    factory := factory.(totalValueLockedUsd := factory.totalValueLockedEth * ethPriceUsd);
    token0 := token0.(totalValueLockedUsd := token0.totalValueLocked * token0.derivedEth * ethPriceUsd);
    token1 := token1.(totalValueLockedUsd := token1.totalValueLocked * token1.derivedEth * ethPriceUsd);
  }

  /** The swap's volume added to a refreshed day or hour record, field by field. */
  method WithSwapVolumeOf(b: IntervalData, a: SwapAmounts) returns (r: IntervalData)
    ensures r == WithSwapVolume(b, a.trackedUsd, a.amount0Abs, a.amount1Abs, a.feesUsd)
  {
    r := b;
    r := r.(volumeUsd := r.volumeUsd + a.trackedUsd);
    r := r.(volumeToken0 := r.volumeToken0 + a.amount0Abs);
    r := r.(volumeToken1 := r.volumeToken1 + a.amount1Abs);
    r := r.(feesUsd := r.feesUsd + a.feesUsd);
  }

  /** The day and hour record of the swap's window refreshed from the pool, then given the swap's volume. */
  function SwapRollup(buckets: map<string, IntervalData>, id: string, a: SwapAmounts): (r: map<string, IntervalData>)
    requires id in buckets
    ensures r.Keys == buckets.Keys
    ensures forall k :: k in buckets && k != id ==> r[k] == buckets[k]
    ensures r[id] == WithSwapVolume(buckets[id], a.trackedUsd, a.amount0Abs, a.amount1Abs, a.feesUsd)
  {
    buckets[id := WithSwapVolume(buckets[id], a.trackedUsd, a.amount0Abs, a.amount1Abs, a.feesUsd)]
  }

  /**
   * Everything swap.ts does up to the final writes: the working copies are
   * updated, the pool is written, the bundle's ETH price is refreshed from
   * the store and written, the tokens' ETH prices are refreshed from the
   * store, and every TVL figure is re-derived at the new prices.
   */
  method SwapAndReprice(store: Store, c: Loaded, ev: SwapEvent, cfg: ChainConfig, nu: NumberUtils, pr: Pricing)
    returns (pool: Pool, bundle: Bundle, factory: Factory, token0: Token, token1: Token)
    requires store.Valid()
    modifies store
    ensures store.Valid()
    ensures Loaded(pool, bundle, factory, token0, token1) == Swapped(c, ev, cfg, nu, pr, old(store.pools), old(store.tokens))
    ensures store.pools
            == old(store.pools)[c.pool.id := FirstWrittenPool(c, ev, SwapAmountsOf(c, ev, cfg.whitelistTokens, nu, pr), cfg, pr)]
    ensures store.bundles == old(store.bundles)[c.bundle.id := bundle]
    ensures store.factories == old(store.factories) && store.tokens == old(store.tokens)
    ensures store.ticks == old(store.ticks)
    ensures store.poolDayData == old(store.poolDayData) && store.poolHourData == old(store.poolHourData)
  {
    var a := SwapAmountsOf(c, ev, cfg.whitelistTokens, nu, pr);
    ghost var s := Swapped(c, ev, cfg, nu, pr, store.pools, store.tokens);

    pool, factory, token0, token1 := SwappedRecords(c, ev, a, cfg, pr);
    store.SetPool(pool);

    bundle := c.bundle;
    bundle := bundle.(ethPriceUsd := pr.getNativePriceInUsd(store.pools, ev.header.chainId,
                                       cfg.stablecoinWrappedNativePoolId, cfg.stablecoinIsToken0));
    store.SetBundle(bundle);

    var derivedEth0 := pr.findNativePerToken(store.pools, store.tokens, token0, bundle,
                                             cfg.wrappedNativeAddress, cfg.stablecoinAddresses, cfg.minimumNativeLocked);
    var derivedEth1 := pr.findNativePerToken(store.pools, store.tokens, token1, bundle,
                                             cfg.wrappedNativeAddress, cfg.stablecoinAddresses, cfg.minimumNativeLocked);
    assert bundle == s.bundle && derivedEth0 == s.token0.derivedEth && derivedEth1 == s.token1.derivedEth;
    pool, factory, token0, token1 := RepricedRecords(pool, factory, token0, token1, derivedEth0, derivedEth1,
                                                     bundle.ethPriceUsd);
    assert pool == s.pool && factory == s.factory && token0 == s.token0 && token1 == s.token1;
  }

  /**
   * A swap event. Dropped, with nothing written, when the pool, bundle,
   * factory or either token is missing, or when the pool is the excluded one.
   * Otherwise the pool is written, the bundle's ETH price refreshed and
   * written, the tokens' ETH prices refreshed against that store, and then
   * the rollups, the factory, the pool and the tokens are written.
   */
  method HandleSwap(store: Store, ev: SwapEvent, cfg: ChainConfig, nu: NumberUtils, pr: Pricing) returns (r: Outcome)
    requires store.Valid()
    modifies store
    ensures store.Valid()
    ensures var load := old(LoadFrom(store, ev.header, cfg.factoryAddress));
      load.NotFound? ==> r == Skipped(load.reason) && unchanged(store)
    ensures var load := old(LoadFrom(store, ev.header, cfg.factoryAddress));
      load.Found? && load.ctx.pool.id == ExcludedPoolId(ev.header.chainId) ==>
        r == Skipped(PoolExcluded) && unchanged(store)
    ensures var load := old(LoadFrom(store, ev.header, cfg.factoryAddress));
      load.Found? && load.ctx.pool.id != ExcludedPoolId(ev.header.chainId) ==>
        var c := load.ctx;
        var s := Swapped(c, ev, cfg, nu, pr, old(store.pools), old(store.tokens));
        var a := SwapAmountsOf(c, ev, cfg.whitelistTokens, nu, pr);
        var days := DayRollup(old(store.poolDayData), ev.header.blockTimestamp, s.pool);
        var hours := HourRollup(old(store.poolHourData), ev.header.blockTimestamp, s.pool);
        && r == Applied
        && store.pools == old(store.pools)[c.pool.id := s.pool]
        && store.bundles == old(store.bundles)[c.bundle.id := s.bundle]
        && store.factories == old(store.factories)[c.factory.id := s.factory]
        && store.tokens == old(store.tokens)[c.token0.id := s.token0][c.token1.id := s.token1]
        && store.poolDayData == SwapRollup(days, BucketId(c.pool.id, DayIndex(ev.header.blockTimestamp)), a)
        && store.poolHourData == SwapRollup(hours, BucketId(c.pool.id, HourIndex(ev.header.blockTimestamp)), a)
        && store.ticks == old(store.ticks)
  {
    var load := LoadPoolEvent(store.pools, store.bundles, store.factories, store.tokens, ev.header, cfg.factoryAddress);
    if load.NotFound? {
      return Skipped(load.reason);
    }
    LoadedIds(store, ev.header, cfg.factoryAddress);
    var c := load.ctx;
    // a pool whose prices are known to be wrong
    if c.pool.id == ExcludedPoolId(ev.header.chainId) {
      return Skipped(PoolExcluded);
    }
    var timestamp := ev.header.blockTimestamp;
    var a := SwapAmountsOf(c, ev, cfg.whitelistTokens, nu, pr);

    ghost var pools0 := store.pools;
    var pool, bundle, factory, token0, token1 := SwapAndReprice(store, c, ev, cfg, nu, pr);
    assert pool.id == c.pool.id && factory.id == c.factory.id;
    assert token0.id == c.token0.id && token1.id == c.token1.id;

    var poolDayData := UpdatePoolDayData(store, timestamp, pool);
    var poolHourData := UpdatePoolHourData(store, timestamp, pool);
    poolDayData := WithSwapVolumeOf(poolDayData, a);
    poolHourData := WithSwapVolumeOf(poolHourData, a);
    store.SetPoolDayData(poolDayData);
    store.SetPoolHourData(poolHourData);
    store.SetFactory(factory);
    store.SetPool(pool);
    OverwriteTwice(pools0, c.pool.id, FirstWrittenPool(c, ev, a, cfg, pr), pool);
    store.SetToken(token0);
    store.SetToken(token1);
    r := Applied;
  }
}
