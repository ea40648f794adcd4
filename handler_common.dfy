/**
 * What the Mint, Burn, Collect and Swap handlers share: the loader that
 * fetches a pool's dependencies, the range test for a position, and the
 * revaluations of pool, token and factory TVL that mint.ts, collect.ts and
 * swap.ts each spell out inline.
 */
module HandlerCommon {
  import opened Entities
  import opened Ids
  import opened EntityStore

  /** The five records every pool event needs. */
  datatype Loaded = Loaded(pool: Pool, bundle: Bundle, factory: Factory, token0: Token, token1: Token)

  datatype Load = Found(ctx: Loaded) | NotFound(reason: SkipReason)

  /**
   * The loader: the pool is looked up by `${chainId}-${srcAddress}`; without it
   * the event is dropped. Then the bundle (by chain id), the factory and the
   * pool's two tokens are looked up; if any is missing the event is dropped too.
   */
  function LoadPoolEvent(
    pools: map<string, Pool>, bundles: map<string, Bundle>, factories: map<string, Factory>,
    tokens: map<string, Token>, header: EventHeader, factoryAddress: string): (r: Load)
    ensures r.Found? <==>
      && EntityId(header.chainId, header.srcAddress) in pools
      && ChainKey(header.chainId) in bundles
      && EntityId(header.chainId, factoryAddress) in factories
      && pools[EntityId(header.chainId, header.srcAddress)].token0Id in tokens
      && pools[EntityId(header.chainId, header.srcAddress)].token1Id in tokens
    ensures r.NotFound? ==>
      r.reason == (if EntityId(header.chainId, header.srcAddress) in pools then DependencyMissing else PoolMissing)
    ensures r.Found? ==>
      var pool := pools[EntityId(header.chainId, header.srcAddress)];
      r.ctx == Loaded(pool, bundles[ChainKey(header.chainId)], factories[EntityId(header.chainId, factoryAddress)],
                      tokens[pool.token0Id], tokens[pool.token1Id])
  {
    var poolId := EntityId(header.chainId, header.srcAddress);
    if poolId !in pools then NotFound(PoolMissing)
    else
      var pool := pools[poolId];
      var bundle := Get(bundles, ChainKey(header.chainId));
      var factory := Get(factories, EntityId(header.chainId, factoryAddress));
      var token0 := Get(tokens, pool.token0Id);
      var token1 := Get(tokens, pool.token1Id);
      if bundle.None? || factory.None? || token0.None? || token1.None? then NotFound(DependencyMissing)
      else Found(Loaded(pool, bundle.value, factory.value, token0.value, token1.value))
  }

  /** The loader run against the store's current contents. */
  ghost function LoadFrom(s: Store, header: EventHeader, factoryAddress: string): Load
    reads s
  {
    LoadPoolEvent(s.pools, s.bundles, s.factories, s.tokens, header, factoryAddress)
  }

  /** What a successful load says about a valid store: each record was read under its own id. */
  lemma LoadedIds(s: Store, header: EventHeader, factoryAddress: string)
    requires s.Valid() && LoadFrom(s, header, factoryAddress).Found?
    ensures var c := LoadFrom(s, header, factoryAddress).ctx;
      && c.pool.id == EntityId(header.chainId, header.srcAddress)
      && c.bundle.id == ChainKey(header.chainId)
      && c.factory.id == EntityId(header.chainId, factoryAddress)
      && c.token0.id == c.pool.token0Id && c.token1.id == c.pool.token1Id
  {
  }

  /** A position [lower, upper) covers the pool's current tick, which must be present. */
  predicate Straddles(tick: Option<int>, tickLower: int, tickUpper: int)
  {
    tick.Some? && tickLower <= tick.value && tickUpper > tick.value
  }

  /**
   * A pool's TVL re-derived from its per-token locked amounts: ETH value is
   * the sum of each amount times its token's ETH price, USD value is that
   * times the ETH price in USD. No other field changes.
   */
  function PoolRevalued(p: Pool, derivedEth0: real, derivedEth1: real, ethPriceUsd: real): (r: Pool)
    ensures r.totalValueLockedEth == p.totalValueLockedToken0 * derivedEth0 + p.totalValueLockedToken1 * derivedEth1
    ensures r.totalValueLockedUsd == r.totalValueLockedEth * ethPriceUsd
    ensures r == p.(totalValueLockedEth := r.totalValueLockedEth, totalValueLockedUsd := r.totalValueLockedUsd)
  {
    var eth := p.totalValueLockedToken0 * derivedEth0 + p.totalValueLockedToken1 * derivedEth1;
    p.(totalValueLockedEth := eth, totalValueLockedUsd := eth * ethPriceUsd)
  }

  /**
   * A token after a mint (delta > 0) or a collect (delta = minus the amount
   * collected): one more transaction, locked amount moved by delta, USD value
   * of the locked amount re-derived. No other field changes.
   */
  function TokenTvlMoved(t: Token, delta: real, ethPriceUsd: real): (r: Token)
    ensures r.txCount == t.txCount + 1
    ensures r.totalValueLocked - t.totalValueLocked == delta
    ensures r.totalValueLockedUsd == r.totalValueLocked * (t.derivedEth * ethPriceUsd)
    ensures r == t.(txCount := r.txCount, totalValueLocked := r.totalValueLocked,
                    totalValueLockedUsd := r.totalValueLockedUsd)
  {
    var locked := t.totalValueLocked + delta;
    t.(txCount := t.txCount + 1, totalValueLocked := locked,
       totalValueLockedUsd := locked * (t.derivedEth * ethPriceUsd))
  }

  /**
   * The factory's ETH TVL with one pool's old contribution replaced by its new
   * one, and the factory's USD TVL re-derived from it. No other field changes.
   */
  function FactoryReaggregated(f: Factory, oldPoolTvlEth: real, newPoolTvlEth: real, ethPriceUsd: real): (r: Factory)
    ensures r.totalValueLockedEth - f.totalValueLockedEth == newPoolTvlEth - oldPoolTvlEth
    ensures r.totalValueLockedUsd == r.totalValueLockedEth * ethPriceUsd
    ensures r == f.(totalValueLockedEth := r.totalValueLockedEth, totalValueLockedUsd := r.totalValueLockedUsd)
  {
    var eth := f.totalValueLockedEth - oldPoolTvlEth + newPoolTvlEth;
    f.(totalValueLockedEth := eth, totalValueLockedUsd := eth * ethPriceUsd)
  }
}
