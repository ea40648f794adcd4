/**
 * The PoolCreated handler (src/handlers/poolCreated.ts): the factory
 * announces a new pool. The chain's factory (and, with a new factory, its
 * bundle) is created on first use, the pool's two tokens are read or created
 * from their metadata, the pool starts empty, and each token records the
 * pool when the other token is whitelisted.
 */
module PoolCreated {
  import opened Entities
  import opened Ids
  import opened Externals
  import opened EntityStore
  import opened HandlerCommon
  import opened TokenMetadata

  /** Every aggregate of a factory is zero. */
  predicate FactoryAggregatesZero(f: Factory)
  {
    && f.numberOfSwaps == 0 && f.txCount == 0
    && f.totalVolumeEth == 0.0 && f.totalVolumeUsd == 0.0 && f.untrackedVolumeUsd == 0.0
    && f.totalFeesUsd == 0.0 && f.totalFeesEth == 0.0
    && f.totalValueLockedEth == 0.0 && f.totalValueLockedUsd == 0.0
    && f.totalValueLockedUsdUntracked == 0.0 && f.totalValueLockedEthUntracked == 0.0
  }

  /** Every aggregate of a token is zero and it has no price yet. */
  predicate TokenAggregatesZero(t: Token)
  {
    && t.volume == 0.0 && t.volumeUsd == 0.0 && t.untrackedVolumeUsd == 0.0 && t.feesUsd == 0.0
    && t.txCount == 0 && t.poolCount == 0
    && t.totalValueLocked == 0.0 && t.totalValueLockedUsd == 0.0 && t.totalValueLockedUsdUntracked == 0.0
    && t.derivedEth == 0.0
  }

  /** A pool with no liquidity, no price, no activity and nothing locked. */
  predicate PoolEmpty(p: Pool)
  {
    && p.liquidity == 0 && p.sqrtPrice == 0 && p.token0Price == 0.0 && p.token1Price == 0.0
    && p.observationIndex == 0
    && p.volumeToken0 == 0.0 && p.volumeToken1 == 0.0 && p.volumeUsd == 0.0 && p.untrackedVolumeUsd == 0.0
    && p.feesUsd == 0.0 && p.txCount == 0
    && p.collectedFeesToken0 == 0.0 && p.collectedFeesToken1 == 0.0 && p.collectedFeesUsd == 0.0
    && p.totalValueLockedToken0 == 0.0 && p.totalValueLockedToken1 == 0.0
    && p.totalValueLockedEth == 0.0 && p.totalValueLockedUsd == 0.0 && p.totalValueLockedUsdUntracked == 0.0
    && p.liquidityProviderCount == 0
  }

  /** The factory created on a chain's first pool, before its pool count is raised. */
  function NewFactory(id: string): Factory
  {
    Factory(id, 0, 0, 0.0, 0.0, 0.0, 0.0, 0.0, 0.0, 0.0, 0.0, 0.0, 0, AddressZero)
  }

  /**
   * The chain's factory as the handler starts from it: the stored record, or
   * a new one under `factoryId` with a zero pool count, zero aggregates and
   * the zero address as owner.
   */
  function FactoryOrNew(factories: map<string, Factory>, factoryId: string): (r: Factory)
    ensures factoryId in factories ==> r == factories[factoryId]
    ensures factoryId !in factories ==>
      r.id == factoryId && r.owner == AddressZero && r.poolCount == 0 && FactoryAggregatesZero(r)
  {
    if factoryId in factories then factories[factoryId] else NewFactory(factoryId)
  }

  /** A token seen for the first time, named from its metadata. */
  function NewToken(id: string, meta: Metadata, isWhitelisted: bool, supported: bool): Token
  {
    Token(id, meta.symbol, meta.name, meta.decimals, isWhitelisted,
          0.0, 0.0, 0.0, 0.0, 0, 0, 0.0, 0.0, 0.0, 0.0, [], supported)
  }

  /**
   * A pool token as the handler starts from it: the stored record, or a new
   * one under `tokenId` with name, symbol and decimals from `meta`, the given
   * whitelist and support flags, zero aggregates and no whitelist pools.
   */
  function TokenOrNew(tokens: map<string, Token>, tokenId: string, meta: Metadata,
                      isWhitelisted: bool, supported: bool): (r: Token)
    ensures tokenId in tokens ==> r == tokens[tokenId]
    ensures tokenId !in tokens ==>
      && r.id == tokenId && r.name == meta.name && r.symbol == meta.symbol && r.decimals == meta.decimals
      && r.isWhitelisted == isWhitelisted && r.supported == supported
      && TokenAggregatesZero(r) && r.whitelistPools == []
    ensures (forall k :: k in tokens ==> tokens[k].id == k) ==> r.id == tokenId
  {
    if tokenId in tokens then tokens[tokenId] else NewToken(tokenId, meta, isWhitelisted, supported)
  }

  /**
   * The new pool: empty, keyed by the chain and the pool address, created at
   * the event's block, with the event's fee as its fee tier and, as
   * poolCreated.ts writes it, the event's tick spacing as its tick.
   */
  function NewPool(ev: PoolCreatedEvent, token0Id: string, token1Id: string, supported: bool): (r: Pool)
    ensures r.id == EntityId(ev.header.chainId, ev.pool) && r.chainId == ev.header.chainId
    ensures r.token0Id == token0Id && r.token1Id == token1Id && r.supported == supported
    ensures r.feeTier == ev.fee && r.tick == Some(ev.tickSpacing)
    ensures r.createdAtTimestamp == ev.header.blockTimestamp && r.createdAtBlockNumber == ev.header.blockNumber
    ensures PoolEmpty(r)
  {
    Pool(EntityId(ev.header.chainId, ev.pool), ev.header.blockTimestamp, ev.header.blockNumber,
         token0Id, token1Id, ev.fee, 0, 0, 0.0, 0.0, Some(ev.tickSpacing), 0,
         0.0, 0.0, 0.0, 0.0, 0.0, 0, 0.0, 0.0, 0.0, 0.0, 0.0, 0.0, 0.0, 0.0, 0, supported, ev.header.chainId)
  }

  /**
   * A token after the whitelist step: the pool id is appended to its
   * whitelist pools when the other token is whitelisted. Afterwards the token
   * lists the pool exactly when the other token is whitelisted or it already
   * listed it; nothing else changes.
   */
  function WithPoolLinked(t: Token, otherWhitelisted: bool, poolId: string): (r: Token)
    ensures r == t.(whitelistPools := r.whitelistPools)
    ensures |r.whitelistPools| == |t.whitelistPools| + (if otherWhitelisted then 1 else 0)
    ensures r.whitelistPools[..|t.whitelistPools|] == t.whitelistPools
    ensures otherWhitelisted ==> r.whitelistPools[|t.whitelistPools|] == poolId
    ensures poolId in r.whitelistPools <==> otherWhitelisted || poolId in t.whitelistPools
  {
    if otherWhitelisted then t.(whitelistPools := t.whitelistPools + [poolId]) else t
  }

  /** What a pool creation writes: the pool, both tokens, the factory, and a bundle when the factory is new. */
  datatype Created = Created(pool: Pool, token0: Token, token1: Token, factory: Factory, newBundle: Option<Bundle>)

  /**
   * The records a pool creation writes, computed from the factories and
   * tokens stored before it and the two tokens' metadata. The factory's pool
   * count goes up by one; with no stored factory, a bundle for the chain at
   * price 0 is written too. Each token is linked to the pool when the other
   * is whitelisted. A new token1 takes its `supported` flag from token0's
   * metadata, as poolCreated.ts does; the pool is supported when both
   * tokens' metadata say so.
   */
  function Creation(factories: map<string, Factory>, tokens: map<string, Token>, ev: PoolCreatedEvent,
                    cfg: ChainConfig, nu: NumberUtils, meta0: Metadata, meta1: Metadata): (r: Created)
    ensures var factoryId := EntityId(ev.header.chainId, cfg.factoryAddress);
      var base := FactoryOrNew(factories, factoryId);
      && r.factory == base.(poolCount := base.poolCount + 1)
      && r.newBundle == if factoryId in factories then None else Some(Bundle(ChainKey(ev.header.chainId), 0.0))
    ensures var base0 := TokenOrNew(tokens, EntityId(ev.header.chainId, ev.token0), meta0,
                                    nu.isAddressInList(ev.token0, cfg.whitelistTokens), meta0.supported);
      var base1 := TokenOrNew(tokens, EntityId(ev.header.chainId, ev.token1), meta1,
                              nu.isAddressInList(ev.token1, cfg.whitelistTokens), meta0.supported);
      && r.pool == NewPool(ev, base0.id, base1.id, meta0.supported && meta1.supported)
      && r.token0 == WithPoolLinked(base0, base1.isWhitelisted, r.pool.id)
      && r.token1 == WithPoolLinked(base1, base0.isWhitelisted, r.pool.id)
  {
    var chainId := ev.header.chainId;
    var factoryId := EntityId(chainId, cfg.factoryAddress);
    var factory := FactoryOrNew(factories, factoryId);
    var token0 := TokenOrNew(tokens, EntityId(chainId, ev.token0), meta0,
                             nu.isAddressInList(ev.token0, cfg.whitelistTokens), meta0.supported);
    var token1 := TokenOrNew(tokens, EntityId(chainId, ev.token1), meta1,
                             nu.isAddressInList(ev.token1, cfg.whitelistTokens), meta0.supported);
    var pool := NewPool(ev, token0.id, token1.id, meta0.supported && meta1.supported);
    Created(
      pool,
      WithPoolLinked(token0, token1.isWhitelisted, pool.id),
      WithPoolLinked(token1, token0.isWhitelisted, pool.id),
      factory.(poolCount := factory.poolCount + 1),
      if factoryId in factories then None else Some(Bundle(ChainKey(chainId), 0.0)))
  }

  /**
   * Once a pool has been created, the pool's own events find all five
   * records they load, provided the chain already had a bundle or the
   * creation made one (it does when the factory was new): the new pool, the
   * chain's bundle, the factory as just written and the pool's two tokens as
   * last written.
   */
  lemma CreatedPoolLoads(
    pools: map<string, Pool>, bundles: map<string, Bundle>, factories: map<string, Factory>,
    tokens: map<string, Token>, ev: PoolCreatedEvent, cfg: ChainConfig, nu: NumberUtils,
    meta0: Metadata, meta1: Metadata, header: EventHeader)
    requires forall k :: k in factories ==> factories[k].id == k
    requires forall k :: k in tokens ==> tokens[k].id == k
    requires header.chainId == ev.header.chainId && header.srcAddress == ev.pool
    requires ChainKey(ev.header.chainId) in bundles || EntityId(ev.header.chainId, cfg.factoryAddress) !in factories
    ensures var k := Creation(factories, tokens, ev, cfg, nu, meta0, meta1);
      var bundles' := if k.newBundle.Some? then bundles[k.newBundle.value.id := k.newBundle.value] else bundles;
      var tokens' := tokens[k.token0.id := k.token0][k.token1.id := k.token1];
      var stored0 := if k.token0.id == k.token1.id then k.token1 else k.token0;
      && ChainKey(header.chainId) in bundles'
      && LoadPoolEvent(pools[k.pool.id := k.pool], bundles', factories[k.factory.id := k.factory], tokens',
                       header, cfg.factoryAddress)
         == Found(Loaded(k.pool, bundles'[ChainKey(header.chainId)], k.factory, stored0, k.token1))
  {
  }

  /** The working copies of the handler, built in the order poolCreated.ts builds them. */
  method CreatedRecords(factoryRO: Option<Factory>, token0RO: Option<Token>, token1RO: Option<Token>,
                        ghost factories: map<string, Factory>, ghost tokens: map<string, Token>,
                        ev: PoolCreatedEvent, cfg: ChainConfig, nu: NumberUtils,
                        meta0: Metadata, meta1: Metadata)
    returns (pool: Pool, token0: Token, token1: Token, factory: Factory, newBundle: Option<Bundle>)
    requires factoryRO == Get(factories, EntityId(ev.header.chainId, cfg.factoryAddress))
    requires token0RO == Get(tokens, EntityId(ev.header.chainId, ev.token0))
    requires token1RO == Get(tokens, EntityId(ev.header.chainId, ev.token1))
    ensures Created(pool, token0, token1, factory, newBundle) == Creation(factories, tokens, ev, cfg, nu, meta0, meta1)
  {
    var chainId := ev.header.chainId;
    newBundle := None;
    if factoryRO.Some? {
      factory := factoryRO.value;
    } else {
      factory := NewFactory(EntityId(chainId, cfg.factoryAddress));
      newBundle := Some(Bundle(ChainKey(chainId), 0.0));
    }
    factory := factory.(poolCount := factory.poolCount + 1);

    if token0RO.Some? {
      token0 := token0RO.value;
    } else {
      token0 := NewToken(EntityId(chainId, ev.token0), meta0,
                         nu.isAddressInList(ev.token0, cfg.whitelistTokens), meta0.supported);
    }
    if token1RO.Some? {
      token1 := token1RO.value;
    } else {
      // the source takes a new token1's flag from token0's metadata
      token1 := NewToken(EntityId(chainId, ev.token1), meta1,
                         nu.isAddressInList(ev.token1, cfg.whitelistTokens), meta0.supported);
    }

    pool := NewPool(ev, token0.id, token1.id, meta0.supported && meta1.supported);

    if token0.isWhitelisted {
      token1 := token1.(whitelistPools := token1.whitelistPools + [pool.id]);
    }
    if token1.isWhitelisted {
      token0 := token0.(whitelistPools := token0.whitelistPools + [pool.id]);
    }
  }

  /**
   * A PoolCreated event. A pool on the chain's skip list changes nothing.
   * Otherwise, with a new factory its bundle is written first; then the
   * pool, token0, token1 and the factory are written, as `Creation` computes
   * them from the records stored before the event. Ticks and rollups are not
   * touched.
   */
  method HandlePoolCreated(store: Store, ev: PoolCreatedEvent, cfg: ChainConfig, nu: NumberUtils,
                           meta0: Metadata, meta1: Metadata)
    returns (r: Outcome)
    requires store.Valid()
    modifies store
    ensures store.Valid()
    ensures nu.isAddressInList(ev.pool, cfg.poolsToSkip) ==> r == Skipped(PoolSkipListed) && unchanged(store)
    ensures !nu.isAddressInList(ev.pool, cfg.poolsToSkip) ==>
      var k := Creation(old(store.factories), old(store.tokens), ev, cfg, nu, meta0, meta1);
      && r == Applied
      && store.bundles == (if k.newBundle.Some? then old(store.bundles)[k.newBundle.value.id := k.newBundle.value]
                           else old(store.bundles))
      && store.pools == old(store.pools)[k.pool.id := k.pool]
      && store.tokens == old(store.tokens)[k.token0.id := k.token0][k.token1.id := k.token1]
      && store.factories == old(store.factories)[k.factory.id := k.factory]
      && store.ticks == old(store.ticks)
      && store.poolDayData == old(store.poolDayData) && store.poolHourData == old(store.poolHourData)
  {
    var chainId := ev.header.chainId;
    // the loader's reads
    var factoryRO := Get(store.factories, EntityId(chainId, cfg.factoryAddress));
    var token0RO := Get(store.tokens, EntityId(chainId, ev.token0));
    var token1RO := Get(store.tokens, EntityId(chainId, ev.token1));

    if nu.isAddressInList(ev.pool, cfg.poolsToSkip) {
      return Skipped(PoolSkipListed);
    }

    ghost var k := Creation(store.factories, store.tokens, ev, cfg, nu, meta0, meta1);
    var pool, token0, token1, factory, newBundle :=
      CreatedRecords(factoryRO, token0RO, token1RO, store.factories, store.tokens, ev, cfg, nu, meta0, meta1);
    if newBundle.Some? {
      store.SetBundle(newBundle.value);
    }
    store.SetPool(pool);
    store.SetToken(token0);
    store.SetToken(token1);
    store.SetFactory(factory);
    r := Applied;
  }
}
