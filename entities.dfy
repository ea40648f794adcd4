/**
 * The seven record kinds the indexer keeps in its entity store, the decoded
 * contract events its handlers consume, and the outcome of a handler.
 *
 * BigInt quantities (counters, liquidity, tick indices, sqrt prices) are `int`;
 * BigDecimal quantities (amounts, prices, USD/ETH values) are exact `real`.
 */
module Entities {

  datatype Option<+T> = None | Some(value: T)

  /** Per-chain aggregate, keyed by chain id and factory address. */
  datatype Factory = Factory(
    id: string,
    poolCount: int,
    numberOfSwaps: int,
    totalVolumeEth: real,
    totalVolumeUsd: real,
    untrackedVolumeUsd: real,
    totalFeesUsd: real,
    totalFeesEth: real,
    totalValueLockedEth: real,
    totalValueLockedUsd: real,
    totalValueLockedUsdUntracked: real,
    totalValueLockedEthUntracked: real,
    txCount: int,
    owner: string)

  /** Per-chain price of the native asset in USD, keyed by the chain id. */
  datatype Bundle = Bundle(id: string, ethPriceUsd: real)

  datatype Token = Token(
    id: string,
    symbol: string,
    name: string,
    decimals: int,
    isWhitelisted: bool,
    volume: real,
    volumeUsd: real,
    untrackedVolumeUsd: real,
    feesUsd: real,
    txCount: int,
    poolCount: int,
    totalValueLocked: real,
    totalValueLockedUsd: real,
    totalValueLockedUsdUntracked: real,
    derivedEth: real,
    whitelistPools: seq<string>,
    supported: bool)

  /** `tick` is absent when the record holds no BigInt tick. */
  datatype Pool = Pool(
    id: string,
    createdAtTimestamp: int,
    createdAtBlockNumber: int,
    token0Id: string,
    token1Id: string,
    feeTier: int,
    liquidity: int,
    sqrtPrice: int,
    token0Price: real,
    token1Price: real,
    tick: Option<int>,
    observationIndex: int,
    volumeToken0: real,
    volumeToken1: real,
    volumeUsd: real,
    untrackedVolumeUsd: real,
    feesUsd: real,
    txCount: int,
    collectedFeesToken0: real,
    collectedFeesToken1: real,
    collectedFeesUsd: real,
    totalValueLockedToken0: real,
    totalValueLockedToken1: real,
    totalValueLockedEth: real,
    totalValueLockedUsd: real,
    totalValueLockedUsdUntracked: real,
    liquidityProviderCount: int,
    supported: bool,
    chainId: int)

  datatype Tick = Tick(
    id: string,
    tickIdx: int,
    poolId: string,
    poolAddress: string,
    createdAtTimestamp: int,
    createdAtBlockNumber: int,
    liquidityGross: int,
    liquidityNet: int,
    price0: real,
    price1: real)

  /**
   * A PoolDayData or PoolHourData rollup. Both kinds have the same fields;
   * `periodStart` is `date` for a day bucket and `periodStartUnix` for an hour
   * bucket.
   */
  datatype IntervalData = IntervalData(
    id: string,
    periodStart: int,
    poolId: string,
    volumeToken0: real,
    volumeToken1: real,
    volumeUsd: real,
    feesUsd: real,
    txCount: int,
    openingPrice: real,
    high: real,
    low: real,
    close: real,
    liquidity: int,
    sqrtPrice: int,
    token0Price: real,
    token1Price: real,
    tick: Option<int>,
    tvlUsd: real)

  /** The opening and closing prices of a bucket lie between its low and its high. */
  predicate PriceRangeOrdered(b: IntervalData)
  {
    b.low <= b.openingPrice <= b.high && b.low <= b.close <= b.high
  }

  /** Fields every event carries besides its parameters. */
  datatype EventHeader = EventHeader(
    chainId: int,
    srcAddress: string,
    blockNumber: int,
    blockTimestamp: int)

  datatype PoolCreatedEvent = PoolCreatedEvent(
    header: EventHeader,
    token0: string,
    token1: string,
    fee: int,
    tickSpacing: int,
    pool: string)

  /** Mint and Burn carry the same parameters. */
  datatype PositionEvent = PositionEvent(
    header: EventHeader,
    tickLower: int,
    tickUpper: int,
    amount: int,
    amount0: int,
    amount1: int)

  datatype CollectEvent = CollectEvent(
    header: EventHeader,
    amount0: int,
    amount1: int)

  /** `amount0` and `amount1` are signed deltas of the pool's balances. */
  datatype SwapEvent = SwapEvent(
    header: EventHeader,
    amount0: int,
    amount1: int,
    sqrtPriceX96: int,
    liquidity: int,
    tick: int)

  datatype SkipReason =
    | PoolMissing        // the loader found no pool for the event's contract
    | DependencyMissing  // bundle, factory or one of the pool's tokens is absent
    | PoolSkipListed     // pool creation for an address on the chain's skip list
    | PoolExcluded       // swap on the pool hard-coded as a bad price source

  /** What a handler did; the source returns nothing and signals a skip only by writing nothing. */
  datatype Outcome = Applied | Skipped(reason: SkipReason)
}
