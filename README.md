# Uniswap V3 indexer accounting core, modelled in Dafny

This project models the accounting core of a Uniswap V3 indexer and proves
properties of that model. The indexer consumes a factory's `PoolCreated`
events and each pool's `Mint`, `Burn`, `Collect` and `Swap` events. It keeps
an entity store of factories, bundles (the native-asset USD price per chain),
tokens, pools, ticks and daily and hourly pool rollups.

- **`EntityStore.Store`** (`store.dfy`) is a class with one map per record
  kind. Its `Valid()` invariant says that every record is stored under its own
  id and every stored rollup is well formed: its start is aligned, its id names
  its pool and bucket, it has been touched at least once, and its open and
  close prices lie in `[low, high]`. The setters mirror `context.X.set`, and
  every handler keeps `Valid()`.
- **Handlers** (`pool_created.dfy`, `mint.dfy`, `burn.dfy`, `collect.dfy`,
  `swap.dfy`) are methods on the store.
  - Each one computes its working copies field by field, in the order the
    source does, and writes them in the source's order.
  - Each is specified by a pure function of the records it loaded: `Creation`,
    `Minted`, `Burned`, `Collected`, `Swapped`.
  - The properties the source promises are stated on those functions:
    transaction counts, TVL moving together in pool, token and factory,
    liquidity only for positions covering the current tick, whitelist links,
    and the initial values of new records.
- **Rollups** (`interval_updates.dfy`): `updatePoolDayData` and
  `updatePoolHourData`.
  - The bucket is chosen by flooring the timestamp.
  - A missing bucket is created from the pool's price.
  - High and low widen to the current price, and the price range stays ordered.
  - Two events share a bucket exactly when they fall in the same window.
- **Ids** (`ids.dfy`) are built as `${chainId}-${address.toLowerCase()}`,
  `${poolId}#${tick}` and `${poolId}-${bucket}`. They are proved injective, so
  distinct ticks or buckets never collide.
- **Token metadata** (`token_metadata.dfy`) models the token-metadata effect
  without its I/O.
  - `sanitizeString` produces printable ASCII with no surrounding space, and
    is idempotent.
  - The name and symbol fall back from the string read to the `bytes32` read
    to `"unknown"`/`"UNKNOWN"`; decimals default to 18.
  - The native token and configured overrides take precedence over the reads.
  - `supported` is the same on every path.

The price helpers of `utils/pricing` and the number helpers of `utils/index` are
not part of this model. They are uninterpreted function parameters
(`Externals.Pricing`, `Externals.NumberUtils`), so every property holds
whatever they compute. The helpers that read the store receive the store's
maps as they are at the moment of the call. That matters for Swap: the ETH
price is read after the swapped pool has been written.

## Model

| member | source | states |
|---|---|---|
| Ids.IntToStringInjective | src/handlers/mint.ts:28-29 | the decimal rendering of an integer embedded in an id determines the integer |
| Ids.ToLower | src/handlers/mint.ts:22 | lower-casing keeps the length and maps each character to its lower-case form |
| Ids.EntityIdInjective | src/handlers/mint.ts:22 | two chain-scoped ids are equal exactly when the chains are equal and the addresses are equal ignoring case |
| Ids.EntityIdIgnoresCase | src/handlers/poolCreated.ts:29-30 | an id does not depend on the letter case of the address |
| Ids.TickIdInjective | src/handlers/mint.ts:28-29 | a pool's lower and upper tick ids coincide exactly when the tick indices do |
| Ids.BucketIdInjective | src/handlers/utils/intervalUpdates.ts:14-16 | a pool's bucket ids coincide exactly when the bucket indices do |
| EntityStore.Get | src/handlers/mint.ts:23 | a lookup finds a record exactly when the id is stored, and returns the stored record |
| EntityStore.OverwriteTwice | src/handlers/swap.ts:182 | writing the same id twice leaves only the second record |
| EntityStore.Store.SetFactory | src/handlers/mint.ts:175 | the factory is stored under its id, no other map changes, and the store stays valid |
| EntityStore.Store.SetBundle | src/handlers/swap.ts:192 | the bundle is stored under its id and nothing else changes |
| EntityStore.Store.SetToken | src/handlers/mint.ts:172-173 | the token is stored under its id and nothing else changes |
| EntityStore.Store.SetPool | src/handlers/mint.ts:174 | the pool is stored under its id and nothing else changes |
| EntityStore.Store.SetTick | src/handlers/mint.ts:163-164 | the tick is stored under its id and nothing else changes |
| EntityStore.Store.SetPoolDayData | src/handlers/utils/intervalUpdates.ts:60 | a well-formed day record is stored under its id and nothing else changes |
| EntityStore.Store.SetPoolHourData | src/handlers/utils/intervalUpdates.ts:118 | a well-formed hour record is stored under its id and nothing else changes |
| HandlerCommon.LoadPoolEvent | src/handlers/collect.ts:15-36 | the load succeeds exactly when the pool, the chain's bundle, the factory and both of the pool's tokens are stored; without the pool the reason is a missing pool, otherwise a missing dependency; on success it holds exactly those five stored records |
| HandlerCommon.LoadedIds | src/handlers/collect.ts:16-25 | in a valid store, each loaded record carries the id it was looked up by, and the tokens are the pool's tokens |
| HandlerCommon.PoolRevalued | src/handlers/mint.ts:110-117 | pool ETH TVL is the sum of the locked amounts at their ETH prices, USD TVL is that times the ETH price, and nothing else changes |
| HandlerCommon.TokenTvlMoved | src/handlers/mint.ts:83-95 | one more transaction, the locked amount moved by exactly the delta, the USD value re-derived, and nothing else changes |
| HandlerCommon.FactoryReaggregated | src/handlers/mint.ts:75-125 | the factory's ETH TVL moves by exactly the pool's new minus old ETH TVL, its USD TVL is re-derived, and nothing else changes |
| IntervalUpdates.DayIndex | src/handlers/utils/intervalUpdates.ts:14-15 | the day index's window [index·86400, index·86400 + 86400) holds the timestamp |
| IntervalUpdates.HourIndex | src/handlers/utils/intervalUpdates.ts:69-70 | the hour index's window of 3600 seconds holds the timestamp |
| IntervalUpdates.WindowOfQuotient | src/handlers/utils/intervalUpdates.ts:14-15 | any positive bucket length places a timestamp in the window of its floored quotient |
| IntervalUpdates.WindowIsUnique | src/handlers/utils/intervalUpdates.ts:14-15 | a timestamp lies in the window of exactly one index |
| IntervalUpdates.SameDayRecordIffSameWindow | src/handlers/utils/intervalUpdates.ts:14-17 | two events of a pool update the same day record exactly when the second falls in the first's day window |
| IntervalUpdates.SameHourRecordIffSameWindow | src/handlers/utils/intervalUpdates.ts:69-72 | the same for hour records |
| IntervalUpdates.NewDayData | src/handlers/utils/intervalUpdates.ts:20-41 | a new day record has zero volumes and count, all four prices at the pool's token0 price, and the pool's snapshot |
| IntervalUpdates.NewHourData | src/handlers/utils/intervalUpdates.ts:75-96 | a new hour record has the prices at the pool's token0 price but an empty snapshot: no liquidity, price, tick or TVL |
| IntervalUpdates.Touched | src/handlers/utils/intervalUpdates.ts:43-58 | high is the larger of itself and the price, low the smaller; close and the snapshot are the pool's; the count grows by one; the identity, opening price and volumes are kept; an ordered price range stays ordered |
| IntervalUpdates.TouchedIsWellFormed | src/handlers/utils/intervalUpdates.ts:43-60 | refreshing an aligned, ordered record yields a record that may be stored |
| IntervalUpdates.DayRollup | src/handlers/utils/intervalUpdates.ts:9-62 | only the pool's record for the timestamp's day is added or changed; an existing record is refreshed from the pool; a missing one is created under its bucket id at the day boundary and then refreshed, so it holds the pool's snapshot, one transaction and every price at the pool's price |
| IntervalUpdates.HourRollup | src/handlers/utils/intervalUpdates.ts:64-121 | the same for the hour record: a missing one is created from `NewHourData` under its bucket id and then refreshed from the pool |
| IntervalUpdates.WithSwapVolume | src/handlers/swap.ts:242-252 | volumes and fees grow by exactly the given amounts, nothing else changes, and a well-formed record stays well formed |
| IntervalUpdates.UpdatePoolDayData | src/handlers/utils/intervalUpdates.ts:9-62 | the day map becomes `DayRollup` of the old one, the returned record is the stored one, other maps are unchanged, and the store stays valid |
| IntervalUpdates.UpdatePoolHourData | src/handlers/utils/intervalUpdates.ts:64-121 | the same for the hour map and `HourRollup` |
| Mint.CreateTick | src/handlers/mint.ts:179-203 | a new tick carries its id, index, pool and creation block, has zero gross and net liquidity, and price0 = 1.0001^tick with price1 its safe inverse |
| Mint.TickOrNew | src/handlers/mint.ts:134-156 | the stored tick when present, else a new one; in a valid store it carries the tick's id |
| Mint.MintedLowerTick | src/handlers/mint.ts:158-159 | the lower tick gains the amount in both gross and net liquidity, and nothing else changes |
| Mint.MintedUpperTick | src/handlers/mint.ts:160-161 | the upper tick gains the amount in gross liquidity and loses it in net liquidity |
| Mint.MintedTicks | src/handlers/mint.ts:127-164 | only the two boundary ticks are added or changed; the upper is the minted upper tick; when the boundaries differ, the lower is the minted lower tick |
| Mint.MintedPool | src/handlers/mint.ts:97-117 | one more transaction; liquidity grows by the amount exactly when the position covers the current tick; the locked amounts grow by the minted amounts; the TVL is re-derived |
| Mint.Minted | src/handlers/mint.ts:60-125 | the bundle is unchanged; all four counts grow by one; each token's locked amount moves exactly as the pool's; the factory's ETH TVL moves exactly as the pool's |
| Mint.MintedRecords | src/handlers/mint.ts:60-125 | the field-by-field updates produce exactly `Minted` |
| Mint.HandleMint | src/handlers/mint.ts:44-176 | a failed load writes nothing; otherwise the ticks, rollups, tokens, pool and factory are written as `MintedTicks`, the rollups and `Minted` say; the bundle is untouched; the store stays valid |
| Burn.BurnedPool | src/handlers/burn.ts:62-75 | one more transaction; liquidity falls by the amount exactly when the position covers the current tick; nothing else changes |
| Burn.BurnedTick | src/handlers/burn.ts:82-85 | gross and net liquidity each fall by the amount (the source's update of both boundaries) |
| Burn.BurnedTicks | src/handlers/burn.ts:77-89 | as written: ticks change only when both boundaries are stored, no tick is created, and both boundaries get `BurnedTick` |
| Burn.Burned | src/handlers/burn.ts:53-75 | the bundle is unchanged; factory and tokens only count one more transaction; no TVL moves |
| Burn.BurnedRecords | src/handlers/burn.ts:53-75 | the field-by-field updates produce exactly `Burned` |
| Burn.HandleBurn | src/handlers/burn.ts:37-98 | a failed load writes nothing; otherwise the ticks as `BurnedTicks` gives them (both boundaries lowered, as written), rollups, tokens, pool and factory are written as `Burned` says; the bundle is untouched |
| Burn.MintThenBurnTicks | src/handlers/burn.ts:85 | as written, a mint followed by a burn of the same position leaves the upper tick's net liquidity 2·amount below where it started |
| Burn.MintThenBurnExample | src/handlers/burn.ts:85 | concretely, one unit minted and burnt on ticks [0, 10) of a pool with no ticks leaves the upper tick at net liquidity −2 |
| Burn.RestoringBurnedUpperTick | src/handlers/burn.ts:84-85 | corrected: the upper tick loses the amount in gross liquidity and regains it in net liquidity |
| Burn.RestoringBurnedTicks | src/handlers/burn.ts:77-89 | the tick map after a burn with the corrected upper update |
| Burn.MintThenRestoringBurnTicks | src/handlers/burn.ts:77-89 | with the correction, a mint followed by a burn of the same position restores both boundary ticks |
| Collect.CollectedPool | src/handlers/collect.ts:96-120 | each locked amount falls by exactly what its collected fees rise by, so their sum is invariant; USD fees grow by the tracked amount; TVL is re-derived; nothing else changes |
| Collect.Collected | src/handlers/collect.ts:46-128 | the bundle is unchanged; all four counts grow by one; the tokens' locked amounts and the factory's ETH TVL move exactly as the pool's; the tracked amount uses the pre-event tokens |
| Collect.CollectedRecords | src/handlers/collect.ts:46-128 | the field-by-field updates produce exactly `Collected` |
| Collect.HandleCollect | src/handlers/collect.ts:31-137 | a failed load writes nothing; otherwise the rollups, tokens, pool and factory are written as `Collected` says; ticks and bundle are untouched |
| Swap.ExcludedIffAddress | src/handlers/swap.ts:64-69 | a swap is ignored exactly when its pool address is the excluded one, in any letter case |
| Swap.Abs | src/handlers/swap.ts:81-87 | the absolute value is non-negative and equal to the amount or its negation |
| Swap.SwapAmountsOf | src/handlers/swap.ts:71-118 | the tracked and untracked USD volume are half of what the helpers count; the ETH volume is the tracked USD over the ETH price; the fees are the volume times the fee tier in millionths |
| Swap.SwappedFactory | src/handlers/swap.ts:120-129 | one more transaction and swap; volumes and fees grow by the swap's amounts; nothing else changes |
| Swap.SwappedToken | src/handlers/swap.ts:153-171 | the volume grows by the absolute amount, the locked amount by the signed amount, the USD volumes and fees by the swap's; one more transaction |
| Swap.SwappedPool | src/handlers/swap.ts:136-181 | volumes, fees and count grow; liquidity, price and tick are the event's; the locked amounts move by the signed deltas; the token prices are from the new square-root price |
| Swap.Repriced | src/handlers/swap.ts:194-233 | a token takes its new ETH price, and its locked amount is re-priced in USD |
| Swap.FirstWrittenPool | src/handlers/swap.ts:173-182 | the pool written before repricing has its token prices computed from the swapped tokens |
| Swap.Swapped | src/handlers/swap.ts:47-233 | the ETH price is read from the pools with the swapped pool in place; each token's price is read for the swapped token from those pools against the stored tokens as they were before the swap; volumes never fall; the locked amounts move together in pool and token; the factory's ETH TVL moves as the pool's; all TVL is re-derived at the new prices |
| Swap.SwappedRecords | src/handlers/swap.ts:120-182 | the working copies up to the first pool write match the spec functions |
| Swap.RepricedRecords | src/handlers/swap.ts:211-233 | the repricing steps produce the revalued pool, the re-aggregated factory and the repriced tokens |
| Swap.WithSwapVolumeOf | src/handlers/swap.ts:242-252 | the record gains exactly the swap's volumes and fees |
| Swap.SwapRollup | src/handlers/swap.ts:235-255 | only the swap's bucket changes, by exactly the swap's volume |
| Swap.SwapAndReprice | src/handlers/swap.ts:173-233 | the records equal `Swapped` of the store before the swap; the pool as first written and the new bundle are in the store |
| Swap.HandleSwap | src/handlers/swap.ts:32-260 | a failed load or the excluded pool writes nothing; otherwise pools, bundle, factory, tokens and rollups are as `Swapped` and `SwapRollup` say; the pool's second write replaces its first; ticks are untouched |
| PoolCreated.FactoryOrNew | src/handlers/poolCreated.ts:74-92 | the stored factory, or a new one with zero pool count and aggregates, owned by the zero address |
| PoolCreated.TokenOrNew | src/handlers/poolCreated.ts:108-156 | the stored token, or a new one named from its metadata, with the given whitelist and support flags, zero aggregates and no whitelist pools |
| PoolCreated.NewPool | src/handlers/poolCreated.ts:158-188 | the new pool is empty, keyed by chain and address, has the fee as its fee tier and the tick spacing as its tick, and is supported as given |
| PoolCreated.WithPoolLinked | src/handlers/poolCreated.ts:190-197 | the pool id is appended exactly when the other token is whitelisted, the earlier links are kept, and the token lists the pool iff the other is whitelisted or it already did |
| PoolCreated.Creation | src/handlers/poolCreated.ts:72-197 | the factory's pool count grows by one; a bundle at price 0 is created exactly when the factory is new; a new token1's `supported` comes from token0's metadata; the pool is supported iff both metadata say so; each token is linked when the other is whitelisted |
| PoolCreated.CreatedPoolLoads | src/handlers/poolCreated.ts:158-202 | once a pool is created, and the chain has or just got a bundle, that pool's events load the new pool, the factory and its tokens as written |
| PoolCreated.CreatedRecords | src/handlers/poolCreated.ts:72-197 | the handler's step-by-step construction produces exactly `Creation` |
| PoolCreated.HandlePoolCreated | src/handlers/poolCreated.ts:53-203 | a pool on the skip list writes nothing; otherwise the bundle (for a new factory), pool, tokens and factory are written as `Creation` says; ticks and rollups are untouched |
| TokenMetadata.PrintableTrimmableIsSpace | src/handlers/utils/tokenMetadataEffect.ts:88 | among printable ASCII characters only the space is white space |
| TokenMetadata.StripNonPrintable | src/handlers/utils/tokenMetadataEffect.ts:88 | the result is printable, a one-character input is kept exactly when it is printable, and a printable input is kept whole |
| TokenMetadata.StripNonPrintableAppend | src/handlers/utils/tokenMetadataEffect.ts:88 | stripping distributes over concatenation, so it keeps exactly the printable characters in their order |
| TokenMetadata.TrimStart | src/handlers/utils/tokenMetadataEffect.ts:88 | removes exactly the leading white-space run |
| TokenMetadata.TrimEnd | src/handlers/utils/tokenMetadataEffect.ts:88 | removes exactly the trailing white-space run |
| TokenMetadata.TrimmedIsSlice | src/handlers/utils/tokenMetadataEffect.ts:88 | trimming a printable string removes only spaces at both ends and keeps a contiguous middle |
| TokenMetadata.SanitizeString | src/handlers/utils/tokenMetadataEffect.ts:85-89 | empty stays empty; the result is a contiguous slice of the stripped input with only spaces outside it, printable ASCII, and neither starting nor ending with a space |
| TokenMetadata.SanitizedIsFixed | src/handlers/utils/tokenMetadataEffect.ts:85-89 | a printable string without surrounding spaces is left unchanged |
| TokenMetadata.SanitizeIdempotent | src/handlers/utils/tokenMetadataEffect.ts:85-89 | sanitising twice is sanitising once |
| TokenMetadata.RemoveZeroBytes | src/handlers/utils/tokenMetadataEffect.ts:206-212 | no zero byte remains, every non-zero byte is kept, and a one-byte input is kept exactly when it is non-zero |
| TokenMetadata.RemoveZeroBytesAppend | src/handlers/utils/tokenMetadataEffect.ts:206-212 | removal distributes over concatenation, so the non-zero bytes are kept in order and with multiplicity |
| TokenMetadata.ResolveText | src/handlers/utils/tokenMetadataEffect.ts:200-234 | the string read if it succeeded, else the `bytes32` read, else the fallback; an empty outcome becomes the fallback; the result is never empty |
| TokenMetadata.MetadataFromReads | src/handlers/utils/tokenMetadataEffect.ts:200-236 | name and symbol are resolved with fallbacks `unknown` and `UNKNOWN`; decimals default to 18; `supported` is passed through |
| TokenMetadata.FindOverride | src/handlers/utils/tokenMetadataEffect.ts:149-151 | none exactly when no override matches ignoring case, otherwise the first matching override |
| TokenMetadata.GetTokenMetadata | src/handlers/utils/tokenMetadataEffect.ts:113-258 | `supported` is the lower-cased address's membership on every path; the zero address takes the native token; then an override; then the reads; an unknown chain or a failed call gives `unknown`/`UNKNOWN`/18 |

## Left out

- `src/handlers/utils/cache.ts` and the metadata cache lookup and store are not part of this model. Only the uncached path of the effect is modelled.
- RPC clients, the per-chain client table, `getRpcUrl`, and the hex parsing of `bytes32` results are left out. The five contract reads are an input (`Erc20Reads`, or `Threw` when contacting the contract raised), `bytes32` results are given as bytes, and UTF-8 decoding is an uninterpreted function.
- `contractRegister` (registering a new pool address for event delivery) is left out: it concerns event routing, not the store.
- The loaders' `Promise.all` and the un-awaited interval updates are modelled as sequential reads and writes in source order. Concurrency is left out.
- The bodies of `utils/pricing` and `utils/index` (`getTrackedAmountUSD`, `sqrtPriceX96ToTokenPrices`, `getNativePriceInUSD`, `findNativePerToken`, `convertTokenToDecimal`, `safeDiv`, `fastExponentiation`, `isAddressInList`) are not part of this model. They are uninterpreted parameters.
- `CHAIN_CONFIGS`/`getChainConfig` contents are inputs (`ChainConfig`). An unknown chain in the metadata effect is `None`, which takes the error path.
- BigDecimal precision and rounding are left out: amounts and prices are exact reals, and BigInt quantities are unbounded integers.
- Record copies are values. The shallow-copy aliasing of `whitelistPools` arrays between a loaded record and its copy is not modelled.
- Logging is left out.
- PoolCreated.HandlePoolCreated: takes the two tokens' metadata as the inputs `meta0` and `meta1`. They stand for the results of `getTokenMetadataEffect`, which `TokenMetadata.GetTokenMetadata` models; the handler does not call it itself.
- `ToLower` lower-cases ASCII letters only. Addresses are hexadecimal, so nothing else occurs in practice.
- `utils/constants.ts` is not part of this model. `ADDRESS_ZERO` is taken as the 40-zero hexadecimal address.
- The field-name casing drift between handlers (`derivedETH`/`derivedEth`, `ethPriceUSD`/`ethPriceUsd`) is read as one schema.
- The handlers' `Outcome` result is a modelling addition. The source returns nothing and signals a dropped event only by writing nothing.
- Ticks' volume, fee and liquidity-provider fields are not updated by the source (it leaves them as a TODO) and are not part of the tick record here.

## Findings

| source | as written | input that shows it | evidently intended | confidence | as-written member | corrected member |
|---|---|---|---|---|---|---|
| src/handlers/burn.ts:85 | a burn lowers the upper tick's `liquidityNet` by the amount, the same as mint.ts:161 does | mint then burn `amount = 1` on ticks `[0, 10)`: the upper tick's net liquidity goes 0 → −1 → −2 instead of back to 0 | the burn raises the upper tick's net liquidity by the amount, undoing the mint | not executed | Burn.MintThenBurnTicks | Burn.MintThenRestoringBurnTicks |

Besides this finding, two behaviours of poolCreated.ts are modelled as written:
- A new token1 takes its `supported` flag from token0's metadata (poolCreated.ts:154).
- The new pool's `tick` is set to the event's tick spacing (poolCreated.ts:169).
