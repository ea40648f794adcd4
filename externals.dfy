/**
 * The collaborators the handlers call but whose code is not part of this
 * model: the number helpers of `utils/index`, the price-discovery helpers of
 * `utils/pricing`, and the per-chain configuration `CHAIN_CONFIGS`. Each helper
 * is an uninterpreted function carried in a record, and every property proved
 * about a handler holds whatever these functions compute.
 */
module Externals {
  import opened Entities

  /** `ADDRESS_ZERO` of `utils/constants`, the placeholder address of a chain's native token. */
  const AddressZero: string := "0x0000000000000000000000000000000000000000"

  datatype NativeTokenDetails = NativeTokenDetails(name: string, symbol: string, decimals: int)

  datatype TokenOverride = TokenOverride(address: string, name: string, symbol: string, decimals: int)

  /** One chain's entry of `CHAIN_CONFIGS`; its contents are inputs. */
  datatype ChainConfig = ChainConfig(
    factoryAddress: string,
    poolsToSkip: seq<string>,
    whitelistTokens: seq<string>,
    stablecoinWrappedNativePoolId: string,
    stablecoinIsToken0: bool,
    wrappedNativeAddress: string,
    stablecoinAddresses: seq<string>,
    minimumNativeLocked: real,
    nativeTokenDetails: NativeTokenDetails,
    tokenOverrides: seq<TokenOverride>)

  /** `utils/index`. */
  datatype NumberUtils = NumberUtils(
    convertTokenToDecimal: (int, int) -> real,  // (raw amount, decimals)
    safeDiv: (real, real) -> real,
    fastExponentiation: (real, int) -> real,
    isAddressInList: (string, seq<string>) -> bool)

  /**
   * `utils/pricing`. The two helpers that read the entity store receive the
   * store's pools and tokens as they are at the moment of the call.
   */
  datatype Pricing = Pricing(
    // (bundle, amount0, token0, amount1, token1, whitelistTokens)
    getTrackedAmountUsd: (Bundle, real, Token, real, Token, seq<string>) -> real,
    // (sqrtPriceX96, token0, token1, nativeTokenDetails) -> (token0Price, token1Price)
    sqrtPriceX96ToTokenPrices: (int, Token, Token, NativeTokenDetails) -> (real, real),
    // (pools, chainId, stablecoinWrappedNativePoolId, stablecoinIsToken0)
    getNativePriceInUsd: (map<string, Pool>, int, string, bool) -> real,
    // (pools, tokens, token, bundle, wrappedNativeAddress, stablecoinAddresses, minimumNativeLocked)
    findNativePerToken: (map<string, Pool>, map<string, Token>, Token, Bundle, string, seq<string>, real) -> real)
}
