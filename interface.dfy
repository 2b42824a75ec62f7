/** Types of the Mira AMM contract and its four scripts, as the generated
    bindings expose them to the read-only facade. */
module Interface {
  import opened Fuels

  /** A pool: its two assets, in the contract's canonical order, and whether
      it uses the stable curve. The facade reads `.0` and `.1` only. */
  type PoolId = (AssetId, AssetId, bool)

  /** The pool's on-chain snapshot, passed through unchanged by the facade. */
  datatype PoolMetadata = PoolMetadata(encoded: seq<bv8>)

  /** The contract's fee schedule. */
  datatype AmmFees = AmmFees(
    lpFeeVolatile: U64,
    lpFeeStable: U64,
    protocolFeeVolatile: U64,
    protocolFeeStable: U64)

  /** Descriptor of a liquidity-provider token. */
  datatype LpAssetInfo = LpAssetInfo(
    assetId: AssetId,
    name: string,
    symbol: string,
    decimals: U8,
    totalSupply: U64)

  /** The contract's ownership state. */
  datatype State = Uninitialized | Initialized(owner: Identity) | Revoked

  /** An amount of one asset (what add-liquidity returns: the minted LP tokens). */
  datatype Asset = Asset(id: AssetId, amount: U64)

  /** The four compiled scripts the facade drives. */
  datatype ScriptKind =
    | AddLiquidityScript
    | RemoveLiquidityScript
    | SwapExactInputScript
    | SwapExactOutputScript
}
