/** The names the read-only facade imports from the rest of the crate
    (`crate::constants`, `crate::utils`, the script binary paths of
    `crate::interface`) and the key derivation of the SDK. Their definitions
    are not part of this model, so each is a value or an uninterpreted
    function held in one record that every operation receives. */
module Externals {
  import opened Fuels
  import opened Interface

  /** One entry of a spend list: an asset and the amount drawn from it. */
  type Spend = (AssetId, U64)

  datatype Externals = Externals(
    /** `SecretKey::from_str(READONLY_PRIVATE_KEY)`; it may fail. */
    readonlyPrivateKey: Result<SecretKey>,
    /** `ContractId::from_str(DEFAULT_AMM_CONTRACT_ID)`; `None` when the
        compiled-in default does not parse. */
    defaultAmmContractId: Option<ContractId>,
    /** The address the SDK derives from a secret key. */
    addressOf: SecretKey -> Address,
    /** The `*_SCRIPT_BINARY_PATH` constants. */
    scriptBinaryPath: ScriptKind -> string,
    /** `utils::get_asset_id_in(asset_out, pools)`: the asset a
        swap-exact-output spends. */
    getAssetIdIn: (AssetId, seq<PoolId>) -> AssetId,
    /** `utils::get_lp_asset_id(contract_id, pool_id)`: the LP token of a pool. */
    getLpAssetId: (ContractId, PoolId) -> AssetId,
    /** `utils::get_transaction_inputs_outputs(wallet, spends)`: the inputs
        and outputs built from the wallet's balance at the time of the call. */
    getTransactionInputsOutputs: (WalletUnlocked, seq<Spend>) -> (seq<Input>, seq<Output>))
}
