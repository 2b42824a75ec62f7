/** Value types of the fuels SDK that the read-only facade passes around.
    Only the shapes the facade relies on are modelled: fixed-width integers,
    32-byte identifiers, transaction policies, execution modes and the
    variable-output policy. */
module Fuels {

  /** Rust `u8`, `u32` and `u64`. */
  newtype U8 = x: int | 0 <= x < 0x100
  newtype U32 = x: int | 0 <= x < 0x1_0000_0000
  newtype U64 = x: int | 0 <= x < 0x1_0000_0000_0000_0000

  /** A 256-bit value, the representation of every fuels identifier. */
  type Bytes32 = s: seq<bv8> | |s| == 32 witness seq(32, _ => 0 as bv8)

  datatype AssetId = AssetId(bytes: Bytes32)
  datatype ContractId = ContractId(bytes: Bytes32)
  datatype Address = Address(bytes: Bytes32)

  /** `fuels::types::Identity`: a recipient is either an address or a contract. */
  datatype Identity = AddressIdentity(address: Address) | ContractIdentity(contractId: ContractId)

  datatype Option<T> = None | Some(value: T) {
    /** Rust `Option::unwrap_or`: the held value, or `default` when there is none. */
    function UnwrapOr(default: T): (r: T)
      ensures Some? ==> r == value
      ensures None? ==> r == default
    {
      match this
      case Some(v) => v
      case None => default
    }
  }

  /** `fuels::prelude::Error`, kept as an opaque message. */
  datatype Error = Error(message: string)

  /** `fuels::prelude::Result`. */
  datatype Result<T> = Ok(value: T) | Err(error: Error)

  /** What a Rust function call ends in: a returned `Result`, or a panic
      (an `unwrap` of an `Err` or of a `None`). */
  datatype Outcome<T> = Returned(result: Result<T>) | Panicked

  /** `fuels::crypto::SecretKey`. */
  datatype SecretKey = SecretKey(bytes: Bytes32)

  /** `fuels::prelude::Provider`: a handle to a node, opaque here. */
  datatype Provider = Provider(url: string)

  /** `fuels::prelude::WalletUnlocked`: a secret key, the address derived from
      it and the provider it talks to. */
  datatype WalletUnlocked = WalletUnlocked(secretKey: SecretKey, address: Address, provider: Option<Provider>)

  /** `fuels::prelude::TxPolicies`: every policy is optional; `None` leaves the
      choice to the SDK. */
  datatype TxPolicies = TxPolicies(
    tip: Option<U64>,
    witnessLimit: Option<U64>,
    maturity: Option<U32>,
    maxFee: Option<U64>,
    scriptGasLimit: Option<U64>)
  {
    /** `TxPolicies::with_max_fee`. */
    function WithMaxFee(fee: U64): (r: TxPolicies)
      ensures r.maxFee == Some(fee)
      ensures r.tip == tip && r.witnessLimit == witnessLimit
      ensures r.maturity == maturity && r.scriptGasLimit == scriptGasLimit
    {
      this.(maxFee := Some(fee))
    }
  }

  /** `TxPolicies::default()`: no policy set. */
  function DefaultTxPolicies(): TxPolicies {
    TxPolicies(None, None, None, None, None)
  }

  /** Rust `Option::<TxPolicies>::unwrap_or_default`. */
  function UnwrapOrDefault(p: Option<TxPolicies>): (r: TxPolicies)
    ensures p.Some? ==> r == p.value
    ensures p.None? ==> r == DefaultTxPolicies()
  {
    p.UnwrapOr(DefaultTxPolicies())
  }

  /** `fuels::prelude::Execution`: the two non-committing simulation modes. */
  datatype Execution = StateReadOnly | Realistic

  /** `VariableOutputPolicy`: how many variable outputs a script call gets. */
  datatype VariableOutputPolicy = EstimateMinimum | Exactly(count: nat)

  /** Transaction inputs and outputs built by the SDK, opaque here. */
  datatype Input = Input(encoded: seq<bv8>)
  datatype Output = Output(encoded: seq<bv8>)
}
