# Read-only Mira AMM facade, modelled in Dafny

`ReadonlyMiraAmm` (package `mira-v1`) is a simulation facade for the Mira
AMM on Fuel. It holds a wallet built from a fixed, publicly known key (the
simulation account). It binds that wallet to one AMM contract and to the four
scripts add-liquidity, remove-liquidity, swap-exact-input and
swap-exact-output. It then offers:

- read queries: pool metadata, fees, hook, total assets, LP-asset
  descriptor, owner. Each makes state-read-only contract calls with a max
  fee of 1,000,000,000: one call, or four for the LP-asset descriptor.
- previews of the four operations. Each builds inputs and outputs for the
  simulation account from a spend list and runs the script in simulation
  mode.

Everything the facade does over the network is an input to this model: the
node's answers are plain `Result` values. The names imported from the crate
(`get_asset_id_in`, `get_lp_asset_id`, `get_transaction_inputs_outputs`,
`READONLY_PRIVATE_KEY`, `DEFAULT_AMM_CONTRACT_ID`, the script binary paths)
and the SDK's key-to-address derivation are fields of the `Externals`
record: one value or one uninterpreted function each.

Files:

- `fuels.dfy` (module `Fuels`): the SDK value types. These are fixed-width
  integers as newtypes, 32-byte ids, `Identity`, `Option`, `Result`,
  `Outcome` (a returned `Result` or a panic), `TxPolicies`, `Execution` and
  `VariableOutputPolicy`.
- `interface.dfy` (module `Interface`): the contract's types `PoolId`,
  `AmmFees`, `LpAssetInfo`, `State`, `Asset`, `PoolMetadata`, and the four
  script kinds.
- `externals.dfy` (module `Externals`): the imported names, as described above.
- `readonly_mira_amm.dfy` (module `ReadonlyAmm`): the facade itself.
  It has `Connect`, the query plans, the result normalisation
  (`FeesOf`, `LpAssetInfoOf`, `OwnerOf` and their `Result` wrappers), and the
  preview plans (`Plan`, with `SpendList`, `ScriptFor`, `MainCall`,
  `ModeOf`). `Settle` models the `unwrap` of a simulation. `Previews` runs a
  sequence of previews against one ledger state.

Each preview is declared to return `Result`, but it calls `.unwrap()` on
the simulation result (lines 237, 274, 308, 345). A failed simulation
therefore panics, and `Err` is never returned. `Settle` maps an error to
`Panicked`, and `PreviewNeverReturnsErr` states that a preview never
returns `Err`.

`connect` passes `ContractId::from_str(DEFAULT_AMM_CONTRACT_ID).unwrap()` to
`unwrap_or`, and Rust evaluates that argument eagerly. So a default that does
not parse panics even when the caller gave an override. `Connect` models
this.

## Model

| member | source | states |
|---|---|---|
| `ReadonlyAmm.SufficientTxPolicies` | packages/mira-v1/src/readonly_mira_amm.rs:29-31 | the query policies set max fee 1,000,000,000 and leave every other policy at its default |
| `Fuels.TxPolicies.WithMaxFee` | packages/mira-v1/src/readonly_mira_amm.rs:30 | setting the max fee changes that policy only |
| `Fuels.Option.UnwrapOr` | packages/mira-v1/src/readonly_mira_amm.rs:39 | the override when present, the default otherwise |
| `Fuels.UnwrapOrDefault` | packages/mira-v1/src/readonly_mira_amm.rs:230 | a preview uses the caller's policies when given, the default policies otherwise |
| `ReadonlyAmm.Connect` | packages/mira-v1/src/readonly_mira_amm.rs:34-84 | a key parse error is returned; otherwise a malformed default id panics, whether or not an override is given; otherwise the facade's wallet comes from the key, and the contract handle and all four scripts use that wallet and the override-or-default id |
| `ReadonlyAmm.ConnectBindsOneContract` | packages/mira-v1/src/readonly_mira_amm.rs:38-73 | a connected facade's id is the override when given and the default otherwise, and every script is configured with that same id and wallet |
| `ReadonlyAmm.QuerySettings` | packages/mira-v1/src/readonly_mira_amm.rs:90-138 | every read query goes to the bound contract, state-read-only, with max fee 1,000,000,000 |
| `ReadonlyAmm.LpAssetInfoQueries` | packages/mira-v1/src/readonly_mira_amm.rs:140-172 | the descriptor needs four state-read-only queries on the same asset, name, symbol, decimals, total supply, in that order |
| `ReadonlyAmm.FeesOf` | packages/mira-v1/src/readonly_mira_amm.rs:102-115 | tuple components 0 to 3 become LP fee volatile, LP fee stable, protocol fee volatile, protocol fee stable |
| `ReadonlyAmm.FeesRoundTrip` | packages/mira-v1/src/readonly_mira_amm.rs:110-115 | the fee mapping is a bijection between tuples and fee records, with inverse `FeeTupleOf` |
| `ReadonlyAmm.Fees` | packages/mira-v1/src/readonly_mira_amm.rs:101-116 | a node error is forwarded unchanged; a tuple is mapped positionally |
| `ReadonlyAmm.LpAssetInfoOf` | packages/mira-v1/src/readonly_mira_amm.rs:174-185 | a descriptor exists iff all four lookups found a value, and then it carries the queried asset id and those four values unchanged; never a partial one |
| `ReadonlyAmm.LpAssetInfoRoundTrip` | packages/mira-v1/src/readonly_mira_amm.rs:174-183 | every descriptor is produced from the four values it holds |
| `ReadonlyAmm.LpAssetInfoResult` | packages/mira-v1/src/readonly_mira_amm.rs:140-186 | the result is an error iff one of the four answers is, and then it is the first failing answer's error (name, symbol, decimals, total supply order); otherwise it is the descriptor of `LpAssetInfoOf` |
| `ReadonlyAmm.OwnerOf` | packages/mira-v1/src/readonly_mira_amm.rs:197-201 | an owner is present iff the state is `Initialized`, and then it is the stored identity; `Uninitialized` and `Revoked` give none |
| `ReadonlyAmm.OwnerOfOnto` | packages/mira-v1/src/readonly_mira_amm.rs:197-201 | every optional owner, present or absent, comes from some ownership state |
| `ReadonlyAmm.OwnerOfForgetsOnlyRevocation` | packages/mira-v1/src/readonly_mira_amm.rs:197-201 | two states collapse to the same owner iff they are equal or both are not `Initialized` |
| `ReadonlyAmm.Owner` | packages/mira-v1/src/readonly_mira_amm.rs:188-202 | a node error is forwarded unchanged; a state is collapsed by `OwnerOf` |
| `ReadonlyAmm.PlanAddLiquidity` | packages/mira-v1/src/readonly_mira_amm.rs:214-235 | spends exactly `[(pool.0, amount_0_desired), (pool.1, amount_1_desired)]`; runs the add-liquidity script with the caller's arguments and the simulation account as recipient; state-read-only |
| `ReadonlyAmm.PlanRemoveLiquidity` | packages/mira-v1/src/readonly_mira_amm.rs:251-272 | spends exactly `[(get_lp_asset_id(id, pool), liquidity)]` for the bound contract id; runs the remove-liquidity script with the caller's arguments; state-read-only |
| `ReadonlyAmm.PlanSwapExactInput` | packages/mira-v1/src/readonly_mira_amm.rs:288-306 | spends exactly `[(asset_in, amount_in)]`; runs the swap-exact-input script with the caller's arguments; state-read-only |
| `ReadonlyAmm.PlanSwapExactOutput` | packages/mira-v1/src/readonly_mira_amm.rs:322-343 | spends exactly `[(get_asset_id_in(asset_out, pools), amount_in_max)]`, the maximum input and not the output amount; runs the swap-exact-output script; realistic mode |
| `ReadonlyAmm.RealisticOnlyForSwapExactOutput` | packages/mira-v1/src/readonly_mira_amm.rs:235-343 | a preview runs in realistic mode iff it is swap-exact-output, and state-read-only otherwise |
| `ReadonlyAmm.PlanSharedSettings` | packages/mira-v1/src/readonly_mira_amm.rs:214-234 | every preview has variable outputs `Exactly(1)`, the simulation account's address as recipient, the caller's policies or the default, the bound contract as its only contract, inputs and outputs built for the simulation account from its own spend list, and two spends for add-liquidity and one otherwise |
| `ReadonlyAmm.ConnectedPlanUsesChosenContract` | packages/mira-v1/src/readonly_mira_amm.rs:251-256 | through a connected facade, every preview's script and contract use the contract id chosen at construction, and the remove-liquidity LP token is derived from that id |
| `ReadonlyAmm.Settle` | packages/mira-v1/src/readonly_mira_amm.rs:235-238 | a simulation error panics; a value is returned as `Ok` unchanged |
| `ReadonlyAmm.PreviewNeverReturnsErr` | packages/mira-v1/src/readonly_mira_amm.rs:235-239 | a preview returns `Ok` or panics; it never returns `Err` |
| `ReadonlyAmm.Previews` | packages/mira-v1/src/readonly_mira_amm.rs:204-348 | a sequence of previews taken against one fixed ledger state gives one outcome per preview; pinned by `PreviewsPointwise` |
| `ReadonlyAmm.PreviewsPointwise` | packages/mira-v1/src/readonly_mira_amm.rs:204-348 | with the ledger state held fixed and the simulation deterministic, as the model assumes, each outcome in a sequence is the settled simulation of that preview's own plan (the pointwise law of a map) |
| `ReadonlyAmm.PreviewsIdempotent` | packages/mira-v1/src/readonly_mira_amm.rs:204-348 | under the same assumption, two previews with equal parameters in one sequence give equal outcomes |
| `ReadonlyAmm.ShapeOfPreview` | packages/mira-v1/src/readonly_mira_amm.rs:213-321 | add-liquidity expects an `Asset`, remove-liquidity a pair of amounts, both swaps an amount-and-asset trace |
| `ReadonlyAmm.PreviewsWellTyped` | packages/mira-v1/src/readonly_mira_amm.rs:213-321 | when the node answers in each script's declared type, every returned preview outcome is `Ok` with the value shape of its own operation |
| `ReadonlyAmm.ReadonlyMiraAmm.Id` | packages/mira-v1/src/readonly_mira_amm.rs:86-88 | the bound contract; its value after construction is pinned by `ConnectBindsOneContract` |
| `Fuels.DefaultTxPolicies` | packages/mira-v1/src/readonly_mira_amm.rs:30 | `TxPolicies::default()`, no policy set; used by `SufficientTxPolicies` and `UnwrapOrDefault` |
| `ReadonlyAmm.Query` | packages/mira-v1/src/readonly_mira_amm.rs:92-96 | the plan of a read query; pinned by `QuerySettings` |
| `ReadonlyAmm.Recipient` | packages/mira-v1/src/readonly_mira_amm.rs:227 | the simulation account's address as an `Identity`; pinned by `MainCall` and `PlanSharedSettings` |
| `ReadonlyAmm.SpendList` | packages/mira-v1/src/readonly_mira_amm.rs:214-326 | two spends for add-liquidity and one otherwise; the exact lists are pinned by `PlanAddLiquidity`, `PlanRemoveLiquidity`, `PlanSwapExactInput`, `PlanSwapExactOutput` |
| `ReadonlyAmm.ScriptFor` | packages/mira-v1/src/readonly_mira_amm.rs:220-329 | one of the facade's four scripts; which one is pinned by the four `Plan*` lemmas |
| `ReadonlyAmm.MainCall` | packages/mira-v1/src/readonly_mira_amm.rs:221-337 | the `main` call of the operation's own script, with the simulation account as recipient and the caller's deadline; the other arguments are pinned by the four `Plan*` lemmas |
| `ReadonlyAmm.ModeOf` | packages/mira-v1/src/readonly_mira_amm.rs:235-343 | realistic mode iff the operation is swap-exact-output |
| `ReadonlyAmm.Plan` | packages/mira-v1/src/readonly_mira_amm.rs:214-343 | the whole preparation of a preview; pinned by `PlanSharedSettings`, `RealisticOnlyForSwapExactOutput` and the four per-operation `Plan*` lemmas |

## Left out

- Network round trips, `simulate`, provider construction and wallet
  construction are SDK calls and I/O. Their results are inputs: a node
  answer is a `Result` value, and `Previews` takes the node as a function of
  the plan.
- `get_asset_id_in`, `get_lp_asset_id` and `get_transaction_inputs_outputs`
  are uninterpreted functions in `Externals`. Their bodies are in the crate's
  `utils` module, which is not part of this model. So the model does not
  resolve a multi-hop path such as `[(A,B),(B,C)]` to `A`, and it does not
  select coins from the wallet's balance.
- The AMM's pricing, fee and liquidity math runs inside the deployed contract
  and scripts. The preview values are whatever the node answers.
- `pool_metadata`, `hook` and `total_assets` return the contract's answer
  unchanged. They are modelled by their query plan (`Query`, with the lemma
  `QuerySettings`) only.
- `with_AMM_CONTRACT_ID(…).unwrap()` encodes a contract id into the
  configurables. The model treats it as never failing.
- `Bech32ContractId` and the `.into()` conversions to and from `ContractId`
  are treated as the identity: the model has one `ContractId` type. The
  `.into()` from the simulation account's `Address` to `Identity` (line 227)
  is modelled as `Identity::Address` of that address (`Recipient`).
- The types of the contract's name, symbol, decimals and total supply
  (`String`, `u8`, `u64`) and of the fee fields (`u64`) follow the Mira
  contract. The `interface` module that declares them is not part of this
  model.
- `TxPolicies` is modelled with the five fields tip, witness limit,
  maturity, max fee and script gas limit. Only the max fee is ever set here.
- Concurrency between overlapping previews is not modelled. Neither is the
  race on the simulation account's balance.
- The pool metadata's canonical asset order, and the amounts in a preview
  (a positive minted LP amount, a swap output below the reserve), come from
  the contract. The facade does not check them.
- Previews: idempotence and the absence of interference between previews
  hold by construction. `Previews` holds one unchanged ledger state and
  takes the simulation as a deterministic function of the plan;
  `PreviewsPointwise` and `PreviewsIdempotent` prove nothing about the
  ledger that the model does not already assume.
- PreviewsWellTyped: the result types of the scripts' `main` come from the
  generated bindings, which are not part of this model. The lemma assumes a
  node that answers in those types (`TypedNode`) rather than deriving it.
