/** The read-only Mira AMM facade: a simulation account bound to one AMM
    contract and its four scripts, read queries whose answers it normalises,
    and four previews for which it chooses the spend list, the execution mode
    and the transaction policies. Every answer of the node is an input. */
module ReadonlyAmm {
  import opened Fuels
  import opened Interface
  import opened Externals

  // ---------------------------------------------------------------------
  // Policies

  /** The max fee every read query is sent with. */
  const SUFFICIENT_MAX_FEE: U64 := 1_000_000_000

  /** `sufficient_tx_policies()`: the default policies with the max fee set. */
  function SufficientTxPolicies(): (p: TxPolicies)
    ensures p.maxFee == Some(SUFFICIENT_MAX_FEE)
    ensures p.(maxFee := None) == DefaultTxPolicies()
  {
    DefaultTxPolicies().WithMaxFee(SUFFICIENT_MAX_FEE)
  }

  // ---------------------------------------------------------------------
  // The facade and its construction

  /** `MiraAmmContract<WalletUnlocked>`: the contract and the wallet calling it. */
  datatype MiraAmmContract = MiraAmmContract(contractId: ContractId, wallet: WalletUnlocked)

  /** A script handle whose `AMM_CONTRACT_ID` configurable has been set. */
  datatype Script = Script(kind: ScriptKind, wallet: WalletUnlocked, binaryPath: string, ammContractId: ContractId)

  /** `ReadonlyMiraAmm`. Its fields are set once, by `Connect`. */
  datatype ReadonlyMiraAmm = ReadonlyMiraAmm(
    provider: Provider,
    simulationAccount: WalletUnlocked,
    ammContract: MiraAmmContract,
    addLiquidityScript: Script,
    removeLiquidityScript: Script,
    swapExactInputScript: Script,
    swapExactOutputScript: Script)
  {
    /** `id()`: the contract the facade is bound to. */
    function Id(): ContractId {
      ammContract.contractId
    }
  }

  /** The wallet built from the read-only key, talking to `provider`. */
  function SimulationWallet(env: Externals, provider: Provider, key: SecretKey): WalletUnlocked {
    WalletUnlocked(key, env.addressOf(key), Some(provider))
  }

  /** `Script::new(wallet, path).with_configurables(… AMM_CONTRACT_ID = id …)`. */
  function ConfiguredScript(env: Externals, kind: ScriptKind, wallet: WalletUnlocked, id: ContractId): Script {
    Script(kind, wallet, env.scriptBinaryPath(kind), id)
  }

  /** What a successful `connect` promises: the simulation wallet comes from
      the read-only key, the contract handle and all four scripts use that
      wallet, and every script is configured with the contract id `id`. */
  ghost predicate BoundTo(env: Externals, amm: ReadonlyMiraAmm, provider: Provider, key: SecretKey, id: ContractId) {
    && amm.provider == provider
    && amm.simulationAccount == SimulationWallet(env, provider, key)
    && amm.ammContract == MiraAmmContract(id, amm.simulationAccount)
    && amm.addLiquidityScript == ConfiguredScript(env, AddLiquidityScript, amm.simulationAccount, id)
    && amm.removeLiquidityScript == ConfiguredScript(env, RemoveLiquidityScript, amm.simulationAccount, id)
    && amm.swapExactInputScript == ConfiguredScript(env, SwapExactInputScript, amm.simulationAccount, id)
    && amm.swapExactOutputScript == ConfiguredScript(env, SwapExactOutputScript, amm.simulationAccount, id)
  }

  /** `connect(provider, contract_id)`. A key that does not parse is returned
      as an error. The default contract id is parsed and unwrapped before
      `unwrap_or` is applied, so a malformed default panics even when an
      override is given. Otherwise the facade is bound to the override, or to
      the default when there is none. */
  function Connect(env: Externals, provider: Provider, contractId: Option<ContractId>): (r: Outcome<ReadonlyMiraAmm>)
    ensures env.readonlyPrivateKey.Err? ==> r == Returned(Err(env.readonlyPrivateKey.error))
    ensures r.Panicked? <==> env.readonlyPrivateKey.Ok? && env.defaultAmmContractId.None?
    ensures r.Returned? && r.result.Ok? <==> env.readonlyPrivateKey.Ok? && env.defaultAmmContractId.Some?
    ensures r.Returned? && r.result.Ok? ==>
      BoundTo(env, r.result.value, provider, env.readonlyPrivateKey.value,
              contractId.UnwrapOr(env.defaultAmmContractId.value))
  {
    match env.readonlyPrivateKey
    case Err(e) => Returned(Err(e))
    case Ok(key) =>
      var wallet := SimulationWallet(env, provider, key);
      match env.defaultAmmContractId
      case None => Panicked
      case Some(defaultId) =>
        var id := contractId.UnwrapOr(defaultId);
        Returned(Ok(ReadonlyMiraAmm(
          provider,
          wallet,
          MiraAmmContract(id, wallet),
          ConfiguredScript(env, AddLiquidityScript, wallet, id),
          ConfiguredScript(env, RemoveLiquidityScript, wallet, id),
          ConfiguredScript(env, SwapExactInputScript, wallet, id),
          ConfiguredScript(env, SwapExactOutputScript, wallet, id))))
  }

  /** The scripts a facade drives, in declaration order. */
  function Scripts(amm: ReadonlyMiraAmm): seq<Script> {
    [amm.addLiquidityScript, amm.removeLiquidityScript, amm.swapExactInputScript, amm.swapExactOutputScript]
  }

  /** A connected facade is bound to the override when one is given and to
      the default otherwise, and its four scripts all carry that same id. */
  lemma ConnectBindsOneContract(env: Externals, provider: Provider, contractId: Option<ContractId>)
    requires Connect(env, provider, contractId).Returned? && Connect(env, provider, contractId).result.Ok?
    ensures var amm := Connect(env, provider, contractId).result.value;
      && (contractId.Some? ==> amm.Id() == contractId.value)
      && (contractId.None? ==> Some(amm.Id()) == env.defaultAmmContractId)
      && (forall s | s in Scripts(amm) :: s.ammContractId == amm.Id() && s.wallet == amm.simulationAccount)
  {
  }

  // ---------------------------------------------------------------------
  // Read queries

  /** The contract methods the read queries call. */
  datatype ContractCall =
    | PoolMetadataCall(poolId: PoolId)
    | FeesCall
    | HookCall
    | TotalAssetsCall
    | NameCall(asset: AssetId)
    | SymbolCall(asset: AssetId)
    | DecimalsCall(asset: AssetId)
    | TotalSupplyCall(asset: AssetId)
    | OwnerCall

  /** A read query as the facade sends it to the node. */
  datatype QueryPlan = QueryPlan(contract: MiraAmmContract, call: ContractCall, policies: TxPolicies, mode: Execution)

  /** `self.amm_contract.methods().<call>.with_tx_policies(sufficient_tx_policies()).simulate(StateReadOnly)`. */
  function Query(amm: ReadonlyMiraAmm, call: ContractCall): QueryPlan {
    QueryPlan(amm.ammContract, call, SufficientTxPolicies(), StateReadOnly)
  }

  /** Every read query goes to the bound contract in state-read-only mode, with
      max fee 1,000,000,000 and no other policy set. */
  lemma QuerySettings(amm: ReadonlyMiraAmm, call: ContractCall)
    ensures Query(amm, call).contract.contractId == amm.Id()
    ensures Query(amm, call).mode == StateReadOnly
    ensures Query(amm, call).policies.maxFee == Some(1_000_000_000)
    ensures Query(amm, call).policies.(maxFee := None) == DefaultTxPolicies()
  {
  }

  /** The four queries `lp_asset_info` issues, in the order it awaits them. */
  function LpAssetInfoQueries(amm: ReadonlyMiraAmm, assetId: AssetId): (qs: seq<QueryPlan>)
    ensures |qs| == 4
    ensures qs[0].call.NameCall? && qs[1].call.SymbolCall? && qs[2].call.DecimalsCall? && qs[3].call.TotalSupplyCall?
    ensures forall i | 0 <= i < 4 :: qs[i].mode == StateReadOnly && qs[i].call.asset == assetId
    ensures forall i | 0 <= i < 4 :: qs[i] == Query(amm, qs[i].call)
  {
    [Query(amm, NameCall(assetId)), Query(amm, SymbolCall(assetId)),
     Query(amm, DecimalsCall(assetId)), Query(amm, TotalSupplyCall(assetId))]
  }

  // --- fees

  /** The contract returns the fee schedule as a tuple. */
  type FeeTuple = (U64, U64, U64, U64)

  /** The destructuring of the fee tuple into `AmmFees`. The mapping is
      positional: components 0 to 3 become the LP fee for volatile pools, the
      LP fee for stable pools, the protocol fee for volatile pools and the
      protocol fee for stable pools. */
  function FeesOf(t: FeeTuple): (f: AmmFees)
    ensures f.lpFeeVolatile == t.0
    ensures f.lpFeeStable == t.1
    ensures f.protocolFeeVolatile == t.2
    ensures f.protocolFeeStable == t.3
  {
    var (lpFeeVolatile, lpFeeStable, protocolFeeVolatile, protocolFeeStable) := t;
    AmmFees(lpFeeVolatile, lpFeeStable, protocolFeeVolatile, protocolFeeStable)
  }

  /** The tuple a fee schedule is returned as; the inverse of `FeesOf`. */
  function FeeTupleOf(f: AmmFees): FeeTuple {
    (f.lpFeeVolatile, f.lpFeeStable, f.protocolFeeVolatile, f.protocolFeeStable)
  }

  /** `FeesOf` loses and invents nothing: it is a bijection with inverse `FeeTupleOf`. */
  lemma FeesRoundTrip(t: FeeTuple, f: AmmFees)
    ensures FeeTupleOf(FeesOf(t)) == t
    ensures FeesOf(FeeTupleOf(f)) == f
  {
  }

  /** `fees()`: the node's error is forwarded; a tuple is mapped by `FeesOf`. */
  function Fees(answer: Result<FeeTuple>): (r: Result<AmmFees>)
    ensures r.Err? <==> answer.Err?
    ensures answer.Err? ==> r.error == answer.error
    ensures answer.Ok? ==> r.value == FeesOf(answer.value)
  {
    match answer
    case Err(e) => Err(e)
    case Ok(t) => Ok(FeesOf(t))
  }

  // --- LP-asset descriptor

  /** The match of `lp_asset_info`: a descriptor only when all four lookups
      found a value. */
  function LpAssetInfoOf(
    assetId: AssetId, name: Option<string>, symbol: Option<string>,
    decimals: Option<U8>, totalSupply: Option<U64>): (r: Option<LpAssetInfo>)
    ensures r.Some? <==> name.Some? && symbol.Some? && decimals.Some? && totalSupply.Some?
    ensures r.Some? ==> r.value == LpAssetInfo(assetId, name.value, symbol.value, decimals.value, totalSupply.value)
  {
    match (name, symbol, decimals, totalSupply)
    case (Some(n), Some(s), Some(d), Some(t)) => Some(LpAssetInfo(assetId, n, s, d, t))
    case _ => None
  }

  /** Every descriptor is reached, from the four values it carries. */
  lemma LpAssetInfoRoundTrip(info: LpAssetInfo)
    ensures LpAssetInfoOf(info.assetId, Some(info.name), Some(info.symbol), Some(info.decimals), Some(info.totalSupply)) == Some(info)
  {
  }

  /** `lp_asset_info(asset_id)`: the four answers are awaited in order and the
      first error among them is returned; when none failed the result is the
      descriptor of `LpAssetInfoOf`. */
  function LpAssetInfoResult(
    assetId: AssetId, name: Result<Option<string>>, symbol: Result<Option<string>>,
    decimals: Result<Option<U8>>, totalSupply: Result<Option<U64>>): (r: Result<Option<LpAssetInfo>>)
    ensures r.Err? <==> name.Err? || symbol.Err? || decimals.Err? || totalSupply.Err?
    ensures name.Err? ==> r.error == name.error
    ensures name.Ok? && symbol.Err? ==> r.error == symbol.error
    ensures name.Ok? && symbol.Ok? && decimals.Err? ==> r.error == decimals.error
    ensures name.Ok? && symbol.Ok? && decimals.Ok? && totalSupply.Err? ==> r.error == totalSupply.error
    ensures r.Ok? ==> r.value == LpAssetInfoOf(assetId, name.value, symbol.value, decimals.value, totalSupply.value)
  {
    match name
    case Err(e) => Err(e)
    case Ok(n) =>
      match symbol
      case Err(e) => Err(e)
      case Ok(s) =>
        match decimals
        case Err(e) => Err(e)
        case Ok(d) =>
          match totalSupply
          case Err(e) => Err(e)
          case Ok(t) => Ok(LpAssetInfoOf(assetId, n, s, d, t))
  }

  // --- owner

  /** The match of `owner`: the tri-state ownership collapsed to an optional owner. */
  function OwnerOf(state: State): (o: Option<Identity>)
    ensures o.Some? <==> state.Initialized?
    ensures state.Initialized? ==> o.value == state.owner
  {
    match state
    case Uninitialized => None
    case Initialized(owner) => Some(owner)
    case Revoked => None
  }

  /** Every optional owner is the collapse of some ownership state. */
  lemma OwnerOfOnto(o: Option<Identity>)
    ensures exists state :: OwnerOf(state) == o
  {
    if o.Some? {
      assert OwnerOf(Initialized(o.value)) == o;
    } else {
      assert OwnerOf(Uninitialized) == o;
    }
  }

  /** The collapse forgets exactly the difference between `Uninitialized` and `Revoked`. */
  lemma OwnerOfForgetsOnlyRevocation(s1: State, s2: State)
    ensures OwnerOf(s1) == OwnerOf(s2) <==> s1 == s2 || (!s1.Initialized? && !s2.Initialized?)
  {
  }

  /** `owner()`: the node's error is forwarded, a state is collapsed by `OwnerOf`. */
  function Owner(answer: Result<State>): (r: Result<Option<Identity>>)
    ensures r.Err? <==> answer.Err?
    ensures answer.Err? ==> r.error == answer.error
    ensures answer.Ok? ==> r.value == OwnerOf(answer.value)
  {
    match answer
    case Err(e) => Err(e)
    case Ok(state) => Ok(OwnerOf(state))
  }

  // ---------------------------------------------------------------------
  // Previews

  /** A preview request with the caller's parameters. */
  datatype Op =
    | AddLiquidity(poolId: PoolId, amount0Desired: U64, amount1Desired: U64,
                   amount0Min: U64, amount1Min: U64, deadline: U32, txPolicies: Option<TxPolicies>)
    | RemoveLiquidity(poolId: PoolId, liquidity: U64,
                      amount0Min: U64, amount1Min: U64, deadline: U32, txPolicies: Option<TxPolicies>)
    | SwapExactInput(amountIn: U64, assetIn: AssetId, amountOutMin: U64,
                     pools: seq<PoolId>, deadline: U32, txPolicies: Option<TxPolicies>)
    | SwapExactOutput(amountOut: U64, assetOut: AssetId, amountInMax: U64,
                      pools: seq<PoolId>, deadline: U32, txPolicies: Option<TxPolicies>)

  /** The arguments of a script's `main`. */
  datatype ScriptCall =
    | AddLiquidityMain(poolId: PoolId, amount0Desired: U64, amount1Desired: U64,
                       amount0Min: U64, amount1Min: U64, recipient: Identity, deadline: U32)
    | RemoveLiquidityMain(poolId: PoolId, liquidity: U64,
                          amount0Min: U64, amount1Min: U64, recipient: Identity, deadline: U32)
    | SwapExactInputMain(amountIn: U64, assetIn: AssetId, amountOutMin: U64,
                         pools: seq<PoolId>, recipient: Identity, deadline: U32)
    | SwapExactOutputMain(amountOut: U64, assetOut: AssetId, amountInMax: U64,
                          pools: seq<PoolId>, recipient: Identity, deadline: U32)

  /** Everything a preview hands to the SDK before simulating: the script and
      its `main` arguments, the spend list given to the input/output builder
      and what it built, the policies, the contracts, the variable-output
      policy and the execution mode. */
  datatype PreviewPlan = PreviewPlan(
    script: Script,
    call: ScriptCall,
    spends: seq<Spend>,
    inputs: seq<Input>,
    outputs: seq<Output>,
    policies: TxPolicies,
    contracts: seq<MiraAmmContract>,
    variableOutputs: VariableOutputPolicy,
    mode: Execution)

  /** `self.simulation_account.address().into()`. */
  function Recipient(amm: ReadonlyMiraAmm): Identity {
    AddressIdentity(amm.simulationAccount.address)
  }

  /** The `vec![…]` each preview passes to `get_transaction_inputs_outputs`. */
  function SpendList(env: Externals, amm: ReadonlyMiraAmm, op: Op): (spends: seq<Spend>)
    ensures |spends| == (if op.AddLiquidity? then 2 else 1)
  {
    match op
    case AddLiquidity(poolId, amount0Desired, amount1Desired, _, _, _, _) =>
      [(poolId.0, amount0Desired), (poolId.1, amount1Desired)]
    case RemoveLiquidity(poolId, liquidity, _, _, _, _) =>
      [(env.getLpAssetId(amm.Id(), poolId), liquidity)]
    case SwapExactInput(amountIn, assetIn, _, _, _, _) =>
      [(assetIn, amountIn)]
    case SwapExactOutput(_, assetOut, amountInMax, pools, _, _) =>
      [(env.getAssetIdIn(assetOut, pools), amountInMax)]
  }

  /** The script handle each preview runs. */
  function ScriptFor(amm: ReadonlyMiraAmm, op: Op): (s: Script)
    ensures s in Scripts(amm)
  {
    match op
    case AddLiquidity(_, _, _, _, _, _, _) => amm.addLiquidityScript
    case RemoveLiquidity(_, _, _, _, _, _) => amm.removeLiquidityScript
    case SwapExactInput(_, _, _, _, _, _) => amm.swapExactInputScript
    case SwapExactOutput(_, _, _, _, _, _) => amm.swapExactOutputScript
  }

  /** The `main(…)` call each preview makes. */
  function MainCall(amm: ReadonlyMiraAmm, op: Op): (call: ScriptCall)
    ensures call.AddLiquidityMain? <==> op.AddLiquidity?
    ensures call.RemoveLiquidityMain? <==> op.RemoveLiquidity?
    ensures call.SwapExactInputMain? <==> op.SwapExactInput?
    ensures call.SwapExactOutputMain? <==> op.SwapExactOutput?
    ensures call.recipient == AddressIdentity(amm.simulationAccount.address)
    ensures call.deadline == op.deadline
  {
    var to := Recipient(amm);
    match op
    case AddLiquidity(poolId, a0, a1, m0, m1, deadline, _) =>
      AddLiquidityMain(poolId, a0, a1, m0, m1, to, deadline)
    case RemoveLiquidity(poolId, liquidity, m0, m1, deadline, _) =>
      RemoveLiquidityMain(poolId, liquidity, m0, m1, to, deadline)
    case SwapExactInput(amountIn, assetIn, amountOutMin, pools, deadline, _) =>
      SwapExactInputMain(amountIn, assetIn, amountOutMin, pools, to, deadline)
    case SwapExactOutput(amountOut, assetOut, amountInMax, pools, deadline, _) =>
      SwapExactOutputMain(amountOut, assetOut, amountInMax, pools, to, deadline)
  }

  /** The `simulate(…)` argument of each preview. */
  function ModeOf(op: Op): (mode: Execution)
    ensures mode == Realistic <==> op.SwapExactOutput?
  {
    match op
    case AddLiquidity(_, _, _, _, _, _, _) => StateReadOnly
    case RemoveLiquidity(_, _, _, _, _, _) => StateReadOnly
    case SwapExactInput(_, _, _, _, _, _) => StateReadOnly
    case SwapExactOutput(_, _, _, _, _, _) => Realistic
  }

  /** The whole preparation of a preview. */
  function Plan(env: Externals, amm: ReadonlyMiraAmm, op: Op): PreviewPlan {
    var spends := SpendList(env, amm, op);
    var (inputs, outputs) := env.getTransactionInputsOutputs(amm.simulationAccount, spends);
    PreviewPlan(
      ScriptFor(amm, op),
      MainCall(amm, op),
      spends,
      inputs,
      outputs,
      UnwrapOrDefault(op.txPolicies),
      [amm.ammContract],
      Exactly(1),
      ModeOf(op))
  }

  /** `preview_add_liquidity`: both pool assets are spent, in pool order, at
      the desired amounts; the add-liquidity script runs state-read-only with
      the caller's amounts, minimums and deadline. */
  lemma PlanAddLiquidity(env: Externals, amm: ReadonlyMiraAmm, op: Op)
    requires op.AddLiquidity?
    ensures var p := Plan(env, amm, op);
      && p.spends == [(op.poolId.0, op.amount0Desired), (op.poolId.1, op.amount1Desired)]
      && p.script == amm.addLiquidityScript
      && p.call == AddLiquidityMain(op.poolId, op.amount0Desired, op.amount1Desired,
                                    op.amount0Min, op.amount1Min, Recipient(amm), op.deadline)
      && p.mode == StateReadOnly
  {
  }

  /** `preview_remove_liquidity`: the only spend is the pool's LP token of the
      bound contract, at the liquidity amount; the script runs state-read-only. */
  lemma PlanRemoveLiquidity(env: Externals, amm: ReadonlyMiraAmm, op: Op)
    requires op.RemoveLiquidity?
    ensures var p := Plan(env, amm, op);
      && p.spends == [(env.getLpAssetId(amm.Id(), op.poolId), op.liquidity)]
      && p.script == amm.removeLiquidityScript
      && p.call == RemoveLiquidityMain(op.poolId, op.liquidity, op.amount0Min, op.amount1Min,
                                       Recipient(amm), op.deadline)
      && p.mode == StateReadOnly
  {
  }

  /** `preview_swap_exact_input`: the only spend is the input asset at the
      input amount; the script runs state-read-only. */
  lemma PlanSwapExactInput(env: Externals, amm: ReadonlyMiraAmm, op: Op)
    requires op.SwapExactInput?
    ensures var p := Plan(env, amm, op);
      && p.spends == [(op.assetIn, op.amountIn)]
      && p.script == amm.swapExactInputScript
      && p.call == SwapExactInputMain(op.amountIn, op.assetIn, op.amountOutMin, op.pools,
                                      Recipient(amm), op.deadline)
      && p.mode == StateReadOnly
  {
  }

  /** `swap_exact_output`: the only spend is the asset `get_asset_id_in` picks
      from the path, at the maximum input amount (not the output amount); this
      script alone runs in realistic mode. */
  lemma PlanSwapExactOutput(env: Externals, amm: ReadonlyMiraAmm, op: Op)
    requires op.SwapExactOutput?
    ensures var p := Plan(env, amm, op);
      && p.spends == [(env.getAssetIdIn(op.assetOut, op.pools), op.amountInMax)]
      && p.script == amm.swapExactOutputScript
      && p.call == SwapExactOutputMain(op.amountOut, op.assetOut, op.amountInMax, op.pools,
                                       Recipient(amm), op.deadline)
      && p.mode == Realistic
  {
  }

  /** Realistic execution is chosen for swap-exact-output and for nothing else. */
  lemma RealisticOnlyForSwapExactOutput(env: Externals, amm: ReadonlyMiraAmm, op: Op)
    ensures Plan(env, amm, op).mode == Realistic <==> op.SwapExactOutput?
    ensures Plan(env, amm, op).mode == StateReadOnly <==> !op.SwapExactOutput?
  {
  }

  /** What every preview shares: exactly one variable output, the simulation
      account as recipient, the caller's policies or the default ones, the
      bound contract as the only contract, a script of the operation's kind,
      and inputs and outputs built for the simulation account from the very
      spend list of the plan. */
  lemma PlanSharedSettings(env: Externals, amm: ReadonlyMiraAmm, op: Op)
    ensures var p := Plan(env, amm, op);
      && p.variableOutputs == Exactly(1)
      && p.call.recipient == AddressIdentity(amm.simulationAccount.address)
      && (op.txPolicies.Some? ==> p.policies == op.txPolicies.value)
      && (op.txPolicies.None? ==> p.policies == DefaultTxPolicies())
      && p.contracts == [amm.ammContract]
      && (p.inputs, p.outputs) == env.getTransactionInputsOutputs(amm.simulationAccount, p.spends)
      && |p.spends| == (if op.AddLiquidity? then 2 else 1)
  {
  }

  /** Through a connected facade every preview's script and contract are the
      ones of the contract id chosen at construction. */
  lemma ConnectedPlanUsesChosenContract(env: Externals, provider: Provider, contractId: Option<ContractId>, op: Op)
    requires Connect(env, provider, contractId).Returned? && Connect(env, provider, contractId).result.Ok?
    ensures var id := contractId.UnwrapOr(env.defaultAmmContractId.value);
      var p := Plan(env, Connect(env, provider, contractId).result.value, op);
      && p.script.ammContractId == id
      && p.contracts[0].contractId == id
      && (op.RemoveLiquidity? ==> p.spends[0].0 == env.getLpAssetId(id, op.poolId))
  {
  }

  // --- simulation results

  /** `.simulate(…).await.unwrap().value`: a failed simulation panics. */
  function Settle<T>(answer: Result<T>): (r: Outcome<T>)
    ensures r.Panicked? <==> answer.Err?
    ensures answer.Ok? ==> r == Returned(Ok(answer.value))
  {
    match answer
    case Err(_) => Panicked
    case Ok(v) => Returned(Ok(v))
  }

  /** Although each preview is declared to return a `Result`, it never returns
      an error: it returns the simulated value or panics. */
  lemma PreviewNeverReturnsErr<T>(answer: Result<T>)
    ensures Settle(answer).Returned? ==> Settle(answer).result.Ok?
  {
  }

  /** The typed value a preview's simulation produces: the minted LP asset,
      the two withdrawn amounts, or the amount-and-asset trace of a swap. */
  datatype PreviewValue =
    | Minted(asset: Asset)
    | Withdrawn(amount0: U64, amount1: U64)
    | Traced(hops: seq<(U64, AssetId)>)

  /** The shape of value each script's `main` returns: `Asset` for
      add-liquidity, `(u64, u64)` for remove-liquidity and `Vec<(u64, AssetId)>`
      for both swaps. */
  predicate ShapeFits(call: ScriptCall, v: PreviewValue) {
    match call
    case AddLiquidityMain(_, _, _, _, _, _, _) => v.Minted?
    case RemoveLiquidityMain(_, _, _, _, _, _) => v.Withdrawn?
    case SwapExactInputMain(_, _, _, _, _, _) => v.Traced?
    case SwapExactOutputMain(_, _, _, _, _, _) => v.Traced?
  }

  /** Each preview expects the result type of its own script. */
  lemma ShapeOfPreview(amm: ReadonlyMiraAmm, op: Op, v: PreviewValue)
    ensures ShapeFits(MainCall(amm, op), v) <==>
      || (op.AddLiquidity? && v.Minted?)
      || (op.RemoveLiquidity? && v.Withdrawn?)
      || ((op.SwapExactInput? || op.SwapExactOutput?) && v.Traced?)
  {
  }

  /** A node whose answers have the type the simulated script declares, as
      the generated bindings guarantee. */
  ghost predicate TypedNode(node: PreviewPlan -> Result<PreviewValue>) {
    forall p: PreviewPlan :: node(p).Ok? ==> ShapeFits(p.call, node(p).value)
  }

  /** A sequence of previews against one ledger state. `node` answers a
      simulation of a plan. The model holds that state fixed and the
      simulation deterministic, so every preview sees the same state. */
  function Previews(env: Externals, amm: ReadonlyMiraAmm, node: PreviewPlan -> Result<PreviewValue>, ops: seq<Op>): (rs: seq<Outcome<PreviewValue>>)
    ensures |rs| == |ops|
    decreases |ops|
  {
    if ops == [] then []
    else [Settle(node(Plan(env, amm, ops[0])))] + Previews(env, amm, node, ops[1..])
  }

  /** Each outcome in a sequence is the settled simulation of that preview's
      own plan. */
  lemma {:induction false} PreviewsPointwise(
    env: Externals, amm: ReadonlyMiraAmm, node: PreviewPlan -> Result<PreviewValue>, ops: seq<Op>)
    ensures |Previews(env, amm, node, ops)| == |ops|
    ensures forall i | 0 <= i < |ops| :: Previews(env, amm, node, ops)[i] == Settle(node(Plan(env, amm, ops[i])))
  {
    if ops != [] {
      PreviewsPointwise(env, amm, node, ops[1..]);
      var rs := Previews(env, amm, node, ops);
      forall i | 0 <= i < |ops|
        ensures rs[i] == Settle(node(Plan(env, amm, ops[i])))
      {
        if i > 0 {
          assert ops[1..][i - 1] == ops[i];
        }
      }
    }
  }

  /** Idempotence: repeating a preview with the same parameters against the
      same ledger state gives the same outcome, wherever it stands in the sequence. */
  lemma PreviewsIdempotent(
    env: Externals, amm: ReadonlyMiraAmm, node: PreviewPlan -> Result<PreviewValue>, ops: seq<Op>, i: nat, j: nat)
    requires i < |ops| && j < |ops| && ops[i] == ops[j]
    ensures |Previews(env, amm, node, ops)| == |ops|
    ensures Previews(env, amm, node, ops)[i] == Previews(env, amm, node, ops)[j]
  {
    PreviewsPointwise(env, amm, node, ops);
  }

  /** With a node that answers in each script's declared type, every preview
      in a sequence that returns carries a value of its operation's shape. */
  lemma PreviewsWellTyped(
    env: Externals, amm: ReadonlyMiraAmm, node: PreviewPlan -> Result<PreviewValue>, ops: seq<Op>)
    requires TypedNode(node)
    ensures forall i | 0 <= i < |ops| :: Previews(env, amm, node, ops)[i].Returned? ==>
      && Previews(env, amm, node, ops)[i].result.Ok?
      && ShapeFits(MainCall(amm, ops[i]), Previews(env, amm, node, ops)[i].result.value)
  {
    PreviewsPointwise(env, amm, node, ops);
    forall i | 0 <= i < |ops| && Previews(env, amm, node, ops)[i].Returned?
      ensures Previews(env, amm, node, ops)[i].result.Ok?
      ensures ShapeFits(MainCall(amm, ops[i]), Previews(env, amm, node, ops)[i].result.value)
    {
      var p := Plan(env, amm, ops[i]);
      assert node(p).Ok?;
      assert ShapeFits(p.call, node(p).value);
    }
  }
}
