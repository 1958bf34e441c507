/** The storage and dispatchables of pallets/liquidity-pool/src/lib.rs.

    Storage is three ValueQuery maps (an absent key reads as zero). A
    dispatchable that fails leaves storage as it found it: FRAME rolls back
    the writes of a call that returns an error, which the model does
    explicitly where a write precedes a fallible step. The currency ledger's
    `transfer` is a parameter: it says, for `(from, to, amount)`, whether the
    ledger accepts the transfer. It carries no asset id, as in the pallet. */
module LiquidityPallet {
  import opened Results
  import opened UInt
  import opened LiquidityPool
  import opened LiquidityLedger

  class Pallet {
    /** `LiquidityPools`: `(asset_a, asset_b) -> (reserve_a, reserve_b)`. */
    var pools: map<Pair, (Balance, Balance)>
    /** `LiquidityTokens`: `(asset_a, asset_b, account) -> claim`. */
    var tokens: map<ClaimKey, Balance>
    /** `TotalLiquidity`: `(asset_a, asset_b) -> total supply`. */
    var totals: map<Pair, Balance>
    /** The pallet's custody account (`Self::account_id()`). */
    const custody: AccountId
    /** `T::TradingFee`; the runtime's value is `NOURISH_CHAIN_FEE`. */
    const tradingFee: Perquintill

    constructor (custody: AccountId, tradingFee: Perquintill)
      ensures this.custody == custody && this.tradingFee == tradingFee
      ensures pools == map[] && tokens == map[] && totals == map[]
      ensures Conserved(tokens, totals)
    {
      this.custody := custody;
      this.tradingFee := tradingFee;
      pools, tokens, totals := map[], map[], map[];
      EmptyConserved();
    }

    function Reserves(pool: Pair): (Balance, Balance)
      reads this
    {
      GetOr(pools, pool, (0, 0))
    }

    function TotalLiquidity(pool: Pair): Balance
      reads this
    {
      GetOr(totals, pool, 0)
    }

    function Claim(pool: Pair, who: AccountId): Balance
      reads this
    {
      GetOr(tokens, (pool.0, pool.1, who), 0)
    }

    /** `mint_liquidity_tokens`: a saturating add on the claim; it never
        touches `TotalLiquidity`, which its caller updates separately. */
    method MintLiquidityTokens(who: AccountId, pool: Pair, amount: Balance)
      modifies this
      ensures tokens == old(tokens)[(pool.0, pool.1, who) := SaturatingAdd(old(Claim(pool, who)), amount)]
      ensures pools == old(pools) && totals == old(totals)
    {
      tokens := tokens[(pool.0, pool.1, who) := SaturatingAdd(Claim(pool, who), amount)];
    }

    /** `burn_liquidity_tokens`: `InsufficientBalance` (and no write) when the
        claim is below `amount`; otherwise the claim drops by `amount`.
        `TotalLiquidity` is left to the caller. */
    method BurnLiquidityTokens(who: AccountId, pool: Pair, amount: Balance) returns (r: Result<(), Error>)
      modifies this
      ensures r.Err? <==> old(Claim(pool, who)) < amount
      ensures r.Err? ==> r.error == InsufficientBalance && tokens == old(tokens)
      ensures r.Ok? ==> tokens == old(tokens)[(pool.0, pool.1, who) := old(Claim(pool, who)) - amount]
      ensures pools == old(pools) && totals == old(totals)
    {
      var balance := Claim(pool, who);
      if balance < amount {
        return Err(InsufficientBalance);
      }
      tokens := tokens[(pool.0, pool.1, who) := SaturatingSub(balance, amount)];
      r := Ok(());
    }

    /** `add_liquidity`. The pool is keyed by `(assetA, assetB)` exactly as
        passed. Validation comes before any read; the transfers come before any
        write; reserves, the caller's claim and the total then grow (saturating). */
    method AddLiquidity(who: AccountId, assetA: AssetId, assetB: AssetId, amountA: Balance, amountB: Balance,
                        minLiquidity: Balance, transfer: (AccountId, AccountId, Balance) -> bool)
      returns (r: Result<seq<Event>, Error>)
      modifies this
      ensures assetA == assetB ==> r == Err(InvalidAssetPair)
      ensures assetA != assetB && (amountA == 0 || amountB == 0) ==> r == Err(InvalidAmount)
      ensures r.Err? ==> pools == old(pools) && tokens == old(tokens) && totals == old(totals)
      ensures assetA != assetB && amountA > 0 && amountB > 0 ==>
        var pool := (assetA, assetB);
        var minted := LiquidityToMint(old(Reserves(pool)).0, old(Reserves(pool)).1, amountA, amountB);
        && (minted.Err? ==> r == Err(CalculationError))
        && (minted.Ok? && minted.value < minLiquidity ==> r == Err(InsufficientLiquidity))
        && ((minted.Ok? && minted.value >= minLiquidity && !(transfer(who, custody, amountA) && transfer(who, custody, amountB)))
              ==> r == Err(TransferFailed))
        && (minted.Ok? && minted.value >= minLiquidity && transfer(who, custody, amountA) && transfer(who, custody, amountB) ==>
              && r == Ok([LiquidityAdded(who, assetA, assetB, amountA, amountB, minted.value)])
              && pools == old(pools)[pool := (SaturatingAdd(old(Reserves(pool)).0, amountA), SaturatingAdd(old(Reserves(pool)).1, amountB))]
              && tokens == old(tokens)[(assetA, assetB, who) := SaturatingAdd(old(Claim(pool, who)), minted.value)]
              && totals == old(totals)[pool := SaturatingAdd(old(TotalLiquidity(pool)), minted.value)])
      ensures r.Ok? && old(Conserved(tokens, totals)) && old(TotalLiquidity((assetA, assetB))) + r.value[0].liquidity <= U128_MAX ==>
        && Conserved(tokens, totals)
        && Claim((assetA, assetB), who) == old(Claim((assetA, assetB), who)) + r.value[0].liquidity
        && TotalLiquidity((assetA, assetB)) == old(TotalLiquidity((assetA, assetB))) + r.value[0].liquidity
    {
      if assetA == assetB {
        return Err(InvalidAssetPair);
      }
      if amountA == 0 || amountB == 0 {
        return Err(InvalidAmount);
      }
      var pool := (assetA, assetB);
      var (reserveA, reserveB) := Reserves(pool);
      var minted := LiquidityToMint(reserveA, reserveB, amountA, amountB);
      if minted.Err? {
        return Err(minted.error);
      }
      var liquidity := minted.value;
      if liquidity < minLiquidity {
        return Err(InsufficientLiquidity);
      }
      if !transfer(who, custody, amountA) {
        return Err(TransferFailed);
      }
      if !transfer(who, custody, amountB) {
        return Err(TransferFailed);
      }
      ghost var tokens0, totals0 := tokens, totals;
      pools := pools[pool := (SaturatingAdd(reserveA, amountA), SaturatingAdd(reserveB, amountB))];
      MintLiquidityTokens(who, pool, liquidity);
      totals := totals[pool := SaturatingAdd(TotalLiquidity(pool), liquidity)];
      r := Ok([LiquidityAdded(who, assetA, assetB, amountA, amountB, liquidity)]);
      if Conserved(tokens0, totals0) && GetOr(totals0, pool, 0) + liquidity <= U128_MAX {
        MintConserves(tokens0, totals0, pool, who, liquidity);
      }
    }

    /** `remove_liquidity`. Validation, the pool-existence checks, the payout
        computation and both slippage checks all precede the burn, the first
        write; a failed payout transfer rolls everything back. */
    method RemoveLiquidity(who: AccountId, assetA: AssetId, assetB: AssetId, liquidity: Balance,
                           minAmountA: Balance, minAmountB: Balance, transfer: (AccountId, AccountId, Balance) -> bool)
      returns (r: Result<seq<Event>, Error>)
      modifies this
      ensures assetA == assetB ==> r == Err(InvalidAssetPair)
      ensures assetA != assetB && liquidity == 0 ==> r == Err(InvalidAmount)
      ensures r.Err? ==> pools == old(pools) && tokens == old(tokens) && totals == old(totals)
      ensures assetA != assetB && liquidity > 0 ==>
        var pool := (assetA, assetB);
        var (reserveA, reserveB) := old(Reserves(pool));
        var total := old(TotalLiquidity(pool));
        var amounts := RemovalAmounts(liquidity, reserveA, reserveB, total);
        && (reserveA == 0 || reserveB == 0 || total == 0 ==> r == Err(PoolDoesNotExist))
        && (reserveA > 0 && reserveB > 0 && total > 0 ==>
              && (amounts.Err? ==> r == Err(CalculationError))
              && (amounts.Ok? && (amounts.value.0 < minAmountA || amounts.value.1 < minAmountB) ==> r == Err(SlippageExceeded))
              && (amounts.Ok? && amounts.value.0 >= minAmountA && amounts.value.1 >= minAmountB ==>
                    && (old(Claim(pool, who)) < liquidity ==> r == Err(InsufficientBalance))
                    && ((old(Claim(pool, who)) >= liquidity && !(transfer(custody, who, amounts.value.0) && transfer(custody, who, amounts.value.1)))
                          ==> r == Err(TransferFailed))
                    && (old(Claim(pool, who)) >= liquidity && transfer(custody, who, amounts.value.0) && transfer(custody, who, amounts.value.1) ==>
                          && r == Ok([LiquidityRemoved(who, assetA, assetB, amounts.value.0, amounts.value.1, liquidity)])
                          && pools == old(pools)[pool := (SaturatingSub(reserveA, amounts.value.0), SaturatingSub(reserveB, amounts.value.1))]
                          && tokens == old(tokens)[(assetA, assetB, who) := old(Claim(pool, who)) - liquidity]
                          && totals == old(totals)[pool := SaturatingSub(total, liquidity)])))
      ensures r.Ok? && old(Conserved(tokens, totals)) ==>
        var pool := (assetA, assetB);
        && Conserved(tokens, totals)
        && TotalLiquidity(pool) == old(TotalLiquidity(pool)) - liquidity
        && Reserves(pool).0 == old(Reserves(pool)).0 - r.value[0].amountA
        && Reserves(pool).1 == old(Reserves(pool)).1 - r.value[0].amountB
    {
      if assetA == assetB {
        return Err(InvalidAssetPair);
      }
      if liquidity == 0 {
        return Err(InvalidAmount);
      }
      var pool := (assetA, assetB);
      var (reserveA, reserveB) := Reserves(pool);
      if !(reserveA > 0 && reserveB > 0) {
        return Err(PoolDoesNotExist);
      }
      var totalLiquidity := TotalLiquidity(pool);
      if totalLiquidity == 0 {
        return Err(PoolDoesNotExist);
      }
      var amounts := RemovalAmounts(liquidity, reserveA, reserveB, totalLiquidity);
      if amounts.Err? {
        return Err(amounts.error);
      }
      var (amountA, amountB) := amounts.value;
      if amountA < minAmountA {
        return Err(SlippageExceeded);
      }
      if amountB < minAmountB {
        return Err(SlippageExceeded);
      }
      var pools0, tokens0, totals0 := pools, tokens, totals;
      var burned := BurnLiquidityTokens(who, pool, liquidity);
      if burned.Err? {
        return Err(burned.error);
      }
      totals := totals[pool := SaturatingSub(TotalLiquidity(pool), liquidity)];
      pools := pools[pool := (SaturatingSub(reserveA, amountA), SaturatingSub(reserveB, amountB))];
      if !transfer(custody, who, amountA) || !transfer(custody, who, amountB) {
        // the failed dispatch is rolled back
        pools, tokens, totals := pools0, tokens0, totals0;
        return Err(TransferFailed);
      }
      r := Ok([LiquidityRemoved(who, assetA, assetB, amountA, amountB, liquidity)]);
      if Conserved(tokens0, totals0) {
        BurnConserves(tokens0, totals0, pool, who, liquidity);
        RemovalWithinReserves(liquidity, reserveA, reserveB, totalLiquidity);
      }
    }

    /** `swap`. Only here is the pair ordered; reserves are read from and
        written back to the canonical `(low, high)` key, and only that key changes. */
    method Swap(who: AccountId, assetIn: AssetId, assetOut: AssetId, amountIn: Balance, minAmountOut: Balance,
                transfer: (AccountId, AccountId, Balance) -> bool)
      returns (r: Result<seq<Event>, Error>)
      modifies this
      ensures assetIn == assetOut ==> r == Err(InvalidAssetPair)
      ensures assetIn != assetOut && amountIn == 0 ==> r == Err(InvalidAmount)
      ensures r.Err? ==> pools == old(pools)
      ensures tokens == old(tokens) && totals == old(totals)
      ensures assetIn != assetOut && amountIn > 0 ==>
        var (low, high, isReversed) := OrderPair(assetIn, assetOut);
        var reserves := old(Reserves((low, high)));
        var reserveIn := SlotOf((low, high), reserves, assetIn);
        var reserveOut := SlotOf((low, high), reserves, assetOut);
        var quote := SwapQuote(reserveIn, reserveOut, amountIn, tradingFee);
        && (reserves.0 == 0 || reserves.1 == 0 ==> r == Err(PoolDoesNotExist))
        && (reserves.0 > 0 && reserves.1 > 0 ==>
              && (quote.Err? ==> r == Err(CalculationError))
              && (quote.Ok? && quote.value.amountOut < minAmountOut ==> r == Err(SlippageExceeded))
              && ((quote.Ok? && quote.value.amountOut >= minAmountOut
                    && !(transfer(who, custody, amountIn) && transfer(custody, who, quote.value.amountOut))) ==> r == Err(TransferFailed))
              && ((quote.Ok? && quote.value.amountOut >= minAmountOut
                    && transfer(who, custody, amountIn) && transfer(custody, who, quote.value.amountOut)) ==>
                    && r == Ok([Event.Swap(who, assetIn, assetOut, amountIn, quote.value.amountOut, quote.value.fee),
                                FeeCollected(assetIn, quote.value.fee)])
                    && pools == old(pools)[(low, high) := SwapWriteBack(reserves, isReversed, amountIn, quote.value.amountOut)]
                    && SlotOf((low, high), Reserves((low, high)), assetIn) == SaturatingAdd(reserveIn, amountIn)
                    && SlotOf((low, high), Reserves((low, high)), assetOut) == reserveOut - quote.value.amountOut))
    {
      if assetIn == assetOut {
        return Err(InvalidAssetPair);
      }
      if amountIn == 0 {
        return Err(InvalidAmount);
      }
      var (assetA, assetB, isReversed) := OrderPair(assetIn, assetOut);
      var (reserveA, reserveB) := Reserves((assetA, assetB));
      if !(reserveA > 0 && reserveB > 0) {
        return Err(PoolDoesNotExist);
      }
      var (reserveIn, reserveOut) := if isReversed then (reserveB, reserveA) else (reserveA, reserveB);
      SwapDirection(assetIn, assetOut, (reserveA, reserveB), amountIn, 0);
      var quote := SwapQuote(reserveIn, reserveOut, amountIn, tradingFee);
      if quote.Err? {
        return Err(quote.error);
      }
      var amountOut := quote.value.amountOut;
      if amountOut < minAmountOut {
        return Err(SlippageExceeded);
      }
      if !transfer(who, custody, amountIn) {
        return Err(TransferFailed);
      }
      var pools0 := pools;
      pools := pools[(assetA, assetB) := SwapWriteBack((reserveA, reserveB), isReversed, amountIn, amountOut)];
      SwapDirection(assetIn, assetOut, (reserveA, reserveB), amountIn, amountOut);
      if !transfer(custody, who, amountOut) {
        // the failed dispatch is rolled back
        pools := pools0;
        return Err(TransferFailed);
      }
      r := Ok([Event.Swap(who, assetIn, assetOut, amountIn, amountOut, quote.value.fee), FeeCollected(assetIn, quote.value.fee)]);
    }
  }
}
