/** Pricing rules of the constant-product liquidity pool pallet
    (pallets/liquidity-pool/src/lib.rs): the liquidity minted for a deposit,
    the payouts for a withdrawal, the swap quote with its Perquintill fee, and
    the ordering of an asset pair that only `swap` performs. All arithmetic is
    u128 with the source's checked and saturating operations. */
module LiquidityPool {
  import opened Results
  import opened UInt

  /** Asset and account identifiers: only equality and (for assets) order are used. */
  type AssetId = nat
  type AccountId = nat
  type Balance = u128
  type Pair = (AssetId, AssetId)

  /** A `Perquintill` counts parts per 10^18. */
  const PERQUINTILL_ACCURACY: nat := 1_000_000_000_000_000_000
  type Perquintill = p: nat | p <= PERQUINTILL_ACCURACY

  /** The Nourish Chain trading fee, 0.369%. */
  const NOURISH_CHAIN_FEE: Perquintill := 3_690_000_000_000_000

  /** The pallet's error enum; `TransferFailed` stands for whatever error the
      currency ledger returns from `transfer`. `DeadlineExceeded` is declared
      by the pallet but never raised. */
  datatype Error =
    | InvalidAssetPair
    | InvalidAmount
    | InsufficientLiquidity
    | InsufficientBalance
    | PoolDoesNotExist
    | CalculationError
    | SlippageExceeded
    | DeadlineExceeded
    | TransferFailed

  datatype Event =
    | LiquidityAdded(who: AccountId, assetA: AssetId, assetB: AssetId, amountA: Balance, amountB: Balance, liquidity: Balance)
    | LiquidityRemoved(who: AccountId, assetA: AssetId, assetB: AssetId, amountA: Balance, amountB: Balance, liquidity: Balance)
    | Swap(who: AccountId, assetIn: AssetId, assetOut: AssetId, amountIn: Balance, amountOut: Balance, fee: Balance)
    | FeeCollected(asset: AssetId, fee: Balance)

  /** `Perquintill::mul_floor`: the fee share of `x`, rounded down, computed
      without intermediate overflow. */
  function MulFloor(fee: Perquintill, x: Balance): (r: Balance)
    ensures r <= x
    ensures r * PERQUINTILL_ACCURACY <= x * fee < (r + 1) * PERQUINTILL_ACCURACY
  {
    FloorDivBounds(x * fee, PERQUINTILL_ACCURACY);
    MulMonotone(fee, PERQUINTILL_ACCURACY, x);
    MulCancelLe(x * fee / PERQUINTILL_ACCURACY, x, PERQUINTILL_ACCURACY);
    x * fee / PERQUINTILL_ACCURACY
  }

  /** The configured fee is exactly 369/100000: `fee = floor(x * 369 / 100000)`. */
  lemma NourishFeeIsExact(x: Balance)
    ensures MulFloor(NOURISH_CHAIN_FEE, x) == x * 369 / 100000
  {
    var q := x * 369 / 100000;
    FloorDivBounds(x * 369, 100000);
    assert q * PERQUINTILL_ACCURACY <= x * NOURISH_CHAIN_FEE < (q + 1) * PERQUINTILL_ACCURACY;
    FloorDivUnique(x * NOURISH_CHAIN_FEE, PERQUINTILL_ACCURACY, q);
  }

  /** Liquidity minted for a deposit of `(amountA, amountB)` into a pool with
      reserves `(reserveA, reserveB)`: `min(amountA, amountB)` for the first
      deposit, otherwise `min(amountA*reserveB/reserveA, amountB*reserveA/reserveB)`
      with checked u128 arithmetic. */
  function LiquidityToMint(reserveA: Balance, reserveB: Balance, amountA: Balance, amountB: Balance): (r: Result<Balance, Error>)
    ensures reserveA == 0 && reserveB == 0 ==> r == Ok(Min(amountA, amountB))
    ensures r.Err? <==>
      && !(reserveA == 0 && reserveB == 0)
      && (reserveA == 0 || reserveB == 0 || amountA * reserveB > U128_MAX || amountB * reserveA > U128_MAX)
    ensures r.Err? ==> r.error == CalculationError
  {
    if reserveA == 0 && reserveB == 0 then
      Ok(Min(amountA, amountB))
    else
      match CheckedMul(amountA, reserveB)
      case None => Err(CalculationError)
      case Some(productA) =>
        match CheckedDiv(productA, reserveA)
        case None => Err(CalculationError)
        case Some(liquidityA) =>
          match CheckedMul(amountB, reserveA)
          case None => Err(CalculationError)
          case Some(productB) =>
            match CheckedDiv(productB, reserveB)
            case None => Err(CalculationError)
            case Some(liquidityB) => Ok(Min(liquidityA, liquidityB))
  }

  /** On a live pool the minted liquidity is the LARGEST amount that neither
      deposit leg over-justifies: `l` can be minted exactly when
      `l * reserveA <= amountA * reserveB` and `l * reserveB <= amountB * reserveA`. */
  lemma MintIsLargestProportional(reserveA: Balance, reserveB: Balance, amountA: Balance, amountB: Balance, l: nat)
    requires reserveA > 0 && reserveB > 0
    requires LiquidityToMint(reserveA, reserveB, amountA, amountB).Ok?
    ensures l <= LiquidityToMint(reserveA, reserveB, amountA, amountB).value
        <==> l * reserveA <= amountA * reserveB && l * reserveB <= amountB * reserveA
  {
    LeFloorDiv(l, amountA * reserveB, reserveA);
    LeFloorDiv(l, amountB * reserveA, reserveB);
  }

  /** The worked examples: a first deposit of (500, 500) mints 500; reserves
      (1000, 2000) plus a deposit of (100, 300) mint min(200, 150) = 150. */
  lemma MintExamples()
    ensures LiquidityToMint(0, 0, 500, 500) == Ok(500)
    ensures LiquidityToMint(1000, 2000, 100, 300) == Ok(150)
  {
    assert 100 * 2000 / 1000 == 200;
    assert 300 * 1000 / 2000 == 150;
  }

  /** Payouts for burning `liquidity` of a pool with `total` outstanding:
      `liquidity * reserve / total` per side, checked u128 arithmetic. */
  function RemovalAmounts(liquidity: Balance, reserveA: Balance, reserveB: Balance, total: Balance): (r: Result<(Balance, Balance), Error>)
    ensures r.Err? <==> total == 0 || liquidity * reserveA > U128_MAX || liquidity * reserveB > U128_MAX
    ensures r.Err? ==> r.error == CalculationError
    ensures r.Ok? ==> r.value.0 * total <= liquidity * reserveA < (r.value.0 + 1) * total
    ensures r.Ok? ==> r.value.1 * total <= liquidity * reserveB < (r.value.1 + 1) * total
  {
    match CheckedMul(liquidity, reserveA)
    case None => Err(CalculationError)
    case Some(productA) =>
      match CheckedDiv(productA, total)
      case None => Err(CalculationError)
      case Some(amountA) =>
        match CheckedMul(liquidity, reserveB)
        case None => Err(CalculationError)
        case Some(productB) =>
          match CheckedDiv(productB, total)
          case None => Err(CalculationError)
          case Some(amountB) => Ok((amountA, amountB))
  }

  /** Burning no more than the outstanding total pays out at most each
      reserve, so the pallet's saturating reserve subtractions are exact. */
  lemma RemovalWithinReserves(liquidity: Balance, reserveA: Balance, reserveB: Balance, total: Balance)
    requires liquidity <= total
    requires RemovalAmounts(liquidity, reserveA, reserveB, total).Ok?
    ensures RemovalAmounts(liquidity, reserveA, reserveB, total).value.0 <= reserveA
    ensures RemovalAmounts(liquidity, reserveA, reserveB, total).value.1 <= reserveB
  {
    var (amountA, amountB) := RemovalAmounts(liquidity, reserveA, reserveB, total).value;
    MulMonotone(liquidity, total, reserveA);
    MulMonotone(liquidity, total, reserveB);
    MulCancelLe(amountA, reserveA, total);
    MulCancelLe(amountB, reserveB, total);
  }

  /** A swap quote: the fee charged, the output paid and the output reserve
      the constant-product rule leaves behind. */
  datatype Quote = Quote(fee: Balance, amountOut: Balance, newReserveOut: Balance)

  /** The swap arithmetic: `fee = mul_floor(amountIn)`, `net = amountIn - fee`,
      `newReserveOut = reserveIn*reserveOut / (reserveIn + net)` and
      `amountOut = reserveOut - newReserveOut`, with the product and the sum
      overflow-checked. */
  function SwapQuote(reserveIn: Balance, reserveOut: Balance, amountIn: Balance, tradingFee: Perquintill): (r: Result<Quote, Error>)
    ensures r.Err? <==>
      reserveIn * reserveOut > U128_MAX || reserveIn + (amountIn - MulFloor(tradingFee, amountIn)) > U128_MAX
      || reserveIn + (amountIn - MulFloor(tradingFee, amountIn)) == 0
    ensures r.Err? ==> r.error == CalculationError
    ensures r.Ok? ==> r.value.fee == MulFloor(tradingFee, amountIn)
    ensures r.Ok? ==>
      var denominator := reserveIn + (amountIn - r.value.fee);
      denominator * r.value.newReserveOut <= reserveIn * reserveOut < denominator * (r.value.newReserveOut + 1)
    ensures r.Ok? ==> r.value.newReserveOut <= reserveOut && r.value.amountOut + r.value.newReserveOut == reserveOut
  {
    var fee := MulFloor(tradingFee, amountIn);
    var net := SaturatingSub(amountIn, fee);
    match CheckedMul(reserveIn, reserveOut)
    case None => Err(CalculationError)
    case Some(numerator) =>
      match CheckedAdd(reserveIn, net)
      case None => Err(CalculationError)
      case Some(denominator) =>
        match CheckedDiv(numerator, denominator)
        case None => Err(CalculationError)
        case Some(newReserveOut) =>
          MulMonotone(reserveIn, denominator, reserveOut);
          MulCancelLe(newReserveOut, reserveOut, denominator);
          Ok(Quote(fee, SaturatingSub(reserveOut, newReserveOut), newReserveOut))
  }

  /** Reserves (10000, 12800) and an input of 100 pay no fee and 127 out:
      floor(10000*12800/10100) = 12673. An input of 100000 pays a fee of 369. */
  lemma SwapExamples()
    ensures SwapQuote(10000, 12800, 100, NOURISH_CHAIN_FEE) == Ok(Quote(0, 127, 12673))
    ensures MulFloor(NOURISH_CHAIN_FEE, 100000) == 369
  {
    NourishFeeIsExact(100);
    NourishFeeIsExact(100000);
    FloorDivUnique(10000 * 12800, 10100, 12673);
  }

  /** The reserve product is NOT monotone: crediting the whole input but
      paying out `reserveOut - floor(..)` rounds in the trader's favour, so the
      product can fall (10000*12800 = 128000000 becomes 10100*12673 = 127997300).
      What holds instead: it falls by less than the rule's denominator. */
  lemma SwapProductLoss(reserveIn: Balance, reserveOut: Balance, amountIn: Balance, tradingFee: Perquintill)
    requires SwapQuote(reserveIn, reserveOut, amountIn, tradingFee).Ok?
    ensures
      var q := SwapQuote(reserveIn, reserveOut, amountIn, tradingFee).value;
      (reserveIn + amountIn) * q.newReserveOut + (reserveIn + (amountIn - q.fee)) > reserveIn * reserveOut
  {
    var q := SwapQuote(reserveIn, reserveOut, amountIn, tradingFee).value;
    var denominator := reserveIn + (amountIn - q.fee);
    MulMonotone(denominator, reserveIn + amountIn, q.newReserveOut);
    assert denominator * (q.newReserveOut + 1) == denominator * q.newReserveOut + denominator;
  }

  /** The worked example in which the product decreases. */
  lemma SwapProductCanDecrease()
    ensures SwapQuote(10000, 12800, 100, NOURISH_CHAIN_FEE).Ok?
    ensures (10000 + 100) * SwapQuote(10000, 12800, 100, NOURISH_CHAIN_FEE).value.newReserveOut < 10000 * 12800
  {
    SwapExamples();
  }

  /** `swap`'s pair ordering: `(low, high, isReversed)`. Only `swap` applies
      it; `add_liquidity` and `remove_liquidity` key the pool by the pair as passed. */
  function OrderPair(assetIn: AssetId, assetOut: AssetId): (r: (AssetId, AssetId, bool))
    ensures assetIn != assetOut ==> r.0 < r.1
    ensures r.2 <==> !(assetIn < assetOut)
    ensures (if r.2 then (r.1, r.0) else (r.0, r.1)) == (assetIn, assetOut)
  {
    if assetIn < assetOut then (assetIn, assetOut, false) else (assetOut, assetIn, true)
  }

  /** Both directions of a pair resolve to one pool, with opposite orientation. */
  lemma OrderPairSymmetric(x: AssetId, y: AssetId)
    requires x != y
    ensures OrderPair(x, y).0 == OrderPair(y, x).0 && OrderPair(x, y).1 == OrderPair(y, x).1
    ensures OrderPair(x, y).2 == !OrderPair(y, x).2
  {
  }

  /** The reserve stored in the slot of `asset` of the canonical pool `pool`. */
  function SlotOf(pool: Pair, reserves: (Balance, Balance), asset: AssetId): Balance
  {
    if asset == pool.0 then reserves.0 else reserves.1
  }

  /** `swap`'s write-back into the canonical `(reserve_a, reserve_b)` slots. */
  function SwapWriteBack(reserves: (Balance, Balance), isReversed: bool, amountIn: Balance, amountOut: Balance): (Balance, Balance)
  {
    if isReversed then
      (SaturatingSub(reserves.0, amountOut), SaturatingAdd(reserves.1, amountIn))
    else
      (SaturatingAdd(reserves.0, amountIn), SaturatingSub(reserves.1, amountOut))
  }

  /** Whatever the canonical order, `swap` reads `reserve_in` from the input
      asset's slot and `reserve_out` from the output asset's slot, and its
      write-back credits the input slot with `amountIn` and debits the output
      slot by `amountOut`. */
  lemma SwapDirection(assetIn: AssetId, assetOut: AssetId, reserves: (Balance, Balance), amountIn: Balance, amountOut: Balance)
    requires assetIn != assetOut
    ensures
      var (low, high, isReversed) := OrderPair(assetIn, assetOut);
      var reserveIn := if isReversed then reserves.1 else reserves.0;
      var reserveOut := if isReversed then reserves.0 else reserves.1;
      var after := SwapWriteBack(reserves, isReversed, amountIn, amountOut);
      && reserveIn == SlotOf((low, high), reserves, assetIn)
      && reserveOut == SlotOf((low, high), reserves, assetOut)
      && SlotOf((low, high), after, assetIn) == SaturatingAdd(reserveIn, amountIn)
      && SlotOf((low, high), after, assetOut) == SaturatingSub(reserveOut, amountOut)
  {
  }

  /** Round trip from an empty pool: the first depositor, who then holds the
      whole supply `Min(amountA, amountB)`, withdraws exactly what they put in
      (whenever the payout products fit in a u128). */
  lemma FirstDepositRoundTrip(amountA: Balance, amountB: Balance)
    requires amountA > 0 && amountB > 0
    requires Min(amountA, amountB) * amountA <= U128_MAX && Min(amountA, amountB) * amountB <= U128_MAX
    ensures LiquidityToMint(0, 0, amountA, amountB) == Ok(Min(amountA, amountB))
    ensures RemovalAmounts(Min(amountA, amountB), amountA, amountB, Min(amountA, amountB)) == Ok((amountA, amountB))
  {
    var m := Min(amountA, amountB);
    var r := RemovalAmounts(m, amountA, amountB, m);
    FloorDivUnique(m * amountA, m, r.value.0);
    MulDivCancel(amountA, m);
    FloorDivUnique(m * amountB, m, r.value.1);
    MulDivCancel(amountB, m);
  }

  /** On a live pool the round trip is not bounded by the deposit: minting
      prices each leg by the other reserve, not by the total supply. Pool
      (10, 10000) holding total 10 from its first deposit takes (10, 20000)
      and mints min(10000, 20) = 20; burning those 20 of the new total 30
      pays (13, 20000), three more of the first asset than deposited. */
  lemma RoundTripCanReturnMore()
    ensures LiquidityToMint(0, 0, 10, 10000) == Ok(10)
    ensures LiquidityToMint(10, 10000, 10, 20000) == Ok(20)
    ensures RemovalAmounts(20, 10 + 10, 10000 + 20000, 10 + 20) == Ok((13, 20000))
  {
    assert RemovalAmounts(20, 20, 30000, 30).value.0 == 13 by {
      FloorDivUnique(400, 30, 13);
    }
  }
}
