/** The ink! contract of runtime/unified-liquidity-pool.rs: one reserve per
    token and one share entry per (provider, token). A message that returns an
    error leaves storage as it was. The humanity check and the withdrawal
    pricing are foreign to the file and are parameters. */
module UnifiedLiquidityPool {
  import opened Results
  import opened UInt

  type AccountId = nat
  type Balance = u128

  datatype TokenId = NRSH | ELXR | IMRT

  datatype Error = InsufficientShares | ArithmeticError | NotHuman

  datatype Event =
    | LiquidityAdded(provider: AccountId, tokenId: TokenId, amount: Balance, shares: Balance)
    | LiquidityRemoved(provider: AccountId, tokenId: TokenId, amount: Balance, shares: Balance)

  /** The checked reserve arithmetic of `update_reserves`: `checked_add` for an
      addition, `checked_sub` otherwise; `None` is the `ArithmeticError` case. */
  function ReserveUpdate(current: Balance, amount: Balance, isAddition: bool): (r: Option<Balance>)
    ensures isAddition ==> (r.Some? <==> current + amount <= U128_MAX)
    ensures !isAddition ==> (r.Some? <==> amount <= current)
    ensures r.Some? && isAddition ==> r.value - amount == current
    ensures r.Some? && !isAddition ==> r.value + amount == current
  {
    if isAddition then CheckedAdd(current, amount) else CheckedSub(current, amount)
  }

  /** A withdrawal undoes a deposit of the same amount, and a deposit undoes
      a withdrawal. */
  lemma ReserveUpdateRoundTrip(current: Balance, amount: Balance)
    ensures ReserveUpdate(current, amount, true).Some? ==>
      ReserveUpdate(ReserveUpdate(current, amount, true).value, amount, false) == Some(current)
    ensures ReserveUpdate(current, amount, false).Some? ==>
      ReserveUpdate(ReserveUpdate(current, amount, false).value, amount, true) == Some(current)
  {
  }

  /** `calculate_shares`: one share per unit deposited. */
  function CalculateShares(tokenId: TokenId, amount: Balance): (r: Result<Balance, Error>)
    ensures r.Ok? && r.value == amount
  {
    Ok(amount)
  }

  class Pool {
    /** `reserves`; an absent token reads as zero. */
    var reserves: map<TokenId, Balance>
    /** `shares`, keyed by `(provider, token)`. */
    var shares: map<(AccountId, TokenId), Balance>
    const feeRate: Balance
    const treasuryRate: Balance

    constructor (feeRate: Balance, treasuryRate: Balance)
      ensures this.feeRate == feeRate && this.treasuryRate == treasuryRate
      ensures reserves == map[] && shares == map[]
    {
      this.feeRate := feeRate;
      this.treasuryRate := treasuryRate;
      reserves, shares := map[], map[];
    }

    function Reserve(tokenId: TokenId): Balance
      reads this
    {
      GetOr(reserves, tokenId, 0)
    }

    /** `update_reserves`: on `ArithmeticError` nothing is written; otherwise
        only this token's reserve changes. */
    method UpdateReserves(tokenId: TokenId, amount: Balance, isAddition: bool) returns (r: Result<(), Error>)
      modifies this
      ensures var next := ReserveUpdate(old(Reserve(tokenId)), amount, isAddition);
        && (next.None? ==> r == Err(ArithmeticError) && reserves == old(reserves))
        && (next.Some? ==> r == Ok(()) && reserves == old(reserves)[tokenId := next.value])
      ensures shares == old(shares)
    {
      var current := Reserve(tokenId);
      var next := ReserveUpdate(current, amount, isAddition);
      if next.None? {
        return Err(ArithmeticError);
      }
      reserves := reserves[tokenId := next.value];
      r := Ok(());
    }

    /** `add_liquidity`: a non-human caller is refused; otherwise the reserve
        grows by `amount` (checked) and the caller's share entry is REPLACED by
        the new shares, which equal `amount`. */
    method AddLiquidity(caller: AccountId, tokenId: TokenId, amount: Balance, isHuman: AccountId -> bool)
      returns (r: Result<Balance, Error>, events: seq<Event>)
      modifies this
      ensures !isHuman(caller) ==> r == Err(NotHuman)
      ensures isHuman(caller) && old(Reserve(tokenId)) + amount > U128_MAX ==> r == Err(ArithmeticError)
      ensures r.Err? ==> events == [] && reserves == old(reserves) && shares == old(shares)
      ensures r.Ok? <==> isHuman(caller) && old(Reserve(tokenId)) + amount <= U128_MAX
      ensures r.Ok? ==>
        && r.value == amount
        && reserves == old(reserves)[tokenId := old(Reserve(tokenId)) + amount]
        && shares == old(shares)[(caller, tokenId) := amount]
        && events == [LiquidityAdded(caller, tokenId, amount, amount)]
    {
      events := [];
      if !isHuman(caller) {
        return Err(NotHuman), events;
      }
      var calculated := CalculateShares(tokenId, amount);
      if calculated.Err? {
        // `calculate_shares` never fails
        assert false;
      }
      var newShares := calculated.value;
      var updated := UpdateReserves(tokenId, amount, true);
      if updated.Err? {
        return Err(updated.error), events;
      }
      shares := shares[(caller, tokenId) := newShares];
      events := [LiquidityAdded(caller, tokenId, amount, newShares)];
      r := Ok(newShares);
    }

    /** `remove_liquidity`: `InsufficientShares` unless the caller holds an
        entry of at least `sharesIn`; then the withdrawal amount is priced,
        taken from the reserve (checked), and only after that does the
        caller's entry drop by `sharesIn`. */
    method RemoveLiquidity(caller: AccountId, tokenId: TokenId, sharesIn: Balance,
                           withdrawalAmount: (TokenId, Balance) -> Result<Balance, Error>)
      returns (r: Result<Balance, Error>, events: seq<Event>)
      modifies this
      ensures (caller, tokenId) !in old(shares) || old(shares)[(caller, tokenId)] < sharesIn ==> r == Err(InsufficientShares)
      ensures r.Err? ==> events == [] && reserves == old(reserves) && shares == old(shares)
      ensures (caller, tokenId) in old(shares) && old(shares)[(caller, tokenId)] >= sharesIn ==>
        var priced := withdrawalAmount(tokenId, sharesIn);
        && (priced.Err? ==> r == Err(priced.error))
        && (priced.Ok? && old(Reserve(tokenId)) < priced.value ==> r == Err(ArithmeticError))
        && (priced.Ok? && priced.value <= old(Reserve(tokenId)) ==>
              && r == Ok(priced.value)
              && reserves == old(reserves)[tokenId := old(Reserve(tokenId)) - priced.value]
              && shares == old(shares)[(caller, tokenId) := old(shares)[(caller, tokenId)] - sharesIn]
              && events == [LiquidityRemoved(caller, tokenId, priced.value, sharesIn)])
    {
      events := [];
      if (caller, tokenId) !in shares {
        return Err(InsufficientShares), events;
      }
      var providerShares := shares[(caller, tokenId)];
      if providerShares < sharesIn {
        return Err(InsufficientShares), events;
      }
      var priced := withdrawalAmount(tokenId, sharesIn);
      if priced.Err? {
        return Err(priced.error), events;
      }
      var amount := priced.value;
      var updated := UpdateReserves(tokenId, amount, false);
      if updated.Err? {
        return Err(updated.error), events;
      }
      shares := shares[(caller, tokenId) := providerShares - sharesIn];
      events := [LiquidityRemoved(caller, tokenId, amount, sharesIn)];
      r := Ok(amount);
    }
  }
}
