/** Liquidity-token bookkeeping of pallets/liquidity-pool/src/lib.rs: the sum
    of the per-account claims of a pool, and how a mint or a burn of one claim,
    paired with the caller's separate update of `TotalLiquidity`, keeps that sum
    equal to the pool's total. */
module LiquidityLedger {
  import opened Results
  import opened UInt
  import opened LiquidityPool

  /** Key of `LiquidityTokens`: `(asset_a, asset_b, account)`. */
  type ClaimKey = (AssetId, AssetId, AccountId)

  /** Sum of the values of a finite map. */
  ghost function SumValues<K>(m: map<K, Balance>): nat
    decreases |m|
  {
    if |m| == 0 then 0 else var k :| k in m; m[k] + SumValues(m - {k})
  }

  /** Removing any one key takes exactly its value off the sum. */
  lemma {:induction false} SumValuesRemove<K>(m: map<K, Balance>, k: K)
    requires k in m
    ensures SumValues(m) == m[k] + SumValues(m - {k})
    decreases |m|
  {
    var j :| j in m && SumValues(m) == m[j] + SumValues(m - {j});
    if j != k {
      assert (m - {j}) - {k} == (m - {k}) - {j};
      SumValuesRemove(m - {j}, k);
      SumValuesRemove(m - {k}, j);
    }
  }

  /** Overwriting one entry changes the sum by the difference of the values. */
  lemma SumValuesUpdate<K>(m: map<K, Balance>, k: K, v: Balance)
    ensures SumValues(m[k := v]) + GetOr(m, k, 0) == SumValues(m) + v
  {
    var m' := m[k := v];
    SumValuesRemove(m', k);
    assert m' - {k} == m - {k};
    if k in m {
      SumValuesRemove(m, k);
    } else {
      assert m - {k} == m;
    }
  }

  /** Every entry is bounded by the sum. */
  lemma SumValuesBound<K>(m: map<K, Balance>, k: K)
    requires k in m
    ensures m[k] <= SumValues(m)
  {
    SumValuesRemove(m, k);
  }

  /** The claims on `pool`, as a map of their own. */
  function PoolClaims(tokens: map<ClaimKey, Balance>, pool: Pair): map<ClaimKey, Balance>
  {
    map k | k in tokens && (k.0, k.1) == pool :: tokens[k]
  }

  /** The sum of all accounts' claims on `pool`. */
  ghost function ClaimsOf(tokens: map<ClaimKey, Balance>, pool: Pair): nat
  {
    SumValues(PoolClaims(tokens, pool))
  }

  /** Overwriting one account's claim changes that pool's claim sum by the
      difference and leaves every other pool's claim sum alone. */
  lemma ClaimsOfUpdate(tokens: map<ClaimKey, Balance>, pool: Pair, who: AccountId, v: Balance, other: Pair)
    ensures other == pool ==>
      ClaimsOf(tokens[(pool.0, pool.1, who) := v], other) + GetOr(tokens, (pool.0, pool.1, who), 0) == ClaimsOf(tokens, other) + v
    ensures other != pool ==> ClaimsOf(tokens[(pool.0, pool.1, who) := v], other) == ClaimsOf(tokens, other)
  {
    var key := (pool.0, pool.1, who);
    var tokens' := tokens[key := v];
    if other == pool {
      assert PoolClaims(tokens', other) == PoolClaims(tokens, other)[key := v];
      SumValuesUpdate(PoolClaims(tokens, other), key, v);
      assert GetOr(PoolClaims(tokens, other), key, 0) == GetOr(tokens, key, 0);
    } else {
      assert PoolClaims(tokens', other) == PoolClaims(tokens, other);
    }
  }

  /** An account's claim never exceeds the pool's claim sum. */
  lemma ClaimBelowSum(tokens: map<ClaimKey, Balance>, pool: Pair, who: AccountId)
    ensures GetOr(tokens, (pool.0, pool.1, who), 0) <= ClaimsOf(tokens, pool)
  {
    var key := (pool.0, pool.1, who);
    if key in tokens {
      assert key in PoolClaims(tokens, pool);
      SumValuesBound(PoolClaims(tokens, pool), key);
    }
  }

  /** Liquidity conservation: for every pool the claims sum to `TotalLiquidity`
      (an absent entry reads as zero). */
  ghost predicate Conserved(tokens: map<ClaimKey, Balance>, totals: map<Pair, Balance>)
  {
    forall pool: Pair {:trigger ClaimsOf(tokens, pool)} :: ClaimsOf(tokens, pool) == GetOr(totals, pool, 0)
  }

  /** Overwriting one claim and its pool's total so that the total moves by
      exactly as much as the claim keeps conservation. */
  lemma UpdateConserves(tokens: map<ClaimKey, Balance>, totals: map<Pair, Balance>, pool: Pair, who: AccountId,
                        claim: Balance, total: Balance)
    requires Conserved(tokens, totals)
    requires GetOr(totals, pool, 0) + claim == total + GetOr(tokens, (pool.0, pool.1, who), 0)
    ensures Conserved(tokens[(pool.0, pool.1, who) := claim], totals[pool := total])
  {
    var tokens' := tokens[(pool.0, pool.1, who) := claim];
    var totals' := totals[pool := total];
    forall other: Pair ensures ClaimsOf(tokens', other) == GetOr(totals', other, 0) {
      ClaimsOfUpdate(tokens, pool, who, claim, other);
      assert ClaimsOf(tokens, other) == GetOr(totals, other, 0);
    }
  }

  /** `mint_liquidity_tokens` (saturating add on the claim) followed by the
      caller's saturating add on `TotalLiquidity`: as long as the total does
      not saturate, both grow by exactly `amount` and conservation is kept. */
  lemma MintConserves(tokens: map<ClaimKey, Balance>, totals: map<Pair, Balance>, pool: Pair, who: AccountId, amount: Balance)
    requires Conserved(tokens, totals)
    requires GetOr(totals, pool, 0) + amount <= U128_MAX
    ensures
      var claim := GetOr(tokens, (pool.0, pool.1, who), 0);
      var total := GetOr(totals, pool, 0);
      && SaturatingAdd(claim, amount) == claim + amount
      && SaturatingAdd(total, amount) == total + amount
      && Conserved(tokens[(pool.0, pool.1, who) := SaturatingAdd(claim, amount)], totals[pool := SaturatingAdd(total, amount)])
  {
    ClaimBelowSum(tokens, pool, who);
    assert ClaimsOf(tokens, pool) == GetOr(totals, pool, 0);
    var claim := GetOr(tokens, (pool.0, pool.1, who), 0);
    var total := GetOr(totals, pool, 0);
    UpdateConserves(tokens, totals, pool, who, claim + amount, total + amount);
  }

  /** Past the bound of `MintConserves` the two saturating adds part ways: a
      claim of u128::MAX - 5 inside a pool total of u128::MAX (another account
      holds the other 5) grows by 5 on a mint of 10, while the total stays
      put, so the claims would sum to more than the total. */
  lemma MintSaturationBreaksConservation()
    ensures
      var claim, total, amount := U128_MAX - 5, U128_MAX, 10;
      && claim <= total
      && SaturatingAdd(claim, amount) == claim + 5
      && SaturatingAdd(total, amount) == total
      && SaturatingAdd(total, amount) + claim != total + SaturatingAdd(claim, amount)
  {
  }

  /** `burn_liquidity_tokens` (which succeeded, so the claim covered `amount`)
      followed by the caller's saturating subtract on `TotalLiquidity`: the
      total covers the claim, so both drop by exactly `amount`, `amount` is at
      most the total, and conservation is kept. */
  lemma BurnConserves(tokens: map<ClaimKey, Balance>, totals: map<Pair, Balance>, pool: Pair, who: AccountId, amount: Balance)
    requires Conserved(tokens, totals)
    requires amount <= GetOr(tokens, (pool.0, pool.1, who), 0)
    ensures
      var claim := GetOr(tokens, (pool.0, pool.1, who), 0);
      var total := GetOr(totals, pool, 0);
      && amount <= total
      && SaturatingSub(claim, amount) == claim - amount
      && SaturatingSub(total, amount) == total - amount
      && Conserved(tokens[(pool.0, pool.1, who) := SaturatingSub(claim, amount)], totals[pool := SaturatingSub(total, amount)])
  {
    ClaimBelowSum(tokens, pool, who);
    assert ClaimsOf(tokens, pool) == GetOr(totals, pool, 0);
    var claim := GetOr(tokens, (pool.0, pool.1, who), 0);
    var total := GetOr(totals, pool, 0);
    UpdateConserves(tokens, totals, pool, who, claim - amount, total - amount);
  }

  /** The empty ledger is conserved. */
  lemma EmptyConserved()
    ensures Conserved(map[], map[])
  {
    forall pool: Pair ensures ClaimsOf(map[], pool) == GetOr(map[], pool, 0) {
      assert PoolClaims(map[], pool) == map[];
    }
  }
}
