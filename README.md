# Nourish Chain core, modelled in Dafny

This project models the on-chain logic of the Nourish Chain parachain
(Skhi-Bridges/nourish-chain-supper-club) and proves properties of it:

- **Constant-product liquidity pool pallet** (`pallets/liquidity-pool/src/lib.rs`):
  - `LiquidityPool` holds the pricing rules: liquidity minted, removal payouts, the swap quote with the 0.369% Perquintill fee, pair ordering and swap write-back.
  - `LiquidityLedger` proves that the liquidity tokens stay conserved (for each pool, the claims sum to `TotalLiquidity`) as long as a pool's total stays within u128. Past that bound the saturating adds on the claim and on the total can part ways: `LiquidityLedger.MintSaturationBreaksConservation`.
  - `LiquidityPallet.Pallet` holds the three storage maps and the dispatchables `add_liquidity`, `remove_liquidity` and `swap`, with FRAME's roll-back-on-error made explicit.
- **Unified liquidity pool contract** (`runtime/unified-liquidity-pool.rs`): checked reserve updates and share bookkeeping (`UnifiedLiquidityPool.Pool`).
- **Spirulina registry contract** (`runtime/spirulina-registry.rs`): facilities, devices, parameters and auditors. A bookkeeping invariant is kept by every message (`SpirulinaRegistry.Registry`).
- **Telemetry pallets** (`runtime/parachain-integration.rs`):
  - NRSH (spirulina) and ELXR (kombucha) telemetry submission, device authorisation and optimal ranges;
  - anomaly detection, proved equal to "one event per reading outside its range, in order".
- **Permaweb NFT contract** (`runtime/permaweb-nft.rs`):
  - mint, privacy, transferability and transfer;
  - each token appears exactly once in its owner's list and nowhere else.
- **Daemonless oracle contract** (`runtime/daemonless-oracle.rs`): signature accumulation, the consensus threshold, validator registration and state-proof verification.
- **Class-string builders** (`demo/kombech_leptos/src/type_safe_components.rs`): `TailwindClass` and `ResponsiveClass`. Joining words and splitting on spaces is proved to give the words back.
- **Firmware signing placeholders**:
  - `quantum_crypto` in `runtime/nrsh-telemetry.rs`: the byte loops are proved against their byte formulas. The signature is proved invertible under a known key, and so injective for data of at most 128 bytes.
  - `kyber_dilithium` in `runtime/elxr-telemetry.rs`: the byte loops are proved against their byte formulas. The signature xors back to the data. Empty data yields the private key twice over.

## How the sources were read

Rust integer types are subset types of `nat`: `u8`, `u32`, `u64` and `u128` (in `UInt`). Each `checked_*` operation returns an `Option`. `saturating_*`, `wrapping_*` and the byte xor are written out.

Caller, block number and timestamp are method parameters. Events are returned as sequences rather than deposited.

Foreign calls are function-typed parameters. They include:

- the currency `transfer`;
- the humanity check;
- `calculate_withdrawal_amount`;
- the quantum and permaweb helpers;
- the validator signature check;
- key storage;
- the proof-id generator.

A FRAME dispatchable or ink! message that returns an error leaves storage as it found it. Where the source writes before a later fallible step, the model takes a snapshot and restores it.

The Rust builders of `type_safe_components.rs` take `self` by value and return it. Here they are methods that update the object in place.

In three places the code does not keep a property the pallets' own comments and names lead one to expect; the model follows the code:

- **The reserve product can shrink on a swap.** The comment at `pallets/liquidity-pool/src/lib.rs:324-326` states the constant-product rule `(reserve_in + amount_in_after_fee) * (reserve_out - amount_out) = reserve_in * reserve_out`. In the code, `amount_out` is rounded in the trader's favour, so the product can fall: `LiquidityPool.SwapProductCanDecrease`.
- **Removing liquidity can return more than was deposited.** Removal pays out `liquidity / total` of each reserve (`lib.rs:235-245`), which returns a deposit only if minting is proportional to the total supply. The code mints from the reserve ratio alone (`lib.rs:154-165`), so a later depositor can take out more: `LiquidityPool.RoundTripCanReturnMore`.
- **The telemetry id never advances.** The comment at `runtime/parachain-integration.rs:219` fetches the "next telemetry ID", and the result is written back to `NextTelemetryId`. But the code adds `Default::default()`, which is zero, so the id stays the same and each record overwrites the previous one: `ParachainIntegration.NextIdIsCurrent`.

## Model

| member | source | states |
|---|---|---|
| LiquidityPool.MulFloor | pallets/liquidity-pool/src/lib.rs:321 | the fee is the floor of `x * parts / 10^18`: never above `x`, and the largest value whose scaled product stays within `x * fee` |
| LiquidityPool.NourishFeeIsExact | pallets/liquidity-pool/src/lib.rs:44 | the configured 3 690 000 000 000 000 parts per 10^18 charge exactly `floor(x * 369 / 100000)` |
| LiquidityPool.LiquidityToMint | pallets/liquidity-pool/src/lib.rs:150-166 | a first deposit mints `min(amount_a, amount_b)`; on a live pool, `CalculationError` exactly when one reserve is zero or a product overflows u128 |
| LiquidityPool.MintIsLargestProportional | pallets/liquidity-pool/src/lib.rs:154-165 | on a live pool the minted amount is the largest `l` with `l * reserve_a <= amount_a * reserve_b` and `l * reserve_b <= amount_b * reserve_a` |
| LiquidityPool.MintExamples | pallets/liquidity-pool/src/lib.rs:150-166 | (500, 500) into an empty pool mints 500; (100, 300) into reserves (1000, 2000) mints 150 |
| LiquidityPool.RemovalAmounts | pallets/liquidity-pool/src/lib.rs:235-245 | each payout is `floor(liquidity * reserve / total)`, bracketed from both sides; `CalculationError` exactly when `total` is zero or a product overflows |
| LiquidityPool.RemovalWithinReserves | pallets/liquidity-pool/src/lib.rs:235-261 | burning at most the outstanding total pays at most each reserve, so the saturating reserve subtractions are exact |
| LiquidityPool.SwapQuote | pallets/liquidity-pool/src/lib.rs:321-336 | fee = `mul_floor(amount_in)`; `new_out` is the floor of `rin * rout / (rin + net)`, bracketed from both sides; `amount_out + new_out == reserve_out`; errors exactly on overflow |
| LiquidityPool.SwapExamples | pallets/liquidity-pool/src/lib.rs:321-336 | reserves (10000, 12800) with input 100 charge fee 0, pay 127 and leave 12673; 100000 in charges 369 |
| LiquidityPool.SwapProductLoss | pallets/liquidity-pool/src/lib.rs:333-354 | after crediting the full input, the new product `(rin + amount_in) * new_out` can fall below `rin * rout`, but by less than the denominator `rin + net` |
| LiquidityPool.SwapProductCanDecrease | pallets/liquidity-pool/src/lib.rs:333-354 | counterexample: 10000 * 12800 becomes 10100 * 12673, a smaller product |
| LiquidityPool.OrderPair | pallets/liquidity-pool/src/lib.rs:301-305 | the pair is ordered low-high, and the flag is set exactly when `asset_in` is not the smaller; un-flipping gives the input pair back |
| LiquidityPool.OrderPairSymmetric | pallets/liquidity-pool/src/lib.rs:301-305 | both directions of a pair select the same pool with opposite orientation |
| LiquidityPool.SwapDirection | pallets/liquidity-pool/src/lib.rs:301-357 | whatever the canonical order, `reserve_in` and `reserve_out` are read from the input and output assets' slots, and the write-back credits the input slot with the full `amount_in` (saturating) and debits the output slot by `amount_out` (saturating) |
| LiquidityPool.FirstDepositRoundTrip | pallets/liquidity-pool/src/lib.rs:150-153 | the first depositor who burns everything gets exactly the deposit back |
| LiquidityPool.RoundTripCanReturnMore | pallets/liquidity-pool/src/lib.rs:150-166 | counterexample: minting from the reserve ratio lets a second depositor of (10, 20000) withdraw (13, 20000) |
| LiquidityLedger.SumValuesRemove | pallets/liquidity-pool/src/lib.rs:64-81 | removing one key takes exactly its value off the sum of a balance map |
| LiquidityLedger.SumValuesUpdate | pallets/liquidity-pool/src/lib.rs:64-81 | overwriting an entry changes the sum by the difference between the new and old values |
| LiquidityLedger.SumValuesBound | pallets/liquidity-pool/src/lib.rs:64-81 | every entry is at most the sum |
| LiquidityLedger.ClaimsOfUpdate | pallets/liquidity-pool/src/lib.rs:382-404 | overwriting one claim changes only its own pool's claim sum, by the difference |
| LiquidityLedger.ClaimBelowSum | pallets/liquidity-pool/src/lib.rs:394-404 | an account's claim never exceeds its pool's claim sum |
| LiquidityLedger.UpdateConserves | pallets/liquidity-pool/src/lib.rs:186-197 | moving a claim and its pool total by the same amount keeps every pool's claims summing to `TotalLiquidity` |
| LiquidityLedger.MintConserves | pallets/liquidity-pool/src/lib.rs:192-197 | the saturating mint plus the total's increase conserve liquidity when the total does not overflow |
| LiquidityLedger.MintSaturationBreaksConservation | pallets/liquidity-pool/src/lib.rs:192-197 | counterexample: with a pool total of u128::MAX and a claim of u128::MAX - 5, a mint of 10 raises the claim by 5 and the total by 0, so conservation fails once the total saturates |
| LiquidityLedger.BurnConserves | pallets/liquidity-pool/src/lib.rs:250-255 | a successful burn plus the total's decrease conserve liquidity |
| LiquidityLedger.EmptyConserved | pallets/liquidity-pool/src/lib.rs:64-81 | empty storage is conserved |
| LiquidityPallet.Pallet.constructor | pallets/liquidity-pool/src/lib.rs:51-81 | storage starts empty and conserved |
| LiquidityPallet.Pallet.MintLiquidityTokens | pallets/liquidity-pool/src/lib.rs:382-391 | a saturating add on the one claim; the pools and totals are untouched |
| LiquidityPallet.Pallet.BurnLiquidityTokens | pallets/liquidity-pool/src/lib.rs:394-404 | `InsufficientBalance` and no write exactly when the claim is below the amount; otherwise the claim drops by the amount |
| LiquidityPallet.Pallet.AddLiquidity | pallets/liquidity-pool/src/lib.rs:130-203 | errors in source order, with nothing written; on success the reserves grow by both amounts, the claim and total grow by the minted liquidity, and conservation is kept |
| LiquidityPallet.Pallet.RemoveLiquidity | pallets/liquidity-pool/src/lib.rs:207-281 | errors in source order (`PoolDoesNotExist`, overflow, slippage, burn, transfers) with storage restored; on success the reserves drop by the payouts and conservation is kept |
| LiquidityPallet.Pallet.Swap | pallets/liquidity-pool/src/lib.rs:285-371 | only swap orders the pair; slippage, missing pool and failed transfers write nothing; on success only that pool changes, by the write-back of `SwapDirection`; events `Swap` then `FeeCollected` |
| UnifiedLiquidityPool.ReserveUpdate | runtime/unified-liquidity-pool.rs:159-169 | `Some` exactly when the checked add or subtract fits, and then it is the sum or difference |
| UnifiedLiquidityPool.ReserveUpdateRoundTrip | runtime/unified-liquidity-pool.rs:153-170 | a withdrawal undoes a deposit of the same amount, and a deposit undoes a withdrawal |
| UnifiedLiquidityPool.CalculateShares | runtime/unified-liquidity-pool.rs:143-151 | never fails, and issues one share per unit deposited, so the `CalculationError` exit of `add_liquidity` is never taken |
| UnifiedLiquidityPool.Pool.constructor | runtime/unified-liquidity-pool.rs:48-63 | the rates are stored; reserves and shares start empty |
| UnifiedLiquidityPool.Pool.UpdateReserves | runtime/unified-liquidity-pool.rs:153-170 | on `ArithmeticError` nothing changes; otherwise only this token's reserve changes, to the checked result |
| UnifiedLiquidityPool.Pool.AddLiquidity | runtime/unified-liquidity-pool.rs:66-96 | `NotHuman`, then `ArithmeticError`; on success the reserve grows by `amount` and the caller's share entry is overwritten with `amount` |
| UnifiedLiquidityPool.Pool.RemoveLiquidity | runtime/unified-liquidity-pool.rs:99-135 | `InsufficientShares` without an entry covering the request; the shares drop only after the reserve update succeeds |
| SpirulinaRegistry.IsValidParameters | runtime/spirulina-registry.rs:675-701 | `is_valid_parameters` holds exactly when every range is non-empty and inside its hard bounds |
| SpirulinaRegistry.DefaultParametersValid | runtime/spirulina-registry.rs:232-240 | the constructor's defaults are valid; an empty pH range is not |
| SpirulinaRegistry.OwnersListAppend | runtime/spirulina-registry.rs:287-292 | storing a fresh facility and appending its id to its owner's list keeps every facility listed under its owner |
| SpirulinaRegistry.RegisterKeepsInvariant | runtime/spirulina-registry.rs:268-298 | registration keeps the registry invariant: each facility has valid parameters and an owner entry, and every device names a registered facility |
| SpirulinaRegistry.AddDeviceKeepsInvariant | runtime/spirulina-registry.rs:372-387 | adding a device for a registered facility keeps the invariant |
| SpirulinaRegistry.FacilityUpdateKeepsInvariant | runtime/spirulina-registry.rs:319-331 | replacing a facility with one of the same id and owner keeps the invariant |
| SpirulinaRegistry.DeviceUpdateKeepsInvariant | runtime/spirulina-registry.rs:400-435 | replacing a device with one on the same facility keeps the invariant |
| SpirulinaRegistry.ParametersUpdateKeepsInvariant | runtime/spirulina-registry.rs:439-471 | storing valid parameters for a registered facility keeps the invariant |
| SpirulinaRegistry.Registry.constructor | runtime/spirulina-registry.rs:231-253 | the caller owns an empty registry with the default parameters |
| SpirulinaRegistry.Registry.IsAuditor | runtime/spirulina-registry.rs:595-597 | true exactly when the account has an entry set to `true` |
| SpirulinaRegistry.Registry.IsDeviceAuthorized | runtime/spirulina-registry.rs:664-672 | true exactly when the device exists, names this facility and is `Authorized` |
| SpirulinaRegistry.Registry.RegisterFacility | runtime/spirulina-registry.rs:257-307 | `FacilityAlreadyExists` with no change; otherwise a `Pending` facility owned by the caller, listed under the owner, with default parameters; the count goes up by one |
| SpirulinaRegistry.Registry.UpdateFacilityStatus | runtime/spirulina-registry.rs:311-340 | `Unauthorized` before `FacilityNotFound`; only the status field changes |
| SpirulinaRegistry.Registry.RegisterDevice | runtime/spirulina-registry.rs:344-396 | `FacilityNotFound`, `Unauthorized`, `FacilityNotActive`, `DeviceAlreadyExists` in that order; on success an `Authorized` device and the count goes up by one |
| SpirulinaRegistry.Registry.UpdateDeviceStatus | runtime/spirulina-registry.rs:400-435 | device, then facility, then owner-or-auditor checks; only the device status changes |
| SpirulinaRegistry.Registry.UpdateParameters | runtime/spirulina-registry.rs:439-471 | facility, owner, then validity checks; on success only that facility's parameters change |
| SpirulinaRegistry.Registry.AddCertification | runtime/spirulina-registry.rs:475-509 | auditors only, checked before existence; the certification is appended to that facility |
| SpirulinaRegistry.Registry.PerformAudit | runtime/spirulina-registry.rs:513-535 | auditors only, checked before existence; only `last_audit` changes |
| SpirulinaRegistry.Registry.AddAuditor | runtime/spirulina-registry.rs:539-552 | owner only; afterwards the account is an auditor |
| SpirulinaRegistry.Registry.RemoveAuditor | runtime/spirulina-registry.rs:556-569 | owner only; the entry is set to `false`, so the account is no longer an auditor |
| SpirulinaRegistry.Registry.UpdateDefaultParameters | runtime/spirulina-registry.rs:573-591 | owner only, then validity; only the defaults change, never an existing facility's parameters |
| SpirulinaRegistry.Registry.UpdateDeviceActivity | runtime/spirulina-registry.rs:643-660 | `DeviceNotFound`, then `DeviceNotAuthorized`; on success only `last_active` changes |
| ParachainIntegration.VerifyQuantumSignature | runtime/parachain-integration.rs:482-487 | accepts exactly the signatures of at least 64 bytes |
| ParachainIntegration.NextId | runtime/parachain-integration.rs:220-222 | the checked add of the default id never overflows and never moves the id backwards |
| ParachainIntegration.NextIdIsCurrent | runtime/parachain-integration.rs:220-222 | adding the default (zero) never overflows and gives the same id back |
| ParachainIntegration.OutOfRangeLabelsSpec | runtime/parachain-integration.rs:500-531 | a label is reported exactly when some reading with that label is strictly outside its inclusive range; at most one label per reading |
| ParachainIntegration.NrshAnomalyEvents | runtime/parachain-integration.rs:500-531 | one `AnomalyDetected` for the device per label, in the labels' order |
| ParachainIntegration.ElxrAnomalyEvents | runtime/parachain-integration.rs:555-582 | one `AnomalyDetected` for the device per label, in the labels' order |
| ParachainIntegration.NrshAnomalies | runtime/parachain-integration.rs:500-531 | running the checks one after another, each emitting its event when out of range, gives one `AnomalyDetected` per label of the reference filter, in order |
| ParachainIntegration.NrshCheckAnomalies | runtime/parachain-integration.rs:490-532 | `check_anomalies` emits one `AnomalyDetected` per out-of-range reading, in parameter order, and never fails |
| ParachainIntegration.NrshPallet.constructor | runtime/parachain-integration.rs:72-95 | empty storage, id 0, all ranges (0, 0) |
| ParachainIntegration.NrshPallet.SubmitTelemetry | runtime/parachain-integration.rs:177-258 | `DeviceNotAuthorized`, then the device-id, batch-id and signature caps, then `InvalidSignatureLength` for a signature under 64 bytes, with nothing written on error; on success the record is stored under the current id, the latest-telemetry entry points at it, the id is unchanged, and the events are anomalies, harvest, then `NewTelemetryRecorded` |
| ParachainIntegration.NrshPallet.AuthorizeDevice | runtime/parachain-integration.rs:262-281 | an over-long id is refused; otherwise the device's authorised account becomes the sender |
| ParachainIntegration.NrshPallet.UpdateOptimalRanges | runtime/parachain-integration.rs:285-328 | accepted exactly when every pair has `min < max`; otherwise, checking pH, temperature, light, density, dissolved oxygen, nitrate and salinity in that order, the first pair with `min >= max` names the error, and nothing is written |
| ParachainIntegration.ElxrAnomalies | runtime/parachain-integration.rs:555-582 | as for NRSH: the checks one after another give the reference filter's events, in order |
| ParachainIntegration.ElxrCheckAnomalies | runtime/parachain-integration.rs:546-583 | one `AnomalyDetected` per out-of-range kombucha reading, in parameter order |
| ParachainIntegration.ElxrPallet.constructor | runtime/parachain-integration.rs:103-126 | empty storage, id 0, all ranges (0, 0) |
| ParachainIntegration.ElxrPallet.SubmitTelemetry | runtime/parachain-integration.rs:340-409 | `DeviceNotAuthorized`, the device-id and signature caps, then `InvalidSignatureLength` under 64 bytes, with nothing written on error; the same storage effect as NRSH; `FermentationCompleted` exactly when fermentation is at least 800 |
| ParachainIntegration.ElxrPallet.AuthorizeDevice | runtime/parachain-integration.rs:413-432 | an over-long id is refused; otherwise the sender is authorised |
| ParachainIntegration.ElxrPallet.UpdateOptimalRanges | runtime/parachain-integration.rs:436-475 | accepted exactly when every pair has `min < max`; otherwise, checking pH, temperature, light, density, CO2 and fermentation in that order, the first pair with `min >= max` names the error, and nothing is written |
| PermawebNft.ValidateResolution | runtime/permaweb-nft.rs:289-298 | accepts exactly width = height = 121000; depth is free |
| PermawebNft.RemoveFirst | runtime/permaweb-nft.rs:263-264 | the list never grows, and every id other than the removed one stays in it or stays out of it |
| PermawebNft.RemoveFirstSpec | runtime/permaweb-nft.rs:261-266 | removing the first occurrence takes exactly one copy out of the multiset, and changes nothing when the id is absent |
| PermawebNft.RemoveFirstAt | runtime/permaweb-nft.rs:261-266 | removing at the first matching position is the same as `RemoveFirst` |
| PermawebNft.MintKeepsOwnerLists | runtime/permaweb-nft.rs:157-160 | appending a fresh id to its owner's list keeps each token exactly once in its owner's list and nowhere else |
| PermawebNft.TransferKeepsOwnerLists | runtime/permaweb-nft.rs:261-277 | removing from the sender and appending to the recipient keeps that exactness |
| PermawebNft.MintKeepsInvariant | runtime/permaweb-nft.rs:121-168 | the counter is never a used id, and minting under it keeps the contract invariant |
| PermawebNft.Contract.constructor | runtime/permaweb-nft.rs:98-103 | empty storage, counter 0, invariant holds |
| PermawebNft.Contract.Mint | runtime/permaweb-nft.rs:105-169 | resolution, then storage verification; on success the id is the old counter, the counter goes up by one, and the token is owned and created by the caller, transferable and listed under the caller |
| PermawebNft.Contract.SetPrivacy | runtime/permaweb-nft.rs:172-210 | succeeds exactly for the owner; only privacy and proofs change |
| PermawebNft.Contract.SetTransferable | runtime/permaweb-nft.rs:213-238 | succeeds exactly for the owner; only the `transferable` flag changes |
| PermawebNft.Contract.Transfer | runtime/permaweb-nft.rs:241-286 | `TokenNotFound`, `NotAuthorized`, `NonTransferable`, writing nothing; on success the owner becomes `to`, the first occurrence leaves the sender's list and the id joins the recipient's |
| DaemonlessOracle.Accept | runtime/daemonless-oracle.rs:108-123 | appends exactly one signature; price, timestamp and confidence are overwritten exactly when the count reaches the threshold |
| DaemonlessOracle.ThresholdIsSticky | runtime/daemonless-oracle.rs:111-123 | once a feed reaches the threshold, every later submission updates the price |
| DaemonlessOracle.BelowThresholdKeepsPrice | runtime/daemonless-oracle.rs:116-123 | below the threshold only the signature list changes |
| DaemonlessOracle.CountValid | runtime/daemonless-oracle.rs:196-199 | the count of valid signatures is at most their number |
| DaemonlessOracle.CountValidAll | runtime/daemonless-oracle.rs:196-199 | when all verify, the count is their number |
| DaemonlessOracle.CountValidNone | runtime/daemonless-oracle.rs:196-199 | when none verify, the count is zero |
| DaemonlessOracle.Oracle.constructor | runtime/daemonless-oracle.rs:74-87 | the configuration is stored; every map starts empty |
| DaemonlessOracle.Oracle.SubmitPriceUpdate | runtime/daemonless-oracle.rs:90-135 | `NotValidator` with no write; otherwise the feed becomes `Accept` of the old feed (default if absent), and `PriceUpdated` carries the submitted price even when it was not applied |
| DaemonlessOracle.Oracle.RegisterValidator | runtime/daemonless-oracle.rs:138-172 | a key-storage error leaves storage as it was; otherwise reliability 100 and the stake in both maps |
| DaemonlessOracle.Oracle.VerifyStateProof | runtime/daemonless-oracle.rs:175-210 | `ParachainNotRegistered` for an unknown parachain; `Ok(true)` and the proof stored exactly when the quantum proof verifies and the count of valid signatures reaches the threshold |
| TypeSafeComponents.Join | demo/kombech_leptos/src/type_safe_components.rs:26-28 | no parts join to the empty string; otherwise the result holds the parts' characters plus exactly one separator between each pair of neighbours |
| TypeSafeComponents.JoinAppend | demo/kombech_leptos/src/type_safe_components.rs:26-28 | joining one more part adds a space and that part, or gives the part alone after nothing |
| TypeSafeComponents.SplitJoin | demo/kombech_leptos/src/type_safe_components.rs:26-28 | splitting the joined class string on spaces gives the class names back, in order |
| TypeSafeComponents.TailwindClass.constructor | demo/kombech_leptos/src/type_safe_components.rs:10-12 | no classes, so the string is empty |
| TypeSafeComponents.TailwindClass.Add | demo/kombech_leptos/src/type_safe_components.rs:14-17 | appends exactly one class |
| TypeSafeComponents.TailwindClass.AddWhen | demo/kombech_leptos/src/type_safe_components.rs:19-24 | appends exactly when the condition holds, otherwise changes nothing |
| TypeSafeComponents.TailwindClass.ToString | demo/kombech_leptos/src/type_safe_components.rs:26-28 | no classes give the empty string; classes without spaces are read back, in order, by splitting the string on spaces |
| TypeSafeComponents.AddExtendsString | demo/kombech_leptos/src/type_safe_components.rs:14-28 | after `add`, the string grows by a space and the class, or becomes the class when it was empty |
| TypeSafeComponents.Prefix | demo/kombech_leptos/src/type_safe_components.rs:165-170 | each breakpoint's prefix is two letters and a colon |
| TypeSafeComponents.ResponsiveClass.constructor | demo/kombech_leptos/src/type_safe_components.rs:154-162 | the base and no breakpoint class |
| TypeSafeComponents.ResponsiveClass.With | demo/kombech_leptos/src/type_safe_components.rs:164-180 | the breakpoint's slot becomes prefix + value, replacing any earlier one; the others stay, so the result does not depend on the order of calls on different breakpoints |
| TypeSafeComponents.ResponsiveClass.ToString | demo/kombech_leptos/src/type_safe_components.rs:182-202 | the base, then the present sm, md, lg, xl classes, joined by spaces |
| TypeSafeComponents.ClassesOfSlots | demo/kombech_leptos/src/type_safe_components.rs:182-202 | the base comes first, each present slot adds one class, and with no slot the string is the base |
| NrshQuantumCrypto.GenerateKeys | runtime/nrsh-telemetry.rs:33-49 | 64 public bytes `(7i + 13) mod 256` and 64 private bytes, each its public byte xor 0xA5 |
| NrshQuantumCrypto.PublicKeyDistinct | runtime/nrsh-telemetry.rs:39-43 | the 64 public bytes are pairwise distinct |
| NrshQuantumCrypto.PrivateKeyUnmasks | runtime/nrsh-telemetry.rs:39-43 | xor with 0xA5 turns each private byte back into its public byte |
| NrshQuantumCrypto.SignData | runtime/nrsh-telemetry.rs:51-67 | 128 bytes, byte `i` being `(data[i mod n] + priv[i mod 64]) * 0x1D`, wrapping; empty data is excluded because the index would panic |
| NrshQuantumCrypto.UnsignMix | runtime/nrsh-telemetry.rs:59-60 | multiplying by 0x35 and subtracting the key byte inverts each signature byte |
| NrshQuantumCrypto.SignatureRecoversData | runtime/nrsh-telemetry.rs:56-62 | with the key, every signature byte gives back its data byte |
| NrshQuantumCrypto.SignatureInjective | runtime/nrsh-telemetry.rs:56-62 | under one key, equal signatures of equal-length data of at most 128 bytes mean equal data |
| NrshQuantumCrypto.SignatureUsesFirst128 | runtime/nrsh-telemetry.rs:56-62 | only the first 128 data bytes affect the signature |
| ElxrKyberDilithium.GenerateKeys | runtime/elxr-telemetry.rs:33-47 | 32 public bytes `i` and 32 private bytes `i + 128` |
| ElxrKyberDilithium.PrivateKeyIsPublicPlus128 | runtime/elxr-telemetry.rs:38-41 | each private byte is its public byte plus 128 |
| ElxrKyberDilithium.SignData | runtime/elxr-telemetry.rs:49-65 | 64 bytes: `data[i] xor priv[i mod 32]` while the data lasts, then `priv[i mod 32]`; empty data is allowed |
| ElxrKyberDilithium.SignatureRecoversData | runtime/elxr-telemetry.rs:53-58 | xor with the key byte gives every signed data byte back |
| ElxrKyberDilithium.SignatureUsesFirst64 | runtime/elxr-telemetry.rs:53-58 | only the first 64 data bytes affect the signature |
| ElxrKyberDilithium.EmptyDataSignatureIsKey | runtime/elxr-telemetry.rs:53-58 | signing empty data yields the private key twice over |
| UInt.XorCancel | runtime/elxr-telemetry.rs:55 | xor with the same byte twice gives the original byte |

## Left out

- FRAME and ink! plumbing is not modelled:
  - origins (`ensure_signed`), weights and storage getters;
  - `deposit_event` and `emit_event` as global sinks: events are returned instead;
  - `Self::account_id()` is a constructor argument of `LiquidityPallet.Pallet` (`PalletId` is not in the pallet's `Config`).
- Account balances are not modelled. `T::Currency::transfer` is a fallible parameter, and a failure aborts the call with storage restored.
- The post-quantum and permaweb helpers have foreign or placeholder bodies, so each one is a parameter:
  - `kyber_keygen`, `dilithium_keygen` and `dilithium_sign`;
  - `sign_price_update`, `generate_quantum_proof` and `verify_quantum_proof`;
  - `verify_validator_signature` and `store_validator_keys`;
  - `generate_proof_id` and `distribute_rewards`;
  - `verify_permaweb_storage` and `verify_human_handprint`;
  - `calculate_withdrawal_amount`.
- Storage that no message in the core writes is not modelled: `token_approvals`, `authorized_viewers`, `kyber_keys` and `dilithium_keys`. Kyber and Dilithium key types are byte sequences, and a viewer policy is a plain code.
- SpirulinaRegistry.Registry.RegisterFacility: `facilities_count` is an unbounded `nat`, so the `u32` overflow panic is not modelled (likewise `devices_count` in `RegisterDevice`).
- PermawebNft.Contract.Mint: `token_counter` is an unbounded `nat`, so its overflow is not modelled.
- SpirulinaRegistry.RegistryInvariant does not tie `facilities_count` and `devices_count` to the map sizes; the methods state how the counters change instead.
- LiquidityLedger.MintConserves and the conservation promised by `LiquidityPallet.Pallet.AddLiquidity` hold only while the pool's `TotalLiquidity` plus the minted amount fits in a u128. The source's `saturating_add` on the total (`lib.rs:194-196`) and on the claim (`lib.rs:387-389`) can then break the equality, as `MintSaturationBreaksConservation` shows.
- ParachainIntegration.NrshPallet.SubmitTelemetry and ParachainIntegration.ElxrPallet.SubmitTelemetry reach `TelemetryIdOverflow` only through `checked_add` of zero, which cannot fail. The branch is modelled but never taken.
- PermawebNft.Contract.SetPrivacy keeps `MetadataNotFound` and `PermawebDataNotFound` implicit: under the contract invariant every token has metadata and permaweb data, so those exits cannot be taken.
- The firmware outside `quantum_crypto` and `kyber_dilithium` is not modelled: main loops, ADC reads, serial output, LEDs, `f32` conversions, range scores and battery logic are hardware I/O and floating point.
- `runtime/zero-spread-dex.rs` is not part of this model: its helpers have empty bodies.
- The `TestnetConnector` CLI struct in `runtime/parachain-integration.rs` is not modelled (networking).
- The `f64` swap preview of `demo/social_leptos/dex/src/lib.rs`, the `.jsx` pages, the Leptos view components and the WASM bridge modules are not modelled: they are rendering, floating point and FFI.
- `demo/kombech_leptos/src/golden_theme.rs` is not modelled: its builders are constant class lists.
- Getters that only read one storage entry (`get_facility`, `get_device`, `get_parameters`, the counters, `get_price`, token and metadata lookups) are not modelled beyond the map reads inside the model.
