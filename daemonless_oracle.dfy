/** The `DaemonlessOracle` ink! contract of runtime/daemonless-oracle.rs:
    validators sign price updates into per-feed signature lists, and a feed's
    price is applied once its list reaches the consensus threshold; state
    proofs from registered parachains are stored once enough of their
    signatures verify. The caller and the block timestamp are parameters, and
    so are the post-quantum helpers, which are placeholders in the file. A
    message that returns an error leaves storage as it was. */
module DaemonlessOracle {
  import opened Results
  import opened UInt

  type AccountId = nat
  type FeedId = nat
  type TokenId = nat
  type ParachainId = nat
  type ProofId = nat
  type BlockNumber = nat
  type Balance = u128
  type Timestamp = u64
  type Bytes = seq<u8>
  /** A Dilithium signature, as its encoding. */
  type Signature = Bytes

  datatype PriceFeed = PriceFeed(assetPair: (TokenId, TokenId), price: Balance, timestamp: Timestamp,
                                 confidence: u8, signatures: seq<Signature>, quantumProof: Bytes)

  /** The `Default` feed that `unwrap_or_default` starts an unknown feed from. */
  const DefaultFeed := PriceFeed((0, 0), 0, 0, 0, [], [])

  datatype ValidatorInfo = ValidatorInfo(stake: Balance, reliability: u8, lastUpdate: Timestamp,
                                         quantumKey: Bytes, signatureKey: Bytes)

  datatype VerifierInfo = VerifierInfo(parachainId: ParachainId, verifierKey: Bytes,
                                       supportedAssets: seq<TokenId>, lastVerification: BlockNumber)

  datatype StateProof = StateProof(sourceChain: ParachainId, blockNumber: BlockNumber, stateRoot: Bytes,
                                   validatorSignatures: seq<Signature>, quantumProof: Bytes)

  datatype Error = NotValidator | ParachainNotRegistered | InvalidSignature | InsufficientStake | ConsensusNotReached

  datatype Event =
    | PriceUpdated(feedId: FeedId, price: Balance, confidence: u8, validator: AccountId)
    | ValidatorRegistered(validator: AccountId, stake: Balance)
    | StateProofVerified(parachainId: ParachainId, proofId: ProofId, blockNumber: BlockNumber)

  /** The reliability a newly registered validator starts with. */
  const INITIAL_RELIABILITY: u8 := 100

  /** The feed after one accepted submission: the signature is appended,
      and only when the list then holds at least `threshold` signatures are
      the price, timestamp, confidence and proof overwritten. */
  function Accept(feed: PriceFeed, threshold: nat, signature: Signature, price: Balance, now: Timestamp,
                  confidence: u8, generateProof: PriceFeed -> Bytes): (r: PriceFeed)
    ensures r.signatures == feed.signatures + [signature]
    ensures r.assetPair == feed.assetPair
    ensures |r.signatures| >= threshold ==> r.price == price && r.timestamp == now && r.confidence == confidence
    ensures |r.signatures| < threshold ==> r == feed.(signatures := feed.signatures + [signature])
  {
    var signed := feed.(signatures := feed.signatures + [signature]);
    if |signed.signatures| >= threshold then
      var priced := signed.(price := price, timestamp := now, confidence := confidence);
      priced.(quantumProof := generateProof(priced))
    else signed
  }

  /** Signatures are never cleared, so once a feed's list has reached the
      threshold every later accepted submission sets the price. */
  lemma ThresholdIsSticky(feed: PriceFeed, threshold: nat, generateProof: PriceFeed -> Bytes,
                          sig1: Signature, price1: Balance, now1: Timestamp, confidence1: u8,
                          sig2: Signature, price2: Balance, now2: Timestamp, confidence2: u8)
    requires |feed.signatures| + 1 >= threshold
    ensures var first := Accept(feed, threshold, sig1, price1, now1, confidence1, generateProof);
      && first.price == price1
      && Accept(first, threshold, sig2, price2, now2, confidence2, generateProof).price == price2
  {
  }

  /** Below the threshold an accepted submission changes nothing but the
      signature list: the price it carries is not applied. */
  lemma BelowThresholdKeepsPrice(feed: PriceFeed, threshold: nat, generateProof: PriceFeed -> Bytes,
                                 signature: Signature, price: Balance, now: Timestamp, confidence: u8)
    requires |feed.signatures| + 1 < threshold
    ensures var next := Accept(feed, threshold, signature, price, now, confidence, generateProof);
      && next.price == feed.price && next.timestamp == feed.timestamp && next.confidence == feed.confidence
      && next.quantumProof == feed.quantumProof
  {
  }

  /** The number of signatures that `verify` accepts (the `filter(..).count()`). */
  function CountValid(signatures: seq<Signature>, verify: Signature -> bool): (n: nat)
    ensures n <= |signatures|
  {
    if |signatures| == 0 then 0
    else CountValid(signatures[..|signatures| - 1], verify) + (if verify(signatures[|signatures| - 1]) then 1 else 0)
  }

  /** With every signature accepted (the placeholder verifier) the count is
      the length of the list. */
  lemma {:induction false} CountValidAll(signatures: seq<Signature>, verify: Signature -> bool)
    requires forall s :: s in signatures ==> verify(s)
    ensures CountValid(signatures, verify) == |signatures|
  {
    if |signatures| > 0 {
      var init := signatures[..|signatures| - 1];
      assert forall s :: s in init ==> s in signatures;
      CountValidAll(init, verify);
    }
  }

  /** With no signature accepted the count is zero. */
  lemma {:induction false} CountValidNone(signatures: seq<Signature>, verify: Signature -> bool)
    requires forall s :: s in signatures ==> !verify(s)
    ensures CountValid(signatures, verify) == 0
  {
    if |signatures| > 0 {
      var init := signatures[..|signatures| - 1];
      assert forall s :: s in init ==> s in signatures;
      CountValidNone(init, verify);
    }
  }

  class Oracle {
    var priceFeeds: map<FeedId, PriceFeed>
    var validators: map<AccountId, ValidatorInfo>
    var validatorStakes: map<AccountId, Balance>
    var parachainVerifiers: map<ParachainId, VerifierInfo>
    var stateProofs: map<ProofId, StateProof>
    const quantumEntropy: Bytes
    const minimumValidators: u32
    const consensusThreshold: u32
    const rewardRate: Balance

    /** `new`: empty storage and the given consensus parameters; the entropy
        comes from a placeholder generator and is a parameter. */
    constructor (minimumValidators: u32, consensusThreshold: u32, rewardRate: Balance, entropy: Bytes)
      ensures this.minimumValidators == minimumValidators && this.consensusThreshold == consensusThreshold
      ensures this.rewardRate == rewardRate && quantumEntropy == entropy
      ensures priceFeeds == map[] && validators == map[] && validatorStakes == map[]
      ensures parachainVerifiers == map[] && stateProofs == map[]
    {
      this.minimumValidators := minimumValidators;
      this.consensusThreshold := consensusThreshold;
      this.rewardRate := rewardRate;
      quantumEntropy := entropy;
      priceFeeds, validators, validatorStakes, parachainVerifiers, stateProofs := map[], map[], map[], map[], map[];
    }

    /** `submit_price_update`: `NotValidator` for a caller without a
        `validators` entry; then the signature is made (its error
        propagates), the feed (or the default feed) is extended by it as
        `Accept` describes, the rewards are distributed when the threshold
        is met (their error propagates), and the feed is stored. The event
        carries the submitted price whether or not it was applied. */
    method SubmitPriceUpdate(caller: AccountId, now: Timestamp, feedId: FeedId, price: Balance, confidence: u8,
                             sign: (FeedId, Balance, u8, ValidatorInfo) -> Result<Signature, Error>,
                             generateProof: PriceFeed -> Bytes,
                             distributeRewards: PriceFeed -> Result<(), Error>)
      returns (r: Result<(), Error>, events: seq<Event>)
      modifies this`priceFeeds
      ensures caller !in validators ==> r == Err(NotValidator)
      ensures r.Err? ==> events == [] && priceFeeds == old(priceFeeds)
      ensures caller in validators ==>
        var signed := sign(feedId, price, confidence, validators[caller]);
        && (signed.Err? ==> r == Err(signed.error))
        && (signed.Ok? ==>
              var feed := Accept(GetOr(old(priceFeeds), feedId, DefaultFeed), consensusThreshold, signed.value,
                                 price, now, confidence, generateProof);
              && (|feed.signatures| >= consensusThreshold && distributeRewards(feed).Err? ==>
                    r == Err(distributeRewards(feed).error))
              && (|feed.signatures| < consensusThreshold || distributeRewards(feed).Ok? ==>
                    && r == Ok(())
                    && priceFeeds == old(priceFeeds)[feedId := feed]
                    && events == [PriceUpdated(feedId, price, confidence, caller)]))
    {
      events := [];
      if caller !in validators {
        return Err(NotValidator), events;
      }
      var validator := validators[caller];
      var signed := sign(feedId, price, confidence, validator);
      if signed.Err? {
        return Err(signed.error), events;
      }
      var feed := GetOr(priceFeeds, feedId, DefaultFeed);
      feed := feed.(signatures := feed.signatures + [signed.value]);
      if |feed.signatures| >= consensusThreshold {
        feed := feed.(price := price, timestamp := now, confidence := confidence);
        feed := feed.(quantumProof := generateProof(feed));
        var rewarded := distributeRewards(feed);
        if rewarded.Err? {
          return Err(rewarded.error), events;
        }
      }
      priceFeeds := priceFeeds[feedId := feed];
      events := [PriceUpdated(feedId, price, confidence, caller)];
      r := Ok(());
    }

    /** `register_validator`: stores the stake and reliability 100 under the
        caller in `validators` and `validator_stakes` (overwriting an earlier
        registration); a failure to store the private keys reverts both. The
        fresh keys are inputs. */
    method RegisterValidator(caller: AccountId, now: Timestamp, stake: Balance, kyberPublic: Bytes, dilithiumPublic: Bytes,
                             storeKeys: AccountId -> Result<(), Error>)
      returns (r: Result<(), Error>, events: seq<Event>)
      modifies this`validators, this`validatorStakes
      ensures storeKeys(caller).Err? ==>
        r == Err(storeKeys(caller).error) && events == [] && validators == old(validators) && validatorStakes == old(validatorStakes)
      ensures storeKeys(caller).Ok? ==>
        && r == Ok(())
        && validators == old(validators)[caller := ValidatorInfo(stake, INITIAL_RELIABILITY, now, kyberPublic, dilithiumPublic)]
        && validatorStakes == old(validatorStakes)[caller := stake]
        && events == [ValidatorRegistered(caller, stake)]
    {
      events := [];
      var validators0, stakes0 := validators, validatorStakes;
      var info := ValidatorInfo(stake, INITIAL_RELIABILITY, now, kyberPublic, dilithiumPublic);
      validators := validators[caller := info];
      validatorStakes := validatorStakes[caller := stake];
      var stored := storeKeys(caller);
      if stored.Err? {
        validators, validatorStakes := validators0, stakes0;
        return Err(stored.error), events;
      }
      events := [ValidatorRegistered(caller, stake)];
      r := Ok(());
    }

    /** `verify_state_proof`: `ParachainNotRegistered` for an unknown
        parachain; `Ok(false)` without storing when the quantum proof fails
        or fewer than `consensus_threshold` signatures verify; otherwise the
        proof is stored under its id and `Ok(true)` returned. */
    method VerifyStateProof(parachainId: ParachainId, proof: StateProof,
                            verifyQuantumProof: Bytes -> bool, verifySignature: Signature -> bool,
                            proofIdOf: StateProof -> ProofId)
      returns (r: Result<bool, Error>, events: seq<Event>)
      modifies this`stateProofs
      ensures parachainId !in parachainVerifiers ==> r == Err(ParachainNotRegistered)
      ensures r != Ok(true) ==> events == [] && stateProofs == old(stateProofs)
      ensures parachainId in parachainVerifiers ==>
        && (r == Ok(true) <==>
              verifyQuantumProof(proof.quantumProof) && CountValid(proof.validatorSignatures, verifySignature) >= consensusThreshold)
        && (r == Ok(true) ==>
              && stateProofs == old(stateProofs)[proofIdOf(proof) := proof]
              && events == [StateProofVerified(parachainId, proofIdOf(proof), proof.blockNumber)])
        && r.Ok?
    {
      events := [];
      if parachainId !in parachainVerifiers {
        return Err(ParachainNotRegistered), events;
      }
      if !verifyQuantumProof(proof.quantumProof) {
        return Ok(false), events;
      }
      var signatures := proof.validatorSignatures;
      var valid := 0;
      var i := 0;
      while i < |signatures|
        invariant i <= |signatures|
        invariant valid == CountValid(signatures[..i], verifySignature)
      {
        assert signatures[..i + 1][..i] == signatures[..i];
        if verifySignature(signatures[i]) {
          valid := valid + 1;
        }
        i := i + 1;
      }
      assert signatures[..i] == signatures;
      if valid < consensusThreshold {
        return Ok(false), events;
      }
      var proofId := proofIdOf(proof);
      stateProofs := stateProofs[proofId := proof];
      events := [StateProofVerified(parachainId, proofId, proof.blockNumber)];
      r := Ok(true);
    }
  }
}
