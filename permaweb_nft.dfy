/** The `PermawebNFT` ink! contract of runtime/permaweb-nft.rs: tokens with
    metadata, permaweb storage records, privacy settings, royalties and a
    quantum proof each, plus a per-account list of owned token ids. The
    caller and the block timestamp are parameters; the storage check and the
    proof generator are placeholders in the file and are parameters here. A
    message that returns an error leaves storage as it was. */
module PermawebNft {
  import opened Results
  import opened UInt

  type AccountId = nat
  type Timestamp = u64
  type TokenId = nat
  type Bytes = seq<u8>
  /** `ViewerPolicy` is not defined in the file; a code stands for it. */
  type ViewerPolicy = nat

  datatype Token = Token(owner: AccountId, creator: AccountId, createdAt: Timestamp, transferable: bool)
  datatype Resolution = Resolution(width: u32, height: u32, depth: u32)
  datatype Attribute = Attribute(traitType: Bytes, value: Bytes)
  datatype TokenMetadata = TokenMetadata(name: Bytes, description: Bytes, resolution: Resolution,
                                         mediaHash: Bytes, attributes: seq<Attribute>)
  datatype DimensionAnchor = DimensionAnchor(dimensionId: u32, anchorPoint: Bytes, proof: Bytes)
  datatype PermawebData = PermawebData(libraryId: Bytes, contentHash: Bytes, storageProof: Bytes,
                                       dimensionAnchors: seq<DimensionAnchor>)
  datatype PrivacySettings = PrivacySettings(isPrivate: bool, encryptionKey: Option<Bytes>, viewerPolicy: ViewerPolicy)
  /** `rate` is in basis points (100 = 1%). */
  datatype Royalty = Royalty(creator: AccountId, rate: u32, perpetual: bool)

  datatype Error =
    | TokenNotFound | MetadataNotFound | PermawebDataNotFound | NotAuthorized | NonTransferable
    | Invalid121KResolution | InvalidPermawebStorage | QuantumProofInvalid

  datatype Event =
    | TokenMinted(tokenId: TokenId, creator: AccountId, isPrivate: bool)
    | PrivacyUpdated(tokenId: TokenId, isPrivate: bool)
    | TransferabilityUpdated(tokenId: TokenId, transferable: bool)
    | Transfer(from: AccountId, to: AccountId, tokenId: TokenId)

  /** The side of a 121K asset. */
  const SIDE_121K: u32 := 121000

  /** `validate_resolution`: width and height must both be 121000; the depth
      is not looked at. */
  function ValidateResolution(resolution: Resolution): (r: Result<(), Error>)
    ensures r.Ok? <==> resolution.width == SIDE_121K && resolution.height == SIDE_121K
    ensures r.Err? ==> r.error == Invalid121KResolution
  {
    if resolution.width != SIDE_121K || resolution.height != SIDE_121K then Err(Invalid121KResolution) else Ok(())
  }

  /** The list without the first occurrence of `x` (`position` then `remove`);
      a list without `x` is returned as it is. */
  function RemoveFirst(s: seq<TokenId>, x: TokenId): (r: seq<TokenId>)
    ensures |r| <= |s|
    ensures forall y :: y != x ==> (y in r <==> y in s)
  {
    if |s| == 0 then []
    else if s[0] == x then s[1..]
    else [s[0]] + RemoveFirst(s[1..], x)
  }

  /** Removing the first occurrence takes exactly one copy of `x` out of the
      list and keeps the order of the rest; without `x` nothing changes. */
  lemma {:induction false} RemoveFirstSpec(s: seq<TokenId>, x: TokenId)
    ensures x !in s ==> RemoveFirst(s, x) == s
    ensures x in s ==> |RemoveFirst(s, x)| == |s| - 1 && multiset(RemoveFirst(s, x)) == multiset(s) - multiset{x}
  {
    if |s| > 0 && s[0] != x {
      RemoveFirstSpec(s[1..], x);
      assert s == [s[0]] + s[1..];
    } else if |s| > 0 {
      assert s == [s[0]] + s[1..];
    }
  }

  /** Removing at the first index holding `x` is `RemoveFirst`. */
  lemma {:induction false} RemoveFirstAt(s: seq<TokenId>, x: TokenId, pos: nat)
    requires pos < |s| && s[pos] == x
    requires forall j :: 0 <= j < pos ==> s[j] != x
    ensures RemoveFirst(s, x) == s[..pos] + s[pos + 1..]
  {
    if pos > 0 {
      RemoveFirstAt(s[1..], x, pos - 1);
      assert s[1..][..pos - 1] == s[1..pos];
      assert s[1..][pos..] == s[pos + 1..];
      assert [s[0]] + s[1..pos] == s[..pos];
    }
  }

  /** The owner lists partition the tokens: an account's list holds a token
      once when the account owns it and not at all otherwise. */
  ghost predicate OwnerListsExact(tokens: map<TokenId, Token>, ownerTokens: map<AccountId, seq<TokenId>>)
  {
    forall a: AccountId, id: TokenId :: Occurrences(ownerTokens, a, id) == (if id in tokens && tokens[id].owner == a then 1 else 0)
  }

  /** How often `id` appears in the list of `a` (an absent list is empty). */
  ghost function Occurrences(ownerTokens: map<AccountId, seq<TokenId>>, a: AccountId, id: TokenId): nat
  {
    multiset(GetOr(ownerTokens, a, []))[id]
  }

  /** Minting a fresh id for `owner` and appending it to the owner's list
      keeps the owner lists exact. */
  lemma MintKeepsOwnerLists(tokens: map<TokenId, Token>, ownerTokens: map<AccountId, seq<TokenId>>, id: TokenId, token: Token)
    requires OwnerListsExact(tokens, ownerTokens)
    requires id !in tokens
    ensures OwnerListsExact(tokens[id := token], ownerTokens[token.owner := GetOr(ownerTokens, token.owner, []) + [id]])
  {
    var tokens' := tokens[id := token];
    var ownerTokens' := ownerTokens[token.owner := GetOr(ownerTokens, token.owner, []) + [id]];
    forall a: AccountId, x: TokenId
      ensures Occurrences(ownerTokens', a, x) == (if x in tokens' && tokens'[x].owner == a then 1 else 0)
    {
      assert Occurrences(ownerTokens, a, x) == (if x in tokens && tokens[x].owner == a then 1 else 0);
    }
  }

  /** Moving a token from its owner `from` to `to` as `transfer` does (first
      the removal from the sender's list is written, then the recipient's
      list is read and extended) keeps the owner lists exact, also when
      `to == from`. */
  lemma TransferKeepsOwnerLists(tokens: map<TokenId, Token>, ownerTokens: map<AccountId, seq<TokenId>>,
                                id: TokenId, from: AccountId, to: AccountId)
    requires OwnerListsExact(tokens, ownerTokens)
    requires id in tokens && tokens[id].owner == from
    ensures
      var afterRemoval := ownerTokens[from := RemoveFirst(GetOr(ownerTokens, from, []), id)];
      OwnerListsExact(tokens[id := tokens[id].(owner := to)],
                      afterRemoval[to := GetOr(afterRemoval, to, []) + [id]])
  {
    var fromList := GetOr(ownerTokens, from, []);
    assert Occurrences(ownerTokens, from, id) == 1;
    RemoveFirstSpec(fromList, id);
    var afterRemoval := ownerTokens[from := RemoveFirst(fromList, id)];
    var tokens' := tokens[id := tokens[id].(owner := to)];
    var ownerTokens' := afterRemoval[to := GetOr(afterRemoval, to, []) + [id]];
    forall a: AccountId, x: TokenId
      ensures Occurrences(ownerTokens', a, x) == (if x in tokens' && tokens'[x].owner == a then 1 else 0)
    {
      var before := Occurrences(ownerTokens, a, x);
      assert before == (if x in tokens && tokens[x].owner == a then 1 else 0);
      var removed := multiset(RemoveFirst(fromList, id))[x];
      assert removed == multiset(fromList)[x] - (if x == id then 1 else 0);
      if a == to {
        assert GetOr(ownerTokens', a, []) == GetOr(afterRemoval, to, []) + [id];
        if to == from {
          assert Occurrences(ownerTokens', a, x) == removed + (if x == id then 1 else 0);
        } else {
          assert Occurrences(ownerTokens', a, x) == before + (if x == id then 1 else 0);
        }
      } else if a == from {
        assert Occurrences(ownerTokens', a, x) == removed;
      } else {
        assert GetOr(ownerTokens', a, []) == GetOr(ownerTokens, a, []);
      }
    }
  }

  /** Ids below the counter are exactly the minted ones, each with its
      metadata and permaweb record, and the owner lists are exact. */
  ghost predicate ContractInvariant(tokens: map<TokenId, Token>, ownerTokens: map<AccountId, seq<TokenId>>,
                                    tokenMetadata: map<TokenId, TokenMetadata>, permawebData: map<TokenId, PermawebData>,
                                    tokenCounter: TokenId)
  {
    && (forall id: TokenId :: id in tokens <==> id < tokenCounter)
    && tokenMetadata.Keys == tokens.Keys
    && permawebData.Keys == tokens.Keys
    && OwnerListsExact(tokens, ownerTokens)
  }

  /** `mint`'s writes keep the invariant: the counter names a fresh id. */
  lemma MintKeepsInvariant(tokens: map<TokenId, Token>, ownerTokens: map<AccountId, seq<TokenId>>,
                           tokenMetadata: map<TokenId, TokenMetadata>, permawebData: map<TokenId, PermawebData>,
                           tokenCounter: TokenId, token: Token, metadata: TokenMetadata, data: PermawebData)
    requires ContractInvariant(tokens, ownerTokens, tokenMetadata, permawebData, tokenCounter)
    ensures tokenCounter !in tokens
    ensures ContractInvariant(tokens[tokenCounter := token],
                              ownerTokens[token.owner := GetOr(ownerTokens, token.owner, []) + [tokenCounter]],
                              tokenMetadata[tokenCounter := metadata], permawebData[tokenCounter := data], tokenCounter + 1)
  {
    MintKeepsOwnerLists(tokens, ownerTokens, tokenCounter, token);
  }

  class Contract {
    var tokens: map<TokenId, Token>
    var ownerTokens: map<AccountId, seq<TokenId>>
    var tokenMetadata: map<TokenId, TokenMetadata>
    var permawebData: map<TokenId, PermawebData>
    var privacySettings: map<TokenId, PrivacySettings>
    var creatorRoyalties: map<TokenId, Royalty>
    var quantumProofs: map<TokenId, Bytes>
    var tokenCounter: TokenId

    ghost predicate Valid()
      reads this
    {
      ContractInvariant(tokens, ownerTokens, tokenMetadata, permawebData, tokenCounter)
    }

    function OwnedBy(account: AccountId): seq<TokenId>
      reads this
    {
      GetOr(ownerTokens, account, [])
    }

    constructor ()
      ensures Valid()
      ensures tokens == map[] && ownerTokens == map[] && tokenCounter == 0
      ensures tokenMetadata == map[] && permawebData == map[] && privacySettings == map[]
      ensures creatorRoyalties == map[] && quantumProofs == map[]
    {
      tokens, ownerTokens, tokenMetadata, permawebData := map[], map[], map[], map[];
      privacySettings, creatorRoyalties, quantumProofs := map[], map[], map[];
      tokenCounter := 0;
    }

    /** `mint`: the resolution, then the storage record, are checked before
        anything is written. The new token takes the current counter as its
        id, is owned and created by the caller, is transferable and is
        appended to the caller's list; the counter moves up by one. */
    method Mint(caller: AccountId, now: Timestamp, metadata: TokenMetadata, data: PermawebData,
                privacy: Option<PrivacySettings>, royalty: Option<Royalty>,
                verifyStorage: PermawebData -> Result<(), Error>,
                generateProof: (TokenId, Token, TokenMetadata, PermawebData) -> Bytes)
      returns (r: Result<TokenId, Error>, events: seq<Event>)
      requires Valid()
      modifies this`tokens, this`ownerTokens, this`tokenMetadata, this`permawebData, this`privacySettings
      modifies this`creatorRoyalties, this`quantumProofs, this`tokenCounter
      ensures Valid()
      ensures ValidateResolution(metadata.resolution).Err? ==> r == Err(Invalid121KResolution)
      ensures ValidateResolution(metadata.resolution).Ok? && verifyStorage(data).Err? ==> r == Err(verifyStorage(data).error)
      ensures r.Err? ==> events == [] && unchanged(this)
      ensures r.Ok? <==> ValidateResolution(metadata.resolution).Ok? && verifyStorage(data).Ok?
      ensures r.Ok? ==>
        var id := old(tokenCounter);
        var token := Token(caller, caller, now, true);
        && r.value == id
        && id !in old(tokens)
        && tokenCounter == id + 1
        && tokens == old(tokens)[id := token]
        && tokenMetadata == old(tokenMetadata)[id := metadata]
        && permawebData == old(permawebData)[id := data]
        && privacySettings == (if privacy.Some? then old(privacySettings)[id := privacy.value] else old(privacySettings))
        && creatorRoyalties == (if royalty.Some? then old(creatorRoyalties)[id := royalty.value] else old(creatorRoyalties))
        && quantumProofs == old(quantumProofs)[id := generateProof(id, token, metadata, data)]
        && ownerTokens == old(ownerTokens)[caller := old(OwnedBy(caller)) + [id]]
        && events == [TokenMinted(id, caller, privacy.Some?)]
    {
      events := [];
      var resolutionOk := ValidateResolution(metadata.resolution);
      if resolutionOk.Err? {
        return Err(resolutionOk.error), events;
      }
      var storageOk := verifyStorage(data);
      if storageOk.Err? {
        return Err(storageOk.error), events;
      }
      var id := tokenCounter;
      var token := Token(caller, caller, now, true);
      MintKeepsInvariant(tokens, ownerTokens, tokenMetadata, permawebData, id, token, metadata, data);
      tokenCounter, tokens, tokenMetadata, permawebData, ownerTokens :=
        id + 1, tokens[id := token], tokenMetadata[id := metadata], permawebData[id := data], ownerTokens[caller := OwnedBy(caller) + [id]];
      privacySettings := if privacy.Some? then privacySettings[id := privacy.value] else privacySettings;
      creatorRoyalties := if royalty.Some? then creatorRoyalties[id := royalty.value] else creatorRoyalties;
      quantumProofs := quantumProofs[id := generateProof(id, token, metadata, data)];
      events := [TokenMinted(id, caller, privacy.Some?)];
      r := Ok(id);
    }

    /** `set_privacy`: the owner only. The settings are stored and the
        token's proof regenerated from its metadata and permaweb record; a
        missing record is an error, and the settings written before it are
        reverted with the rest of the message. */
    method SetPrivacy(caller: AccountId, tokenId: TokenId, settings: PrivacySettings,
                      generateProof: (TokenId, Token, TokenMetadata, PermawebData) -> Bytes)
      returns (r: Result<(), Error>, events: seq<Event>)
      requires Valid()
      modifies this`privacySettings, this`quantumProofs
      ensures Valid()
      ensures tokenId !in tokens ==> r == Err(TokenNotFound)
      ensures tokenId in tokens && tokens[tokenId].owner != caller ==> r == Err(NotAuthorized)
      ensures r.Err? ==> events == [] && privacySettings == old(privacySettings) && quantumProofs == old(quantumProofs)
      ensures r.Ok? <==> tokenId in tokens && tokens[tokenId].owner == caller
      ensures r.Ok? ==>
        && privacySettings == old(privacySettings)[tokenId := settings]
        && quantumProofs == old(quantumProofs)[tokenId := generateProof(tokenId, tokens[tokenId], tokenMetadata[tokenId], permawebData[tokenId])]
        && events == [PrivacyUpdated(tokenId, settings.isPrivate)]
    {
      events := [];
      if tokenId !in tokens {
        return Err(TokenNotFound), events;
      }
      var token := tokens[tokenId];
      if token.owner != caller {
        return Err(NotAuthorized), events;
      }
      privacySettings := privacySettings[tokenId := settings];
      // Valid() gives every token its metadata and permaweb record, so the
      // `MetadataNotFound` and `PermawebDataNotFound` exits cannot be taken.
      var metadata := tokenMetadata[tokenId];
      var data := permawebData[tokenId];
      quantumProofs := quantumProofs[tokenId := generateProof(tokenId, token, metadata, data)];
      events := [PrivacyUpdated(tokenId, settings.isPrivate)];
      r := Ok(());
    }

    /** `set_transferable`: the owner only; only the flag changes. */
    method SetTransferable(caller: AccountId, tokenId: TokenId, transferable: bool)
      returns (r: Result<(), Error>, events: seq<Event>)
      requires Valid()
      modifies this`tokens
      ensures Valid()
      ensures old(tokenId !in tokens) ==> r == Err(TokenNotFound)
      ensures old(tokenId in tokens && tokens[tokenId].owner != caller) ==> r == Err(NotAuthorized)
      ensures r.Err? ==> events == [] && tokens == old(tokens)
      ensures r.Ok? <==> old(tokenId in tokens && tokens[tokenId].owner == caller)
      ensures r.Ok? ==>
        && tokens == old(tokens)[tokenId := old(tokens)[tokenId].(transferable := transferable)]
        && events == [TransferabilityUpdated(tokenId, transferable)]
    {
      events := [];
      if tokenId !in tokens {
        return Err(TokenNotFound), events;
      }
      var token := tokens[tokenId];
      if token.owner != caller {
        return Err(NotAuthorized), events;
      }
      tokens := tokens[tokenId := token.(transferable := transferable)];
      assert forall id :: id in tokens <==> id in old(tokens);
      events := [TransferabilityUpdated(tokenId, transferable)];
      r := Ok(());
    }

    /** `transfer`: `TokenNotFound`, then `NotAuthorized` for a caller who is
        not the owner, then `NonTransferable`. The id's first occurrence is
        removed from the caller's list and that list written back; then the
        recipient's list is read, extended by the id and written; then the
        owner becomes `to`. */
    method Transfer(caller: AccountId, to: AccountId, tokenId: TokenId)
      returns (r: Result<(), Error>, events: seq<Event>)
      requires Valid()
      modifies this`tokens, this`ownerTokens
      ensures Valid()
      ensures old(tokenId !in tokens) ==> r == Err(TokenNotFound)
      ensures old(tokenId in tokens && tokens[tokenId].owner != caller) ==> r == Err(NotAuthorized)
      ensures old(tokenId in tokens && tokens[tokenId].owner == caller && !tokens[tokenId].transferable) ==> r == Err(NonTransferable)
      ensures r.Err? ==> events == [] && tokens == old(tokens) && ownerTokens == old(ownerTokens)
      ensures r.Ok? <==> old(tokenId in tokens && tokens[tokenId].owner == caller && tokens[tokenId].transferable)
      ensures r.Ok? ==>
        var afterRemoval := old(ownerTokens)[caller := RemoveFirst(old(OwnedBy(caller)), tokenId)];
        && ownerTokens == afterRemoval[to := GetOr(afterRemoval, to, []) + [tokenId]]
        && tokens == old(tokens)[tokenId := old(tokens)[tokenId].(owner := to)]
        && events == [Event.Transfer(caller, to, tokenId)]
    {
      events := [];
      if tokenId !in tokens {
        return Err(TokenNotFound), events;
      }
      var token := tokens[tokenId];
      if token.owner != caller {
        return Err(NotAuthorized), events;
      }
      if !token.transferable {
        return Err(NonTransferable), events;
      }
      TransferKeepsOwnerLists(tokens, ownerTokens, tokenId, caller, to);
      var fromTokens := OwnedBy(caller);
      var pos := 0;
      while pos < |fromTokens| && fromTokens[pos] != tokenId
        invariant pos <= |fromTokens|
        invariant forall j :: 0 <= j < pos ==> fromTokens[j] != tokenId
      {
        pos := pos + 1;
      }
      if pos < |fromTokens| {
        RemoveFirstAt(fromTokens, tokenId, pos);
        fromTokens := fromTokens[..pos] + fromTokens[pos + 1..];
      } else {
        RemoveFirstSpec(fromTokens, tokenId);
      }
      ownerTokens := ownerTokens[caller := fromTokens];
      var toTokens := OwnedBy(to) + [tokenId];
      ownerTokens := ownerTokens[to := toTokens];
      tokens := tokens[tokenId := token.(owner := to)];
      assert forall id :: id in tokens <==> id in old(tokens);
      events := [Event.Transfer(caller, to, tokenId)];
      r := Ok(());
    }
  }
}
