/** The NFT contract mock: only the contract owner mints, ids come from a
    counter that only grows, and a token's owner may transfer or burn it. */
module NftRegistry {
  import opened Responses

  /** The only identity allowed to mint. */
  const ContractOwner: Principal := "ST1PQHQKV0RJXZFY1DGX8MNSNYVE3VGZJSRTPGZGM"

  const ErrOwnerOnly: nat := 100
  const ErrNotTokenOwner: nat := 101
  const ErrTokenNotFound: nat := 102

  datatype Token = Token(owner: Principal, metadata: string)

  /** The contract's whole state: the token table and the last id issued. */
  datatype RegistryState = RegistryState(tokens: map<nat, Token>, lastTokenId: nat)

  /** Every token's id was issued by the counter: it lies in 1..lastTokenId. */
  ghost predicate IdsIssued(s: RegistryState)
  {
    forall id :: id in s.tokens ==> 1 <= id <= s.lastTokenId
  }

  /** getOwner */
  function OwnerOf(s: RegistryState, tokenId: nat): (r: Response<Principal>)
    ensures r.Ok? <==> tokenId in s.tokens
    ensures r.Ok? ==> r.value == s.tokens[tokenId].owner
    ensures r.Err? ==> r.code == ErrTokenNotFound
  {
    if tokenId in s.tokens then Ok(s.tokens[tokenId].owner) else Err(ErrTokenNotFound)
  }

  /** getTokenMetadata */
  function MetadataOf(s: RegistryState, tokenId: nat): (r: Response<string>)
    ensures r.Ok? <==> tokenId in s.tokens
    ensures r.Ok? ==> r.value == s.tokens[tokenId].metadata
    ensures r.Err? ==> r.code == ErrTokenNotFound
  {
    if tokenId in s.tokens then Ok(s.tokens[tokenId].metadata) else Err(ErrTokenNotFound)
  }

  /** getLastTokenId: never fails, and bounds every id in use. */
  function LastIssued(s: RegistryState): (r: Response<nat>)
    ensures r.Ok? && r.value == s.lastTokenId
    ensures IdsIssued(s) ==> forall id :: id in s.tokens ==> id <= r.value
  {
    Ok(s.lastTokenId)
  }

  /** mintToken: the owner-only mint of the next id to the caller. */
  function Mint(s: RegistryState, metadata: string, sender: Principal): (r: Reply<RegistryState, nat>)
    ensures r.outcome.Ok? <==> sender == ContractOwner
    ensures r.outcome.Err? ==> r.outcome.code == ErrOwnerOnly && r.state == s
    ensures r.outcome.Ok? ==>
      && r.outcome.value == s.lastTokenId + 1 == r.state.lastTokenId
      && SameOutside(s.tokens, r.state.tokens, r.outcome.value)
      && r.outcome.value in r.state.tokens
      && r.state.tokens[r.outcome.value] == Token(sender, metadata)
    ensures IdsIssued(s) ==> IdsIssued(r.state) && (r.outcome.Ok? ==> r.outcome.value !in s.tokens)
  {
    if sender != ContractOwner then
      Reply(s, Err(ErrOwnerOnly))
    else
      var tokenId := s.lastTokenId + 1;
      Reply(RegistryState(s.tokens[tokenId := Token(sender, metadata)], tokenId), Ok(tokenId))
  }

  /** transferToken: the owner hands the token to `recipient`. */
  function Transfer(s: RegistryState, tokenId: nat, recipient: Principal, sender: Principal): (r: Reply<RegistryState, bool>)
    ensures tokenId !in s.tokens ==> r.outcome == Err(ErrTokenNotFound)
    ensures tokenId in s.tokens && s.tokens[tokenId].owner != sender ==> r.outcome == Err(ErrNotTokenOwner)
    ensures r.outcome.Ok? <==> tokenId in s.tokens && s.tokens[tokenId].owner == sender
    ensures r.outcome.Err? ==> r.state == s
    ensures r.state.lastTokenId == s.lastTokenId
    ensures r.outcome.Ok? ==>
      && r.outcome.value
      && SameOutside(s.tokens, r.state.tokens, tokenId)
      && OwnerOf(r.state, tokenId) == Ok(recipient)
      && MetadataOf(r.state, tokenId) == MetadataOf(s, tokenId)
    ensures IdsIssued(s) ==> IdsIssued(r.state)
  {
    if tokenId !in s.tokens then
      Reply(s, Err(ErrTokenNotFound))
    else if s.tokens[tokenId].owner != sender then
      Reply(s, Err(ErrNotTokenOwner))
    else
      Reply(s.(tokens := s.tokens[tokenId := Token(recipient, s.tokens[tokenId].metadata)]), Ok(true))
  }

  /** burnToken: the owner destroys the token; its id is not reused. */
  function Burn(s: RegistryState, tokenId: nat, sender: Principal): (r: Reply<RegistryState, bool>)
    ensures tokenId !in s.tokens ==> r.outcome == Err(ErrTokenNotFound)
    ensures tokenId in s.tokens && s.tokens[tokenId].owner != sender ==> r.outcome == Err(ErrNotTokenOwner)
    ensures r.outcome.Ok? <==> tokenId in s.tokens && s.tokens[tokenId].owner == sender
    ensures r.outcome.Err? ==> r.state == s
    ensures r.state.lastTokenId == s.lastTokenId
    ensures r.outcome.Ok? ==>
      && r.outcome.value
      && SameOutside(s.tokens, r.state.tokens, tokenId)
      && OwnerOf(r.state, tokenId) == Err(ErrTokenNotFound)
      && MetadataOf(r.state, tokenId) == Err(ErrTokenNotFound)
    ensures IdsIssued(s) ==> IdsIssued(r.state)
  {
    if tokenId !in s.tokens then
      Reply(s, Err(ErrTokenNotFound))
    else if s.tokens[tokenId].owner != sender then
      Reply(s, Err(ErrNotTokenOwner))
    else
      Reply(s.(tokens := s.tokens - {tokenId}), Ok(true))
  }

  /** One call on the contract. */
  datatype Call =
    | MintCall(metadata: string, sender: Principal)
    | TransferCall(tokenId: nat, recipient: Principal, sender: Principal)
    | BurnCall(tokenId: nat, sender: Principal)

  function Apply(s: RegistryState, c: Call): RegistryState
  {
    match c
    case MintCall(metadata, sender) => Mint(s, metadata, sender).state
    case TransferCall(id, recipient, sender) => Transfer(s, id, recipient, sender).state
    case BurnCall(id, sender) => Burn(s, id, sender).state
  }

  /** The state after the calls in `calls`, in order. */
  function Replay(s: RegistryState, calls: seq<Call>): RegistryState
    decreases |calls|
  {
    if calls == [] then s else Replay(Apply(s, calls[0]), calls[1..])
  }

  /** Any sequence of calls keeps every id issued and never lowers the counter. */
  lemma {:induction false} ReplayKeepsIdsIssued(s: RegistryState, calls: seq<Call>)
    requires IdsIssued(s)
    ensures IdsIssued(Replay(s, calls))
    ensures s.lastTokenId <= Replay(s, calls).lastTokenId
    decreases |calls|
  {
    if calls != [] {
      ReplayKeepsIdsIssued(Apply(s, calls[0]), calls[1..]);
    }
  }

  /** An id already issued and not in use (burned) is never in use again. */
  lemma {:induction false} IdNeverReissued(s: RegistryState, calls: seq<Call>, tokenId: nat)
    requires tokenId <= s.lastTokenId && tokenId !in s.tokens
    ensures tokenId !in Replay(s, calls).tokens
    decreases |calls|
  {
    if calls != [] {
      var s' := Apply(s, calls[0]);
      assert tokenId <= s'.lastTokenId && tokenId !in s'.tokens;
      IdNeverReissued(s', calls[1..], tokenId);
    }
  }

  /** Whoever owns it, a token keeps the metadata it was minted with. */
  lemma {:induction false} MetadataNeverChanges(s: RegistryState, calls: seq<Call>, tokenId: nat)
    requires IdsIssued(s) && tokenId in s.tokens
    ensures tokenId in Replay(s, calls).tokens ==>
      Replay(s, calls).tokens[tokenId].metadata == s.tokens[tokenId].metadata
    decreases |calls|
  {
    if calls != [] {
      var s' := Apply(s, calls[0]);
      assert IdsIssued(s');
      if tokenId in s'.tokens {
        assert s'.tokens[tokenId].metadata == s.tokens[tokenId].metadata;
        MetadataNeverChanges(s', calls[1..], tokenId);
      } else {
        IdNeverReissued(s', calls[1..], tokenId);
      }
    }
  }

  /** The contract object: the token table and the id counter. */
  class Registry {
    var tokens: map<nat, Token>
    var lastTokenId: nat

    ghost predicate Valid()
      reads this
    {
      IdsIssued(RegistryState(tokens, lastTokenId))
    }

    constructor ()
      ensures Valid() && tokens == map[] && lastTokenId == 0
    {
      tokens := map[];
      lastTokenId := 0;
    }

    method MintToken(metadata: string, sender: Principal) returns (r: Response<nat>)
      requires Valid()
      modifies this
      ensures Valid()
      ensures Reply(RegistryState(tokens, lastTokenId), r)
        == Mint(RegistryState(old(tokens), old(lastTokenId)), metadata, sender)
    {
      if sender != ContractOwner {
        return Err(ErrOwnerOnly);
      }
      lastTokenId := lastTokenId + 1;
      var tokenId := lastTokenId;
      tokens := tokens[tokenId := Token(sender, metadata)];
      return Ok(tokenId);
    }

    method TransferToken(tokenId: nat, recipient: Principal, sender: Principal) returns (r: Response<bool>)
      requires Valid()
      modifies this
      ensures Valid()
      ensures Reply(RegistryState(tokens, lastTokenId), r)
        == Transfer(RegistryState(old(tokens), old(lastTokenId)), tokenId, recipient, sender)
    {
      if tokenId !in tokens {
        return Err(ErrTokenNotFound);
      }
      var tokenData := tokens[tokenId];
      if tokenData.owner != sender {
        return Err(ErrNotTokenOwner);
      }
      tokens := tokens[tokenId := Token(recipient, tokenData.metadata)];
      return Ok(true);
    }

    method BurnToken(tokenId: nat, sender: Principal) returns (r: Response<bool>)
      requires Valid()
      modifies this
      ensures Valid()
      ensures Reply(RegistryState(tokens, lastTokenId), r)
        == Burn(RegistryState(old(tokens), old(lastTokenId)), tokenId, sender)
    {
      if tokenId !in tokens {
        return Err(ErrTokenNotFound);
      }
      if tokens[tokenId].owner != sender {
        return Err(ErrNotTokenOwner);
      }
      tokens := tokens - {tokenId};
      return Ok(true);
    }
  }

  /** The call sequence of the repository's NFT test file, with the
      responses it expects, derived from the contracts above. */
  method NftTestSequence()
  {
    var other := "ST1OTHERADDR1234567890";
    var nft := new Registry();
    var minted := nft.MintToken("First token", ContractOwner);
    assert minted == Ok(1);
    minted := nft.MintToken("Non-owner token", "ST1PQHQKV0RJXZFY1DGX8MNSNYVE3VOTHER");
    assert minted == Err(ErrOwnerOnly);
    var r := nft.TransferToken(1, other, ContractOwner);
    assert r == Ok(true);
    assert OwnerOf(RegistryState(nft.tokens, nft.lastTokenId), 1) == Ok(other);
    r := nft.TransferToken(1, "ST1NEWOWNER1234567890", "ST1WRONGOWNER1234567890");
    assert r == Err(ErrNotTokenOwner);
    r := nft.BurnToken(1, other);
    assert r == Ok(true);
    assert OwnerOf(RegistryState(nft.tokens, nft.lastTokenId), 1) == Err(ErrTokenNotFound);
    minted := nft.MintToken("Second token", ContractOwner);
    assert minted == Ok(2);
    r := nft.BurnToken(2, other);
    assert r == Err(ErrNotTokenOwner);
    assert LastIssued(RegistryState(nft.tokens, nft.lastTokenId)) == Ok(2);
    assert MetadataOf(RegistryState(nft.tokens, nft.lastTokenId), 2) == Ok("Second token");
  }
}
