/** The royalty contract mock: a write-once royalty configuration per token,
    the split of a sale price into royalty, marketplace commission and the
    seller's share (all in basis points), and per-creator balances that the
    royalties accrue to and that a withdrawal empties. */
module RoyaltyLedger {
  import opened Responses

  /** 10000 basis points make the whole price. */
  const BasisPoints: nat := 10000
  /** The marketplace's commission, 2.5%. */
  const MarketplaceCommission: nat := 250

  /** A second configuration for the same token. */
  const ErrRoyaltyExists: nat := 101
  /** Distribution for a token without a royalty configuration. */
  const ErrTokenNotFound: nat := 103
  /** Withdrawal with nothing accrued (the same code as above). */
  const ErrNoBalance: nat := 103

  datatype Royalty = Royalty(creator: Principal, royaltyPercentage: nat)

  /** The three parts of a sale price. */
  datatype Proceeds = Proceeds(royaltyAmount: nat, commissionAmount: nat, sellerAmount: int)

  /** The split of `salePrice`: each fee is the price times its basis points,
      rounded down, and the seller gets what is left. */
  function Split(salePrice: nat, royaltyBps: nat, commissionBps: nat): (p: Proceeds)
    ensures p.royaltyAmount + p.commissionAmount + p.sellerAmount == salePrice
    ensures p.royaltyAmount * BasisPoints <= salePrice * royaltyBps < (p.royaltyAmount + 1) * BasisPoints
    ensures p.commissionAmount * BasisPoints <= salePrice * commissionBps < (p.commissionAmount + 1) * BasisPoints
  {
    var royaltyAmount := salePrice * royaltyBps / BasisPoints;
    var commissionAmount := salePrice * commissionBps / BasisPoints;
    Proceeds(royaltyAmount, commissionAmount, salePrice - royaltyAmount - commissionAmount)
  }

  /** When the two rates together are at most 100%, the seller's share is
      never negative (and so never more than the price). */
  lemma SellerShareNonNegative(salePrice: nat, royaltyBps: nat, commissionBps: nat)
    requires royaltyBps + commissionBps <= BasisPoints
    ensures 0 <= Split(salePrice, royaltyBps, commissionBps).sellerAmount <= salePrice
  {
    var p := Split(salePrice, royaltyBps, commissionBps);
    calc {
      (p.royaltyAmount + p.commissionAmount) * BasisPoints;
      == p.royaltyAmount * BasisPoints + p.commissionAmount * BasisPoints;
      <= salePrice * royaltyBps + salePrice * commissionBps;
      == salePrice * (royaltyBps + commissionBps);
      <= salePrice * BasisPoints;
    }
  }

  /** Nothing bounds the royalty rate, so above 100% (with the commission)
      the seller's share can be negative: 99% royalty plus 2.5% commission
      on a price of 10000 leaves the seller -150. */
  lemma SellerShareCanBeNegative()
    ensures Split(10000, 9900, MarketplaceCommission).sellerAmount == -150
  {
  }

  /** The ledger's whole state. */
  datatype LedgerState = LedgerState(tokenRoyalties: map<nat, Royalty>, creatorBalances: map<Principal, nat>)

  /** A creator's accrued balance; a creator never credited has 0. */
  function BalanceOf(balances: map<Principal, nat>, creator: Principal): (b: nat)
    ensures creator in balances ==> b == balances[creator]
    ensures creator !in balances ==> b == 0
  {
    if creator in balances then balances[creator] else 0
  }

  /** setRoyalty: the caller becomes the token's creator, once per token.
      The percentage is stored unchecked. */
  function Configure(s: LedgerState, tokenId: nat, royaltyPercentage: nat, sender: Principal): (r: Reply<LedgerState, bool>)
    ensures r.outcome.Ok? <==> tokenId !in s.tokenRoyalties
    ensures r.outcome.Err? ==> r.outcome.code == ErrRoyaltyExists && r.state == s
    ensures r.outcome.Ok? ==>
      && r.outcome.value
      && r.state.creatorBalances == s.creatorBalances
      && SameOutside(s.tokenRoyalties, r.state.tokenRoyalties, tokenId)
      && tokenId in r.state.tokenRoyalties
      && r.state.tokenRoyalties[tokenId] == Royalty(sender, royaltyPercentage)
  {
    if tokenId !in s.tokenRoyalties then
      Reply(s.(tokenRoyalties := s.tokenRoyalties[tokenId := Royalty(sender, royaltyPercentage)]), Ok(true))
    else
      Reply(s, Err(ErrRoyaltyExists))
  }

  /** distributeRoyaltyAndCommission: credit the royalty to the token's
      creator and answer with the seller's share. */
  function Distribute(s: LedgerState, tokenId: nat, salePrice: nat): (r: Reply<LedgerState, int>)
    ensures r.outcome.Ok? <==> tokenId in s.tokenRoyalties
    ensures r.outcome.Err? ==> r.outcome.code == ErrTokenNotFound && r.state == s
    ensures r.outcome.Ok? ==>
      var royalty := s.tokenRoyalties[tokenId];
      var p := Split(salePrice, royalty.royaltyPercentage, MarketplaceCommission);
      && r.state.tokenRoyalties == s.tokenRoyalties
      && r.outcome.value == p.sellerAmount
      && BalanceOf(r.state.creatorBalances, royalty.creator) == BalanceOf(s.creatorBalances, royalty.creator) + p.royaltyAmount
      && r.outcome.value + p.royaltyAmount + p.commissionAmount == salePrice
      && forall c :: c != royalty.creator ==> BalanceOf(r.state.creatorBalances, c) == BalanceOf(s.creatorBalances, c)
  {
    if tokenId !in s.tokenRoyalties then
      Reply(s, Err(ErrTokenNotFound))
    else
      var royalty := s.tokenRoyalties[tokenId];
      var p := Split(salePrice, royalty.royaltyPercentage, MarketplaceCommission);
      var balances := s.creatorBalances[royalty.creator := BalanceOf(s.creatorBalances, royalty.creator) + p.royaltyAmount];
      Reply(s.(creatorBalances := balances), Ok(p.sellerAmount))
  }

  /** With the token's royalty and the commission together at most 100%,
      the seller's share that a distribution answers is between 0 and the
      sale price. */
  lemma DistributedShareBounded(s: LedgerState, tokenId: nat, salePrice: nat)
    requires tokenId in s.tokenRoyalties
    requires s.tokenRoyalties[tokenId].royaltyPercentage + MarketplaceCommission <= BasisPoints
    ensures Distribute(s, tokenId, salePrice).outcome.Ok?
    ensures 0 <= Distribute(s, tokenId, salePrice).outcome.value <= salePrice
  {
    SellerShareNonNegative(salePrice, s.tokenRoyalties[tokenId].royaltyPercentage, MarketplaceCommission);
  }

  /** withdrawCreatorBalance: pay out the caller's whole balance and set it
      to zero; nothing accrued is an error. */
  function Withdraw(s: LedgerState, sender: Principal): (r: Reply<LedgerState, nat>)
    ensures r.outcome.Ok? <==> 0 < BalanceOf(s.creatorBalances, sender)
    ensures r.outcome.Err? ==> r.outcome.code == ErrNoBalance && r.state == s
    ensures r.outcome.Ok? ==>
      && r.outcome.value == BalanceOf(s.creatorBalances, sender)
      && BalanceOf(r.state.creatorBalances, sender) == 0
      && r.state.tokenRoyalties == s.tokenRoyalties
      && forall c :: c != sender ==> BalanceOf(r.state.creatorBalances, c) == BalanceOf(s.creatorBalances, c)
  {
    var balance := BalanceOf(s.creatorBalances, sender);
    if balance <= 0 then
      Reply(s, Err(ErrNoBalance))
    else
      Reply(s.(creatorBalances := s.creatorBalances[sender := 0]), Ok(balance))
  }

  /** Right after a successful withdrawal, a second one fails. */
  lemma SecondWithdrawFails(s: LedgerState, sender: Principal)
    requires Withdraw(s, sender).outcome.Ok?
    ensures Withdraw(Withdraw(s, sender).state, sender).outcome == Err(ErrNoBalance)
  {
  }

  /** One call on the contract. */
  datatype Call =
    | ConfigureCall(tokenId: nat, royaltyPercentage: nat, sender: Principal)
    | DistributeCall(tokenId: nat, salePrice: nat)
    | WithdrawCall(sender: Principal)

  function Apply(s: LedgerState, c: Call): LedgerState
  {
    match c
    case ConfigureCall(id, pct, sender) => Configure(s, id, pct, sender).state
    case DistributeCall(id, price) => Distribute(s, id, price).state
    case WithdrawCall(sender) => Withdraw(s, sender).state
  }

  /** The state after the calls in `calls`, in order. */
  function Replay(s: LedgerState, calls: seq<Call>): LedgerState
    decreases |calls|
  {
    if calls == [] then s else Replay(Apply(s, calls[0]), calls[1..])
  }

  /** A royalty configuration, once set, is never changed or removed. */
  lemma {:induction false} RoyaltyWriteOnce(s: LedgerState, calls: seq<Call>, tokenId: nat)
    requires tokenId in s.tokenRoyalties
    ensures tokenId in Replay(s, calls).tokenRoyalties
    ensures Replay(s, calls).tokenRoyalties[tokenId] == s.tokenRoyalties[tokenId]
    decreases |calls|
  {
    if calls != [] {
      var s' := Apply(s, calls[0]);
      assert tokenId in s'.tokenRoyalties && s'.tokenRoyalties[tokenId] == s.tokenRoyalties[tokenId];
      RoyaltyWriteOnce(s', calls[1..], tokenId);
    }
  }

  /** Only the creator's own withdrawal lowers the creator's balance. */
  lemma {:induction false} BalanceGrowsUntilWithdrawn(s: LedgerState, calls: seq<Call>, creator: Principal)
    requires forall i :: 0 <= i < |calls| ==> !(calls[i].WithdrawCall? && calls[i].sender == creator)
    ensures BalanceOf(s.creatorBalances, creator) <= BalanceOf(Replay(s, calls).creatorBalances, creator)
    decreases |calls|
  {
    if calls != [] {
      var s' := Apply(s, calls[0]);
      assert BalanceOf(s.creatorBalances, creator) <= BalanceOf(s'.creatorBalances, creator);
      BalanceGrowsUntilWithdrawn(s', calls[1..], creator);
    }
  }

  /** The contract object: the two tables. */
  class Ledger {
    var tokenRoyalties: map<nat, Royalty>
    var creatorBalances: map<Principal, nat>

    constructor ()
      ensures tokenRoyalties == map[] && creatorBalances == map[]
    {
      tokenRoyalties := map[];
      creatorBalances := map[];
    }

    method SetRoyalty(tokenId: nat, royaltyPercentage: nat, sender: Principal) returns (r: Response<bool>)
      modifies this
      ensures Reply(LedgerState(tokenRoyalties, creatorBalances), r)
        == Configure(LedgerState(old(tokenRoyalties), old(creatorBalances)), tokenId, royaltyPercentage, sender)
    {
      if tokenId !in tokenRoyalties {
        tokenRoyalties := tokenRoyalties[tokenId := Royalty(sender, royaltyPercentage)];
        return Ok(true);
      }
      return Err(ErrRoyaltyExists);
    }

    method DistributeRoyaltyAndCommission(tokenId: nat, salePrice: nat) returns (r: Response<int>)
      modifies this
      ensures Reply(LedgerState(tokenRoyalties, creatorBalances), r)
        == Distribute(LedgerState(old(tokenRoyalties), old(creatorBalances)), tokenId, salePrice)
    {
      if tokenId !in tokenRoyalties {
        return Err(ErrTokenNotFound);
      }
      var royalty := tokenRoyalties[tokenId];
      var royaltyAmount := salePrice * royalty.royaltyPercentage / BasisPoints;
      var commissionAmount := salePrice * MarketplaceCommission / BasisPoints;
      var sellerAmount := salePrice - royaltyAmount - commissionAmount;
      creatorBalances := creatorBalances[royalty.creator := BalanceOf(creatorBalances, royalty.creator) + royaltyAmount];
      return Ok(sellerAmount);
    }

    method WithdrawCreatorBalance(sender: Principal) returns (r: Response<nat>)
      modifies this
      ensures Reply(LedgerState(tokenRoyalties, creatorBalances), r)
        == Withdraw(LedgerState(old(tokenRoyalties), old(creatorBalances)), sender)
    {
      var balance := BalanceOf(creatorBalances, sender);
      if balance <= 0 {
        return Err(ErrNoBalance);
      }
      creatorBalances := creatorBalances[sender := 0];
      return Ok(balance);
    }
  }

  /** The call sequence of the repository's royalty test file, with the
      responses and balances it expects, derived from the contracts above. */
  method RoyaltyTestSequence()
  {
    var ledger := new Ledger();
    var configured := ledger.SetRoyalty(1, 1000, "creator-1");
    assert configured == Ok(true);
    assert ledger.tokenRoyalties[1] == Royalty("creator-1", 1000);
    var seller := ledger.DistributeRoyaltyAndCommission(1, 10000);
    assert seller == Ok(8750);
    assert BalanceOf(ledger.creatorBalances, "creator-1") == 1000;
    var paid := ledger.WithdrawCreatorBalance("creator-1");
    assert paid == Ok(1000);
    assert BalanceOf(ledger.creatorBalances, "creator-1") == 0;
    paid := ledger.WithdrawCreatorBalance("creator-1");
    assert paid == Err(ErrNoBalance);
    assert ledger.tokenRoyalties[1] == Royalty("creator-1", 1000);
  }
}
