/** The auction contract mock: one auction per NFT id, created once,
    bid on while the block height is below its end block, and finalized
    once the block height has reached it. Records are never deleted. */
module AuctionEngine {
  import opened Responses

  const ErrAuctionExists: nat := 100
  const ErrAuctionNotFound: nat := 101
  /** Returned both for a bid once the window has closed and for a finalize
      before the window has closed. */
  const ErrAuctionFinalized: nat := 102
  const ErrInvalidBid: nat := 103

  datatype Auction = Auction(
    seller: Principal,
    startPrice: nat,
    highestBid: nat,
    highestBidder: Principal,
    endBlock: nat,
    finalized: bool)

  /** The auction table, keyed by NFT id. */
  type Table = map<nat, Auction>

  /** The record invariant: no auction's best bid is below its start price. */
  ghost predicate BidsAtLeastStart(t: Table)
  {
    forall id :: id in t ==> t[id].startPrice <= t[id].highestBid
  }

  /** createAuction: open an auction for `nftId` unless one is recorded. */
  function Create(t: Table, nftId: nat, startPrice: nat, endBlock: nat, sender: Principal): (r: Reply<Table, nat>)
    ensures r.outcome.Ok? <==> nftId !in t
    ensures r.outcome.Err? ==> r.outcome.code == ErrAuctionExists && r.state == t
    ensures r.outcome.Ok? ==>
      && r.outcome.value == nftId
      && SameOutside(t, r.state, nftId)
      && nftId in r.state
      && var a := r.state[nftId];
         a.seller == sender && a.highestBidder == sender
         && a.startPrice == startPrice && a.highestBid == startPrice
         && a.endBlock == endBlock && !a.finalized
    ensures BidsAtLeastStart(t) ==> BidsAtLeastStart(r.state)
  {
    if nftId in t then
      Reply(t, Err(ErrAuctionExists))
    else
      Reply(t[nftId := Auction(sender, startPrice, startPrice, sender, endBlock, false)], Ok(nftId))
  }

  /** placeBid at block height `now`. */
  function Bid(t: Table, now: nat, nftId: nat, amount: nat, sender: Principal): (r: Reply<Table, bool>)
    ensures nftId !in t ==> r.outcome == Err(ErrAuctionNotFound)
    ensures nftId in t && t[nftId].endBlock <= now ==> r.outcome == Err(ErrAuctionFinalized)
    ensures nftId in t && now < t[nftId].endBlock && amount <= t[nftId].highestBid ==> r.outcome == Err(ErrInvalidBid)
    ensures r.outcome.Ok? <==> nftId in t && now < t[nftId].endBlock && t[nftId].highestBid < amount
    ensures r.outcome.Err? ==> r.state == t
    ensures r.outcome.Ok? ==>
      && r.outcome.value
      && SameOutside(t, r.state, nftId)
      && nftId in r.state
      && r.state[nftId] == t[nftId].(highestBid := amount, highestBidder := sender)
      && t[nftId].highestBid < r.state[nftId].highestBid
    ensures BidsAtLeastStart(t) ==> BidsAtLeastStart(r.state)
  {
    if nftId !in t then
      Reply(t, Err(ErrAuctionNotFound))
    else if now >= t[nftId].endBlock then
      Reply(t, Err(ErrAuctionFinalized))
    else if amount <= t[nftId].highestBid then
      Reply(t, Err(ErrInvalidBid))
    else
      Reply(t[nftId := t[nftId].(highestBid := amount, highestBidder := sender)], Ok(true))
  }

  /** finalizeAuction at block height `now`. The existing `finalized` flag is
      not consulted, so finalizing again after the end block succeeds again. */
  function Finalize(t: Table, now: nat, nftId: nat, sender: Principal): (r: Reply<Table, bool>)
    ensures nftId !in t ==> r.outcome == Err(ErrAuctionNotFound)
    ensures nftId in t && now < t[nftId].endBlock ==> r.outcome == Err(ErrAuctionFinalized)
    ensures r.outcome.Ok? <==> nftId in t && t[nftId].endBlock <= now
    ensures r.outcome.Err? ==> r.state == t
    ensures r.outcome.Ok? ==>
      && r.outcome.value
      && SameOutside(t, r.state, nftId)
      && nftId in r.state
      && r.state[nftId] == t[nftId].(finalized := true)
    ensures BidsAtLeastStart(t) ==> BidsAtLeastStart(r.state)
  {
    if nftId !in t then
      Reply(t, Err(ErrAuctionNotFound))
    else if now < t[nftId].endBlock then
      Reply(t, Err(ErrAuctionFinalized))
    else
      Reply(t[nftId := t[nftId].(finalized := true)], Ok(true))
  }

  /** The contract's whole state: the table and the block-height clock. */
  datatype HouseState = HouseState(auctionData: Table, blockHeight: nat)

  /** One call on the contract, or a move of the clock. */
  datatype Call =
    | CreateCall(nftId: nat, startPrice: nat, endBlock: nat, sender: Principal)
    | BidCall(nftId: nat, amount: nat, sender: Principal)
    | FinalizeCall(nftId: nat, sender: Principal)
    | SetClock(height: nat)

  function Apply(h: HouseState, c: Call): HouseState
  {
    match c
    case CreateCall(id, price, end, sender) => h.(auctionData := Create(h.auctionData, id, price, end, sender).state)
    case BidCall(id, amount, sender) => h.(auctionData := Bid(h.auctionData, h.blockHeight, id, amount, sender).state)
    case FinalizeCall(id, sender) => h.(auctionData := Finalize(h.auctionData, h.blockHeight, id, sender).state)
    case SetClock(height) => h.(blockHeight := height)
  }

  /** The state after the calls in `calls`, in order. */
  function Replay(h: HouseState, calls: seq<Call>): HouseState
    decreases |calls|
  {
    if calls == [] then h else Replay(Apply(h, calls[0]), calls[1..])
  }

  /** The clock never moves below `height`, nor below an earlier setting. */
  predicate ClockAdvances(height: nat, calls: seq<Call>)
    decreases |calls|
  {
    if calls == [] then true
    else if calls[0].SetClock? then height <= calls[0].height && ClockAdvances(calls[0].height, calls[1..])
    else ClockAdvances(height, calls[1..])
  }

  /** How a record may change over time: seller, start price and end block
      are fixed, the best bid never falls, and finalization is never undone. */
  ghost predicate Evolves(a: Auction, b: Auction)
  {
    && b.seller == a.seller
    && b.startPrice == a.startPrice
    && b.endBlock == a.endBlock
    && a.highestBid <= b.highestBid
    && (a.finalized ==> b.finalized)
  }

  /** No sequence of calls deletes an auction, and every record only evolves. */
  lemma {:induction false} ReplayEvolves(h: HouseState, calls: seq<Call>, id: nat)
    requires id in h.auctionData
    ensures id in Replay(h, calls).auctionData
    ensures Evolves(h.auctionData[id], Replay(h, calls).auctionData[id])
    decreases |calls|
  {
    if calls != [] {
      var h' := Apply(h, calls[0]);
      assert id in h'.auctionData && Evolves(h.auctionData[id], h'.auctionData[id]);
      ReplayEvolves(h', calls[1..], id);
    }
  }

  /** The record invariant holds after any sequence of calls. */
  lemma {:induction false} ReplayKeepsBidsAtLeastStart(h: HouseState, calls: seq<Call>)
    requires BidsAtLeastStart(h.auctionData)
    ensures BidsAtLeastStart(Replay(h, calls).auctionData)
    decreases |calls|
  {
    if calls != [] {
      ReplayKeepsBidsAtLeastStart(Apply(h, calls[0]), calls[1..]);
    }
  }

  /** Once the clock has reached an auction's end block and never moves back,
      no bid changes it: at most its `finalized` flag is set. */
  lemma {:induction false} ClosedAuctionFrozen(h: HouseState, calls: seq<Call>, id: nat)
    requires id in h.auctionData && h.auctionData[id].endBlock <= h.blockHeight
    requires ClockAdvances(h.blockHeight, calls)
    ensures id in Replay(h, calls).auctionData
    ensures var a, b := h.auctionData[id], Replay(h, calls).auctionData[id];
      b == a || b == a.(finalized := true)
    decreases |calls|
  {
    if calls != [] {
      var h' := Apply(h, calls[0]);
      assert id in h'.auctionData;
      assert h'.auctionData[id] == h.auctionData[id] || h'.auctionData[id] == h.auctionData[id].(finalized := true);
      ClosedAuctionFrozen(h', calls[1..], id);
    }
  }

  /** The contract object: the auction table and the clock it reads. */
  class AuctionHouse {
    var auctionData: Table
    var blockHeight: nat

    ghost predicate Valid()
      reads this
    {
      BidsAtLeastStart(auctionData)
    }

    constructor ()
      ensures Valid() && auctionData == map[] && blockHeight == 0
    {
      auctionData := map[];
      blockHeight := 0;
    }

    /** The clock is set from outside the contract. */
    method SetBlockHeight(height: nat)
      modifies this`blockHeight
      ensures blockHeight == height
    {
      blockHeight := height;
    }

    method CreateAuction(nftId: nat, startPrice: nat, endBlock: nat, sender: Principal) returns (r: Response<nat>)
      requires Valid()
      modifies this`auctionData
      ensures Valid()
      ensures Reply(auctionData, r) == Create(old(auctionData), nftId, startPrice, endBlock, sender)
    {
      if nftId in auctionData {
        return Err(ErrAuctionExists);
      }
      auctionData := auctionData[nftId := Auction(sender, startPrice, startPrice, sender, endBlock, false)];
      return Ok(nftId);
    }

    method PlaceBid(nftId: nat, amount: nat, sender: Principal) returns (r: Response<bool>)
      requires Valid()
      modifies this`auctionData
      ensures Valid()
      ensures Reply(auctionData, r) == Bid(old(auctionData), blockHeight, nftId, amount, sender)
    {
      if nftId !in auctionData {
        return Err(ErrAuctionNotFound);
      }
      var auction := auctionData[nftId];
      if blockHeight >= auction.endBlock {
        return Err(ErrAuctionFinalized);
      }
      if amount <= auction.highestBid {
        return Err(ErrInvalidBid);
      }
      auctionData := auctionData[nftId := auction.(highestBid := amount, highestBidder := sender)];
      return Ok(true);
    }

    method FinalizeAuction(nftId: nat, sender: Principal) returns (r: Response<bool>)
      requires Valid()
      modifies this`auctionData
      ensures Valid()
      ensures Reply(auctionData, r) == Finalize(old(auctionData), blockHeight, nftId, sender)
    {
      if nftId !in auctionData {
        return Err(ErrAuctionNotFound);
      }
      var auction := auctionData[nftId];
      if blockHeight < auction.endBlock {
        return Err(ErrAuctionFinalized);
      }
      auctionData := auctionData[nftId := auction.(finalized := true)];
      return Ok(true);
    }
  }

  /** The call sequence of the repository's auction test file, with the
      responses it expects, derived from the contracts above; one repeated
      finalize at height 51 is added to show that it succeeds again. */
  method AuctionTestSequence()
  {
    var house := new AuctionHouse();
    var created := house.CreateAuction(1, 1000, 50, "seller-principal");
    assert created == Ok(1);
    created := house.CreateAuction(1, 1000, 50, "seller-principal");
    assert created == Err(ErrAuctionExists);
    var r := house.PlaceBid(1, 1500, "bidder-principal");
    assert r == Ok(true);
    r := house.PlaceBid(1, 900, "bidder-principal");
    assert r == Err(ErrInvalidBid);
    house.SetBlockHeight(51);
    r := house.FinalizeAuction(1, "seller-principal");
    assert r == Ok(true);
    r := house.FinalizeAuction(1, "seller-principal");
    assert r == Ok(true);
    house.SetBlockHeight(40);
    r := house.FinalizeAuction(1, "seller-principal");
    assert r == Err(ErrAuctionFinalized);
    assert house.auctionData[1].highestBid == 1500 && house.auctionData[1].finalized;
  }
}
