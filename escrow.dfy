/** The escrow contract mock: one bookkeeping entry per sale id, created by
    the buyer's deposit and removed when the funds are released to the seller
    or refunded to the buyer. Release needs the buyer's (or the contract
    owner's) consent, refund the seller's (or the contract owner's). */
module EscrowVault {
  import opened Responses

  /** The privileged identity that may force either outcome. */
  const ContractOwner: Principal := "contract-owner"

  const ErrNotInEscrow: nat := 101
  const ErrUnauthorized: nat := 102
  const ErrAlreadyInEscrow: nat := 103

  datatype Entry = Entry(buyer: Principal, seller: Principal, amount: nat)

  /** The escrow table, keyed by sale id. */
  type Entries = map<nat, Entry>

  /** getEscrowInfo: the entry held for `saleId`, if any. */
  function EntryOf(t: Entries, saleId: nat): (e: Option<Entry>)
    ensures e.Some? <==> saleId in t
    ensures e.Some? ==> e.value == t[saleId]
  {
    if saleId in t then Some(t[saleId]) else None
  }

  /** isInEscrow: whether funds are held for `saleId`. */
  predicate Holds(t: Entries, saleId: nat)
    ensures Holds(t, saleId) <==> EntryOf(t, saleId).Some?
  {
    saleId in t
  }

  /** depositEscrow: the caller becomes the buyer of a fresh entry. */
  function Deposit(t: Entries, saleId: nat, seller: Principal, amount: nat, sender: Principal): (r: Reply<Entries, bool>)
    ensures r.outcome.Ok? <==> !Holds(t, saleId)
    ensures r.outcome.Err? ==> r.outcome.code == ErrAlreadyInEscrow && r.state == t
    ensures r.outcome.Ok? ==>
      && r.outcome.value
      && SameOutside(t, r.state, saleId)
      && EntryOf(r.state, saleId) == Some(Entry(sender, seller, amount))
      && Holds(r.state, saleId)
  {
    if saleId !in t then
      Reply(t[saleId := Entry(sender, seller, amount)], Ok(true))
    else
      Reply(t, Err(ErrAlreadyInEscrow))
  }

  /** releaseToSeller: only the contract owner or the entry's buyer. */
  function Release(t: Entries, saleId: nat, sender: Principal): (r: Reply<Entries, bool>)
    ensures saleId !in t ==> r.outcome == Err(ErrNotInEscrow)
    ensures saleId in t && sender != ContractOwner && sender != t[saleId].buyer ==> r.outcome == Err(ErrUnauthorized)
    ensures r.outcome.Ok? <==> saleId in t && (sender == ContractOwner || sender == t[saleId].buyer)
    ensures r.outcome.Err? ==> r.state == t
    ensures r.outcome.Ok? ==> r.outcome.value && SameOutside(t, r.state, saleId) && !Holds(r.state, saleId)
  {
    if saleId !in t then
      Reply(t, Err(ErrNotInEscrow))
    else if sender != ContractOwner && sender != t[saleId].buyer then
      Reply(t, Err(ErrUnauthorized))
    else
      Reply(t - {saleId}, Ok(true))
  }

  /** refundBuyer: only the contract owner or the entry's seller; the buyer
      cannot refund themselves. */
  function Refund(t: Entries, saleId: nat, sender: Principal): (r: Reply<Entries, bool>)
    ensures saleId !in t ==> r.outcome == Err(ErrNotInEscrow)
    ensures saleId in t && sender != ContractOwner && sender != t[saleId].seller ==> r.outcome == Err(ErrUnauthorized)
    ensures r.outcome.Ok? <==> saleId in t && (sender == ContractOwner || sender == t[saleId].seller)
    ensures r.outcome.Err? ==> r.state == t
    ensures r.outcome.Ok? ==> r.outcome.value && SameOutside(t, r.state, saleId) && !Holds(r.state, saleId)
  {
    if saleId !in t then
      Reply(t, Err(ErrNotInEscrow))
    else if sender != ContractOwner && sender != t[saleId].seller then
      Reply(t, Err(ErrUnauthorized))
    else
      Reply(t - {saleId}, Ok(true))
  }

  /** One call on the contract. */
  datatype Call =
    | DepositCall(saleId: nat, seller: Principal, amount: nat, sender: Principal)
    | ReleaseCall(saleId: nat, sender: Principal)
    | RefundCall(saleId: nat, sender: Principal)

  function Apply(t: Entries, c: Call): Entries
  {
    match c
    case DepositCall(id, seller, amount, sender) => Deposit(t, id, seller, amount, sender).state
    case ReleaseCall(id, sender) => Release(t, id, sender).state
    case RefundCall(id, sender) => Refund(t, id, sender).state
  }

  /** The table after the calls in `calls`, in order. */
  function Replay(t: Entries, calls: seq<Call>): Entries
    decreases |calls|
  {
    if calls == [] then t else Replay(Apply(t, calls[0]), calls[1..])
  }

  /** Calls on other sale ids never touch the entry of `saleId`. */
  lemma {:induction false} OtherSalesUntouched(t: Entries, calls: seq<Call>, saleId: nat)
    requires forall i :: 0 <= i < |calls| ==> calls[i].saleId != saleId
    ensures EntryOf(Replay(t, calls), saleId) == EntryOf(t, saleId)
    decreases |calls|
  {
    if calls != [] {
      var t' := Apply(t, calls[0]);
      assert EntryOf(t', saleId) == EntryOf(t, saleId);
      OtherSalesUntouched(t', calls[1..], saleId);
    }
  }

  /** Held funds stay held, under the same entry, as long as neither the
      contract owner nor the entry's buyer or seller calls on that sale. */
  lemma {:induction false} HeldWithoutConsent(t: Entries, calls: seq<Call>, saleId: nat)
    requires saleId in t
    requires forall i :: 0 <= i < |calls| && calls[i].saleId == saleId ==>
      calls[i].sender != ContractOwner && calls[i].sender != t[saleId].buyer && calls[i].sender != t[saleId].seller
    ensures EntryOf(Replay(t, calls), saleId) == Some(t[saleId])
    decreases |calls|
  {
    if calls != [] {
      var t' := Apply(t, calls[0]);
      assert saleId in t' && t'[saleId] == t[saleId];
      HeldWithoutConsent(t', calls[1..], saleId);
    }
  }

  /** The contract object: the `escrowBalances` table. */
  class Vault {
    var escrowBalances: Entries

    constructor ()
      ensures escrowBalances == map[]
    {
      escrowBalances := map[];
    }

    method DepositEscrow(saleId: nat, seller: Principal, amount: nat, sender: Principal) returns (r: Response<bool>)
      modifies this
      ensures Reply(escrowBalances, r) == Deposit(old(escrowBalances), saleId, seller, amount, sender)
    {
      if saleId !in escrowBalances {
        escrowBalances := escrowBalances[saleId := Entry(sender, seller, amount)];
        return Ok(true);
      }
      return Err(ErrAlreadyInEscrow);
    }

    method ReleaseToSeller(saleId: nat, sender: Principal) returns (r: Response<bool>)
      modifies this
      ensures Reply(escrowBalances, r) == Release(old(escrowBalances), saleId, sender)
    {
      if saleId !in escrowBalances {
        return Err(ErrNotInEscrow);
      }
      var info := escrowBalances[saleId];
      if sender != ContractOwner && sender != info.buyer {
        return Err(ErrUnauthorized);
      }
      escrowBalances := escrowBalances - {saleId};
      return Ok(true);
    }

    method RefundBuyer(saleId: nat, sender: Principal) returns (r: Response<bool>)
      modifies this
      ensures Reply(escrowBalances, r) == Refund(old(escrowBalances), saleId, sender)
    {
      if saleId !in escrowBalances {
        return Err(ErrNotInEscrow);
      }
      var info := escrowBalances[saleId];
      if sender != ContractOwner && sender != info.seller {
        return Err(ErrUnauthorized);
      }
      escrowBalances := escrowBalances - {saleId};
      return Ok(true);
    }
  }

  /** The call sequence of the repository's escrow test file, with the
      responses it expects, derived from the contracts above. The deposits
      the test makes without checking their response are included. */
  method EscrowTestSequence()
  {
    var buyer, seller := "buyer", "seller";
    var vault := new Vault();
    var r := vault.DepositEscrow(1, seller, 1000, buyer);
    assert r == Ok(true);
    assert EntryOf(vault.escrowBalances, 1) == Some(Entry(buyer, seller, 1000));
    r := vault.DepositEscrow(1, seller, 1000, buyer);
    assert r == Err(ErrAlreadyInEscrow);
    r := vault.ReleaseToSeller(1, ContractOwner);
    assert r == Ok(true) && !Holds(vault.escrowBalances, 1);
    r := vault.ReleaseToSeller(1, ContractOwner);
    assert r == Err(ErrNotInEscrow);
    r := vault.DepositEscrow(1, seller, 1000, buyer);
    r := vault.RefundBuyer(1, seller);
    assert r == Ok(true) && !Holds(vault.escrowBalances, 1);
    r := vault.DepositEscrow(1, seller, 1000, buyer);
    r := vault.RefundBuyer(1, buyer);
    assert r == Err(ErrUnauthorized);
    r := vault.DepositEscrow(1, seller, 1000, buyer);
    assert r == Err(ErrAlreadyInEscrow);
    assert EntryOf(vault.escrowBalances, 1) == Some(Entry(buyer, seller, 1000));
    assert Holds(vault.escrowBalances, 1);
    r := vault.ReleaseToSeller(1, ContractOwner);
    assert !Holds(vault.escrowBalances, 1);
  }
}
