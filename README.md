# NFT marketplace contract ledgers in Dafny

This project models the five small contract ledgers of an NFT marketplace
built on Clarity. The repository holds no contract sources: each contract
exists as a TypeScript mock at the top of its test file, and that mock is
what is modelled here.

- **Auction engine** (`auction.dfy`, module `AuctionEngine`): one auction per
  NFT id. `createAuction` opens it, `placeBid` raises the best bid while the
  block height is below the end block, and `finalizeAuction` marks it closed
  once the end block is reached.
- **Escrow vault** (`escrow.dfy`, module `EscrowVault`): one bookkeeping
  entry per sale id. The buyer's `depositEscrow` creates it, and
  `releaseToSeller` or `refundBuyer` removes it. Release needs the buyer or
  the contract owner. Refund needs the seller or the contract owner.
- **Royalty ledger** (`royalty.dfy`, module `RoyaltyLedger`): a write-once
  royalty rate per token and the basis-point split of a sale price into
  royalty, marketplace commission (250 bps) and the seller's share. It also
  keeps per-creator balances that royalties are added to and that a
  withdrawal empties.
- **NFT registry** (`nft.dfy`, module `NftRegistry`): only the owner mints,
  and ids come from a counter that only grows. The token's owner may
  transfer or burn it.
- **Profile store** (`profile.dfy`, module `ProfileStore`): create-once
  profiles. Name and bio can be replaced, and the owned-NFT list can be
  appended to.

`responses.dfy` (module `Responses`) holds the shared vocabulary:
- principals as strings;
- the `ok`/`err` response with the source's numeric error codes;
- `Reply`, the pair of new state and response;
- `SameOutside`, which says "every other key is unchanged".

Every ledger has the same structure:
- **Transition functions.** There is one pure function per contract call
  (`Create`, `Bid`, `Finalize`, `Deposit`, …). It maps the old table to a
  `Reply`. Its `ensures` clauses state the call's contract: the order in
  which errors are checked, that a failure changes nothing, exactly which
  fields a success changes, and which invariant it keeps.
- **A class.** The class has the mock's mutable tables as `map` fields
  (`auctionData`, `escrowBalances`, `tokenRoyalties`/`creatorBalances`,
  `tokens`/`lastTokenId`, `userProfiles`). Its methods are written as
  validate-then-commit code and are proved to equal the transition function
  on the old state. Where the ledger has an invariant, `Valid()` states it.
- **Replay lemmas.** A `Call` datatype and `Replay` run any sequence of
  calls. Lemmas proved by induction state history properties: an auction
  record is never deleted and only evolves; a royalty record is write-once;
  a burned NFT id is never reissued; a profile's lists only grow.
- **A test-sequence method.** A method without a contract replays the calls
  of the repository's test file. It asserts the responses the test expects,
  and each assertion is derived from the contracts.

The mock makes fewer checks than a deployed contract would, and the model
follows the mock:
- `createAuction` does not check that the end block lies in the future.
- `finalizeAuction` does not check the `finalized` flag, so finalizing again
  after the end block succeeds again.
- Error code 102 means both "bidding window closed" and "end block not yet
  reached".
- `setRoyalty` does not bound the rate. Above 100% (with the commission),
  the seller's share can be negative. The model returns an `int` and proves it
  non-negative when the rate plus the commission is at most 10000 bps;
  `RoyaltyLedger.SellerShareCanBeNegative` exhibits a negative share.
- The block height is a plain variable that the tests set, even backwards
  (51, then 40). `SetBlockHeight` accepts any height.
  `AuctionEngine.ClosedAuctionFrozen` states what a clock that only moves
  forward guarantees. Without that assumption, a bid can reach an auction
  that is already finalized once the clock is set back below its end block.

## Model

| member | source | states |
|---|---|---|
| AuctionEngine.Create | tests/auction.test.ts:22-33 | success exactly when no auction exists for the id, otherwise err 100 with the table unchanged; a success stores seller = highest bidder = caller, highest bid = start price, the given end block, not finalized, answers the id and leaves other ids alone; keeps bids at or above the start price |
| AuctionEngine.Bid | tests/auction.test.ts:35-44 | errors in order: absent 101, height at or past the end block 102, amount not above the best bid 103; success exactly otherwise, changing only that auction's best bid and bidder, so the best bid strictly rises; failures change nothing; keeps bids at or above the start price |
| AuctionEngine.Finalize | tests/auction.test.ts:46-53 | absent 101, height below the end block 102 (whatever the flag says); success exactly when present and the end block is reached, also when already finalized; success sets only `finalized`; failures change nothing |
| AuctionEngine.ReplayEvolves | tests/auction.test.ts:22-53 | over any sequence of calls an auction is never deleted, its seller, start price and end block never change, its best bid never falls and a finalized auction stays finalized |
| AuctionEngine.ReplayKeepsBidsAtLeastStart | tests/auction.test.ts:22-44 | every auction's best bid stays at or above its start price over any sequence of calls |
| AuctionEngine.ClosedAuctionFrozen | tests/auction.test.ts:35-53 | once the height has reached an auction's end block and the clock never moves back, the record stays as it is except that it may become finalized |
| AuctionEngine.AuctionHouse.constructor | tests/auction.test.ts:11-13 | the table starts empty and the clock at 0 |
| AuctionEngine.AuctionHouse.SetBlockHeight | tests/auction.test.ts:13 | the clock takes the given height; the table is untouched |
| AuctionEngine.AuctionHouse.CreateAuction | tests/auction.test.ts:22-33 | new table and response are those of `Create` on the old table; the invariant is kept |
| AuctionEngine.AuctionHouse.PlaceBid | tests/auction.test.ts:35-44 | new table and response are those of `Bid` at the current height; the invariant is kept |
| AuctionEngine.AuctionHouse.FinalizeAuction | tests/auction.test.ts:46-53 | new table and response are those of `Finalize` at the current height; the invariant is kept |
| EscrowVault.EntryOf | tests/escrow.test.ts:54-56 | the stored entry for the sale id exactly when there is one, none otherwise |
| EscrowVault.Holds | tests/escrow.test.ts:58-60 | funds are held for a sale id exactly when `EntryOf` finds an entry |
| EscrowVault.Deposit | tests/escrow.test.ts:18-26 | success exactly when nothing is held for the sale id, storing buyer = caller, the seller and the amount, after which funds are held; otherwise err 103 with the entry unchanged; other sale ids untouched |
| EscrowVault.Release | tests/escrow.test.ts:28-39 | absent 101, caller neither contract owner nor the entry's buyer 102; success exactly otherwise, removing only that entry so that nothing is held; failures change nothing |
| EscrowVault.Refund | tests/escrow.test.ts:41-52 | absent 101, caller neither contract owner nor the entry's seller 102 (a buyer who is not also the seller or the contract owner is refused); success exactly otherwise, removing only that entry; failures change nothing |
| EscrowVault.OtherSalesUntouched | tests/escrow.test.ts:18-52 | calls on other sale ids never change a sale id's entry, over any sequence of calls |
| EscrowVault.HeldWithoutConsent | tests/escrow.test.ts:28-52 | an entry stays, unchanged, as long as neither the contract owner nor its buyer or seller calls on that sale id |
| EscrowVault.Vault.constructor | tests/escrow.test.ts:15 | the table starts empty |
| EscrowVault.Vault.DepositEscrow | tests/escrow.test.ts:18-26 | new table and response are those of `Deposit` on the old table |
| EscrowVault.Vault.ReleaseToSeller | tests/escrow.test.ts:28-39 | new table and response are those of `Release` on the old table |
| EscrowVault.Vault.RefundBuyer | tests/escrow.test.ts:41-52 | new table and response are those of `Refund` on the old table |
| RoyaltyLedger.Split | tests/royalty.test.ts:32-34 | royalty + commission + seller share equals the sale price exactly; each fee is the price times its basis points divided by 10000, rounded down |
| RoyaltyLedger.SellerShareNonNegative | tests/royalty.test.ts:13-34 | when the royalty rate plus the commission rate is at most 10000 bps the seller's share lies between 0 and the sale price |
| RoyaltyLedger.SellerShareCanBeNegative | tests/royalty.test.ts:19-34 | with no bound on the rate, a 9900 bps royalty plus the 250 bps commission on a price of 10000 leaves the seller -150 |
| RoyaltyLedger.BalanceOf | tests/royalty.test.ts:36-41 | a creator's balance is the stored one, or 0 when none is stored |
| RoyaltyLedger.Configure | tests/royalty.test.ts:19-25 | success exactly when the token has no royalty record, storing creator = caller and the rate and touching nothing else; otherwise err 101 with the record unchanged |
| RoyaltyLedger.Distribute | tests/royalty.test.ts:27-38 | unconfigured token: err 103, nothing changes; otherwise answers the seller share of `Split` with the marketplace commission, adds exactly the royalty to the creator's balance (absent counting as 0), leaves every other balance and all royalty records unchanged, and seller share + royalty + commission equals the price |
| RoyaltyLedger.DistributedShareBounded | tests/royalty.test.ts:13-38 | for a configured token whose rate plus the commission is at most 10000 bps the distribution succeeds with a seller share between 0 and the price |
| RoyaltyLedger.Withdraw | tests/royalty.test.ts:40-47 | success exactly when the caller's balance is positive, answering that balance and setting it to 0; otherwise err 103 with nothing changed; other balances and royalty records unchanged |
| RoyaltyLedger.SecondWithdrawFails | tests/royalty.test.ts:40-47 | right after a successful withdrawal a second one answers err 103 |
| RoyaltyLedger.RoyaltyWriteOnce | tests/royalty.test.ts:19-25 | a royalty record, once stored, is never changed or removed by any sequence of calls |
| RoyaltyLedger.BalanceGrowsUntilWithdrawn | tests/royalty.test.ts:27-47 | over calls that contain no withdrawal by the creator, the creator's balance never falls |
| RoyaltyLedger.Ledger.constructor | tests/royalty.test.ts:12-15 | both tables start empty |
| RoyaltyLedger.Ledger.SetRoyalty | tests/royalty.test.ts:19-25 | new tables and response are those of `Configure` on the old tables |
| RoyaltyLedger.Ledger.DistributeRoyaltyAndCommission | tests/royalty.test.ts:27-38 | new tables and response are those of `Distribute` on the old tables |
| RoyaltyLedger.Ledger.WithdrawCreatorBalance | tests/royalty.test.ts:40-47 | new tables and response are those of `Withdraw` on the old tables |
| NftRegistry.OwnerOf | tests/nft.test.ts:46-49 | the owner exactly when the token exists, err 102 otherwise |
| NftRegistry.MetadataOf | tests/nft.test.ts:65-68 | the metadata exactly when the token exists, err 102 otherwise |
| NftRegistry.LastIssued | tests/nft.test.ts:71-73 | always ok with the counter, which bounds every id in use |
| NftRegistry.Mint | tests/nft.test.ts:23-30 | success exactly when the caller is the contract owner, otherwise err 100 with tokens and counter unchanged; a success raises the counter by one, answers the new id and stores owner = caller and the metadata under it, an id not in use before; keeps every id in 1..counter |
| NftRegistry.Transfer | tests/nft.test.ts:33-43 | absent 102, then caller not owner 101; success exactly otherwise, making the recipient owner and keeping the metadata and every other token; the counter never changes; failures change nothing |
| NftRegistry.Burn | tests/nft.test.ts:52-62 | absent 102, then caller not owner 101; success exactly otherwise, deleting only that token so that owner and metadata queries answer err 102; the counter never changes |
| NftRegistry.ReplayKeepsIdsIssued | tests/nft.test.ts:23-62 | over any sequence of calls every id in use stays in 1..counter and the counter never falls |
| NftRegistry.IdNeverReissued | tests/nft.test.ts:27-62 | an id already issued but not in use (burned) is never in use again |
| NftRegistry.MetadataNeverChanges | tests/nft.test.ts:33-62 | while a token exists it keeps the metadata it was minted with, whoever owns it |
| NftRegistry.Registry.constructor | tests/nft.test.ts:11-12 | no tokens and the counter at 0 |
| NftRegistry.Registry.MintToken | tests/nft.test.ts:23-30 | new tokens, counter and response are those of `Mint`; ids stay issued |
| NftRegistry.Registry.TransferToken | tests/nft.test.ts:33-43 | new tokens, counter and response are those of `Transfer`; ids stay issued |
| NftRegistry.Registry.BurnToken | tests/nft.test.ts:52-62 | new tokens, counter and response are those of `Burn`; ids stay issued |
| ProfileStore.ProfileOf | tests/profile.test.ts:52-54 | the caller's profile exactly when there is one, none otherwise |
| ProfileStore.Create | tests/profile.test.ts:15-28 | success exactly when the caller has no profile, storing the name and bio with four empty lists and touching no other profile; otherwise err 100 with the profile unchanged; no history list changes |
| ProfileStore.Update | tests/profile.test.ts:30-41 | absent profile: err 101, nothing changes; otherwise replaces only name and bio, keeping the owned list, the three history lists and all other profiles |
| ProfileStore.AddOwned | tests/profile.test.ts:43-50 | absent profile: err 101, nothing changes; otherwise appends the token id to the end of the owned list, keeping name, bio, history lists and all other profiles |
| ProfileStore.ProfileOnlyGrows | tests/profile.test.ts:15-50 | over any sequence of calls a profile is never removed, its created, sale and purchase lists never change and its old owned list stays a prefix of the new one |
| ProfileStore.ReplayKeepsHistoriesEmpty | tests/profile.test.ts:15-50 | the created, sale and purchase lists of every profile stay empty over any sequence of calls |
| ProfileStore.Store.constructor | tests/profile.test.ts:11 | the table starts empty |
| ProfileStore.Store.CreateProfile | tests/profile.test.ts:15-28 | new table and response are those of `Create`; history lists stay empty |
| ProfileStore.Store.UpdateProfile | tests/profile.test.ts:30-41 | new table and response are those of `Update`; history lists stay empty |
| ProfileStore.Store.AddOwnedNft | tests/profile.test.ts:43-50 | new table and response are those of `AddOwned`; history lists stay empty |

## Left out

- The vitest test runner (`describe`, `it`, `expect`). Each test file's call sequence is instead replayed by a method without a contract (`AuctionTestSequence`, `EscrowTestSequence`, `RoyaltyTestSequence`, `NftTestSequence`, `ProfileTestSequence`), whose assertions are proved from the contracts.
- The Clarity value wrappers (`uint`, `principal`, `bool`, `stringAscii`, `stringUtf8`). Principals and strings are `string`, and amounts, ids and heights are `nat`.
- NftRegistry.IdNeverReissued: holds in the mock only while ids stay below 2^53. The mock computes with JavaScript numbers, whose integers are exact only up to 2^53; past that, `++lastTokenId` stops advancing and `NftRegistry.Mint` would overwrite an id in use. The model's integers are unbounded, so ids, amounts, balances and heights never lose precision or overflow (nor reach a deployed contract's 128-bit `uint` bound).
- The STX transfers of the escrow vault: the source only mentions them in comments, so the vault keeps bookkeeping only.
- The unused state: `nftContract` in the auction mock, and `tokens` and `lastTokenId` in the royalty mock.
- JavaScript's floating-point division in the royalty split. It is modelled as integer division rounded down, as Clarity's `uint` division does. The repository's worked example (10000 at 1000 bps and 250 bps) gives the same result either way.
- Principals compared by object reference in the escrow mock: identities are compared by value.
- Records updated in place (the auction's fields, the profile's `ownedNfts.push`): a record is a value, and an update replaces it in its table. The aliasing this drops is that a profile object returned earlier by `getProfile` would see a later push in JavaScript.
- The JavaScript object and Map keys: keys are `nat` or `string`, and lookups are map membership. A stored record always exists in the model, which matches the source's truthiness tests on stored records.
