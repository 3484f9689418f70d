# deposit-cw20: escrow and NFT marketplace state machine

This project is a Dafny model of the `deposit-cw20` CosmWasm contract. The
contract holds cw20 (fungible) tokens and cw721 NFTs in custody. Depositing an
NFT lists it for sale (an *ask*) at a price in some cw20 token. Other accounts
can buy it at exactly that price, or place a *bid* below it and withdraw that
bid later.

The whole contract state is four storage maps:

- `CW20_DEPOSITS`, keyed by (owner, cw20 contract);
- `CW721_DEPOSITS`, keyed by (cw721 contract, owner, token id);
- `ASKS` and `BIDS`, both keyed by (cw721 contract, token id).

In the model, `Storage.State` holds these maps as four Dafny `map`s. Each
transition is a pure function that returns either `Commit(state, messages)`
or a `ContractError`. An `unwrap` of a failed `checked_add`/`checked_sub`
becomes the error `Panic`. `Contract.Transact` models the host: it commits
the new state on success and rolls back to the old state on any error or
panic. Outbound `WasmMsg`s are the abstract `Msg.OutMsg`, either a
`Cw20Transfer` or an `NftTransfer`.

The dispatch follows the code as written. The module `Findings` also holds
corrected versions of three transitions. Nothing else in the model uses those
corrected versions.

Modules, one per concern:

- `Wrappers`: `Option` and `Result`.
- `Numeric`: `u128`/`i32` ranges and the checked arithmetic.
- `Storage`: the records and maps (`state.rs`).
- `Msg`: decoded messages and outbound messages (`msg.rs`).
- `Contract`: the seven transitions and the dispatch.
- `KeyOrder`: the ascending key order of a range scan.
- `Queries`: the three queries.
- `Invariants`: the per-item ask/custody invariant.
- `Properties`: multi-call properties and the test scenarios.
- `Findings`: the three defects found.

Notable behaviour of the code, which the model keeps:

- Withdrawing more cw20 tokens than the balance panics (`unwrap` of `checked_sub`). An overflow of the balance or of the counter panics too (`unwrap` of `checked_add`).
- A purchase does not remove the bid standing on the item. An NFT withdrawal does not remove it either.
- The "bid must exceed the current bid" check reads `BIDS` at (cw20 contract, token id). The bid is written at (cw721 contract, token id).
- A bid does not need an ask: with no ask, the price check is skipped.
- `count` is an `i32` and can go negative through withdrawals. Only leaving the `i32` range panics.
- The cw20 withdrawal exists, but `execute` never dispatches to it.

`Contract.Transact` is the model's definition of the host. It commits a successful call's state and keeps the old state after an error or panic. `Invariants.TransactPreservesInv` covers both cases. The contract of `Contract.Transact` itself states that no call, committed or rolled back, lowers a cw20 custody balance.

## Model

| member | source | states |
|---|---|---|
| Contract.ExecuteCw20Deposit | contracts/deposit-cw20/src/contract.rs:162-192 | Succeeds iff the (owner, cw20 contract) record is new, or adding keeps the amount within u128 and the count within i32; otherwise it panics. A new record is {count 1, amount}. An existing record gains the amount, and its count goes up by one. No other record or map changes, and no message is emitted |
| Contract.ExecuteCw20Withdraw | contracts/deposit-cw20/src/contract.rs:194-221 | With no record at (caller, contract), it fails `NoCw20ToWithdraw`. It panics when the amount exceeds the balance or the count would leave i32. On success it subtracts the amount and decrements the count. Nothing else changes, and exactly one cw20 transfer of the amount goes to the caller |
| Contract.ExecuteCw721Deposit | contracts/deposit-cw20/src/contract.rs:223-255 | Fails "Already deposited" iff (cw721, owner, token id) is held. On success it adds exactly that custody record and sets the ask at (cw721, token id) to {owner, amount, cw20 contract}. The new ask replaces any previous ask there. Other asks, cw20 records and bids are unchanged, and no message is emitted |
| Contract.ExecuteCw721Withdraw | contracts/deposit-cw20/src/contract.rs:257-276 | Fails `NoCw721ToWithdraw` iff the caller holds no such deposit. On success it removes exactly that deposit and the ask at (contract, token id), and leaves bids and cw20 records unchanged. It emits one NFT transfer to the caller |
| Contract.ExecutePurchase | contracts/deposit-cw20/src/contract.rs:79-100 | With no ask, it fails "No such ask". Otherwise it succeeds iff the paid amount equals the ask amount, and fails "Invalid amount" when it does not. On success neither the ask nor the seller's custody record remains, and bids and cw20 records are unchanged. It emits exactly one NFT transfer, to the buyer. The paying cw20 contract is never compared with the ask's |
| Contract.ExecutePlaceBid | contracts/deposit-cw20/src/contract.rs:102-134 | Succeeds iff the bid is below the ask when an ask exists, and above the bid at (paying cw20 contract, token id) when one exists there. The error distinguishes the two failures. On success the bid at (cw721, token id) is exactly the new bid, replacing any earlier one. Nothing else changes, and no message is emitted |
| Contract.ExecuteWithdrawBid | contracts/deposit-cw20/src/contract.rs:136-160 | With no bid it fails `NoBidToWithdraw`. Otherwise it succeeds iff the caller is the bidder, and fails "Unauthorized" when not. On success it removes only the bid and refunds the bid amount, in the bid's cw20 contract, to the bidder |
| Contract.ReceiveCw20 | contracts/deposit-cw20/src/contract.rs:53-65 | A cw20 notification succeeds only with a decodable hook. On success it never pays cw20 tokens out: its only outbound message is an NFT transfer to the payer. It never adds NFT custody |
| Contract.ReceiveCw721 | contracts/deposit-cw20/src/contract.rs:67-77 | A cw721 notification succeeds only as a decoded NFT deposit. It emits no message, and it leaves the hook's owner holding (caller, owner, token id) and owning the ask at (caller, token id) |
| Contract.Transact | contracts/deposit-cw20/src/contract.rs:29-42 | Whether the call is committed or rolled back, every cw20 custody record survives and its balance does not drop |
| Contract.Execute | contracts/deposit-cw20/src/contract.rs:29-42 | No message reaches the cw20 withdrawal. So no successful call lowers or removes a cw20 custody balance, and the only cw20 tokens a call pays out are bid refunds |
| Queries.Cw20Prefix | contracts/deposit-cw20/src/contract.rs:279-280 | The prefix of the cw20 map under an owner: contract c is present iff (owner, c) is stored, and maps to that record |
| Queries.Cw721Prefix | contracts/deposit-cw20/src/contract.rs:288-289 | The prefix of the NFT map under (contract, owner): token t is present iff (contract, owner, t) is stored, and maps to that record |
| Queries.QueryCw20Deposits | contracts/deposit-cw20/src/contract.rs:278-285 | Returns exactly the owner's cw20 records, each with its contract, strictly ascending by contract |
| Queries.QueryCw721Deposits | contracts/deposit-cw20/src/contract.rs:287-294 | Returns exactly the owner's NFT records in the collection, each with its token id, strictly ascending by token id |
| Queries.QueryBids | contracts/deposit-cw20/src/contract.rs:296-299 | Returns the bid at (cw721, token id) if there is one, and none otherwise |
| Queries.Cw20ListingUnique | contracts/deposit-cw20/src/contract.rs:278-285 | Any two answers meeting the cw20 query's contract are equal, so the answer is fully determined by the state |
| Queries.Cw721ListingUnique | contracts/deposit-cw20/src/contract.rs:287-294 | Any two answers meeting the NFT query's contract are equal |
| KeyOrder.Insert | contracts/deposit-cw20/src/contract.rs:281 | Inserting a new key into a strictly ascending listing keeps it strictly ascending and adds exactly that key and entry |
| KeyOrder.RangeAscending | contracts/deposit-cw20/src/contract.rs:281 | Collects a map into a strictly ascending listing with exactly its keys, each paired with its own value |
| KeyOrder.AscendingListingUnique | contracts/deposit-cw20/src/contract.rs:281 | Two strictly ascending listings with the same keys, whose entries come from the same map, are equal |
| Invariants.EmptyInv | contracts/deposit-cw20/src/state.rs:40-49 | The empty store, with all four maps empty, satisfies the invariant. With `TransactPreservesInv` this covers every state reachable under the deposit proviso |
| Invariants.AtMostOneDepositor | contracts/deposit-cw20/src/state.rs:43-49 | While every custody record is listed under its owner, a (cw721, token id) has at most one depositor |
| Invariants.AskIffDeposit | contracts/deposit-cw20/src/state.rs:43-49 | While the listing invariant holds, an ask exists at (cw721, token id) iff some owner holds that NFT in custody |
| Invariants.Cw20DepositPreservesInv | contracts/deposit-cw20/src/contract.rs:162-192 | A cw20 deposit keeps records consistent with their keys and every NFT listed |
| Invariants.Cw20WithdrawPreservesInv | contracts/deposit-cw20/src/contract.rs:194-221 | A cw20 withdrawal keeps the invariant |
| Invariants.Cw721DepositPreservesInv | contracts/deposit-cw20/src/contract.rs:223-255 | An NFT deposit keeps the invariant, provided no other owner already holds that (cw721, token id) |
| Invariants.Cw721WithdrawPreservesInv | contracts/deposit-cw20/src/contract.rs:257-276 | An NFT withdrawal keeps the invariant |
| Invariants.PurchasePreservesInv | contracts/deposit-cw20/src/contract.rs:79-100 | A purchase keeps the invariant |
| Invariants.PlaceBidPreservesInv | contracts/deposit-cw20/src/contract.rs:102-134 | Placing a bid keeps the invariant |
| Invariants.WithdrawBidPreservesInv | contracts/deposit-cw20/src/contract.rs:136-160 | Withdrawing a bid keeps the invariant |
| Invariants.TransactPreservesInv | contracts/deposit-cw20/src/contract.rs:36-41 | Every call through `execute`, committed or rolled back, keeps the invariant, provided no NFT deposit names an NFT another owner already holds |
| Invariants.SecondDepositorBreaksListing | contracts/deposit-cw20/src/contract.rs:227-248 | Suppose a second owner deposits the same (cw721, token id). That deposit succeeds, and its ask replaces the first owner's, leaving the first custody record unlisted |
| Properties.Cw20DepositThenWithdrawRestores | contracts/deposit-cw20/src/contract.rs:162-221 | Suppose the deposit of a succeeds. The withdrawal of a then succeeds and pays a back to the owner. It restores the balance and the count, and leaves every other cw20 record as it was |
| Properties.Cw721DepositThenWithdrawRestores | contracts/deposit-cw20/src/contract.rs:223-276 | Suppose an NFT deposit succeeds where no ask is stored for that NFT. The depositor's withdrawal then succeeds, sends the NFT back to them, and restores the store exactly |
| Properties.PlaceBidThenWithdrawRestores | contracts/deposit-cw20/src/contract.rs:102-160 | Suppose a bid succeeds where no bid is stored for that NFT. The bidder's withdrawal then succeeds, refunds the full amount in the paying token, and restores the store exactly |
| Properties.WithdrawBidTwiceFails | contracts/deposit-cw20/src/contract.rs:143-155 | Right after a successful bid withdrawal, the same withdrawal fails `NoBidToWithdraw` |
| Properties.PurchaseThenSellerWithdrawFails | contracts/deposit-cw20/src/contract.rs:89-90 | After a purchase, the seller's NFT withdrawal fails `NoCw721ToWithdraw` |
| Properties.BidSurvivesPurchase | contracts/deposit-cw20/src/contract.rs:89-90 | A bid standing on the purchased NFT is still stored afterwards, and its bidder can still withdraw it for a full refund |
| Properties.BidNeedsNoListing | contracts/deposit-cw20/src/contract.rs:105-112 | A bid on an NFT with no ask, and no bid at the checked key, is accepted and stored |
| Properties.CoinConservation | contracts/deposit-cw20/src/contract.rs:165-205 | After any successful run of deposits and withdrawals on one (owner, contract), the balance is the initial balance plus credits minus debits. The count moves by one per step, and nothing else in the store changes |
| Properties.CountMayGoNegative | contracts/deposit-cw20/src/contract.rs:205 | One deposit followed by two withdrawals that empty the balance leaves count -1, without a panic |
| Properties.Cw20DepositScenario | contracts/deposit-cw20/src/integration_tests.rs:162-187 | A first deposit of 500 makes the owner's cw20 listing exactly [(contract, {count 1, amount 500})] |
| Properties.BidLifecycleScenario | contracts/deposit-cw20/src/integration_tests.rs:189-240 | Deposit NFT 0 at 500, then bid 200: the bid is stored. Withdrawing it refunds 200 to the bidder, no bid remains, a second withdrawal fails, and the ask stays |
| Properties.BidAtAskRefused | contracts/deposit-cw20/src/contract.rs:105-109 | A bid equal to the ask fails with the "purchase instead" error |
| Properties.PurchaseScenario | contracts/deposit-cw20/src/contract.rs:79-100 | Deposit NFT 0 at 500, then buy it for 500: no ask and no custody record remain, and the NFT goes to the buyer |
| Properties.NftDepositIgnoresNotification | contracts/deposit-cw20/src/contract.rs:73-74 | The outcome of an NFT notification depends only on its hook payload, never on the notification's own sender or token id |
| Findings.LowerBidReplacesHigher | contracts/deposit-cw20/src/contract.rs:114-130 | As written, a bid of 150 is accepted over a standing bid of 200 on the same NFT and replaces it |
| Findings.ExecutePlaceBidFixed | contracts/deposit-cw20/src/contract.rs:102-134 | With the check on the written key, a bid succeeds iff it is below the ask and above the standing bid on that item. Each accepted bid strictly raises the stored bid, and nothing else changes |
| Findings.PlaceBidFixedAgrees | contracts/deposit-cw20/src/contract.rs:114-130 | The code as written and the fix coincide when the paying cw20 contract's address equals the cw721 contract's |
| Findings.LowerBidRefusedWhenFixed | contracts/deposit-cw20/src/contract.rs:114-121 | With the fix, the lower bid of the first finding is refused |
| Findings.PurchaseWithAnyToken | contracts/deposit-cw20/src/contract.rs:79-94 | As written, 500 units of an unrelated cw20 token buy an NFT listed at 500 of another token, and no cw20 transfer reaches the seller |
| Findings.ExecutePurchaseFixed | contracts/deposit-cw20/src/contract.rs:79-100 | The fix succeeds iff an ask exists, is paid in its own token, and is paid its exact amount. It pays the seller the ask in that token, sends the NFT to the buyer, and clears the ask and the custody record |
| Findings.PurchaseFixedRefines | contracts/deposit-cw20/src/contract.rs:79-100 | Whenever the fixed purchase succeeds, the code as written succeeds with the same new state |
| Findings.DepositCreditsClaimedAmount | contracts/deposit-cw20/src/contract.rs:60 | As written, a cw20 deposit's outcome does not depend on the transferred amount or its sender. A transfer of 1 that claims 1000000 is credited 1000000 |
| Findings.ReceiveCw20Fixed | contracts/deposit-cw20/src/contract.rs:53-65 | With the fix, a successful deposit raises the owner's balance by exactly the transferred amount. Other hooks behave as written |

## Findings

| source | as written | input that shows it | evidently intended | confidence | as-written member | corrected member |
|---|---|---|---|---|---|---|
| contracts/deposit-cw20/src/contract.rs:114 | The standing-bid check reads `BIDS` at (paying cw20 contract, token id). The bid is written at (cw721 contract, token id), line 130 | Ask 500 and bid 200 on ("nft", "0") in "tkn". Carol then bids 150 via "tkn": the check finds nothing at ("tkn", "0"), and 150 replaces 200 | Check the bid at (cw721 contract, token id), so that each accepted bid strictly exceeds the previous one | high, not executed | Findings.LowerBidReplacesHigher | Findings.ExecutePlaceBidFixed |
| contracts/deposit-cw20/src/contract.rs:79-94 | A purchase compares only the amount with the ask. It never checks the paying cw20 contract (the caller) and never forwards the payment to the seller | NFT listed at 500 "tkn", bought with 500 "fake" tokens: the purchase succeeds and the seller receives nothing | Accept only the ask's cw20 contract and transfer the payment to the ask's owner | high, not executed | Findings.PurchaseWithAnyToken | Findings.ExecutePurchaseFixed |
| contracts/deposit-cw20/src/contract.rs:60 | A cw20 deposit credits the amount named in the hook payload, not the amount transferred (`cw20_msg.amount`) | A transfer of 1 "tkn" whose payload claims 1000000 credits 1000000 | Credit the transferred amount | high, not executed | Findings.DepositCreditsClaimedAmount | Findings.ReceiveCw20Fixed |

## Left out

- `instantiate` and `set_contract_version` (contracts/deposit-cw20/src/contract.rs:18-27): host wiring with no state of the four maps.
- JSON/binary decoding (`from_binary`, `to_binary`) and the schema types. Hook payloads are modelled as already decoded, with one `Undecodable` case each. The `?` on `to_binary` of outbound messages cannot fail for these records, so it is not modelled.
- `Response` attributes: logging only.
- Failures of the storage backend behind `.save(..).unwrap()` and of the range scan behind the queries' `res?`. Storage reads and writes are assumed to succeed.
- The external cw20 and cw721 contracts. Outbound messages are data, and whether the external contract executes them is not modelled.
- `contracts/deposit-cw20/src/error.rs`, which defines `ContractError`, is not part of this model. Its variants are inferred from their uses in contract.rs.
- The cw-multi-test integration tests, `examples/schema.rs` and the empty unit tests in contract.rs: they drive the contract or export its schema, and hold no contract logic. Two integration-test scenarios are restated in `Properties`.
- The NFT deposit records the token id and owner from the hook payload rather than from the cw721 notification. This is stated in `Properties.NftDepositIgnoresNotification`, but not corrected: the evidently intended owner is unclear, because the hook may deliberately deposit on someone else's behalf.
