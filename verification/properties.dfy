/**
 * Properties that relate several calls: round trips, repeated calls,
 * custody conservation over a run, and the scenarios of the integration
 * tests, all over the code as written.
 */
module Properties {
  import opened Wrappers
  import opened Numeric
  import opened Storage
  import opened Msg
  import opened Contract
  import opened Queries

  /** Depositing `a` and then withdrawing `a` restores the custody balance and count. */
  lemma Cw20DepositThenWithdrawRestores(s: State, owner: string, contract: string, a: U128)
    requires ExecuteCw20Deposit(s, MessageInfo(contract), owner, a).Success?
    ensures var s1 := ExecuteCw20Deposit(s, MessageInfo(contract), owner, a).value.state;
      var r := ExecuteCw20Withdraw(s1, MessageInfo(owner), contract, a);
      && r.Success?
      && r.value.messages == [Cw20Transfer(contract, owner, a)]
      && Balance(r.value.state, (owner, contract)) == Balance(s, (owner, contract))
      && Count(r.value.state, (owner, contract)) == Count(s, (owner, contract))
      && r.value.state.cw20Deposits - {(owner, contract)} == s.cw20Deposits - {(owner, contract)}
  {
  }

  /**
   * Depositing an NFT that nobody holds and withdrawing it again returns
   * the NFT to its owner and restores the store exactly.
   */
  lemma Cw721DepositThenWithdrawRestores(s: State, info: MessageInfo, owner: string, tokenId: string,
                                         cw20Contract: string, amount: U128)
    requires (info.sender, tokenId) !in s.asks
    requires ExecuteCw721Deposit(s, info, owner, tokenId, cw20Contract, amount).Success?
    ensures var s1 := ExecuteCw721Deposit(s, info, owner, tokenId, cw20Contract, amount).value.state;
      ExecuteCw721Withdraw(s1, MessageInfo(owner), info.sender, tokenId)
        == Success(Commit(s, [NftTransfer(info.sender, owner, tokenId)]))
  {
    var s1 := ExecuteCw721Deposit(s, info, owner, tokenId, cw20Contract, amount).value.state;
    var s2 := ExecuteCw721Withdraw(s1, MessageInfo(owner), info.sender, tokenId).value.state;
    assert s2.cw721Deposits == s.cw721Deposits;
    assert s2.asks == s.asks;
  }

  /**
   * Placing a bid on an NFT without a standing bid and withdrawing it again
   * refunds the bid in full and restores the store exactly.
   */
  lemma PlaceBidThenWithdrawRestores(s: State, info: MessageInfo, cw721Contract: string, tokenId: string,
                                     msg: Cw20ReceiveMsg)
    requires (cw721Contract, tokenId) !in s.bids
    requires ExecutePlaceBid(s, info, cw721Contract, tokenId, msg).Success?
    ensures var s1 := ExecutePlaceBid(s, info, cw721Contract, tokenId, msg).value.state;
      ExecuteWithdrawBid(s1, MessageInfo(msg.sender), cw721Contract, tokenId)
        == Success(Commit(s, [Cw20Transfer(info.sender, msg.sender, msg.amount)]))
  {
    var s1 := ExecutePlaceBid(s, info, cw721Contract, tokenId, msg).value.state;
    var s2 := ExecuteWithdrawBid(s1, MessageInfo(msg.sender), cw721Contract, tokenId).value.state;
    assert s2.bids == s.bids;
  }

  /** A successful bid withdrawal cannot be repeated: the second one finds no bid. */
  lemma WithdrawBidTwiceFails(s: State, info: MessageInfo, contract: string, tokenId: string)
    requires ExecuteWithdrawBid(s, info, contract, tokenId).Success?
    ensures var s1 := ExecuteWithdrawBid(s, info, contract, tokenId).value.state;
      ExecuteWithdrawBid(s1, info, contract, tokenId) == Failure(NoBidToWithdraw)
  {
  }

  /** After a purchase, the seller can no longer withdraw the NFT it sold. */
  lemma PurchaseThenSellerWithdrawFails(s: State, info: MessageInfo, cw721Contract: string, tokenId: string,
                                        msg: Cw20ReceiveMsg)
    requires ExecutePurchase(s, info, cw721Contract, tokenId, msg).Success?
    ensures var seller := s.asks[(cw721Contract, tokenId)].owner;
      var s1 := ExecutePurchase(s, info, cw721Contract, tokenId, msg).value.state;
      ExecuteCw721Withdraw(s1, MessageInfo(seller), cw721Contract, tokenId) == Failure(NoCw721ToWithdraw)
  {
  }

  /**
   * A bid standing on an NFT survives its purchase: the bid is not cleared,
   * and its bidder can still withdraw it for a full refund.
   */
  lemma BidSurvivesPurchase(s: State, info: MessageInfo, cw721Contract: string, tokenId: string,
                            msg: Cw20ReceiveMsg)
    requires ExecutePurchase(s, info, cw721Contract, tokenId, msg).Success?
    requires (cw721Contract, tokenId) in s.bids
    ensures var bid := s.bids[(cw721Contract, tokenId)];
      var s1 := ExecutePurchase(s, info, cw721Contract, tokenId, msg).value.state;
      var r := ExecuteWithdrawBid(s1, MessageInfo(bid.bidder), cw721Contract, tokenId);
      && QueryBids(s1, cw721Contract, tokenId) == Some(bid)
      && r.Success?
      && r.value.messages == [Cw20Transfer(bid.cw20Contract, bid.bidder, bid.amount)]
  {
  }

  /** A bid is accepted on an NFT that is not listed at all. */
  lemma BidNeedsNoListing(s: State, info: MessageInfo, cw721Contract: string, tokenId: string, msg: Cw20ReceiveMsg)
    requires (cw721Contract, tokenId) !in s.asks
    requires (info.sender, tokenId) !in s.bids
    ensures var r := ExecutePlaceBid(s, info, cw721Contract, tokenId, msg);
      r.Success? && QueryBids(r.value.state, cw721Contract, tokenId).Some?
  {
  }

  /** One fungible custody step of a fixed (owner, cw20 contract) pair. */
  datatype CoinStep = Credit(amount: U128) | Debit(amount: U128)

  /**
   * Runs the steps in order: a credit is the cw20 contract's deposit
   * notification, a debit is the owner's withdrawal. The first failure
   * aborts the run.
   */
  function RunCoinSteps(s: State, owner: string, contract: string, steps: seq<CoinStep>): Result<State, ContractError>
    decreases |steps|
  {
    if |steps| == 0 then Success(s)
    else
      var r := match steps[0]
        case Credit(a) => ExecuteCw20Deposit(s, MessageInfo(contract), owner, a)
        case Debit(a) => ExecuteCw20Withdraw(s, MessageInfo(owner), contract, a);
      match r
      case Success(commit) => RunCoinSteps(commit.state, owner, contract, steps[1..])
      case Failure(e) => Failure(e)
  }

  /** Credited minus debited amount. */
  function NetFlow(steps: seq<CoinStep>): int
    decreases |steps|
  {
    if |steps| == 0 then 0
    else (if steps[0].Credit? then steps[0].amount as int else -(steps[0].amount as int)) + NetFlow(steps[1..])
  }

  /** Number of credits minus number of debits. */
  function NetSteps(steps: seq<CoinStep>): int
    decreases |steps|
  {
    if |steps| == 0 then 0
    else (if steps[0].Credit? then 1 else -1) + NetSteps(steps[1..])
  }

  /**
   * Conservation: after any successful run, the custody balance is the
   * initial one plus credits minus debits, the count moved by one per step,
   * and nothing else in the store changed.
   */
  lemma {:induction false} CoinConservation(s: State, owner: string, contract: string, steps: seq<CoinStep>)
    ensures var r := RunCoinSteps(s, owner, contract, steps);
      r.Success? ==>
        && Balance(r.value, (owner, contract)) == Balance(s, (owner, contract)) + NetFlow(steps)
        && Count(r.value, (owner, contract)) == Count(s, (owner, contract)) + NetSteps(steps)
        && r.value.cw20Deposits - {(owner, contract)} == s.cw20Deposits - {(owner, contract)}
        && r.value.cw721Deposits == s.cw721Deposits
        && r.value.bids == s.bids
        && r.value.asks == s.asks
    decreases |steps|
  {
    if |steps| > 0 {
      var r := match steps[0]
        case Credit(a) => ExecuteCw20Deposit(s, MessageInfo(contract), owner, a)
        case Debit(a) => ExecuteCw20Withdraw(s, MessageInfo(owner), contract, a);
      if r.Success? {
        CoinConservation(r.value.state, owner, contract, steps[1..]);
      }
    }
  }

  /** The deposit counter is signed: two withdrawals after one deposit leave it at -1. */
  lemma CountMayGoNegative()
    ensures var r := RunCoinSteps(Empty, "alice", "tkn", [Credit(10), Debit(4), Debit(6)]);
      r.Success? && r.value.cw20Deposits[("alice", "tkn")] == Cw20Deposits(-1, "alice", "tkn", 0)
  {
  }

  /** A first deposit of 500 creates the record {count 1, amount 500} and shows up in the owner's listing. */
  method Cw20DepositScenario() returns (deposits: seq<(string, Cw20Deposits)>)
    ensures deposits == [("tkn", Cw20Deposits(1, "user", "tkn", 500))]
  {
    var r := Execute(Empty, MessageInfo("tkn"), Receive(Cw20ReceiveMsg("user", 500, Deposit("user", 500))));
    var s := r.value.state;
    assert s.cw20Deposits == map[("user", "tkn") := Cw20Deposits(1, "user", "tkn", 500)];
    deposits := QueryCw20Deposits(s, "user");
    assert KeyOrder.KeysOf(deposits) == {"tkn"};
    assert |deposits| == 1 by {
      if |deposits| > 1 {
        assert deposits[0].0 == "tkn" && deposits[1].0 == "tkn";
        KeyOrder.BelowIrreflexive("tkn");
        assert false;
      }
      KeyOrder.FirstKeyListed(deposits);
    }
  }

  /**
   * NFT 0 is deposited at ask 500, a bid of 200 is placed on it and then
   * withdrawn: the refund is 200 to the bidder, no bid remains, and a second
   * withdrawal fails.
   */
  lemma BidLifecycleScenario()
    ensures var user := "user";
      var s0 := Transact(Empty, MessageInfo("nft"),
        ReceiveNft(Cw721ReceiveMsg(user, "0", DepositNft(user, "0", "tkn", 500))));
      var s1 := Transact(s0, MessageInfo("tkn"),
        Receive(Cw20ReceiveMsg(user, 200, PlaceBid("nft", "0"))));
      var r := Execute(s1, MessageInfo(user), WithdrawBid("nft", "0"));
      && QueryBids(s1, "nft", "0") == Some(Bid(user, "nft", "0", "tkn", 200))
      && r.Success?
      && r.value.messages == [Cw20Transfer("tkn", user, 200)]
      && QueryBids(r.value.state, "nft", "0") == None
      && Execute(r.value.state, MessageInfo(user), WithdrawBid("nft", "0")) == Failure(NoBidToWithdraw)
      && r.value.state.asks[("nft", "0")] == Offer(user, "nft", "0", "tkn", 500)
  {
  }

  /** A bid at or above the ask is refused; the buyer must purchase instead. */
  lemma BidAtAskRefused()
    ensures var s0 := Transact(Empty, MessageInfo("nft"),
        ReceiveNft(Cw721ReceiveMsg("alice", "0", DepositNft("alice", "0", "tkn", 500))));
      Execute(s0, MessageInfo("tkn"), Receive(Cw20ReceiveMsg("carol", 500, PlaceBid("nft", "0"))))
        == Failure(CustomError(BidNotBelowAsk))
  {
  }

  /**
   * NFT 0 is deposited at ask 500 and bought for 500: its custody record and
   * ask are gone and the NFT is sent to the buyer.
   */
  lemma PurchaseScenario()
    ensures var s0 := Transact(Empty, MessageInfo("nft"),
        ReceiveNft(Cw721ReceiveMsg("alice", "0", DepositNft("alice", "0", "tkn", 500))));
      var r := Execute(s0, MessageInfo("tkn"), Receive(Cw20ReceiveMsg("bob", 500, Purchase("nft", "0"))));
      && r.Success?
      && r.value.messages == [NftTransfer("nft", "bob", "0")]
      && r.value.state.asks == map[]
      && r.value.state.cw721Deposits == map[]
  {
  }

  /**
   * An NFT deposit records the token id and owner named in the hook
   * payload; the sender and token id of the cw721 notification itself are
   * never consulted.
   */
  lemma NftDepositIgnoresNotification(s: State, info: MessageInfo, m1: Cw721ReceiveMsg, m2: Cw721ReceiveMsg)
    requires m1.msg == m2.msg
    ensures ReceiveCw721(s, info, m1) == ReceiveCw721(s, info, m2)
  {
  }
}
