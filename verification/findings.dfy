/**
 * Three places where the code as written departs from what it evidently
 * means to do. For each: a lemma exhibiting the departure on the model of
 * the code (module `Contract`), and a corrected transition with the
 * intended property proved of it.
 */
module Findings {
  import opened Wrappers
  import opened Storage
  import opened Msg
  import opened Contract
  import opened Queries

  /** Marketplace with NFT 0 of "nft" listed by alice at 500 "tkn", and bob's bid of 200 "tkn" on it. */
  function ListedWithBid(): State
  {
    var s0 := Transact(Empty, MessageInfo("nft"),
      ReceiveNft(Cw721ReceiveMsg("alice", "0", DepositNft("alice", "0", "tkn", 500))));
    Transact(s0, MessageInfo("tkn"), Receive(Cw20ReceiveMsg("bob", 200, PlaceBid("nft", "0"))))
  }

  // ---------------------------------------------------------------------
  // 1. The "must exceed the current bid" check reads the wrong key.

  /**
   * As written, carol's bid of 150 replaces bob's standing bid of 200: the
   * check looks for a bid at ("tkn", "0"), where none is ever stored.
   */
  lemma LowerBidReplacesHigher()
    ensures var s := ListedWithBid();
      var r := Execute(s, MessageInfo("tkn"), Receive(Cw20ReceiveMsg("carol", 150, PlaceBid("nft", "0"))));
      && QueryBids(s, "nft", "0") == Some(Bid("bob", "nft", "0", "tkn", 200))
      && r.Success?
      && QueryBids(r.value.state, "nft", "0") == Some(Bid("carol", "nft", "0", "tkn", 150))
  {
  }

  /** Bid placement that checks the standing bid on the key it then overwrites. */
  function ExecutePlaceBidFixed(s: State, info: MessageInfo, cw721Contract: string, tokenId: string,
                                msg: Cw20ReceiveMsg): (r: Outcome)
    ensures var key := (cw721Contract, tokenId);
      r.Success? <==>
        && (key in s.asks ==> msg.amount < s.asks[key].amount)
        && (key in s.bids ==> msg.amount > s.bids[key].amount)
    ensures r.Success? ==>
      var key := (cw721Contract, tokenId);
      var t := r.value.state;
      && r.value.messages == []
      && key in t.bids
      && t.bids[key].amount == msg.amount
      && (key in s.bids ==> t.bids[key].amount > s.bids[key].amount)
      && t.bids - {key} == s.bids - {key}
      && t.asks == s.asks && t.cw20Deposits == s.cw20Deposits && t.cw721Deposits == s.cw721Deposits
  {
    var key := (cw721Contract, tokenId);
    if key in s.asks && msg.amount >= s.asks[key].amount then
      Failure(CustomError(BidNotBelowAsk))
    else if key in s.bids && msg.amount <= s.bids[key].amount then
      Failure(CustomError(BidNotAboveBid))
    else
      Success(Commit(s.(bids := s.bids[key := Bid(msg.sender, cw721Contract, tokenId, info.sender, msg.amount)]), []))
  }

  /** The two agree whenever the paying cw20 contract has the NFT collection's address. */
  lemma PlaceBidFixedAgrees(s: State, info: MessageInfo, cw721Contract: string, tokenId: string, msg: Cw20ReceiveMsg)
    requires info.sender == cw721Contract
    ensures ExecutePlaceBid(s, info, cw721Contract, tokenId, msg) == ExecutePlaceBidFixed(s, info, cw721Contract, tokenId, msg)
  {
  }

  /** With the fix, carol's lower bid is refused. */
  lemma LowerBidRefusedWhenFixed()
    ensures ExecutePlaceBidFixed(ListedWithBid(), MessageInfo("tkn"), "nft", "0", Cw20ReceiveMsg("carol", 150, PlaceBid("nft", "0")))
      == Failure(CustomError(BidNotAboveBid))
  {
  }

  // ---------------------------------------------------------------------
  // 2. A purchase never checks the payment token and never pays the seller.

  /**
   * As written, 500 units of any cw20 contract ("fake") buy an NFT listed
   * at 500 "tkn", and alice, the seller, is paid nothing.
   */
  lemma PurchaseWithAnyToken()
    ensures var r := Execute(ListedWithBid(), MessageInfo("fake"),
        Receive(Cw20ReceiveMsg("mallory", 500, Purchase("nft", "0"))));
      && r.Success?
      && r.value.messages == [NftTransfer("nft", "mallory", "0")]
      && (forall m :: m in r.value.messages ==> !m.Cw20Transfer?)
  {
  }

  const InvalidPaymentToken: string := "Invalid payment token"

  /** Purchase that accepts only the ask's token and forwards the payment to the seller. */
  function ExecutePurchaseFixed(s: State, info: MessageInfo, cw721Contract: string, tokenId: string,
                                msg: Cw20ReceiveMsg): (r: Outcome)
    ensures var key := (cw721Contract, tokenId);
      r.Success? <==>
        key in s.asks && info.sender == s.asks[key].cw20Contract && msg.amount == s.asks[key].amount
    ensures r.Success? ==>
      var ask := s.asks[(cw721Contract, tokenId)];
      var t := r.value.state;
      && Cw20Transfer(ask.cw20Contract, ask.owner, ask.amount) in r.value.messages
      && NftTransfer(cw721Contract, msg.sender, tokenId) in r.value.messages
      && |r.value.messages| == 2
      && (cw721Contract, tokenId) !in t.asks
      && (cw721Contract, ask.owner, tokenId) !in t.cw721Deposits
  {
    var key := (cw721Contract, tokenId);
    if key !in s.asks then
      Failure(CustomError(NoSuchAsk))
    else
      var ask := s.asks[key];
      if info.sender != ask.cw20Contract then
        Failure(CustomError(InvalidPaymentToken))
      else if msg.amount != ask.amount then
        Failure(CustomError(InvalidAmount))
      else
        Success(Commit(s.(cw721Deposits := s.cw721Deposits - {(cw721Contract, ask.owner, tokenId)},
                          asks := s.asks - {key}),
                       [NftTransfer(cw721Contract, msg.sender, tokenId),
                        Cw20Transfer(ask.cw20Contract, ask.owner, ask.amount)]))
  }

  /** Where the fixed purchase succeeds, the code as written succeeds too, on the same state. */
  lemma PurchaseFixedRefines(s: State, info: MessageInfo, cw721Contract: string, tokenId: string, msg: Cw20ReceiveMsg)
    requires ExecutePurchaseFixed(s, info, cw721Contract, tokenId, msg).Success?
    ensures var r := ExecutePurchase(s, info, cw721Contract, tokenId, msg);
      r.Success? && r.value.state == ExecutePurchaseFixed(s, info, cw721Contract, tokenId, msg).value.state
  {
  }

  // ---------------------------------------------------------------------
  // 3. A cw20 deposit credits the amount named in the hook payload.

  /**
   * As written, a transfer of 1 token whose payload claims 1000000 is
   * credited 1000000; more generally the credit does not depend on the
   * transferred amount or its sender at all.
   */
  lemma DepositCreditsClaimedAmount(s: State, info: MessageInfo, m1: Cw20ReceiveMsg, m2: Cw20ReceiveMsg)
    requires m1.msg.Deposit? && m1.msg == m2.msg
    ensures ReceiveCw20(s, info, m1) == ReceiveCw20(s, info, m2)
    ensures var r := ReceiveCw20(Empty, MessageInfo("tkn"), Cw20ReceiveMsg("mallory", 1, Deposit("mallory", 1000000)));
      r.Success? && Balance(r.value.state, ("mallory", "tkn")) == 1000000
  {
  }

  /** cw20 notification dispatch where a deposit credits the tokens actually transferred. */
  function ReceiveCw20Fixed(s: State, info: MessageInfo, cw20Msg: Cw20ReceiveMsg): (r: Outcome)
    ensures cw20Msg.msg.Deposit? && r.Success? ==>
      Balance(r.value.state, (cw20Msg.msg.owner, info.sender))
        == Balance(s, (cw20Msg.msg.owner, info.sender)) + cw20Msg.amount
    ensures !cw20Msg.msg.Deposit? ==> r == ReceiveCw20(s, info, cw20Msg)
  {
    match cw20Msg.msg
    case Deposit(owner, _) => ExecuteCw20Deposit(s, info, owner, cw20Msg.amount)
    case _ => ReceiveCw20(s, info, cw20Msg)
  }
}
