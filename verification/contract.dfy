/**
 * The settlement state machine of the escrow contract: seven transitions
 * over the four maps of `Storage`, and the dispatch of incoming messages to
 * them. Each transition reads the maps, validates, then writes; it returns
 * either the new state with the outbound messages, or an error. The host
 * discards every write of a call that errors or panics (see `Transact`).
 */
module Contract {
  import opened Wrappers
  import opened Numeric
  import opened Storage
  import opened Msg

  datatype ContractError =
    | NoCw20ToWithdraw
    | NoCw721ToWithdraw
    | NoBidToWithdraw
    | CustomError(val: string)
      /** An `unwrap` of a failed checked operation: the call aborts. */
    | Panic

  const InvalidAmount: string := "Invalid amount"
  const NoSuchAsk: string := "No such ask"
  const BidNotBelowAsk: string := "Bid is equal or higher than current asking price. Execute Purchase NFT instead."
  const BidNotAboveBid: string := "Bid amount needs to be higher than current bid"
  const Unauthorized: string := "Unauthorized"
  const AlreadyDeposited: string := "Already deposited"
  const InvalidCw20Hook: string := "Invalid Cw20HookMsg"
  const InvalidCw721Hook: string := "Invalid Cw721HookMsg"

  /** What a successful call commits: the new state and the messages the host executes with it. */
  datatype Commit = Commit(state: State, messages: seq<OutMsg>)

  type Outcome = Result<Commit, ContractError>

  /** `t` differs from `s` at most in the cw20 record at `key`, which `t` holds. */
  ghost predicate OnlyCw20Changed(s: State, t: State, key: Cw20Key)
  {
    && t.cw721Deposits == s.cw721Deposits
    && t.bids == s.bids
    && t.asks == s.asks
    && key in t.cw20Deposits
    && t.cw20Deposits - {key} == s.cw20Deposits - {key}
  }

  /**
   * A cw20 contract (the caller) reports tokens received on behalf of `owner`.
   * The record at (owner, caller) is created with count 1, or has `amount`
   * added and its count incremented; either overflow panics.
   */
  function ExecuteCw20Deposit(s: State, info: MessageInfo, owner: string, amount: U128): (r: Outcome)
    ensures var key := (owner, info.sender);
      r.Success? <==> key !in s.cw20Deposits || (Balance(s, key) + amount <= U128_MAX && Count(s, key) < I32_MAX)
    ensures r.Failure? ==> r.error == Panic
    ensures r.Success? ==> r.value.messages == [] && OnlyCw20Changed(s, r.value.state, (owner, info.sender))
    ensures var key := (owner, info.sender);
      r.Success? && key !in s.cw20Deposits ==>
        r.value.state.cw20Deposits[key] == Cw20Deposits(1, owner, info.sender, amount)
    ensures var key := (owner, info.sender);
      r.Success? && key in s.cw20Deposits ==>
        var old_ := s.cw20Deposits[key];
        r.value.state.cw20Deposits[key] == old_.(amount := old_.amount + amount, count := old_.count + 1)
  {
    var key := (owner, info.sender);
    if key in s.cw20Deposits then
      var deposit := s.cw20Deposits[key];
      match (CheckedAddU128(deposit.amount, amount), CheckedAddI32(deposit.count, 1))
      case (Some(newAmount), Some(newCount)) =>
        var updated := deposit.(amount := newAmount, count := newCount);
        Success(Commit(s.(cw20Deposits := s.cw20Deposits[key := updated]), []))
      case _ => Failure(Panic)
    else
      var deposit := Cw20Deposits(1, owner, info.sender, amount);
      Success(Commit(s.(cw20Deposits := s.cw20Deposits[key := deposit]), []))
  }

  /**
   * The caller withdraws `amount` of its custody in cw20 `contract`. A missing
   * record is an error; subtracting more than the balance, or decrementing
   * the count below the i32 range, panics. Otherwise one cw20 transfer pays
   * the caller.
   */
  function ExecuteCw20Withdraw(s: State, info: MessageInfo, contract: string, amount: U128): (r: Outcome)
    ensures var key := (info.sender, contract);
      r.Success? <==> key in s.cw20Deposits && amount <= Balance(s, key) && I32_MIN < Count(s, key)
    ensures (info.sender, contract) !in s.cw20Deposits ==> r == Failure(NoCw20ToWithdraw)
    ensures (info.sender, contract) in s.cw20Deposits && r.Failure? ==> r.error == Panic
    ensures r.Success? ==>
      && OnlyCw20Changed(s, r.value.state, (info.sender, contract))
      && r.value.messages == [Cw20Transfer(contract, info.sender, amount)]
    ensures var key := (info.sender, contract);
      r.Success? ==>
        var old_ := s.cw20Deposits[key];
        r.value.state.cw20Deposits[key] == old_.(amount := old_.amount - amount, count := old_.count - 1)
  {
    var key := (info.sender, contract);
    if key in s.cw20Deposits then
      var deposit := s.cw20Deposits[key];
      match (CheckedSubU128(deposit.amount, amount), CheckedSubI32(deposit.count, 1))
      case (Some(newAmount), Some(newCount)) =>
        var updated := deposit.(amount := newAmount, count := newCount);
        Success(Commit(s.(cw20Deposits := s.cw20Deposits[key := updated]),
                       [Cw20Transfer(contract, info.sender, amount)]))
      case _ => Failure(Panic)
    else
      Failure(NoCw20ToWithdraw)
  }

  /**
   * A cw721 contract (the caller) reports an NFT received on behalf of
   * `owner`. Unless (caller, owner, tokenId) is already held, it records the
   * custody and lists the NFT for `amount` of cw20 `cw20Contract`. The ask is
   * keyed without the owner, so it replaces any ask another owner had on the
   * same (caller, tokenId).
   */
  function ExecuteCw721Deposit(s: State, info: MessageInfo, owner: string, tokenId: string,
                               cw20Contract: string, amount: U128): (r: Outcome)
    ensures (info.sender, owner, tokenId) in s.cw721Deposits <==> r.Failure?
    ensures r.Failure? ==> r.error == CustomError(AlreadyDeposited)
    ensures r.Success? ==>
      var t := r.value.state;
      && r.value.messages == []
      && t.cw721Deposits.Keys == s.cw721Deposits.Keys + {(info.sender, owner, tokenId)}
      && t.cw721Deposits[(info.sender, owner, tokenId)] == Cw721Deposits(owner, info.sender, tokenId)
      && t.asks.Keys == s.asks.Keys + {(info.sender, tokenId)}
      && t.asks[(info.sender, tokenId)] == Offer(owner, info.sender, tokenId, cw20Contract, amount)
      && t.cw721Deposits - {(info.sender, owner, tokenId)} == s.cw721Deposits
      && t.asks - {(info.sender, tokenId)} == s.asks - {(info.sender, tokenId)}
      && t.cw20Deposits == s.cw20Deposits
      && t.bids == s.bids
  {
    var cw721Contract := info.sender;
    var key := (cw721Contract, owner, tokenId);
    if key in s.cw721Deposits then
      Failure(CustomError(AlreadyDeposited))
    else
      var deposit := Cw721Deposits(owner, cw721Contract, tokenId);
      var ask := Offer(owner, cw721Contract, tokenId, cw20Contract, amount);
      Success(Commit(s.(cw721Deposits := s.cw721Deposits[key := deposit],
                        asks := s.asks[(cw721Contract, tokenId) := ask]), []))
  }

  /**
   * The caller takes back an NFT it deposited: the custody record and the
   * ask on (contract, tokenId) go, whoever owns that ask; bids stay.
   */
  function ExecuteCw721Withdraw(s: State, info: MessageInfo, contract: string, tokenId: string): (r: Outcome)
    ensures (contract, info.sender, tokenId) !in s.cw721Deposits <==> r.Failure?
    ensures r.Failure? ==> r.error == NoCw721ToWithdraw
    ensures r.Success? ==>
      var t := r.value.state;
      && r.value.messages == [NftTransfer(contract, info.sender, tokenId)]
      && t.cw721Deposits == s.cw721Deposits - {(contract, info.sender, tokenId)}
      && t.asks == s.asks - {(contract, tokenId)}
      && t.cw20Deposits == s.cw20Deposits
      && t.bids == s.bids
  {
    var owner := info.sender;
    var key := (contract, owner, tokenId);
    if key !in s.cw721Deposits then
      Failure(NoCw721ToWithdraw)
    else
      Success(Commit(s.(cw721Deposits := s.cw721Deposits - {key},
                        asks := s.asks - {(contract, tokenId)}),
                     [NftTransfer(contract, owner, tokenId)]))
  }

  /**
   * Buys a listed NFT with the cw20 tokens just received (`msg`). Only the
   * amount is compared with the ask: the paying cw20 contract (the caller)
   * is not, and nothing is paid to the seller. The seller's custody record
   * and the ask go; bids stay; the NFT goes to the buyer.
   */
  function ExecutePurchase(s: State, info: MessageInfo, cw721Contract: string, tokenId: string,
                           msg: Cw20ReceiveMsg): (r: Outcome)
    ensures (cw721Contract, tokenId) !in s.asks ==> r == Failure(CustomError(NoSuchAsk))
    ensures (cw721Contract, tokenId) in s.asks ==>
      (r.Success? <==> msg.amount == s.asks[(cw721Contract, tokenId)].amount)
    ensures (cw721Contract, tokenId) in s.asks && r.Failure? ==> r.error == CustomError(InvalidAmount)
    ensures r.Success? ==>
      var t := r.value.state;
      var seller := s.asks[(cw721Contract, tokenId)].owner;
      && r.value.messages == [NftTransfer(cw721Contract, msg.sender, tokenId)]
      && (cw721Contract, tokenId) !in t.asks
      && (cw721Contract, seller, tokenId) !in t.cw721Deposits
      && t.asks == s.asks - {(cw721Contract, tokenId)}
      && t.cw721Deposits == s.cw721Deposits - {(cw721Contract, seller, tokenId)}
      && t.cw20Deposits == s.cw20Deposits
      && t.bids == s.bids
  {
    if (cw721Contract, tokenId) in s.asks then
      var ask := s.asks[(cw721Contract, tokenId)];
      if msg.amount != ask.amount then
        Failure(CustomError(InvalidAmount))
      else
        Success(Commit(s.(cw721Deposits := s.cw721Deposits - {(cw721Contract, ask.owner, tokenId)},
                          asks := s.asks - {(cw721Contract, tokenId)}),
                       [NftTransfer(cw721Contract, msg.sender, tokenId)]))
    else
      Failure(CustomError(NoSuchAsk))
  }

  /**
   * Places a bid of the cw20 tokens just received (`msg`) on an NFT. It must
   * be below the ask, if there is one. It must exceed the bid stored at
   * (caller, tokenId), the caller being the paying cw20 contract; the new bid
   * is written at (cw721Contract, tokenId), replacing whatever bid was there.
   */
  function ExecutePlaceBid(s: State, info: MessageInfo, cw721Contract: string, tokenId: string,
                           msg: Cw20ReceiveMsg): (r: Outcome)
    ensures var ask := (cw721Contract, tokenId);
      var checked := (info.sender, tokenId);
      r.Success? <==>
        && (ask in s.asks ==> msg.amount < s.asks[ask].amount)
        && (checked in s.bids ==> msg.amount > s.bids[checked].amount)
    ensures (cw721Contract, tokenId) in s.asks && msg.amount >= s.asks[(cw721Contract, tokenId)].amount ==>
      r == Failure(CustomError(BidNotBelowAsk))
    ensures r.Failure? && !((cw721Contract, tokenId) in s.asks && msg.amount >= s.asks[(cw721Contract, tokenId)].amount) ==>
      r == Failure(CustomError(BidNotAboveBid))
    ensures r.Success? ==>
      var t := r.value.state;
      && r.value.messages == []
      && t.bids == s.bids[(cw721Contract, tokenId) := Bid(msg.sender, cw721Contract, tokenId, info.sender, msg.amount)]
      && t.cw20Deposits == s.cw20Deposits
      && t.cw721Deposits == s.cw721Deposits
      && t.asks == s.asks
  {
    var cw20Contract := info.sender;
    if (cw721Contract, tokenId) in s.asks && msg.amount >= s.asks[(cw721Contract, tokenId)].amount then
      Failure(CustomError(BidNotBelowAsk))
    else if (cw20Contract, tokenId) in s.bids && msg.amount <= s.bids[(cw20Contract, tokenId)].amount then
      Failure(CustomError(BidNotAboveBid))
    else
      var bid := Bid(msg.sender, cw721Contract, tokenId, cw20Contract, msg.amount);
      Success(Commit(s.(bids := s.bids[(cw721Contract, tokenId) := bid]), []))
  }

  /**
   * The bidder withdraws its bid on (contract, tokenId) and is refunded the
   * bid amount in the bid's cw20 contract. Anyone else is refused.
   */
  function ExecuteWithdrawBid(s: State, info: MessageInfo, contract: string, tokenId: string): (r: Outcome)
    ensures (contract, tokenId) !in s.bids ==> r == Failure(NoBidToWithdraw)
    ensures (contract, tokenId) in s.bids ==>
      (r.Success? <==> info.sender == s.bids[(contract, tokenId)].bidder)
    ensures (contract, tokenId) in s.bids && r.Failure? ==> r.error == CustomError(Unauthorized)
    ensures r.Success? ==>
      var bid := s.bids[(contract, tokenId)];
      var t := r.value.state;
      && r.value.messages == [Cw20Transfer(bid.cw20Contract, bid.bidder, bid.amount)]
      && t.bids == s.bids - {(contract, tokenId)}
      && t.cw20Deposits == s.cw20Deposits
      && t.cw721Deposits == s.cw721Deposits
      && t.asks == s.asks
  {
    var bidder := info.sender;
    if (contract, tokenId) in s.bids then
      var bid := s.bids[(contract, tokenId)];
      if bidder != bid.bidder then
        Failure(CustomError(Unauthorized))
      else
        Success(Commit(s.(bids := s.bids - {(contract, tokenId)}),
                       [Cw20Transfer(bid.cw20Contract, bidder, bid.amount)]))
    else
      Failure(NoBidToWithdraw)
  }

  /**
   * Dispatch of a cw20 `Send` notification on its decoded hook. Whatever the
   * hook, a cw20 notification never pays cw20 tokens out and never creates
   * NFT custody; the only thing it can send is an NFT, to the payer.
   */
  function ReceiveCw20(s: State, info: MessageInfo, cw20Msg: Cw20ReceiveMsg): (r: Outcome)
    ensures r.Success? ==> !cw20Msg.msg.Undecodable?
    ensures r.Success? ==>
      forall o :: o in r.value.messages ==> o.NftTransfer? && o.recipient == cw20Msg.sender
    ensures r.Success? ==> r.value.state.cw721Deposits.Keys <= s.cw721Deposits.Keys
  {
    match cw20Msg.msg
    case Deposit(owner, amount) => ExecuteCw20Deposit(s, info, owner, amount)
    case Purchase(cw721Contract, tokenId) => ExecutePurchase(s, info, cw721Contract, tokenId, cw20Msg)
    case PlaceBid(cw721Contract, tokenId) => ExecutePlaceBid(s, info, cw721Contract, tokenId, cw20Msg)
    case Undecodable => Failure(CustomError(InvalidCw20Hook))
  }

  /**
   * Dispatch of a cw721 `SendNft` notification on its decoded hook. It
   * succeeds only as an NFT deposit, which leaves the hook's owner holding
   * the NFT and listed as the ask's owner.
   */
  function ReceiveCw721(s: State, info: MessageInfo, cw721Msg: Cw721ReceiveMsg): (r: Outcome)
    ensures r.Success? ==>
      && cw721Msg.msg.DepositNft?
      && r.value.messages == []
      && (info.sender, cw721Msg.msg.owner, cw721Msg.msg.tokenId) in r.value.state.cw721Deposits
      && (info.sender, cw721Msg.msg.tokenId) in r.value.state.asks
      && r.value.state.asks[(info.sender, cw721Msg.msg.tokenId)].owner == cw721Msg.msg.owner
  {
    match cw721Msg.msg
    case DepositNft(owner, tokenId, cw20Contract, amount) =>
      ExecuteCw721Deposit(s, info, owner, tokenId, cw20Contract, amount)
    case UndecodableNft => Failure(CustomError(InvalidCw721Hook))
  }

  /**
   * The `execute` entry point. No message reaches `ExecuteCw20Withdraw`, so
   * no call ever lowers a cw20 custody balance, and the only cw20 tokens a
   * call pays out are bid refunds.
   */
  function Execute(s: State, info: MessageInfo, msg: ExecuteMsg): (r: Outcome)
    ensures r.Success? ==>
      forall k :: k in s.cw20Deposits ==>
        k in r.value.state.cw20Deposits && r.value.state.cw20Deposits[k].amount >= s.cw20Deposits[k].amount
    ensures r.Success? ==>
      forall m :: m in r.value.messages && m.Cw20Transfer? ==> msg.WithdrawBid?
  {
    match msg
    case Receive(cw20Msg) => ReceiveCw20(s, info, cw20Msg)
    case ReceiveNft(cw721Msg) => ReceiveCw721(s, info, cw721Msg)
    case WithdrawNft(contract, tokenId) => ExecuteCw721Withdraw(s, info, contract, tokenId)
    case WithdrawBid(contract, tokenId) => ExecuteWithdrawBid(s, info, contract, tokenId)
  }

  /**
   * The state after the host runs one call: committed on success, rolled
   * back otherwise. Either way no cw20 custody balance is lowered or removed.
   */
  function Transact(s: State, info: MessageInfo, msg: ExecuteMsg): (t: State)
    ensures forall k :: k in s.cw20Deposits ==>
      k in t.cw20Deposits && t.cw20Deposits[k].amount >= s.cw20Deposits[k].amount
  {
    match Execute(s, info, msg)
    case Success(commit) => commit.state
    case Failure(_) => s
  }
}
