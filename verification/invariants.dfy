/**
 * State invariants of the four maps and which calls preserve them.
 *
 * The ask key (cw721 contract, token id) omits the owner while the NFT
 * custody key includes it. "An ask exists exactly when a custody record
 * exists for that NFT" therefore holds only while at most one owner has
 * deposited a given (cw721 contract, token id); `Listed` states both.
 */
module Invariants {
  import opened Storage
  import opened Msg
  import opened Contract

  /** Each record repeats, in its fields, the key it is stored under. */
  ghost predicate RecordsMatchKeys(s: State)
  {
    && (forall k :: k in s.cw20Deposits ==> s.cw20Deposits[k].owner == k.0 && s.cw20Deposits[k].contract == k.1)
    && (forall k :: k in s.cw721Deposits ==> s.cw721Deposits[k] == Cw721Deposits(k.1, k.0, k.2))
    && (forall k :: k in s.asks ==> s.asks[k].cw721Contract == k.0 && s.asks[k].tokenId == k.1)
    && (forall k :: k in s.bids ==> s.bids[k].cw721Contract == k.0 && s.bids[k].tokenId == k.1)
  }

  /** Every ask is backed by its owner's custody record, and every custody record is listed under its owner. */
  ghost predicate Listed(s: State)
  {
    && (forall k :: k in s.asks ==> (k.0, s.asks[k].owner, k.1) in s.cw721Deposits)
    && (forall k :: k in s.cw721Deposits ==> (k.0, k.2) in s.asks && s.asks[(k.0, k.2)].owner == k.1)
  }

  ghost predicate Inv(s: State)
  {
    RecordsMatchKeys(s) && Listed(s)
  }

  /** The freshly instantiated store satisfies the invariant. */
  lemma EmptyInv()
    ensures Inv(Empty)
  {
  }

  /** Under `Listed`, an NFT has at most one depositor. */
  lemma AtMostOneDepositor(s: State, contract: string, o1: string, o2: string, tokenId: string)
    requires Listed(s)
    requires (contract, o1, tokenId) in s.cw721Deposits && (contract, o2, tokenId) in s.cw721Deposits
    ensures o1 == o2
  {
  }

  /** Under `Listed`, an NFT is listed exactly when someone holds it in custody. */
  lemma AskIffDeposit(s: State, contract: string, tokenId: string)
    requires Listed(s)
    ensures (contract, tokenId) in s.asks <==> exists o :: (contract, o, tokenId) in s.cw721Deposits
  {
  }

  lemma Cw20DepositPreservesInv(s: State, info: MessageInfo, owner: string, amount: Numeric.U128)
    requires Inv(s)
    ensures var r := ExecuteCw20Deposit(s, info, owner, amount);
      r.Success? ==> Inv(r.value.state)
  {
  }

  lemma Cw20WithdrawPreservesInv(s: State, info: MessageInfo, contract: string, amount: Numeric.U128)
    requires Inv(s)
    ensures var r := ExecuteCw20Withdraw(s, info, contract, amount);
      r.Success? ==> Inv(r.value.state)
  {
  }

  /**
   * An NFT deposit keeps the invariant when no other owner holds that NFT.
   * (The same owner's repeated deposit fails and changes nothing.) If
   * another owner does hold it, the new ask takes over the listing (see
   * `SecondDepositorBreaksListing`).
   */
  lemma Cw721DepositPreservesInv(s: State, info: MessageInfo, owner: string, tokenId: string,
                                 cw20Contract: string, amount: Numeric.U128)
    requires Inv(s)
    requires forall o :: (info.sender, o, tokenId) in s.cw721Deposits ==> o == owner
    ensures var r := ExecuteCw721Deposit(s, info, owner, tokenId, cw20Contract, amount);
      r.Success? ==> Inv(r.value.state)
  {
  }

  lemma Cw721WithdrawPreservesInv(s: State, info: MessageInfo, contract: string, tokenId: string)
    requires Inv(s)
    ensures var r := ExecuteCw721Withdraw(s, info, contract, tokenId);
      r.Success? ==> Inv(r.value.state)
  {
  }

  lemma PurchasePreservesInv(s: State, info: MessageInfo, cw721Contract: string, tokenId: string, msg: Cw20ReceiveMsg)
    requires Inv(s)
    ensures var r := ExecutePurchase(s, info, cw721Contract, tokenId, msg);
      r.Success? ==> Inv(r.value.state)
  {
  }

  lemma PlaceBidPreservesInv(s: State, info: MessageInfo, cw721Contract: string, tokenId: string, msg: Cw20ReceiveMsg)
    requires Inv(s)
    ensures var r := ExecutePlaceBid(s, info, cw721Contract, tokenId, msg);
      r.Success? ==> Inv(r.value.state)
  {
  }

  lemma WithdrawBidPreservesInv(s: State, info: MessageInfo, contract: string, tokenId: string)
    requires Inv(s)
    ensures var r := ExecuteWithdrawBid(s, info, contract, tokenId);
      r.Success? ==> Inv(r.value.state)
  {
  }

  /**
   * Every call through `execute` keeps the invariant, provided an NFT
   * deposit never names an NFT that another owner already holds.
   */
  ghost predicate FreshListing(s: State, info: MessageInfo, msg: ExecuteMsg)
  {
    msg.ReceiveNft? && msg.cw721Msg.msg.DepositNft? ==>
      forall o :: (info.sender, o, msg.cw721Msg.msg.tokenId) in s.cw721Deposits ==> o == msg.cw721Msg.msg.owner
  }

  lemma TransactPreservesInv(s: State, info: MessageInfo, msg: ExecuteMsg)
    requires Inv(s)
    requires FreshListing(s, info, msg)
    ensures Inv(Transact(s, info, msg))
  {
    match msg {
      case Receive(cw20Msg) =>
        match cw20Msg.msg {
          case Deposit(owner, amount) => Cw20DepositPreservesInv(s, info, owner, amount);
          case Purchase(c, t) => PurchasePreservesInv(s, info, c, t, cw20Msg);
          case PlaceBid(c, t) => PlaceBidPreservesInv(s, info, c, t, cw20Msg);
          case Undecodable =>
        }
      case ReceiveNft(cw721Msg) =>
        match cw721Msg.msg {
          case DepositNft(owner, t, cw20, amount) => Cw721DepositPreservesInv(s, info, owner, t, cw20, amount);
          case UndecodableNft =>
        }
      case WithdrawNft(c, t) => Cw721WithdrawPreservesInv(s, info, c, t);
      case WithdrawBid(c, t) => WithdrawBidPreservesInv(s, info, c, t);
    }
  }

  /**
   * Two owners depositing the same NFT id of one collection: the second ask
   * replaces the first, and the first depositor's custody record is left
   * without a listing.
   */
  lemma SecondDepositorBreaksListing()
    ensures var nft := MessageInfo("nft");
      var r1 := ExecuteCw721Deposit(Empty, nft, "alice", "0", "tkn", 500);
      r1.Success? &&
      var r2 := ExecuteCw721Deposit(r1.value.state, nft, "bob", "0", "tkn", 100);
      && r2.Success?
      && Listed(r1.value.state)
      && !Listed(r2.value.state)
      && r2.value.state.asks[("nft", "0")].owner == "bob"
  {
  }
}
