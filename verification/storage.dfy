/**
 * The persisted state of the escrow contract: four independent maps in the
 * contract's key-value store, with their record types. Every key component
 * is an address or a token id, i.e. a string.
 */
module Storage {
  import opened Numeric

  /** Fungible-token custody of one owner in one cw20 contract. */
  datatype Cw20Deposits = Cw20Deposits(count: I32, owner: string, contract: string, amount: U128)

  /** Custody of one NFT on behalf of its depositor. */
  datatype Cw721Deposits = Cw721Deposits(owner: string, contract: string, tokenId: string)

  /** A standing sale listing ("ask") for one NFT. */
  datatype Offer = Offer(owner: string, cw721Contract: string, tokenId: string, cw20Contract: string, amount: U128)

  /** A standing offer to buy one NFT below its asking price. */
  datatype Bid = Bid(bidder: string, cw721Contract: string, tokenId: string, cw20Contract: string, amount: U128)

  /** `CW20_DEPOSITS` is keyed by (owner, cw20 contract). */
  type Cw20Key = (string, string)
  /** `CW721_DEPOSITS` is keyed by (cw721 contract, owner, token id). */
  type Cw721Key = (string, string, string)
  /** `ASKS` and `BIDS` are both keyed by (cw721 contract, token id): no owner, no bidder. */
  type ItemKey = (string, string)

  datatype State = State(
    cw20Deposits: map<Cw20Key, Cw20Deposits>,
    cw721Deposits: map<Cw721Key, Cw721Deposits>,
    bids: map<ItemKey, Bid>,
    asks: map<ItemKey, Offer>)

  /** The store right after instantiation: all four maps empty. */
  const Empty: State := State(map[], map[], map[], map[])

  /** Custody balance at a cw20 key; a missing record reads as zero. */
  function Balance(s: State, key: Cw20Key): U128
  {
    if key in s.cw20Deposits then s.cw20Deposits[key].amount else 0
  }

  /** Deposit counter at a cw20 key; a missing record reads as zero. */
  function Count(s: State, key: Cw20Key): I32
  {
    if key in s.cw20Deposits then s.cw20Deposits[key].count else 0
  }
}
