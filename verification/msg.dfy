/**
 * The decoded messages the contract receives and the outbound messages it
 * returns. The binary hook payload of a cw20 / cw721 `Send` is represented
 * by the hook variant it decodes to, plus `Undecodable` for any payload that
 * does not decode to a known variant.
 */
module Msg {
  import opened Numeric

  /** The caller of the current execution (`info.sender`); attached funds play no role. */
  datatype MessageInfo = MessageInfo(sender: string)

  datatype Cw20HookMsg =
    | Deposit(owner: string, amount: U128)
    | Purchase(cw721Contract: string, tokenId: string)
    | PlaceBid(cw721Contract: string, tokenId: string)
    | Undecodable

  datatype Cw721HookMsg =
    | DepositNft(owner: string, tokenId: string, cw20Contract: string, amount: U128)
    | UndecodableNft

  /** Sent by a cw20 contract after moving `amount` of its tokens from `sender` to this contract. */
  datatype Cw20ReceiveMsg = Cw20ReceiveMsg(sender: string, amount: U128, msg: Cw20HookMsg)

  /** Sent by a cw721 contract after moving token `tokenId` from `sender` to this contract. */
  datatype Cw721ReceiveMsg = Cw721ReceiveMsg(sender: string, tokenId: string, msg: Cw721HookMsg)

  datatype ExecuteMsg =
    | Receive(cw20Msg: Cw20ReceiveMsg)
    | ReceiveNft(cw721Msg: Cw721ReceiveMsg)
    | WithdrawNft(contract: string, tokenId: string)
    | WithdrawBid(contract: string, tokenId: string)

  /** An outbound call to an external token contract, executed atomically with the call that emits it. */
  datatype OutMsg =
    | Cw20Transfer(contract: string, recipient: string, amount: U128)
    | NftTransfer(contract: string, recipient: string, tokenId: string)
}
