/**
 The message types exchanged by the order-book contract: what it is
 initialised with, what it handles and answers, and the payloads it sends to
 the SNIP-20 tokens and to the factory.
 */
module Msg {
  import opened Cosmwasm

  /** The registration context supplied at instantiation. */
  datatype InitMsg = InitMsg(
    factoryAddress: HumanAddr,
    factoryHash: string,
    factoryKey: string,
    token1CodeAddress: HumanAddr,
    token1CodeHash: string,
    token2CodeAddress: HumanAddr,
    token2CodeHash: string)

  /** Handle messages. `OtherHandleMsg` stands for every further kind,
      all of which the contract answers alike. */
  datatype HandleMsg =
    | Receive(sender: HumanAddr, from: HumanAddr, amount: Uint128, msg: Binary)
    | CreateLimitOrder
    | OtherHandleMsg(kind: string)

  datatype QueryMsg = GetLimitOrders

  /** The query answer; it carries no orders. */
  datatype QueryAnswer = LimitOrders

  /** The request asking a SNIP-20 token to notify this contract of deposits. */
  datatype Snip20Msg = RegisterReceive(codeHash: string)

  /** The callback telling the factory that this order book exists. */
  datatype FactoryHandleMsg = InitCallBackFromSecretOrderBookToFactory(
    authKey: string,
    contractAddress: HumanAddr,
    token1Address: HumanAddr,
    token2Address: HumanAddr)

  /** Every payload the contract sends out. */
  datatype Outbound = Snip20(snip20: Snip20Msg) | Factory(factory: FactoryHandleMsg)

  type Message = CosmosMsg<Outbound>
}
