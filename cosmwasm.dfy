/**
 The parts of the CosmWasm standard library that the order-book contract uses:
 addresses, results and errors, the execution environment, outbound messages
 and responses.
 */
module Cosmwasm {

  newtype byte = x: int | 0 <= x < 256

  /** Opaque serialised bytes, as carried inside a `Receive` notification. */
  type Binary = seq<byte>

  type HumanAddr = string

  const UINT128_LIMIT: int := 0x1_0000_0000_0000_0000_0000_0000_0000_0000

  type Uint128 = x: nat | x < UINT128_LIMIT

  datatype Option<+T> = None | Some(value: T)

  /** The error kinds the contract can produce. The texts of `NotFound` and
      `ParseErr` are not modelled. */
  datatype StdError =
    | GenericErr(msg: string)
    | NotFound
    | ParseErr

  datatype StdResult<+T> = Ok(value: T) | Err(error: StdError)

  /** The fields of the execution environment that the contract reads. */
  datatype Env = Env(contractAddress: HumanAddr, contractCodeHash: string, messageSender: HumanAddr)

  datatype Coin = Coin(denom: string, amount: Uint128)

  datatype LogAttribute = LogAttribute(key: string, value: string)

  /** An outbound contract call; the payload `msg` is kept as the value it
      encodes rather than as serialised bytes. */
  datatype CosmosMsg<M> = WasmExecute(contractAddr: HumanAddr, callbackCodeHash: string, msg: M, send: seq<Coin>)

  datatype InitResponse<M> = InitResponse(messages: seq<CosmosMsg<M>>, log: seq<LogAttribute>)

  datatype HandleResponse<M> = HandleResponse(messages: seq<CosmosMsg<M>>, log: seq<LogAttribute>, data: Option<Binary>)

  /** `HandleResponse::default()`: no messages, no log, no data. */
  function DefaultHandleResponse<M>(): HandleResponse<M>
  {
    HandleResponse([], [], None)
  }
}
