/**
 The entry points of the order-book contract. `Init` writes the registration
 context into three prefixed sub-stores and asks to be registered with both
 tokens and with the factory; `Handle` accepts only deposit notifications
 from the two registered tokens whose inner message is `CreateLimitOrder`,
 which is a stub; `Query` answers an empty list of orders.
 */
module Contract {
  import opened Cosmwasm
  import opened State
  import opened Msg

  /** Namespaces of the three prefixed sub-stores. */
  const FACTORY_DATA: string := "factory"
  const TOKEN1_DATA: string := "token1"
  const TOKEN2_DATA: string := "token2"

  /** Keys inside the sub-stores. */
  const ADDRESS_KEY: string := "address"
  const HASH_KEY: string := "hash"
  const KEY_KEY: string := "key"

  /** The seven slots `Init` writes. */
  const CONTEXT_SLOTS: set<Slot> := {
    Slot(FACTORY_DATA, ADDRESS_KEY), Slot(FACTORY_DATA, HASH_KEY), Slot(FACTORY_DATA, KEY_KEY),
    Slot(TOKEN1_DATA, ADDRESS_KEY), Slot(TOKEN1_DATA, HASH_KEY),
    Slot(TOKEN2_DATA, ADDRESS_KEY), Slot(TOKEN2_DATA, HASH_KEY)
  }

  /** Error texts. */
  const HANDLER_NOT_FOUND: string := "Handler not found!"
  const RECURSIVE_RECEIVE: string := "Recursive call to receive() is not allowed"
  const UNKNOWN_COIN_SUFFIX: string := " is not a known SNIP-20 coin that this contract registered to"
  const RECEIVE_HANDLER_NOT_FOUND: string := "Receive handler not found!"

  /** What a handle call produces: the storage afterwards and the result. */
  datatype Outcome = Outcome(store: Store, result: StdResult<HandleResponse<Outbound>>)

  /** Every slot of the registration context holds the value from `m`. */
  predicate Registered(s: Store, m: InitMsg)
  {
    && Load(s, FACTORY_DATA, ADDRESS_KEY) == Ok(m.factoryAddress)
    && Load(s, FACTORY_DATA, HASH_KEY) == Ok(m.factoryHash)
    && Load(s, FACTORY_DATA, KEY_KEY) == Ok(m.factoryKey)
    && Load(s, TOKEN1_DATA, ADDRESS_KEY) == Ok(m.token1CodeAddress)
    && Load(s, TOKEN1_DATA, HASH_KEY) == Ok(m.token1CodeHash)
    && Load(s, TOKEN2_DATA, ADDRESS_KEY) == Ok(m.token2CodeAddress)
    && Load(s, TOKEN2_DATA, HASH_KEY) == Ok(m.token2CodeHash)
  }

  /** `a` is the stored address of one of the two tokens, both being stored. */
  predicate KnownToken(s: Store, a: HumanAddr)
  {
    && Slot(TOKEN1_DATA, ADDRESS_KEY) in s
    && Slot(TOKEN2_DATA, ADDRESS_KEY) in s
    && (a == s[Slot(TOKEN1_DATA, ADDRESS_KEY)] || a == s[Slot(TOKEN2_DATA, ADDRESS_KEY)])
  }

  /** The three messages `init` sends, in order: register with token 1,
      register with token 2, and the callback to the factory. */
  function InitMessages(env: Env, msg: InitMsg): (ms: seq<Message>)
    ensures |ms| == 3
    ensures forall i | 0 <= i < |ms| :: ms[i].send == []
    ensures ms[0].msg == ms[1].msg == Snip20(RegisterReceive(env.contractCodeHash))
    ensures ms[0].contractAddr == msg.token1CodeAddress && ms[0].callbackCodeHash == msg.token1CodeHash
    ensures ms[1].contractAddr == msg.token2CodeAddress && ms[1].callbackCodeHash == msg.token2CodeHash
    ensures ms[2].contractAddr == msg.factoryAddress && ms[2].callbackCodeHash == msg.factoryHash
    ensures ms[2].msg == Factory(InitCallBackFromSecretOrderBookToFactory(
      msg.factoryKey, env.contractAddress, msg.token1CodeAddress, msg.token2CodeAddress))
  {
    var register := Snip20(RegisterReceive(env.contractCodeHash));
    var token1Msg := WasmExecute(msg.token1CodeAddress, msg.token1CodeHash, register, []);
    var token2Msg := WasmExecute(msg.token2CodeAddress, msg.token2CodeHash, register, []);
    var callback := InitCallBackFromSecretOrderBookToFactory(
      msg.factoryKey, env.contractAddress, msg.token1CodeAddress, msg.token2CodeAddress);
    var callbackMsg := WasmExecute(msg.factoryAddress, msg.factoryHash, Factory(callback), []);
    [token1Msg, token2Msg, callbackMsg]
  }

  /** `init`: store the registration context, then answer the three messages
      with an empty log. Only the seven context slots change. */
  method Init(storage: Storage, env: Env, msg: InitMsg) returns (r: StdResult<InitResponse<Outbound>>)
    modifies storage
    ensures Registered(storage.entries, msg)
    ensures storage.entries.Keys == old(storage.entries).Keys + CONTEXT_SLOTS
    ensures forall slot | slot in old(storage.entries) && slot !in CONTEXT_SLOTS ::
      storage.entries[slot] == old(storage.entries)[slot]
    ensures r == Ok(InitResponse(InitMessages(env, msg), []))
  {
    storage.Save(FACTORY_DATA, ADDRESS_KEY, msg.factoryAddress);
    storage.Save(FACTORY_DATA, HASH_KEY, msg.factoryHash);
    storage.Save(FACTORY_DATA, KEY_KEY, msg.factoryKey);

    storage.Save(TOKEN1_DATA, ADDRESS_KEY, msg.token1CodeAddress);
    storage.Save(TOKEN1_DATA, HASH_KEY, msg.token1CodeHash);

    storage.Save(TOKEN2_DATA, ADDRESS_KEY, msg.token2CodeAddress);
    storage.Save(TOKEN2_DATA, HASH_KEY, msg.token2CodeHash);

    r := Ok(InitResponse(InitMessages(env, msg), []));
  }

  /** Each message `init` sends goes to the address and code hash that `init`
      has just stored for its recipient. */
  lemma InitMessagesMatchStore(s: Store, env: Env, msg: InitMsg)
    requires Registered(s, msg)
    ensures var ms := InitMessages(env, msg);
      && Load(s, TOKEN1_DATA, ADDRESS_KEY) == Ok(ms[0].contractAddr)
      && Load(s, TOKEN1_DATA, HASH_KEY) == Ok(ms[0].callbackCodeHash)
      && Load(s, TOKEN2_DATA, ADDRESS_KEY) == Ok(ms[1].contractAddr)
      && Load(s, TOKEN2_DATA, HASH_KEY) == Ok(ms[1].callbackCodeHash)
      && Load(s, FACTORY_DATA, ADDRESS_KEY) == Ok(ms[2].contractAddr)
      && Load(s, FACTORY_DATA, HASH_KEY) == Ok(ms[2].callbackCodeHash)
      && ms[2].msg.Factory? && Load(s, FACTORY_DATA, KEY_KEY) == Ok(ms[2].msg.factory.authKey)
  {
  }

  /** `handle`: only `Receive` has a handler. */
  function Handle(store: Store, env: Env, decode: Binary -> Option<HandleMsg>, msg: HandleMsg): (r: Outcome)
    ensures r.store == store
    ensures !msg.Receive? ==> r.result == Err(GenericErr(HANDLER_NOT_FOUND))
    ensures msg.Receive? ==> r == TryReceive(store, env, decode, msg.sender, msg.from, msg.amount, msg.msg)
  {
    match msg
    case Receive(sender, from, amount, payload) => TryReceive(store, env, decode, sender, from, amount, payload)
    case _ => Outcome(store, Err(GenericErr(HANDLER_NOT_FOUND)))
  }

  /** `try_receive`: validate a deposit notification. In order: the inner
      payload must decode, must not be another `Receive`, both token addresses
      must load, the notifying contract must be one of them, and the inner
      message must be `CreateLimitOrder`. */
  function TryReceive(store: Store, env: Env, decode: Binary -> Option<HandleMsg>,
                      sender: HumanAddr, from: HumanAddr, amount: Uint128, payload: Binary): (r: Outcome)
    ensures r.store == store
    ensures decode(payload).None? ==> r.result == Err(ParseErr)
    ensures decode(payload).Some? && decode(payload).value.Receive? ==>
      r.result == Err(GenericErr(RECURSIVE_RECEIVE))
    ensures (decode(payload).Some? && !decode(payload).value.Receive?
             && (Slot(TOKEN1_DATA, ADDRESS_KEY) !in store || Slot(TOKEN2_DATA, ADDRESS_KEY) !in store)) ==>
      r.result == Err(NotFound)
    ensures (decode(payload).Some? && !decode(payload).value.Receive?
             && Slot(TOKEN1_DATA, ADDRESS_KEY) in store && Slot(TOKEN2_DATA, ADDRESS_KEY) in store
             && !KnownToken(store, env.messageSender)) ==>
      r.result == Err(GenericErr(env.messageSender + UNKNOWN_COIN_SUFFIX))
    ensures (decode(payload).Some? && !decode(payload).value.Receive? && !decode(payload).value.CreateLimitOrder?
             && KnownToken(store, env.messageSender)) ==>
      r.result == Err(GenericErr(RECEIVE_HANDLER_NOT_FOUND))
    ensures r.result.Ok? <==> decode(payload) == Some(HandleMsg.CreateLimitOrder) && KnownToken(store, env.messageSender)
    ensures r.result.Ok? ==> r.result.value == DefaultHandleResponse()
  {
    match decode(payload)
    case None => Outcome(store, Err(ParseErr))
    case Some(inner) =>
      if inner.Receive? then
        Outcome(store, Err(GenericErr(RECURSIVE_RECEIVE)))
      else
        match Load(store, TOKEN1_DATA, ADDRESS_KEY)
        case Err(e) => Outcome(store, Err(e))
        case Ok(token1) =>
          match Load(store, TOKEN2_DATA, ADDRESS_KEY)
          case Err(e) => Outcome(store, Err(e))
          case Ok(token2) =>
            if token1 != env.messageSender && token2 != env.messageSender then
              Outcome(store, Err(GenericErr(env.messageSender + UNKNOWN_COIN_SUFFIX)))
            else if inner.CreateLimitOrder? then
              CreateLimitOrder(store, env, from, amount)
            else
              Outcome(store, Err(GenericErr(RECEIVE_HANDLER_NOT_FOUND)))
  }

  /** Neither the `sender` nor the `from` nor the `amount` of a notification
      affects its outcome: only the notifying contract and the payload do. */
  lemma TryReceiveIgnoresSenderFromAmount(store: Store, env: Env, decode: Binary -> Option<HandleMsg>,
                                          sender1: HumanAddr, from1: HumanAddr, amount1: Uint128,
                                          sender2: HumanAddr, from2: HumanAddr, amount2: Uint128,
                                          payload: Binary)
    ensures TryReceive(store, env, decode, sender1, from1, amount1, payload)
         == TryReceive(store, env, decode, sender2, from2, amount2, payload)
  {
  }

  /** `create_limit_order`: a stub that changes nothing and answers the
      default response. */
  function CreateLimitOrder(store: Store, env: Env, from: HumanAddr, amount: Uint128): (r: Outcome)
    ensures r.store == store
    ensures r.result.Ok? && r.result.value.messages == [] && r.result.value.log == []
    ensures r.result.value.data.None?
  {
    Outcome(store, Ok(DefaultHandleResponse()))
  }

  /** `query`: the only query is answered with an empty `LimitOrders`,
      whatever the storage holds. */
  function Query(store: Store, msg: QueryMsg): (r: StdResult<QueryAnswer>)
    ensures r == Ok(LimitOrders)
  {
    match msg
    case GetLimitOrders => Ok(LimitOrders)
  }
}
