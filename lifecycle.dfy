/**
 The contract as a sequential state machine: after `init`, a sequence of
 handle calls is applied one after another, each to the storage the previous
 one left behind.
 */
module Lifecycle {
  import opened Cosmwasm
  import opened State
  import opened Msg
  import opened Contract

  /** One handle call: its environment and its message. */
  datatype Call = Call(env: Env, msg: HandleMsg)

  /** The storage after a run and the result of each call. */
  datatype Trace = Trace(store: Store, responses: seq<StdResult<HandleResponse<Outbound>>>)

  /** Apply `calls` in order, threading the storage through. */
  function Run(store: Store, decode: Binary -> Option<HandleMsg>, calls: seq<Call>): (t: Trace)
    ensures |t.responses| == |calls|
    decreases |calls|
  {
    if calls == [] then
      Trace(store, [])
    else
      var first := Handle(store, calls[0].env, decode, calls[0].msg);
      var rest := Run(first.store, decode, calls[1..]);
      Trace(rest.store, [first.result] + rest.responses)
  }

  /** No handle call writes storage, so a run ends with the storage it started
      with and every call is answered as if it came first. */
  lemma {:induction false} RunKeepsStore(store: Store, decode: Binary -> Option<HandleMsg>, calls: seq<Call>)
    ensures Run(store, decode, calls).store == store
    ensures forall i | 0 <= i < |calls| ::
      Run(store, decode, calls).responses[i] == Handle(store, calls[i].env, decode, calls[i].msg).result
    decreases |calls|
  {
    if calls != [] {
      RunKeepsStore(store, decode, calls[1..]);
      forall i | 1 <= i < |calls|
        ensures Run(store, decode, calls).responses[i] == Handle(store, calls[i].env, decode, calls[i].msg).result
      {
        assert calls[1..][i - 1] == calls[i];
      }
    }
  }

  /** A call is a deposit notification from one of the tokens registered at
      `init` whose inner message decodes to `CreateLimitOrder`. */
  predicate IsOrderDeposit(c: Call, m: InitMsg, decode: Binary -> Option<HandleMsg>)
  {
    && c.msg.Receive?
    && decode(c.msg.msg) == Some(HandleMsg.CreateLimitOrder)
    && (c.env.messageSender == m.token1CodeAddress || c.env.messageSender == m.token2CodeAddress)
  }

  /** Once `init` has stored its context, every call of any run succeeds
      exactly when it is an order deposit from a registered token; each
      success is the empty response, no call emits an outbound message, a
      deposit from any other contract is refused by name, and the
      registration context stays as `init` left it. */
  lemma {:induction false} RunAcceptsExactlyOrderDeposits(
    store: Store, m: InitMsg, decode: Binary -> Option<HandleMsg>, calls: seq<Call>)
    requires Registered(store, m)
    ensures Registered(Run(store, decode, calls).store, m)
    ensures forall i | 0 <= i < |calls| ::
      Run(store, decode, calls).responses[i].Ok? <==> IsOrderDeposit(calls[i], m, decode)
    ensures forall i | 0 <= i < |calls| && Run(store, decode, calls).responses[i].Ok? ::
      Run(store, decode, calls).responses[i].value == DefaultHandleResponse()
    ensures forall i | 0 <= i < |calls| && calls[i].msg.Receive?
      && decode(calls[i].msg.msg).Some? && !decode(calls[i].msg.msg).value.Receive?
      && calls[i].env.messageSender != m.token1CodeAddress && calls[i].env.messageSender != m.token2CodeAddress ::
      Run(store, decode, calls).responses[i]
        == Err(GenericErr(calls[i].env.messageSender + UNKNOWN_COIN_SUFFIX))
  {
    RunKeepsStore(store, decode, calls);
  }
}
