# Secret order book: contract entry points

A model of the Secret Network order-book contract (`contracts/secret-order-book/src/contract.rs`).
The contract is a small sequential state machine over prefixed key-value storage:

- `init` stores the registration context (the factory's address, code hash and
  shared key; each token's address and code hash) in the sub-stores `factory`,
  `token1` and `token2`. It then answers three outbound messages, in order:
  register with token 1, register with token 2, and the callback to the factory.
- `handle` has a handler for `Receive` only, the deposit notification a SNIP-20 token sends.
- `try_receive` decodes the inner payload and rejects a nested `Receive`. It then loads both
  token addresses and rejects a notifying contract that is neither. It accepts only an inner `CreateLimitOrder`.
- `create_limit_order` is a stub that answers the default (empty) response.
- `query` answers an empty `LimitOrders`.

Modules:

- `Cosmwasm` (`cosmwasm.dfy`): addresses, `StdResult`/`StdError`, the environment, outbound
  messages and responses.
- `State` (`state.dfy`): the crate's `save`/`load` helpers. Storage is a map from (namespace, key) slots to stored
  strings, with `Load` and a `Storage` class whose `Save` overwrites one slot.
- `Msg` (`msg.dfy`): the message types as datatypes.
- `Contract` (`contract.dfy`): the entry points of `contract.rs`. `Init` is a method that makes the seven `Save`
  calls one after another. `Handle`, `TryReceive`, `CreateLimitOrder` and `Query` are functions
  of the storage snapshot. Each handle-side function returns the storage afterwards together
  with the result, mirroring the mutable `deps` argument.
- `Lifecycle` (`lifecycle.dfy`): a sequence of handle calls applied one after another, and what holds of every call once `init` has run.

The decoder of the inner payload (`from_binary`) is a parameter `decode: Binary -> Option<HandleMsg>`;
`None` stands for a payload that does not parse.

`contract.rs` has no order queue, escrow, withdrawal or view-key authorisation:
`create_limit_order` and `query` are stubs, and their models are stubs too.

## Model

| member | source | states |
|---|---|---|
| State.Load | contracts/secret-order-book/src/contract.rs:97-100 | a load succeeds exactly when the slot is stored and then yields the stored value; otherwise it fails with `NotFound` |
| State.Storage.Save | contracts/secret-order-book/src/contract.rs:21-32 | a save through a prefixed sub-store overwrites exactly the slot (namespace, key) and leaves every other slot alone |
| Contract.InitMessages | contracts/secret-order-book/src/contract.rs:34-65 | exactly three messages in the order token 1 register, token 2 register, factory callback. No message sends funds. Both register messages carry the same payload, built from the contract's own code hash. Each targets its own token's address with that token's hash. The callback targets the factory's address and hash and carries the factory key as `auth_key`, the contract's address and both token addresses |
| Contract.Init | contracts/secret-order-book/src/contract.rs:16-67 | afterwards each of the seven context slots holds the value from the init message. The stored keys are the old ones plus those seven, and every other slot is unchanged. The result is those three messages with an empty log |
| Contract.InitMessagesMatchStore | contracts/secret-order-book/src/contract.rs:21-57 | once the context is stored, each init message goes to the address and hash stored for its recipient, and the callback's `auth_key` is the stored factory key |
| Contract.Handle | contracts/secret-order-book/src/contract.rs:69-79 | storage is unchanged; every kind other than `Receive` fails with "Handler not found!"; `Receive` is passed to `TryReceive` with its four fields |
| Contract.TryReceive | contracts/secret-order-book/src/contract.rs:81-116 | storage is unchanged. The checks run in source order: undecodable payload → `ParseErr`; a nested `Receive` → the recursion error, whatever the storage and sender; a missing token address → `NotFound`; a notifying contract that is neither stored token → "⟨sender⟩ is not a known SNIP-20 coin…"; any inner message other than `CreateLimitOrder` from a known token → "Receive handler not found!". It succeeds if and only if the payload decodes to `CreateLimitOrder` and the notifying contract is one of the stored tokens, and success is the default response |
| Contract.TryReceiveIgnoresSenderFromAmount | contracts/secret-order-book/src/contract.rs:84-86 | the `sender`, `from` and `amount` arguments never change the outcome |
| Contract.CreateLimitOrder | contracts/secret-order-book/src/contract.rs:118-125 | storage is unchanged and the answer has no messages, no log and no data |
| Contract.Query | contracts/secret-order-book/src/contract.rs:127-135 | the only query succeeds with an empty `LimitOrders`, whatever the storage |
| Lifecycle.Run | contracts/secret-order-book/src/contract.rs:69-79 | the chain runtime's sequencing of `handle` calls, which `contract.rs` itself does not contain: each call is applied to the storage the previous one left, and every call is answered exactly once; what a run computes is stated by `Lifecycle.RunKeepsStore` |
| Lifecycle.RunKeepsStore | contracts/secret-order-book/src/contract.rs:74-125 | a run ends with the storage it started from, and each call is answered as if it were applied to that storage alone |
| Lifecycle.RunAcceptsExactlyOrderDeposits | contracts/secret-order-book/src/contract.rs:69-116 | after `init`'s context is stored, across any run: the context stays stored. A call succeeds if and only if it is a `Receive` from one of the two tokens named at init whose payload decodes to `CreateLimitOrder`. Every success is the default response, with no outbound message. A decodable, non-nested deposit from any other contract fails with that contract's name in the unknown-coin error |

## Left out

- Serialisation: `to_binary`, `from_binary`, the encoding of stored values and the
  padding done by `HandleCallback::to_cosmos_msg`. Payloads are kept as the values they encode, and the decoder is a parameter.
- Serialisation failures: the `?` after each save, after `to_binary` and after `to_cosmos_msg` in `init`, and the
  `to_binary` of the answer in `query`, are not modelled as error paths. `to_binary` and `to_cosmos_msg` encode plain strings and records of strings,
  which cannot fail, and a save is assumed never to fail (see the next line), so `Init` and `Query` always succeed.
- `save` and `load` come from the crate's `state.rs`, which is not part of this model. The model assumes that a save
  overwrites one prefixed slot and never fails, that a load returns the value saved there, and that a load of an absent slot fails with `NotFound`.
- The texts of the `NotFound` and `ParseErr` errors: only the error kind is modelled.
- The byte layout of prefixed storage keys: a slot is the pair (namespace, key), so distinct pairs never collide by construction.
- `InitMsg`, `HandleMsg`, `QueryMsg`, `QueryAnswer`, `Snip20Msg` and `FactoryHandleMsg` come from `msg.rs`, which is
  not part of this model; their fields are inferred from how `contract.rs` builds and matches them. `HandleMsg`'s kinds other than
  `Receive` and `CreateLimitOrder` are collapsed into one `OtherHandleMsg` constructor, since
  `handle` answers all of them alike.
- The `Api` and `Querier` parts of `deps`, and the environment's block and fund information: the contract never uses them.
- Rollback of a failed call and the execution of outbound messages belong to the chain runtime.
- The unused `BLOCK_SIZE` constant.
- The order queue, escrow, withdrawal, view-key authorisation and order crossing: none is implemented in `contract.rs`.
- The web front end (`www/src/App.tsx`): it is user interface and network I/O.
