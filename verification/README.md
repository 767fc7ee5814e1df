# Fund-forwarding contract — Dafny model

This project models a small CosmWasm contract that forwards funds. Any caller may
attach funds to a `TokenSend`. The contract relays the whole attached list, in one
bank `Send`, to a single configured receiver. The owner set at instantiation may
later replace that receiver with `ResetReceiver`. `GetReceiver` reports the current
receiver.

Layout:

- `cosmwasm_std.dfy` (module `CosmwasmStd`): the host types the contract uses. These
  are coins, the call environment, bank messages, log attributes, responses and the
  four error kinds. It also holds the address codec `Api`. The codec is injected as
  two partial functions: `canonicalAddress` and `humanAddress`. The round trip
  `RoundTrip(api)` is assumed of the host. It appears only as a lemma precondition
  and is never proved.
- `msg.dfy` (module `Msg`): `InitMsg`, `HandleMsg` (`TokenSend` | `ResetReceiver`),
  `QueryMsg` (`GetReceiver`) and `ReceiverResponse`. These are datatypes, so they have
  structural equality. `HandleMsg` is closed, so the dispatcher's match is exhaustive.
- `state.dfy` (module `StateStore`): the singleton `State { receiver, owner }` of
  canonical addresses. Storage is `Option<State>`, where `None` means `init` never
  ran. It also has `Load` and the all-or-nothing `Update`. Every `init` and `handle`
  call returns a `Step(result, store)`: the result, plus the storage the host
  commits afterwards. `Load` and the query return a bare `StdResult` and no storage.
- `contract.dfy` (module `Contract`): `Init`, `Handle`, `TryTokenSend`, `TryReset`,
  `Query` and `QueryReceiver`.
- `properties.dfy` (module `ContractProperties`): lemmas over sequences of `handle`
  calls (`Run`). It also restates the repository's four unit tests as lemmas. Each
  holds for every codec that canonicalises the test addresses. All but
  `FailedTokenSend` also need the codec to satisfy the round trip.

Instantiation fails when either the receiver string or the sender does not
canonicalise (src/contract.rs:16-17). `Init` models both failures.

## Model

| member | source | states |
|---|---|---|
| StateStore.Load | src/contract.rs:54 | Loading fails with `NotFound` exactly when no record was ever saved; otherwise it returns the saved record. |
| StateStore.Update | src/contract.rs:78-84 | An update runs the closure on the loaded record. It saves the closure's result only when that result is `Ok`. On any error, including a missing record (`NotFound`), storage is unchanged. |
| Contract.Find | src/contract.rs:45-49 | `find` returns nothing exactly when no entry is positive `uusd`. Otherwise it returns a qualifying entry with no qualifying entry before it. |
| Contract.Init | src/contract.rs:9-23 | Init succeeds iff both the receiver string and the sender canonicalise. On success it stores `State(Canon(receiver), Canon(sender))` and returns no messages and no log entries. On failure it returns `AddrConversion` and stores nothing. |
| Contract.TryTokenSend | src/contract.rs:40-70 | Storage never changes. Without positive `uusd`, the result is the generic "You must pass some UST" error, and this holds in both directions. That check runs even before `init`. With positive `uusd` but no record, the result is `NotFound`. With positive `uusd` and a record whose receiver has no human form, the result is `AddrConversion`. The send succeeds iff there is positive `uusd`, a record, and a human form of the receiver. It then returns exactly one bank send, from the contract's address to that receiver, of the whole attached funds list. The log is exactly `action=send`, `recipient=<receiver>`, and there is no data. |
| Contract.TryReset | src/contract.rs:72-86 | On error, storage is unchanged. No record gives `NotFound`. A sender that does not canonicalise gives `AddrConversion`. A sender whose canonical form is not the owner gives `Unauthorized`. Success holds iff the sender's canonical form is the stored owner. Then the receiver is replaced, the owner is kept, and the response is empty. |
| Contract.Handle | src/contract.rs:25-38 | Every error leaves storage unchanged. `handle` never creates or deletes the record and never changes the owner. `TokenSend` never changes storage. A malformed new receiver fails with `AddrConversion` before storage or authorization is consulted, even for the owner. Storage changes only through a successful reset by the owner, to the new canonical receiver. Only `TokenSend` emits messages. |
| Contract.QueryReceiver | src/contract.rs:97-104 | The query succeeds iff a record exists and its receiver has a human form, and it returns that human form. A missing record gives `NotFound`. An unconvertible receiver gives `AddrConversion`. |
| Contract.Query | src/contract.rs:88-95 | `GetReceiver` answers the stored receiver's human form under the same success condition. The query takes storage but returns none, so it is read-only. |
| ContractProperties.RunBeforeInit | src/contract.rs:25-38 | Before `init`, no sequence of `handle` calls creates the record. |
| ContractProperties.RunKeepsOwner | src/contract.rs:78-84 | After `init`, no sequence of `handle` calls deletes the record or changes its owner. |
| ContractProperties.RunWithoutOwnerResetKeepsStore | src/contract.rs:30-37 | A sequence of calls leaves the record unchanged when none of them is a well-formed reset from the owner. Such calls include token sends, unauthorized resets and malformed resets. |
| ContractProperties.QueryStableWithoutOwnerReset | src/contract.rs:97-104 | Repeated queries return identical answers when no owner reset comes between them. |
| ContractProperties.InitThenQuery | src/contract.rs:14-18 | Under the codec round trip, a query right after a successful `init` returns the receiver string `init` was given. |
| ContractProperties.OnlyCreatorMayReset | src/contract.rs:78-83 | Under the codec round trip, take a reset with a well-formed new receiver after `init` by `creator`. It succeeds exactly when the sender is `creator`. Any other valid sender gets `Unauthorized`, and the record is kept. |
| ContractProperties.ResetThenQuery | src/contract.rs:82-85 | Under the codec round trip, a query right after a successful reset returns the new receiver string. |
| ContractProperties.ProperInitialization | src/contract.rs:113-132 | For any codec that satisfies the round trip and canonicalises `creator` and `terra1j40…`, init by `creator` with receiver `terra1j40…` succeeds with zero messages, and the query then returns `terra1j40…`. |
| ContractProperties.FailedTokenSend | src/contract.rs:135-155 | For any codec that canonicalises `creator` and `terra1w548…`, init by `creator` succeeds, and a following send from `anyone` with no attached funds fails with `GenericErr("You must pass some UST")`. |
| ContractProperties.TokenSendForwardsFunds | src/contract.rs:158-193 | For any codec that satisfies the round trip and canonicalises `creator` and `terra1w548…`, after init with receiver `terra1w548…` a send of `[100 uusd]` from `anyone` succeeds with exactly the one bank send of `[100 uusd]` from `cosmos2contract` to `terra1w548…` and exactly the log `action=send`, `recipient=terra1w548…`. |
| ContractProperties.ResetScenario | src/contract.rs:196-230 | For any codec that satisfies the round trip and canonicalises the four test addresses, after init by `creator` with receiver `terra1j40…` a reset to `terra1w548…` by `anyone` fails with `Unauthorized`, the same reset by `creator` then succeeds, and the query then returns `terra1w548…`. |

## Left out

- The bodies of the address codec (`canonical_address` and `human_address`). They are host services whose code is not visible. The model takes them as parameters, and it assumes the round trip instead of proving it.
- src/state.rs is not part of this model. `config`, `config_read` and the `State` record are modelled as `Option<State>` with `Load` and `Update`. A serialisation failure inside `save` is not modelled, so `Init` cannot fail after both addresses canonicalise. A deserialisation failure inside `load` (src/contract.rs:54, 100) is not modelled either, because storage only ever holds the record the contract itself wrote.
- Serde/JSON and the `JsonSchema` derivations are not modelled. Neither is the `to_binary` encoding of the query answer: `Query` returns the `ReceiverResponse` itself rather than its JSON bytes.
- The `Extern<S, A, Q>` generics and the `Querier` are not modelled; the `Querier` is never used. Storage and the codec are passed explicitly instead.
- `Uint128` is modelled as an unbounded `nat`. The contract only compares amounts with zero and copies them, so the width does not matter.
- The host's error message texts are not modelled. Errors are kept only to the kind: generic, unauthorized, not found, or `AddrConversion`. The contract itself names no conversion error: `AddrConversion` stands for whatever error the host codec returns, which the contract passes on with `?` (src/contract.rs:16-17, 35, 55, 79, 102). The one message text kept is the contract's own "You must pass some UST".
- The block part of `Env` is not modelled, because the contract never reads it.
- The test harness (`mock_dependencies`, `mock_env`) is not modelled. The test lemmas use the contract address `cosmos2contract` as a plain string, and they hold for every codec that canonicalises the test addresses. All but `FailedTokenSend` also need the codec to satisfy the round trip.
- The host's one-call-at-a-time execution and the discard of writes on error are not modelled as concurrency. Each transition is a pure function that returns the storage the host commits.
