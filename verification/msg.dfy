/**
  The contract's message types: what `init`, `handle` and `query` accept and
  what a query answers. All are plain values compared structurally.
 */
module Msg {

  /** Instantiation request: the human-readable address funds are forwarded to. */
  datatype InitMsg = InitMsg(receiver: string)

  /** Operation requests: a closed two-variant union. */
  datatype HandleMsg =
    | TokenSend
    | ResetReceiver(receiver: string)

  /** Query requests: `GetReceiver` is the only one. */
  datatype QueryMsg = GetReceiver

  /** Answer to `GetReceiver`: the receiver in its human-readable form. */
  datatype ReceiverResponse = ReceiverResponse(receiver: string)
}
