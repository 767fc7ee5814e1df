/**
  The slice of the host library the contract is written against: coins, the
  per-call environment, outgoing bank messages, log attributes, responses, the
  error kinds the contract can produce, and the host's address codec.
 */
module CosmwasmStd {

  newtype byte = x: int | 0 <= x < 256

  /** Human-readable (bech32-style) address, as carried in messages. */
  type HumanAddr = string

  /** Canonical binary address, as persisted and compared. */
  type CanonicalAddr = seq<byte>

  datatype Option<+T> = None | Some(value: T)

  /** The error kinds the contract can surface; host message texts are not modelled. */
  datatype StdError =
    | GenericErr(msg: string)
    | Unauthorized
    | NotFound
    | AddrConversion

  datatype StdResult<+T> = Ok(value: T) | Err(error: StdError)

  /** One attached fund; `Uint128` is modelled as an unbounded `nat`. */
  datatype Coin = Coin(denom: string, amount: nat)

  datatype MessageInfo = MessageInfo(sender: HumanAddr, sentFunds: seq<Coin>)

  datatype ContractInfo = ContractInfo(address: HumanAddr)

  /** The host-supplied context of one call. */
  datatype Env = Env(message: MessageInfo, contract: ContractInfo)

  datatype BankMsg = Send(fromAddress: HumanAddr, toAddress: HumanAddr, amount: seq<Coin>)

  datatype CosmosMsg = Bank(bank: BankMsg)

  datatype LogAttribute = LogAttribute(key: string, value: string)

  datatype InitResponse = InitResponse(messages: seq<CosmosMsg>, log: seq<LogAttribute>)

  datatype HandleResponse =
    HandleResponse(messages: seq<CosmosMsg>, log: seq<LogAttribute>, data: Option<seq<byte>>)

  /** `InitResponse::default()`: no messages, no log entries. */
  const EmptyInitResponse: InitResponse := InitResponse([], [])

  /** `HandleResponse::default()`: no messages, no log entries, no data. */
  const EmptyHandleResponse: HandleResponse := HandleResponse([], [], None)

  /**
    The host's address codec, injected into every handler that needs it.
    Both directions are partial: a malformed string has no canonical form and a
    corrupted canonical address has no human form.
   */
  datatype Api = Api(
    canonicalAddress: HumanAddr -> Option<CanonicalAddr>,
    humanAddress: CanonicalAddr -> Option<HumanAddr>)

  /**
    The codec assumption the lemmas rely on: whatever canonicalises comes back
    unchanged through `humanAddress`. It is assumed of the host, never proved.
   */
  ghost predicate RoundTrip(api: Api) {
    forall h: HumanAddr :: api.canonicalAddress(h).Some? ==>
      api.humanAddress(api.canonicalAddress(h).value) == Some(h)
  }

  /** Under the round-trip assumption two strings with the same canonical form are equal. */
  lemma CanonicalInjective(api: Api, a: HumanAddr, b: HumanAddr)
    requires RoundTrip(api)
    requires api.canonicalAddress(a).Some? && api.canonicalAddress(a) == api.canonicalAddress(b)
    ensures a == b
  {
  }
}
