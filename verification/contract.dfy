/**
  The fund-forwarding contract: instantiation, the `handle` dispatcher with its
  two operations, and the receiver query. Every transition is a pure function
  of the codec, the call context and the storage it starts from.
 */
module Contract {
  import opened CosmwasmStd
  import opened Msg
  import opened StateStore

  /** The stable-value denomination a `TokenSend` must carry. */
  const StableDenom: string := "uusd"

  const NoUstMessage: string := "You must pass some UST"

  /** A fund entry that lets `TokenSend` through: positive `uusd`. */
  predicate Qualifies(c: Coin) {
    c.denom == StableDenom && c.amount > 0
  }

  /** The attached funds hold at least one qualifying entry. */
  predicate HasUst(funds: seq<Coin>) {
    exists i | 0 <= i < |funds| :: Qualifies(funds[i])
  }

  /** `Iterator::find` over the attached funds with the qualifying test. */
  function Find(funds: seq<Coin>): (r: Option<Coin>)
    ensures r.None? <==> !HasUst(funds)
    ensures r.Some? ==> Qualifies(r.value)
    ensures r.Some? ==> exists i | 0 <= i < |funds| ::
      funds[i] == r.value && forall j | 0 <= j < i :: !Qualifies(funds[j])
    decreases |funds|
  {
    if |funds| == 0 then None
    else if Qualifies(funds[0]) then Some(funds[0])
    else
      var r := Find(funds[1..]);
      assert forall k | 0 <= k < |funds| - 1 :: funds[1..][k] == funds[k + 1];
      r
  }

  /**
    `init`: canonicalises the receiver string, then the sender, and saves both.
    Any conversion failure aborts with nothing saved.
   */
  function Init(api: Api, env: Env, msg: InitMsg, store: Storage): (r: Step<InitResponse>)
    ensures r.result.Ok? <==>
      api.canonicalAddress(msg.receiver).Some? && api.canonicalAddress(env.message.sender).Some?
    ensures r.result.Ok? ==>
      && r.store == Some(State(api.canonicalAddress(msg.receiver).value,
                               api.canonicalAddress(env.message.sender).value))
      && r.result.value.messages == []
      && r.result.value.log == []
    ensures r.result.Err? ==> r.result.error == AddrConversion && r.store == store
  {
    match api.canonicalAddress(msg.receiver)
    case None => Step(Err(AddrConversion), store)
    case Some(receiver) =>
      match api.canonicalAddress(env.message.sender)
      case None => Step(Err(AddrConversion), store)
      case Some(owner) => Step(Ok(EmptyInitResponse), Some(State(receiver, owner)))
  }

  /**
    `try_tokensend`: rejects a call without positive `uusd` before touching
    storage; otherwise forwards the whole attached funds list to the receiver.
   */
  function TryTokenSend(api: Api, env: Env, store: Storage): (r: Step<HandleResponse>)
    ensures r.store == store
    ensures r.result == Err(GenericErr(NoUstMessage)) <==> !HasUst(env.message.sentFunds)
    ensures HasUst(env.message.sentFunds) && store.None? ==> r.result == Err(NotFound)
    ensures HasUst(env.message.sentFunds) && store.Some? && api.humanAddress(store.value.receiver).None? ==>
      r.result == Err(AddrConversion)
    ensures r.result.Ok? <==>
      && HasUst(env.message.sentFunds)
      && store.Some?
      && api.humanAddress(store.value.receiver).Some?
    ensures r.result.Ok? ==>
      var recipient := api.humanAddress(store.value.receiver).value;
      && r.result.value.messages ==
           [Bank(Send(env.contract.address, recipient, env.message.sentFunds))]
      && r.result.value.log ==
           [LogAttribute("action", "send"), LogAttribute("recipient", recipient)]
      && r.result.value.data == None
  {
    var funds := env.message.sentFunds;
    if Find(funds).None? then
      Step(Err(GenericErr(NoUstMessage)), store)
    else
      match Load(store)
      case Err(e) => Step(Err(e), store)
      case Ok(state) =>
        match api.humanAddress(state.receiver)
        case None => Step(Err(AddrConversion), store)
        case Some(recipient) =>
          var log := [LogAttribute("action", "send"), LogAttribute("recipient", recipient)];
          var send := Bank(Send(env.contract.address, recipient, funds));
          Step(Ok(HandleResponse([send], log, None)), store)
  }

  /** The body `try_reset` hands to `update`: the owner check, then the new receiver. */
  function ResetAction(api: Api, sender: HumanAddr, receiver: CanonicalAddr, state: State): StdResult<State> {
    match api.canonicalAddress(sender)
    case None => Err(AddrConversion)
    case Some(caller) =>
      if caller != state.owner then Err(Unauthorized)
      else Ok(state.(receiver := receiver))
  }

  /**
    `try_reset`: owner-gated replacement of the stored receiver by an already
    canonical address. The sender is re-canonicalised on every call.
   */
  function TryReset(api: Api, env: Env, receiver: CanonicalAddr, store: Storage): (r: Step<HandleResponse>)
    ensures r.result.Err? ==> r.store == store
    ensures store.None? ==> r.result == Err(NotFound)
    ensures store.Some? && api.canonicalAddress(env.message.sender).None? ==>
      r.result == Err(AddrConversion)
    ensures store.Some? && api.canonicalAddress(env.message.sender).Some?
            && api.canonicalAddress(env.message.sender).value != store.value.owner ==>
      r.result == Err(Unauthorized)
    ensures r.result.Ok? <==>
      store.Some? && api.canonicalAddress(env.message.sender) == Some(store.value.owner)
    ensures r.result.Ok? ==>
      && r.store == Some(State(receiver, store.value.owner))
      && r.result.value == EmptyHandleResponse
  {
    var sender := env.message.sender;
    var u := Update(store, (state: State) => ResetAction(api, sender, receiver, state));
    match u.result
    case Err(e) => Step(Err(e), u.store)
    case Ok(_) => Step(Ok(EmptyHandleResponse), u.store)
  }

  /**
    `handle`: routes each operation to its handler. The new receiver of a
    `ResetReceiver` is canonicalised here, before storage or the owner check.
   */
  function Handle(api: Api, env: Env, msg: HandleMsg, store: Storage): (r: Step<HandleResponse>)
    ensures r.result.Err? ==> r.store == store
    ensures r.store.Some? <==> store.Some?
    ensures store.Some? ==> r.store.value.owner == store.value.owner
    ensures msg.TokenSend? ==> r.store == store
    ensures msg.ResetReceiver? && api.canonicalAddress(msg.receiver).None? ==>
      r == Step(Err(AddrConversion), store)
    ensures r.store != store ==>
      && msg.ResetReceiver?
      && r.result.Ok?
      && store.Some?
      && api.canonicalAddress(env.message.sender) == Some(store.value.owner)
      && r.store == Some(State(api.canonicalAddress(msg.receiver).value, store.value.owner))
    ensures r.result.Ok? && r.result.value.messages != [] ==> msg.TokenSend?
  {
    match msg
    case TokenSend => TryTokenSend(api, env, store)
    case ResetReceiver(receiver) =>
      match api.canonicalAddress(receiver)
      case None => Step(Err(AddrConversion), store)
      case Some(canonical) => TryReset(api, env, canonical, store)
  }

  /** `query_receiver`: the stored receiver in human-readable form. */
  function QueryReceiver(api: Api, store: Storage): (r: StdResult<ReceiverResponse>)
    ensures r.Ok? <==> store.Some? && api.humanAddress(store.value.receiver).Some?
    ensures r.Ok? ==> Some(r.value.receiver) == api.humanAddress(store.value.receiver)
    ensures store.None? ==> r == Err(NotFound)
    ensures store.Some? && api.humanAddress(store.value.receiver).None? ==> r == Err(AddrConversion)
  {
    match Load(store)
    case Err(e) => Err(e)
    case Ok(state) =>
      match api.humanAddress(state.receiver)
      case None => Err(AddrConversion)
      case Some(h) => Ok(ReceiverResponse(h))
  }

  /**
    `query`: read-only dispatch. It takes the storage but returns none, so it
    cannot change it.
   */
  function Query(api: Api, store: Storage, msg: QueryMsg): (r: StdResult<ReceiverResponse>)
    ensures r.Ok? <==> store.Some? && api.humanAddress(store.value.receiver).Some?
    ensures r.Ok? ==> Some(r.value.receiver) == api.humanAddress(store.value.receiver)
  {
    match msg
    case GetReceiver => QueryReceiver(api, store)
  }
}
