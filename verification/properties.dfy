/**
  Properties of the contract over sequences of calls, and the repository's
  unit-test scenarios restated for an arbitrary codec that canonicalises the
  test addresses (and, where a lemma requires it, satisfies the round trip).
 */
module ContractProperties {
  import opened CosmwasmStd
  import opened Msg
  import opened StateStore
  import opened Contract

  /** One `handle` invocation: its context and its message. */
  datatype Call = Call(env: Env, msg: HandleMsg)

  /** The storage after the host runs `calls` one after another, committing each step. */
  function Run(api: Api, store: Storage, calls: seq<Call>): Storage
    decreases |calls|
  {
    if |calls| == 0 then store
    else Run(api, Handle(api, calls[0].env, calls[0].msg, store).store, calls[1..])
  }

  /** A call that replaces the receiver: a well-formed reset sent by `owner`. */
  predicate IsOwnerReset(api: Api, call: Call, owner: CanonicalAddr) {
    && call.msg.ResetReceiver?
    && api.canonicalAddress(call.msg.receiver).Some?
    && api.canonicalAddress(call.env.message.sender) == Some(owner)
  }

  /** Before `init`, no sequence of operations creates the record. */
  lemma {:induction false} RunBeforeInit(api: Api, calls: seq<Call>)
    ensures Run(api, None, calls) == None
    decreases |calls|
  {
    if |calls| > 0 {
      RunBeforeInit(api, calls[1..]);
    }
  }

  /** Once initialised, the record is never deleted and its owner never changes. */
  lemma {:induction false} RunKeepsOwner(api: Api, store: Storage, calls: seq<Call>)
    requires store.Some?
    ensures Run(api, store, calls).Some?
    ensures Run(api, store, calls).value.owner == store.value.owner
    decreases |calls|
  {
    if |calls| > 0 {
      RunKeepsOwner(api, Handle(api, calls[0].env, calls[0].msg, store).store, calls[1..]);
    }
  }

  /** Without a well-formed reset from the owner, the stored record does not change. */
  lemma {:induction false} RunWithoutOwnerResetKeepsStore(api: Api, store: Storage, calls: seq<Call>)
    requires store.Some?
    requires forall i | 0 <= i < |calls| :: !IsOwnerReset(api, calls[i], store.value.owner)
    ensures Run(api, store, calls) == store
    decreases |calls|
  {
    if |calls| > 0 {
      assert !IsOwnerReset(api, calls[0], store.value.owner);
      assert Handle(api, calls[0].env, calls[0].msg, store).store == store;
      assert forall i | 0 <= i < |calls| - 1 :: calls[1..][i] == calls[i + 1];
      RunWithoutOwnerResetKeepsStore(api, store, calls[1..]);
    }
  }

  /**
    Repeated queries agree when no owner reset intervenes: any number of
    token sends, unauthorised resets or malformed resets leave the answer alone.
   */
  lemma QueryStableWithoutOwnerReset(api: Api, store: Storage, calls: seq<Call>, q: QueryMsg)
    requires store.Some?
    requires forall i | 0 <= i < |calls| :: !IsOwnerReset(api, calls[i], store.value.owner)
    ensures Query(api, Run(api, store, calls), q) == Query(api, store, q)
  {
    RunWithoutOwnerResetKeepsStore(api, store, calls);
  }

  /** After a successful `init`, the query answers the receiver string `init` was given. */
  lemma InitThenQuery(api: Api, env: Env, msg: InitMsg, store: Storage)
    requires RoundTrip(api)
    requires Init(api, env, msg, store).result.Ok?
    ensures Query(api, Init(api, env, msg, store).store, GetReceiver) == Ok(ReceiverResponse(msg.receiver))
  {
  }

  /**
    After `init` by `creator`, a reset sent by `sender` with a well-formed new
    receiver succeeds exactly when `sender` is `creator`; any other sender with
    a valid address is refused as unauthorised and the record is kept.
   */
  lemma OnlyCreatorMayReset(api: Api, creator: HumanAddr, sender: HumanAddr, receiver: string,
                            newReceiver: string, initFunds: seq<Coin>, resetFunds: seq<Coin>,
                            contract: ContractInfo)
    requires RoundTrip(api)
    requires api.canonicalAddress(creator).Some? && api.canonicalAddress(receiver).Some?
    requires api.canonicalAddress(sender).Some? && api.canonicalAddress(newReceiver).Some?
    ensures
      var init := Init(api, Env(MessageInfo(creator, initFunds), contract), InitMsg(receiver), None);
      var reset := Handle(api, Env(MessageInfo(sender, resetFunds), contract), ResetReceiver(newReceiver), init.store);
      && (reset.result.Ok? <==> sender == creator)
      && (sender != creator ==> reset.result == Err(Unauthorized) && reset.store == init.store)
  {
    if api.canonicalAddress(sender) == api.canonicalAddress(creator) {
      CanonicalInjective(api, sender, creator);
    }
  }

  /** After a successful owner reset, the query answers the new receiver string. */
  lemma ResetThenQuery(api: Api, env: Env, newReceiver: string, store: Storage)
    requires RoundTrip(api)
    requires Handle(api, env, ResetReceiver(newReceiver), store).result.Ok?
    ensures Query(api, Handle(api, env, ResetReceiver(newReceiver), store).store, GetReceiver)
            == Ok(ReceiverResponse(newReceiver))
  {
  }

  const Creator: HumanAddr := "creator"
  const Anyone: HumanAddr := "anyone"
  const ReceiverA: HumanAddr := "terra1j40dd3k6f3wmlx8h00eg5avasjygvsh3pg3g5p"
  const ReceiverB: HumanAddr := "terra1w548z72h5mgf6cgdkrx5h7fqk3e5wdejkv22d5"

  function MockEnv(sender: HumanAddr, funds: seq<Coin>): Env {
    Env(MessageInfo(sender, funds), ContractInfo("cosmos2contract"))
  }

  /** Test `proper_initialization`: init succeeds with no messages and the query returns the receiver. */
  lemma ProperInitialization(api: Api)
    requires RoundTrip(api)
    requires api.canonicalAddress(Creator).Some? && api.canonicalAddress(ReceiverA).Some?
    ensures
      var init := Init(api, MockEnv(Creator, [Coin("uusd", 1000)]), InitMsg(ReceiverA), None);
      && init.result.Ok?
      && |init.result.value.messages| == 0
      && Query(api, init.store, GetReceiver) == Ok(ReceiverResponse(ReceiverA))
  {
    InitThenQuery(api, MockEnv(Creator, [Coin("uusd", 1000)]), InitMsg(ReceiverA), None);
  }

  /**
    Test `failed_tokensend`: init succeeds, and a later send with no funds fails
    with the generic "no UST" error.
   */
  lemma FailedTokenSend(api: Api)
    requires api.canonicalAddress(Creator).Some? && api.canonicalAddress(ReceiverB).Some?
    ensures
      var init := Init(api, MockEnv(Creator, [Coin("token", 1000)]), InitMsg(ReceiverB), None);
      var send := Handle(api, MockEnv(Anyone, []), TokenSend, init.store);
      && init.result.Ok?
      && send.result == Err(GenericErr("You must pass some UST"))
  {
  }

  /**
    Test `tokensend`: 100 uusd from anyone is forwarded in full to the receiver,
    with the two log entries in order.
   */
  lemma TokenSendForwardsFunds(api: Api)
    requires RoundTrip(api)
    requires api.canonicalAddress(Creator).Some? && api.canonicalAddress(ReceiverB).Some?
    ensures
      var init := Init(api, MockEnv(Creator, [Coin("uusd", 1000)]), InitMsg(ReceiverB), None);
      var send := Handle(api, MockEnv(Anyone, [Coin("uusd", 100)]), TokenSend, init.store);
      && send.result.Ok?
      && send.result.value.messages == [Bank(Send("cosmos2contract", ReceiverB, [Coin("uusd", 100)]))]
      && send.result.value.log == [LogAttribute("action", "send"), LogAttribute("recipient", ReceiverB)]
  {
  }

  /**
    Test `reset`: a reset by anyone is unauthorised, a reset by the creator
    succeeds, and the query then returns the new receiver.
   */
  lemma ResetScenario(api: Api)
    requires RoundTrip(api)
    requires api.canonicalAddress(Creator).Some? && api.canonicalAddress(Anyone).Some?
    requires api.canonicalAddress(ReceiverA).Some? && api.canonicalAddress(ReceiverB).Some?
    ensures
      var funds := [Coin("token", 2)];
      var init := Init(api, MockEnv(Creator, funds), InitMsg(ReceiverA), None);
      var denied := Handle(api, MockEnv(Anyone, funds), ResetReceiver(ReceiverB), init.store);
      var allowed := Handle(api, MockEnv(Creator, funds), ResetReceiver(ReceiverB), denied.store);
      && denied.result == Err(Unauthorized)
      && allowed.result.Ok?
      && Query(api, allowed.store, GetReceiver) == Ok(ReceiverResponse(ReceiverB))
  {
    var funds := [Coin("token", 2)];
    var contract := ContractInfo("cosmos2contract");
    OnlyCreatorMayReset(api, Creator, Anyone, ReceiverA, ReceiverB, funds, funds, contract);
    OnlyCreatorMayReset(api, Creator, Creator, ReceiverA, ReceiverB, funds, funds, contract);
    var init := Init(api, MockEnv(Creator, funds), InitMsg(ReceiverA), None);
    ResetThenQuery(api, MockEnv(Creator, funds), ReceiverB, init.store);
  }
}
