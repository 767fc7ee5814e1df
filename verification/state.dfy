/**
  The singleton persisted record and the two storage accessors the contract
  uses: `load` and the all-or-nothing `update`.
 */
module StateStore {
  import opened CosmwasmStd

  datatype State = State(receiver: CanonicalAddr, owner: CanonicalAddr)

  /** `None` means `init` never ran, so nothing was saved under the config key. */
  type Storage = Option<State>

  /** The outcome of one call: its result and the storage the host commits afterwards. */
  datatype Step<+R> = Step(result: StdResult<R>, store: Storage)

  /** Reads the record; a missing record is `NotFound`. */
  function Load(store: Storage): (r: StdResult<State>)
    ensures r.Ok? <==> store.Some?
    ensures r.Ok? ==> store == Some(r.value)
    ensures r.Err? ==> r.error == NotFound
  {
    match store
    case None => Err(NotFound)
    case Some(s) => Ok(s)
  }

  /**
    Loads the record, applies `action`, and saves what it returns only when it
    returns `Ok`; on any error the storage is left as it was.
   */
  function Update(store: Storage, action: State -> StdResult<State>): (r: Step<State>)
    ensures r.result.Err? ==> r.store == store
    ensures store.None? ==> r.result == Err(NotFound)
    ensures store.Some? ==> r.result == action(store.value)
    ensures r.result.Ok? ==> r.store == Some(r.result.value)
  {
    match Load(store)
    case Err(e) => Step(Err(e), store)
    case Ok(s) =>
      match action(s)
      case Err(e) => Step(Err(e), store)
      case Ok(s') => Step(Ok(s'), Some(s'))
  }
}
