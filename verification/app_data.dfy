/** The shapes shared by the sync guard and the manager: errors and the
    callback-slot listener of the app-data layer. */
module AppData {
  import opened Outcomes
  import opened GoInts

  /** Errors raised by the indexer pipeline. `Foreign` stands for an error
      returned by a collaborator whose internals are not modelled (the JSON
      codec, an indexer's init function, `decoding.Sync`, a filter's
      validation, a listener callback); it is passed on unchanged. */
  datatype Error =
    | OutOfSync(lastBlockPersisted: Int64, height: Uint64)
    | TypeNotFound(typeName: string)
    | InvalidFilter(target: string, cause: Error)
    | CantConvert(goType: string)
    | Foreign(message: string)

  /** The `StartBlock` callback of a listener: either supplied by a backend
      (identified opaquely) or the sync guard's wrapper around the callback
      it replaced. */
  datatype StartBlockFn<M> =
    | Callback(id: nat)
    | SyncChecked(lastBlockPersisted: Int64, modules: M, inner: Option<StartBlockFn<M>>)

  /** A listener is a bundle of optional callbacks. `StartBlock` is the only
      slot this model interprets; every other slot (transactions, events,
      key/value writes, object updates, commit, ...) is carried by name. */
  datatype Listener<M> = Listener(startBlock: Option<StartBlockFn<M>>, otherSlots: map<string, nat>)
}
