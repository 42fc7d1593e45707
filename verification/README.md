# Indexer core of the Cosmos SDK schema pipeline, modelled in Dafny

This project models three small, sequential pieces of the indexer pipeline that
fans the state machine's change stream out to configured indexer targets:

- **the value-kind registry** (`indexer/base/kind.go`). `Kind` is a Go `int`
  with named constants InvalidKind = 0 through JSONKind = 20. The model covers
  the range check `Validate`, the per-kind acceptance table
  `ValidateValueType`, the canonical names `String`, and the best-effort
  inference `KindForGoValue`. A Go value is modelled as its dynamic type tag
  plus a flag saying whether the type implements `fmt.Stringer` (`Kinds.GoValue`).
- **the sync and sanity guard** (`schema/indexer/sync.go`). The guard replaces
  a listener's `StartBlock` slot. On the first block it compares the target's
  last persisted height `L` with the block height `H`. It then forwards the
  block, makes one catch-up `decoding.Sync` call, or fails. The closure's
  `initialized` flag becomes an explicit `GuardState` that also records the
  sync calls and the forwarded heights. The answers of `decoding.Sync` and of
  the replaced callback are parameters of each call (`SyncGuard.Env`).
- **the manager** (`schema/indexer/manager.go`). `StartManager` runs these
  steps in order:
  1. Default the logger.
  2. Decode the configuration (`unmarshalConfig`).
  3. Default the context.
  4. For each target: look up its type in the registry, validate its filter,
     call its init function, wrap the listener with the filter, then wrap it
     with the sync guard.
  5. Combine the module filters and apply the result to the multiplexed root
     listener.

  Go visits the configuration map in an unspecified order. `Manager.MapOrder`
  therefore picks each next target with `:|`, so every proved property holds
  for every visiting order. The collaborators whose code is not modelled are
  function-valued fields of `Manager.Collaborators`:
  - the JSON codec;
  - the registry of init functions;
  - the filter's `Validate` and `Apply`;
  - `combineModuleFilters`;
  - the module filter's `Apply`;
  - `AsyncListenerMux`.

The files are:
- `outcomes.dfy`: the `Option`, `Result` and `Outcome` wrappers.
- `go_ints.dfy`: Go `int64` and `uint64`, and two's-complement wrap-around.
- `kinds.dfy`: the kind registry.
- `app_data.dfy`: errors and the listener record.
- `sync_guard.dfy`: the sync and sanity guard.
- `manager.dfy`: the manager.

Two details of the code shape the model:
- Each target listener is wrapped by its filter's `Apply` first, and the sync
  guard is installed outside that (`schema/indexer/manager.go` lines 98-99).
- The catch-up `decoding.Sync` call carries only the module filter, with no
  upper height bound (`schema/indexer/sync.go` lines 41-43).

Modelling notes:
- The guard's height test is Go's `lastBlockPersisted+1 != int64(data.Height)`.
  Both the `int64` addition and the conversion from `uint64` wrap around, and
  the model writes out that wrap-around. For every `L >= 0` the test is exactly
  `H == L + 1` (`SyncGuard.InSequenceExact`). For a negative `L` other than -1,
  the test instead accepts the height `L + 1 + 2^64` (`SyncGuard.InSequenceNegative`).
- The Bech32Address mismatch error reads "expected string or []byte", but the
  kind also accepts any `fmt.Stringer`. The model keeps that message as it is.
- In Go, `time.Time` and `time.Duration` implement `fmt.Stringer`. The
  `string, fmt.Stringer` case is matched first, so such values are inferred as
  StringKind. TimeKind and DurationKind are never inferred for a well-formed
  value (`Kinds.NoWellFormedTimeInference`).

## Model

| member | source | states |
|---|---|---|
| Kinds.Validate | indexer/base/kind.go:90-99 | A kind passes iff it is one of the twenty declared kinds after InvalidKind. A kind `<= 0` fails with "unknown type" and a kind above JSONKind fails with "invalid type", each carrying the kind. |
| Kinds.ValidateValueType | indexer/base/kind.go:101-216 | JSONKind admits every value and an out-of-range kind admits none (error "invalid type"). Any other refusal is an "expected ..." error naming the value's actual type. |
| Kinds.ValidateValueTypeAsDocumented | indexer/base/kind.go:14-87 | For every kind other than JSONKind and every value, the check passes iff the declaration comment of the kind admits the value's Go type or, where the comment says so, a `fmt.Stringer`. The JSONKind comment admits `json.RawMessage` or any JSON-marshalable value; a `GoValue` cannot tell whether a value marshals, so the reference table admits every value there, as the switch does. |
| Kinds.FixedKindAcceptsExactType | indexer/base/kind.go:114-158 | Bytes, the eight fixed-width integers, Bool, Time, Duration, Float32 and Float64 each accept a value iff its Go type is exactly their named type. Being a Stringer does not help, and an int32 is refused by Int64Kind. |
| Kinds.StringKindAccepts | indexer/base/kind.go:108-113 | String accepts exactly the strings and the Stringers, whatever their contents. |
| Kinds.DecimalKindAccepts | indexer/base/kind.go:166-171 | Decimal accepts exactly the strings and the Stringers; the decimal text is not checked. |
| Kinds.EnumKindAccepts | indexer/base/kind.go:204-209 | Enum accepts exactly the strings and the Stringers; membership in the enum is not checked. |
| Kinds.IntegerKindAccepts | indexer/base/kind.go:159-165 | Integer accepts exactly the strings, the Stringers and `int64`. |
| Kinds.Bech32AddressKindAccepts | indexer/base/kind.go:197-203 | Bech32Address accepts exactly the strings, the Stringers and `[]byte`. |
| Kinds.String | indexer/base/kind.go:218-264 | The name is empty iff the kind fails `Validate`. |
| Kinds.StringIsLowercase | indexer/base/kind.go:218-264 | Every name consists of lowercase letters and digits only. |
| Kinds.StringInjective | indexer/base/kind.go:218-264 | Two valid kinds with the same name are the same kind, so the twenty names are distinct. |
| Kinds.KindForGoValue | indexer/base/kind.go:266-309 | Inference is total and always yields a kind that passes `Validate`. It never yields InvalidKind, Integer, Decimal, Bech32Address or Enum. A string or any Stringer gives StringKind, and raw JSON and unknown types give JSONKind. `ValidateValueType` accepts the value under the inferred kind. |
| Kinds.KindForFixedType | indexer/base/kind.go:276-303 | A non-Stringer value of a fixed kind's Go type is inferred as exactly that kind, so inference inverts the fixed kinds' acceptance. |
| Kinds.NoWellFormedTimeInference | indexer/base/kind.go:273-303 | Since `time.Time` and `time.Duration` are Stringers, they are inferred as StringKind. TimeKind and DurationKind are never inferred for a well-formed value. |
| GoInts.WrapInt64 | schema/indexer/sync.go:44 | The wrapped value is congruent to its argument modulo 2^64 and lies in the `int64` range. It equals the argument inside that range and is the argument minus 2^64 in the upper half of the `uint64` range. |
| SyncGuard.AddSyncAndSanityCheck | schema/indexer/sync.go:10-32 | With `L == -1` the listener is returned unchanged. Otherwise only the StartBlock slot changes: it becomes a guard whose captured closure is `L`, the module filter and whether a callback was replaced. Every other slot is kept. |
| SyncGuard.CallSlot | schema/indexer/sync.go:17-31 | Calling a StartBlock slot that holds no guard never checks and never syncs; an empty slot answers nil and forwards nothing. |
| SyncGuard.InstalledSlotRunsGuard | schema/indexer/sync.go:10-31 | With `L == -1` the slot behaves exactly as before the call, so a listener without a guard never checks or syncs. Otherwise every block start through the installed slot runs `StartBlock` on the guard for this `L`, this module filter and the replaced callback. |
| SyncGuard.InSequenceExact | schema/indexer/sync.go:44 | For `L >= 0`, the wrapped `int64` comparison holds iff `H == L + 1`. |
| SyncGuard.InSequenceNegative | schema/indexer/sync.go:44 | For `L < -1`, the wrapped comparison holds iff `H == L + 1 + 2^64`. |
| SyncGuard.DoSyncAndSanityCheck | schema/indexer/sync.go:34-50 | With `L = 0` and `H = 1` there is no sync and no error. With `L = 0` and any other `H`, exactly one sync is made; it carries only the module filter and its answer is returned. For every other `L` no sync is made, and any failure is the error carrying both `L` and `H`. With `L > 0` the check passes iff `H = L + 1`. With `L < -1` it passes iff `H = L + 1 + 2^64`, because both sides wrap. |
| SyncGuard.StartBlock | schema/indexer/sync.go:17-31 | Once initialized, the guard makes no check and no sync and only forwards the block. Before that, it runs the check. A failed check returns the error, forwards nothing and leaves the guard uninitialized. A passed check sets the flag and forwards the block; if no StartBlock was set, the guard returns nil. |
| SyncGuard.RunAfterInitialized | schema/indexer/sync.go:18-29 | After one successful check the guard stays initialized over any later run, the sync-call record is never extended again, and every later height is forwarded in order (none when no callback was replaced). |
| SyncGuard.AnswersAfterInitialized | schema/indexer/sync.go:18-29 | After one successful check every later block start answers with the replaced callback's answer, or nil when there is none. |
| SyncGuard.CatchUpExactlyOnce | schema/indexer/sync.go:35-43 | A target at `L = 0` whose first block is not 1 gets exactly one catch-up sync, with its module filter, over a whole run when that sync succeeds. |
| SyncGuard.NoGapNoDuplicate | schema/indexer/sync.go:18-49 | For `L > 0`, no sync is ever made over any run. No block start is forwarded to the replaced StartBlock callback before the check passes, and the first height forwarded to it is `L + 1`. Later heights are forwarded without a further check (see `SyncGuard.RunAfterInitialized`). |
| SyncGuard.RefusalsNameBothHeights | schema/indexer/sync.go:20-23 | For `L > 0`, each block start before the first one at height `L + 1` is refused with an error carrying `L` and its own height. Because the guard stays uninitialized, each refused block start repeats the check. |
| Manager.UnmarshalConfig | schema/indexer/manager.go:119-138 | An input that is neither a map nor raw JSON fails with "can't convert". Raw JSON goes to the decoder unchanged. A map whose marshalling fails returns that error. |
| Manager.RawJsonSkipsMarshal | schema/indexer/manager.go:129-130 | The result for raw JSON does not depend on the marshaller at all. |
| Manager.MapValueAsItsJson | schema/indexer/manager.go:123-137 | A map that marshals is decoded exactly as its JSON encoding would be. |
| Manager.DefaultLogger | schema/indexer/manager.go:50-53 | A missing logger becomes the no-op logger; a given one is kept. |
| Manager.DefaultContext | schema/indexer/manager.go:64-67 | A missing context becomes the background context; a given one is kept. |
| Manager.ChildLogger | schema/indexer/manager.go:84-87 | A scopeable host logger is scoped to the target's name. Any other logger, in particular the default no-op logger, is handed to the target unchanged. |
| Manager.StartTarget | schema/indexer/manager.go:72-99 | The target starts iff its type is registered, its filter validates and its init call succeeds. The registry lookup comes first: an unknown type fails with an error naming the type, whatever the filter. Filter validation comes next and fails with an error naming the target. Init is called only past both checks, with the defaulted context and the child logger. An init error is passed on unchanged. On success, the listener is the init listener wrapped by the filter's Apply and then by the sync guard, using that target's `L` and module filter. |
| Manager.MapOrder | schema/indexer/manager.go:72 | The visiting order of the target map lists every configured target exactly once. |
| Manager.VisitOne | schema/indexer/manager.go:72-102 | One iteration succeeds iff its target starts. A failure carries that target's error; a success appends exactly its listener and its module filter, and the init call, when one was made, is recorded either way. |
| Manager.InitCallsUseDefaults | schema/indexer/manager.go:84-93 | Every init call made while visiting any sequence of targets receives the defaulted context, and the no-op logger when no logger was given. |
| Manager.VisitTargets | schema/indexer/manager.go:69-103 | Whatever the visiting order, each target is visited at most once and the loop stops at the first failure, after which all earlier targets had started. Without a failure, every target is visited and one listener and one module filter are collected per target. |
| Manager.StartManager | schema/indexer/manager.go:49-116 | A configuration that cannot be decoded aborts before any init call. Otherwise startup succeeds iff every target starts, and a failure returns the error of the last target visited. On success the visiting order is a permutation of the targets. The root filter combines their module filters, and the root listener is that filter applied to the multiplexed target listeners. Every init call sees the defaulted context, and the no-op logger when none was given. |

## Left out

- `AsyncListenerMux`, `combineModuleFilters`, the filter's `Validate` and `Apply`, and `ModuleFilterConfig.ToFunction` are not part of this model. They are uninterpreted functions, and the model only states when they are called and with what.
- The internals of `decoding.Sync` are not modelled. Its answer is a parameter of each block start, and the model does not model it calling back into the guard's listener.
- JSON marshalling and unmarshalling are uninterpreted, and only their success or error outcome is kept. The Go decoder returns a partially filled config alongside an error, but the manager discards it, so the model returns only the error.
- Logging calls (`logger.Info`) are left out because they have no effect on the result. Logger scoping (`WithAsAny`) is a symbolic `ScopedLogger` value. The no-op logger is assumed not to support scoping, because the logging utility package is not part of this model.
- The contents of the global indexer registry are a parameter (`Collaborators.registry`). The registration function is not part of this model.
- The backend-specific `Config` field of a target is an opaque number (`TargetConfig.backendConfig`). The manager never looks inside it, but it is part of the init call. So two targets of the same type and filter can still start differently.
- The guard gates only the StartBlock slot. The other callbacks of a block whose StartBlock was refused still reach the target's listener at this layer. Stopping a failed target is the job of the multiplexer, which is not modelled.
- Error messages are structured values that carry the quantities the Go format strings print: the kind, the Go type, the heights, the target or the type name. Their text is not modelled.
- Float kinds are type tags only, with no float arithmetic.
- Concurrency and cancellation of the asynchronous fan-out are not modelled. The multiplexer is opaque.
- Every listener slot other than StartBlock is carried by name only, and its callbacks are not interpreted.
- SyncGuard.CallSlot: a guard installed around another guard is run only as the outer guard's replaced callback, and the inner guard's own check is not interpreted. The manager installs exactly one guard per target.
- Init functions are pure functions of their parameters (`Collaborators.registry`). They are assumed deterministic and independent of one another, so one target's init cannot affect another's: a database opened or tables created by an earlier init have no effect. That the startup outcome does not depend on the visiting order therefore rests on this assumption.
- Manager.ChildLogger: scoping a scopeable logger always succeeds. The Go code asserts that the value `WithAsAny` returns is a logger, unchecked, and that assertion panics otherwise; the model drops this panic path.
