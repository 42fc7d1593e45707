/** The indexer manager (schema/indexer/manager.go): turns the user's
    configuration into one listener per configured target, wraps each with its
    filter and the sync guard, and combines them into the root listener handed
    to the state machine. Startup is all-or-nothing.

    The collaborators whose code is not part of this model (the JSON codec,
    the registry of indexer init functions, the filter's `Validate` and
    `Apply`, `combineModuleFilters`, the module filter's `Apply` and
    `appdata.AsyncListenerMux`) are function-valued fields of `Collaborators`;
    the model only says which of them is called, with what, and in which
    order. */
module Manager {
  import opened Outcomes
  import opened GoInts
  import opened AppData
  import opened SyncGuard

  type Bytes = seq<bv8>

  /** A logger: the default no-op one, one supplied by the host (which may or
      may not support scoping), or a host logger scoped to one target. */
  datatype Logger = NoopLogger | HostLogger(id: nat, scopeable: bool) | ScopedLogger(parent: Logger, indexer: string)

  /** A context: the background context or one supplied by the host. */
  datatype Context = Background | HostContext(id: nat)

  /** The configuration value as the caller hands it in: a
      `map[string]interface{}`, a `json.RawMessage`, or a value of any other
      Go type (named by its type). */
  datatype ConfigInput<D> = MapValue(doc: D) | RawJson(bytes: Bytes) | OtherValue(goType: string)

  /** A target's filter; `modules` is its module filter configuration. */
  datatype FilterConfig<M> = FilterConfig(modules: M)

  /** One configured target: its registered indexer type, its
      backend-specific configuration (opaque to the manager, which hands it to
      the init function), and its filter. */
  datatype TargetConfig<M> = TargetConfig(typeName: string, backendConfig: nat, filter: FilterConfig<M>)

  /** Named targets. */
  datatype ManagerConfig<M> = ManagerConfig(target: map<string, TargetConfig<M>>)

  datatype ManagerOptions<D> = ManagerOptions(config: ConfigInput<D>, logger: Option<Logger>, context: Option<Context>)

  /** What an indexer's init function receives. */
  datatype InitParams<M> = InitParams(config: TargetConfig<M>, context: Context, logger: Logger)

  /** What an indexer's init function returns on success. */
  datatype InitResult<M> = InitResult(listener: Listener<M>, lastBlockPersisted: Int64)

  datatype ManagerResult<M> = ManagerResult(listener: Listener<M>, moduleFilter: M)

  datatype Collaborators<!M, !D> = Collaborators(
    marshal: D -> Result<Bytes, Error>,
    unmarshal: Bytes -> Result<ManagerConfig<M>, Error>,
    registry: map<string, InitParams<M> -> Result<InitResult<M>, Error>>,
    validateFilter: FilterConfig<M> -> Outcome<Error>,
    applyFilter: (FilterConfig<M>, Listener<M>) -> Listener<M>,
    combineModuleFilters: seq<M> -> M,
    applyModuleFilter: (M, Listener<M>) -> Listener<M>,
    asyncListenerMux: (Context, seq<Listener<M>>) -> Listener<M>)

  // ---------------------------------------------------------------------
  // Configuration input

  /** Converts the configuration value: a map is marshalled to JSON first,
      raw JSON is decoded as it is, any other type is refused. */
  function UnmarshalConfig<M, D>(input: ConfigInput<D>, marshal: D -> Result<Bytes, Error>,
                                 unmarshal: Bytes -> Result<ManagerConfig<M>, Error>)
    : (r: Result<ManagerConfig<M>, Error>)
    ensures input.OtherValue? ==> r == Err(CantConvert(input.goType))
    ensures input.RawJson? ==> r == unmarshal(input.bytes)
    ensures input.MapValue? && marshal(input.doc).Err? ==> r == Err(marshal(input.doc).error)
  {
    match input
    case MapValue(doc) =>
      (match marshal(doc)
       case Err(e) => Err(e)
       case Ok(bz) => unmarshal(bz))
    case RawJson(bz) => unmarshal(bz)
    case OtherValue(t) => Err(CantConvert(t))
  }

  /** Raw JSON goes straight to decoding: the marshaller is never consulted. */
  lemma RawJsonSkipsMarshal<M, D>(bz: Bytes, m1: D -> Result<Bytes, Error>, m2: D -> Result<Bytes, Error>,
                                  u: Bytes -> Result<ManagerConfig<M>, Error>)
    ensures UnmarshalConfig(RawJson(bz), m1, u) == UnmarshalConfig(RawJson(bz), m2, u) == u(bz)
  {
  }

  /** A map is decoded exactly as its own JSON encoding would be. */
  lemma MapValueAsItsJson<M, D>(doc: D, m: D -> Result<Bytes, Error>, u: Bytes -> Result<ManagerConfig<M>, Error>)
    requires m(doc).Ok?
    ensures UnmarshalConfig(MapValue(doc), m, u) == UnmarshalConfig(RawJson(m(doc).value), m, u)
  {
  }

  // ---------------------------------------------------------------------
  // Defaults

  /** A missing logger is replaced by the no-op logger. */
  function DefaultLogger(logger: Option<Logger>): (r: Logger)
    ensures logger.None? ==> r == NoopLogger
    ensures logger.Some? ==> r == logger.value
  {
    match logger
    case None => NoopLogger
    case Some(l) => l
  }

  /** A missing context is replaced by the background context. */
  function DefaultContext(context: Option<Context>): (r: Context)
    ensures context.None? ==> r == Background
    ensures context.Some? ==> r == context.value
  {
    match context
    case None => Background
    case Some(c) => c
  }

  /** Only a host logger that supports scoping can be scoped; the no-op
      logger cannot. */
  predicate CanScope(logger: Logger) {
    logger.HostLogger? && logger.scopeable
  }

  /** The logger handed to one target: scoped to it when possible, else
      shared. */
  function ChildLogger(logger: Logger, target: string): (r: Logger)
    // a scopeable logger is scoped to the target, anything else is shared as it is
    ensures CanScope(logger) ==> r.ScopedLogger? && r.parent == logger && r.indexer == target
    ensures !CanScope(logger) ==> r == logger
    // in particular the default no-op logger is handed on unchanged
    ensures logger == NoopLogger ==> r == NoopLogger
  {
    if CanScope(logger) then ScopedLogger(logger, target) else logger
  }

  // ---------------------------------------------------------------------
  // One target

  /** A started target: its fully wrapped listener and its module filter. */
  datatype Started<M> = Started(listener: Listener<M>, modules: M)

  /** The effect of one iteration of the startup loop: the init call made, if
      any, and the started target or the error that aborts startup. */
  datatype Launch<M> = Launch(initCall: Option<InitParams<M>>, result: Result<Started<M>, Error>)

  /** One iteration of the startup loop for target `name`: registry lookup,
      then filter validation, then init, then wrapping. */
  function StartTarget<M, D>(c: Collaborators<M, D>, name: string, tc: TargetConfig<M>, ctx: Context, logger: Logger)
    : (r: Launch<M>)
    // the lookup comes first: an unknown type is reported whatever the filter
    ensures tc.typeName !in c.registry ==> r == Launch(None, Err(TypeNotFound(tc.typeName)))
    // then the filter, before any init call
    ensures (tc.typeName in c.registry && c.validateFilter(tc.filter).Fail?) ==>
              r == Launch(None, Err(InvalidFilter(name, c.validateFilter(tc.filter).error)))
    // init is called only past both checks, with the defaulted context and the child logger
    ensures r.initCall.Some? <==> tc.typeName in c.registry && c.validateFilter(tc.filter).Pass?
    ensures r.initCall.Some? ==> r.initCall.value == InitParams(tc, ctx, ChildLogger(logger, name))
    // the target starts iff both checks pass and its init call succeeds
    ensures r.result.Ok? <==>
              && tc.typeName in c.registry
              && c.validateFilter(tc.filter).Pass?
              && c.registry[tc.typeName](InitParams(tc, ctx, ChildLogger(logger, name))).Ok?
    // an init error is passed on as it is
    ensures (r.initCall.Some? && c.registry[tc.typeName](r.initCall.value).Err?) ==>
              r.result == Err(c.registry[tc.typeName](r.initCall.value).error)
    // the listener is wrapped by the filter first and by the sync guard outside it
    ensures r.result.Ok? ==>
              && r.initCall.Some?
              && var init := c.registry[tc.typeName](r.initCall.value);
              && init.Ok?
              && r.result.value.modules == tc.filter.modules
              && r.result.value.listener
                   == AddSyncAndSanityCheck(init.value.lastBlockPersisted,
                                            c.applyFilter(tc.filter, init.value.listener),
                                            tc.filter.modules)
  {
    if tc.typeName !in c.registry then Launch(None, Err(TypeNotFound(tc.typeName)))
    else match c.validateFilter(tc.filter)
      case Fail(e) => Launch(None, Err(InvalidFilter(name, e)))
      case Pass =>
        var params := InitParams(tc, ctx, ChildLogger(logger, name));
        match c.registry[tc.typeName](params)
        case Err(e) => Launch(Some(params), Err(e))
        case Ok(init) =>
          var listener := c.applyFilter(tc.filter, init.listener);
          var guarded := AddSyncAndSanityCheck(init.lastBlockPersisted, listener, tc.filter.modules);
          Launch(Some(params), Ok(Started(guarded, tc.filter.modules)))
  }

  /** The iteration for target `name` of a decoded configuration. */
  function LaunchOf<M, D>(c: Collaborators<M, D>, cfg: ManagerConfig<M>, opts: ManagerOptions<D>, name: string)
    : Launch<M>
    requires name in cfg.target
  {
    StartTarget(c, name, cfg.target[name], DefaultContext(opts.context), DefaultLogger(opts.logger))
  }

  // ---------------------------------------------------------------------
  // What the loop collects, in visiting order

  predicate Distinct(names: seq<string>) {
    forall i, j | 0 <= i < j < |names| :: names[i] != names[j]
  }

  /** A sequence without repeats has as many elements as its set. */
  lemma {:induction false} DistinctCardinality(names: seq<string>)
    requires Distinct(names)
    ensures |set n | n in names| == |names|
  {
    if |names| > 0 {
      var init := names[..|names| - 1];
      var last := names[|names| - 1];
      DistinctCardinality(init);
      assert (set n | n in names) == (set n | n in init) + {last};
      assert last !in init;
    }
  }

  ghost predicate AllStarted<M, D>(c: Collaborators<M, D>, cfg: ManagerConfig<M>, opts: ManagerOptions<D>, names: seq<string>) {
    forall i | 0 <= i < |names| :: names[i] in cfg.target && LaunchOf(c, cfg, opts, names[i]).result.Ok?
  }

  /** The wrapped target listeners, one per name. */
  ghost function ListenersOf<M, D>(c: Collaborators<M, D>, cfg: ManagerConfig<M>, opts: ManagerOptions<D>, names: seq<string>)
    : seq<Listener<M>>
    requires AllStarted(c, cfg, opts, names)
  {
    if |names| == 0 then []
    else ListenersOf(c, cfg, opts, names[..|names| - 1])
         + [LaunchOf(c, cfg, opts, names[|names| - 1]).result.value.listener]
  }

  /** The targets' module filters, one per name. */
  ghost function ModulesOf<M>(cfg: ManagerConfig<M>, names: seq<string>): seq<M>
    requires forall i | 0 <= i < |names| :: names[i] in cfg.target
  {
    if |names| == 0 then []
    else ModulesOf(cfg, names[..|names| - 1]) + [cfg.target[names[|names| - 1]].filter.modules]
  }

  /** The init calls made while visiting the names. */
  ghost function InitCallsOf<M, D>(c: Collaborators<M, D>, cfg: ManagerConfig<M>, opts: ManagerOptions<D>, names: seq<string>)
    : seq<InitParams<M>>
    requires forall i | 0 <= i < |names| :: names[i] in cfg.target
  {
    if |names| == 0 then []
    else
      var call := LaunchOf(c, cfg, opts, names[|names| - 1]).initCall;
      InitCallsOf(c, cfg, opts, names[..|names| - 1]) + (if call.Some? then [call.value] else [])
  }

  /** Visiting one more target extends what the loop has collected by that
      target's contribution. */
  lemma VisitOneMore<M, D>(c: Collaborators<M, D>, cfg: ManagerConfig<M>, opts: ManagerOptions<D>,
                           before: seq<string>, name: string)
    requires forall i | 0 <= i < |before| :: before[i] in cfg.target
    requires name in cfg.target
    ensures var call := LaunchOf(c, cfg, opts, name).initCall;
            InitCallsOf(c, cfg, opts, before + [name])
              == InitCallsOf(c, cfg, opts, before) + (if call.Some? then [call.value] else [])
    ensures ModulesOf(cfg, before + [name]) == ModulesOf(cfg, before) + [cfg.target[name].filter.modules]
    ensures AllStarted(c, cfg, opts, before) && LaunchOf(c, cfg, opts, name).result.Ok? ==>
              && AllStarted(c, cfg, opts, before + [name])
              && ListenersOf(c, cfg, opts, before + [name])
                   == ListenersOf(c, cfg, opts, before) + [LaunchOf(c, cfg, opts, name).result.value.listener]
  {
  }

  /** Every init call is made with the defaulted context, and with the no-op
      logger when the options carry none. */
  lemma {:induction false} InitCallsUseDefaults<M, D>(c: Collaborators<M, D>, cfg: ManagerConfig<M>,
                                                      opts: ManagerOptions<D>, names: seq<string>)
    requires forall i | 0 <= i < |names| :: names[i] in cfg.target
    ensures forall p | p in InitCallsOf(c, cfg, opts, names) :: p.context == DefaultContext(opts.context)
    ensures opts.logger.None? ==> forall p | p in InitCallsOf(c, cfg, opts, names) :: p.logger == NoopLogger
  {
    if |names| > 0 {
      InitCallsUseDefaults(c, cfg, opts, names[..|names| - 1]);
    }
  }

  // ---------------------------------------------------------------------
  // Startup

  /** What the loop has collected after visiting `names`, all of which
      started: one listener, one module filter and the init calls made. */
  ghost predicate Collected<M, D>(c: Collaborators<M, D>, cfg: ManagerConfig<M>, opts: ManagerOptions<D>,
                                  names: seq<string>, inits: seq<InitParams<M>>,
                                  listeners: seq<Listener<M>>, filters: seq<M>)
  {
    && AllStarted(c, cfg, opts, names)
    && listeners == ListenersOf(c, cfg, opts, names)
    && filters == ModulesOf(cfg, names)
    && inits == InitCallsOf(c, cfg, opts, names)
  }

  /** One iteration of the startup loop: starts target `name` and records
      its init call, and on success its listener and module filter. */
  method VisitOne<M, D>(c: Collaborators<M, D>, cfg: ManagerConfig<M>, opts: ManagerOptions<D>, name: string,
                        visited: seq<string>, inits: seq<InitParams<M>>,
                        listeners: seq<Listener<M>>, filters: seq<M>)
    returns (failure: Option<Error>, inits': seq<InitParams<M>>,
             listeners': seq<Listener<M>>, filters': seq<M>)
    requires name in cfg.target
    requires Collected(c, cfg, opts, visited, inits, listeners, filters)
    ensures failure.None? <==> LaunchOf(c, cfg, opts, name).result.Ok?
    ensures failure.Some? ==> LaunchOf(c, cfg, opts, name).result == Err(failure.value)
    ensures inits' == InitCallsOf(c, cfg, opts, visited + [name])
    ensures failure.None? ==> Collected(c, cfg, opts, visited + [name], inits', listeners', filters')
  {
    var launch := LaunchOf(c, cfg, opts, name);
    VisitOneMore(c, cfg, opts, visited, name);
    inits', listeners', filters' := inits, listeners, filters;
    if launch.initCall.Some? {
      inits' := inits + [launch.initCall.value];
    }
    if launch.result.Err? {
      return Some(launch.result.error), inits', listeners', filters';
    }
    failure := None;
    listeners' := listeners + [launch.result.value.listener];
    filters' := filters + [launch.result.value.modules];
  }

  /** The order in which Go's `range` visits the keys of a map: unspecified,
      so the model picks each next key arbitrarily. Every key comes exactly
      once. */
  method MapOrder(keys: set<string>) returns (order: seq<string>)
    ensures Distinct(order)
    ensures forall n :: n in keys <==> n in order
  {
    order := [];
    var remaining := keys;
    while remaining != {}
      invariant remaining <= keys
      invariant forall i | 0 <= i < |order| :: order[i] in keys && order[i] !in remaining
      invariant forall n | n in keys :: n in remaining || n in order
      invariant Distinct(order)
      decreases |remaining|
    {
      var name :| name in remaining;
      order := order + [name];
      remaining := remaining - {name};
    }
  }

  /** The startup loop over the decoded targets, in map order (see
      `MapOrder`), so every property below holds for every visiting order.
      `visited` is the order in which targets were taken up (up to and
      including the one that failed), `inits` the init calls made, and
      `failure` the error that stopped the loop. */
  method VisitTargets<M, D>(c: Collaborators<M, D>, cfg: ManagerConfig<M>, opts: ManagerOptions<D>)
    returns (failure: Option<Error>, visited: seq<string>, inits: seq<InitParams<M>>,
             listeners: seq<Listener<M>>, filters: seq<M>)
    ensures Distinct(visited)
    ensures forall i | 0 <= i < |visited| :: visited[i] in cfg.target
    ensures inits == InitCallsOf(c, cfg, opts, visited)
    ensures failure.Some? ==>
              && |visited| > 0
              && LaunchOf(c, cfg, opts, visited[|visited| - 1]).result == Err(failure.value)
              && AllStarted(c, cfg, opts, visited[..|visited| - 1])
    ensures failure.None? ==>
              && (forall n :: n in cfg.target <==> n in visited)
              && Collected(c, cfg, opts, visited, inits, listeners, filters)
  {
    var order := MapOrder(cfg.target.Keys);
    failure, visited, inits, listeners, filters := None, [], [], [], [];
    var k := 0;
    while k < |order|
      invariant 0 <= k <= |order|
      invariant visited == order[..k]
      invariant failure.None?
      invariant Collected(c, cfg, opts, visited, inits, listeners, filters)
    {
      var name := order[k];
      var before := visited;
      failure, inits, listeners, filters := VisitOne(c, cfg, opts, name, visited, inits, listeners, filters);
      visited := visited + [name];
      assert visited == order[..k + 1];
      if failure.Some? {
        assert visited[..|visited| - 1] == before && visited[|visited| - 1] == name;
        return;
      }
      k := k + 1;
    }
    assert visited == order;
  }

  /** Starts the manager: defaults the logger, decodes the configuration,
      defaults the context, starts every target, then combines the targets'
      module filters into the root filter and applies it to the multiplexed
      target listeners. Any failure aborts with no result. */
  method StartManager<M, D>(opts: ManagerOptions<D>, c: Collaborators<M, D>)
    returns (r: Result<ManagerResult<M>, Error>, visited: seq<string>, inits: seq<InitParams<M>>)
    // an unusable configuration aborts before any target is touched
    ensures UnmarshalConfig(opts.config, c.marshal, c.unmarshal).Err? ==>
              && r == Err(UnmarshalConfig(opts.config, c.marshal, c.unmarshal).error)
              && visited == [] && inits == []
    ensures UnmarshalConfig(opts.config, c.marshal, c.unmarshal).Ok? ==>
              var cfg := UnmarshalConfig(opts.config, c.marshal, c.unmarshal).value;
              // each target is visited at most once
              && Distinct(visited)
              && (forall i | 0 <= i < |visited| :: visited[i] in cfg.target)
              && inits == InitCallsOf(c, cfg, opts, visited)
              // startup succeeds iff every target starts
              && (r.Ok? <==> forall n | n in cfg.target :: LaunchOf(c, cfg, opts, n).result.Ok?)
              // a failure is the error of the last target visited, all earlier ones having started
              && (r.Err? ==>
                    && |visited| > 0
                    && LaunchOf(c, cfg, opts, visited[|visited| - 1]).result == Err(r.error)
                    && AllStarted(c, cfg, opts, visited[..|visited| - 1]))
              // on success: every target exactly once, one listener and one filter each
              && (r.Ok? ==>
                    && |visited| == |cfg.target|
                    && (forall n :: n in cfg.target <==> n in visited)
                    && AllStarted(c, cfg, opts, visited)
                    && r.value.moduleFilter == c.combineModuleFilters(ModulesOf(cfg, visited))
                    && r.value.listener
                         == c.applyModuleFilter(r.value.moduleFilter,
                                                c.asyncListenerMux(DefaultContext(opts.context),
                                                                   ListenersOf(c, cfg, opts, visited))))
    // every init call sees the defaulted context, and the no-op logger when none was given
    ensures forall i | 0 <= i < |inits| :: inits[i].context == DefaultContext(opts.context)
    ensures opts.logger.None? ==> forall i | 0 <= i < |inits| :: inits[i].logger == NoopLogger
  {
    var decoded := UnmarshalConfig(opts.config, c.marshal, c.unmarshal);
    if decoded.Err? {
      return Err(decoded.error), [], [];
    }
    var cfg := decoded.value;
    var failure, listeners, filters;
    failure, visited, inits, listeners, filters := VisitTargets(c, cfg, opts);
    InitCallsUseDefaults(c, cfg, opts, visited);
    if failure.Some? {
      var last := visited[|visited| - 1];
      assert last in cfg.target && LaunchOf(c, cfg, opts, last).result.Err?;
      return Err(failure.value), visited, inits;
    }
    assert cfg.target.Keys == set n | n in visited;
    DistinctCardinality(visited);
    forall n | n in cfg.target
      ensures LaunchOf(c, cfg, opts, n).result.Ok?
    {
      var i :| 0 <= i < |visited| && visited[i] == n;
    }
    var rootFilter := c.combineModuleFilters(filters);
    var root := c.applyModuleFilter(rootFilter, c.asyncListenerMux(DefaultContext(opts.context), listeners));
    r := Ok(ManagerResult(root, rootFilter));
  }
}
