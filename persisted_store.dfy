/**
 * The persisted-store factory of stores/utils/createPersistedStore.ts:
 * the module-level name registry, the defaults of its configuration, the
 * version gate around the caller's migration, and the rehydration report.
 */
module PersistedStore {
  import opened Wrappers
  import opened JsValue

  /** The storage backend handed to `persist`. */
  datatype StorageEngine = LocalForage | Supplied(engineName: string)

  /** `PersistConfig`: a store name, an optional version, an optional migration. */
  datatype PersistConfig<!S> = PersistConfig(name: string, version: Option<int>, migrate: Option<(S, int) -> S>)

  /** The factory's `options` argument: a storage engine, and whether `onError` is given. */
  datatype StoreOptions = StoreOptions(storage: Option<StorageEngine>, hasOnError: bool)

  /** What the rehydration callback does: log success, or log failure and maybe call `onError`. */
  datatype RehydrateReport = RehydratedOk | RehydrateFailed(reported: Option<Thrown>)

  /** The version a config without one is given. */
  const DefaultVersion: int := 1

  /** `if (error)` on the value the rehydration callback receives. */
  predicate ErrorPresent(error: Thrown)
  {
    match error
    case ErrorInstance(_) => true
    case NonError(v) => Truthy(v)
  }

  /** `error instanceof Error ? error : new Error(String(error))`. */
  function AsError(error: Thrown): (e: Thrown)
    ensures e.ErrorInstance?
    ensures error.ErrorInstance? ==> e == error
    ensures error.NonError? ==> e.message == StringOf(error.value)
  {
    match error
    case ErrorInstance(_) => error
    case NonError(v) => ErrorInstance(StringOf(v))
  }

  /** The options `createPersistedStore` passes on to `persist`. */
  datatype PersistOptions<!S> = PersistOptions(
    name: string,
    version: int,
    storage: StorageEngine,
    userMigrate: Option<(S, int) -> S>,
    hasOnError: bool,
    devtools: bool)
  {
    /**
     * The `migrate` wrapper: the caller's migration runs, with the persisted
     * state and version, exactly for an older state; at the current version or
     * above it (future data included), and without a migration, the persisted
     * state passes through unchanged.
     */
    function Migrate(persistedState: S, persistedVersion: int): (r: S)
      ensures userMigrate.Some? && persistedVersion < version ==> r == userMigrate.value(persistedState, persistedVersion)
      ensures userMigrate.None? || persistedVersion >= version ==> r == persistedState
    {
      if userMigrate.Some? && persistedVersion < version
      then userMigrate.value(persistedState, persistedVersion)
      else persistedState
    }

    /** The callback `onRehydrateStorage` returns, applied to the error it receives. */
    function OnRehydrate(error: Thrown): (r: RehydrateReport)
      ensures r.RehydrateFailed? <==> ErrorPresent(error)
      ensures r.RehydrateFailed? ==> (r.reported.Some? <==> hasOnError)
      ensures r.RehydrateFailed? && r.reported.Some? ==> r.reported.value == AsError(error)
    {
      if ErrorPresent(error) then
        RehydrateFailed(if hasOnError then Some(AsError(error)) else None)
      else
        RehydratedOk
    }
  }

  function DuplicateMessage(name: string): string
  {
    "Duplicate Zustand store name detected: \"" + name + "\""
  }

  /** The outcome of reserving a name. */
  datatype Registration = Registered | ReRegistered | Duplicate(error: Thrown)

  /** `STORE_REGISTRY`: the set of store names reserved so far. */
  class StoreRegistry {
    var names: set<string>

    constructor ()
      ensures names == {}
    {
      names := {};
    }

    /**
     * The registry check: in production a taken name throws, in development
     * it only warns; a new name is added in both.
     */
    method Register(name: string, development: bool) returns (outcome: Registration)
      modifies this
      ensures names == old(names) + {name}
      ensures outcome.Registered? <==> name !in old(names)
      ensures outcome.ReRegistered? <==> development && name in old(names)
      ensures outcome.Duplicate? <==> !development && name in old(names)
      ensures outcome.Duplicate? ==> outcome.error == ErrorInstance(DuplicateMessage(name))
    {
      if development {
        if name in names {
          outcome := ReRegistered;
        } else {
          names := names + {name};
          outcome := Registered;
        }
      } else {
        if name in names {
          return Duplicate(ErrorInstance(DuplicateMessage(name)));
        }
        names := names + {name};
        outcome := Registered;
      }
    }
  }

  /**
   * `createPersistedStore(stateCreator, config, options)` up to the call of
   * `persist`: the name is reserved, then the options are resolved.
   */
  method CreatePersistedStore<S>(registry: StoreRegistry, config: PersistConfig<S>, options: StoreOptions, development: bool)
    returns (r: Result<PersistOptions<S>, Thrown>)
    modifies registry
    ensures registry.names == old(registry.names) + {config.name}
    ensures r.Failure? <==> !development && config.name in old(registry.names)
    ensures r.Failure? ==> r.error == ErrorInstance(DuplicateMessage(config.name))
    ensures r.Success? ==>
      && r.value.name == config.name
      && r.value.version == (if config.version.Some? then config.version.value else DefaultVersion)
      && r.value.storage == (if options.storage.Some? then options.storage.value else LocalForage)
      && r.value.userMigrate == config.migrate
      && r.value.hasOnError == options.hasOnError
      && r.value.devtools == development
  {
    var version := if config.version.Some? then config.version.value else DefaultVersion;
    var storage := if options.storage.Some? then options.storage.value else LocalForage;
    var registration := registry.Register(config.name, development);
    if registration.Duplicate? {
      return Failure(registration.error);
    }
    r := Success(PersistOptions(config.name, version, storage, config.migrate, options.hasOnError, development));
  }

  /** Two stores of one name on a fresh registry: only production refuses the second. */
  method RegisterTwice(name: string, development: bool) returns (first: Registration, second: Registration)
    ensures first.Registered?
    ensures second.Duplicate? <==> !development
    ensures second.ReRegistered? <==> development
  {
    var registry := new StoreRegistry();
    first := registry.Register(name, development);
    second := registry.Register(name, development);
  }
}
