/**
 * The auth store of stores/auth/auth.store.ts: its initial state, the
 * synchronous actions, the status dispatch of `login`, and the `migrate` and
 * `partialize` it configures its persistence with. The HTTP response of the
 * login call is an input.
 */
module AuthStore {
  import opened Wrappers
  import opened JsValue
  import opened AuthTypes
  import AuthMigrations
  import PersistedStore

  /** `StoreKeys.AUTH`. */
  const AuthStoreName: string := "auth:user"

  /** The version the auth store is configured with. */
  const AuthVersion: int := 1

  const SessionExpiredMessage: string := "Your sessionExpire Please login again"

  const ServerErrorMessage: string :=
    "Oops! Something went wrong on our end. Please try again later. If the issue persists, contact support."

  /** The response of the login request: its status (absent on a network failure) and body. */
  datatype HttpResponse = HttpResponse(status: Option<int>, data: Value)

  predicate SuccessStatus(status: Option<int>)
  {
    status == Some(200) || status == Some(201) || status == Some(204)
  }

  /** `response.status` as a JavaScript value. */
  function StatusValue(status: Option<int>): Value
  {
    if status.Some? then Num(status.value) else Undefined
  }

  /** `{ ...ACTION_RESPONSES.failure, code, data, error }`; `data` may be left out. */
  function FailureObject(code: Value, data: Option<Value>, error: Value): Value
  {
    var base := map["ok" := Bool(false), "error" := error, "code" := code, "message" := Null];
    Obj(if data.Some? then base["data" := data.value] else base)
  }

  /** The TypeError thrown when reading `access` of a null or undefined body. */
  function ReadAccessError(data: Value): Thrown
  {
    ErrorInstance("Cannot read properties of " + StringOf(data) + " (reading 'access')")
  }

  /**
   * The `switch (response.status)` of `login`: the body it returns, or the
   * value it throws (which the `catch` rethrows).
   */
  function LoginOutcome(response: HttpResponse): (r: Result<Value, Thrown>)
    ensures r.Success? <==> SuccessStatus(response.status) && !Nullish(response.data)
    ensures r.Success? ==> r.value == response.data
    ensures SuccessStatus(response.status) && Nullish(response.data) ==> r == Failure(ReadAccessError(response.data))
    ensures !SuccessStatus(response.status) ==>
      && r.Failure? && r.error.NonError? && r.error.value.Obj?
      && Get(r.error.value, "ok") == Bool(false)
      && Get(r.error.value, "code") == StatusValue(response.status)
      && Get(r.error.value, "message") == Null
    ensures !SuccessStatus(response.status) && response.status != Some(500) ==>
      Get(r.error.value, "data") == response.data
    ensures response.status == Some(401) ==> Get(r.error.value, "error") == Str(SessionExpiredMessage)
    ensures response.status == Some(500) ==>
      Get(r.error.value, "error") == Str(ServerErrorMessage) && "data" !in r.error.value.fields
    ensures !SuccessStatus(response.status) && response.status != Some(401) && response.status != Some(500) ==>
      Get(r.error.value, "error") == response.data
  {
    var code := StatusValue(response.status);
    if SuccessStatus(response.status) then
      if Nullish(response.data) then Failure(ReadAccessError(response.data)) else Success(response.data)
    else if response.status == Some(401) then
      Failure(NonError(FailureObject(code, Some(response.data), Str(SessionExpiredMessage))))
    else if response.status == Some(500) then
      Failure(NonError(FailureObject(code, None, Str(ServerErrorMessage))))
    else
      // 400 and every other status
      Failure(NonError(FailureObject(code, Some(response.data), response.data)))
  }

  /** `{ ...user, ...updates }`. */
  function PatchUser(u: User, p: UserPatch): User
  {
    User(
      if p.id.Some? then p.id.value else u.id,
      if p.name.Some? then p.name.value else u.name,
      if p.email.Some? then p.email.value else u.email,
      if p.avatar.Some? then p.avatar.value else u.avatar)
  }

  /** `{ ...p, ...q }` for two patches. */
  function MergePatches(p: UserPatch, q: UserPatch): UserPatch
  {
    UserPatch(
      if q.id.Some? then q.id else p.id,
      if q.name.Some? then q.name else p.name,
      if q.email.Some? then q.email else p.email,
      if q.avatar.Some? then q.avatar else p.avatar)
  }

  /** The `user` that `updateUser` leaves: patched, or still null. */
  function UpdatedUser(user: Option<User>, p: UserPatch): Option<User>
  {
    if user.Some? then Some(PatchUser(user.value, p)) else None
  }

  /** The store's `migrate` option: the v0 step below version 1, otherwise the state itself. */
  function AuthMigrate(state: AuthSnapshot, version: int): (r: AuthSnapshot)
    ensures version >= 1 ==> r == state
    ensures r.isAuthenticated == state.isAuthenticated && r.token == state.token
    ensures r.user.Some? <==> state.user.Some?
    ensures version < 1 && r.user.Some? ==> r.user.value.avatar != Some("")
  {
    if version < 1 then AuthMigrations.MigrateAvatar(state) else state
  }

  /** The configuration the auth store passes to `createPersistedStore`. */
  function AuthConfig(): PersistedStore.PersistConfig<AuthSnapshot>
  {
    PersistedStore.PersistConfig(AuthStoreName, Some(AuthVersion), Some(AuthMigrate))
  }

  /** The action functions of the store, as they sit beside its data fields. */
  function ActionsValue(): map<string, Value>
  {
    map["login" := Func("login"), "setUser" := Func("setUser"),
        "logout" := Func("logout"), "updateUser" := Func("updateUser")]
  }

  /** The whole store state as `persist` sees it: data fields and actions. */
  function StateValue(s: AuthSnapshot): Value
  {
    Obj(SnapshotValue(s).fields + ActionsValue())
  }

  /** `partialize`: `({ user: s.user, isAuthenticated: s.isAuthenticated, token: s.token })`. */
  function Partialize(state: Value): (r: Value)
    requires !Nullish(state)
    ensures r.Obj? && r.fields.Keys == {"user", "isAuthenticated", "token"}
    ensures forall k :: k in r.fields ==> r.fields[k] == Get(state, k)
  {
    Obj(map["user" := Get(state, "user"),
            "isAuthenticated" := Get(state, "isAuthenticated"),
            "token" := Get(state, "token")])
  }

  /**
   * The snapshot persisted with the options `createPersistedStore` forwards,
   * as written: `partialize` travels in the factory's `options` argument,
   * which only reads `storage` and `onError`, so `persist` falls back to
   * persisting the state as it is.
   */
  function PersistedSnapshotAsWritten(s: AuthSnapshot): Value
  {
    StateValue(s)
  }

  /** The auth store's state (`useAuthStore`). */
  class AuthStore {
    var user: Option<User>
    var isAuthenticated: bool
    var token: Value

    function Snapshot(): AuthSnapshot
      reads this
    {
      AuthSnapshot(user, isAuthenticated, token)
    }

    /** The initial state of `authStateCreator`. */
    constructor ()
      ensures user == None && !isAuthenticated && token == Str("")
    {
      user, isAuthenticated, token := None, false, Str("");
    }

    /** `login`, from the point where the response has arrived. */
    method Login(response: HttpResponse) returns (r: Result<Value, Thrown>)
      modifies this
      ensures r == LoginOutcome(response)
      ensures r.Success? ==> token == Get(response.data, "access")
      ensures r.Failure? ==> token == old(token)
      ensures user == old(user) && isAuthenticated == old(isAuthenticated)
    {
      r := LoginOutcome(response);
      if r.Success? {
        token := Get(response.data, "access");
      }
    }

    /** `setUser`: signs the user in; the token is kept. */
    method SetUser(u: User)
      modifies this
      ensures user == Some(u) && isAuthenticated && token == old(token)
    {
      user, isAuthenticated := Some(u), true;
    }

    /** `logout`: signs out, but the token is not cleared. */
    method Logout()
      modifies this
      ensures user == None && !isAuthenticated && token == old(token)
    {
      user, isAuthenticated := None, false;
    }

    /** `updateUser`: overlays the patch on a present user. */
    method UpdateUser(p: UserPatch)
      modifies this
      ensures user == UpdatedUser(old(user), p)
      ensures isAuthenticated == old(isAuthenticated) && token == old(token)
    {
      user := UpdatedUser(user, p);
    }
  }

  /** A patched user has each key of the patch, and keeps the others. */
  lemma PatchUserFields(u: User, p: UserPatch)
    ensures p.id.Some? ==> PatchUser(u, p).id == p.id.value
    ensures p.id.None? ==> PatchUser(u, p).id == u.id
    ensures p.name.Some? ==> PatchUser(u, p).name == p.name.value
    ensures p.name.None? ==> PatchUser(u, p).name == u.name
    ensures p.email.Some? ==> PatchUser(u, p).email == p.email.value
    ensures p.email.None? ==> PatchUser(u, p).email == u.email
    ensures p.avatar.Some? ==> PatchUser(u, p).avatar == p.avatar.value
    ensures p.avatar.None? ==> PatchUser(u, p).avatar == u.avatar
  {
  }

  /** Two successive `updateUser` calls equal one call with the merged patch. */
  lemma UpdateUserComposes(user: Option<User>, p: UserPatch, q: UserPatch)
    ensures UpdatedUser(UpdatedUser(user, p), q) == UpdatedUser(user, MergePatches(p, q))
    ensures user.None? ==> UpdatedUser(user, p) == None
  {
  }

  /** The store's own version gate and the factory's gate agree: both run the step only below 1. */
  lemma AuthMigrateThroughFactory(o: PersistedStore.PersistOptions<AuthSnapshot>, s: AuthSnapshot, persistedVersion: int)
    requires o.version == AuthVersion && o.userMigrate == Some(AuthMigrate)
    ensures o.Migrate(s, persistedVersion) ==
      if persistedVersion < 1 then AuthMigrations.MigrateAvatar(s) else s
    ensures o.Migrate(o.Migrate(s, persistedVersion), persistedVersion) == o.Migrate(s, persistedVersion)
  {
    AuthMigrations.MigrateAvatarIdempotent(s);
  }

  /** `partialize` of the store state is exactly its three data fields. */
  lemma PartializeSelectsData(s: AuthSnapshot)
    ensures Partialize(StateValue(s)) == SnapshotValue(s)
  {
    var state := StateValue(s);
    var r := Partialize(state);
    assert r.fields.Keys == SnapshotValue(s).fields.Keys;
    forall k | k in r.fields
      ensures r.fields[k] == SnapshotValue(s).fields[k]
    {
      assert k !in ActionsValue();
    }
  }

  /** What `partialize` selects holds no function, once the token holds none. */
  lemma PartializeCloneable(s: AuthSnapshot)
    requires Cloneable(s.token)
    ensures Cloneable(Partialize(StateValue(s)))
  {
    PartializeSelectsData(s);
    var v := SnapshotValue(s);
    if s.user.Some? {
      assert Cloneable(UserValue(s.user.value));
    }
    assert forall k :: k in v.fields ==> Cloneable(v.fields[k]);
  }

  /** As written, the persisted snapshot carries the store's actions and is not what `partialize` selects. */
  lemma PartializeDroppedAsWritten(s: AuthSnapshot)
    ensures !Cloneable(PersistedSnapshotAsWritten(s))
    ensures PersistedSnapshotAsWritten(s) != Partialize(StateValue(s))
  {
    var v := PersistedSnapshotAsWritten(s);
    assert "login" in v.fields && v.fields["login"] == Func("login");
    PartializeSelectsData(s);
    assert "login" !in Partialize(StateValue(s)).fields;
  }

  /** Module initialisation: `useAuthStore` registers "auth:user" at version 1 with the v0 step. */
  method CreateAuthStore(registry: PersistedStore.StoreRegistry, development: bool)
    returns (r: Result<PersistedStore.PersistOptions<AuthSnapshot>, Thrown>)
    modifies registry
    ensures r.Failure? <==> !development && AuthStoreName in old(registry.names)
    ensures r.Success? ==> r.value.version == AuthVersion && r.value.userMigrate == Some(AuthMigrate)
    ensures r.Success? ==> r.value.storage == PersistedStore.LocalForage && !r.value.hasOnError
    ensures AuthStoreName in registry.names
  {
    r := PersistedStore.CreatePersistedStore(registry, AuthConfig(), PersistedStore.StoreOptions(None, false), development);
  }
}
