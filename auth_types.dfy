/** The records of stores/auth/auth.types.ts, and how they look as JavaScript values. */
module AuthTypes {
  import opened Wrappers
  import opened JsValue

  /** `User`; `avatar` is optional. */
  datatype User = User(id: string, name: string, email: string, avatar: Option<string>)

  /**
   * `Partial<User>`: every key absent (`None`) or present; `avatar` may also
   * be present with the value `undefined` (`Some(None)`).
   */
  datatype UserPatch = UserPatch(id: Option<string>, name: Option<string>, email: Option<string>, avatar: Option<Option<string>>)

  /** The data fields of `AuthState` (its actions aside): what is persisted. */
  datatype AuthSnapshot = AuthSnapshot(user: Option<User>, isAuthenticated: bool, token: Value)

  function UserValue(u: User): Value
  {
    var base := map["id" := Str(u.id), "name" := Str(u.name), "email" := Str(u.email)];
    Obj(if u.avatar.Some? then base["avatar" := Str(u.avatar.value)] else base)
  }

  /** The object `{ user, isAuthenticated, token }`. */
  function SnapshotValue(s: AuthSnapshot): Value
  {
    Obj(map[
      "user" := (if s.user.Some? then UserValue(s.user.value) else Null),
      "isAuthenticated" := Bool(s.isAuthenticated),
      "token" := s.token])
  }
}
