/** The v0 to v1 step of stores/auth/auth.migrations.ts. */
module AuthMigrations {
  import opened Wrappers
  import opened JsValue
  import opened AuthTypes

  /** `!user.avatar`: the avatar is absent or the empty string. */
  predicate AvatarFalsy(u: User)
  {
    u.avatar == None || u.avatar == Some("")
  }

  /** The snapshot after `authMigrations[0]`. */
  function MigrateAvatar(s: AuthSnapshot): AuthSnapshot
  {
    if s.user.Some? && AvatarFalsy(s.user.value)
    then s.(user := Some(s.user.value.(avatar := None)))
    else s
  }

  /** A persisted auth state object, which the migration step updates in place. */
  class PersistedAuthState {
    var user: Option<User>
    var isAuthenticated: bool
    var token: Value

    function Snapshot(): AuthSnapshot
      reads this
    {
      AuthSnapshot(user, isAuthenticated, token)
    }

    constructor (s: AuthSnapshot)
      ensures Snapshot() == s
    {
      user, isAuthenticated, token := s.user, s.isAuthenticated, s.token;
    }
  }

  /** `authMigrations[0]`: sets a falsy avatar to `undefined` and returns the same object. */
  method MigrateV0(state: PersistedAuthState) returns (r: PersistedAuthState)
    modifies state
    ensures r == state
    ensures state.Snapshot() == MigrateAvatar(old(state.Snapshot()))
  {
    if state.user.Some? && AvatarFalsy(state.user.value) {
      state.user := Some(state.user.value.(avatar := None));
    }
    r := state;
  }

  /**
   * What the step changes: a falsy avatar of a present user becomes absent;
   * without a user, or with a truthy avatar, nothing changes; the user's
   * other fields and the rest of the state never change.
   */
  lemma MigrateAvatarEffect(s: AuthSnapshot)
    ensures s.user.None? ==> MigrateAvatar(s) == s
    ensures s.user.Some? && !AvatarFalsy(s.user.value) ==> MigrateAvatar(s) == s
    ensures s.user.Some? && AvatarFalsy(s.user.value) ==> MigrateAvatar(s).user == Some(s.user.value.(avatar := None))
    ensures MigrateAvatar(s).isAuthenticated == s.isAuthenticated && MigrateAvatar(s).token == s.token
    ensures MigrateAvatar(s).user.Some? <==> s.user.Some?
    ensures s.user.Some? ==>
      var u, u' := s.user.value, MigrateAvatar(s).user.value;
      u'.id == u.id && u'.name == u.name && u'.email == u.email
  {
  }

  /** Applying the step twice is the same as applying it once. */
  lemma MigrateAvatarIdempotent(s: AuthSnapshot)
    ensures MigrateAvatar(MigrateAvatar(s)) == MigrateAvatar(s)
  {
  }

  /** After the step, a present user's avatar is absent or non-empty. */
  lemma MigrateAvatarNormalizes(s: AuthSnapshot)
    ensures MigrateAvatar(s).user.Some? ==> MigrateAvatar(s).user.value.avatar != Some("")
  {
  }
}
