# zustand-todo: a Dafny model of its stores, persistence helpers and API client

This project models the logic of a small Next.js to-do application built on
zustand. The model covers:

- **Persisted-store factory** (`createPersistedStore`). It keeps a
  module-level registry of store names. In production a duplicate name
  throws; in development it only warns. The factory resolves the default
  version (1) and the default storage engine. It wraps the caller's
  `migrate` so that the migration runs only for a persisted version below
  the current one. It reports rehydration errors to `onError`, wrapping
  values that are not `Error`s.
- **Shape validator** (`validateStore`). It gives each schema field a
  runtime kind, collects mismatches, and returns its input unchanged, or
  `{}` when the input is not an object.
- **Auth store.** The v0→v1 avatar migration, which changes its state in
  place. The `setUser`, `logout` and `updateUser` actions. The `login`
  classification from HTTP status to outcome, with the response as an
  input. The store's version-gated `migrate` and its `partialize`.
- **To-do store.** A class whose actions add, update, delete and toggle
  to-dos, open and close the modals, and set or clear the error. The store
  records every state it publishes, which states the loading/error
  protocol: each asynchronous action first publishes `loading = true,
  error = null` and ends with `loading = false`.
- **Derived views** (`EXAMPLES.tsx`). The counters, the search/priority
  filter, and the clear-completed loop over `deleteTodo`.
- **API URL building** (`Api.call`). The bearer header, the header merge,
  the endpoint copy with its `||` defaults, the substitution of `{key}`
  placeholders (first occurrence only), the trailing slash and the method
  switch.

JavaScript values that the code handles untyped are modelled by
`JsValue.Value`. These are persisted state, response bodies, the token and
thrown values. `JsValue.Value` comes with JavaScript's truthiness, `typeof`,
property reads and `String()`. Ids, timestamps, the auth token read by
`Api.call`, the HTTP response of `login`, and lower-casing are parameters.
The environment is a `development` flag.

The persistence helper is deliberately minimal:

- A persisted state whose version is higher than the current one is passed
  through unchanged. It is not rejected.
- There is no chain of per-version migrations and no gap error. The store
  supplies one `migrate` function, and the auth store's handles version 0
  only.
- A re-registration in development only warns. Nothing is replaced.
- No write sequence numbers exist.
- `validateStore` is not called by the factory. It is a standalone helper.

## Model

| member | source | states |
|---|---|---|
| `ValidateStore.ActualType` | stores/utils/validateStore.ts:21 | the kind is "array" exactly for arrays, "undefined" exactly for undefined, and "object" exactly for non-null objects and null |
| `ValidateStore.Validate` | stores/utils/validateStore.ts:7-34 | a falsy or non-object state gives `{}`, no entries and the invalid-state warning; an object state is returned itself, its entries are exactly `Mismatches`, and the mismatch warning (with its text) is emitted iff there are entries |
| `ValidateStore.ObjectStates` | stores/utils/validateStore.ts:12 | the states inspected are exactly arrays and non-null objects |
| `ValidateStore.MismatchesExactly` | stores/utils/validateStore.ts:19-26 | an entry (key, expected, actual) is reported iff the schema declares (key, expected), `actual` is the field's kind, and it differs from the declared kind and from "undefined" |
| `ValidateStore.MismatchesBounded` | stores/utils/validateStore.ts:19-26 | at most one entry per schema field |
| `ValidateStore.MissingFieldNeverFlagged` | stores/utils/validateStore.ts:20-23 | a key absent from the state is never reported |
| `ValidateStore.ExtraKeyNeverFlagged` | stores/utils/validateStore.ts:19 | a key the schema does not declare is never reported |
| `ValidateStore.ExtraKeysIgnored` | stores/utils/validateStore.ts:19-20 | adding undeclared keys to the state leaves the report unchanged |
| `ValidateStore.ArrayIsNotObject` | stores/utils/validateStore.ts:21-23 | an array is "array" and is reported against an "object" declaration |
| `ValidateStore.NullPassesObject` | stores/utils/validateStore.ts:21-23 | null is "object": it passes an "object" declaration and is reported against "array" |
| `PersistedStore.AsError` | stores/utils/createPersistedStore.ts:58 | the result is always an Error; an Error passes through, any other value becomes `new Error(String(value))` |
| `PersistedStore.PersistOptions.OnRehydrate` | stores/utils/createPersistedStore.ts:55-63 | failure is logged iff the error is truthy; `onError` is called iff additionally it was supplied, and with the wrapped error |
| `PersistedStore.StoreRegistry.constructor` | stores/utils/createPersistedStore.ts:5 | the registry starts empty |
| `PersistedStore.StoreRegistry.Register` | stores/utils/createPersistedStore.ts:26-39 | afterwards the registry is the old one plus the name (it only grows); a duplicate throws the "Duplicate Zustand store name detected" error iff in production, warns iff in development; a fresh name registers |
| `PersistedStore.CreatePersistedStore` | stores/utils/createPersistedStore.ts:13-71 | the name is reserved first; on a production duplicate the call fails; otherwise version defaults to 1, storage to localforage, the caller's migrate and onError are kept, and devtools wraps iff in development |
| `PersistedStore.RegisterTwice` | stores/utils/createPersistedStore.ts:34-38 | on a fresh registry, the second store of one name is refused exactly in production and only warned about in development |
| `PersistedStore.PersistOptions.Migrate` | stores/utils/createPersistedStore.ts:46-54 | with a caller's migrate and a persisted version below the current one, that migrate runs with the persisted state and version; without a migrate, or at or above the current version (future data included), the persisted state is returned unchanged |
| `AuthMigrations.MigrateV0` | stores/auth/auth.migrations.ts:2-7 | the step returns the very object it was given, whose new content is `MigrateAvatar` of its old content |
| `AuthMigrations.MigrateAvatarEffect` | stores/auth/auth.migrations.ts:4-7 | with no user nothing changes; a present user's falsy avatar becomes undefined and a truthy one stays; the user's other fields and the rest of the state never change |
| `AuthMigrations.MigrateAvatarIdempotent` | stores/auth/auth.migrations.ts:4-7 | applying the step twice equals applying it once |
| `AuthMigrations.MigrateAvatarNormalizes` | stores/auth/auth.migrations.ts:4-5 | after the step no present user has an empty-string avatar |
| `AuthStore.LoginOutcome` | stores/auth/auth.store.ts:23-58 | success iff status is 200/201/204 and the body is not null, returning the body; every other status throws an object with ok false, code = status, message null; 401 carries the session-expired text, 500 the "Oops!" text and no data, other statuses carry the body as data and error |
| `AuthStore.AuthStore.constructor` | stores/auth/auth.store.ts:13-16 | the initial state is user null, not authenticated, token '' |
| `AuthStore.AuthStore.Login` | stores/auth/auth.store.ts:17-63 | the outcome is `LoginOutcome`; on success the token becomes `data.access`, otherwise it is unchanged; user and isAuthenticated never change |
| `AuthStore.AuthStore.SetUser` | stores/auth/auth.store.ts:64-68 | user is set, isAuthenticated becomes true, token is kept |
| `AuthStore.AuthStore.Logout` | stores/auth/auth.store.ts:70-74 | user null, isAuthenticated false, token not cleared |
| `AuthStore.AuthStore.UpdateUser` | stores/auth/auth.store.ts:76-79 | a present user gets the patch overlaid, a null user stays null; the other fields are kept |
| `AuthStore.PatchUserFields` | stores/auth/auth.store.ts:78 | each key present in the patch takes the patch's value, each absent key keeps the user's |
| `AuthStore.UpdateUserComposes` | stores/auth/auth.store.ts:76-79 | two updates equal one update with the merged patch; a null user stays null |
| `AuthStore.AuthMigrate` | stores/auth/auth.store.ts:88-93 | at version 1 or above the state is returned as is; the migration never touches isAuthenticated or token, keeps a user present or absent, and below version 1 leaves no empty-string avatar |
| `AuthStore.AuthMigrateThroughFactory` | stores/auth/auth.store.ts:86-93 | through the factory's gate, the store's migrate applies the v0 step iff the persisted version is below 1, else it is the identity; the result is idempotent |
| `AuthStore.Partialize` | stores/auth/auth.store.ts:97-101 | the result has exactly the keys user, isAuthenticated and token, each read from the state |
| `AuthStore.PartializeSelectsData` | stores/auth/auth.store.ts:96-101 | on the store state, partialize yields exactly its three data fields, without the actions |
| `AuthStore.PartializeCloneable` | stores/auth/auth.store.ts:96-101 | what partialize selects contains no function once the token contains none |
| `AuthStore.PartializeDroppedAsWritten` | stores/auth/auth.store.ts:95-102 | as written, the persisted snapshot contains the action functions and differs from what partialize selects |
| `AuthStore.CreateAuthStore` | stores/auth/auth.store.ts:82-103 | the store registers "auth:user" at version 1 with its migrate and localforage; it fails only on a production duplicate |
| `TodoStore.TodoStore.constructor` | lib/store/useTodoStore.ts:53-61 | the initial state is the five initial to-dos, not loading, no error, no selection, all modals closed |
| `TodoStore.TodoStore.Set` | lib/store/useTodoStore.ts:53 | zustand's `set`: the store's state becomes the given state, which is appended to the published states |
| `TodoStore.TodoStore.FetchTodos` | lib/store/useTodoStore.ts:64-76 | publishes loading/no-error, then the five initial to-dos with loading false; nothing else changes |
| `TodoStore.TodoStore.AddTodo` | lib/store/useTodoStore.ts:79-101 | publishes loading/no-error, then the created to-do prepended to the old list with loading false, then the add modal closed; nothing else changes |
| `TodoStore.TodoStore.UpdateTodo` | lib/store/useTodoStore.ts:104-122 | publishes loading/no-error, then `UpdateById` with loading false, then the edit modal closed with no selection; nothing else changes |
| `TodoStore.TodoStore.DeleteTodo` | lib/store/useTodoStore.ts:125-139 | publishes loading/no-error, then `RemoveById` with loading false; nothing else changes |
| `TodoStore.TodoStore.ToggleTodo` | lib/store/useTodoStore.ts:142-158 | publishes loading/no-error, then `ToggleById` with loading false; nothing else changes |
| `TodoStore.TodoStore.OpenAddModal` | lib/store/useTodoStore.ts:161 | only isAddModalOpen changes, to true |
| `TodoStore.TodoStore.CloseAddModal` | lib/store/useTodoStore.ts:162 | only isAddModalOpen changes, to false |
| `TodoStore.TodoStore.OpenEditModal` | lib/store/useTodoStore.ts:164-165 | the edit modal opens with the to-do selected; nothing else changes |
| `TodoStore.TodoStore.CloseEditModal` | lib/store/useTodoStore.ts:166-167 | the edit modal closes and the selection is cleared; nothing else changes |
| `TodoStore.TodoStore.OpenViewModal` | lib/store/useTodoStore.ts:169-170 | the view modal opens with the to-do selected; nothing else changes |
| `TodoStore.TodoStore.CloseViewModal` | lib/store/useTodoStore.ts:171-172 | the view modal closes and the selection is cleared; nothing else changes |
| `TodoStore.TodoStore.SetError` | lib/store/useTodoStore.ts:175 | only the error changes, to the given one |
| `TodoStore.TodoStore.ClearError` | lib/store/useTodoStore.ts:176 | only the error changes, to null |
| `TodoStore.AddPrepends` | lib/store/useTodoStore.ts:84-93 | the list grows by one, the created to-do (given id, time and fields) heads it, and the old list is the unchanged rest |
| `TodoStore.UpdateById` | lib/store/useTodoStore.ts:109-112 | length and order are kept; to-dos with the id get the patch overlaid, the others are unchanged |
| `TodoStore.RemoveById` | lib/store/useTodoStore.ts:130-131 | a to-do remains iff it was in the list and does not have the id; the result is an order-preserving subsequence |
| `TodoStore.RemoveByIdCounts` | lib/store/useTodoStore.ts:130-131 | every copy of a to-do without the id is kept, and no copy of one with it |
| `TodoStore.RemoveAbsentId` | lib/store/useTodoStore.ts:130-131 | deleting an id no to-do has leaves the list unchanged |
| `TodoStore.ToggleById` | lib/store/useTodoStore.ts:147-150 | only `completed` of the matching to-dos flips; length and the other to-dos are kept |
| `TodoStore.ToggleTwice` | lib/store/useTodoStore.ts:147-150 | toggling the same id twice restores the list |
| `TodoViews.Stats` | EXAMPLES.tsx:29-36 | total is the list's length; each of completed, pending, high, medium and low is 0 exactly when no to-do has its property and equals the total exactly when every to-do has it; completed + pending = total and high + medium + low = total |
| `TodoViews.FilteredTodos` | EXAMPLES.tsx:182-191 | the filtered list is an order-preserving subsequence holding exactly the to-dos that match the search and the priority, each matching one as many times as it occurs in the list |
| `TodoViews.FilteredByPriority` | EXAMPLES.tsx:187-190 | with a priority chosen, every to-do shown has it |
| `TodoViews.DefaultFilterShowsAll` | EXAMPLES.tsx:176-191 | with the empty query and 'all', every to-do is shown |
| `TodoViews.ClearCompleted` | EXAMPLES.tsx:238-243 | with no completed to-do rendered, the state is unchanged; otherwise the to-dos become `WithoutIds` of the old list and the completed ids, loading is false, there is no error, and selection and modals are kept; the published states grow by two per completed to-do, a started one (loading, no error) then a finished one (not loading, no error) |
| `TodoViews.WithoutIdsSpec` | EXAMPLES.tsx:238-243 | a to-do survives clearing iff it was in the list and its id is not cleared; survivors keep their order and every copy |
| `TodoViews.ClearedCompletedGone` | EXAMPLES.tsx:238-243 | after clearing, no to-do shares an id with a to-do completed in the rendered list |
| `EndpointTypes.NewEndpoint` | api/endpoint.types.ts:22-28 | url defaults to '', method to GET, response and transformer to null, data_fields to []; truthy values are kept |
| `EndpointTypes.MethodNamesDistinct` | api/endpoint.types.ts:1-6 | the four members of REQUEST_METHOD name four different methods |
| `EndpointTypes.Copy` | api/endpoint.types.ts:22-28 | a copy keeps url and data_fields, a non-empty method (an empty one becomes GET), and truthy response and transformer; falsy ones become null |
| `EndpointTypes.CopyOfConstructed` | api/endpoint.types.ts:22-28 | copying a constructed endpoint gives it back unchanged |
| `EndpointTypes.CopyIdempotent` | api/endpoint.types.ts:22-28 | copying twice is copying once |
| `Api.AuthorizationHeader` | api/api.ts:34-40 | the header is non-empty iff the token is truthy, and then it is 'Bearer ' followed by the token |
| `Api.SubstituteIds` | api/api.ts:46-50 | the loop's url is `FillIds` of the url: each key's first placeholder replaced, in order |
| `Api.FillIds` | api/api.ts:46-50 | a url holding no placeholder of any key is unchanged |
| `Api.FillOneId` | api/api.ts:48 | for one key, the url is the text before the first placeholder, the value, then the untouched rest |
| `Strings.ReplaceFirstEffect` | api/api.ts:48 | replacing keeps the text before the first occurrence and everything after it, later occurrences included; without an occurrence nothing changes |
| `Api.UnfilledPlaceholderReported` | api/api.ts:52-54 | any placeholder left in the url is logged (corrected pattern) |
| `Api.UnfilledMissedAsWritten` | api/api.ts:52 | as written, "/todos?id={id}" keeps a placeholder that is not logged |
| `Api.NormalizeTrailingSlash` | api/api.ts:56-58 | the result is the url or the url plus '/', ends with '/' or contains '?', and is unchanged exactly when the url already did |
| `Api.NormalizeIdempotent` | api/api.ts:56-58 | normalising twice is normalising once |
| `Api.Dispatch` | api/api.ts:61-76 | an unknown method throws "Unknown request method" |
| `Api.DispatchSpec` | api/api.ts:61-76 | the switch succeeds exactly on the four REQUEST_METHOD strings, each reaching its own verb |
| `Api.CallerHeadersWin` | api/api.ts:42 | merged headers have both key sets; caller values win on a clash, instance values fill the rest |
| `Api.Api.constructor` | api/api.ts:10-20 | the client starts with the Accept: application/json header |
| `Api.Api.Call` | api/api.ts:32-79 | the client's Authorization header is set from the token; the request uses the copied endpoint's method, the filled and normalised url, the payload and instance headers overridden by caller headers; an unknown method throws; the unfilled-placeholder log is emitted exactly as the as-written pattern (a slash followed by `{`, `*` or `}`) matches the filled url, and does not stop the call |

## Left out

- zustand's `persist` and `devtools` internals are not modelled. These are hydration, merging into defaults, write-back and write ordering. The model stops at the options the factory hands to `persist`.
- stores/utils/storage/localforageStorage.ts is not modelled. It is a wrapper over the localforage library; the storage engine is only a named choice (`PersistedStore.StorageEngine`).
- Logging through `console.*` is dropped. The exceptions are the warning texts of `ValidateStore.Validate`, the failure outcome of `PersistedStore.PersistOptions.OnRehydrate`, the development warning (`ReRegistered`) of `PersistedStore.StoreRegistry.Register`, and the unfilled-placeholder flag of `Api.Api.Call`.
- Api.Api.constructor: the headers are those api/api.ts passes to `create`. The default headers apisauce merges in on its own (such as `Content-Type: application/json`) come from the library and are not modelled.
- Network I/O is not modelled. This covers the apisauce calls, `create`, `Api.setup` (never called) and lib/api/todoAPI.ts. The response of the login call is an input.
- Asynchrony is not modelled. The `set` calls of one action are published back to back; another action running between its awaits is not modelled.
- The to-do store's `catch` branches are not modelled. Nothing inside their `try` blocks can throw, so those branches cannot run.
- Clocks are not modelled. `Date.now()` ids and `new Date()` timestamps are parameters; dates are milliseconds. The overdue check, `BaseTransformer` and date formatting are left out.
- The UI is not modelled: React components, hooks, timers, the JSON export and `alert`.
- api/utils.ts (browser URL parsing, FormData) and api/api-config.ts (environment) are not part of this model.
- `JsValue.Get` reads only own properties, plus `length` and indices of arrays and strings. Properties inherited from a prototype (`toString`, `push`, …) read as undefined.
- `JsValue.Value` numbers are integers. NaN, -0 and fractions are not modelled.
- Lower-casing in `useFilteredTodos` is a parameter; Unicode case mapping is not modelled.
- Api.SubstituteIds: the replacement is `String(value)` taken literally. JavaScript's `$&`, `$1` and `$$` patterns, and function-valued replacements, are not modelled. Key order is the order of the given sequence.
- AuthMigrations.MigrateV0: the persisted state is typed. A persisted state that is null (JavaScript throws a TypeError) or a user that is a primitive is not modelled. An avatar set to `undefined` and an absent avatar are the same. Aliasing of the user object is not modelled.
- AuthStore.AuthStore.UpdateUser: a patch that sets `id`, `name` or `email` explicitly to `undefined` is not modelled. Only `avatar` may be present-and-undefined.
- TodoStore.TodoStore.UpdateTodo: a patch setting a field other than `dueDate` explicitly to `undefined` is not modelled.
- PersistedStore.StoreRegistry.Register: the registry is an object passed in, not a module-level singleton.
- TodoViews.ClearCompleted: the rendered list is a parameter. It need not equal the store's current list, just as the handler's closure may be stale.

## Findings

| source | as written | input that shows it | evidently intended | confidence | as-written member | corrected member |
|---|---|---|---|---|---|---|
| stores/auth/auth.store.ts:95-102 | `partialize` is passed in the third argument of `createPersistedStore`, which reads only `storage` and `onError` (stores/utils/createPersistedStore.ts:16-23), so `persist` never receives it and persists the whole state | any auth state: the persisted snapshot contains the `login`, `setUser`, `logout` and `updateUser` functions | persist only `user`, `isAuthenticated` and `token`, as the comment on line 96 says | medium, not executed | `AuthStore.PartializeDroppedAsWritten` | `AuthStore.PartializeCloneable` |
| api/api.ts:52 | `match('/[{*}]')` builds the regular expression `/[{*}]`: a slash followed by `{`, `*` or `}` | url "/todos?id={id}" with no `id` supplied: the placeholder stays and nothing is logged | log any `{`, `*` or `}` left in the url (`/[{*}]/`) | medium, not executed | `Api.UnfilledMissedAsWritten` | `Api.UnfilledPlaceholderReported` |
