# Role synchronisation core of the Globed auto-role bot

This project models, in Dafny, `BotState` from `src/state.rs`: the part of the
Discord bot that pushes a guild member's roles to the Globed game server.

- `BotState` is a class over the bot's two tables: `roles` (a `seq<Role>`,
  each row a game-server role id `id` and a Discord role id `discordId`) and
  `linked` (a `map<int, int>` from Discord member id to game account id).
- `SyncRoles` looks up the member's link and loads every role row. It routes
  each row's `id` into the keep list when the member holds the Discord role
  with that row's `discordId`, and into the remove list otherwise. It then
  sends `{account_id, keep, remove}` to the server.
- `HandleUnlink` looks up the link, loads the rows and deletes the link. Only
  then does it send a request with an empty keep list and every row's `id` in
  the remove list.
- `AddRole`, `RemoveRole`, `RemoveRoleByGlobedId` and `GetAllRoles` are the
  role-table operations.
- `FromStoreError` is the conversion of a store error into a `RoleSyncError`.
  `Classify` turns the outcome of the POST into success, `ServerRequest` or
  `ServerUpdate`.

The database and the HTTP client are replaced by parameters:

- A store failure is a `Fault` naming the query that fails and its cause. Every
  store operation, the entry points and the role-table operations alike, takes
  an optional `Fault`. At most one is needed, since the first failing query
  ends the call.
- The result of the POST is a `SendOutcome`: no response, or a status with a
  body. The body is `None` when reading it failed.
- Each entry point returns `sent`, the request handed to the HTTP client. It is
  `None` when a store error ended the call before a request was built.

The proved properties:

- The partition covers every row exactly once, in table order.
- An id is kept exactly when its row's Discord role is held, and removed
  exactly when it is not.
- The unlink request is the sync request of a member that holds no roles.
- Removing by either key drops exactly the matching rows and keeps the rest in
  order.
- Adding a row and then removing it by its key restores the table.
- The outcome classification and the store-error conversion hold in every case.

## Model

| member | source | states |
|---|---|---|
| State.FromStoreError | src/state.rs:33-40 | a store error becomes `NotLinked` exactly when it is "row not found"; every other error becomes `Database` carrying it; no other error kind is produced |
| State.Classify | src/state.rs:194-225 | the call succeeds exactly when a response arrived with a 2xx status; a send failure gives `ServerRequest` with its cause; a non-2xx status gives `ServerUpdate` with that status and the body, or `"<no message>"` when the body could not be read |
| State.ClassifyExamples | src/state.rs:208-225 | status 200 is success; status 500 with body "boom" is `ServerUpdate(500, "boom")`; an unreadable body on 404 gives the placeholder message |
| State.TrimTrailingSlash | src/state.rs:60-62 | the normalised URL plus "/" is the configured URL when that ends in '/', otherwise the URL is unchanged |
| State.TrimExamples | src/state.rs:60-62 | exactly one slash is dropped: "x//" becomes "x/", "x/" becomes "x", "x" stays "x" |
| State.BotState.constructor | src/state.rs:57-87 | the state holds the given tables, and its base URL is the configured one with one trailing '/' dropped |
| State.HasRole | src/state.rs:110-113 | true exactly when some id in the member's role list equals the given Discord role id |
| State.BotState.FetchLinkedUser | src/state.rs:93-99 | the member's link row when one exists; "row not found" when none does; the store's error when the query fails |
| State.BotState.GetAllRoles | src/state.rs:253-257 | all rows of the role table, in table order, or the store's error |
| State.BotState.SyncRoles | src/state.rs:89-137 | a failing lookup gives `Database`, a missing link gives `NotLinked`, a failing role fetch gives `Database`, and in each case no request is built; otherwise the request sent carries the linked account id, the kept ids and the removed ids of the whole table, and the result is the classification of the POST's outcome; no table changes |
| State.BotState.HandleUnlink | src/state.rs:139-176 | store failures and a missing link return `Database` / `NotLinked` with no request sent and no table changed; otherwise the member's link is deleted, no other link or role row changes, the request sent has an empty keep list and every row id in table order as remove list, and the result is the classification of the POST's outcome, so the link stays deleted whatever that outcome is |
| State.BotState.AddRole | src/state.rs:228-237 | on success the new row (game-server id, Discord id) is appended and nothing else changes; on a store error the table is unchanged and the error is returned |
| State.BotState.RemoveRole | src/state.rs:239-244 | on success exactly the rows whose Discord id matches are gone, the others keep their order, and an absent Discord id leaves the table unchanged; on a store error the table is unchanged |
| State.BotState.RemoveRoleByGlobedId | src/state.rs:246-251 | on success exactly the rows whose game-server id matches are gone, the others keep their order, and an absent id leaves the table unchanged; on a store error the table is unchanged |
| State.RetainMembers | src/state.rs:239-251 | a row survives a delete exactly when it was in the table and does not match the deleted key, and the table never grows |
| State.RetainAll | src/state.rs:239-251 | a delete whose key matches no row leaves the table unchanged |
| State.RetainConcat | src/state.rs:239-251 | deleting from a table split in two is deleting from each part, in order |
| State.AddThenRemoveRole | src/state.rs:228-244 | inserting a row with a fresh Discord id and then removing that Discord id restores the table |
| State.AddThenRemoveRoleByGlobedId | src/state.rs:228-251 | inserting a row with a fresh game-server id and then removing by that id restores the table |
| State.IdsMembers | src/state.rs:163-167 | a string is in the id list of a table exactly when some row carries it as its `id` |
| State.PartitionCovers | src/state.rs:105-121 | the kept and removed lists together hold every row id exactly once (as multisets), so their lengths add up to the number of rows |
| State.PartitionConcat | src/state.rs:105-121 | the kept and removed lists of a table split in two are those of the first part followed by those of the second, so both lists follow table order |
| State.PartitionStep | src/state.rs:108-120 | one more row appends its id to the keep list when its Discord role is held and to the remove list otherwise, never to both |
| State.KeptIff | src/state.rs:108-116 | an id is in the keep list exactly when some row with that id maps a Discord role the member holds |
| State.RemovedIff | src/state.rs:108-120 | an id is in the remove list exactly when some row with that id maps a Discord role the member does not hold |
| State.PartitionDisjoint | src/state.rs:105-121 | when row ids are distinct, no id is both kept and removed |
| State.SyncExample | src/state.rs:105-121 | rows A→100, B→200, C→300 and a member holding 100 and 300 give keep ["A", "C"] and remove ["B"] |
| State.UnlinkIsSyncWithoutRoles | src/state.rs:163-173 | for a member with no roles the keep list is empty and the remove list is every row id in order, which is exactly the unlink request |

## Left out

- The SQLite pool, the SQL text and async execution: the tables are the class's fields, and a failing query is a `Fault` parameter.
- Uniqueness constraints of the tables: the schema is in `src/db`, which is not part of this model, so `AddRole` does not reject duplicates and ids need not be distinct (`PartitionDisjoint` assumes they are).
- The order `SELECT * FROM roles` returns rows in is decided by the database engine; the model takes it to be the table's sequence order.
- The HTTP client: its construction, user agent, the URL `{base_url}/gsp/sync_roles`, the `Authorization` header and the POST itself. Only the outcome of the POST is modelled, as the `SendOutcome` parameter.
- JSON serialisation of the request and its unreachable failure branch: `InternalError` is kept as an error case that is never produced.
- Environment variables, their `expect` panics, the server password and the guild id: the constructor receives the configured base URL as a parameter.
- Logging and the `Display` messages of the errors.
- The casts `as i64` of member and role ids and `as i32` of the account id: ids are unbounded integers, assumed in range.
- HTTP status codes are modelled as integers; the range 100-999 that the HTTP library enforces is not.
- Concurrent syncs of the same member: the code does not coordinate them.
