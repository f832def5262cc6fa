# Create-resource pipeline of the plant-journal backend, in Dafny

This project models the create endpoints of the backend's `feeds` package
(`internal/server/routes/feeds/insert.go`): the checks that run before a new
row is inserted, the actions that run after it, and the static table saying
which checks and actions each resource kind gets. The model runs against an
abstract in-memory row store rather than SQL.

- **Store** (`store.dfy`). A `Session` maps each collection name to its
  sequence of rows: resources with an owner, user accounts, and `userend_*`
  mirror rows. It also records the collections whose statements fail, and
  keeps an ordered trace of every write and every response header set.
  `Extends(s, s', e)` says that `s'` is `s` after the effects `e`: every
  collection grows by exactly the rows that `e` writes to it. The queries
  `count(*) WHERE nickname = ?` and `SELECT * WHERE userid = ?` are pure
  functions on the session.
- **Http** (`http.dfy`). A middleware stage either calls the next handler
  `fn` (`Next`, carrying the state `fn` receives) or answers the request
  itself with an error status (`Halt`).
- **CreateUser** (`create_user.dfy`). This is the user-creation pre-check.
  A nickname that is already taken gives 400 "User already exists". A failed
  count query or a failed hash gives 500. Otherwise the password is replaced
  by its bcrypt hash (cost 8) and `fn` runs. The check never writes.
- **Fanout** (`fanout.dfy`). This is `fillUserEnd`: one dirty mirror row per
  object, appended to `userend_<collection>` in iteration order. A failed
  insert is skipped silently.
- **Enrollment** (`enrollment.dfy`). This is the post-action of device
  (`userends`) creation. It signs a token with exactly the claims `userID`
  and `userEndID` and sets it in header `x-sgl-token`. It then snapshots the
  user's rows of boxes, plants, timelapses, devices, feeds, feedentries and
  feedmedias, in that order, into the matching mirror tables, and calls
  `fn`. Only a signing failure (500) stops it. Failed snapshot queries and
  inserts are ignored.
- **EnrollmentFacts** (`enrollment_facts.dfy`). These are the properties of
  enrollment: which mirror table gains which rows, that no other table
  changes, that the header comes first, and how many rows are added.
- **Registry** (`registry.dfy`). This is the closed set of resource kinds.
  `Describe` gives each kind its collection, its pre-check chain and its
  post-action chain. `setUserID`, `checkAccessRight(...)` and
  `createUserEndObjects(...)` are recorded only with the arguments they are
  given. The table is checked against an ownership graph (`Parent`,
  `IdField`, `MirrorKind`), and that graph is shown to have no cycles.

Collaborators are parameters, not code. The password hasher, the token
signer and the signing secret (`JWTSecret`, read from process configuration)
are passed in as function values and a string. Storage failures come from
the session's fault map.

Notes on the code as written:
- The box endpoint's pre-check is `checkAccessRight("devices", "DeviceID", true)`.
  So a box hangs under a device, and it is the only kind whose parent
  reference is passed with the required flag set.
- A duplicate nickname is answered with status 400 (Bad Request).
- Snapshot failures are not reported to the caller. Every error of the
  snapshot queries and mirror inserts is discarded, and once the token is
  signed the request always continues to `fn`.
- The snapshot visits the seven collections in a fixed order. Because every
  write is appended to the trace, that order is visible in the model.
- Box creation fans out to `userend_devices` through `DeviceID`, exactly as
  device creation does. Enrollment, however, mirrors boxes into
  `userend_boxes`. The model keeps the configuration as written, and
  `EnrollmentFacts.BoxMirrorTablesDiffer` records the difference.

## Model

| member | source | states |
|---|---|---|
| `Store.Insert` | internal/server/routes/feeds/insert.go:54 | An insert into a working collection appends exactly that row to it and leaves every other collection unchanged. An insert into a failing collection returns that collection's error and changes nothing. |
| `Store.Owned` | internal/server/routes/feeds/insert.go:83 | The `userid = ?` filter returns each resource of the user as many times as it occurs among the rows, and nothing else: its multiset equals the user's resource rows. |
| `Store.SetResponseHeader` | internal/server/routes/feeds/insert.go:80 | Setting a response header appends that header to the trace and leaves every collection and every fault unchanged. |
| `Store.CountNickname` | internal/server/routes/feeds/insert.go:24-28 | The count query fails, with the collection's error text, exactly when the collection is faulty. Otherwise the count is at most the number of rows, and it is positive exactly when some account row carries the nickname. |
| `Store.SelectOwned` | internal/server/routes/feeds/insert.go:83 | The `userid = ?` query fails, with the collection's error text, exactly when the collection is faulty. Otherwise it returns exactly the user's resources, each as often as it occurs among the rows. |
| `Store.NicknameCount` | internal/server/routes/feeds/insert.go:24 | The nickname count is positive exactly when some account row carries that nickname. |
| `Store.NicknameCountExact` | internal/server/routes/feeds/insert.go:24 | The nickname count equals the number of positions holding an account with that nickname. |
| `CreateUser.CheckNewUser` | internal/server/routes/feeds/insert.go:20-42 | The user pre-check never writes. The request reaches `fn` iff the count query works, no account has the nickname, and the hash succeeds. It then passes on the user with the password replaced by its hash. Otherwise it halts: 500 with the count error, 400 "User already exists", or 500 with the hash error, in that precedence. |
| `CreateUser.DuplicateNicknameRejected` | internal/server/routes/feeds/insert.go:24-33 | With a working count query, if an account with the same nickname exists, the request halts with 400 "User already exists" and the store is unchanged, whatever the hasher does. |
| `CreateUser.FreshNicknameAccepted` | internal/server/routes/feeds/insert.go:30-41 | With a working count query, an unused nickname and a working hasher, the request reaches `fn`. The nickname is kept and the password is the hash at cost 8. |
| `Fanout.FillUserEnd` | internal/server/routes/feeds/insert.go:48-56 | `fillUserEnd` never fails. If the mirror table is faulty, nothing changes. Otherwise the effects are exactly one mirror write per object, in iteration order, to `userend_<collection>`. |
| `Fanout.WrittenToMirrorWrites` | internal/server/routes/feeds/insert.go:54 | The writes of `fillUserEnd` add the mirror rows to `userend_<collection>` and add nothing to any other table. |
| `Fanout.FillUserEndRows` | internal/server/routes/feeds/insert.go:48-56 | On a working mirror table, the table grows by exactly \|all\| rows and its old rows are kept as a prefix. Row i is (device id, id of object i, dirty = true). Every other table is unchanged. |
| `Fanout.FillUserEndTwice` | internal/server/routes/feeds/insert.go:49-54 | On a working mirror table, there is no deduplication. Running `fillUserEnd` twice with the same arguments appends the mirror rows twice, so each object gains at least two mirror rows. |
| `Enrollment.TokenClaims` | internal/server/routes/feeds/insert.go:70-73 | The token carries exactly two claims: `userID`, the acting user, and `userEndID`, the new device. |
| `Enrollment.Fetched` | internal/server/routes/feeds/insert.go:82-83 | A failed snapshot query leaves the fetched list empty and its error is dropped. A working one yields exactly the user's resources of that collection, each as often as it occurs. |
| `Enrollment.Snapshot` | internal/server/routes/feeds/insert.go:82-108 | Snapshotting the collections one after another has the same effect as the planned writes computed on the store before the snapshot started. Earlier mirror writes never change what later queries return. |
| `Enrollment.Enroll` | internal/server/routes/feeds/insert.go:63-111 | The request reaches `fn` iff signing succeeds, whatever storage faults exist. A signing failure halts with 500 and the store and trace unchanged. On success, the effects are the header `x-sgl-token` followed by the snapshot writes of the seven collections, in order. |
| `EnrollmentFacts.PlannedInto` | internal/server/routes/feeds/insert.go:82-108 | For distinct collections, the mirror table of the k-th collection receives exactly one mirror row per object the query returns for that collection. It receives nothing if the query or that mirror table fails. |
| `EnrollmentFacts.PlannedOutside` | internal/server/routes/feeds/insert.go:82-108 | A table that is not the mirror table of a snapshotted collection receives no snapshot row. |
| `EnrollmentFacts.PlannedAreMirrorWrites` | internal/server/routes/feeds/insert.go:49-54 | Every snapshot write puts a mirror row for the new device, with dirty = true, into the mirror table of a snapshotted collection. |
| `EnrollmentFacts.PlannedSize` | internal/server/routes/feeds/insert.go:82-108 | The snapshot writes at most one row per owned row across the collections. When no query or mirror insert fails, it writes exactly one. |
| `EnrollmentFacts.EnrolledMirrorTable` | internal/server/routes/feeds/insert.go:82-108 | For any list of distinct collections snapshotted after the header, the mirror table of the k-th collection gains exactly one dirty row per row of that collection owned by the user, in the order the query returns them. It gains nothing if the query or the mirror table fails. |
| `EnrollmentFacts.EnrolledOutside` | internal/server/routes/feeds/insert.go:82-108 | For any snapshotted list, a table that is not the mirror table of a listed collection keeps its rows. |
| `EnrollmentFacts.EnrolledEffects` | internal/server/routes/feeds/insert.go:80-108 | For any snapshotted list, the old trace is kept and followed by the token header. Every later effect is a dirty mirror write for the device into a listed mirror table, at most one per owned row, and exactly one when nothing fails. |
| `EnrollmentFacts.EnrollMirrorsOwnedRows` | internal/server/routes/feeds/insert.go:82-108 | After enrollment, the mirror table of each of the seven collections equals its old rows plus one dirty mirror row per row of that collection owned by the acting user. It gains nothing if the query or the mirror table fails. |
| `EnrollmentFacts.EnrollTouchesOnlySnapshotMirrors` | internal/server/routes/feeds/insert.go:82-108 | Enrollment changes no table other than the seven `userend_*` mirror tables. The source collections themselves are untouched. |
| `EnrollmentFacts.EnrollMirrorsNothingElse` | internal/server/routes/feeds/insert.go:82-108 | The mirror table of any collection outside the seven, such as `plantsharings`, `users` or `userends`, is unchanged by enrollment. |
| `EnrollmentFacts.EnrollTokenThenMirrors` | internal/server/routes/feeds/insert.go:74-108 | With a working signer, the request reaches `fn`. The old trace is kept, the first new effect is the token header, and every later effect is a dirty mirror row for the new device in one of the seven mirror tables. |
| `EnrollmentFacts.EnrollMirrorCount` | internal/server/routes/feeds/insert.go:82-108 | Besides the header, enrollment adds at most one mirror row per row the user owns across the seven collections. It adds exactly that many when none of them or their mirror tables fail. |
| `EnrollmentFacts.EnrollScenario` | internal/server/routes/feeds/insert.go:82-92 | Take a store with no failing collection. `boxes` holds exactly one row, A's box B1, and `plants` holds exactly one row, A's plant P1. The other five snapshotted collections are empty, as are `userend_boxes` and `userend_plants`, and signing succeeds. Then enrolling device D1 for A reaches `fn` and adds three effects: the header and exactly two mirror rows, (D1, B1) as the only row of `userend_boxes` and (D1, P1) as the only row of `userend_plants`. |
| `EnrollmentFacts.SnapshotKinds` | internal/server/routes/feeds/insert.go:82-108 | The snapshot covers the collection of every kind except users, userends and plantsharings. |
| `EnrollmentFacts.BoxMirrorTablesDiffer` | internal/server/routes/feeds/insert.go:124 | Box creation fans out to `userend_devices`/`DeviceID`, while enrollment mirrors boxes into `userend_boxes`. |
| `Registry.Describe` | internal/server/routes/feeds/insert.go:16-202 | Every kind except users starts its pre-checks with `setUserID`, and every access check comes after it. A kind has exactly one pre-check, plus one access check when it has a parent, so devices, feeds and userends have only `setUserID` and users have only the nickname check. Only users have the nickname check. There is at most one post-action: a fan-out, or enrollment for userends only. Only users and plantsharings have no post-action. |
| `Registry.AccessChecksFollowOwnership` | internal/server/routes/feeds/insert.go:119-199 | Each kind's access check names its parent's collection and id field. Only boxes (on devices/DeviceID) require the parent. Plants→boxes/BoxID, timelapses→plants/PlantID, feedentries→feeds/FeedID, and feedmedias and plantsharings→feedentries/FeedEntryID are optional. Devices, feeds, userends and users have no access check. |
| `Registry.FanOutTargets` | internal/server/routes/feeds/insert.go:123-192 | Plants, timelapses, devices, feeds, feedentries and feedmedias fan out to `userend_<own collection>` with their own id field. Boxes fan out to `userend_devices`/`DeviceID`. Users, userends and plantsharings have no fan-out. |
| `Registry.CollectionsDistinct` | internal/server/routes/feeds/insert.go:116-196 | Different kinds are stored in different collections. |
| `Registry.ClimbShort` | internal/server/routes/feeds/insert.go:119-199 | Following the configured parents from any kind stops within fewer steps than there are kinds, so the configuration has no cycle. |
| `Registry.Ancestors` | internal/server/routes/feeds/insert.go:119-199 | The chain of configured parents from a kind is empty exactly when the kind has no parent. Otherwise it starts at the parent, each element's parent is the next one, and it ends at a kind without parent. |
| `Registry.AncestorsDepths` | internal/server/routes/feeds/insert.go:119-199 | Along the chain of parents, the distance to the root drops by exactly one per step. |
| `Registry.OwnershipAcyclic` | internal/server/routes/feeds/insert.go:119-199 | No kind is its own ancestor in the configured ownership graph. |

## Left out

- `insertEndpoint`, `setUserID`, `checkAccessRight` and `createUserEndObjects` are defined outside `insert.go` and are not part of this model. The model records only the arguments each endpoint passes to them, so it proves nothing about what those stages do with the request or the store.
- `Store.Owned`: the snapshot queries have no `ORDER BY`, so the database does not fix the order of the returned rows. The model returns them in storage order. The multiset ensures of `Store.Owned`, `Store.SelectOwned` and `Enrollment.Fetched` hold whatever the order, but the mirror-row order stated by `EnrollmentFacts.EnrolledMirrorTable` and `EnrollmentFacts.EnrollMirrorsOwnedRows` holds for storage order only.
- The composition of a middleware chain around the final handler belongs to the middleware library and `insertEndpoint`, so it is not modelled. Each stage is modelled on its own as `Next` (calls `fn`) or `Halt`.
- `internal/server/routes/feeds/public.go` is left out. It holds read-only browsing queries with joins, query-string parsing and media URLs, and has no ownership or fan-out logic.
- `internal/server/routes/feeds/endpoints.go` is left out. It only encodes the `{id}` / `{status}` JSON responses.
- `cmd/server/main.go` is left out. It loads configuration and starts the server.
- bcrypt and HS256 JWT signing are opaque function parameters, and so is the viper-held `JWTSecret`, which is a plain string argument. Their internals are not modelled. `bcrypt.GenerateFromPassword` draws a fresh random salt on every call; the model folds that salt into the hasher given to each request, so `Hasher` is a deterministic function value.
- `Store.NicknameCount`: the SQL comparison `nickname = ?` follows the column's collation, which depends on the database engine. The model compares nicknames as exact character sequences.
- Storage failures are per collection. A collection in the fault map fails every statement. A transient failure of one statement among several on the same collection is not expressible.
- `Enrollment.Fetched`: when a snapshot query fails, the fetched list is modelled as empty. Whether the database driver might leave partial results in the slice is not modelled.
- `CreateUser.CheckNewUser`: the source assigns the (possibly empty) hash to the password before it checks the hash error. On that path the request halts and the user is never passed on, so the model does not carry the overwritten value.
- The text `http.Error` writes to the response body is modelled as the status and message only. Headers and bodies other than `x-sgl-token` are not modelled.
- Concurrency is not modelled: the race between the nickname count and the insert, and the non-transactional fan-out. The model covers a single request.
- Mirror rows are modelled as one row type; the per-table Go types (`UserEndBox`, `UserEndPlant`, ...) produced by the factories are not distinguished. The row factories for the resources themselves are not modelled either.
