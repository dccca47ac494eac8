# Rafta, modelled and proved in Dafny

Rafta is a task server: gRPC handlers over one SQLite database, with background goroutines that remove
revoked tokens and unused tags. This project models its protocol between handlers, tables and
goroutines, and proves what every call and every run of it keeps.

How it is laid out, bottom up:

- `Basics`, `Text`: result types, status codes and the few functions of Go's `strings` package that matter.
- `Tables`: the tables as values, the constraints of the schema, the cascades, and the meaning of each
  statement that writes. `Store` is the connection: a class with one field per table, one method per
  query, and a script that says which statements the database refuses, so that every error exit is covered.
- `Tags`, `TaskUpdate`, `Tasks`: tag synchronisation, the UPDATE built from field masks, and the task handlers.
- `Credentials`, `Passwords`, `Accounts`: identity checks, hashing and parsing, and the account handlers.
- `Cleanup`, `Sessions`: timers for revoked tokens, bearer authentication, and the handlers that issue tokens.
- `Tokens`, `Rotation`: the token lifecycle as a transition system in which requests, timers, the clock,
  crashes and restarts interleave freely, and what follows for refresh tokens.
- `SqlText`, `Disk`, `Bootstrap`, `Connecting`, `Startup`: schema comparison, backups and new databases, the
  default admin, the checks of a start as a function of the file and of the script of failures, and `Setup`
  as a whole.
- `Replacement`: which starts keep the revocation table, and what the others forget.
- `Runs`, `Housekeeping`, `Capacity`: runs of committed operations, the background tag cleanup, and the
  limit on signups when several are in progress.
- `Requests`: every call of a handler is such a run, whatever the database refuses.

Handlers are methods on a `Database`. Each is proved against a function on table values (`Tags.Sync`,
`Tasks.Created`, `Tasks.Updated`, `Accounts.WithUser`, `Bootstrap.AdminEnsured` and so on) and the
properties are then proved about those functions, which `Runs.Step` combines; `Requests.Serve` shows that each
handler leaves what its step says. Clocks, random values, new
ids, signatures and the verdict of the email grammar are parameters. Argon2id (RFC 9106) is an arbitrary
function of password, salt and threads; of base64 (section 4 of RFC 4648) only the inverse law is assumed.

## What the code does that one might not expect

Each is modelled as the code has it, with the exact effect and, where it applies, the exact condition for
the intended one.

- `UnassignTags` filters on the tag only. Taking a tag off one task takes it off every task
  (`Tags.SyncFrame`); other tasks are untouched exactly when no removed tag was shared (`Tags.SyncIsLocal`).
- `UpdateUserModified` has no WHERE clause. A password change stamps every account; only the user's own row
  changes exactly when all others already carry that stamp (`Accounts.RekeyIntended`).
- `UpdateTask` synchronises the tags of the parsed id before it looks the row up by the raw text and
  compares owners. An uncanonical spelling is answered NotFound; every refusal is rolled back
  (`Tasks.UpdateTask`). Its successful response is empty. The masks have no entry for dates.
- `NewTask` narrows the state to a byte, `UpdateTask` does not: after an update the owner can read the task if
  and only if the state it is left with is 0 to 255 (`Tasks.UpdatedReadable`, `Tasks.StateOutOfRange`). A
  further update of the state repairs it.
- `CleanupExpiredToken` falls through after deleting at once, and arms a timer that is already due.
- `handleBasicAuth` trims the decoded text and splits it at the first colon. A user's own email and password
  are accepted if and only if the email has no colon and no leading white space, and the password hashes
  alike with and without its trailing white space (`Accounts.SignupRoundTrip`). Otherwise the server looks up
  some other pair, which can be another user's (`Accounts.ColonNamesAnother`; whether the email grammar admits
  two such addresses is not modelled).
- The default admin is hashed with the number of CPUs, login uses the configured thread count; its generated
  password can end in a blank (`Bootstrap.DefaultAdminLogin`, exact for every password). With detected threads
  every other generated password works (`Bootstrap.AutomaticLogin`). Whoever owns the
  address `admin@localhost` is promoted when there is no admin.
- When `AdminExists` fails, the promotion still runs and is then rolled back (`Bootstrap.ValidateAdmin`).
- `GetTask` reads the row and the tags by two statements outside a transaction. Other users' operations in
  between do not show (`Runs.ReadsAgree`), but the owner's own can: a task deleted in between is shown with its
  row and without its tags (`Runs.TornByDelete`).
- Backups made within one second can share a name and overwrite each other. A start with two failing settings
  can so lose the file it found (`Connecting.LosingStart`).
- After a rebuild, the settings made before it are not repeated: exactly which starts get all seven is
  `Connecting.AllSettings`, and one that does not is `Connecting.BusyTimeoutLost`.
- A rebuild that fails at the opening or before the last setting ends in a nil dereference. The exact condition
  over every script of statements and renames is `Connecting.NilDereference`. Without any failing statement it
  is a file that is no database and cannot be renamed (`Connecting.UnreadableFile`); otherwise a setting that
  fails and one statement of its rebuild are enough (`Connecting.SettingAndRebuildFail`).
- The schema comparison ignores letter case, layout, comments and semicolons, and any row for SQLite's own table,
  and notices any other word that differs (`Disk.MatchesExactly`, `Disk.ChangedWordShows`).
- When a rename fails, the new tables are added to the old file unless a name clashes, and after the schema
  check nothing looks at the result again (`Connecting.MismatchExactly`, `Connecting.MismatchWithoutFaults`, and
  the start in `Connecting.ForeignDatabase`).
- A start that moves the database away forgets its revocations, while the keys that verify tokens stay. It keeps
  the rows exactly when for every check that fails the rename fails too, so in particular when the file is
  healthy and none of ten statements fails (`Connecting.KeptExactlyIfHealthy`, `Replacement.WhichStart`).
  Forgetting is harmless if the tokens had expired; if not, a forgotten one is answered at once
  (`Replacement.ReplacementForgets`).
- A refresh token can be answered twice by a request that dawdles one nanosecond longer than the grace
  (`Rotation.GraceIsTight`); the signup limit is exceeded by concurrent signups (`Capacity.LimitIsExceeded`).
- `UpdateTask` and `DeleteUser` spawn no tag cleanup, so the tags they free stay until another operation
  spawns one (`Tags.SyncOrphans`, `Housekeeping.OrphansExplained`).

## Model

| member | source | states |
|---|---|---|
| `Rotation.AtMostOneRefresh` | internal/pb/auth_refresh.go:16-54 | in every interleaving of requests, timers, clock ticks, crashes and starts, no refresh token is consumed or answered twice, provided each insert comes within the grace after the expiry check and no start moves away the row of an unexpired token |
| `Rotation.LineageConserved` | internal/pb/auth_refresh.go:39-53 | in those runs each login or signup has at most one heir at any moment (unrevoked descendants plus refreshes in progress), and every descendant carries the subject and roles of its root |
| `Rotation.PrunedRefinesUnpruned` | internal/database/cleanup.go:16-19 | refinement: in those runs, with the query too within the grace, the service with pruning, timers and starts gives the same flights, grants and answers as a machine that never forgets a revocation |
| `Rotation.DecisionsAgree` | internal/auth/auth.go:173-187 | in those runs, for a request within the grace of its expiry check, looking at the pruned table equals looking at everything ever revoked |
| `Rotation.SecondGrant` | internal/pb/auth_refresh.go:22-31 | in every run whatsoever, a token consumed or revoked before is granted again if and only if it is a refresh token, its row is gone and the statement works; its row is gone only for a request slower than the grace or because the database was moved away |
| `Rotation.GraceIsTight` | internal/database/cleanup.go:14 | a run in which one insert is one nanosecond later than the grace answers the same token twice |
| `Rotation.PairsAreIssued` | internal/auth/auth.go:209-254 | the pairs of that run are those the service issues at its moments, with a time to live of a minute |
| `Replacement.WhichStart` | internal/database/initialization.go:97-134 | a start restarts the lifecycle with the rows it finds if for every check that fails the rename fails too, and otherwise replaces them; no check fails if and only if the file is healthy and none of ten statements fails; table and timers are those of the start |
| `Replacement.ReplacementForgets` | internal/secrets/secrets.go:36-46 | if a start moves the database away while a refresh token in its table is unexpired, a request without any delay has that token answered, for the second time if it was answered before |
| `Rotation.RequestSteps` | internal/auth/auth.go:148-205 | check, query, insert and abandon match the unpruned machine step by step |
| `Rotation.OnceStep` | internal/database/schema.sql:45-48 | one step keeps: granted and answered tokens unrepeated, one holder per lineage; the insert relies on the primary key |
| `Rotation.OutlivedStep` | internal/database/initialization.go:106-108 | one step keeps: tokens recorded in files moved away had expired by then |
| `Rotation.HeirBorn` | internal/auth/auth.go:209-254 | when a refresh issues, the new token takes the place of the request that consumed its parent |
| `Tokens.InvRun` | internal/database/cleanup.go:20-84 | invariant of every run, whatever the delays: the table is the history minus rows past expiry plus grace, timers are due at exactly that moment, every row is covered, lineages are well formed |
| `Tokens.CleanupCoverage` | internal/database/cleanup.go:20-64 | every row has a timer, or a request about to set one, or a recorded failure; without such requests and due timers only failures are past their grace |
| `Tokens.RestartRestores` | internal/database/cleanup.go:66-84 | after a successful start every row has its timer again, no failure is left over, and no row was past its grace when the start began |
| `Tokens.Drain` | internal/database/cleanup.go:47-62 | letting the due timers fire removes every row past its grace that is not waiting for a request or a failure |
| `Tokens.ScheduleKeeps` | internal/pb/auth_refresh.go:32-37 | scheduling, or failing to, keeps the invariant |
| `Tokens.RestartKeeps` | internal/database/initialization.go:129-134 | a restart, successful or not, keeps it |
| `Tokens.IssuingKeeps` | internal/auth/auth.go:209-254 | a pair with fresh ids keeps lineages and requests in flight consistent |
| `Tokens.AgedStep` | internal/database/initialization.go:248-266 | one step keeps the rows of files moved away and the fact that no request is older than the present file |
| `Tokens.OutsideSteps` | internal/database/cleanup.go:47-84 | a timer's and a failed start's step leave table and timers as the contracts of `TimerFires` and `TokenCleanupProcess` say |
| `Sessions.Issue` | internal/auth/auth.go:209-254 | a pair with one subject, one set of roles, the two ids and types, and each expiry the last whole second of its own time to live; it fails exactly when a signature does |
| `Sessions.PairLives` | internal/auth/auth.go:220-246 | for both tokens, under every configuration: they pass the expiry check until a second before the end of their time to live, never from its end on, and expire at whole seconds |
| `Sessions.HandleBearerAuth` | internal/auth/auth.go:148-205 | accepts exactly a verified, unexpired, unrevoked token with well formed ids, and passes its claims on |
| `Sessions.BearerIsTwoSteps` | internal/auth/auth.go:148-205 | what the handler accepts, and the identity it passes on, is for an issued token exactly what the lifecycle's check and query let through |
| `Sessions.RefreshTokens` | internal/pb/auth_refresh.go:16-54 | the token is consumed exactly when its row can be inserted; same subject and roles in the new pair; what each failure leaves behind |
| `Sessions.RefreshIsThreeSteps` | internal/pb/auth_refresh.go:16-54 | the handler, uninterrupted, leaves what the lifecycle's insert, schedule and issue steps leave |
| `Sessions.RevokeToken` | internal/auth/auth.go:331-354 | revocation without a new pair; housekeeping failures are not reported |
| `Sessions.RevokeIsTwoSteps` | internal/auth/auth.go:331-354 | uninterrupted, it leaves what the lifecycle's revoke and schedule steps leave |
| `Sessions.Login` | internal/pb/auth_login.go:17-48 | issues for the authenticated user and its roles; the code of every refusal and of a database fault |
| `Sessions.CheckCapacity` | internal/pb/auth_signup.go:17-46 | closed signups are refused whatever the count and the database do, an unlimited service never refuses for capacity, and a positive limit refuses exactly when the count has reached it |
| `Sessions.Signup` | internal/pb/auth_signup.go:16-80 | with signups closed always FailedPrecondition and nothing stored, never that code while there is room; otherwise the account and its roleless pair, the order of refusals, and that the account stays when only the pair fails |
| `Credentials.GetCreds` | internal/auth/auth.go:267-287 | succeeds exactly for the expected kind of token; Unauthenticated for none, InvalidArgument for another kind |
| `Credentials.HasAdminRights` | internal/pb/server_tools_users.go:102-115 | decided by the roles inside the token |
| `Cleanup.CleanupExpiredToken` | internal/database/cleanup.go:20-64 | deletes at once past expiry plus grace, and in every success arms one timer for exactly that moment |
| `Cleanup.TimerFires` | internal/database/cleanup.go:47-62 | removes the row by id, or leaves everything when the statement fails |
| `Cleanup.TokenCleanupProcess` | internal/database/cleanup.go:66-84 | one timer for each row found; rows past their grace at the start gone, rows within it at the end kept; only rows past their grace are lost when it fails |
| `Tags.SyncTags` | internal/pb/server_tools_task.go:51-144 | leaves `Sync`; without database faults it fails only for a missing task with tags to assign, so no UNIQUE or primary key can break; with nothing to do it writes nothing |
| `Tags.SyncNames` | internal/pb/server_tools_task.go:44-51 | afterwards the task carries exactly the requested names, for every list |
| `Tags.SyncFrame` | resources/queries/tags.sql:39-42 | every other task ends with its names minus those taken off this task |
| `Tags.SyncIsLocal` | resources/queries/tags.sql:39-42 | other tasks are unchanged if and only if no removed name was shared |
| `Tags.SyncOrphans` | internal/pb/server_tools_task.go:121-141 | exactly which tags are unused afterwards |
| `Tags.SyncSettles` | internal/pb/server_tools_task.go:51-144 | a second call is the identity |
| `Tags.SyncLinks` | internal/pb/server_tools_task.go:98-141 | row by row, which links remain and which are added |
| `Tags.SyncIntegrity` | internal/database/schema.sql:32-43 | every constraint still holds |
| `Tags.CreateMissing` | internal/pb/server_tools_task.go:65-83 | creates each missing name once, repeated names included |
| `Tags.LinkMissing` | internal/pb/server_tools_task.go:98-119 | assigns each requested tag that is not linked; fails without faults only for a missing task |
| `Tags.StaleTags` | internal/pb/server_tools_task.go:121-129 | exactly the linked tags that are not requested |
| `Tags.CleanTagsEffect` | resources/queries/tags.sql:44-49 | cleaning leaves no unused tag, keeps every constraint, and changes no task's names |
| `TaskUpdate.RemoveDuplicate` | internal/pb/rafta_update_task.go:173-183 | the same masks, each once, in order of first occurrence |
| `TaskUpdate.SlotsAlign` | internal/pb/rafta_update_task.go:53-79 | placeholders and arguments agree in number and order, each with the request's value for its column |
| `TaskUpdate.MasksOverlay` | internal/pb/rafta_update_task.go:53-73 | the assignments amount to a pointwise overlay of the masked fields |
| `TaskUpdate.StatementMeaning` | internal/pb/rafta_update_task.go:50-79 | the whole statement overlays the caller's row of that canonical id and no other |
| `TaskUpdate.MaskOrderIrrelevant` | internal/pb/rafta_update_task.go:52-54 | any order and repetition of the same masks has the same effect |
| `Tasks.NewTask` | internal/pb/rafta_new_task.go:17-93 | row and tags in one transaction; nothing on failure; a cleanup is spawned exactly on success |
| `Tasks.GetTask` | internal/pb/rafta_get_task.go:16-60 | shows the owner's row as the first statement finds it and the names of its tags, each once, as the second does, whatever is committed in between; the code of every refusal and of a database fault |
| `Tasks.TornExactly` | internal/pb/rafta_get_task.go:32-50 | that is the view of one moment if and only if the names were the same at both |
| `Tasks.TaskToPb` | internal/pb/server_tools_task.go:17-42 | each field in its place, tags by index |
| `Tasks.TaskRoundTrip` | internal/pb/rafta_new_task.go:37-69 | what was sent is what is shown, through NULL and back; the state survives if and only if it fits a byte; tags as a set |
| `Tasks.UpdateTask` | internal/pb/rafta_update_task.go:18-160 | all or nothing on every exit; on success the overlay and the tags; NotFound only for an uncanonical or missing id, PermissionDenied only for another's task, whatever the database does |
| `Tasks.UpdatedReadable` | internal/pb/rafta_update_task.go:61-63 | after an update the owner can read the task if and only if the state it is left with fits a byte |
| `Tasks.UpdateRoundTrip` | internal/pb/rafta_update_task.go:50-79 | read after update: the old view overlaid by the masked fields, dates and creation time unchanged, tags as requested if masked and as before if not |
| `Tasks.StateOutOfRange` | internal/pb/rafta_update_task.go:61-63 | an update of the state to 256 succeeds and makes a readable task unreadable |
| `Tasks.BuildUpdate` | internal/pb/rafta_update_task.go:50-73 | the loop over masks builds text and arguments together, synchronises tags, and notes a changed state |
| `Tasks.FinishUpdate` | internal/pb/rafta_update_task.go:75-159 | raw text and owner decide; then exactly one row is overlaid |
| `Tasks.DeleteTask` | internal/pb/rafta_delete_task.go:17-59 | the owner's task and nothing else; NotFound for others; a cleanup is spawned exactly on success |
| `Tasks.RemoveTaskExactly` | internal/database/schema.sql:37-43 | the cascade takes the task's links and nothing else, and every constraint still holds |
| `Tasks.CleanTags` | internal/pb/server_tools_task.go:146-161 | a failed cleanup leaves everything, a successful one has the effect proved for it |
| `Store.Database.UnassignTags` | resources/queries/tags.sql:39-42 | unlinks the tags from every task |
| `Store.Database.UpdateUserModified` | resources/queries/users.sql:90-93 | stamps every user |
| `Store.Database.GetUserTask` | resources/queries/tasks.sql:7-11 | owner-filtered; a state that is no byte cannot be scanned |
| `Store.Database.RevokeToken` | resources/queries/tokens.sql:1-3 | refuses a second row for one token |
| `Store.Database.DeleteUser` | resources/queries/users.sql:33-36 | removes the user and cascades |
| `Accounts.NewUser` | internal/pb/server_tools_users.go:27-100 | user and secret together or neither; the codes for a bad email, a taken one and a bad password, in that order |
| `Accounts.UpdateUser` | internal/pb/server_tools_users.go:117-152 | the one row gets name, email and stamp and keeps its creation time, all others stay; the code of every refusal and of a database fault |
| `Accounts.UpdateUserCredentials` | internal/pb/server_tools_users.go:154-216 | the exact effect, stamping everyone, or none |
| `Accounts.RekeyIntended` | resources/queries/users.sql:90-93 | the intended effect holds if and only if every other account already has that stamp |
| `Accounts.RekeyRoundTrip` | internal/pb/server_tools_users.go:154-216 | a changed password is the one that authenticates, under the same exact condition, and nobody else is affected |
| `Accounts.DeleteUser` | internal/pb/rafta_delete_user.go:14-31 | the caller's own account goes |
| `Accounts.AdminDeleteUser` | internal/pb/admin_delete_user.go:16-41 | authorised by the token's roles only |
| `Accounts.RemoveUserExactly` | internal/database/schema.sql:9-60 | the cascades take exactly the user's secret, roles, tasks and their links |
| `Accounts.HandleBasicAuth` | internal/auth/auth.go:98-146 | succeeds exactly when some user answers to the decoded text; roles from the tables; the code of every refusal and of a database fault |
| `Accounts.RefusalTold` | internal/auth/auth.go:104-121 | which refusals are NotFound: exactly text with a colon and in front of the first one no user's email |
| `Accounts.SchemeOptional` | internal/auth/auth.go:99 | a header without the prefix is decoded as it is |
| `Accounts.SignupRoundTrip` | internal/auth/auth.go:98-146 | after any accepted signup the header of its email and password authenticates the new user if and only if the email comes through the parser and the trimmed password hashes alike; for everybody else the header means what it meant before |
| `Accounts.OwnPairAnswers` | internal/auth/auth.go:104-119 | the same for any user whose secret was made with any thread count |
| `Accounts.ColonNamesAnother` | internal/auth/auth.go:106-111 | the header of an email with a colon can authenticate another user, and then not its own |
| `Accounts.CredentialRoundTrip` | internal/auth/auth.go:98-146 | the part a client can rely on: without colon, leading white space and trailing blank, the header authenticates the new user and nobody else (section 2 of RFC 7617) |
| `Accounts.CredentialLookupMisses` | internal/auth/auth.go:104-111 | outside that condition the parser hands back another pair than the one sent |
| `Accounts.HeaderDecodes` | internal/auth/auth.go:99-103 | the header a client builds decodes to the pair |
| `Passwords.ParseRecovers` | internal/auth/auth.go:104-109 | the parse recovers the pair if and only if the email has no colon and trimming changes nothing |
| `Passwords.ParseOf` | internal/auth/auth.go:104-109 | what the parser makes of any pair: email and password less outer white space, or with a colon in the email some other email |
| `Passwords.ParseRecoversAccepted` | internal/auth/auth.go:356-373 | the same as a condition on an accepted password's last character |
| `Passwords.ValidatePasswd` | internal/auth/auth.go:356-373 | accepts exactly lengths in range and characters from the blank to the tilde |
| `Passwords.ValidatesAcrossThreads` | internal/sec/sec.go:65-87 | a stored password validates under another thread count if and only if Argon2 gives the same hash |
| `Passwords.Threads` | internal/auth/auth.go:289-299 | one thread per CPU, narrowed to a byte, for automatic detection; the configured count when that is 1 to 255; 255 above; zero only for automatic detection with a CPU count that is a multiple of 256 |
| `Passwords.GenPassword` | internal/sec/sec.go:93-107 | 24 characters, each spelled by its draw, and its secret under the number of CPUs |
| `Passwords.GeneratedAcceptable` | internal/sec/sec.go:93-107 | a generated password satisfies the rules for chosen ones if and only if they allow its length |
| `Bootstrap.ValidateAdmin` | internal/database/initialization.go:143-246 | the effect of every success: a new admin's row, and a password and secret made from the draws, with which, under detected threads, it can log in unless the last draw is the blank; else users and secrets as they were; on any failure, `AdminExists` included, everything as before |
| `Bootstrap.AdminGuaranteed` | internal/database/initialization.go:143-246 | some existing user holds ADMIN, constraints hold, at most one user was added, with a secret, only the owner of the default address is promoted, nobody at all when there was an admin, and nothing else changed |
| `Bootstrap.AdminPresent` | internal/database/initialization.go:162-163 | a user or a grant is added if and only if there was no admin |
| `Bootstrap.AdminIdempotent` | internal/database/initialization.go:143-246 | a second start changes nothing |
| `Bootstrap.DefaultAdminLogin` | internal/sec/sec.go:93-107 | for every password, the header of the default admin authenticates the new admin alone, and does so if and only if Argon2 agrees on both thread counts with trailing white space cut off |
| `Bootstrap.AutomaticLogin` | internal/auth/auth.go:289-299 | with detected threads the new admin's header authenticates if and only if Argon2 does not tell the password from itself without trailing white space, so always if there is none |
| `SqlText.RemoveSQLComments` | internal/database/initialization.go:281-289 | the line-by-line edit computes what a comment scanner does |
| `SqlText.SchemaRoundTrip` | internal/database/initialization.go:268-278 | the schema file and the statements stored from it normalise alike, for any statements, comments and layout, and SQLite's own table anywhere among them |
| `SqlText.SchemaRecognised` | internal/database/initialization.go:268-278 | the stored statements of any database normalise to the text of the schema file if and only if, SQLite's own table aside, they have the words of its statements in their order |
| `SqlText.WordsOfText` | internal/database/initialization.go:268-278 | those words: of a text without a comment, the ones it was written with, in lower case |
| `SqlText.NormalFormsCompareWords` | internal/database/initialization.go:270-278 | two texts normalise alike if and only if they leave the same words |
| `SqlText.NoStraddle` | internal/database/initialization.go:273 | the sqlite_sequence text cannot arise across a seam between statements |
| `Disk.CreatedMatches` | internal/database/initialization.go:333-350 | a database made by `newDB` passes the comparison when it is opened again |
| `Disk.MatchesExactly` | internal/database/initialization.go:333-350 | the comparison of a start accepts any list of stored tables if and only if it has the words of the schema's statements |
| `Disk.ChangedStatementShows` | internal/database/initialization.go:333-350 | a database with one other statement passes if and only if that has the same words |
| `Disk.ChangedWordShows` | internal/database/initialization.go:333-350 | with one other word in one statement, if and only if it is the same word up to letter case |
| `Disk.BackupKeepsAllBut` | internal/database/initialization.go:248-266 | a backup keeps every file if and only if its name was free |
| `Disk.MoveKeeps` | internal/database/initialization.go:248-266 | with free timestamped names, a backup keeps every file and every earlier backup |
| `Disk.SameSecondLosesData` | internal/database/initialization.go:251-255 | two renames with one timestamp, the plain name being taken, lose the first file |
| `Disk.LeftoverTablesShow` | internal/database/initialization.go:113-119 | tables added to an old file match the schema if and only if the file had none besides SQLite's own |
| `Disk.Host.NewDB` | internal/database/initialization.go:291-331 | what a successful or failed creation leaves at the path; it succeeds only if no table name is taken |
| `Disk.Host.Backup` | internal/database/initialization.go:248-266 | the file under its plain or timestamped backup name, or nothing when the rename fails |
| `Startup.Setup` | internal/database/initialization.go:46-141 | over every script of failures: connection, file and nil dereferences are those of `Connected`, and without faulty statements it panics exactly on an unreadable file that cannot be renamed; what a returned handle guarantees, a new admin's secret made from the draws, and which files survive; as long as renames succeed a file that is not healthy is moved away, and without faults a sound one exactly when some word of its schema differs; without faults it succeeds and leaves a healthy database in place |
| `Connecting.AllSettings` | internal/database/initialization.go:75-95 | over every script, a start gets a connection with all seven settings if and only if none of the nine statements of the checks fails, nor any of a database that had to be created first, and the file the checks begin with is healthy |
| `Connecting.SettingsComplete` | internal/database/initialization.go:75-120 | the same for any renames, from the file the settings begin with |
| `Connecting.BusyTimeoutLost` | internal/database/initialization.go:79-95 | a start whose first setting fails once runs without it |
| `Connecting.NilDereference` | internal/database/initialization.go:79-86 | over every script of statements and renames, a start dereferences nil if and only if the rebuild after a failed open, or after a failed setting before the last, fails itself: in one of its statements, or because the rename failed and the file is in the way |
| `Connecting.UnreadableFile` | internal/database/initialization.go:79-86 | without any failing statement, that is if and only if the file is no database and cannot be renamed |
| `Connecting.SettingAndRebuildFail` | internal/database/initialization.go:79-86 | a setting before the last that fails and one more statement in its rebuild are enough, whatever the renames do |
| `Connecting.TwoFaults` | internal/database/initialization.go:67-81 | so are two openings that fail |
| `Connecting.KeptExactlyIfHealthy` | internal/database/initialization.go:97-120 | over every script, a connection has the file found if and only if that is healthy and none of ten statements fails; otherwise it has its rows if and only if the rename failed for every failed check, and a rename that worked last leaves a blank database |
| `Connecting.LosingStart` | internal/database/initialization.go:79-95 | a start that gets a connection and loses the file it found: two failing settings whose backups fall into one second |
| `Connecting.MismatchExactly` | internal/database/initialization.go:112-120 | over every script, a connection lacks the expected schema if and only if the schema check failed, the rename failed too, and old and new tables together do not match |
| `Connecting.MismatchWithoutFaults` | internal/database/initialization.go:112-120 | without faulty statements, that is if and only if a sound file of another schema could not be renamed |
| `Connecting.ForeignDatabase` | internal/database/initialization.go:112-120 | a family of starts that hand out such a connection |
| `Connecting.ConnectedIsUsable` | internal/database/initialization.go:58-120 | every connection has foreign keys and a write-ahead log, and a sound file with the expected schema as long as renames succeed |
| `Startup.Connect` | internal/database/initialization.go:58-120 | open, settings, integrity and schema together follow `Connected` |
| `Startup.ApplyPragmas` | internal/database/initialization.go:75-95 | the loop follows `Settling`: when it gives a connection and with which settings, when it returns an error, when it dereferences nil |
| `Startup.CheckSchema` | internal/database/initialization.go:112-120 | kept as it is when it matches, otherwise moved away and rebuilt |
| `Startup.FetchSchema` | internal/database/initialization.go:352-370 | one stored text per line |
| `Runs.RunIntegrity` | internal/database/schema.sql:1-60 | every run of every handler keeps emails and tag names unique, every reference valid, and one secret per user |
| `Runs.StepIntegrity` | internal/database/schema.sql:1-60 | the same for one operation |
| `Runs.ForeignStep` | internal/pb/rafta_update_task.go:68-79 | no operation of one user changes another's task rows, and tags only by the shared-tag effect |
| `Runs.TaskOutlivesOthers` | internal/pb/rafta_get_task.go:16-60 | the task round trip survives any run of other users' operations that takes none of its tags |
| `Runs.ReadsAgree` | internal/pb/rafta_get_task.go:32-50 | other users' operations between the two statements that take none of the tags do not show |
| `Runs.TornByDelete` | internal/pb/rafta_get_task.go:32-50 | the owner's deletion in between shows as a row without its tags, which neither moment has |
| `Runs.LeaveTakesOwnTasks` | internal/database/schema.sql:16-30 | deleting a user takes, of all tasks, exactly the user's own |
| `Requests.Serve` | internal/pb/server.go:66-90 | every call of a handler, whatever the database refuses, leaves the tables as a run of the operation it stands for, or as they were; constraints hold afterwards; cleanups are spawned exactly by the operations that `Housekeeping` says |
| `Housekeeping.CleaningIsInvisible` | internal/pb/server_tools_task.go:146-161 | wherever cleanups fall in a run, or if none does, clients see the same tasks and tag names |
| `Housekeeping.OrphansExplained` | internal/pb/server_tools_task.go:146-161 | in every run that starts without unused tags, one exists only while a cleanup is pending, or if since the last success one failed or was lost, tags were taken off, or a user deleted |
| `Housekeeping.CleanupsConserved` | internal/pb/server_tools_task.go:146-161 | in every run each cleanup spawned ends once, dies with the process, or is still pending |
| `Housekeeping.StepView` | resources/queries/tags.sql:1-49 | what an operation shows depends only on what clients could see before |
| `Capacity.SignupsWithinLimit` | internal/pb/auth_signup.go:24-48 | with at most K signups in progress, users plus signups past the check stay within the larger of the initial count and M-1+K, plus admin-made users; with K = 1 the limit holds |
| `Capacity.LimitIsExceeded` | internal/pb/auth_signup.go:24-48 | the bound is reached for every K: all count before any inserts |
| `Capacity.OperationsAreMoves` | internal/pb/admin_new_user.go:12-29 | each operation changes the set of users as the moves of the capacity machine do, and no other does |
| `Capacity.SignupsConserved` | internal/pb/auth_signup.go:16-80 | in every interleaving each signup that arrives is refused, inserts or gives up once, or is still in progress |

## Left out

- Transport, logging, flags, generated protobuf code, the secret vault's file access and process shutdown. Of the
  vault only its survival of every start is used.
- The handlers that return the result of one SELECT unchanged (all users, one user, a user's tasks, all tasks,
  user info): each would be one query of `Store` behind `GetCreds`. Likewise the endpoints that only check
  credentials before they call `newUser`, `updateUser` or `updateUserCredentials`.
- JWT encoding and Ed25519: a verified token is a record of claims; signatures are unforgeable and new ids are fresh.
- The `Authenticating` interceptor's choice of scheme. It compares schemes without regard to case, while the two handlers cut only the exact prefixes "Basic " and "Bearer ", so a differently written prefix reaches the decoder.
- SQLite internals: transactions are serialisable, foreign keys are enforced on the one modelled connection, WAL side files and the connection pool do not appear, and a PRAGMA that reports no error took effect.
- Schema: SQLite stores the text of a CREATE statement from the table's name on, after its own spelling of the
  head, and drops `IF NOT EXISTS`. The model stores the statement as written, which agrees for a schema file
  whose statements begin with `CREATE TABLE` and the name, as this one's do.
- Schema: SQLite lists its own table once in a file rebuilt in place after a failed rename, the model once for each
  half that needs it. The comparison sees neither (`Disk.MatchesExactly`).
- Tokens: the row of a user does not appear in the lifecycle; deleting a user revokes none of its tokens.
- Email grammar and UUID parsing: a verdict, and the distinction between malformed, canonical and other spellings.
- Recurrence: `rescheduleTask` is an empty hook. Requests without a recurrence or without data dereference nil in the code; here both are present.
- `strings.ToLower` is that of ASCII, which is all the schema uses.
- The clock of the lifecycle never goes back. The code checks expiries by the wall clock and runs its timers by the
  monotonic one; a wall clock set back by more than the grace is not covered.
- The AUTOINCREMENT counter is unbounded, so its exhaustion at 2^63 is not modelled; neither are clock values beyond those of `time.Time`.
- Argon2 with zero threads, which needs a CPU count that is a multiple of 256, would panic; here it is one more argument of an arbitrary function.
- Stat errors other than a missing file; they count as missing, as in the code.
