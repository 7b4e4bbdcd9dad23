# Verified model of SoftCodeSolution

SoftCodeSolution is a multi-tenant business platform: a Go server, a Node.js process supervisor, a PostgreSQL
database in the cloud and a SQLite database on the local machine. This project models the parts of it whose promises
span several functions and have to survive faults, retries or arbitrary orders of events, and proves those promises
in Dafny 4.11. `dafny verify dfyconfig.toml` checks everything.

| files | what they model |
|---|---|
| `FileSystem`, `Storage`, `TreeDigest`, `Order`, `Text`, `Common` | paths, trees and fallible disk operations, the two tree digests, byte-wise string order, the string and hash functions of Go the program relies on |
| `RecoveryPoint`, `Backup`, `RecoveryId` | a recovery point on disk, its creation and its verification gate, its identifiers |
| `OfficeMirror`, `Offsite` | the office mirror and the offsite copy with its retention pass |
| `ReconciliationStages`, `ReconciliationPass`, `Reconciliation`, `LatestPoint` | the self-healing pass over one point, and the choice of the point |
| `RecoveryEvents`, `RecoveryStatus` | the recovery timeline and the five-layer status computed from it |
| `Restore` | restoring over the live stores, with the rollback written out by hand |
| `Registration`, `RegistrationRaces` | offline-first registration, first with atomic transactions, then with every SQL statement as its own step |
| `Base64`, `PasswordHash`, `HashText` | the Argon2id text format, the texts its decoder accepts, and the password check |
| `Supervisor` | the crash supervisor as an event-driven machine |
| `RateLimit` | the fixed-window request limiter |
| `Entitlements`, `ModuleSlug` | plan assignment, pricing, module identifiers |
| `AuditLog` | the hash-chained audit log and its reader |

## How faults are modelled

A `Storage.Disk` holds a tree: whatever lies above a path is a directory. An operation that meets the wrong kind of
path, a file where it needs a directory or a directory where it needs a file, fails as the system call does. Beyond that
the disk decides at every operation whether it fails, and a failed operation may leave anything at the path it
worked on. `calm` says that no operation of a run fails for a reason outside the model; promises that need an
undisturbed run carry it as a premise, everything else holds for every schedule of failures. The frame of an operation
is `FileSystem.Kept`: outside the named trees nothing differs, except that missing parent directories may have been
made. Restore takes its faults as a record instead, so that its result is a function and the failing runs can be named.

An attempt to sync a registration meets a way to the cloud that is up, down or lost between the commit and its answer,
and a mark in SQLite that is stored or not: the program drops the error of that UPDATE, which the worker issues over a
second connection while its own query is open.

SHA-256 is any function to 32 bytes. It cannot be injective on all texts, so each theorem that needs it asks that no
two of the texts hashed in that theorem collide (`Text.CollisionFree`). Argon2 (RFC 9106) is any function to a key of
the requested length. PostgreSQL and psql are functions on an opaque database state; a script under
`--single-transaction` either gives a new state or changes nothing.

## What the theorems show about the code

* The limiter admits at most 2 x limit - 1 requests in any interval of one window length, if requests reach the row
  lock in the order of their clock readings, and that bound is attained for every policy with a window of at least two
  clock ticks. It is not the configured limit. The reading is taken before the transaction: where readings arrive at
  most d late, the bound holds for intervals shorter than the window by d, and whole windows can hold more. All this is
  about a window start stored as it was taken: PostgreSQL rounds it to microseconds, so the next window can open up to
  half a microsecond early, and the bound does not cover intervals in which it does.
* The supervisor keeps exactly one process or one armed restart timer if and only if fewer health requests can be in
  flight than failures are needed for a restart. Otherwise stale answers that arrive after a failed respawn leave it
  with neither, for ever. Two processes at once are impossible whatever the bound. The documented bounded exponential
  backoff applies to failed spawns only: a process that started resets it.
* A synced local registration is in the cloud under its own id and email, on every run, if and only if no idempotency
  key is submitted with two emails. Every answer for a key is the id bound to it, on every run, if and only if no key
  is submitted with two emails of which one is submitted under another key as well: otherwise, between the key lookup
  and the key insert, two requests for one key can both succeed and be told different ids. Every pending row can be
  synced, after every history of requests and ticks, if and only if no email is submitted under two keys.
* Restore with a working rollback is all or nothing, over every schedule of failures, exactly when the run cannot get
  as far as activating an image, or replaying the dump of the present PostgreSQL over the restored one gives back the
  present one (without pg_dump: the two are equal) and a live SQLite file exists or sqlite3 is missing. The dump is
  taken without `--clean`; where replaying it is aborted, a failed activation leaves the new PostgreSQL beside the old
  SQLite file. A psql that commits and then reports a failure is not rolled back at all: counting it, restore is all or
  nothing only if PostgreSQL would not change. Without psql or an address, a restore of PostgreSQL reports a verified
  success and restores nothing.
* An undisturbed pass over a trusted point succeeds exactly when its mirror is sound or there is room for a new one
  once the recorded one is removed, and its copy is sound or no file stands above the places of the copy and no
  directory where its metadata go; this is for offsite paths without white space at their ends. A directory named like
  the offsite metadata inside a mirror keeps its offsite copy from being made, every time.
* Layer 4 of the status is verified as soon as the manifest has been written, even when the last check of the pass
  then fails. The text shown for layer 3 can be "Verified" without counting, when the manifest's free-form offsite
  status says so.
* Among trees without line breaks in their names, equal digests by directorySHA256 mean equal files apart from the
  offsite metadata. Among all trees, such a tree is identified by its digest exactly when it has at most one visible
  file: every tree with two or more, hence every office mirror, has the digest of a tree with a single file whose name
  spells out the other records, whatever the hash function.
* The decoder of password hashes accepts more than the encoder writes: any text before the first dollar sign, blanks
  before a number, a plus sign before the version, any text after the version and after the last parameter, and line
  breaks in the base64 parts. The password check asks for a text that begins with `$argon2id$`, so the first of these
  cannot reach it.
* An offsite copy is safe from every retention pass up to its time, whatever fails; after it an undisturbed pass deletes
  the copy unless its name is the greatest.
* Going through another plan leaves a trace exactly when that plan includes a switched-off manual or upgrade module.
  A saved module price of 0 charges the catalog price.

Where the code and its documentation differ, the model follows the code.

## Model

| member | source | states |
|---|---|---|
| RateLimit.LoadedPolicy | web_api_gateway_rate_limit.go:33-67 | every row, or none, yields a window of at least one second and a limit of at least one: 60 requests in 60 seconds without a row, and a sound column is taken as it is while an unsound one gets its default |
| RateLimit.Limiter.Request | web_api_gateway_rate_limit.go:69-192 | who is admitted, the counter afterwards, what remains and when to retry; a rejection and a database error leave the table as it was |
| RateLimit.WindowInvHolds | web_api_gateway_rate_limit.go:105-179 | with a monotone clock the counter counts exactly the requests admitted in its window, and fewer than the limit of the earlier ones are less than a window older |
| RateLimit.SlidingWindowBound | web_api_gateway_rate_limit.go:86-192 | where no clock reading reaches the row lock more than d late, any half-open interval shorter than the window by d holds at most 2 x limit - 1 admitted requests, over every such trace; with readings in order (d = 0) any interval of one window length |
| RateLimit.LateReadingBeatsBound | web_api_gateway_rate_limit.go:86-113 | a trace with one late reading in which a whole window length holds 2 x limit requests |
| RateLimit.SlidingWindowBoundIsTight | web_api_gateway_rate_limit.go:105-192 | a trace that attains the bound, for every policy |
| RateLimit.CounterNeverExceedsLimit | web_api_gateway_rate_limit.go:115-175 | also with clocks that disagree no window admits more than the limit, a request at or after its end is always admitted, a rejection changes nothing |
| Supervisor.Script.KeepsWatch | scripts/softcodesolution-crash-supervisor.js:94-529 | the variables of the script, after every sequence of callbacks the runtime can deliver, satisfy the invariant and are supervised |
| Supervisor.Script.constructor | scripts/softcodesolution-crash-supervisor.js:94-104 | the script starts by spawning the application |
| Supervisor.Script.Spawn | scripts/softcodesolution-crash-supervisor.js:249-277 | spawnApplication on the module variables |
| Supervisor.Script.SpawnedListener | scripts/softcodesolution-crash-supervisor.js:279-295 | the `spawn` listener |
| Supervisor.Script.ErrorListener | scripts/softcodesolution-crash-supervisor.js:297-312 | the `error` listener |
| Supervisor.Script.ExitListeners | scripts/softcodesolution-crash-supervisor.js:314-392 | both listeners of one `exit`, in the order they were added |
| Supervisor.Script.Restart | scripts/softcodesolution-crash-supervisor.js:347-392 | restartChild: blocked while stopping or restarting, otherwise the child is given up and its exit awaited |
| Supervisor.Script.Schedule | scripts/softcodesolution-crash-supervisor.js:436-476 | scheduleRestart arms at most one timer, with the current backoff |
| Supervisor.Script.RestartTimeout | scripts/softcodesolution-crash-supervisor.js:457-474 | the restart timer's callback |
| Supervisor.Script.HealthInterval | scripts/softcodesolution-crash-supervisor.js:184-197 | a health tick sends one request for a child that is starting or running, and none otherwise |
| Supervisor.Script.HealthAnswer | scripts/softcodesolution-crash-supervisor.js:196-242 | an answer, however late, resets or counts the failures and can ask for a restart |
| Supervisor.Script.Shutdown | scripts/softcodesolution-crash-supervisor.js:479-509 | a signal stops monitoring and disarms the restart timer |
| Supervisor.InvReachable | scripts/softcodesolution-crash-supervisor.js:180-529 | the invariant of every run: only the newest process can be alive, the state is starting, running, terminating or waiting, the backoff stays between its bounds |
| Supervisor.InvSupervised | scripts/softcodesolution-crash-supervisor.js:180-529 | from it: never two processes, and unless stopping one process or one armed timer, never both, never neither |
| Supervisor.CountIsUnhealthy | scripts/softcodesolution-crash-supervisor.js:184-242 | on every run the failure count is the number of unhealthy answers since the later of the last healthy one and the last spawn |
| Supervisor.GivesUpIff | scripts/softcodesolution-crash-supervisor.js:219-242 | on every run an answer gives up a running child if and only if it is the last of maxFailures answers in a row since that child was spawned that were all unhealthy |
| Supervisor.HealthyAnswerRestartsSeries | scripts/softcodesolution-crash-supervisor.js:211-216 | a healthy answer that arrives while a spawn is under way, however late, starts the backoff anew: n failed spawns later the delay is min(initial x 2^n, max) |
| Supervisor.NeverTwoProcesses | scripts/softcodesolution-crash-supervisor.js:180-529 | on every run, for every configuration: never two processes, and never a process beside an armed restart timer |
| Supervisor.SupervisedIffNoStaleRestart | scripts/softcodesolution-crash-supervisor.js:180-477 | that holds on every run if and only if fewer health requests can be outstanding than failures are needed |
| Supervisor.StaleFailuresWedge | scripts/softcodesolution-crash-supervisor.js:219-242 | otherwise a run that ends with nothing alive and nothing armed |
| Supervisor.WedgedStaysWedged | scripts/softcodesolution-crash-supervisor.js:249-256 | and no later event but a signal leads out of it |
| Supervisor.RestartTimerSpawns | scripts/softcodesolution-crash-supervisor.js:456-476 | on every run an armed timer spawns a new process when it fires |
| Supervisor.StoppedNeverSpawns | scripts/softcodesolution-crash-supervisor.js:479-509 | after stopping, no run spawns again, whatever the configuration |
| Supervisor.SignalEndsSpawning | scripts/softcodesolution-crash-supervisor.js:479-509 | whatever happened before a signal and whatever happens after it, nothing is spawned and no timer is armed from the signal on |
| Supervisor.CrashRestartsAfterInitialDelay | scripts/softcodesolution-crash-supervisor.js:279-287 | on every run, a process that did start is restarted after the initial delay |
| Supervisor.FailedSpawnsBackOff | scripts/softcodesolution-crash-supervisor.js:297-312 | n failed spawns in a row after the start: the next delay is min(initial x 2^n, max) |
| Supervisor.FailedRespawnsBackOff | scripts/softcodesolution-crash-supervisor.js:456-476 | n failed spawns in a row after the exit that ends any run: the next delay is min(initial x 2^(n+1), max), the timer of the exit has doubled it already |
| Registration.Service.SaveToSQLiteFirst | web_register_api.go:555-643 | insert or ignore, and the id of the new row or of the newest row in the way |
| Registration.Service.SyncToPostgres | web_register_api.go:651-752 | the cloud transaction as one step: bound key, taken email, taken id, or a new row bound to its key; an answer lost after the commit is a failure to the caller |
| Registration.AnswerIsBound | web_register_api.go:662-751 | an attempt answers with the id its key is bound to from then on, the earlier one if there was one; it fails exactly when the key is free and the email or the id is taken, and then changes nothing |
| Registration.Service.MarkSynced | web_register_api.go:1007-1025 | the row is synced without an error, or nothing changes when the UPDATE fails; no other row changes |
| Registration.Service.MarkPending | web_register_api.go:1027-1049 | the row is pending with the first 500 bytes of the error, or nothing changes when the UPDATE fails; no other row changes |
| Registration.Service.Register | web_register_api.go:219-253 | one request, with any luck: what is stored, what is answered, and when nothing could be saved |
| Registration.Service.SyncPending | web_register_api.go:905-958 | one tick over the rows its query returned, each with its own luck |
| Registration.PendingRowSyncs | web_register_api.go:668-751 | with one key per email, the transaction of a pending row cannot fail once the cloud is reachable |
| Registration.TickSyncsBatch | web_register_api.go:936-955 | a tick turns exactly those rows of its batch synced that get through, mark included, and leaves every other row as it was |
| Registration.TickShrinksQueue | web_register_api.go:920-955 | it takes exactly those rows off the queue, min(limit, pending) of them when all get through |
| Registration.QueueDrains | web_register_api.go:885-958 | after every history of requests and ticks, n ticks in which every row gets through leave pending - n x limit rows, or none |
| Registration.DrainsIffOneKeyPerEmail | web_register_api.go:668-751 | on every history every pending row can be synced, if and only if no email is submitted under two keys |
| Registration.HistoryIsConsistent | web_register_api.go:219-253 | every history of requests and ticks, whatever luck they have, leaves tables of the kind draining relies on |
| Registration.OldestPendingExists | web_register_api.go:920-930 | the worker's query always has an answer |
| Registration.SaveKeepsConsistent | web_register_api.go:584-643 | storing a request keeps what draining relies on |
| Registration.SyncKeepsConsistent | web_register_api.go:662-751 | so does a cloud transaction, whatever its outcome |
| Registration.EmailUnderTwoKeysNeverDrains | web_register_api.go:673-741 | an email under two keys leaves a row that no attempt turns synced, whatever luck it has |
| RegistrationRaces.SoundStep | web_register_api.go:662-751 | every statement of every request, worker item, crash or abort keeps emails unique, keys bound to stored rows and open transactions apart |
| RegistrationRaces.BindingsAreForEver | web_register_api.go:851-883 | at every point of every run, emails are unique and every key names a stored row, and from there on committed rows and bindings never change |
| RegistrationRaces.SyncedIsStoredIffOneEmailPerKey | web_register_api.go:651-752 | synced rows are in the cloud with their own id and email on every run, if and only if no key is submitted with two emails |
| RegistrationRaces.RepliesAreBindingsIffNotCrossed | web_register_api.go:668-751 | every answer for a key, first or repeated, is the id bound to it on every run, if and only if no key is submitted with two emails of which one is submitted under another key as well |
| RegistrationRaces.ReusedKeyLosesARegistration | web_register_api.go:673-679 | the run with a reused key that marks a row synced whose email the cloud never got |
| RegistrationRaces.ReusedKeyGetsTwoAnswers | web_register_api.go:668-751 | otherwise a run in which two requests for one key are told different ids |
| RegistrationRaces.InterleavedRequestsBothSucceed | web_register_api.go:668-749 | the interleaving behind it: both transactions commit, only the first binds the key |
| RegistrationRaces.UndisturbedIsCloudSync | web_register_api.go:662-751 | alone, the statements add up to the atomic transaction |
| RegistrationRaces.BoundKeyIsAnswered | web_register_api.go:668-676 | and a key that is bound is answered by the first statement, as by the atomic step |
| Base64.RoundTrip | web_register_api.go:463-464 | unpadded base64 (sections 3.2 and 4 of RFC 4648): decoding undoes encoding, for all bytes |
| Base64.AcceptedTexts | web_register_api.go:539-547 | a text decodes to given bytes if and only if it is their encoding up to line breaks anywhere and the dropped bits of a short last group |
| Base64.DecodesIff | web_register_api.go:539-547 | a text decodes to something if and only if all its characters are among the 64 digits and line breaks, and its digits do not end in a group of one |
| Base64.Alphabet | web_register_api.go:463-464 | the digits are those of table 1 in section 4 of RFC 4648 |
| Base64.Vectors | web_register_api.go:463-464 | vectors of section 10 of RFC 4648, without padding |
| PasswordHash.RoundTrip | web_register_api.go:446-553 | decoding an encoded hash gives back the same parameters, salt and hash, for every salt and hash |
| PasswordHash.NormalForm | web_register_api.go:509-553 | every text the decoder accepts has one normal form, reached by encoding it again |
| PasswordHash.FreshHashAccepts | web_register_api.go:446-507 | a fresh hash accepts an attempt exactly when Argon2id gives it the key of the password, of 32 bytes, under the fresh salt with 3 passes, 65536 KiB and 2 lanes; hence it accepts its own password |
| PasswordHash.WrongPasswordIsRefused | web_register_api.go:446-507 | where those two keys do not collide, every other password is refused |
| PasswordHash.VerdictIs | web_register_api.go:477-507 | the verdict on any encoded hash: whether the key of the attempt, under the encoded salt, cost and length, is the encoded hash |
| PasswordHash.WhiteSpaceAround | web_register_api.go:477-485 | white space around a stored hash makes no difference |
| PasswordHash.TextIs | web_register_api.go:466-474 | the text of a hash: variant, version 19, the three parameters in decimal, salt and hash in base64 |
| HashText.AcceptedTexts | web_register_api.go:509-553 | the decoder accepts exactly the texts of six parts with variant argon2id, a version that reads 19, three numerals that fit their fields and two base64 texts, and returns what they say; blanks before numerals, a sign before the version, and text after the version and after the last parameter are let through |
| HashText.LegibleText | web_register_api.go:509-553 | such a text with another version is refused for its version, and for its form where the version does not fit an integer |
| HashText.OtherVariantIsRefused | web_register_api.go:510-517 | six parts are refused for their variant exactly when it is another one |
| AuditLog.Log.Audit | main.go:787-817 | one line appended: time, sanitized event and message, the hash read from the file, and the hash of those four; nothing if the file cannot be opened |
| AuditLog.SanitizedIsPlain | main.go:839-854 | a sanitized field has no bar and no line break and between 1 and 500 bytes |
| AuditLog.SanitizedIs | main.go:839-854 | what is recorded of a text: its first 500 bytes at most once the white space at its ends is gone, with slashes for bars and spaces for line breaks; "empty" exactly for white space alone, or for that word |
| AuditLog.PlainIsKept | main.go:839-854 | a text of 1 to 500 bytes without white space at its ends, bars and line breaks is recorded unchanged |
| Text.HasCore | main.go:843-843 | trimming takes away exactly the white space at the ends of a text |
| AuditLog.LineSplitsIntoFields | main.go:796-807 | a line splits at its bars into exactly the fields it was made of |
| AuditLog.PreviousHashReadsLastLine | main.go:819-837 | the reader returns the hash of the line just appended, whatever its message contains and whatever the file held before |
| AuditLog.UnmarkedLogIsUnknown | main.go:819-837 | a file without any mark in it reads as "unknown" |
| AuditLog.LogHoldsChainHash | main.go:787-837 | so the file carries the hash of the whole chain, at every length |
| AuditLog.SameHashSameLog | main.go:787-854 | two logs that end in the same hash record the same entries, one by one |
| AuditLog.SameHashSameEntries | main.go:787-854 | and for plain texts the same events and messages themselves |
| AuditLog.SameEntriesSameFile | main.go:787-817 | and the recorded entries fix every byte of the file |
| Entitlements.Tenant.SavePlan | web_business_subscription_api.go:397-610 | when a plan is saved; which modules are on afterwards, the plan, status, cycle and price that are stored, the recalculated amount, and what is kept when a step fails |
| Entitlements.Tenant.Recalculate | web_business_subscription_api.go:625-803 | the subscription becomes the recalculated one with its plan, status and cycle, a monthly one without a plan where there was none, or nothing changes |
| Entitlements.Tenant.UpdateModule | web_modules_api.go:744-781 | the module is on afterwards iff that was asked, with the asked source and its overridden or catalog prices, and the amount is recalculated |
| Entitlements.Tenant.UpdatePrice | web_modules_price_api.go:47-100 | the module has the asked prices, marked as an override, its switch and source as before, and the amount is recalculated |
| Entitlements.EnabledAfterAssignment | web_business_subscription_api.go:515-575 | a module is on afterwards iff the plan includes it or it was on and is manual or upgrade |
| Entitlements.AssignmentKeeps | web_business_subscription_api.go:557-574 | manual and upgrade sources and overridden prices survive, other prices follow the catalog, nothing is deleted |
| Entitlements.AssignmentAdds | web_business_subscription_api.go:531-556 | a module the tenant did not have is there afterwards iff the plan includes it, owned by the plan at its catalog prices |
| Entitlements.AssigningTwiceIsOnce | web_business_subscription_api.go:515-575 | assigning the same plan twice is assigning it once |
| Entitlements.EarlierPlanLeavesNoTrace | web_business_subscription_api.go:513-575 | an earlier plan makes no difference iff it included no switched-off manual or upgrade module |
| Entitlements.SumQuery | web_business_subscription_api.go:713-754 | the sum of the add-on query, each row once |
| Entitlements.RecalculationIsAFixpoint | web_business_subscription_api.go:625-803 | amount = base + add-ons afterwards, and a second recalculation changes nothing |
| Entitlements.BaseIs | web_business_subscription_api.go:625-710 | the base: the active matrix row of the business by its column for the cycle, else an active row of the older table, else 0 |
| Entitlements.AmountMovesByContribution | web_business_subscription_api.go:711-760 | changing one row moves the amount by exactly that module's change in contribution |
| Entitlements.RowCosts | web_business_subscription_api.go:711-760 | what a row adds to the amount where the module was off: nothing if it is off, owned by the plan, unknown or included in the plan of the business, else its saved price for the cycle, or the catalog price where that is 0 |
| Entitlements.PlanModulesAreFree | web_business_subscription_api.go:735-748 | modules of the assigned plan are on and free, every other one that is on is charged |
| Entitlements.ChargedPriceIffNonzero | web_business_subscription_api.go:716-728 | a saved price is the price charged, unless it is 0 and the catalog price is not |
| Entitlements.SavedAmountIsConsistentIff | web_business_subscription_api.go:489-501 | between save and recalculation the amount is consistent iff there were no add-ons |
| ModuleSlug.ScsModuleSlug | web_modules_api.go:402-420 | the loop with its flag computes the slug |
| ModuleSlug.SlugIsCanonical | web_modules_api.go:402-420 | every slug has only a-z, 0-9 and single underscores, none at the ends |
| ModuleSlug.CanonicalIff | web_modules_api.go:402-420 | slugging leaves exactly the canonical texts alone |
| ModuleSlug.SlugIsIdempotent | web_modules_api.go:402-420 | slugging twice is slugging once |
| ModuleSlug.SlugIsWordsJoined | web_modules_api.go:402-420 | a slug is the words of the trimmed text in lower case, joined by underscores |
| ModuleSlug.CleanModuleIds | web_modules_api.go:863-872 | a plan's module list: canonical, not empty, each once, in order of first occurrence, none missing |
| Order.SortStrings | backend/backup/offsite.go:378-378 | the ascending list of the names |
| Order.AscendingUnique | backend/backup/offsite.go:378-378 | which is unique, so the digest does not depend on the order of the walk |
| TreeDigest.DirectorySHA256 | backend/backup/offsite.go:351-400 | the walk, the sort and the running hash give the digest of the tree, for every order of the walk |
| TreeDigest.VerifyDirectoryIntegrity | backend/backup/office_mirror_verify.go:23-115 | likewise for the second digest |
| TreeDigest.DigestDeterminesTree | backend/backup/offsite.go:351-400 | equal digests iff equal files apart from the offsite metadata, for names without line breaks |
| TreeDigest.IntegrityDeterminesTree | backend/backup/office_mirror_verify.go:101-114 | equal second digests iff equal trees, and then equal first digests |
| TreeDigest.MetadataIsInvisible | backend/backup/offsite.go:363-365 | adding or changing the metadata file does not change the digest |
| TreeDigest.VisibleIff | backend/backup/offsite.go:363-365 | the digest leaves out exactly the files with the name of the offsite metadata, in any directory |
| TreeDigest.DigestOfOneFile | backend/backup/offsite.go:380-399 | the digest of one file: the hash of its path, a line break, the hash of its content in hexadecimal and a line break |
| TreeDigest.HasLookalike | backend/backup/offsite.go:393-396 | every tree with two or more visible files has the digest of a tree with one file, whatever the hash function |
| TreeDigest.IdentifiedIffOneFile | backend/backup/offsite.go:351-400 | among trees that hash without collisions, a tree with plain names is the only one with its digest, up to the metadata, if and only if it has at most one visible file |
| OfficeMirror.MirrorHasLookalike | backend/backup/office_mirror.go:396-409 | so every office mirror has a one-file lookalike |
| Storage.Disk.CopyFile | backend/backup/backup_service.go:791-826 | the target holds what the source held, nothing else changes; without failures it succeeds exactly where a file can be written, not onto a directory or below a file |
| Storage.Disk.RemoveRecoveryTree | backend/backup/reconciliation.go:574-625 | success leaves nothing of the tree, a blank path is left alone, a path below a file is an error |
| Storage.Disk.DirectorySHA256 | backend/backup/offsite.go:351-400 | a digest that is returned is the digest of what is on disk, a regular file counting as a tree of one file |
| Storage.Disk.CopyDirectory | backend/backup/offsite.go:326-349 | a copy that succeeds has the same files, and changes nothing but its destination; without failures it succeeds unless a file stands above that |
| Storage.Disk.MakeReadOnlyTree | backend/backup/offsite.go:402-435 | success seals every path of the tree and leaves paths and contents alone |
| RecoveryPoint.VerifiedFrame | backend/backup/backup_service.go:615-693 | verification reads the manifest and the two artifacts it names, nothing else |
| RecoveryPoint.DamageIsDetected | backend/backup/backup_service.go:656-688 | changing either artifact, and not by a collision, makes the point fail verification |
| RecoveryId.IdOrderIsTimeOrder | backend/backup/backup_service.go:119-119 | the text order of identifiers is the order of time, both ways |
| RecoveryId.IdReads | backend/backup/backup_service.go:119-119 | the fields of an identifier read back as the date and the time it was made of |
| OfficeMirror.CreateOfficeMirror | backend/backup/office_mirror.go:41-411 | a mirror that is returned holds both artifacts and the five expected files, its digest is the one reported, and only its directory changed; without failures it is made wherever no path of the wrong kind stands at or above its files |
| Offsite.EnforceFilesystemRetention | backend/backup/offsite.go:274-324 | by the times in the metadata: a copy without a time, within it, or with the greatest name stays as it is whatever fails; without failures nothing is left of a copy past its time where a greater name stands beside it; everything else stays |
| Offsite.LatestIsGreatest | backend/backup/offsite.go:299-305 | the copy that is spared has the greatest name |
| Offsite.SurvivorsApart | backend/backup/offsite.go:302-320 | no path of an unexpired or of the last copy is touched |
| Offsite.CreateOffsiteCopy | backend/backup/offsite.go:37-272 | a verified copy is sealed, described by its metadata and equal to its mirror by digest; without failures it is made if and only if its place is free after the retention pass, no file stands above it and no directory where its metadata go, and expired copies are gone; a place still taken after the retention pass is not written to |
| Offsite.CopyIsKeptForItsTime | backend/backup/offsite.go:167-324 | create, then a later retention pass: up to the time of creation plus the retention time every path of the copy stays, whatever fails; after it an undisturbed pass leaves nothing of the copy where a greater name stands beside it |
| Backup.Create | backend/backup/backup_service.go:98-302 | a new point verifies and holds both stores as they were, its mirror is sound, and with its offsite copy it is already reconciled; without failures it succeeds wherever nothing of the wrong kind is in the way, and makes the offsite copy where its place is free; success or not, only the point, its mirror and the offsite root change; the manifest says when the point was made, how large it is, the sums of both stores, where mirror and copy are and until when the copy is kept |
| Backup.FreshPointNeedsNothing | backend/backup/reconciliation.go:125-240 | an undisturbed pass over a fresh point changes nothing |
| Backup.VerifiedIsOriginal | backend/backup/backup_service.go:615-693 | whatever happened to the disk, a point that still verifies under the core of its manifest holds what was saved |
| Backup.RestoreBringsBack | backend/backup/backup_service.go:98-613 | create, then anything, then a restore that succeeds: each selected store holds what it held at creation, the other is untouched |
| Reconciliation.Service.RebuildMirror | backend/backup/reconciliation.go:164-234 | a mirror that is not sound is rebuilt: it holds what the artifacts hold, has the digest that is recorded and, without failures, nothing left over from the old one; only the mirror trees change |
| Reconciliation.Service.ReplaceOffsite | backend/backup/reconciliation.go:297-379 | an offsite copy that is not sound is replaced by one with the mirror's digest, without failures wherever nothing of the wrong kind is in the way; only the offsite trees change |
| Reconciliation.Service.TreeIsHealthy | backend/backup/reconciliation.go:125-162 | the health test: true only for a sound tree, and without failures for every sound tree |
| Reconciliation.Service.VerifyUnlocked | backend/backup/backup_service.go:615-693 | the trust gate returns a manifest only for a point that verifies |
| Reconciliation.Service.ReconcileMirror | backend/backup/reconciliation.go:121-240 | the mirror stage and the one event it records |
| Reconciliation.Service.ReconcileOffsite | backend/backup/reconciliation.go:246-397 | the offsite stage and the event of a copy that is left alone |
| Reconciliation.Service.ClearOffsite | backend/backup/reconciliation.go:312-345 | the cleanup loop removes the recorded copy and whatever stands at the canonical place |
| Reconciliation.Service.ReconcileRecoveryPoint | backend/backup/reconciliation.go:39-485 | for every schedule of failures: an untrusted point is not touched; otherwise only mirrors, offsite trees and the manifest change, success means core, mirror, offsite copy and manifest are sound on disk, and the events say exactly how far the pass got |
| ReconciliationPass.RunningAgainChangesNothing | backend/backup/reconciliation.go:125-431 | run again undisturbed, the pass returns the identical manifest and leaves the disk as it is |
| ReconciliationPass.OnePassHeals | backend/backup/reconciliation.go:164-457 | one undisturbed pass makes the chain of every healable trusted point sound |
| ReconciliationPass.HealsIffHealable | backend/backup/reconciliation.go:121-485 | an undisturbed pass over a trusted point succeeds if and only if the point is healable: mirror sound or room for a new one once the recorded one is removed, copy sound or nothing of the wrong kind in the way of a new one |
| ReconciliationPass.OtherFilesStay | backend/backup/reconciliation.go:19-20 | success or error, every other file stays byte for byte, the live store included |
| ReconciliationPass.PersistedVerifies | backend/backup/reconciliation.go:403-457 | the manifest written back verifies and is read back as written |
| LatestPoint.List | backend/backup/backup_service.go:756-789 | exactly the entries that verify, in order; an error where a regular file stands at or above the backup root |
| LatestPoint.ListedSplits | backend/backup/backup_service.go:756-789 | the listing of two runs of entries is their listings, one after the other |
| LatestPoint.ListedOne | backend/backup/backup_service.go:756-789 | one entry is listed with its manifest iff it verifies |
| LatestPoint.ReconcileLatest | backend/backup/reconciliation.go:505-572 | one pass over the entry it picks, without failures the greatest that verifies; when it picks none, no manifest and no error, or an error exactly where the backup root cannot be listed |
| LatestPoint.PickedIsGreatest | backend/backup/reconciliation.go:553-564 | no entry that verifies has a greater id |
| LatestPoint.NothingPicked | backend/backup/reconciliation.go:566-571 | nothing is picked only if nothing verifies |
| LatestPoint.PickedIsListedLast | backend/backup/backup_api.go:261-265 | the point picked is the one the listing ends with |
| LatestPoint.PickedStaysLast | backend/backup/backup_api.go:251-265 | and still is after the pass |
| RecoveryEvents.Timeline.Record | backend/backup/recovery_events.go:54-132 | a complete event is stored with its fields trimmed, an incomplete one is not |
| RecoveryEvents.Timeline.List | backend/backup/recovery_events.go:155-192 | newest first, at most the limit, 100 for a limit out of range |
| RecoveryEvents.Reverse | backend/backup/recovery_events.go:179-185 | the two-index reversal in place |
| RecoveryStatus.GetRecoveryStatus | backend/backup/backup_api.go:261-466 | score = 20 x verified layers, which layers count, what is shown, the number of warnings, and the overall word: PROTECTED for 100, DEGRADED for less, FAILED for 0, UNKNOWN without a point |
| RecoveryStatus.ReconciliationLayer | backend/backup/backup_api.go:347-385 | the newest reconciliation event of the point decides layer 4 |
| RecoveryStatus.GuardianLayer | backend/backup/backup_api.go:405-441 | the newest guardian or supervisor event decides layer 5 |
| RecoveryStatus.ReconciliationDecides | backend/backup/backup_api.go:347-385 | the newest event of the point whose type or component mentions reconciliation counts exactly with the status success or verified, whatever came before it |
| RecoveryStatus.OthersAreNoReconciliation | backend/backup/backup_api.go:352-372 | events of other points and events that do not mention it are passed over |
| RecoveryStatus.GuardianDecides | backend/backup/backup_api.go:405-441 | the newest event whose type or component mentions guardian or supervisor counts exactly with the status success, healthy or verified |
| RecoveryStatus.OthersDoNotDecide | backend/backup/backup_api.go:405-441 | events that mention neither are passed over |
| RecoveryStatus.StatusesThatCount | backend/backup/backup_api.go:374-436 | of the statuses in lower case exactly these count |
| RecoveryStatus.CapitalsCount | backend/backup/backup_api.go:374-436 | capitals and white space around a status make no difference |
| RecoveryStatus.StepCounts | backend/backup/backup_api.go:368-370 | of the events a pass records, exactly the start, the write and the completion count for layer 4 |
| RecoveryStatus.SuccessMeansProtected | backend/backup/backup_api.go:286-466 | a pass that succeeds with an offsite root leaves the point PROTECTED with score 100 |
| RecoveryStatus.EarlyStopIsNotVerified | backend/backup/reconciliation.go:43-50 | a pass that stops before the manifest is written leaves layer 4 unverified, whatever was recorded before |
| RecoveryStatus.LateFailureStillCounts | backend/backup/reconciliation.go:433-457 | one that fails its last check counts as verified |
| RecoveryStatus.LatestPassProtects | backend/backup/backup_api.go:251-466 | after a successful pass over the picked point, the report is about that point and says PROTECTED |
| Restore.Service.Restore | backend/backup/backup_service.go:320-613 | the live stores and the answer, for every record of faults |
| Restore.SuccessRestores | backend/backup/backup_service.go:449-612 | success puts the backup into every selected store it has a tool for, touches nothing else, leaves no staging file and reports the sums of the point |
| Restore.SucceedsIff | backend/backup/backup_service.go:320-613 | a restore succeeds if and only if the request names a point, says RESTORE and names local, postgres or both, the point verifies, and no step that its target and tools ask for fails |
| Restore.UndisturbedRestores | backend/backup/backup_service.go:320-613 | so without failures every such request over a point that verifies succeeds where its script loads, and the live stores are the image and the loaded database |
| Restore.ErrorsTellTheTruth | backend/backup/backup_service.go:320-613 | and an error names a step that failed, with the reason it failed for |
| Restore.AllOrNothingIff | backend/backup/backup_service.go:357-593 | an error leaves both live stores as they were, whatever failed, if and only if the condition that can be evaluated beforehand holds: for every behaviour of dump and replay |
| Restore.AllOrNothingWhereDumpsReplay | backend/backup/backup_service.go:414-438 | where dumps always replay, that condition is that pg_dump is there whenever PostgreSQL would change, and a live SQLite file whenever it is checked |
| Restore.AllOrNothingUnheardIff | backend/backup/backup_service.go:507-537 | counting a psql that commits and reports a failure, it holds if and only if PostgreSQL would not change either |
| Restore.SilentSkip | backend/backup/backup_service.go:501-537 | without psql or an address a PostgreSQL restore succeeds and does nothing |
| Restore.PlainDumpLeavesThemApart | backend/backup/backup_service.go:414-438 | where the plain dump cannot be replayed, a failed activation leaves new PostgreSQL and old SQLite |

## Left out

- HTTP handlers, headers, CORS, JSON decoding of requests, role checks, schema creation and SQL drivers; SQLite file locking and lock timeouts.
- `normalize` and `validate` of the registration payload, and all columns but ids, keys, emails, creation times and the sync state.
- Access rights: modes are recorded, but do not keep an operation from succeeding; the only operation that looks at them sets them.
- The rclone branch of the offsite copy: Reconciliation never takes it, because it clears the offsite fields when no filesystem root is set.
- git, tar, gzip, pg_dump and psql internals: the archive, the guide and the mirror's own manifest are arbitrary texts, a dump is an opaque script.
- Symbolic links, special files, path cleaning (`filepath.Join` joins with a slash here), file owners; the texts of error messages and of failed offsite statuses.
- The order of the retention pass and the walk beyond what their results show; chmod inside removeRecoveryTree, since a success removes the tree anyway.
- Concurrent callers of `audit`, and Verify or List racing with Create: the code takes no lock there.
- AuditLog.Log.Audit: an append that fails or tears half-way and a read that fails are not modelled; a file that cannot be opened is.
- Trimming and lower-casing outside ASCII, except in `ModuleSlug`, where the lower-casing function is a parameter.
- Rounding of stored window starts to PostgreSQL's microseconds, and the choice among several matching policy rows.
- Health-check timing: it enters the supervisor as the bound on outstanding requests; process.exit is not modelled.
- Supervisor.Script.Restart: SIGKILL after five seconds and a `kill` that throws are not modelled; the premise is that signals are delivered.
- Argon2 parameters that make the Go library panic, and randomness.
- Payments, invoices, wallets and coupons, whose handlers do not match their schema; RBAC, whose inheritance can be cyclic; `source_integrity.go`, `backend/guardian`, the failover controller and the Angular front end, which would add only short branch tables.
- Restore.Service.Restore: the staging file, the pre-restore files and the live file are separate cells, so file modes and a pre-restore directory that outlives the run are not modelled, and the recorded events are left out.
- Backup.Create: the identifier and the size are parameters; the temporary absence of the manifest while the mirror is built is visible only to callers that race with it.
- ReconciliationPass.HealsIffHealable: asks that trimming white space changes neither the recorded nor the canonical offsite path; without that only the direction from healable to success is proved.
- Storage.Disk.CopyDirectory: asks for a destination where nothing is and that is apart from the source, which its one caller has just checked or been promised by the layout.
- Storage.Disk.CopyFile: a read or write that fails after part of the data is covered as a failure that leaves any content; a copy that reports success is complete.
- Reconciliation.Service.ReconcileRecoveryPoint: the layout premise asks that mirrors, offsite trees, manifest and artifacts of the point do not overlap, and JSON decoding undoes encoding for manifests.
