# A Dafny model of the atlas-db controller

atlas-db reconciles three custom resources. A `DatabaseServer` gets a pod, a service and a secret with a superuser DSN; a
`Database` gets a database and users on a Postgres instance and a secret with the DSN of its first admin; a `DatabaseSchema`
gets migrations. Three work queues with two workers each feed three sync functions, which read informer caches that may be
old and write through the API server.

The project models these sync functions request by request, the Postgres calls statement by statement, and the places where
passes meet: the API server, the instances, the driver cache, the shared status message and the objects in the informer cache.

## How it is laid out

| files | contents |
|---|---|
| `Resources`, `Text`, `Dsn` | the resources as values, value sources, and the DSN printer and parser over strings |
| `Postgres`, `PostgresFacts`, `PostgresInterleaving`, `PostgresPlugin` | an instance, `SyncDatabase` as a client that issues one statement a step, what it achieves under any faults, two calls interleaved, and the imperative plugin code proved against the client |
| `Api`, `DatabasePass`, `ServerPass`, `PassObjects`, `PassFacts`, `PassSecrets`, `PassPanics` | requests and answers, the two passes as request-by-request machines, and what holds on every path through them: what they write, which secret they make, when they panic |
| `Cluster`, `ClusterChildren`, `ClusterReports`, `ClusterCredentials`, `ClusterCredentialRuns` | any number of passes interleaved over one store with old caches and faults, and the invariants of all runs |
| `StatusWrites` | whole-object writes against versioned storage, mixed with edits by users |
| `Passes`, `Reconciler`, `Settling`, `ServerSettling`, `Provisioning`, `ServerlessPasses` | passes from start to end, the imperative controller code proved against the machines, a new Database and a new server settling, alone and together, and Databases without a server |
| `Waiting`, `ServerWaiting`, `ErrorReports` | whole passes that cannot go through: what is reported, whether the pass fails, and that nothing else changes |
| `SchemaPass`, `SchemaRuns`, `SchemaMigrations`, `SchemaMessages`, `SchemaReconciler` | the schema pass with the driver cache and the migration engine, its runs, the shared status message, and the imperative code among other passes |
| `WorkQueue`, `Notifications` | the work queue with its workers, and which events enqueue what |
| `Objects`, `OtherObjects` | the resources in memory, what DeepCopy shares, and what the controller writes in place |

What the environment is taken to do:

- A creation fails when the name is taken. A write of a resource takes effect only if its version is the stored one, and the
  version moves only when the content changes. Either may take effect although its reply is lost.
- A lister shows some past state of each object, or no such object. A live read may fail.
- A Postgres statement may be refused, may take effect although its reply is lost, and a query may lose rows at its end
  without an error, because the plugin does not look for one after the last row.
- Asking the migration engine for the version tells the truth or fails; a migration reaches its target, or fails and leaves
  any version, clean or dirty.
- The controller does not synchronize the driver cache and the status message that its schema passes share. Each single
  access to them is taken as atomic; what other passes do between two accesses is not restricted.
- The work queue is what client-go documents and its vendored code does: a key in process is not handed out again before it
  is done, and additions of a key that is held back already are merged.

## Where code and documentation part

The model follows the code. These places came out of the proofs:

- README.md:254 takes `infoblox@123` as a password. A DSN printed with it cannot be parsed, and the parser then indexes past
  the end of a split (`Dsn.ExamplePasswordIsUnparsable`).
- A lookup of a user's password that fails for another reason than a missing object leaves an empty password and the pass
  goes on. The account is made with the empty password, and the printer then puts the superuser's password into the secret
  (`PassSecrets.FailedLookupDiverges`).
- Superuser credentials that do not resolve end in a report of success, even while a Database of the same name owns the
  secret (`ClusterReports.OwnershipExcludesOtherSuccess`).
- Without a server, a pass that creates the database dereferences a nil server for its event
  (`ServerlessPasses.ServerlessPassPanicsIff`), and the admin DSN keeps the port of the override but loses its host
  (`Dsn.ServerlessKeepsPortLosesHost`).
- Of the two status writes of a new Database's first pass only the first takes effect, so it is stored as pending although
  everything is in place (`Settling.SettlesInTwoPasses`).
- Every pass of a server that cannot have a superuser credential writes two reports, of which only the one takes effect that
  is not stored already: its status alternates between pending and error, or, when an entry is missing, between error and
  success, and it never rests (`ServerWaiting.WaitingNeverRests`).
- The status message of schema passes goes through one variable, so that a pass can report another pass's message
  (`SchemaMessages.MessagesCanBeMixedUp`).
- Comments such as the one at atlas-db-controller/databaseResource.go:203 speak of requeueing after an error; a failed pass
  is only logged (`WorkQueue.NoPassWithoutEnqueue`).
  Events on the controller's own secrets enqueue nobody (`Notifications.DatabaseSecretsWakeNobody`).

## Model

| member | source | states |
|---|---|---|
| PostgresPlugin.SyncDatabase | pkg/server/postgres/postgres.go:147-181 | The imperative call, with its early exits and its loop over the users, has the outcome and leaves the instance of the statement machine, statement for statement, under any faults |
| PostgresPlugin.CheckUsers | pkg/server/postgres/postgres.go:190-251 | Reading all users once and then creating or altering each listed user is the machine's run from the listing on |
| PostgresPlugin.AlterUser | pkg/server/postgres/postgres.go:211-233 | An existing user gets the flags of its role and then its password, in two statements; an invalid role or a failed statement ends the call, and without an error the instance has both: createrole and createdb for an admin, neither for a reader |
| PostgresPlugin.CreateUser | pkg/server/postgres/postgres.go:253-268 | One statement with the password, and with createrole and createdb for an admin or neither for a reader; no statement at all for any other role |
| Postgres.Advance | pkg/server/postgres/postgres.go:147-237 | Every reply brings a call strictly closer to its end, so every call ends within a number of statements bounded by the list |
| PostgresFacts.DesiredIsLast | pkg/server/postgres/postgres.go:209-237 | The account asked for under a name is that of the last entry with that name |
| PostgresFacts.ValidMeansAdminOrRead | pkg/server/postgres/postgres.go:253-262 | A list has valid roles exactly when every role is "admin" or "read" |
| PostgresFacts.StepKeepsProgress | pkg/server/postgres/postgres.go:147-237 | Between any two statements, the database and the users done so far are as asked for |
| PostgresFacts.SuccessEstablishes | pkg/server/postgres/postgres.go:147-181 | A call that succeeds leaves the database, and each listed name with the password of its last entry and the rights of that entry's role: createrole and createdb for "admin", neither for "read", and there was no other role |
| PostgresFacts.Confluence | pkg/server/postgres/postgres.go:147-268 | Whatever the instance was and whatever failed in earlier calls, two successful calls for one job agree on everything the job names |
| PostgresFacts.CallFrame | pkg/server/postgres/postgres.go:174-237 | In every call, successful or not, users outside the list and users after the first invalid role are unchanged, and nothing is removed |
| PostgresFacts.MissingNeverGrows | pkg/server/postgres/postgres.go:155-237 | No fault makes the work left (the database and the distinct missing names) grow |
| PostgresFacts.FailsIffBlocked | pkg/server/postgres/postgres.go:155-237 | Without faults and with valid roles, a call fails exactly when a user cannot be created, and then strictly less work is left; it reports a creation exactly when the database was missing |
| PostgresFacts.Convergence | pkg/server/postgres/postgres.go:155-237 | Faultless calls fail at most as often as there were things missing at the start, even with names listed twice |
| PostgresFacts.EstablishedIsFixed | pkg/server/postgres/postgres.go:190-237 | With unique names, a call that finds everything in place leaves the instance as it is, whatever faults it meets |
| PostgresInterleaving.RunIsLocal | pkg/server/postgres/postgres.go:190-237 | A call depends only on the job's own names, although it reads the whole user table |
| PostgresInterleaving.Commutation | pkg/server/postgres/postgres.go:190-237 | Every statement-level interleaving of two calls with different names ends in the outcomes and the instance of either sequential order |
| Dsn.RoundTrip | pkg/server/postgres/postgres.go:45-68 | Parsing a printed DSN gives back host and port for all credentials without an at sign, all host-safe names and all 32-bit ports |
| Dsn.PrintedText | pkg/server/postgres/postgres.go:45-68 | The DSN text piece by piece, with the superuser's name and password where the given ones are empty, and the maintenance database where none is given |
| Dsn.TextNamesDatabase | pkg/server/postgres/postgres.go:57-67 | Texts printed alike but for the database are equal only for the same database |
| Dsn.RightIff | atlas-db-controller/databaseResource.go:227-233 | For all credentials: the parser gives the server's host and port exactly when the credentials have no at sign, or name that very host and port behind their first one |
| Dsn.UnparsableIff | atlas-db-controller/databaseResource.go:227-233 | The exact condition on user and password under which the parser fails on a printed DSN |
| Dsn.ExamplePasswordIsUnparsable | README.md:254 | The documented example password is one of the failing ones, for every user and server |
| Dsn.ServerlessKeepsPortLosesHost | atlas-db-controller/databaseResource.go:187-193 | For every parsable override and all credentials, the derived admin DSN has the 32-bit port of the override, and the host "." |
| Text.PrintThenParse | atlas-db-controller/databaseResource.go:230-231 | Printing a 32-bit integer, parsing it and narrowing it to 32 bits gives the same integer |
| Text.PrintThenAtoi | atlas-db-controller/databaseResource.go:230-231 | Printing and parsing any integer gives the nearest 64-bit integer |
| DatabasePass.EngineWords | pkg/server/server.go:30-38 | Exactly the words "postgres" and "mysql", in letters of either case, name an engine, and exactly the plugins with such an engine have one |
| Resources.LookupIff | pkg/apis/db/v1alpha1/source.go:30-60 | A lookup says "not found" exactly when the config map or secret referred to is missing, finds a text exactly when that object has it, and fails otherwise, so for an entry that is missing; a config map wins over a secret |
| Reconciler.Controller.SyncDatabase | atlas-db-controller/databaseResource.go:28-68 | The imperative pass ends as the Database machine does from its start: same requests in the same order, same store |
| Reconciler.Controller.SyncWithServer | atlas-db-controller/databaseResource.go:70-124 | Choosing the plugin and finding the DSN, with each status write and each early return, follow the machine |
| Reconciler.Controller.SyncWithDsn | atlas-db-controller/databaseResource.go:126-162 | Looking up passwords in a loop, synchronizing and making the secret follow the machine |
| Reconciler.Controller.SyncDatabaseSecret | atlas-db-controller/databaseResource.go:164-225 | The loop over all users with its reassigned variables amounts to one secret for the first admin, or a panic, or an error |
| Reconciler.Controller.SyncServer | atlas-db-controller/databaseServerResource.go:29-91 | The imperative pass ends as the server machine does from its start |
| Reconciler.Controller.SyncPodServer | atlas-db-controller/databaseServerResource.go:240-291 | Finding or making the pod leads the machine on, or to the error that the caller reports once more |
| Reconciler.Controller.SyncService | atlas-db-controller/databaseServerResource.go:176-238 | The same for the service |
| Reconciler.Controller.SyncServerSecret | atlas-db-controller/databaseServerResource.go:93-174 | The same for the secret; a credential that fails to resolve counts as done |
| DatabasePass.Next | atlas-db-controller/databaseResource.go:28-225 | Every answer leads a Database pass to a well-formed point: it asks for passwords only of sourced users and runs SQL only while the call wants some |
| PassFacts.WritesWhatItRead | atlas-db-controller/databaseResource.go:235-250 | On every path, every status write carries the version, key and uid of the object read, and its spec up to sourced passwords |
| PassFacts.ServerWritesWhatItRead | atlas-db-controller/databaseServerResource.go:293-308 | On every path, every status write of a server pass carries the version and the whole spec of the object read |
| PassSecrets.AtMostOneSecret | atlas-db-controller/databaseResource.go:181-213 | No path creates more than one secret, however many users and admins there are |
| PassSecrets.SecretIsForFirstAdmin | atlas-db-controller/databaseResource.go:181-200 | The secret's text is the DSN of the first admin in list order |
| PassSecrets.FoundSecretIsKept | atlas-db-controller/databaseResource.go:169-213 | A pass that finds a secret, whoever controls it, creates none |
| PassSecrets.PrintsOwnPasswordIff | pkg/server/postgres/postgres.go:45-68 | The DSN shows a user's own password exactly when it is not empty, or the superuser's is empty as well |
| PassSecrets.PrintedIsTheAccountsIff | atlas-db-controller/databaseResource.go:141-200 | On every path, the secret is for the first admin of the very job that the SQL statements are for, and it prints that account's password exactly when that is not empty or the superuser's is empty too |
| PassSecrets.FailedLookupDiverges | atlas-db-controller/databaseResource.go:127-139 | On every path after a failed lookup, the statements ask for an empty password, and a secret made for that user prints the superuser's |
| PassPanics.WholePassPanicsIff | atlas-db-controller/databaseResource.go:28-225 | A whole pass can be answered so that it panics exactly under a condition on the Database and the server it finds: an unset plugin, or Postgres with a DSN source without a secret, or with valid roles and no server or no admin |
| PassPanics.SoundNeverPanics | atlas-db-controller/databaseResource.go:28-225 | A Database on a server, with a secret as its DSN source and an admin in its user list, if it has one, never panics on any path on which the servers it is shown have a plugin |
| ServerlessPasses.ServerlessPassPanicsIff | atlas-db-controller/databaseResource.go:141-217 | A faultless pass without a server panics exactly when its call goes through, in terms of the instance before it, and the database was missing or the secret is missing and cannot be made |
| PassPanics.ChoosingPanicsIff | atlas-db-controller/databaseResource.go:70-124 | Choosing plugin and DSN dereferences nil exactly on an unset plugin, a DSN source without a secret, or no server at all |
| PassPanics.SecretPanicsIff | atlas-db-controller/databaseResource.go:181-217 | Making the secret panics exactly without an admin, or without a server on a DSN that cannot be parsed |
| Cluster.RunKeepsOwners | atlas-db-controller/databaseServerResource.go:93-291 | No run removes a pod, service or secret or changes its controller |
| ClusterChildren.SecretImpliesServiceImpliesPod | atlas-db-controller/databaseServerResource.go:49-90 | In every reachable world, a server's secret implies its service and, for the Postgres and the MySQL plugin, its pod, although every check reads an old cache |
| ClusterReports.ServerClaimsIff | atlas-db-controller/databaseServerResource.go:106-140 | A step leads a server pass to claim success without owning its secret exactly when a credential lookup fails while the server does not own it |
| ClusterReports.OwnershipExcludesOtherSuccess | atlas-db-controller/databaseResource.go:215-222 | In every run of a server and a Database of one name: once the server owns the secret, no pass of the Database has a success to write; once the Database owns it, a pass of the server has one exactly while it reports after giving up on a credential |
| ClusterCredentialRuns.SecretsTellTheTruth | atlas-db-controller/databaseResource.go:126-160 | In every run, when a Database's secret exists, Postgres holds the database and every user with password and rights as asked for, and the secret's text, piece by piece, opens that database on that server as the first admin, with the very password stored for it |
| ClusterCredentialRuns.RunKeepsInvariant | atlas-db-controller/databaseResource.go:28-225 | The inductive invariant behind it: every pass in flight is on track and every secret tells the truth |
| StatusWrites.AtMostOneLands | atlas-db-controller/databaseResource.go:235-250 | Of writes that carry the same version, at most one changes the stored object, whatever happens in between |
| StatusWrites.OneLandingPerPass | atlas-db-controller/databaseResource.go:235-250 | Two writes on the paths of one Database pass do not both take effect |
| StatusWrites.OneLandingPerServerPass | atlas-db-controller/databaseServerResource.go:293-308 | The same for two writes of one server pass |
| StatusWrites.OneLandingPerSchemaPass | atlas-db-controller/databaseSchemaResource.go:200-219 | The same for two writes of one schema pass |
| StatusWrites.PassLandsFirstDifference | atlas-db-controller/databaseResource.go:235-250 | On every path of an undisturbed Database pass, of all its writes the first that differs from the stored object takes effect, and the object stays as it is exactly when none differs |
| StatusWrites.FirstDifferenceLands | atlas-db-controller/databaseResource.go:243-249 | Undisturbed, the first write that differs from the stored object is the one that takes effect, and the object stays exactly when none differs |
| StatusWrites.EditsArePreserved | atlas-db-controller/databaseResource.go:235-249 | From a user's edit to the next, the stored spec is the edited one up to sourced passwords, although passes write back whole objects |
| Settling.SettlesInTwoPasses | atlas-db-controller/databaseResource.go:47-161 | A new Database in a healthy environment stores a pending status in its first pass and success in its second, with the whole store given after each |
| Settling.LaterPassesChangeNothing | atlas-db-controller/databaseResource.go:141-161 | Every later pass leaves the object, the secret and the instance as they are |
| ServerSettling.SettlesInOnePass | atlas-db-controller/databaseServerResource.go:49-90 | In a healthy environment, one pass of a new server makes its pod (Postgres and MySQL), its service and, under the entry "dsn", the text with the superuser's credentials, and stores success; the whole store is given |
| ServerSettling.NewServerHasItsChildren | atlas-db-controller/databaseServerResource.go:54-79 | After it, exactly the Postgres and MySQL servers have a pod of their own, every server a service of its own, and the secret holds the text in the format of the engine |
| ServerSettling.NextPassChangesNothing | atlas-db-controller/databaseServerResource.go:29-91 | The passes that follow leave the server, its children and its secret as they are |
| Provisioning.ServerServesDatabase | atlas-db-controller/databaseResource.go:110-124 | After the one pass of a new server, a new Database that names it is ready: the DSN that the server's secret holds is the one that the Database's pass looks up |
| Provisioning.FromNothingToLogin | atlas-db-controller/databaseResource.go:28-162 | One pass of a new server and any two or more passes of a new Database on it end with both reporting success, the database and all users on the instance that the server's DSN opens, and the first admin's DSN in the Database's secret |
| Waiting.LookupStopsIffMissing | atlas-db-controller/databaseResource.go:128-138 | One lookup of a user's password stops the pass exactly when the object referred to is missing; an object without the entry leads on with an empty password |
| Waiting.GoneDatabase | atlas-db-controller/databaseResource.go:39-44 | A pass of a Database that is gone changes nothing and succeeds |
| Waiting.WaitsForServer | atlas-db-controller/databaseResource.go:55-67 | A pass whose server is missing fails, with that report and nothing else changed; of a new object only the first status is stored |
| Waiting.WaitsForDsn | atlas-db-controller/databaseResource.go:91-121 | The same when the object with the superuser's DSN is missing, the one the spec names or else the server's own secret |
| Waiting.WaitsForPassword | atlas-db-controller/databaseResource.go:127-139 | The same when the object with a user's password is missing: the first such user is named in the report, no statement is run, and what was found for users before it is stored |
| Waiting.GoesOnToStatements | atlas-db-controller/databaseResource.go:127-141 | When none is missing, the pass comes to its statements with every password looked up, or empty where an entry is missing |
| ServerWaiting.NewServerWaits | atlas-db-controller/databaseServerResource.go:108-140 | A new server that cannot have a credential gets its pod and its service but no secret, and one of two reports |
| ServerWaiting.WaitingServerFlips | atlas-db-controller/databaseServerResource.go:81-87 | Of the two reports that each pass of such a server writes, exactly the one takes effect that is not there |
| ServerWaiting.WaitingNeverRests | atlas-db-controller/databaseServerResource.go:81-91 | After any number of passes, as many new versions are stored and the status has gone back and forth: between pending and error for a missing object, between error and success for a missing entry |
| ErrorReports.NoServerOrTypeEnds | atlas-db-controller/databaseResource.go:70-76 | A Database with neither server nor type is left with that error; the pass does not fail |
| ErrorReports.UnknownTypeEnds | atlas-db-controller/databaseResource.go:78-89 | So is one whose type is neither of the two words |
| ErrorReports.NoDsnEntryEnds | atlas-db-controller/databaseResource.go:110-121 | So is one whose server's secret has no DSN |
| ErrorReports.FailedCallOrForeignSecretEnds | atlas-db-controller/databaseResource.go:141-158 | Statements that fail are reported, the pass fails, and the instance stays as they left it; a secret of somebody else is kept and reported, but that pass does not fail |
| ErrorReports.ForeignChildEnds | atlas-db-controller/databaseServerResource.go:54-87 | A server whose pod, service or secret is somebody else's adopts nothing: the pass reports the first such child, fails, and changes nothing but the status |
| Passes.SyncingIsARun | atlas-db-controller/databaseResource.go:141-147 | The SQL requests of a pass amount to one call on the instance that its DSN opens |
| SchemaReconciler.Controller.SyncSchema | atlas-db-controller/databaseSchemaResource.go:35-100 | The imperative pass ends as the schema machine does from its start, with the same driver cache, shared message and writes, whatever other passes do to cache and message before each request |
| SchemaReconciler.Controller.SyncWithDsn | atlas-db-controller/databaseSchemaResource.go:101-140 | The source and the driver are found as the machine finds them |
| SchemaReconciler.Controller.FindDriver | atlas-db-controller/databaseSchemaResource.go:127-140 | A driver that is cached when it is looked up is returned; otherwise the cache, as others leave it, gets the newly opened one under the schema's key and nothing on failure |
| SchemaReconciler.Controller.AfterVersion | atlas-db-controller/databaseSchemaResource.go:150-176 | Eviction, the pending note and the dirty stop follow the machine |
| SchemaReconciler.Controller.MigrateFrom | atlas-db-controller/databaseSchemaResource.go:178-197 | Reporting the reached version or migrating follows the machine |
| SchemaReconciler.PassTouchesOwnDriver | atlas-db-controller/databaseSchemaResource.go:127-154 | By itself, a whole pass leaves every cached driver alone but its own |
| SchemaReconciler.RunsStepLikeTheController | atlas-db-controller/databaseSchemaResource.go:127-197 | A step of the interleaved runs does to cache, message and pass exactly what the request does to the controller's own variables |
| SchemaReconciler.WritesWhatItRead | atlas-db-controller/databaseSchemaResource.go:200-219 | A pass sends at most two writes, each the object it read with nothing but the status changed |
| SchemaReconciler.MissingObjectIsReported | atlas-db-controller/databaseSchemaResource.go:62-125 | A schema whose database, DSN or source cannot be had gets the one report for that case, and no driver is touched |
| SchemaRuns.DriverKeysAreInjective | atlas-db-controller/databaseSchemaResource.go:129 | Distinct schemas have distinct cache keys, dots in their names or not |
| SchemaRuns.StepTouchesOwnDriver | atlas-db-controller/databaseSchemaResource.go:129-154 | No step of a pass replaces or evicts the driver of another schema |
| SchemaRuns.StepChangesCacheBy | atlas-db-controller/databaseSchemaResource.go:129-154 | A step changes the cache exactly by filling in a newly opened driver under namespace, dot and name, or by evicting that key after a broken connection |
| SchemaRuns.OpensMinusEvictions | atlas-db-controller/databaseSchemaResource.go:127-154 | In every run, opens minus evictions of a key is one if it is cached and zero if not |
| SchemaRuns.CachedDriverIsTheRightOne | atlas-db-controller/databaseSchemaResource.go:127-150 | A pass that asks for the version or migrates uses a driver for the DSN that a fresh open would use |
| SchemaMigrations.NeverMigratesDirty | atlas-db-controller/databaseSchemaResource.go:150-186 | With one schema per database, no run migrates a dirty database |
| SchemaMigrations.DirtyStaysUntilRepair | atlas-db-controller/databaseSchemaResource.go:170-186 | A migration that leaves a database dirty is the last until somebody repairs it |
| SchemaMigrations.SuccessMeansReached | atlas-db-controller/databaseSchemaResource.go:178-197 | Without outside change, success is only reported at the very version requested, clean, or with version 0 and nothing applied; a negative version counts as its two's complement; at most one migration succeeds |
| SchemaMigrations.MigratesAsRequested | atlas-db-controller/databaseSchemaResource.go:178-190 | In every run, every migration is of the schema's own database and to the version requested, which is where it leaves the database when it succeeds |
| SchemaMessages.OwnMessageIff | atlas-db-controller/controller.go:69 | In every run, a pass about to write the shared message has stored one of its own, and the status carries that one exactly when the last message stored by others since, if any, is the same |
| SchemaMessages.AloneTheMessageIsOwn | atlas-db-controller/databaseSchemaResource.go:134-190 | While no other pass takes a step, the status carries the pass's own message |
| SchemaMessages.MessagesCanBeMixedUp | atlas-db-controller/databaseSchemaResource.go:170-175 | From every initial world with two databases dirty at different versions there is a run in which the status of one names the version of the other |
| WorkQueue.ProcessNextWorkItem | atlas-db-controller/controller.go:247-283 | One turn takes the first item; a failed pass is neither forgotten nor added again, and an item that is no text is forgotten |
| WorkQueue.RunIsExclusive | atlas-db-controller/controller.go:247-252 | In every run, no key is in the hands of two workers at once |
| WorkQueue.TwoAtOnce | atlas-db-controller/main.go:92 | In every run, at most two keys are in process at once, and while fewer are, a waiting one can be taken |
| WorkQueue.Conservation | atlas-db-controller/controller.go:329-337 | Every enqueueing is held back, waiting, merged or has had its pass, with exact counts |
| WorkQueue.NoLostWakeup | atlas-db-controller/controller.go:329-337 | A key enqueued after its last pass started still wants a pass |
| WorkQueue.NoPassWithoutEnqueue | atlas-db-controller/controller.go:267-280 | A key that wants no pass gets none until it is enqueued again, whether or not its last pass failed |
| WorkQueue.LimiterCountsSinceSuccess | atlas-db-controller/controller.go:267-273 | The limiter's count is the number of enqueueings since the last successful pass |
| Notifications.Handler.HandleObject | atlas-db-controller/controller.go:341-383 | An event enqueues the named owner in the queue of its kind when the lister knows it, and otherwise changes neither queue |
| Notifications.SplitsBackIff | atlas-db-controller/controller.go:329-337 | Splitting the enqueued text gives back namespace and name exactly when neither holds a slash |
| Notifications.QueueKeysAreInjective | atlas-db-controller/controller.go:329-337 | Different objects are enqueued under different texts |
| Notifications.DatabaseSecretsWakeNobody | atlas-db-controller/databaseResource.go:196-201 | The secret of a Database pass is controlled by the Database, yet an event on it enqueues nobody |
| Notifications.ServerChildrenWakeTheirServer | atlas-db-controller/databaseServerResource.go:147-152 | Pods and services of a server pass enqueue their own server, and its secrets nobody |
| Objects.ValueSource.DeepCopyInto | pkg/apis/db/v1alpha1/zz_generated.deepcopy.go:466-487 | The copy is equal and its selectors are new |
| Objects.CopyUser | pkg/apis/db/v1alpha1/zz_generated.deepcopy.go:393-405 | The copy of a user is equal and its source is new |
| Objects.CopySpec | pkg/apis/db/v1alpha1/zz_generated.deepcopy.go:345-364 | The copy is equal, an absent user list stays absent, and the array and all sources are new |
| Objects.DatabaseObject.DeepCopy | pkg/apis/db/v1alpha1/zz_generated.deepcopy.go:29-47 | The copy is equal and shares nothing mutable with the original |
| Objects.ValuesShowAll | pkg/apis/db/v1alpha1/database.go:12-41 | What "equal" means for a copy: every field of the two objects, down to the selectors of each user's source |
| Objects.DatabaseObject.WithStatus | atlas-db-controller/databaseResource.go:235-243 | A status update sends the object with a new status and modifies nothing in the cache |
| Objects.DatabaseObject.StorePassword | atlas-db-controller/databaseResource.go:137 | A looked-up password changes the cached object itself, in that one entry |
| Objects.ObjMeta | atlas-db-controller/controller.go:309-327 | A child shares the label map of its owner, and its label is written into that shared map |
| Objects.PodMeta | pkg/server/postgres/postgres.go:73-84 | The labels of a pod go into the server's own label map as well |
| OtherObjects.CopyPlugins | pkg/apis/db/v1alpha1/zz_generated.deepcopy.go:244-274 | The plugin settings are equal and every plugin object is new |
| OtherObjects.ActiveByPointers | pkg/server/server.go:14-28 | The plugin that is taken is the first whose pointer is set: RDS, then MySQL, then Postgres |
| OtherObjects.PluginValuesShowAll | pkg/apis/db/v1alpha1/server.go:36-70 | Equal plugin values are equal settings of the same plugins |
| OtherObjects.ServerObject.DeepCopy | pkg/apis/db/v1alpha1/zz_generated.deepcopy.go:183-190 | The copy is equal, volumes and plugin settings included, and shares nothing mutable with the original |
| OtherObjects.VolumeValuesShowAll | pkg/apis/db/v1alpha1/server.go:22-34 | Equal volume lists have the same names, backed by the same, in the same order |
| OtherObjects.SchemaObject.DeepCopy | pkg/apis/db/v1alpha1/zz_generated.deepcopy.go:90-97 | The copy is equal and shares exactly the two source pointers of the spec and what they point to |
| OtherObjects.SchemaValuesShowAll | pkg/apis/db/v1alpha1/schema.go:12-34 | What "equal" means for a copy of a schema: every field of the two objects |
| OtherObjects.SchemaObject.WithStatus | atlas-db-controller/databaseSchemaResource.go:200-212 | In spite of the sharing, a status update modifies nothing in the cache |

## Left out

- Reconciler.Controller.SyncDatabase: nobody else changes the store during the pass, which works on values, so that writes into the cached object, which `Objects` models on the heap, are not seen by other readers; passes among others are in `Cluster`.
- Reconciler.Controller.SyncServer: nobody else changes the store during the pass either.
- Reconciler.Controller.SyncWithServer: a Database with the MySQL plugin leaves the model before its DSN is looked up, because that plugin does no more than create the database.
- WorkQueue.ProcessNextWorkItem: a queue that shuts down while other workers are busy.
- ClusterCredentialRuns.SecretsTellTheTruth: assumes Databases on servers without DSN overrides, names and user names apart, and sources that resolve to fixed texts, non-empty ones for passwords of users; without the last, `PassSecrets.FailedLookupDiverges` is a counterexample.
- Dsn.RoundTrip: names are taken without the characters that Kubernetes excludes from them anyway.
- OtherObjects.ServerObject.DeepCopy: what backs a volume is one opaque object, because its fields and its copy method are the Kubernetes library's.
- RDS: SyncCloud does nothing.
- DeleteDatabase and deleteUser: not called by anything.
- SQL text, quoting, identifier limits and roles without login; statements are a datatype.
- What an empty password means to Postgres; the model only says which text is sent.
- Status messages are constructors rather than formatted texts; events and logging are left out.
- Pod images, ports, mounts and DiffPod: one-branch facts.
- The difference between a creation that fails because the name is taken and one that fails otherwise, which no pass looks at.
- Update events whose old and new versions are equal, which are dropped before handleObject.
- Generated clients, informers, signals, flags and `main`.
- Deletions of resources and children by others: runs of the cluster have none.
