# Verified model of the Habitat node

Habitat keeps the state of a node in one JSON document. Every change is a transition that checks the
document and makes a JSON Patch for it; a batch of transitions goes through as a whole or not at all.
A controller turns user calls into proposals to that database and calls to process drivers. Beside it
stand a reverse proxy that picks a rule for each request, and a store of private records whose
listing and reading are guarded by permission rows.

This project models that logic in Dafny and proves what it is for. `dafny verify dfyconfig.toml`
checks all of it.

## How the model is laid out

| file | contents |
|---|---|
| `Options`, `Text`, `Semver` | options, text order, splitting and counting, version order |
| `Json`, `Pointers`, `Merge` | JSON trees, pointers (RFC 6901), patches (sections 4.1 to 4.3 of RFC 6902), the object diff, which ids the node's patches can carry, and what a diff does to a document it was not computed from |
| `State`, `Schema` | the node record, its JSON form both ways, validity of a document at each schema version |
| `Migrations`, `MigrationRoundTrip` | range search, migration runs up and down, the nine node migrations |
| `SchemaLookup`, `SchemaFiles`, `SchemaMeaning` | schema lookup, the eight schema migration files and what they build, and that the schemas accept exactly the valid documents |
| `Documents`, `Transitions`, `Refinement`, `StepTheorems` | the nine transitions on documents and on records, and that the two agree |
| `OldDocuments`, `DocumentMigration` | migrating documents of any origin |
| `Batch`, `Invariants`, `Acceptance`, `Matchers`, `Retries` | batches, the file database, what every run keeps, when transitions are refused, when rule matchers stay distinct, and when a package can be installed again |
| `Processes`, `Protocol`, `EarlyStops` | drivers, interleaved calls over the two stores, and why stops need their guard |
| `Controller`, `AppRules`, `LoneCalls` | the controller's calls one at a time, the proxy rules a start adds, and that a lone call of the protocol is the controller's |
| `ReverseProxy` | rule sets and rule choice |
| `Permissions`, `GrantHistory`, `Privi` | permission rows and decisions, tables over histories of grants, record listing and paging, the store joining them |
| `Examples` | inputs at which the code does not do what it is meant to do |

A Go map that may be nil is an option of a map. Errors are `None` or a Boolean result. Uuids, the
clock, whether a write succeeds, what drivers and package managers answer, and map iteration orders
are parameters. Versions keep their text; they are compared as three numbers.

## What is proved, hardest first

- On any valid document, every transition other than a migration goes through exactly when the typed
  record accepts it, and the patched document then decodes to the typed update; other members of the
  document stay, and a document the node wrote becomes exactly the written form of the updated record
  (`PatchRefinesUpdate`, `OtherMembersKept`, `WrittenStep`).
- A transition is refused only for a reason: told by what it would leave, it is accepted exactly when its
  id is free and the result keeps the schema, the uniqueness properties and the references
  (`UserExactly`, `InstallationExactly`, `ProcessExactly`, `RuleExactly`).
- A migration of any valid document goes through exactly when the record accepts it and the document
  is portable, a condition read off the document (`MigrateDocument`).
- Uniqueness of user names, packages and processes, keys equal to ids, and present owners hold in
  every state of a database that was made new, and of one opened on a file that has them, as long as
  every state an initialization puts in has them (`NewDatabaseHasInv`, `DatabaseKeepsInv`); process references stay good exactly when no app with a
  process is uninstalled (`RefsKeptExactly`, `RunKeepsRefs`); matchers stay distinct exactly when no
  installation brings clashing rules (`MatchersKeptExactly`, `RunMatchersExactly`).
- In every interleaving of concurrent start, stop, install, uninstall, add-user and migrate calls in
  which no stop calls a tracking driver while a start of the same id has it still to call, what a driver
  runs is recorded in the node state (`RunningAlwaysRecorded`). Where that guard fails and the start's
  record is there or would be accepted, the two stores can come apart (`StopSafeExactly`). Run alone,
  the calls are those of the controller (`LoneStart`, `LoneStop`).
- The eight schema files build the schema of each version, their down patches undo them, and each schema
  accepts exactly the documents the model calls valid (`FilesBothWays`, `SchemaForVersion`,
  `SchemaMeans`, `ValidateStateReads`).
- The range search with its flag is exact in both directions for every chain; migration paths compose;
  a round trip is the identity exactly on settled states (`GetNeededMigrations`, `RefusedExactly`,
  `PathsCompose`, `RoundTripExactly`).
- A rule matches exactly the paths whose first segments are its own; the rule with most slashes has the
  longest matching prefix, and is the first such rule of the
  iteration order; all orders choose alike exactly when no two rules share that matcher (`MatchesExactly`,
  `SelectRule`, `ChoiceIsUnique`).
- A permission decision is that of the one longest row; grants and revocations change exactly the
  paths they should; a grant is refused after a history exactly when its triple was
  removed; a listed record with a record key is got by it; paging is complete (`DecisionIsLongest`,
  `GrantFrame`, `RefusedAfterExactly`, `ListedIsGot`, `PagingIsComplete`).

## Where the code differs from what it says or is meant to do

- A start whose driver refuses reports an error only when the record was not written, because then the
  rollback is refused (internal/node/controller/controller.go:77-84): `RefusedStartReported`. A proxy
  rule that is refused is never reported (94-95).
- A lost write keeps the old state but reports the new one, so `startProcess` goes on
  (internal/node/state/db.go:110-122): a new id of a tracking driver runs unrecorded exactly when its
  record was accepted, the driver started it and that write failed: `LostWriteRunsUnrecorded`. When
  the first write of a new database fails, the caller gets neither a database nor an error
  (db.go:88-90): `NewHabitatDB`. `StartsGoWrong` is an input for the lost write and for the unreported
  refusal.
- The driver built for web apps is the no-op driver, which answers the type noop, so a web app finds no
  driver: its record is written and taken back and no error is reported, although the driver is meant
  to let the node mark such processes as started (internal/web/driver.go:8-13):
  `NodeStartsExactly`, `WebAppNeverStarts`, `WebAppStuck`.
- A stop whose driver call overtakes the driver call of a start of the same id leaves the id running and
  unrecorded, when the driver tracks what it runs and the start's record is there or would be accepted:
  `OvertakingBreaks`, and `EarlyStopUnrecords` for a run from a fresh node. Exactly then is a stop
  unsafe: `StopSafeExactly`; once the record is there tracking alone decides: `StopAfterRecordExactly`.
- A package that fails to install leaves its entry in state installing, and that entry refuses any
  retry until it is uninstalled: `PackageStaysTaken`; after uninstalling, the same installation goes
  through again: `RetryNeedsUninstall`.
- The migration patch is computed between two records but applied to the document. A valid document
  below v0.0.4 that holds an installation or has no rule member cannot reach v0.0.4; one that spells
  out an empty DID cannot go below v0.0.5; one with a process cannot move at all: `MigrateDocument`,
  with `OldInstallationStuck`, `EmptyDidStuck` and `OldProcessStuck` as inputs.
- Version v0.0.9 has a data migration but no schema, so migrating to it is refused: `MigrationAccepted`.
- Start-installation checks neither ids nor matchers of its rules. Matchers stay distinct exactly when
  the last rule of each id has a matcher no other such rule and no present rule left in place has
  (`MatchersKeptExactly`); `ClashingInstallation` is an accepted installation after which the choice
  depends on map order.
- A removed permission row keeps its place in the unique index
  (internal/permissions/sqlite_store.go:16-22, 103-105), so the same grant can never be made again,
  whatever grants and revocations follow: `RefusedAfterExactly` says when, `RefusedForGood` that it lasts.
- Plain grants are compared with `=` in listings, so a caller who is not the owner never sees a member
  of the collection listed, whatever was granted: `MembersNeverListed`.
- A record stored under an empty record key has a key ending in a dot, while getting it is decided on the
  bare collection, so it can be listed to a caller who can get it by no collection and key: `ListedIsGot`
  says exactly when, `ListedNotGot` is an input.
- Collection and record key are joined with a dot that either may contain, so different pairs can name
  the same row, exactly when one collection continues the other by segments the other key starts with:
  `JoinedKeysExactly`.

## Model

| member | source | states |
|---|---|---|
| `Json.MemberPointer` | internal/node/state/transitions.go:156-160 | the text "/member/id" addresses the member id of member exactly when id has no `/` and no `~0` or `~1` |
| `Json.MemberFieldPointer` | internal/node/state/transitions.go:330-334 | the text "/member/id/field" addresses that field of that entry exactly when id has no `/` and no `~0` or `~1` |
| `Json.PointerRoundTrip` | internal/node/state/migrations.go:236-239 | a pointer formatted with escapes parses back to the same tokens, whatever they contain |
| `Json.ApplyConcat` | internal/node/state/json.go:59-68 | applying two patches joined is applying one and then the other, failing when either fails |
| `Json.ArrayOperations` | internal/node/state/json.go:59-68 | array operations at an index shift or change exactly the items they should, and removing undoes adding |
| `Pointers.PatchAddresses` | internal/node/state/transitions.go:156-569 | every pointer of a transition's patch addresses the entry it is meant for exactly when the ids are plain |
| `Json.DiffApplies` | internal/node/state/migrations.go:236-241 | the diff of two documents, applied to the first, gives the second |
| `Merge.MergeApplies` | internal/node/state/json.go:59-68 | a diff applied to a third document succeeds when every changed or removed member is there, and changes exactly what differs |
| `State.CodecRoundTrip` | internal/node/state/state.go:111-122 | writing a record and reading it back is the identity, nil maps and omitted empty fields included |
| `State.AppReadByTag` | internal/app/app.go:17-24 | every field of an installation is read from the member its tag names, and reading fails only when one of those has another type |
| `State.ReadByTag` | internal/node/state/state.go:38-42 | the same for users, processes and rules |
| `Schema.ValidEncoded` | internal/node/state/schema.go:61-81 | the written form of a record validates exactly when its version has a schema and every entry fits it |
| `Semver.ParseExactly` | internal/node/state/migrations.go:62 | a text is a version exactly when it is its three numbers written out |
| `Semver.CompareExactly` | internal/node/state/migrations.go:164 | the first number that differs decides, malformed versions come first |
| `SchemaLookup.GetSchemaVersion` | internal/node/state/migrations.go:40-68 | the loop computes the lookup specification |
| `SchemaLookup.LookupFinds` | internal/node/state/migrations.go:46-65 | on an ascending list the lookup of a listed version is the fold of the patches through it; the early exit never rejects it |
| `SchemaLookup.LookupMisses` | internal/node/state/migrations.go:60-67 | a version no migration ends at is an error |
| `SchemaFiles.FilesBothWays` | internal/node/state/migrations/0000000004-pds.json:1-54 | each of the eight schema files leads from the schema of its old version to that of its new one, and its down patch leads back |
| `SchemaMeaning.SchemaFilesRoundTrip` | internal/node/state/migrations_test.go:197-290 | all files up lead from the empty object to schema.json, and all of them down lead back |
| `SchemaMeaning.SchemaForVersion` | internal/node/state/schema.go:42-59 | folding the eight files gives a schema for exactly v0.0.1 to v0.0.8, and which one |
| `SchemaMeaning.SchemaMeans` | internal/node/state/schema/schema.json:1-93 | the schema of each version accepts exactly the documents that fit it |
| `SchemaMeaning.ValidateStateReads` | internal/node/state/schema.go:61-81 | a document is valid exactly when it decodes, its version has a schema among the files, and that schema accepts it |
| `Migrations.GetNeededMigrations` | internal/node/state/migrations.go:163-203 | for every chain, the answer is the contiguous range between the two versions, reversed going down, or an error |
| `Migrations.Scan` | internal/node/state/migrations.go:168-184 | the flag-driven loop stops at the second of the two versions it meets, with the migrations after the first |
| `Migrations.ReverseMigrations` | internal/node/state/migrations.go:194-200 | the reversing loop reverses |
| `Migrations.RefusedExactly` | internal/node/state/migrations.go:163-191 | the range is refused exactly when the versions compare equal, one is off the chain, or the target is the bottom version |
| `Migrations.NeededLinks` | internal/node/state/migrations.go:160-203 | the range leads link by link from the current version to the target, up or down |
| `Migrations.ComparePlaces` | internal/node/state/migrations.go:158-162 | on a chain, version order is place order, so a version has one place |
| `Migrations.GetMigrationPatch` | internal/node/state/migrations.go:205-242 | the patch is the diff to the migrated record with the target version |
| `Migrations.RunNeeded` | internal/node/state/migrations.go:214-232 | the loop with its early break runs all needed migrations, in the right direction |
| `Migrations.BreakIsLast` | internal/node/state/migrations.go:229-231 | the break is met at the last migration going up and never going down |
| `Migrations.PathsCompose` | internal/node/state/migrations.go:205-242 | stopping over at a version strictly between gives the same state, in both directions |
| `MigrationRoundTrip.NodeChain` | internal/node/state/migrations.go:280-453 | the node's migrations form a chain from v0.0.0 to v0.0.9 |
| `MigrationRoundTrip.RoundTripExactly` | internal/node/state/migrations.go:297-453 | migrating up and back is the identity exactly on states whose later fields hold their `down` value |
| `MigrationRoundTrip.NormalStates` | internal/node/state/migrations.go:297-453 | both directions keep states normal, normal states come back unchanged, and down-up-down is down |
| `MigrationRoundTrip.MigrationCarries` | internal/node/state/migrations.go:297-453 | a migration keeps every entry under its key and changes only the fields that exist on one side; what becomes of the test field is given |
| `Documents.ApplyEntryOp` | internal/node/state/json.go:59-68 | an operation at "/member/id" succeeds exactly when the member is an object and, unless it adds, the entry exists; only that entry changes |
| `Transitions.CollectRuleOps` | internal/node/state/transitions.go:211-228 | the loop makes one add operation per new rule, in order |
| `StepTheorems.InitializeStep` | internal/node/state/transitions.go:30-64 | initialization replaces the whole document by the filled record, when that validates |
| `Refinement.AddUserStep` | internal/node/state/transitions.go:150-182 | on any valid document adding a user is the typed map update, accepted exactly when id and name are new and the DID fits the version |
| `Refinement.StartInstallationStep` | internal/node/state/transitions.go:193-286 | starting an installation adds the entry and all rules, accepted exactly when the checks pass and everything fits the schema |
| `Refinement.FinishStep` | internal/node/state/transitions.go:324-352 | finishing changes only the entry's state |
| `Refinement.UninstallStep` | internal/node/state/transitions.go:370-388 | uninstalling removes only that entry |
| `Refinement.StartProcessStep` | internal/node/state/transitions.go:420-484 | starting a process adds only its record |
| `Refinement.StopProcessStep` | internal/node/state/transitions.go:502-533 | stopping a process removes only its record |
| `Refinement.AddRuleStep` | internal/node/state/transitions.go:560-588 | adding a rule adds only that rule |
| `StepTheorems.PatchRefinesUpdate` | internal/node/state/json.go:22-36 | for all transitions but migrations: the patched document decodes to the typed update, and goes through exactly when the record accepts it |
| `StepTheorems.OtherMembersKept` | internal/node/state/json.go:33-36 | every root member the transition is not about stays as it was, known or unknown |
| `StepTheorems.WrittenStep` | internal/node/state/json.go:22-36 | on a document the node wrote, each transition, migrations included, leaves the written form of the updated record |
| `StepTheorems.MigrationAccepted` | internal/node/state/transitions.go:99-126 | a valid record is migrated exactly when the target is another version with a schema and its processes, installations and drivers exist there |
| `Acceptance.InitializationExactly` | internal/node/state/transitions.go:30-64 | initialization is accepted exactly when the filled state validates, and leaves every text and entry as given |
| `Acceptance.UserExactly` | internal/node/state/transitions.go:150-182 | a user is refused only when the id is taken, the result does not fit the schema or a name would occur twice; the result is given outright |
| `Acceptance.InstallationExactly` | internal/node/state/transitions.go:193-286 | an installation is refused only when the id is taken, the result does not fit the schema, a package would occur twice or its owner is missing; the result is given outright |
| `Acceptance.FinishExactly` | internal/node/state/transitions.go:324-352 | finishing is accepted exactly for an entry in state installing; the result is given outright |
| `Acceptance.UninstallExactly` | internal/node/state/transitions.go:370-388 | uninstalling is accepted exactly for a present entry; the result is given outright |
| `Acceptance.ProcessExactly` | internal/node/state/transitions.go:420-484 | a process is refused only when the id is taken, the result does not fit the schema, an app would have two processes, its owner is missing or its app is not installed; the result is given outright |
| `Acceptance.StopExactly` | internal/node/state/transitions.go:502-533 | a stop is accepted exactly for a recorded process; the result is given outright |
| `Acceptance.RuleExactly` | internal/node/state/transitions.go:560-588 | a rule is refused only when the id is taken, the result does not fit the schema or a matcher would occur twice; the result is given outright |
| `OldDocuments.OldDocumentStuck` | internal/node/state/transitions.go:80-97 | below v0.0.4 a document with an installation, or without the rule member, fails on every migration to v0.0.4 or later |
| `DocumentMigration.MigrateDocument` | internal/node/state/transitions.go:80-126 | on any valid document a migration goes through exactly when the record accepts it and the document is portable, and then decodes to the migrated record |
| `DocumentMigration.MigrationKeepsOthers` | internal/node/state/json.go:33-36 | a migration leaves every other root member of the document, known or unknown, as it was |
| `Examples.OldInstallationStuck` | internal/node/state/transitions.go:80-97 | a valid v0.0.3 document with an installation that cannot be migrated to v0.0.8 |
| `Examples.EmptyDidStuck` | internal/node/state/transitions.go:80-126 | a valid v0.0.5 document with an empty DID whose record may go to v0.0.4 but which may not |
| `Examples.OldProcessStuck` | internal/node/state/transitions.go:80-126 | a valid v0.0.7 document with a process that can be migrated nowhere |
| `Batch.ProposeInOrder` | internal/node/state/json.go:17-47 | a batch gives what its transitions give one after the other, or nothing; the log has one entry per transition and replays to the result |
| `Batch.ProposeRound` | internal/node/state/json.go:23-36 | one round is one proposal, and its patch leads from the old document to the new |
| `Batch.ReplayConcat` | internal/node/state/json.go:38-43 | replaying a joined log is replaying its parts |
| `Batch.ProposeConcat` | internal/node/state/json.go:17-47 | two batches in a row are one batch, including when either fails |
| `Batch.ProposeKeepsValid` | internal/node/state/json.go:70-74 | a batch on a valid document leaves a valid document |
| `Batch.WrittenRun` | internal/node/state/json.go:17-47 | a batch on a written document is the run on its record |
| `Batch.EmptyStateValid` | internal/node/state/migrations.go:485-499 | every version with a schema has an empty state, given outright, and it validates |
| `Batch.FileDB.ProposeTransitions` | internal/node/state/db.go:101-123 | the state changes to the batch's result exactly when it goes through and is written; otherwise it stays, and it is always valid and the last document written |
| `Batch.FileDB.State` | internal/node/state/db.go:133-137 | the state in memory always decodes |
| `Batch.NewHabitatDB` | internal/node/state/db.go:39-99 | an existing file is taken exactly when it validates; otherwise the initial batch is run from the empty state and written, and a failed write gives neither a database nor an error |
| `Batch.HistoryIsOneBatch` | internal/node/state/db.go:101-123 | after any calls the state is what one batch of the effective transitions gives; refused and unwritten batches leave no trace |
| `Batch.LastCall` | internal/node/state/db.go:101-123 | one more call adds its batch when it goes through and is written, and nothing otherwise |
| `Invariants.StepKeepsInv` | internal/node/state/transitions.go:30-533 | an accepted transition keeps the five invariants exactly when it is not an initialization by a state without them |
| `Invariants.RunKeepsInv` | internal/node/state/json.go:17-47 | every run from a valid document that has them keeps them, migrations included |
| `Invariants.DatabaseKeepsInv` | internal/node/state/db.go:101-123 | a database opened on a file that has them has them in every state, through refused batches and failed writes |
| `Invariants.NewDatabaseHasInv` | internal/node/state/db.go:63-99 | a new database has them from its first state on, when the states its initializations give do |
| `Invariants.RefsKeptExactly` | internal/node/state/transitions.go:377-388 | a transition keeps process references good exactly when it does not uninstall an app that has a process |
| `Invariants.RunKeepsRefs` | internal/node/state/transitions.go:337-484 | in a run that uninstalls only apps without a process, every process's app stays present and installed |
| `Invariants.PackageStaysTaken` | internal/node/state/transitions.go:267-279 | while an entry is not uninstalled, its package cannot be installed again |
| `Retries.RetryNeedsUninstall` | internal/node/state/transitions.go:239-388 | an installation that went through is refused a second time and goes through again after its entry is uninstalled |
| `Invariants.LifecycleMoves` | internal/node/state/transitions.go:239-388 | an installation appears only by being started, moves only from installing to installed by being finished, and disappears only by being uninstalled |
| `Invariants.RunKeepsInstalled` | internal/node/state/transitions.go:337-388 | an installed app stays installed in every run that does not uninstall it |
| `Matchers.PutRulesExactly` | internal/node/state/transitions.go:211-228 | putting rules keeps matchers distinct exactly when the rules that stay clash neither with each other nor with the rules left in place |
| `Matchers.MatchersKeptExactly` | internal/node/state/transitions.go:239-286 | an accepted transition keeps matchers distinct exactly when the rules it brings unchecked do not clash |
| `Matchers.RunMatchersExactly` | internal/node/state/transitions.go:572-588 | matchers are distinct throughout a run exactly when none of its transitions brings clashing rules |
| `Matchers.ClashAccepted` | internal/node/state/transitions.go:239-286 | wherever an installation is accepted, it is accepted with two rules of one matcher |
| `Matchers.ClashingInstallation` | internal/node/state/transitions.go:193-286 | an accepted installation on a fresh node after which two orders of its rules choose differently |
| `Matchers.OrdersChooseAlike` | internal/node/reverse_proxy/server.go:33-47 | with distinct matchers all iteration orders of the rule map choose the same rule |
| `Invariants.StopUndoesStart` | internal/node/state/transitions.go:420-533 | stopping a process just started restores the document itself |
| `ReverseProxy.SlashesOrderMatches` | internal/node/reverse_proxy/server.go:106-123 | of two matchers of one path the longer has strictly more slashes and contains the other |
| `ReverseProxy.MatchesExactly` | internal/node/reverse_proxy/server.go:106-118 | a rule matches exactly the paths whose first segments are the matcher's |
| `ReverseProxy.SelectRule` | internal/node/reverse_proxy/server.go:33-53 | the loop picks the first rule of the order with the longest matching matcher, one whose segments begin the path and are most, and none exactly when there is none |
| `ReverseProxy.ChoiceIsUnique` | internal/node/reverse_proxy/server.go:33-47 | all iteration orders lead the loop to the same rule exactly when no two different rules share the longest matching matcher |
| `ReverseProxy.RuleSet.AddRule` | internal/node/reverse_proxy/proxy.go:13-26 | a rule is added exactly when its id is free and its type supported; nothing else changes |
| `ReverseProxy.RuleSet.Remove` | internal/node/reverse_proxy/proxy.go:28-34 | removing succeeds exactly for a present id and removes only it |
| `Processes.IdRoundTrip` | internal/process/process.go:14-24 | the driver read back from a new id is the one it was made with, exactly for the known driver types |
| `Processes.DriverFromIDExactly` | internal/process/process.go:18-24 | any id without a colon is malformed; otherwise the driver is the known one named before the first colon, else unknown |
| `Processes.NewIDsDiffer` | internal/process/process.go:14-16 | new ids of known drivers agree exactly when drivers and uuids do |
| `Processes.NoopOnlyAsNoop` | internal/process/driver.go:34-40 | whatever types drivers were built with, a no-op driver is registered only as noop |
| `Processes.RegisteredExactly` | internal/process/manager.go:39-47 | a type has a driver exactly when some driver answers it |
| `Processes.LastRegistered` | internal/process/manager.go:39-47 | of several drivers of a type the last is the one registered |
| `Processes.NodeStartsExactly` | cmd/node/main.go:56-58 | with the node's drivers a start goes through only for docker and noop apps |
| `Processes.ProcessManager.constructor` | internal/process/manager.go:39-47 | the last driver of a type is the one registered |
| `Processes.ProcessManager.StartProcess` | internal/process/manager.go:73-89 | a start goes through exactly when the driver is known, can tell, does not run the id and starts it; then exactly that id runs besides what ran, at that driver, if it tracks |
| `Processes.ProcessManager.StopProcess` | internal/process/manager.go:91-101 | exactly the stopped id stops running, at the driver its text names; every other id runs as before; when it fails and when no process is found is given |
| `Processes.ProcessManager.RestoreFromState` | internal/process/manager.go:103-111 | starts go through up to the first that cannot; it succeeds exactly when all can; in either case what runs is what ran and the ids started so far at tracking drivers |
| `Protocol.NextOk` | internal/node/controller/controller.go:56-198 | every guarded step of every call keeps the joint invariant of the two stores |
| `Protocol.RunningAlwaysRecorded` | internal/node/controller/controller.go:56-118 | at every point of every interleaving with guarded stops, every id a driver runs is recorded in the node state |
| `Protocol.CallsReachTheStarter` | internal/process/manager.go:61-101 | a stop or is-running call on a recorded process whose app is present reaches the app's driver, and the id runs at no other |
| `EarlyStops.OvertakingBreaks` | internal/node/controller/controller.go:103-118 | a stop that overtakes the call of a tracking driver has a continuation that leaves the id running and unrecorded, when the start's record is there or would be accepted now |
| `EarlyStops.StopSafeExactly` | internal/node/controller/controller.go:77-118 | where a pending start of the id has its record or would get it now, the stores can come apart after a stop's driver call exactly when that start has a tracking driver still to call |
| `EarlyStops.StopAfterRecordExactly` | internal/node/controller/controller.go:77-118 | a stop that meets a recorded start before its driver call can break the stores apart exactly when the driver tracks what it runs |
| `EarlyStops.EarlyStopUnrecords` | internal/node/controller/controller.go:103-118 | one run from a fresh node in which an early stop leaves a process running without a record |
| `Controller.FailedStartRollsBack` | internal/node/controller/controller.go:77-84 | when the driver refuses and writes succeed, document and running processes are as before |
| `Controller.DriverStartsExactly` | internal/node/controller/controller.go:77-78 | the driver starts the process exactly when the record was accepted, the driver is known, starts it and does not run the id |
| `Controller.StartedLeaves` | internal/node/controller/controller.go:67-100 | a start that went through adds exactly the process's record, with the app's id and owner, runs it at the app's driver, and reports no error |
| `Controller.StopLeaves` | internal/node/controller/controller.go:113-117 | the record goes exactly when it was there and the write succeeds, and nothing else changes |
| `Controller.UninstallLeaves` | internal/node/controller/controller.go:170-175 | the entry goes exactly when it was there and the write succeeds, and nothing else changes |
| `Controller.LostWriteRunsUnrecorded` | internal/node/controller/controller.go:72-77 | a new id of a tracking driver runs unrecorded exactly when its record was accepted, the driver started it and the write was lost |
| `Controller.RefusedStartReported` | internal/node/controller/controller.go:77-84 | a driver that does not start an accepted process is reported exactly when the write of the record was lost |
| `Controller.FailedRollbackLeavesRecord` | internal/node/controller/controller.go:79-83 | a refused start whose rollback is not written leaves the process's record and nothing running for it |
| `Controller.WebAppNeverStarts` | internal/node/controller/controller.go:77-84 | on the node the start of a web app is taken back and not reported, whatever the driver answers |
| `Examples.StartsGoWrong` | internal/node/controller/controller.go:72-84 | a fresh node on which a refused start is not reported and a lost write leaves a process running unrecorded |
| `Examples.WebAppStuck` | internal/web/driver.go:8-13 | a node with an installed web app whose start is accepted, taken back and not reported |
| `LoneCalls.LoneStart` | internal/node/controller/controller.go:56-101 | a start run alone through the protocol leaves what startProcess leaves when its writes succeed |
| `LoneCalls.LoneStop` | internal/node/controller/controller.go:103-118 | a stop run alone through the protocol leaves what stopProcess leaves |
| `LoneCalls.LoneInstall` | internal/node/controller/controller.go:120-168 | an installation run alone through the protocol leaves what installApp leaves up to its start |
| `LoneCalls.LoneProposal` | internal/node/controller/controller.go:170-198 | a database call run alone through the protocol leaves what the controller leaves |
| `Controller.Controller.ProposeSingle` | internal/node/state/db.go:101-123 | one proposal: the error is that of the transition, the state changes only when written |
| `Controller.Controller.StartProcess` | internal/node/controller/controller.go:56-101 | both stores after a start; a started process is not reported, only rules stored for its app are added, and all of them when none is refused; without a start the drivers and rules are as before |
| `AppRules.AddAppRules` | internal/node/controller/controller.go:91-98 | the loop leaves the rules added in the iteration order up to the first that is refused |
| `AppRules.OnlyTheApps` | internal/node/controller/controller.go:91-98 | only rules of the app are added and nothing that was there changes |
| `AppRules.AddingStops` | internal/node/controller/controller.go:94-96 | nothing is added from the first refused rule of the app on |
| `AppRules.AllAddedExactly` | internal/node/controller/controller.go:91-98 | with untaken ids, all rules of the app are added exactly when none is refused |
| `AppRules.AddedInAnyOrder` | internal/node/controller/controller.go:91-98 | in any iteration order only the app's stored rules are added, and all of them when none is refused |
| `Controller.Controller.StopProcess` | internal/node/controller/controller.go:103-118 | a driver failure keeps and reports everything; otherwise exactly the id stops running and its record goes, or its absence is reported |
| `Controller.Controller.InstallApp` | internal/node/controller/controller.go:120-168 | the node state, what runs, the proxy rules and the error of an installation that ends at each of its steps |
| `Controller.Controller.UninstallApp` | internal/node/controller/controller.go:170-175 | uninstalling is one proposal and does not look at processes |
| `Controller.Controller.MigrateDB` | internal/node/controller/controller.go:184-198 | nothing happens at the target version; otherwise it is one proposal |
| `Controller.Controller.Restore` | internal/node/controller/controller.go:200-232 | with keys equal to ids, restore succeeds exactly when packages do, every app is present and every start can go through; it only adds recorded processes at tracking drivers, and from nothing running success leaves all of them |
| `Controller.Controller.AddAllRules` | internal/node/controller/controller.go:209-215 | refused rules are skipped; every id of a supported rule ends up present and nothing else is added |
| `Controller.CollectProcesses` | internal/node/controller/controller.go:217-229 | the loop fails exactly when some process's app is missing; otherwise it finds each process's app |
| `Controller.RestoreFindsApps` | internal/node/controller/controller.go:219-227 | after runs that uninstall only apps without a process, the missing-installation branch is unreachable |
| `Permissions.LikeExactly` | internal/permissions/sqlite_store.go:71 | LIKE as SQLite defines it: a percent sign stands for any text, an underscore for any character, other characters for themselves in either ASCII case |
| `Permissions.CoversLiteral` | internal/permissions/sqlite_store.go:71-74 | for literal objects the query's condition is: equal, or a prefix ending at a dot |
| `Permissions.CoversFolded` | internal/permissions/sqlite_store.go:71-74 | for objects free of LIKE characters the query's condition is: equal, or a prefix ending at a dot, up to letter case |
| `Permissions.DecisionIsLongest` | internal/permissions/sqlite_store.go:45-85 | a non-owner is allowed exactly when a longest applicable row allows and no equally long one denies |
| `Permissions.DecisionIgnoresOrder` | internal/permissions/sqlite_store.go:71-75 | the decision depends only on which live rows exist, not on their order |
| `Permissions.MostSpecificIsUnique` | internal/permissions/sqlite_store.go:16-22 | two equally long applicable rows are the same row |
| `Permissions.GrantFrame` | internal/permissions/sqlite_store.go:90-111 | a grant sets to allow exactly the covered paths of that grantee and owner that no longer row decides; all else stays |
| `Permissions.RevokeFrame` | internal/permissions/sqlite_store.go:114-126 | a revocation leaves the decisions of a table without rows on the triple |
| `Permissions.GrantThenRevoke` | internal/permissions/sqlite_store.go:87-126 | granting and revoking a new triple restores every decision, and granting it again fails |
| `GrantHistory.RefusedAfterExactly` | internal/permissions/sqlite_store.go:87-126 | after any history a grant is refused exactly when its triple was removed at the start, was live and revoked, or was granted and later revoked |
| `GrantHistory.RefusedForGood` | internal/permissions/sqlite_store.go:16-22 | a refused grant stays refused, whatever follows |
| `Permissions.ObjectsOfIs` | internal/permissions/sqlite_store.go:164-181 | the lists of a listing hold exactly the objects of the applicable live rows of each effect |
| `Permissions.ListsExactly` | internal/permissions/sqlite_store.go:150-184 | the owner gets a wildcard and no denials; another caller gets the objects of the live allow and deny rows on the way to the collection |
| `Permissions.SqliteStore.HasPermission` | internal/permissions/sqlite_store.go:45-85 | yes for the owner, and for another caller exactly when a live allow row of theirs reaches the path, no longer one does and no equally long one denies |
| `Permissions.SqliteStore.AddLexiconReadPermission` | internal/permissions/sqlite_store.go:90-111 | a live row is set to allow, a new triple is inserted, a removed one is refused |
| `Permissions.SqliteStore.RemoveLexiconReadPermission` | internal/permissions/sqlite_store.go:114-126 | the rows of the triple are kept but no longer live |
| `Permissions.SqliteStore.ListReadPermissionsByUser` | internal/permissions/sqlite_store.go:150-184 | the loop returns the allow and deny lists |
| `Privi.SqliteRepo.PutRecord` | internal/privi/repo.go:96-115 | a record that passes validation replaces whatever was at its key, and only that |
| `Privi.ReadAfterPut` | internal/privi/privi.go:48-82 | a record put is got back by its own collection and key and by every pair that joins to the same key; every other read is as before |
| `Privi.JoinedKeysExactly` | internal/privi/privi.go:56-81 | two pairs join to one key exactly when they are equal or one collection continues the other by segments the other key starts with; without dots in keys only equal pairs do |
| `Privi.SqliteRepo.ListRecords` | internal/privi/repo.go:195-251 | the rows are stored records of keys the lists let through after the cursor, in strictly ascending order, at most as many as a positive limit says, all when it is not reached, and those left out come later; without LIKE characters an allowed pattern admits each and no denied one does |
| `Privi.PassesExactly` | internal/privi/repo.go:206-230 | without LIKE characters a key passes exactly when an allowed pattern admits it and no denied one does, a star standing for any ending |
| `Privi.ListedIsPage` | internal/privi/repo.go:232-250 | every page is what the listing promises, told without its query |
| `Privi.PagingIsComplete` | internal/privi/repo.go:232-243 | asking again with the last key until a page is empty yields every passing key once, ascending, for every page size |
| `Text.LessExactly` | internal/privi/repo.go:233-243 | the order of keys: a proper beginning, or the smaller character at the first difference |
| `Privi.EmptyKeySticks` | internal/privi/repo.go:233-235 | with an empty key paging would repeat itself, exactly when that key ends the first page |
| `Privi.ListedIsAllowed` | internal/privi/privi.go:84-98 | for a collection without `*`, the decision on the stored key of whatever a listing lets through is to allow |
| `Privi.ListedIsGot` | internal/privi/privi.go:60-98 | a listed record is what getRecord answers for every pair joining to its key with a record key; with an empty one exactly when the bare collection is allowed |
| `Privi.ListedNotGot` | internal/privi/privi.go:48-98 | a record under an empty record key that is listed to a caller who can get it by no pair |
| `Privi.NonOwnerPasses` | internal/privi/privi.go:84-98 | the keys a non-owner's listing lets through are those with a live allow of their own on the way to the collection |
| `Privi.MembersNeverListed` | internal/privi/repo.go:209-219 | a non-owner's listing never returns a member of the collection |
| `Privi.OwnerPasses` | internal/permissions/sqlite_store.go:155-157 | the owner's listing lets through exactly the keys below the collection |
| `Privi.OwnerPassesPrefix` | internal/permissions/sqlite_store.go:155-157 | for a collection without LIKE characters these are the keys that begin with it and a dot, up to letter case |
| `Privi.Store.PutRecord` | internal/privi/privi.go:48-57 | stores under the joined key and changes nothing else |
| `Privi.Store.GetRecord` | internal/privi/privi.go:60-82 | gives the record exactly when the decision on the path allows it and it is there |
| `Privi.Store.ListRecords` | internal/privi/privi.go:84-98 | lists the records of the allow and deny lists; each is a stored record that getRecord answers, or has an empty record key and a bare collection that is not allowed |

## Left out

- JSON text: escaping, duplicate keys and Go's case-insensitive member names. Documents are trees, so ids are taken to need no JSON escaping.
- Null entries inside the node's maps and an installation without package fields: reading refuses the first and the second cannot be written.
- Negative array indices in patches, and `test`, `move` and `copy` operations: no transition makes them.
- Semantic versions other than three numbers without leading zeros: prereleases, build parts and shorthands compare like malformed ones.
- jsondiff on arrays: two different arrays are replaced as a whole; node states hold arrays only inside driver configurations.
- JSON Schema: only the keywords the node schemas use (type, enum, required, properties, additionalProperties) are evaluated; the title and other keywords are not.
- The initialization patch fills nil maps of its own argument in place; here it builds a filled value, so a caller's view of that argument afterwards is not captured.
- WrapTransition: marshalling a log entry is taken to succeed, and an entry keeps the transition and its patch only.
- Batch.NewHabitatDB: errors of os.Stat and of reading the file are not modelled.
- Interleavings: the protocol starts from a node state the node wrote itself, takes every write as succeeding, and leaves proxy rules and package contents out of its steps.
- Protocol.RunningAlwaysRecorded: assumes that a driver that refuses leaves nothing running, that new ids differ from all ids made or named before, and that no stop calls a tracking driver while a start of its id has it still to call; StopSafeExactly shows the last is needed.
- OldDocuments.OldDocumentStuck: is one direction only; MigrateDocument is the exact statement.
- Permissions.CoversLiteral: needs objects without `%` and `_` and one letter case; the decision theorems hold for every object.
- Privi.ListedIsAllowed: needs a collection without `*` and objects without `%`, as does ListedIsGot.
- EarlyStops.StopSafeExactly: says nothing of a stop that meets a start whose record would be refused now and might be accepted later.
- Privi.PagingIsComplete: needs keys that are not empty; EmptyKeySticks says what happens otherwise. The store never writes an empty key.
- Blobs, ListReadPermissionsByLexicon, the casbin and dummy permission stores, and the record validator.
- NodeState lookups by user and SetRootUserCert: single-map filters.
- Drivers and package managers: abstract answers; Docker, web bundles, files and downloads are not modelled.
- HTTP handlers, authentication, the frontend and configuration.
