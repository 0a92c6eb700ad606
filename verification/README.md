# Synthetic data loader: a Dafny model

This project models the core of the database loader of the game-platform project. The loader:

1. fills the editor store (`editor_db`) with generated editors, games, DLCs, patches, bug reports and evaluations;
2. copies the published part into the platform store (`platform_db`);
3. commits both stores.

The project also models the `generateAvro` Gradle task of the schema library. That task compiles every `.avsc` schema and retries the ones that failed until a pass makes no progress.

Modules, one per source unit:

- `Faker` (`FakerProvider`): the shared random source and the provider singleton.
  - The `java.util.Random` is a sequence of draws. Each `nextInt(bound)` consumes one draw and reduces it modulo the bound.
  - Faker's text is a sequence of opaque words.
  - `UUID.randomUUID()` is a counter of fresh ids.
  - `Collections.shuffle` is written out swap by swap.
- `EditorGenerator`, `GameGenerator`, `DlcGenerator`, `PatchGenerator`, `BugReportGenerator`, `EvaluationGenerator`: the six generators, each with:
  - its per-row loop;
  - its name and description templates, kept as literal tables;
  - its side tables: the editor-to-games map, the publish-status maps and the id lists.
- `PublishMap`: the `HashMap<UUID, Boolean>` publish tables and their `getOrDefault(id, false)` reads.
- `Rows`: the row types of both stores and their integrity predicates.
- `EditorLoader` (`EditorDbLoader.loadData`): the six stages in order. An SQL failure is a parameter `failAt` naming the stage whose insert throws.
- `PlatformSync` (`PlatformDbLoader.loadData`): the store the platform loader builds from the editor store, step by step.
  - Editors are copied.
  - Games are copied only when published.
  - Platform and genre rows follow their game.
  - DLCs and patches are copied only when they and their game are published.
- `MainRun` (`Main.main`): the run as a trace of events, and the integer arithmetic of `printSummary`.
- `AvroBuild` (`build.gradle.kts`): the retry loop. The Avro parser and compiler are an oracle parameter (`Tools`).

Prices are whole cents and version numbers whole tenths, so the floating-point `randomDouble` followed by `round` is one draw in a closed integer range.

## Model

| member | source | states |
|---|---|---|
| Faker.NextInt | database/DatabaseLoader/src/utils/FakerProvider.java:57-59 | a draw for `nextInt(bound)` lies in `[0, bound)`, and exactly one draw is consumed |
| Faker.NextIntAttains | database/DatabaseLoader/src/utils/FakerProvider.java:57-59 | every value below the bound is the outcome of some draw |
| Faker.RandomInt | database/DatabaseLoader/src/utils/FakerProvider.java:57-59 | `randomInt(min, max)` is inclusive at both ends and consumes one draw; the range must be non-empty with `max - min + 1` still a positive Java `int` |
| Faker.RandomIntBound | database/DatabaseLoader/src/utils/FakerProvider.java:57-59 | for `int` arguments the bound handed to `nextInt` is positive exactly for such a range, or for a reversed range whose subtraction wraps round to a positive value |
| Faker.RandomIntAttains | database/DatabaseLoader/src/utils/FakerProvider.java:57-59 | every value of `[min, max]`, both ends included, can be drawn |
| Faker.RandomBool | database/DatabaseLoader/src/utils/FakerProvider.java:50-52 | true exactly when the draw modulo 100 is below the percentage; never true at 0 or below, always true at 100 or above |
| Faker.RandomElement | database/DatabaseLoader/src/utils/FakerProvider.java:79-81 | the picked element belongs to the (non-empty) array, and one draw is consumed |
| Faker.RandomElementAttains | database/DatabaseLoader/src/utils/FakerProvider.java:79-81 | every position of the array can be picked |
| Faker.RoundedDouble | database/DatabaseLoader/src/utils/FakerProvider.java:64-74 | a rounded random amount lies within its bounds, counted in units of the last decimal place |
| Faker.Shuffle | database/DatabaseLoader/src/generators/GameGenerator.java:130-131 | `Collections.shuffle` returns a permutation (same multiset) and keeps a duplicate-free list duplicate-free |
| Faker.ShuffledPrefix | database/DatabaseLoader/src/generators/GameGenerator.java:129-138 | the rows taken are a prefix, of length within `[lo, hi]`, of some permutation of the array, without duplicates |
| Faker.GetInstance | database/DatabaseLoader/src/utils/FakerProvider.java:25-30 | the first call creates and stores the instance; later calls return the stored one |
| Faker.GetInstanceStable | database/DatabaseLoader/src/utils/FakerProvider.java:25-30 | three successive calls return the same instance, the one the first call created |
| EditorGenerator.CompanyName | database/DatabaseLoader/src/generators/EditorGenerator.java:88-99 | a company name ends with one of the five template suffixes |
| EditorGenerator.Description | database/DatabaseLoader/src/generators/EditorGenerator.java:111-123 | an individual's description starts with "Independent game developer. " and consumes no draw |
| EditorGenerator.GenerateEditor | database/DatabaseLoader/src/generators/EditorGenerator.java:44-70 | fresh id; the type is "entreprise" exactly when the percentage draw succeeds, else "particulier"; company name for enterprises, person name and fixed description prefix for individuals |
| EditorGenerator.GenerateEditors | database/DatabaseLoader/src/generators/EditorGenerator.java:34-83 | `numEditors` rows (none when it is not positive) with consecutive fresh ids, appended to the generator's id list |
| EditorGenerator.SecondCallAccumulates | database/DatabaseLoader/src/generators/EditorGenerator.java:46 | a second call keeps the first call's ids and adds as many again: the list is never cleared |
| GameGenerator.GameName | database/DatabaseLoader/src/generators/GameGenerator.java:98-121 | the draw modulo 10 selects the template: "The Legend of " before the word for 3, the word alone for 0 and 7, and otherwise the word followed by ": ", " Chronicles", " Warriors", " Simulator", ": The Game", "'s " and one of the ten verbs, or " Fighter"; the `default` branch is never taken |
| GameGenerator.InsertGamePlatforms | database/DatabaseLoader/src/generators/GameGenerator.java:126-142 | one to four rows for the game, pairwise different platforms, forming a prefix of a permutation of PLATFORMS |
| GameGenerator.InsertGameGenres | database/DatabaseLoader/src/generators/GameGenerator.java:147-163 | one to three rows for the game, pairwise different genres, forming a prefix of a permutation of GENRES |
| GameGenerator.GenerateGame | database/DatabaseLoader/src/generators/GameGenerator.java:70-91 | fresh id, the editor's id, price 5.99 to 79.99, version 1.0 to 10.0, publish extremes, valid platform and genre rows |
| GameGenerator.GenerateGamesForEditor | database/DatabaseLoader/src/generators/GameGenerator.java:63-96 | `numGames` games with consecutive fresh ids, each satisfying the per-game facts |
| GameGenerator.GenerateGames | database/DatabaseLoader/src/generators/GameGenerator.java:37-58 | one batch per editor with a size within the configured range; each game's flag reads back from the publish map and older ids are untouched; for a fresh generator and distinct editors the map lists each editor's own batch |
| GameGenerator.GameFlagsReadBack | database/DatabaseLoader/src/generators/GameGenerator.java:79 | after the `put`s each generated game reads back its own flag, and ids older than the batch read as before |
| GameGenerator.FreshEditorsListed | database/DatabaseLoader/src/generators/GameGenerator.java:51 | putting distinct editors into an empty map keeps one entry each, in order, and looking up an editor finds its own list |
| GameGenerator.GameIdsForEditor | database/DatabaseLoader/src/generators/GameGenerator.java:179-181 | an editor absent from the map gets an empty list; otherwise it gets the list of its entry |
| GameGenerator.EntryForFirst | database/DatabaseLoader/src/generators/GameGenerator.java:179-181 | the lookup finds the first entry of the editor, or nothing |
| GameGenerator.PutLookup | database/DatabaseLoader/src/generators/GameGenerator.java:51 | after `put` the editor looks up its new list, every other editor its old one, and the map gains at most one entry |
| GameGenerator.PutAllLookup | database/DatabaseLoader/src/generators/GameGenerator.java:44-53 | after the loop's `put`s an editor looks up the list of its last put, and an editor never put keeps its old list |
| GameGenerator.PutAllAppends | database/DatabaseLoader/src/generators/GameGenerator.java:51 | `put` for editors that are new and pairwise different appends their entries in order |
| GameGenerator.AllGameIdsMember | database/DatabaseLoader/src/generators/GameGenerator.java:168-174 | an id is in `getAllGameIds` exactly when some entry of the map lists it |
| GameGenerator.PublishedGameIds | database/DatabaseLoader/src/generators/GameGenerator.java:186-201 | an id is listed as published exactly when `isGamePublished` holds for it |
| DlcGenerator.DlcName | database/DatabaseLoader/src/generators/DLCGenerator.java:99-124 | the name carries the fixed text of the template the draw selects; the `default` branch is never taken |
| DlcGenerator.DlcNameNotEmpty | database/DatabaseLoader/src/generators/DLCGenerator.java:99-124 | no DLC name is empty, whatever Faker returns |
| DlcGenerator.OwnedMember | database/DatabaseLoader/src/generators/DLCGenerator.java:42-46 | the nested loops visit an (editor, game) pair exactly when the game is listed under that editor |
| DlcGenerator.GenerateDlc | database/DatabaseLoader/src/generators/DLCGenerator.java:73-91 | fresh id, the given game and editor, price 2.99 to 29.99, version 1.0 to 5.0, publish extremes |
| DlcGenerator.GenerateDlcsForGame | database/DatabaseLoader/src/generators/DLCGenerator.java:67-94 | `numDlcs` DLCs with consecutive fresh ids, all for the given game and editor |
| DlcGenerator.GenerateDlcs | database/DatabaseLoader/src/generators/DLCGenerator.java:34-62 | one batch per visited pair with a size within the range (none when the count is not positive); DLC ids appended in order; flags read back |
| DlcGenerator.PublishedDlcIds | database/DatabaseLoader/src/generators/DLCGenerator.java:129-144 | an id is listed as published exactly when `isDLCPublished` holds for it |
| PatchGenerator.PatchComment | database/DatabaseLoader/src/generators/PatchGenerator.java:107-123 | the comment is the fixed one the draw selects among the ten |
| PatchGenerator.PatchModifications | database/DatabaseLoader/src/generators/PatchGenerator.java:128-159 | the text is three to eight lines, each starting with "- " and holding no newline, joined by single newlines |
| PatchGenerator.ModificationsShape | database/DatabaseLoader/src/generators/PatchGenerator.java:152-158 | `trim` of the built text removes exactly the final newline, so splitting it gives back the lines |
| PatchGenerator.DashLinesIff | database/DatabaseLoader/src/generators/PatchGenerator.java:152-156 | the recursive line predicate holds exactly when every line starts with "- " and holds no newline |
| PatchGenerator.GeneratePatch | database/DatabaseLoader/src/generators/PatchGenerator.java:68-88 | fresh id; old version is the current version; the new version adds 0.1 to 1.0; one of the ten comments; well-formed modifications |
| PatchGenerator.GeneratePatchesForGame | database/DatabaseLoader/src/generators/PatchGenerator.java:61-102 | `numPatches` patches of the game with consecutive fresh ids whose versions chain from 1.0 |
| PatchGenerator.ChainIncreasing | database/DatabaseLoader/src/generators/PatchGenerator.java:78-82 | along a chain new versions strictly increase, and the i-th lies between 1.0 + 0.1(i+1) and 1.0 + (i+1) |
| PatchGenerator.GeneratePatches | database/DatabaseLoader/src/generators/PatchGenerator.java:36-56 | one chain per game with a size within the range; patch ids appended in order; each patch's flag reads back, older ids untouched |
| PatchGenerator.PatchFlagsReadBack | database/DatabaseLoader/src/generators/PatchGenerator.java:88 | after the `put`s each generated patch reads back its own flag, and older ids read as before |
| PatchGenerator.PublishedPatchIds | database/DatabaseLoader/src/generators/PatchGenerator.java:164-179 | an id is listed as published exactly when `isPatchPublished` holds for it |
| BugReportGenerator.BugDescription | database/DatabaseLoader/src/generators/BugReportGenerator.java:87-128 | the description is the template the draw selects, filled with an area, a value and an area, then a space and a sentence |
| BugReportGenerator.SecondAreaUnused | database/DatabaseLoader/src/generators/BugReportGenerator.java:87-128 | the fourteen two-placeholder templates show only the first area and the value; the surplus argument is dropped |
| BugReportGenerator.PatchLink | database/DatabaseLoader/src/generators/BugReportGenerator.java:67-70 | no link, and no draw, when there are no patches; otherwise a link exactly when the 50% draw succeeds, always to a listed patch |
| BugReportGenerator.PatchLinkAttains | database/DatabaseLoader/src/generators/BugReportGenerator.java:67-70 | any patch id of the whole list can be attached, whatever game the patch belongs to |
| BugReportGenerator.GenerateBugReport | database/DatabaseLoader/src/generators/BugReportGenerator.java:65-79 | the report belongs to the game; a link only to a listed patch and never with no patches; a templated description |
| BugReportGenerator.GenerateBugReportsForGame | database/DatabaseLoader/src/generators/BugReportGenerator.java:59-82 | `numReports` well-formed reports of the game, and none linked when there are no patches |
| BugReportGenerator.GenerateBugReports | database/DatabaseLoader/src/generators/BugReportGenerator.java:33-54 | one batch per game with a size within the range, every report well-formed for its game |
| EvaluationGenerator.Rating | database/DatabaseLoader/src/generators/EvaluationGenerator.java:81-96 | the rating lies in 0..10, and the bucket draw decides its band (5/15/30/40/10 out of 100) in both directions |
| EvaluationGenerator.RatingAttains | database/DatabaseLoader/src/generators/EvaluationGenerator.java:81-96 | every rating from 0 to 10 is produced by some pair of draws |
| EvaluationGenerator.BandOf | database/DatabaseLoader/src/generators/EvaluationGenerator.java:101-118 | the tone thresholds 9, 7, 5 and 3, each in both directions |
| EvaluationGenerator.BandMonotone | database/DatabaseLoader/src/generators/EvaluationGenerator.java:101-118 | a better rating never gets a worse tone |
| EvaluationGenerator.ReviewDescription | database/DatabaseLoader/src/generators/EvaluationGenerator.java:101-198 | the review is one of the seven templates of the rating's tone followed by a sentence |
| EvaluationGenerator.GenerateEvaluation | database/DatabaseLoader/src/generators/EvaluationGenerator.java:64-73 | the evaluation belongs to the game, its rating is in 0..10 and its review matches its rating |
| EvaluationGenerator.GenerateEvaluationsForGame | database/DatabaseLoader/src/generators/EvaluationGenerator.java:58-76 | `numEvaluations` well-formed evaluations of the game |
| EvaluationGenerator.GenerateEvaluations | database/DatabaseLoader/src/generators/EvaluationGenerator.java:33-53 | one batch per game with a size within the range, every evaluation well-formed for its game |
| PublishMap.TrueKeys | database/DatabaseLoader/src/generators/GameGenerator.java:193-201 | the published-id list holds exactly the ids whose recorded flag is true |
| PublishMap.PutFlagsReadBack | database/DatabaseLoader/src/generators/DLCGenerator.java:82 | after one `put` per distinct id each id reads back its own flag, and ids not put read as before |
| EditorLoader.LoadData | database/DatabaseLoader/src/loaders/EditorDbLoader.java:44-81 | loaded exactly when no stage throws. On success: the store is sound, has `numEditors` editors, and the generators agree with it; the games are one batch per editor, the DLCs one batch per (editor, game) pair of `editorGamesMap`, and the patches, bug reports and evaluations one batch per id of `getAllGameIds`, each batch belonging to its editor or game and sized within its configured range; each patch batch is a version chain. On failure: the stage is the failing one, its and all later tables are empty, and foreign keys and keys are intact |
| EditorLoader.EditorsStep | database/DatabaseLoader/src/loaders/EditorDbLoader.java:52-53 | after stage 1 the store is sound, holds `numEditors` editors with distinct ids, and nothing else |
| EditorLoader.GamesStep | database/DatabaseLoader/src/loaders/EditorDbLoader.java:55-56 | one batch of games per stored editor, sized within `[gamesMin, gamesMax]`; the store stays sound; the map and the publish table agree with the stored games |
| EditorLoader.DlcsStep | database/DatabaseLoader/src/loaders/EditorDbLoader.java:58-59 | one batch of DLCs per (editor, game) pair of `editorGamesMap`, sized within `[dlcMin, dlcMax]`, is added and nothing else changes; the store stays sound; the DLC id list and flags agree with the stored DLCs |
| EditorLoader.PatchesStep | database/DatabaseLoader/src/loaders/EditorDbLoader.java:61-62 | one version chain per id of `getAllGameIds`, sized within `[patchesMin, patchesMax]` and patching that game, is added and nothing else changes; the store stays sound; the patch id list and flags agree |
| EditorLoader.BugReportsStep | database/DatabaseLoader/src/loaders/EditorDbLoader.java:64-66 | one batch of reports per id of `getAllGameIds`, sized within `[bugMin, bugMax]`, about that game and linked only to a listed patch, is added and nothing else changes; the store stays sound |
| EditorLoader.EvaluationsStep | database/DatabaseLoader/src/loaders/EditorDbLoader.java:68-69 | one batch of evaluations per id of `getAllGameIds`, sized within `[evalMin, evalMax]` and rating that game, is added and nothing else changes; the store stays sound |
| EditorLoader.GamesStageSound | database/DatabaseLoader/src/generators/GameGenerator.java:81-91 | games of stored editors, with rows naming those games and consecutive fresh ids, keep the store sound |
| EditorLoader.DlcsStageSound | database/DatabaseLoader/src/generators/DLCGenerator.java:84-86 | every DLC names a stored game of its own editor, so the store stays sound |
| EditorLoader.DlcParentListed | database/DatabaseLoader/src/generators/DLCGenerator.java:42-53 | the game of every visited pair is a generated game of that editor |
| EditorLoader.PatchesStageSound | database/DatabaseLoader/src/loaders/EditorDbLoader.java:61-62 | patches generated for `getAllGameIds` name stored games, so the store stays sound |
| EditorLoader.BugReportsStageSound | database/DatabaseLoader/src/loaders/EditorDbLoader.java:64-66 | reports name stored games and stored patches, so the store stays sound |
| EditorLoader.EvaluationsStageSound | database/DatabaseLoader/src/loaders/EditorDbLoader.java:68-69 | evaluations name stored games, so the store stays sound |
| PlatformSync.CopyEditors | database/DatabaseLoader/src/loaders/PlatformDbLoader.java:70-97 | every selected editor is inserted unchanged, in order |
| PlatformSync.EditorsCopied | database/DatabaseLoader/src/loaders/PlatformDbLoader.java:70-97 | the platform store holds exactly the editor store's editors |
| PlatformSync.SyncGames | database/DatabaseLoader/src/loaders/PlatformDbLoader.java:102-136 | a platform game row exists exactly when a published source game has those columns |
| PlatformSync.GameSyncedIff | database/DatabaseLoader/src/loaders/PlatformDbLoader.java:102-136 | a game id reaches the platform store exactly when a published game carries it |
| PlatformSync.SyncAssociations | database/DatabaseLoader/src/loaders/PlatformDbLoader.java:141-178 | a platform or genre row is copied exactly when its game is published |
| PlatformSync.AssociationsExact | database/DatabaseLoader/src/loaders/PlatformDbLoader.java:141-178 | for distinct game ids, each published game gets exactly its own rows in their order, and an unpublished one none |
| PlatformSync.SyncDlcs | database/DatabaseLoader/src/loaders/PlatformDbLoader.java:184-216 | a DLC is copied exactly when it is published and its game is published |
| PlatformSync.SyncPatches | database/DatabaseLoader/src/loaders/PlatformDbLoader.java:223-258 | a patch is copied exactly when it is published and its game is published, with its modifications as description |
| PlatformSync.SyncClosed | database/DatabaseLoader/src/loaders/PlatformDbLoader.java:184-258 | every copied DLC and patch has its game in the platform store |
| PlatformSync.SyncStagesIntact | database/DatabaseLoader/src/loaders/PlatformDbLoader.java:43-53 | parents are synced before children, so after any number of steps every foreign key of the platform store resolves |
| PlatformSync.SyncThrough | database/DatabaseLoader/src/loaders/PlatformDbLoader.java:43-53 | after each step its table holds exactly what that step selects: all editors, then the published games with their platform and genre rows, then the published DLCs and patches of published games; the tables of later steps are empty |
| PlatformSync.Sync | database/DatabaseLoader/src/loaders/PlatformDbLoader.java:34-65 | whatever an interrupted sync leaves is, table by table, empty or what the complete sync inserts |
| PlatformSync.LoadPlatform | database/DatabaseLoader/src/loaders/PlatformDbLoader.java:34-65 | synced exactly when no step throws; on failure the store holds the steps before the failing one |
| MainRun.Run | database/DatabaseLoader/src/Main.java:13-84 | as written: exit status 0 exactly on success; rollback exactly on a failure with a connection; connections closed only on success |
| MainRun.RunClosing | database/DatabaseLoader/src/Main.java:79-83 | corrected: the connections are closed on every path that has a connection; success is unchanged |
| MainRun.StepDoneIff | database/DatabaseLoader/src/Main.java:16-53 | a step of the try block completes exactly when it comes before the failing one |
| MainRun.CommitAfterLoadAndSync | database/DatabaseLoader/src/Main.java:34-45 | the commit happens exactly when the load, the sync and the commit succeed, and only after the load and the sync |
| MainRun.SuccessTrace | database/DatabaseLoader/src/Main.java:13-84 | the successful run is every step in order, then close, then status 0 |
| MainRun.FailedRunLeavesConnectionOpen | database/DatabaseLoader/src/Main.java:54-83 | as written, a load failure leaves the connections unclosed; the corrected run closes them |
| Common.Wrap32 | database/DatabaseLoader/src/Main.java:94-104 | the result is a Java `int`, and values already in range are unchanged |
| MainRun.JavaDiv | database/DatabaseLoader/src/Main.java:95 | Java's `/` truncates toward zero for negative dividends |
| MainRun.AverageInRange | database/DatabaseLoader/src/Main.java:95 | for non-negative bounds below 2^30 the average is the midpoint rounded down, between the bounds |
| MainRun.AverageRoundsTowardZero | database/DatabaseLoader/src/Main.java:95 | a negative odd sum rounds toward zero |
| MainRun.AverageOverflows | database/DatabaseLoader/src/Main.java:95 | bounds near `Integer.MAX_VALUE` overflow the sum and the printed average becomes negative |
| MainRun.SummaryEstimates | database/DatabaseLoader/src/Main.java:93-104 | the editor figure is the configured count; every estimate is a Java `int`; no editors gives no games, and no games gives no DLCs, patches, bug reports or evaluations |
| MainRun.EstimatesExact | database/DatabaseLoader/src/Main.java:94-104 | for modest configuration values no estimate wraps, and each is the exact product of the count and the midpoints |
| MainRun.GeneratorsAgreeWithSync | database/DatabaseLoader/src/Main.java:37-42 | the generators passed to the platform loader agree with the store it reads: a game is synced exactly when the game generator lists it as published; a DLC exactly when the DLC generator lists it as published and its game is published |
| AvroBuild.ExtensionShape | schema-lib/build.gradle.kts:51 | the extension is the dot-free tail after the last '.', and empty without a '.' |
| AvroBuild.AvscIffSuffix | schema-lib/build.gradle.kts:51 | a file name has extension `avsc` exactly when it ends with ".avsc" |
| AvroBuild.AvroSources | schema-lib/build.gradle.kts:51 | the listed sources are exactly the directory's `.avsc` files, in listing order |
| AvroBuild.SourcesAreAvsc | schema-lib/build.gradle.kts:51 | a file is compiled only when its name ends with ".avsc" |
| AvroBuild.TryFile | schema-lib/build.gradle.kts:61-89 | an attempt succeeds exactly when the parse and the compile both succeed; a parse failure leaves the known types unchanged and records the message |
| AvroBuild.Pass | schema-lib/build.gradle.kts:59-90 | every file of a pass ends up compiled or still pending, none is added, and the known types only grow |
| AvroBuild.PassSplits | schema-lib/build.gradle.kts:59-90 | a pass splits the pending files into compiled and still pending; known types only grow; a file is compiled only after its parse and compile succeeded |
| AvroBuild.PassRecordsFailures | schema-lib/build.gradle.kts:85-88 | after a pass `failedFiles` holds every pending file and none of the compiled ones |
| AvroBuild.PassIgnoresFailed | schema-lib/build.gradle.kts:59-90 | the failure map never influences which files a pass compiles |
| AvroBuild.PassKeepsTypes | schema-lib/build.gradle.kts:63-83 | every file a pass compiles was parsed from types the pass still knows at its end, and the types that parse added with `putAll` are known there too |
| AvroBuild.PassAllCompile | schema-lib/build.gradle.kts:59-90 | when every pending file always parses and compiles, one pass compiles them all in order and leaves none pending |
| AvroBuild.PassOutcome | schema-lib/build.gradle.kts:57-98 | a pass that compiles nothing leaves every file pending and recorded and replays identically; a pass that compiles something shrinks the pending list |
| AvroBuild.PassKeepsOrder | schema-lib/build.gradle.kts:59-90 | a pass that compiles nothing leaves the list of files as it was |
| AvroBuild.Run | schema-lib/build.gradle.kts:55-98 | the known types only grow; on the exception the last pass began from types between the first and the final ones; a pass that compiles nothing while files remain throws with exactly those files, the failures it recorded and the types known before and after it |
| AvroBuild.NextReady | schema-lib/build.gradle.kts:55-90 | a pass that compiled something leaves fewer pending files, still pairwise different and alone in `failedFiles`, and the loop goes on from that state |
| AvroBuild.RunAtStall | schema-lib/build.gradle.kts:55-98 | a stall reached after any number of productive passes is where the task throws, carrying that state's pending files, compiled files, failures and types |
| AvroBuild.RunAtEnd | schema-lib/build.gradle.kts:55 | pending files running out after productive passes ends the task normally with that state's compiled files and types |
| AvroBuild.RunReachesEnd | schema-lib/build.gradle.kts:55-98 | productive passes always lead to a stalled pass or to no pending file |
| AvroBuild.RunThrowsIff | schema-lib/build.gradle.kts:55-98 | the loop throws exactly when some pass, the first or a later one, compiles nothing while files remain, and ends normally exactly when the pending files run out |
| AvroBuild.RunKeepsFiles | schema-lib/build.gradle.kts:57-98 | the loop ends; on normal exit every pending file was compiled exactly once; on the exception some are still pending and the others were compiled once |
| AvroBuild.RunStuck | schema-lib/build.gradle.kts:92-98 | on the exception the last pass, replayed, compiles nothing, and `failedFiles` names exactly the pending files |
| AvroBuild.RunCompilesAccepted | schema-lib/build.gradle.kts:61-84 | only files the parser and the compiler accepted are ever compiled |
| AvroBuild.RunKeepsTypes | schema-lib/build.gradle.kts:53-99 | `validTypes` survives from pass to pass: each compiled file's parse inputs and outputs are known at normal exit, or when the last pass began on the exception |
| AvroBuild.RunAllCompile | schema-lib/build.gradle.kts:57-98 | files that always compile are compiled by the first pass, in listing order, and the loop stops |
| AvroBuild.GenerateAvro | schema-lib/build.gradle.kts:51-99 | the loop ends. On normal exit every source was compiled exactly once. On the exception some files are pending, the last pass compiled nothing, and `failedFiles` names exactly the pending files. Only accepted files are compiled, and the types each compiled file was parsed from and defined are still known at the end, or when the last pass began; independent sources are all compiled by the first pass in listing order; a first pass that compiles nothing throws with every source pending. The task throws exactly when some pass it reaches, the first or a later one, compiles nothing while files remain, and then with that pass's pending files, failures and types |
| AvroBuild.ForwardReferenceResolvedOnRetry | schema-lib/build.gradle.kts:55-99 | a schema listed before the type it uses fails once, then compiles in the next pass, and its failure record is cleared |
| AvroBuild.ForgottenTypesExcluded | schema-lib/build.gradle.kts:66-73 | for the forward-reference example, the outcome of a loop that forgot `validTypes` (the item compiled with no type known) violates `GenerateAvro`'s contract |
| AvroBuild.CycleAfterProgressThrows | schema-lib/build.gradle.kts:55-98 | with an independent schema and two that need each other, the first pass compiles the independent one and the second nothing, so the task throws with the two cyclic files pending and recorded |
| AvroBuild.MutualReferenceThrows | schema-lib/build.gradle.kts:92-98 | two schemas that need each other make a pass that compiles nothing, with both failures recorded |

## Left out

- JDBC: SQL statements, connections and transactions are not modelled. A stage's inserts become rows appended to the store. A throwing `executeUpdate` is the `failAt` parameter.
- The rows a failing stage inserted before it threw are not modelled: the failing stage's tables stay empty.
- `HashMap` iteration order is not modelled. `editorGamesMap` keeps insertion order, and the published-id lists are sets.
- Floating point is not modelled. Prices are cents and versions are tenths, and `randomDouble` followed by `round` is one draw.
- Faker's generated text is not modelled: names, sentences and passwords are opaque words. `UUID.randomUUID()` is a fresh counter value.
- `DatabaseConfig` is a record of its values; file and environment reading are left out. `Config.Valid` asks every range to be one that `randomInt` accepts without its bound wrapping.
- Faker.RandomInt: asks for a non-empty range whose size is a positive `int`. Java also accepts a reversed range whose `max - min + 1` wraps round to a positive value, such as `min = 2^31 - 1, max = -2^31`, and then returns a wrapped result. That case is not modelled; `Faker.RandomIntBound` states exactly when the bound is positive.
- EditorLoader.LoadData: both stores are empty when the run starts, as they are when `clearTablesBeforeLoad` is true. With the flag false, the rows of earlier runs stay and the platform sync copies the old editors again. `Config.clearTables` is carried but not read.
- `DatabaseConnection` is not modelled; `Connect`, `Clear` and `Commit` are steps of the run that may fail.
- Logging and the per-stage counts printed in verbose mode are left out.
- The Avro parser and compiler, reached by reflection, are the `Tools` oracle. Deleting and recreating the output directory is left out.
- The platform sync's `INNER JOIN` on `game` is modelled as "some published game has that id". `game.id` is the primary key.
- The `SELECT` statements of the platform sync have no `ORDER BY`. `PlatformSync.SyncGames`, `PlatformSync.Select`, `PlatformSync.SyncDlcs` and `PlatformSync.SyncPatches` return rows in table (insertion) order, which the database does not promise; their membership contracts do not depend on it.
- PatchGenerator.GeneratePatchesForGame: the batch contract does not repeat the per-patch facts about the comment and the modification text; `GeneratePatch` states them for each patch.
- PatchGenerator.GeneratePatches: likewise, the comment and modification facts are stated per patch, not per batch.
- AvroBuild.Extension: only bare file names are modelled, without directory parts.
- The UI components, the Kafka producer and consumer examples and `settings.gradle.kts` are outside this model.

## Findings

| source | as written | input that shows it | evidently intended | confidence | as-written member | corrected member |
|---|---|---|---|---|---|---|
| database/DatabaseLoader/src/Main.java:54-83 | both `catch` blocks call `System.exit(1)`, which ends the process before the `finally` block runs, so `closeAll` never runs on a failure | an exception thrown by `editorDbLoader.loadData()` after the connection object exists (`failAt = Some(LoadEditor)`) | the connections are closed on every path that created them, as the `finally` block suggests | not executed | MainRun.FailedRunLeavesConnectionOpen | MainRun.RunClosing |
