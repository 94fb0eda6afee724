# Setup protocol, banded reads and delivery evidence: a verified model

This project models four parts of the repository and proves what they promise.

* **The crash-resumable setup** (`KeyDisk`, `StageCleanup`, `KeySettle`, `KeyConverge`, `KeyProvision`, `KeyHost`,
  `KeyList`, `Checkpoint`, `SetupTypes`, `SetupWorld`, `SetupFlow`, `SaveState`, `SetupLock`, `Paging`). The key
  directory is a map from names to inodes with hard links; every filesystem call can fail; the cloud key list of each
  pass is arbitrary.
  A setup run records the world after every step, and a crash is the choice of a recorded world to start the next run
  from, there or with the power lost. The class `SetupFlow.Flow` carries its invariants through every recorded world,
  so the method `ManyRuns` states them for every sequence of interrupted runs, and `ResumeAfterCrashes` that one run
  with good answers then completes the setup with the created key.
* **The banded read engine** (`ReadPlan`, `ReadPack`, `ReadEngine`): planning, packing and executing one read in
  bands returns what one open-ended read returns.
* **Delivery evidence** (`RowCheck`, `RowCheckFormula`, `ReceiptCursor`, `Postcondition`, `Confirmation`,
  `WriteEngine`): the check formula and its injective encoding, the receipt cursor against a full scan, the
  response-loss classifier against two-stage writes, the durable revisions, and the initialization guard.
* **Progress and the env file** (`Progress`, `EnvFile`): a tracker fed arbitrary events, and a printer and parser that
  undo each other.

Operations the source performs step by step are methods and classes, each proved against a specification function or
predicate; what the source promises is proved about those as lemmas.

## Where the code does not keep what its documentation says

Each of these is stated with the exact condition under which the promise holds.

* `planRowBands` plans a negative cell count when a proven extent ends before the row above the first row
  (`ReadPlan.OpenBandCells`, `ReadPlan.NegativeCellsWitness`).
* The setup lock's release can remove a directory another process made when the directory is removed from outside
  between a process's mkdir and its open (`SetupLock.ForeignReleaseExactly`, `SetupLock.RemovedWhileOpening`).
* A receipt inserted above another reader's cursor row is missed by that reader's band reads although the coverage gate
  of the probes holds. The next answer misses exactly the inserted receipts above the cursor row, so a writer may be
  one row behind the cursor and no more (`ReceiptCursor.InsertKeepsCoverage`, `ReceiptCursor.StaleInsertMisses`,
  `ReceiptCursor.MissedStaysMissed`, `ReceiptCursor.StaleInsertWitness`).
* A dispatch that reads a band of a tab over the memo ceiling exposes the band only, not the cumulative coverage; over a
  covered tab its answer is complete exactly when no band is read, the tab is within the ceiling, or no receipt lies
  above the cursor row. The coverage gate detects it (`ReceiptCursor.CoveredAnswers`, `ReceiptCursor.CeilingWitness`,
  `Postcondition.ProbeMatchesScan`).
* An effect that is called unapplied because a human put its row back is rejected by its redrive
  (`Postcondition.RevertedIsStuck`, `Postcondition.RedriveOfUnapplied`).
* A resume event can complete the current phase, whose own completion and every further start are then refused; it is
  left exactly by its failure, by a late failure of a phase, or by a reset (`Progress.CurrentCompleted`,
  `Progress.CompletedCurrentIsStuck`).
* A checkpoint whose directory sync fails is reported as failed, yet the next run finds it and acts on it. When a power
  loss then brings the older one back, a second project can be created (`SetupFlow.SecondProject`) and a permission the
  setup made can be recorded as reused (`SetupFlow.ShareForgotten`). These promises survive a power loss exactly when no
  such change was made under a checkpoint that is not synced (`SetupWorld.LossBreaksExactly`); one key create and one
  spreadsheet are the bound in any case (`SetupFlow.ManyRuns`).
* An empty spreadsheet title given programmatically writes checkpoints that do not load
  (`Checkpoint.RecordedLoads`); the command line refuses an empty value.
* A stale pool line that is indented survives a rewrite and is still read (`EnvFile.PoolPresent`,
  `EnvFile.IndentedPoolStays`).

## Model

| member | source | states |
|---|---|---|
| StageCleanup.CleanupKeeps | packages/library/cloud/cli/src/keyProvision.ts:1420-1700 | Whatever call fails and wherever the cleanup stops, every file that had a name still has one and its data is unchanged, in every state on the way |
| StageCleanup.CleanupSucceeds | packages/library/cloud/cli/src/keyProvision.ts:1405-1420 | With no failing call the cleanup succeeds exactly on directories with a regular final key and at most one of stage and quarantine, empty or holding only the final key's own hard link; then the final key is as before and neither directory is left |
| StageCleanup.SuccessIgnoresFaults | packages/library/cloud/cli/src/keyProvision.ts:1420-1700 | A cleanup that reports success met no failing call that mattered: it is the fault-free run |
| StageCleanup.CleanupSucceedsUnder | packages/library/cloud/cli/src/keyProvision.ts:1405-1700 | Under any failing calls a cleanup succeeds exactly on a cleanable directory when none of the calls it makes there fails |
| StageCleanup.RefusalRestores | packages/library/cloud/cli/src/keyProvision.ts:1554-1700 | A cleanup that is refused, or whose inspection or unlink fails, leaves the private directory under the stage name with its content |
| StageCleanup.CleanupConverges | packages/library/cloud/cli/src/keyProvision.ts:1405-1418 | From any state a failed or crashed cleanup leaves, a later cleanup ends in the same directory with the same verdict as one uninterrupted cleanup |
| StageCleanup.RestoredConverges | packages/library/cloud/cli/src/keyProvision.ts:1698-1714 | A quarantine moved back to the stage path is cleaned up like the quarantine it came from |
| KeySettle.PassKeeps | packages/library/cloud/cli/src/keyProvision.ts:596-782 | No state of a settlement pass loses or alters a named file: link, rename, unlink and rmdir never take the last name of a file |
| KeySettle.DecisionMatches | packages/library/cloud/cli/src/keyProvision.ts:640-780 | A decision to clean up or to install names a local key of this project and account that is listed and is the only key beyond the baseline |
| KeySettle.DecisionExactly | packages/library/cloud/cli/src/keyProvision.ts:640-862 | Exactly when a pass cleans up, installs, or finds no evidence, and when it waits: with one key of this setup in the directory that the list does not show yet and no new key in the list; all else is an obstacle |
| KeySettle.DecisionCodes | packages/library/cloud/cli/src/keyProvision.ts:918-950 | An obstacle is reported as uncertain exactly when a post-baseline key is listed or two different keys of this setup lie in the directory |
| KeySettle.PassAsksAgain | packages/library/cloud/cli/src/keyProvision.ts:596-907 | Exactly when a pass under any failing calls asks to try again, with which code it would give up, and that asking again changes nothing; an unlisted or unsafe stage fails with its own code |
| KeySettle.PassSucceedsUnder | packages/library/cloud/cli/src/keyProvision.ts:596-907 | A pass succeeds exactly over a readable list on a settleable directory when none of the calls that takes fails |
| KeySettle.PassOkMeaning | packages/library/cloud/cli/src/keyProvision.ts:596-907 | A pass reports success only over a settled directory: the key path holds a matching, listed key, no other post-baseline key is listed, stage and cleanup directories are gone, and the reuse verdict says whether the key was in the baseline |
| KeySettle.PassSucceeds | packages/library/cloud/cli/src/keyProvision.ts:596-907 | With no failing call a pass succeeds exactly when the directory holds one usable copy of a matching key and nothing the cleanup would refuse |
| KeySettle.InstallOkMeaning | packages/library/cloud/cli/src/keyProvision.ts:715-782 | A successful install leaves at the key path what was staged |
| KeyConverge.AttemptsKeep | packages/library/cloud/cli/src/keyProvision.ts:1389-1418 | Over any sequence of interrupted passes, with any key lists and any failing calls, no named file is lost or altered |
| KeyConverge.AttemptsConverge | packages/library/cloud/cli/src/keyProvision.ts:1405-1418 | Once a matching key is staged or installed, any number of interrupted passes followed by one uninterrupted pass that sees it listed succeeds and ends as that pass alone would have: the final key only, no stage and no cleanup directory |
| KeyConverge.FreshKeyInstallable | packages/library/cloud/cli/src/keyProvision.ts:864-901 | A key the create wrote into the empty stage is installable as soon as it is listed |
| KeyProvision.CreatesOnce | packages/library/cloud/cli/src/keyProvision.ts:469-566 | A settlement issues at most one key create, only with fresh permission, and only when no key file and no post-baseline key is visible |
| KeyProvision.ChecksNeverCreate | packages/library/cloud/cli/src/keyProvision.ts:499-565 | The evidence checks, and so every reconciling settlement, never create |
| KeyProvision.SettleKeeps | packages/library/cloud/cli/src/keyProvision.ts:469-907 | No state of a whole settlement, create included, loses or alters a named file |
| KeyProvision.SettleOkMeaning | packages/library/cloud/cli/src/keyProvision.ts:453-459 | A successful settlement leaves the key directory settled with respect to the list its last pass saw |
| KeyProvision.SettleBounded | packages/library/cloud/cli/src/keyProvision.ts:315-325 | At most eight numbered evidence checks with the fixed waits between them, whose sum is fixed by the last check; 120 seconds exactly when every check asked again |
| KeyProvision.FirstDecides | packages/library/cloud/cli/src/keyProvision.ts:512-565 | All checks look at the same directory: the first that does not ask to try again, or the eighth, decides the settlement, and only it changes anything |
| KeyProvision.SettlesWhenListed | packages/library/cloud/cli/src/keyProvision.ts:512-565 | A staged or installed key that is not listed yet is waited for, and the settlement ends with it at the check that first lists it, for every number up to eight |
| KeyProvision.SettlesCreated | packages/library/cloud/cli/src/keyProvision.ts:469-566 | A fresh create that wrote a key of this setup ends with that key at the check that first lists it, having created once |
| KeyProvision.CreatesExactly | packages/library/cloud/cli/src/keyProvision.ts:840-902 | A create is issued exactly with fresh permission, over a list without a new key and a directory without any key, into a stage that can be prepared and verified |
| KeyProvision.CreatedKeyRecovered | packages/library/cloud/cli/src/keyProvision.ts:469-907 | From any state after the create wrote its key, through the rest of that run and any interrupted passes after it, an uninterrupted pass that sees the key listed ends with exactly that key at the key path |
| KeyHost.Host.FinishQuarantine | packages/library/cloud/cli/src/keyProvision.ts:1554-1700 | The step-by-step work on the quarantine does what its specification says, state by state |
| KeyHost.Host.CleanupStage | packages/library/cloud/cli/src/keyProvision.ts:1420-1700 | The step-by-step cleanup goes through exactly the specified states and returns the specified verdict |
| KeyHost.Host.InstallAndClean | packages/library/cloud/cli/src/keyProvision.ts:727-781 | Recheck, link, verify and clean up, as specified |
| KeyHost.Host.CreateKey | packages/library/cloud/cli/src/keyProvision.ts:862-902 | Prepare, re-verify and spawn, as specified; the create counter moves with the spawn |
| KeyHost.Host.RunPass | packages/library/cloud/cli/src/keyProvision.ts:596-907 | A pass run against the directory does what its specification says |
| KeyHost.Host.Poll | packages/library/cloud/cli/src/keyProvision.ts:512-565 | The polling loop makes exactly the specified checks, waits and reports and returns the specified outcome |
| KeyHost.Host.SettleServiceAccountKey | packages/library/cloud/cli/src/keyProvision.ts:469-566 | The settlement run against the directory has the specified outcome, creates, reports and states |
| KeyList.ResourceNameSplits | packages/library/cloud/cli/src/checkpoint.ts:902-912 | A name built from a project, an account and a key id splits back into them and is recognised |
| KeyList.NormalizeCanonical | packages/library/cloud/cli/src/keyProvision.ts:246-264 | Normalizing a line gives a canonical name of this project and account, and normalizing that changes nothing |
| KeyList.KeyIdExactly | packages/library/cloud/cli/src/checkpoint.ts:186-186 | A key id has 16 to 40 hexadecimal digits of either case |
| KeyList.CaseIgnored | packages/library/cloud/cli/src/keyProvision.ts:246-264 | Key ids that differ in letter case normalise to one name, which has no capitals in its id |
| KeyList.ShapesAgree | packages/library/cloud/cli/src/keyProvision.ts:224-244 | The full resource name and the bare id of one key normalize to the same name |
| KeyList.SortDistinctMeaning | packages/library/cloud/cli/src/keyProvision.ts:219-219 | Deduplicating and sorting gives a strictly increasing list of the same names |
| KeyList.SortedUnique | packages/library/cloud/cli/src/keyProvision.ts:219-219 | There is only one strictly increasing list of the same names, so how it is sorted does not matter |
| KeyList.ParseUserManagedKeyList | packages/library/cloud/cli/src/keyProvision.ts:202-220 | The list is refused exactly when some nonblank line is neither shape, and is otherwise the sorted list of exactly the keys some line lists |
| KeyList.CheckKeyBaseline | packages/library/cloud/cli/src/checkpoint.ts:872-888 | Comparing neighbours accepts exactly the baselines that are strictly increasing throughout and hold only names of this project and account |
| KeyList.ListIsBaseline | packages/library/cloud/cli/src/keyProvision.ts:190-201 | Every list that can be read is a valid stored baseline |
| Checkpoint.LoadsBack | packages/library/cloud/cli/src/checkpoint.ts:627-804 | Every valid state is accepted when its record is loaded and loads back equal |
| Checkpoint.AcceptedIsLossless | packages/library/cloud/cli/src/checkpoint.ts:627-804 | An accepted payload carries exactly the known fields of the state it is promoted to, contradictory fields included in none; promoting what was promoted changes nothing |
| Checkpoint.LoadsExactly | packages/library/cloud/cli/src/checkpoint.ts:627-804 | A state loads back equal exactly when it is valid |
| Checkpoint.RecordedLoads | packages/library/cloud/cli/src/setupFlow.ts:2041-2201 | In every world a run records, whatever status, key list and answers led there, the stored checkpoint loads back equal exactly when the given title is not the empty string, and tells the next run exactly what the flow recorded |
| Checkpoint.ResumeKeepsCommon | packages/library/cloud/cli/src/setupFlow.ts:2041-2201 | A resumed run with the options of the first stores the same common fields, and takes a title that is not given again from the checkpoint |
| Checkpoint.PoolCarries | packages/library/cloud/cli/src/checkpoint.ts:821-855 | An accepted pool says entry by entry what the payload says, starts with the primary account, and every email in it is canonical |
| SetupTypes.GcpNameExactly | packages/library/cloud/cli/src/checkpoint.ts:212-241 | Project and account names have 6 to 30 lower-case letters, digits and hyphens, start with a letter and do not end with a hyphen |
| Checkpoint.PoolGrows | packages/library/cloud/cli/src/checkpoint.ts:821-855 | The pool of the primary account is valid and stays valid with every account added |
| SetupFlow.Flow.Persist | packages/library/cloud/cli/src/setupFlow.ts:2457-2470 | A saved checkpoint is there for good; a failed write leaves the old one, or puts the new one where the next run finds it and a power loss takes it back |
| SetupFlow.Flow.InspectKey | packages/library/cloud/cli/src/setupFlow.ts:795-875 | The key found at the start matches the checkpoint or the requested project, or is absent before the key phase, or is left to reconciliation |
| SetupFlow.Flow.SelectProject | packages/library/cloud/cli/src/setupFlow.ts:876-975 | The project is decided and recorded before a create is issued for it, selected, and its services enabled; a later status skips the phase |
| SetupFlow.Flow.DecideProject | packages/library/cloud/cli/src/setupFlow.ts:876-975 | Outcome and world of the project decision for every answer: an explicit project has to be found, a new decision is recorded first, and a generated project is created exactly when it is new or known to be missing |
| SetupFlow.Flow.Admit | packages/library/cloud/cli/src/setupFlow.ts:780-875 | A run is refused as a conflict or as invalid exactly for options or a key file that do not go with the checkpoint |
| SetupFlow.Flow.CreateOnce | packages/library/cloud/cli/src/keyProvision.ts:862-902 | The pass that may create records the create between the prepared stage and what it wrote |
| SetupFlow.Flow.SettleKey | packages/library/cloud/cli/src/setupFlow.ts:1065-1135 | The settlement inside a run is run on the host and has the outcome, directory and create count of `KeyProvision.Settle` |
| SetupFlow.Flow.SecureKey | packages/library/cloud/cli/src/setupFlow.ts:1065-1172 | The key phase keeps every invariant in every recorded state, never creates on a resume or over a found key, and with good answers completes |
| SetupFlow.Flow.SettleMatches | packages/library/cloud/cli/src/setupFlow.ts:2375-2436 | Exactly one intact match is promoted; everything else leaves the checkpoint untouched and uncertain |
| SetupFlow.Flow.Reconcile | packages/library/cloud/cli/src/setupFlow.ts:2289-2366 | Reconciling by marker never creates; a listing that breaks off neither promotes nor rolls back; a rejected create with a whole listing goes back to `key_ready`; promotion happens exactly when the listing shows the one file intact and the checkpoint is saved |
| SetupFlow.Flow.FindByMarker | packages/library/cloud/cli/src/sheetsFactory.ts:644-675 | The files that carry the marker are found exactly when the whole listing is read, and are the one file of the setup exactly when the listing shows it once and intact |
| SetupFlow.Flow.CreateSheet | packages/library/cloud/cli/src/setupFlow.ts:1222-1250 | The marker is recorded before the one create attempt; a lost reply is reconciled, not retried |
| SetupFlow.Flow.SecureSheet | packages/library/cloud/cli/src/setupFlow.ts:1174-1254 | A spreadsheet status resumes by id or by marker and creates nothing |
| SetupFlow.Flow.Ensure | packages/library/cloud/cli/src/setupFlow.ts:1305-1352 | The share provenance is fresh whenever this attempt or an earlier one may have made the permission |
| SetupFlow.Flow.ShareSheet | packages/library/cloud/cli/src/setupFlow.ts:1258-1356 | The share is recorded ahead of the permission change, and a shared status keeps its recorded provenance |
| SetupFlow.Flow.Finish | packages/library/cloud/cli/src/setupFlow.ts:1358-1482 | Success means a complete checkpoint and an environment file that both name the one spreadsheet |
| SetupFlow.Flow.RunSetupLocked | packages/library/cloud/cli/src/setupFlow.ts:756-1482 | Every state a run records is consistent and follows from the one before by an allowed step; success means completion; a run in which every answer its branch asks for is good, over a state that lost nothing, succeeds; a resumed create is never repeated |
| SetupFlow.Flow.RunSetup | packages/library/cloud/cli/src/setupFlow.ts:636-745 | From every checkpoint and with any answers the tracker accepts every phase a run reports, a run that succeeds leaves the bar at ten of ten, a failing preflight changes nothing, and every stop has its own cause among the answers |
| SetupFlow.Flow.SettleStarted | packages/library/cloud/cli/src/setupFlow.ts:1065-1135 | A settled key is this project's and account's, with the reuse verdict of the recorded baseline |
| SetupFlow.Flow.DeliverSheet | packages/library/cloud/cli/src/setupFlow.ts:1174-1482 | The phases behind the key touch no key, complete with good answers, and create nothing on a spreadsheet status |
| SetupFlow.ReconcileSucceeds | packages/library/cloud/cli/src/keyProvision.ts:469-566 | A reconciling settlement that sees a settleable key listed at any of its checks succeeds |
| SetupFlow.CreateSucceeds | packages/library/cloud/cli/src/keyProvision.ts:469-566 | A fresh settlement whose created key is listed at any of its checks succeeds |
| SetupFlow.MoveStage | packages/library/cloud/cli/src/setupFlow.ts:1196-1482 | Each checkpoint write of the spreadsheet, share and output phases keeps the invariants, given what it waits for |
| SetupFlow.KeyReadyConsistent | packages/library/cloud/cli/src/setupFlow.ts:1136-1169 | At `key_ready` the recorded origin is created exactly when the key was not in the baseline, and the key at the key path is the one the create wrote |
| SetupFlow.ManyRuns | packages/library/cloud/cli/src/setupFlow.ts:756-1482 | Over any number of runs, each cut off anywhere, with lost replies, failed writes, lagging lists and power losses: at most one key create and one spreadsheet, and the origin of the created key as recorded; as long as no power loss takes back the record of a remote change only the decided project is created and an own permission is recorded as fresh; without power loss status, ids and origins only move forward, but from create-started to key-ready with nothing created |
| SetupFlow.ResumeAfterCrashes | packages/library/cloud/cli/src/setupFlow.ts:636-1482 | After any number of interrupted runs, once a create has written its key, one run with good answers that sees the key listed completes the setup, no run creates a second key, and the key path then holds exactly the written key, recorded as created unless the baseline had listed its name |
| SetupFlow.RejectedThenDelivered | packages/library/cloud/cli/src/setupFlow.ts:2289-2366 | A rejected spreadsheet create is taken back to `key_ready`, and one run with good answers after it creates the spreadsheet and completes |
| SetupFlow.VouchedIsDone | packages/library/cloud/cli/src/setupFlow.ts:285-310 | A checkpoint vouches for exactly the phases whose status it has passed, and what it vouches for is there in every consistent world |
| SetupFlow.CreatedIsRecorded | packages/library/cloud/cli/src/setupFlow.ts:1136-1169 | From `key_ready` on, in every consistent world, a key of this setup that a create wrote is the key at the key path, and the origin is created exactly when the baseline did not list its name |
| SetupFlow.SettledIsWritten | packages/library/cloud/cli/src/keyProvision.ts:469-566 | The key a settlement leaves at the key path is the one the create wrote |
| SetupFlow.NothingToSettle | packages/library/cloud/cli/src/setupFlow.ts:1065-1135 | Under a checkpoint that was never synced no key is staged, and a settlement moves nothing |
| SetupFlow.SecondProject | packages/library/cloud/cli/src/setupFlow.ts:925-945 | A run whose checkpoint was found but not synced, a run that creates its project, a power loss and a run that creates another |
| SetupFlow.ShareForgotten | packages/library/cloud/cli/src/setupFlow.ts:1258-1356 | A share recorded but not synced, a run that makes the permission, a power loss and a run that records the permission as reused |
| SetupWorld.LossConsistent | packages/library/cloud/cli/src/checkpoint.ts:1060-1068 | After a power loss that takes back every checkpoint whose directory entry was not synced, the world is one a run may start from |
| SetupWorld.LossBreaksExactly | packages/library/cloud/cli/src/checkpoint.ts:1060-1068 | The project and share promises survive a power loss exactly when no project was created, no permission made and no environment file written under a checkpoint that is not synced |
| SetupFlow.CreatedKeyCompletes | packages/library/cloud/cli/src/keyProvision.ts:469-566 | In every consistent world in which a create has written its key, good answers make a clean run |
| SetupFlow.ChecksRecoverable | packages/library/cloud/cli/src/keyProvision.ts:512-565 | Every state of the evidence checks still settles on the written key for every list that shows it |
| SetupFlow.ChainFollows | packages/library/cloud/cli/src/setupFlow.ts:756-1482 | What single steps allow, any number of steps allows: status, ids, origins, creates and permissions only move forward |
| SetupFlow.FirstWorldConsistent | packages/library/cloud/cli/src/setupFlow.ts:756-800 | The world before the first run satisfies the invariants |
| Paging.ListAll | packages/library/cloud/cli/src/sheetsFactory.ts:644-675 | For any server the listing stops within 50 calls, and succeeds exactly when following the tokens reads a whole listing within them, with the items of all pages in order |
| Paging.ReadsOnce | packages/library/cloud/cli/src/sheetsFactory.ts:644-675 | Only one number of calls can read a whole listing |
| Paging.HonestListing | packages/library/cloud/cli/src/sheetsFactory.ts:626-643 | From an honest server every listing of up to fifty pages comes back whole, nothing lost, repeated or reordered |
| Paging.PlanMeaning | packages/library/cloud/cli/src/sheetsFactory.ts:394-406 | Reuse means the account can write, upgrade means it cannot and names its permission, create means it has none |
| Paging.SharedFile.EnsureSaWriter | packages/library/cloud/cli/src/sheetsFactory.ts:695-724 | Afterwards the account can write, the outcome says whether this call made it so, and no other permission changes; a listing beyond the page limit changes nothing, and a change that fails is reported as failed whether it was applied or not |
| SaveState.Saver.WriteAll | packages/library/cloud/cli/src/setupPaths.ts:135-152 | The write loop ends for every sequence of reported counts and succeeds exactly when they add up to the content, which is then all there |
| SaveState.Saver.RemoveOwnedTemp | packages/library/cloud/cli/src/checkpoint.ts:1095-1103 | Only an entry that still leads to the inode this save made is unlinked |
| SaveState.Saver.Prepare | packages/library/cloud/cli/src/checkpoint.ts:980-1050 | Up to the rename nothing touches the checkpoint's file; it stops at the first obstacle and at nothing else, and then the temp name leads to the whole, synced content; a temp of its own is removed on failure unless its identity could not be read |
| SaveState.Saver.Save | packages/library/cloud/cli/src/checkpoint.ts:980-1068 | At every moment a power loss leaves the old outcome or exactly the new content; the result is given by the first obstacle, and without one the save succeeds and is durable; every failure but that of the directory sync leaves the old; nothing but the own inode is unlinked |
| SaveState.ObstacleMeaning | packages/library/cloud/cli/src/checkpoint.ts:980-1050 | No obstacle means a free temp name, no failing call, writes that add up and a temp name that still leads to the written file; each failure has its own cause |
| SaveState.RenamedHolds | packages/library/cloud/cli/src/checkpoint.ts:1052-1067 | Between rename and directory sync the path leads to the old or the new file, both whole; after it only to the new |
| SaveState.DurableFound | packages/library/cloud/cli/src/checkpoint.ts:1060-1066 | Over a durable file the old outcome is exactly its content |
| SetupLock.ReleaseRemovesOwn | packages/library/cloud/cli/src/checkpoint.ts:1367-1475 | After any interleaving with inode reuse, deaths, and outside removals at any time but between a process's mkdir and its open, a release removes only the directory its own acquisition made |
| SetupLock.ReleasedStaysReleased | packages/library/cloud/cli/src/checkpoint.ts:1341-1346 | A released token never resolves again: repeated and stale releases change nothing |
| SetupLock.RemovedWhileOpening | packages/library/cloud/cli/src/checkpoint.ts:1280-1325 | A concrete interleaving, with an outside removal between mkdir and open, in which a release removes another process's directory |
| SetupLock.ForeignReleaseExactly | packages/library/cloud/cli/src/checkpoint.ts:1280-1475 | With outsiders at any time a release removes another process's directory exactly when its acquisition holds it, and it comes to hold it exactly when its open found it in place of its own |
| SetupLock.AcquireAndRelease | packages/library/cloud/cli/src/checkpoint.ts:1280-1475 | A process that meets no other gets the free lock, and its release frees the path and forgets the token |
| SetupLock.AtMostOneHolder | packages/library/cloud/cli/src/checkpoint.ts:1256-1280 | Cooperating processes never have two holders, whatever the interleaving and whichever calls fail |
| SetupLock.SetupLocks.AcquireSetupLock | packages/library/cloud/cli/src/checkpoint.ts:1280-1325 | Held exactly on a free path with no failing call; busy on any present entry, which is left alone; a directory that cannot be opened is removed again |
| SetupLock.SetupLocks.ReleaseSetupLock | packages/library/cloud/cli/src/checkpoint.ts:1367-1475 | A release is one step of the interleaved model: it drops the token and removes the path only on a match |
| Progress.RunKeeps | packages/library/cloud/cli/src/setupProgress.ts:394-720 | For every sequence of inputs operations and retries belong to the current phase, the count never decreases, is ten exactly when output is completed, and a finished pool implies that |
| Progress.CountMeaning | packages/library/cloud/cli/src/setupProgress.ts:412-419 | The completed count is the number of completed phases, and ten exactly with the output phase |
| Progress.IgnoredChangesNothing | packages/library/cloud/cli/src/setupProgress.ts:541-546 | A rejected input changes nothing |
| Progress.OperationsPair | packages/library/cloud/cli/src/setupProgress.ts:620-672 | An operation is completed by exactly the event that matches its phase, label and check, and a check shows as the active retry |
| Progress.AcceptedExactly | packages/library/cloud/cli/src/setupProgress.ts:546-720 | Exactly which events are accepted, by the phase list, the phase under way, and the bounded checks |
| Progress.ShownAfter | packages/library/cloud/cli/src/setupProgress.ts:546-720 | What every accepted event changes of bar, phase, operation, retry and failure, and what it leaves |
| Progress.PhasesInOrder | packages/library/cloud/cli/src/setupProgress.ts:512-619 | A phase starts only when nothing is under way and all before it is done, and completes at most once, counted unless it is the pool |
| Progress.CurrentCompleted | packages/library/cloud/cli/src/setupProgress.ts:548-558 | The current phase becomes a completed one exactly through a resume event that lists it |
| Progress.CompletedCurrentIsStuck | packages/library/cloud/cli/src/setupProgress.ts:560-620 | A completed current phase is left exactly by its own failure, by a late failure of a known phase or by a reset; its completion and every start are refused |
| Progress.ScheduleAccepted | packages/library/cloud/cli/src/setupProgress.ts:760-802 | While the key phase is current every report of a settlement's checks and waits is accepted and the phase stays current |
| Progress.SettleReportsAccepted | packages/library/cloud/cli/src/keyProvision.ts:469-566 | The reports of any settlement, fresh or reconciling, are all accepted |
| Progress.ResumeSkips | packages/library/cloud/cli/src/setupProgress.ts:548-558 | Behind the first two phases the resume report of a checkpoint stands in for exactly the phases it vouches for |
| Progress.TenReached | packages/library/cloud/cli/src/setupProgress.ts:412-419 | Ten phases reached in order are all of them, counted ten |
| Progress.SetupProgressTracker.CompletePhase | packages/library/cloud/cli/src/setupProgress.ts:574-619 | Completing a phase on the tracker's fields does what the specified step says |
| Progress.SetupProgressTracker.ResetInProgress | packages/library/cloud/cli/src/setupProgress.ts:453-470 | The reset before a login retry forgets what is under way and keeps what is completed |
| Progress.SetupProgressTracker.LatePhaseFailure | packages/library/cloud/cli/src/setupProgress.ts:472-492 | A late failure is recorded exactly for a known phase and a stable code, and clears what is under way |
| Progress.SetupProgressTracker.Apply | packages/library/cloud/cli/src/setupProgress.ts:546-720 | Applying an event to the tracker's fields is the specified step and keeps the invariants |
| EnvFile.ParseEnvFileContent | packages/mcp/src/env.ts:28-41 | The parsing loop computes the lines' assignments, later over earlier |
| EnvFile.AssignmentParses | packages/mcp/src/env.ts:28-52 | A written assignment parses to its key and its trimmed, unquoted value |
| EnvFile.SpacedAssignmentParses | packages/mcp/src/env.ts:25-53 | White space before a key and between it and the equals sign is no part of it |
| EnvFile.NothingAssigned | packages/mcp/src/env.ts:25-53 | Blank lines, comments, lines without an equals sign and lines without a key assign nothing |
| EnvFile.UnquoteMeaning | packages/mcp/src/env.ts:43-53 | Unquoting takes off exactly one matching pair of quotes and nothing else |
| EnvFile.KeepsUnmanaged | packages/library/cloud/cli/src/envFileWriter.ts:110-124 | Rewriting keeps every unmanaged line in order and no other line of the file |
| EnvFile.LastRewriteWins | packages/library/cloud/cli/src/envFileWriter.ts:110-134 | A second rewrite makes the first unseen; repeating a rewrite changes nothing and writes nothing |
| EnvFile.UnmanagedKeysKept | packages/library/cloud/cli/src/envFileWriter.ts:54-60 | Dropping the managed lines changes nothing the file says about other keys |
| EnvFile.ReadsBack | packages/library/cloud/cli/src/envFileWriter.ts:110-124 | Reading the rewritten file gives each managed value exactly when it has no outer white space or quotes, and every other key as before, whatever the file contained |
| EnvFile.PoolPresent | packages/library/cloud/cli/src/envFileWriter.ts:79-87 | The pool key reads as present exactly when a pool was written or an unmanaged line assigns it |
| EnvFile.IndentedPoolStays | packages/library/cloud/cli/src/envFileWriter.ts:54-60 | An indented pool assignment is not a managed line, yet the parser reads it |
| EnvFile.LoadEnv | packages/mcp/src/env.ts:70-86 | Set variables win, every other name of the file gets the file's value, nothing else changes, and the counts agree |
| ReadPlan.ReadCalibration.Observe | packages/protocol/ikisaki/src/bands/readPlan.ts:113-128 | One observation moves only its own class, never down, to the clamped value |
| ReadPlan.CalibrationBounds | packages/protocol/ikisaki/src/bands/readPlan.ts:107-128 | After any observations the ratio is within 1 and 20, not below its start, and at or above every sample seen up to the cap |
| ReadPlan.CalibrationAttained | packages/protocol/ikisaki/src/bands/readPlan.ts:107-128 | The ratio is its start or what one of its samples asks for, and so exactly the largest of them |
| ReadPlan.CapMeaning | packages/protocol/ikisaki/src/bands/readPlan.ts:139-152 | The integer row cap is exactly the cell cap and the byte target together |
| ReadPlan.CapAtLeast333 | packages/protocol/ikisaki/src/bands/readPlan.ts:139-152 | 333 cells fit under both caps at every reachable calibration of every class |
| ReadPlan.RowsPerBandMeaning | packages/protocol/ikisaki/src/bands/readPlan.ts:139-152 | A band takes as many rows as both caps allow, no fewer, and one row in any case |
| ReadPlan.PlannedSizes | packages/protocol/ikisaki/src/bands/readPlan.ts:40-60 | The limits at work: rows per band of every class at the start, and the ratio after one sample |
| ReadPlan.PlanRowBands | packages/protocol/ikisaki/src/bands/readPlan.ts:193-225 | The planning loop produces the bands of the span, or the one open band without a usable bound |
| ReadPlan.BandsContiguous | packages/protocol/ikisaki/src/bands/readPlan.ts:206-224 | Bands follow one another without gap or overlap from the first row to the proven extent, or to the open end without one |
| ReadPlan.BandsTotal | packages/protocol/ikisaki/src/bands/readPlan.ts:206-224 | Planned cells add up to the rows of the span times the columns |
| ReadPlan.BandsWithinCaps | packages/protocol/ikisaki/src/bands/readPlan.ts:139-152 | Every band stays within both caps exactly when one row does, and so always up to 333 columns |
| ReadPlan.OpenBandCells | packages/protocol/ikisaki/src/bands/readPlan.ts:196-205 | The planned cell count is negative exactly when the proven extent ends before the row above the first although the bound reaches it |
| ReadPlan.NegativeCellsWitness | packages/protocol/ikisaki/src/bands/readPlan.ts:196-205 | A concrete plan whose open band counts minus two cells |
| ReadPack.PackReadRequests | packages/protocol/ikisaki/src/bands/readPlan.ts:235-259 | The packing loop keeps every item once and in order, and every request is feasible |
| ReadPack.FitsAtTheLimits | packages/protocol/ikisaki/src/bands/readPlan.ts:235-259 | Bands share a request up to forty ranges and five million estimated bytes, and not beyond |
| ReadPack.PackOptimal | packages/protocol/ikisaki/src/bands/readPlan.ts:235-259 | For non-negative costs no order-preserving feasible packing uses fewer requests |
| ReadPack.GreedyNeedsFewest | packages/protocol/ikisaki/src/bands/readPlan.ts:235-259 | Greedy stays ahead of every feasible packing at every point of the loop |
| ReadEngine.Execute | packages/protocol/ikisaki/src/bands/readEngine.ts:56-94 | The executor loop reassembles the replies in order, skips empty requests, and recalibrates once per measured reply |
| ReadEngine.SplitInvariant | packages/protocol/ikisaki/src/bands/readEngine.ts:56-94 | Any split of the ranges into requests reassembles what one request for all of them returns |
| ReadEngine.LastSeenWins | packages/protocol/ikisaki/src/bands/readEngine.ts:72-78 | Of several sheets with one key the last seen wins |
| ReadEngine.FirstSeenOrder | packages/protocol/ikisaki/src/bands/readEngine.ts:72-77 | A sheet seen again keeps its place in the list, and a new one comes last |
| ReadEngine.CountsSent | packages/protocol/ikisaki/src/bands/readEngine.ts:67-92 | Every request that is not empty is sent and counted once, and the bytes are the sum of the measured samples |
| ReadEngine.RowsRead | packages/protocol/ikisaki/src/bands/readEngine.ts:56-94 | Reading a range gives exactly its rows, numbered, in order, each once |
| ReadEngine.BandedReadRefinesOpenRead | packages/protocol/ikisaki/src/bands/readEngine.ts:56-94 | Over an unchanged sheet a banded read returns the rows of one open-ended read per plan, same rows, same order, each once, for every bound, calibration, column span and split |
| ReadEngine.ReadSpan | packages/protocol/ikisaki/src/bands/readPlan.ts:193-259 | Planning, packing and executing one span returns exactly the numbered rows from the first row to a proven extent, or all there are without one, in order and each once |
| RowCheck.ComputeRowCheckValue | packages/library/core/contracts/src/sheets/rowCheck.ts:129-137 | The host's check string exists exactly when every column is derivable, and joins the rendered tokens |
| RowCheck.DecodeInverts | packages/library/core/contracts/src/sheets/rowCheck.ts:57-137 | A decoder gives back every column's tag and text from the check string, whatever the texts hold |
| RowCheck.RowCheckInjective | packages/library/core/contracts/src/sheets/rowCheck.ts:57-137 | Two rows have the same check string exactly when every column shows the same tag and text |
| RowCheckFormula.LettersAddressColumn | packages/library/core/contracts/src/sheets/googleSheetsApi.ts:433-442 | The letters of a column address that column, so no two columns share letters |
| RowCheckFormula.ColumnLetters | packages/library/core/contracts/src/sheets/googleSheetsApi.ts:433-442 | The letters loop computes the letters of the column |
| RowCheckFormula.FormulaReads | packages/protocol/ikisaki/src/evidence/rowCheckFormula.ts:57-85 | Printing an expression of the formula language and reading it back are inverse |
| RowCheckFormula.BuildRowCheckFormula | packages/protocol/ikisaki/src/evidence/rowCheckFormula.ts:57-73 | The emitted text is the printed formula of the row, and a lone equals sign for an empty span |
| RowCheckFormula.FormulaMeaning | packages/protocol/ikisaki/src/evidence/rowCheckFormula.ts:57-85 | The emitted text, read as a formula and evaluated over a row, shows the row's length-prefixed tokens |
| RowCheckFormula.CheckDetectsEdits | packages/protocol/ikisaki/src/evidence/rowCheckFormula.ts:20-56 | The formula shows the string the host computes, and shows the same over two contents exactly when every column has the same tag and text |
| RowCheckFormula.ErrorsPropagate | packages/protocol/ikisaki/src/evidence/rowCheckFormula.ts:57-85 | An error in any column makes the whole check an error |
| ReceiptCursor.InsertKeepsCoverage | packages/library/cloud/sheets/src/sheets/providers/google-sheets-api/model/batchBuilder.ts:720-728 | An insertion keeps another reader's coverage, and its next band read complete, exactly when no inserted receipt lands above that reader's cursor row; with a receipt first that is when the writer's read was at most one row behind the cursor |
| ReceiptCursor.CoversExactly | packages/protocol/ikisaki/src/evidence/receiptCursor.ts:22-35 | Over a memo that says nothing wrong, memo and band together are the scan of the whole tab exactly when the memo holds every row above the cursor row |
| ReceiptCursor.StaleInsertMisses | packages/library/cloud/sheets/src/sheets/providers/google-sheets-api/model/batchBuilder.ts:720-728 | The band read after an insertion misses exactly the inserted receipts above the cursor row, and so none exactly when there are none |
| ReceiptCursor.MissedStaysMissed | packages/library/cloud/sheets/src/sheets/providers/google-sheets-api/model/preflightContext.ts:540-610 | A receipt above the cursor that the memo does not hold is missed by every later band read, and stays above the cursor and out of the memo while the cursor lives |
| ReceiptCursor.StaleInsertWitness | packages/library/cloud/sheets/src/sheets/providers/google-sheets-api/model/batchBuilder.ts:720-728 | Two receipts read, a third inserted by a writer that had seen an empty tab: the coverage gate holds and the third is not in the answer |
| ReceiptCursor.ReadReceipts | packages/library/cloud/sheets/src/sheets/providers/google-sheets-api/model/preflightContext.ts:849-903 | A read parses exactly the legal tabs, and its map is the scan of the rows |
| ReceiptCursor.ReceiptReadCursor.AdvanceTo | packages/protocol/ikisaki/src/evidence/receiptCursor.ts:97-101 | The cursor only moves forward |
| ReceiptCursor.ReceiptReadCursor.MergeParsed | packages/protocol/ikisaki/src/evidence/receiptCursor.ts:110-125 | A merge succeeds exactly when nothing contradicts the memo, and then adds the whole read |
| ReceiptCursor.ReceiptReadCursor.Fetch | packages/library/cloud/sheets/src/sheets/providers/google-sheets-api/model/preflightContext.ts:528-588 | Over a legal tab the band is read exactly when there is a cursor, the memo is below its ceiling, the range is not rejected, the sentinel row holds a receipt and no key gap shows; it parses exactly when what it reads is well formed and names no effect twice; the cursor and memo are dropped exactly on a full memo, a rejected range or a lost sentinel |
| ReceiptCursor.ReceiptReadCursor.Dispatch | packages/library/cloud/sheets/src/sheets/providers/google-sheets-api/model/preflightContext.ts:511-610 | Over a legal tab the memo agrees with, what a dispatch reads, answers and leaves is given by what is known before the call: memo and read together, or the read alone with cursor and memo dropped once they are over the ceiling; it refuses exactly on a malformed read, a repeated effect or evidence that contradicts the memo |
| ReceiptCursor.ReadsWholeTab | packages/library/cloud/sheets/src/sheets/providers/google-sheets-api/model/preflightContext.ts:511-588 | A dispatch answers with the scan of the whole tab without a cursor, with a full memo, a rejected range, a lost sentinel or a key gap, and reads the band in every other case |
| ReceiptCursor.BandAloneComplete | packages/library/cloud/sheets/src/sheets/providers/google-sheets-api/model/preflightContext.ts:597-601 | A band alone is the scan of the whole tab exactly when no receipt lies above the cursor row |
| ReceiptCursor.AnswersScanExactly | packages/library/cloud/sheets/src/sheets/providers/google-sheets-api/model/preflightContext.ts:511-610 | Whatever the memo covers, the answer is the scan exactly when the whole tab is read, or the ceiling is kept and the memo covers the tab, or it is broken and nothing lies above the cursor row |
| ReceiptCursor.CoveredAnswers | packages/library/cloud/sheets/src/sheets/providers/google-sheets-api/model/preflightContext.ts:589-608 | Over a covered tab the answer is the scan exactly when no band is read, the tab is within the ceiling, or no receipt lies above the cursor row; the coverage gate implies it, and coverage is kept |
| ReceiptCursor.CeilingWitness | packages/library/cloud/sheets/src/sheets/providers/google-sheets-api/model/preflightContext.ts:597-601 | One receipt short of the ceiling read and two more appended: the next answer is the band alone and lacks older receipts |
| ReceiptCursor.Serve | packages/protocol/ikisaki/src/evidence/receiptCursor.ts:22-54 | Over any run of insertions by writers that keep up with the reader, reads and restarts every read is answered, and with the gate holding or the tab within the ceiling by exactly the receipts of the whole tab at that time |
| Postcondition.AppliedIsDelivered | packages/protocol/ikisaki/src/evidence/postcondition.ts:70-141 | After any run of redrives, crashes between the two writes and human edits the verdict is applied exactly when this effect appended its receipt and the target is as intended, and reports the delivered revision and content |
| Postcondition.OrphanIsUnavailable | packages/protocol/ikisaki/src/evidence/postcondition.ts:112-121 | The verdict is unavailable exactly when the target is as intended without this effect's receipt |
| Postcondition.OtherVerdicts | packages/protocol/ikisaki/src/evidence/postcondition.ts:70-141 | Exactly when the verdict is unapplied, that a changed verdict is never over an intended target, and what revision, content and reason every verdict reports |
| Postcondition.ForeignReceipt | packages/protocol/ikisaki/src/evidence/postcondition.ts:73-78 | Over every run from a sheet that holds the id's receipt for another payload, nothing but human edits changes the row, no receipt is appended, and the verdict is changed |
| Postcondition.CrashLeavesOrphan | packages/protocol/ikisaki/src/evidence/postcondition.ts:112-121 | A crash between the row write and the receipt write leaves exactly that orphan |
| Postcondition.RedriveOfUnapplied | packages/library/cloud/sheets/src/sheets/providers/google-sheets-api/model/planner.ts:78-283 | A redrive of an unapplied effect delivers exactly when there is no receipt and its own guard holds |
| Postcondition.DriveByVerdict | packages/library/cloud/sheets/src/sheets/providers/google-sheets-api/model/planner.ts:78-283 | What a drive does on each verdict: applied is left alone, changed rejected, and an orphan gets only its receipt, unless it is a deletion or a guarded candidate |
| Postcondition.DeliveryApplies | packages/library/cloud/sheets/src/sheets/providers/google-sheets-api/model/planner.ts:78-283 | A planned delivery run to its end is applied, with the receipt of the delivered payload, content and revision |
| Postcondition.RedriveOfOrphan | packages/library/cloud/sheets/src/sheets/providers/google-sheets-api/model/planner.ts:215-231 | A crash between the two writes is finished by the next drive, which appends the receipt and leaves the row, exactly when the effect is no deletion and no guarded candidate; those stay as they are |
| Postcondition.RevertedIsStuck | packages/protocol/ikisaki/src/evidence/postcondition.ts:128-138 | A delivered effect whose row a human puts back is called unapplied, and its redrive is rejected |
| Postcondition.ProbeMatchesScan | packages/library/cloud/sheets/src/sheets/providers/google-sheets-api/operations/applyEffects.ts:946-981 | Classifying from the cursor memo gives the verdict of a full scan whenever the gate holds or the receipt was found; a receipt is missed exactly when a band ran over the ceiling and the receipt lies above it |
| Confirmation.Store.UpsertRow | packages/protocol/ikisaki/src/outbox/outboxSql.ts:374-386 | The row upsert is accepted exactly when the stored revision is not ahead |
| Confirmation.Store.WriteFields | packages/protocol/ikisaki/src/outbox/confirmation.ts:183-201 | Over fields behind their rows every field upsert is accepted and every field gets the row's revision |
| Confirmation.Store.WriteConfirmation | packages/protocol/ikisaki/src/outbox/confirmation.ts:158-243 | A confirmation writes its row and all its fields at the resolved revision, or nothing, and fields stay behind their rows |
| Confirmation.ExceptionRules | packages/protocol/ikisaki/src/outbox/confirmation.ts:204-243 | Deletes and create rebases are never rejected, a rebase writes the least revision above the durable one that is not below its receipt, a delete keeps the higher of the two, and an ordinary confirmation is rejected exactly when it is behind |
| Confirmation.WrittenExactly | packages/protocol/ikisaki/src/outbox/confirmation.ts:158-201 | Exactly which confirmations are invalid, and what the written row and its fields hold |
| Confirmation.HashOfLast | packages/protocol/ikisaki/src/outbox/confirmation.ts:183-201 | Of several entries of one field the last counts |
| Confirmation.RevisionNeverFalls | packages/protocol/ikisaki/src/outbox/confirmation.ts:158-243 | Over every sequence of accepted and rejected confirmations no durable revision goes down and no field gets ahead of its row |
| Confirmation.OthersUntouched | packages/protocol/ikisaki/src/outbox/confirmation.ts:158-201 | Another binding's row and fields are not touched |
| WriteEngine.GroupByRouteKey | packages/protocol/ikisaki/src/batches/writeEngine.ts:128-143 | Groups appear in first-seen order of their keys and hold their items in order |
| WriteEngine.KeysMeaning | packages/protocol/ikisaki/src/batches/writeEngine.ts:124-127 | Every key of an item has one group and no other key has |
| WriteEngine.OfKeyMembers | packages/protocol/ikisaki/src/batches/writeEngine.ts:124-127 | A group holds exactly the items of its key |
| WriteEngine.CreatedOnce | packages/protocol/ikisaki/src/batches/writeEngine.ts:82-95 | However writers with stale contexts interleave under the guard, the shared tab is created at most once |
| WriteEngine.LoneWriterCreates | packages/protocol/ikisaki/src/batches/writeEngine.ts:82-95 | A writer that meets no other creates the missing tab, also after any number of failed attempts, and finds a present one |

## Left out

- SetupFlow.ManyRuns: a spreadsheet create answered with 400 or 403 is taken to have created nothing, and files of other origin do not carry the creation marker; it covers the primary key only, since pool expansion creates keys without a checkpoint of their own; nobody removes the key file, the spreadsheet or the permission by hand between two runs; a power loss takes back checkpoints only, and leaves the key directory as it was.
- SetupFlow.Flow.RunSetupLocked: the owner, account name, title and key path comparisons of the compatibility check are one answer of the environment, as are the API enablement and account creation calls.
- SetupFlow.Flow.RunSetup: phases and the resume report are reported; the operation reports inside a phase are not, but for those of the key settlement in `Progress.SettleReportsAccepted`.
- Checkpoint.RecordedLoads: project ids, markers and file ids are of types that hold only well-formed ones, as the options, the marker generator and the reply checks make them.
- SaveState.Saver.Save: the reported write counts are taken to be the bytes written, directory opening, syncing and closing are one call, and file modes are not modelled.
- SetupLock.SetupLocks.AcquireSetupLock: one call covers mkdir, open and fstat; the interleaved steps between them are those of `SetupLock.Next`.
- ReceiptCursor.ReceiptReadCursor.Dispatch: several routes of one dispatch share one receipt read, so one read stands for them.
- Confirmation.Store.WriteConfirmation: only writes through this path are modelled; other writers of the mirror tables and the surrounding transaction are not.
- Postcondition.RedriveOfUnapplied: one effect and its target row; row lookup by anchor and identity, header checks of deletions and several effects in one request are not modelled.
- KeyHost.Host.RunPass: file modes and the identity comparisons against a directory swapped between two calls are not modelled; a failing comparison is a failing call, and a directory that lost its name keeps its inode in the table.
- RowCheckFormula.FormulaMeaning: how a sheet renders numbers and dates is taken as given, and text lengths count characters, not UTF-16 units.
- ReadPlan.CalibrationBounds: the calibration ratio is a real number, so rounding of floating point is not modelled.
- EnvFile.LastRewriteWins: the values written have no newline; the private temp write of the file is the one of `SaveState` and is not repeated.
- WriteEngine.CreatedOnce: the write of a batch is one step that takes effect or fails before it has any.
- RSA, PEM and JSON text parsing: a key file either validates with a project, account and id or does not, and a payload is a record.
- Google clients, gcloud, HTTP and SQL drivers: they are answers of the environment.
- Races of processes that do not cooperate, between a check and the pathname call after it: the source names them as outside its boundary.
- Pool expansion after the primary setup, terminal drawing, prompts, argument parsing, MCP tools and the outbox worker internals are not part of this model.
- Reply validation of batch writes and the refresh of the first route are not modelled.
