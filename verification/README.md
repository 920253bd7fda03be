# Workshop: the state machines under the user interface, verified

Workshop is a coding assistant whose difficult parts sit below the screen: files shared between
processes, child processes that must not overlap, line and frame readers on pipes, a resumable
download, a choice of voice model that survives restarts, a list picker with a refresh underneath it,
and a scanner that must not be fooled by comments. This project models those parts in Dafny and proves
what they promise, for every input, every interleaving and every run.

| module | what it models | form |
|---|---|---|
| `ConnectionsFile`, `ConnectionsProgress` | read-modify-write of the connections file by any number of calls, with failures, crashes and power loss at any system call | state machine over steps |
| `CredentialBroker`, `CredentialOutcomes` | saving, using and forgetting a key over the keyring-then-file store, with rollback | class proved against functions |
| `VendorSlot`, `VendorHistory` | one vendor's gate (mutex, flag, condition variable), its children and their teardown | state machine over steps |
| `Rows`, `RowMerge`, `RowOrder`, `PickerRows`, `PickerLayout` | rows and their ids, the refresh merge, and the rows of a snapshot | methods with loops proved against functions |
| `Picker`, `PickerRuns`, `PickerKeys`, `PickerJourneys`, `PickerSections`, `PickerLanding`, `PickerOutcomes`, `PickerEffects` | the picker: visible rows, keys, snapshots, focus, and what holds over whole runs | class proved against functions |
| `ModelStore` | the voice model on disk: checks, the memory of a passed check, the resumable download | class |
| `TierWalk`, `TierChoice` | opening a voice session: resolve, try, step down, persist | class proved against a function |
| `ByteStreams`, `SupervisorReader`, `SessionReader`, `ReaderLaws` | the two chunked line readers | methods with loops over mutable pipes |
| `FrameCodec`, `HelperLoop`, `HelperSays` | the frames between host and voice helper, and the helper's main loop | methods and a class |
| `CommentStripper`, `CommentLaws` | the comment scanner | method with a loop, proved against a parser and a printer, and these against laws on texts |
| `Text`, `TextLaws`, `Seqs` | white space, trimming, words; re-associating and cutting sequences | functions and lemmas |

Time, servers, local I/O results, children, other processes and the order in which threads run are
inputs that may take any value. JSON text, lossy UTF-8 decoding, SHA-256 and speech recognition are
arbitrary functions.

Where the code does not do what its documentation says, the model follows the code:

- Setting the permissions of the connections file comes after the rename, so that error is reported
  although the change is committed (`CommittedErrIff`, `ErrorAfterCommit`), and a save that gets it rolls the
  secret back while the record stays (`SaveErr`, `LateWriteKeepsRecord`).
- The directory is not synced after that rename, so a power loss can take back a commit whose call said Ok
  (`CommitForgotten`); which commits last is exact (`CommitLastsIff`, `NoUpdateLost`, `CommittedIff`).
- A tier id with blanks around it is trimmed when the tier is resolved, but not when the code asks
  whether the configuration forces a tier. What that breaks, and exactly when: `OpenedIsPersistedIff`,
  `NeverUpIff`, `MovesByItsStepsIff`; `PaddedMovesUp` is an input.
- A snapshot is documented never to land on the xAI row by itself. With a filter typed at the top level it
  can: `SnapshotOntoXaiIff` says exactly when, `FilterLandsOnXai` gives runs. It never arms the row.
- A key saved while there is no keyring is shadowed by an older keyring entry once the keyring is back
  (`KeyringComesBack` says exactly when), and a key forgotten while there is none gives way
  to that entry (`ForgottenComesBack`).
- A provider that can do without a credential is refused when its environment variable is set to nothing:
  `UnrecordedIff`, `ConnectedResolvesIff`, `EmptyVariableRefused`.
- When the last wait for a killed child fails, the slot is released all the same. Only then can two
  children be alive, and then they can: `OneChildAlive`, `AbandonedOverlaps`.

## Model

| member | source | states |
|---|---|---|
| ConnectionsFile.FileIsTheFold | crates/workshop-providers/src/config.rs:111-185 | in every interleaving of any calls, from no file or any earlier one, with failures, crashes and power losses, the file is missing or holds, whole, exactly the fold of the committed changes |
| ConnectionsFile.CommitsInLockOrder | crates/workshop-providers/src/config.rs:168-185 | commits are in the order in which their calls were granted the lock, one a call |
| ConnectionsProgress.CommitIsTheEdit | crates/workshop-providers/src/config.rs:168-185 | what is committed for a call is the change the call was asked to make |
| ConnectionsProgress.AnyoneGetsThrough | crates/workshop-providers/src/config.rs:168-185 | from every state of every run, whatever has failed, crashed or lost power and whoever has the lock, a new call can still commit its change on top of all the others |
| ConnectionsProgress.LockComesFree | crates/workshop-providers/src/config.rs:180-185 | whoever has the lock can give it up, by failing if need be, with nothing committed |
| ConnectionsFile.RecordStays | crates/workshop-providers/src/broker.rs:224-244 | what a commit leaves for a provider is what the file on disk holds for it from then on, until a later commit names that provider or a power loss takes the commit back |
| ConnectionsFile.NoUpdateLost | crates/workshop-providers/src/config.rs:124-137 | all commits made so far stay in the sequence the file is the fold of, in place, if and only if no power loss from then on takes one of them back |
| ConnectionsFile.CommitLastsIff | crates/workshop-providers/src/config.rs:118-137 | each single commit is still there, after the same earlier ones, if and only if no power loss since has left fewer renames than that; once gone it never returns |
| ConnectionsFile.CommitForgotten | crates/workshop-providers/src/config.rs:121-137 | a run in which a call returned Ok and a power loss forgets its commit, since the directory is not synced after the rename |
| ConnectionsFile.ReadersSeeACommit | crates/workshop-providers/src/config.rs:140-158 | a read without the lock, however it is cut up and whatever is committed meanwhile, returns the connections of one committed state, the one current when it opened the file |
| ConnectionsFile.WritersAreAlone | crates/workshop-providers/src/config.rs:168-185 | one call at a time is inside the lock and what it has read is the latest commit |
| ConnectionsFile.ResultsMean | crates/workshop-providers/src/config.rs:119-137 | in every run, a call that returned has renamed its file into place if and only if it returned Ok or the error of the step after the rename |
| ConnectionsFile.CommittedIff | crates/workshop-providers/src/config.rs:118-137 | a call's change is among those the file is the fold of if and only if it renamed its file into place and no power loss since took that back |
| ConnectionsFile.CommittedErrIff | crates/workshop-providers/src/config.rs:119-137 | a call that returned an error has replaced the file all the same if and only if it failed to set the permissions of the renamed file |
| ConnectionsFile.ErrorAfterCommit | crates/workshop-providers/src/config.rs:124-130 | a run in which the call reports an error and its change is in the file |
| ConnectionsFile.StepSeals | crates/workshop-providers/src/config.rs:118-124 | no step of any call changes the bytes of a file that the path has ever named |
| ConnectionsFile.LinksAfterPowerLoss | crates/workshop-providers/src/config.rs:121-124 | after a power loss, which may scramble everything not synced, each file the path still names is whole |
| CredentialBroker.Broker.Save | crates/workshop-providers/src/broker.rs:204-246 | the whole new state of a save, under every outcome of each of its store and file operations |
| CredentialBroker.Broker.SaveLocked | crates/workshop-providers/src/broker.rs:224-244 | the part under the lock: read, remember, set, write, roll back |
| CredentialBroker.Broker.Forget | crates/workshop-providers/src/broker.rs:314-328 | the whole new state of a forget, where it stops included |
| CredentialBroker.Broker.Set | crates/workshop-providers/src/secrets.rs:214-224 | keyring first, its stale file copy removed; the file only without a keyring |
| CredentialBroker.Broker.Delete | crates/workshop-providers/src/secrets.rs:226-233 | both places, an error of the keyring reported after the file is done |
| CredentialBroker.SaveOk | crates/workshop-providers/src/broker.rs:204-246 | Ok: the trimmed key is what is read back, the record names the backend that holds it, nobody else's secret or record changed |
| CredentialOutcomes.SaveSucceedsIff | crates/workshop-providers/src/broker.rs:204-246 | a save succeeds if and only if the id is valid and known, the provider takes a key, the trimmed key is not empty, and the lock, the reads and the writes it needs go well |
| CredentialOutcomes.SaveRefused | crates/workshop-providers/src/broker.rs:204-222 | what each refusal answers, in which order, with nothing touched |
| CredentialOutcomes.IdNamesAFile | crates/workshop-providers/src/broker.rs:145-154 | a valid id is not empty and does not lead out of the directory of the secret files |
| CredentialOutcomes.RollbackFailsIff | crates/workshop-providers/src/broker.rs:230-241 | a failed rollback is reported if and only if the connections could not be written and the earlier secret, or its absence, could not be put back |
| CredentialOutcomes.SavedRecord | crates/workshop-providers/src/broker.rs:213-229 | the saved record and the stored secret, field by field |
| CredentialBroker.SaveErr | crates/workshop-providers/src/broker.rs:230-241 | Err without a reported failed rollback: all secrets as before if and only if the secret file was not replaced by another value before its write failed, the connections as before if and only if they were not replaced by others before theirs did |
| CredentialBroker.SaveAllOrNothing | crates/workshop-providers/src/broker.rs:204-246 | all or nothing under every fault schedule whose failing writes fail before their rename |
| CredentialBroker.LateWriteKeepsRecord | crates/workshop-providers/src/config.rs:124-130 | the failing input: permissions cannot be set, the record stays, the secret is gone |
| CredentialBroker.SetThenGet | crates/workshop-providers/src/secrets.rs:205-224 | a set that says Ok is read back, from either backend, and touches no other provider |
| CredentialBroker.RollbackRestores | crates/workshop-providers/src/broker.rs:231-234 | a rollback that succeeds restores what every provider's get returns |
| CredentialBroker.TrimNewlinesEnds | crates/workshop-providers/src/secrets.rs:140-160 | what is read from a secret file, written back with its newline, reads the same |
| CredentialBroker.KeyringComesBack | crates/workshop-providers/src/secrets.rs:206-224 | a key saved without a keyring is still the one read with it, if and only if the keyring has no other value |
| CredentialBroker.SavedKeyIsUsed | crates/workshop-providers/src/broker.rs:344-398 | after a save, resolving the provider yields the trimmed key |
| CredentialOutcomes.RecordedIff | crates/workshop-providers/src/broker.rs:344-398 | a provider with a record gets what the record names and nothing else: the stored secret, a variable with a value, or nothing where none is needed |
| CredentialOutcomes.NoAuthNoCredential | crates/workshop-providers/src/broker.rs:372 | a provider that takes no credential gets none, whatever is stored |
| CredentialOutcomes.UnrecordedIff | crates/workshop-providers/src/broker.rs:344-398 | one without a record gets the value of its variable; without the variable it needs none or is refused; a variable set to nothing is an error in any case |
| CredentialOutcomes.ConnectedResolvesIff | crates/workshop-providers/src/broker.rs:332-341 | a provider shown as connected has a credential or needs none, unless the secret its record names is gone or its variable has no value; one not so shown never has |
| CredentialOutcomes.EmptyVariableRefused | crates/workshop-providers/src/broker.rs:375-392 | a provider that would do without a credential is refused because its variable is set to nothing |
| CredentialOutcomes.OnlyItsOwn | crates/workshop-providers/src/broker.rs:368-398 | what a provider gets does not depend on anything stored for another |
| CredentialBroker.ForgetOk | crates/workshop-providers/src/broker.rs:314-328 | a successful forget leaves neither secret nor record, reports whether there was either, and touches no one else |
| CredentialOutcomes.ForgetSucceedsIff | crates/workshop-providers/src/broker.rs:314-328 | a forget succeeds if and only if the lock, the reads, both removals and the write go well |
| CredentialOutcomes.ForgottenIsUnused | crates/workshop-providers/src/broker.rs:314-328 | after a forget the provider is left with its environment variable or nothing |
| CredentialBroker.ForgetErr | crates/workshop-providers/src/broker.rs:314-328 | a failing forget touches no one else; the record is lost if and only if the deletions went well and the write failed after its rename; the secret is kept if and only if the forget did not get to it, it was not there, it was in a keyring that refused, or it was read from a file that could not be removed |
| CredentialBroker.ForgottenComesBack | crates/workshop-providers/src/secrets.rs:206-233 | a key forgotten while there was no keyring is read again once there is one, if and only if the keyring held an entry, and then that entry |
| CredentialBroker.DeleteLoses | crates/workshop-providers/src/secrets.rs:226-233 | what can still be read after deleting, under every outcome of the two deletions |
| VendorSlot.OneChildAlive | crates/workshop-detect/src/process.rs:56-85 | in every interleaving two children of the vendor are alive only if the last wait for one of them failed |
| VendorSlot.AbandonedOverlaps | crates/workshop-detect/src/process.rs:86-115 | conversely, every run with such a child alive can go on to two children alive |
| VendorSlot.OneChildDue | crates/workshop-detect/src/process.rs:62-115 | in every run at most one child is neither reaped nor given up on; while there is one the gate is busy and the only owner of the slot is the thread that will reap it |
| VendorSlot.FreedOnlyAfterReaping | crates/workshop-detect/src/process.rs:86-115 | in every run the slot is released, taken and used for a spawn only when every earlier child has been reaped or its last wait has failed |
| VendorSlot.SleepersAreWoken | crates/workshop-detect/src/process.rs:69-91 | a thread asleep on the gate implies an owner of the slot or a pending notification that wakes it, though release unlocks before it notifies |
| VendorSlot.RefusedOnlyWhenBusy | crates/workshop-detect/src/process.rs:66-81 | acquire gives up only holding the mutex, with the gate busy and its deadline over |
| VendorHistory.RefusedAfterItsWait | crates/workshop-detect/src/process.rs:66-81 | told by the run alone: a caller is refused only with the gate busy and the whole of the wait it came with over |
| VendorHistory.CheckerDecides | crates/workshop-detect/src/process.rs:70-81 | a caller holding the mutex has exactly one thing to do: take a free slot, sleep while its wait is not over, give up once it is |
| VendorHistory.SleeperGivesUp | crates/workshop-detect/src/process.rs:75-79 | a sleeping caller needs nobody to be refused at the end of its wait |
| VendorSlot.KilledOnlyAfterGrace | crates/workshop-detect/src/process.rs:101-115 | no child is killed before its caller's timeout and then the whole grace are over, a session's not before two seconds, unless waiting failed |
| VendorHistory.KilledOnlyInTime | crates/workshop-detect/src/process.rs:96-115 | the same told by the steps of the run: spawn, giving up, kill, each no earlier than the caller's timeout and the whole grace after the one before |
| VendorHistory.WedgedIsKilled | crates/workshop-detect/src/process.rs:96-115 | and no later: a child somebody waits for that never exits can be killed at exactly that time |
| VendorHistory.TwoThenAbandoned | crates/workshop-detect/src/process.rs:56-85 | two children spawned and not exited: the last wait for one of them has failed |
| VendorHistory.EightAttempts | crates/workshop-detect/src/process.rs:179-207 | a spawn is tried at most eight times |
| VendorSlot.KillsAreAimed | crates/workshop-detect/src/process.rs:101-115 | a kill is only ever aimed at a child that has not been reaped |
| VendorSlot.StepSafe | crates/workshop-detect/src/process.rs:62-115 | every step of every thread keeps all of the above invariants |
| VendorSlot.AbandonedAfterKill | crates/workshop-detect/src/process.rs:101-115 | a last wait fails only for a child that was killed |
| VendorSlot.TwoAliveAfterFailedWait | crates/workshop-detect/src/process.rs:101-115 | a run from the start that ends with two children alive |
| RowMerge.StableMerge | crates/workshop-auth/src/lib.rs:1766-1782 | the two loops compute the survivors in shown order with new rows inserted after the last row of their group |
| RowMerge.MergeIds | crates/workshop-auth/src/lib.rs:1766-1782 | the merged list has exactly the ids of the latest list, each once |
| RowMerge.MergeContent | crates/workshop-auth/src/lib.rs:1763-1771 | every row shown after a merge is the latest row of its id |
| RowOrder.OrderStays | crates/workshop-auth/src/lib.rs:1763-1771 | two rows that a refresh leaves on screen stay in the order they had, whatever their groups |
| RowMerge.InsertAllPerGroup | crates/workshop-auth/src/lib.rs:1772-1780 | the rows of each group are its surviving rows and then its new ones, in the latest order |
| RowMerge.MergeIsGrouping | crates/workshop-auth/src/lib.rs:1763-1782 | with contiguous groups the merge is the stable grouping of survivors followed by news |
| RowMerge.GroupedInsert | crates/workshop-auth/src/lib.rs:1776-1779 | inserting into a grouped list is grouping with one more row |
| RowMerge.MergeContiguous | crates/workshop-auth/src/lib.rs:1766-1782 | if a row's group is a function of its id, groups contiguous before are contiguous after |
| PickerRows.ModelsRows | crates/workshop-auth/src/lib.rs:463-585 | the loops compute, in order: pool, OpenCode, listed providers, vendors, API keys, providers to connect, xAI |
| PickerRows.AddProvider | crates/workshop-auth/src/lib.rs:503-552 | a provider is listed when it is not hidden, has models and is local or connected, and can be connected unless it is listed with nothing locked |
| PickerRows.SplitRows | crates/workshop-auth/src/lib.rs:828-838 | splitting off the connect rows gives back the list and the sub-menu |
| PickerRows.ListDistinct | crates/workshop-auth/src/lib.rs:463-585 | no id occurs twice in the list |
| PickerRows.ListContiguous | crates/workshop-auth/src/lib.rs:463-585 | the rows of each group stand together |
| PickerRows.FixedRows | crates/workshop-auth/src/lib.rs:553-585 | every vendor is listed, xAI is last and only there, API keys is there if and only if there is a provider to connect |
| PickerLayout.ListOrder | crates/workshop-auth/src/lib.rs:463-585 | the list from the top: the pool's models, OpenCode's or the seed, the listed providers', the vendors, API keys, xAI, each with its text |
| PickerLayout.ListedAt | crates/workshop-auth/src/lib.rs:503-538 | every model of a provider that is local or connected is listed, in order, after those of the providers before it |
| PickerLayout.ListedFrom | crates/workshop-auth/src/lib.rs:503-538 | and nothing else is listed there |
| PickerLayout.ConnectIff | crates/workshop-auth/src/lib.rs:510-552 | a provider can be connected if and only if that would unlock something |
| Picker.PickerState.Handle | crates/workshop-auth/src/lib.rs:1355-1486 | the whole new state and the outcome of every key |
| Picker.PickerState.EnterRow | crates/workshop-auth/src/lib.rs:1489-1549 | Enter on each kind of row |
| PickerOutcomes.SelectsCatalogIff | crates/workshop-auth/src/lib.rs:1500-1506 | a catalog model is chosen if and only if Enter is pressed on its row and it is not locked |
| PickerOutcomes.ConnectsIff | crates/workshop-auth/src/lib.rs:1500-1509 | a provider is connected if and only if Enter is pressed on its row or on a locked model of it |
| PickerOutcomes.SelectsEngineIff | crates/workshop-auth/src/lib.rs:1510-1518 | an OpenCode model is chosen if and only if Enter is pressed on it, without levels, or on one of its levels |
| PickerOutcomes.SelectsRailModelIff | crates/workshop-auth/src/lib.rs:1519 | a vendor's model is chosen if and only if Enter is pressed on it |
| PickerOutcomes.InstallsIff | crates/workshop-auth/src/lib.rs:1532-1533 | a vendor is installed if and only if Enter is pressed on one that is not |
| PickerOutcomes.RailConnectsIff | crates/workshop-auth/src/lib.rs:1524-1547 | a vendor is connected if and only if Enter is pressed on one that has nothing else to do |
| PickerOutcomes.RetriesIff | crates/workshop-auth/src/lib.rs:1537-1541 | its models are asked for again if and only if they failed and nothing comes before that |
| PickerOutcomes.RefreshesIff | crates/workshop-auth/src/lib.rs:1387-1531 | the lists are loaded again if and only if the refresh key is pressed, or Enter on a vendor an overdue load has kept waiting |
| PickerOutcomes.ClosesIff | crates/workshop-auth/src/lib.rs:1465-1480 | the picker closes if and only if Esc finds nothing to undo |
| PickerOutcomes.SavesIff | crates/workshop-auth/src/lib.rs:1370-1378 | a key is saved if and only if Enter is pressed in a prompt that is not blank |
| PickerOutcomes.SubmenuAfter | crates/workshop-auth/src/lib.rs:1337-1549 | which row opens which sub-menu and what leaves it; no other key does either |
| PickerOutcomes.OpensOnLevelInUse | crates/workshop-auth/src/lib.rs:1337-1344 | the levels of the model in use open on the level in use |
| PickerOutcomes.OpensOnActive | crates/workshop-auth/src/lib.rs:1337-1344 | a sub-menu opens on the active connection or its first row |
| PickerOutcomes.EffortsShown | crates/workshop-auth/src/lib.rs:894-906 | the levels of a model: the default, then each |
| PickerOutcomes.VendorShown | crates/workshop-auth/src/lib.rs:908-914 | the models of a vendor: all, in order, once it is signed in |
| PickerOutcomes.ApiKeysShown | crates/workshop-auth/src/lib.rs:908-914 | the providers to connect, all of them |
| PickerOutcomes.SubmenuFinds | crates/workshop-auth/src/lib.rs:959-967 | with a filter, those rows of a sub-menu that match |
| Picker.PickerState.ApplySnapshot | crates/workshop-auth/src/lib.rs:1159-1195 | the whole new state after a snapshot |
| Picker.PickerState.SetFocus | crates/workshop-auth/src/lib.rs:796-813 | the whole new state after a change of focus |
| Picker.PickerState.Jump | crates/workshop-auth/src/lib.rs:1244-1256 | the section jump, which disarms only if it moves |
| Picker.PickerState.TakeRows | crates/workshop-auth/src/lib.rs:822-839 | an empty snapshot changes nothing, a first load replaces, a later one merges |
| PickerEffects.LoadShows | crates/workshop-auth/src/lib.rs:822-839 | after a load the list has exactly the snapshot's rows; a first load has them in its order, any other leaves what stays in the order it had |
| PickerEffects.EmptyLoad | crates/workshop-auth/src/lib.rs:822-826 | a load without rows leaves the list alone |
| PickerEffects.LoadTakes | crates/workshop-auth/src/lib.rs:1159-1195 | what a load leaves alone and what it takes over |
| Picker.PickerState.constructor | crates/workshop-auth/src/lib.rs:755-786 | a new picker over the rows of an unloaded catalog, with its active connection marked |
| PickerRuns.FreshRows | crates/workshop-auth/src/lib.rs:753-786 | it lists the seed, the vendors, API keys if there is a provider to connect, and xAI, and its sub-menu holds those providers |
| PickerRuns.SelectionAlwaysOk | crates/workshop-auth/src/lib.rs:1159-1486 | in every run of keys, snapshots, changes of focus, key prompts and host reloads the selection is the first row or indexes a visible one |
| PickerRuns.Play | crates/workshop-auth/src/lib.rs:755-1500 | a new picker fed any events goes through the states of a run with its outcomes, so that what is proved of runs holds of the class |
| PickerRuns.Feed | crates/codegen/xai-grok-pager/src/app/dispatch/auth.rs:535-610 | each event, the reloads the host starts after a refresh, a saved key or a login included, takes the picker to the next state of a run |
| PickerRuns.VisibleFrom | crates/workshop-auth/src/lib.rs:959-993 | only rows of the list itself can open anything or be the xAI row, in a sub-menu or a filtered list too |
| PickerJourneys.LoginTakesTwoEnters | crates/workshop-auth/src/lib.rs:1355-1549 | over every run the xAI login starts if and only if Enter hits the xAI row after an earlier Enter on it with nothing that disarms it in between |
| PickerJourneys.StepArmed | crates/workshop-auth/src/lib.rs:1355-1500 | what each event does to the armed flag, and which event starts the login |
| PickerJourneys.LeavingReturns | crates/workshop-auth/src/lib.rs:1337-1353 | leaving a sub-menu, with no snapshot, refocus or show-all toggle since it opened, lands on the row it was opened from |
| PickerKeys.PageDownMoves | crates/workshop-auth/src/lib.rs:1420-1447 | PageDown goes where ten Downs go |
| PickerKeys.EndMoves | crates/workshop-auth/src/lib.rs:1420-1436 | End goes where enough Downs go |
| PickerKeys.PagesUp | crates/workshop-auth/src/lib.rs:1415-1441 | PageUp goes where ten Ups go, Home where enough of them go |
| PickerEffects.ArrowKeys | crates/workshop-auth/src/lib.rs:1415-1447 | an arrow, Home, End or a page key does nothing but move the highlight and disarm |
| PickerEffects.ArrowGoes | crates/workshop-auth/src/lib.rs:1415-1425 | an arrow goes to the neighbouring row, if there is one |
| PickerEffects.ArrowsUndo | crates/workshop-auth/src/lib.rs:1415-1425 | and the other arrow comes back |
| PickerEffects.TypingAppends | crates/workshop-auth/src/lib.rs:1393-1400 | typing appends to the filter and goes to the top |
| PickerEffects.ErasingUndoes | crates/workshop-auth/src/lib.rs:1401-1405 | as many erasures take it back |
| PickerEffects.EscapeCloses | crates/workshop-auth/src/lib.rs:1465-1480 | from any state exactly so many presses of Esc close the picker: one, and one more each for a filter, an armed row and a sub-menu |
| PickerKeys.PromptTakesAll | crates/workshop-auth/src/lib.rs:1355-1384 | an open key prompt takes every key, changes nothing else, and yields only a non-blank trimmed key for its own provider |
| PickerEffects.PromptSaves | crates/workshop-auth/src/lib.rs:1355-1384 | a key typed into a new prompt and entered is what is saved, trimmed, for its provider |
| PickerEffects.PromptKeys | crates/workshop-auth/src/lib.rs:1355-1384 | erasing, pasting and Esc in a prompt |
| PickerEffects.PromptIgnores | crates/workshop-auth/src/lib.rs:1355-1384 | and no other key does anything there |
| PickerKeys.FilterFinds | crates/workshop-auth/src/lib.rs:974-991 | with a filter typed a row is visible if and only if it matches, wherever it lives |
| PickerOutcomes.FilterReaches | crates/workshop-auth/src/lib.rs:974-991 | so a matching row of the list, model of a signed-in vendor or provider to connect is found |
| PickerEffects.MatchesIff | crates/workshop-auth/src/lib.rs:928-935 | a row matches if and only if every word of the filter stands in its lower-case text |
| TextLaws.WordsTake | crates/workshop-auth/src/lib.rs:934 | the words of a filter are what white space separates, each whole |
| TextLaws.WordsSkip | crates/workshop-auth/src/lib.rs:934 | and white space itself is none |
| TextLaws.TrimIs | crates/workshop-auth/src/lib.rs:929 | trimming takes white space off both ends, all of it, and nothing else |
| PickerOutcomes.TopRowsIff | crates/workshop-auth/src/lib.rs:959-979 | without a filter the list shows its own rows, except hidden ones, and under a signed-in vendor its models |
| PickerKeys.SnapshotKeepsHighlight | crates/workshop-auth/src/lib.rs:1159-1195 | a snapshot, while loading too, keeps the highlighted row if its id is still visible, unless it counts as a first load that sends the highlight elsewhere |
| PickerKeys.SettledGoes | crates/workshop-auth/src/lib.rs:1168-1195 | and then it goes to a vendor row when the subscriptions were asked for, else to the active connection |
| PickerKeys.ToggleKeepsHighlight | crates/workshop-auth/src/lib.rs:1406-1412 | so does showing or hiding the non-chat models |
| PickerEffects.HiddenIff | crates/workshop-auth/src/lib.rs:937-939 | hidden by default are exactly the models that are not for chat and not active |
| PickerEffects.ToggleShows | crates/workshop-auth/src/lib.rs:1406-1412 | the key that shows them shows every row of the list |
| PickerEffects.ToggleTwice | crates/workshop-auth/src/lib.rs:1406-1412 | and pressed again it shows what was shown before |
| PickerKeys.FocusLandsOnVendor | crates/workshop-auth/src/lib.rs:796-813 | a move to the subscriptions lands on the first vendor row |
| PickerEffects.FocusOnModels | crates/workshop-auth/src/lib.rs:796-813 | a move to the models takes the filter given and lands on the active connection |
| PickerEffects.ActiveIff | crates/workshop-auth/src/lib.rs:1265-1276 | what is marked as active: the connection's row, its model at any level, its vendor |
| PickerSections.HeadersNeverRepeat | crates/workshop-auth/src/lib.rs:998-1013 | no group header is drawn twice, over any run of keys, refreshes and host reloads |
| PickerSections.TabTargets | crates/workshop-auth/src/lib.rs:1222-1256 | Tab goes to the nearest following row that starts a section, Shift+Tab to the nearest before; nowhere in a sub-menu or a filtered list |
| PickerSections.StartsExactly | crates/workshop-auth/src/lib.rs:998-1240 | a row is a section start if and only if no earlier row of the list is in its group |
| PickerLanding.SnapshotOntoXaiIff | crates/workshop-auth/src/lib.rs:1156-1195 | a snapshot leaves the highlight on xAI if and only if: on a first load that has the active connection to show, that is xAI (never when it goes to a visible vendor); else the highlighted row is still visible and is xAI; else xAI matches the filter and nothing listed before it does |
| PickerLanding.SnapshotOntoXai | crates/workshop-auth/src/lib.rs:1156-1195 | so with no filter at the top level only if it was there, or xAI is active and this is the first load |
| PickerLanding.TopIsXai | crates/workshop-auth/src/lib.rs:959-993 | xAI is the first visible row if and only if it matches and nothing listed before it does |
| PickerLanding.FilterLandsOnXai | crates/workshop-auth/src/lib.rs:1156-1195 | runs in which it does, from any new picker, with whole snapshots: Claude turns out to be signed in with a model that matches `xa`, typing `xa` highlights a model, and any later load in which no vendor has models leaves the highlight on xAI |
| PickerLanding.ModelsGone | crates/workshop-auth/src/lib.rs:1156-1195 | the same from any state in which only xAI and vendors' models match the filter, for any rows in which still nothing else does |
| ModelStore.Store.EnsureFrom | crates/workshop-voice/src/store.rs:170-218 | Ok means verified bytes; a readable verified model is left alone and nothing is asked of any server, a verified one is never removed, a bad one is; against servers of the pinned bytes it succeeds from any state on disk, at the second attempt if the partial was corrupt, at the first otherwise, and two attempts in a row that meet such servers are enough |
| ModelStore.Store.DownloadOnce | crates/workshop-voice/src/store.rs:220-343 | a file is renamed into place only with the pinned size and digest, the partial never grows past the pinned size, a failure leaves the model alone; a good partial needs only the rest of the file and keeps what it gets when the server breaks off |
| ModelStore.Store.Receive | crates/workshop-voice/src/store.rs:262-318 | while streaming, the hasher has absorbed exactly the bytes of the partial file |
| ModelStore.Store.StatusCached | crates/workshop-voice/src/store.rs:131-143 | the cheap check agrees with the full one when length and time determine content |
| ModelStore.Store.CheckAmid | crates/workshop-voice/src/store.rs:114-143 | and so it does at every check of any history of replacements of the files between checks |
| ModelStore.Store.CheckStatus | crates/workshop-voice/src/store.rs:114-128 | ready means the pinned size and digest |
| ModelStore.Store.RemoveBadModel | crates/workshop-voice/src/store.rs:146-157 | the file is removed and its marker forgotten |
| ModelStore.CachedAgrees | crates/workshop-voice/src/store.rs:131-143 | the agreement, from where the marker came from |
| ModelStore.StampAloneFooled | crates/workshop-voice/src/store.rs:131-143 | without that condition a forged file passes |
| TierWalk.VoiceDir.Open | crates/workshop-voice/src/session.rs:60-177 | the loop terminates and does what the recursive walk does, the persisted selection included |
| TierWalk.VoiceDir.Resolve | crates/workshop-voice/src/tier.rs:132-147 | override, then selection, then the largest on disk, then the default |
| TierChoice.StartsFrom | crates/workshop-voice/src/tier.rs:126-147 | which is: the configured tier; else the persisted one; else the largest on disk; else the machine's default |
| TierChoice.DefaultIs | crates/workshop-voice/src/tier.rs:82-92 | the default with the shipped tiers, if and only if |
| TierChoice.BetterStartsLarger | crates/workshop-voice/src/tier.rs:82-92 | a better machine never starts from a smaller model |
| TierWalk.StepsAreConsecutive | crates/workshop-voice/src/session.rs:134-162 | the tiers stepped down from are consecutive from the resolved one, each too slow on a cold start, and the one opened comes next |
| TierWalk.ConsecutiveIsSlice | crates/workshop-voice/src/tier.rs:33-37 | such a list is a slice of the list of tiers |
| TierWalk.EndsWithinBudget | crates/workshop-voice/src/session.rs:134-162 | an unforced cold open ends within budget unless on the smallest tier |
| TierChoice.WalkOpens | crates/workshop-voice/src/session.rs:81-177 | a walk on which no visit fails ends in a session, and one refused model file is survived |
| TierChoice.BadVisitFails | crates/workshop-voice/src/session.rs:81-177 | a visit that fails ends the walk |
| TierChoice.OpensTheLast | crates/workshop-voice/src/session.rs:113-177 | the session reported is that of the last tier tried, with what its helper said |
| TierChoice.NoReasonNoStep | crates/workshop-voice/src/session.rs:134-136 | nothing is stepped down from without a slow cold start, or with a forced tier |
| TierChoice.SlowStepsDown | crates/workshop-voice/src/session.rs:134-155 | an unforced tier with a slow cold start is, unless it is the smallest |
| TierChoice.DownloadedIff | crates/workshop-voice/src/session.rs:83-99 | a download is reported if and only if one of the visits made a file present that was not |
| TierWalk.OpenedIsPersistedIff | crates/workshop-voice/src/session.rs:134-162 | with successful writes every unforced open leaves its tier persisted, if and only if the override is not a padded tier id against another persisted tier |
| TierWalk.OneOpenMovesDown | crates/workshop-voice/src/session.rs:60-177 | without a padded override one open moves the persisted tier down by exactly its step-downs, a forced one not at all; `MovesByItsStepsIff` is the case of a padded one |
| TierWalk.NeverUpIff | crates/workshop-voice/src/tier.rs:132-147 | whatever happens, an open does not move the persisted tier up, if and only if a padded override names no tier above the one just above it |
| TierWalk.MovesByItsStepsIff | crates/workshop-voice/src/session.rs:134-162 | it moves it down by exactly its step-downs, if and only if a padded override names the persisted tier or the smallest |
| TierWalk.OpensOnlyMoveDown | crates/workshop-voice/src/tier.rs:113-147 | over any sequence of opens that meet the first condition the persisted tier only moves down |
| TierWalk.StepDownsBounded | crates/workshop-voice/src/session.rs:134-162 | over any that meet the second there are fewer step-downs in all than tiers |
| TierWalk.PaddedMovesUp | crates/workshop-voice/src/tier.rs:132-136 | the failing input: a padded override persists a larger tier |
| SupervisorReader.ReadLines | crates/workshop-adapters/src/supervisor.rs:342-386 | for every way the bytes are cut, exactly the deliveries of the newline split, in order, as far as the receiver listens |
| SupervisorReader.DeliveriesAre | crates/workshop-adapters/src/supervisor.rs:342-386 | those deliveries: the lines before the first segment over the cap and then one error; without one, every line and then the tail |
| ReaderLaws.SupervisedLine | crates/workshop-adapters/src/supervisor.rs:374-385 | each line: delivered without its carriage return unless blank, and then the rest |
| ReaderLaws.SupervisedLong | crates/workshop-adapters/src/supervisor.rs:368-371 | a line over the cap ends everything with one error |
| ReaderLaws.SupervisedTail | crates/workshop-adapters/src/supervisor.rs:351-363 | the end of the stream: an error, or what is left as it is |
| SupervisorReader.CollectTail | crates/workshop-adapters/src/supervisor.rs:389-405 | the last bytes of the error stream, however it is cut |
| SessionReader.ReadLines | crates/workshop-detect/src/process.rs:363-396 | exactly the lines within the cap, in order and trimmed at the end, with at most one byte more than the cap buffered |
| SessionReader.LongDropped | crates/workshop-detect/src/process.rs:374-384 | an over-long line is dropped whole and its neighbours are kept |
| ReaderLaws.SessionLine | crates/workshop-detect/src/process.rs:363-396 | each line: kept, trimmed at its end, unless too long |
| ReaderLaws.SessionTail | crates/workshop-detect/src/process.rs:363-396 | so is what follows the last newline, if there is anything |
| SessionReader.NewlineTrimmed | crates/workshop-detect/src/process.rs:385-390 | the newline of a kept line never shows, since the line is trimmed |
| FrameCodec.RoundTrip | voice/engine/src/protocol.rs:54-101 | decoding the encodings of any sequence of frames returns the sequence and then a clean end |
| FrameCodec.AnyCut | voice/engine/src/protocol.rs:54-93 | cut anywhere, it returns the whole frames before the cut and then end of input at a boundary or in a header, an error in a payload |
| FrameCodec.FrameAtIff | voice/engine/src/protocol.rs:54-93 | a frame is read if and only if the stream begins with its encoding |
| FrameCodec.ReadFrame | voice/engine/src/protocol.rs:54-93 | reading from a pipe that delivers any pieces is decoding its bytes |
| FrameCodec.EncodeFrame | crates/workshop-voice/src/protocol.rs:15-21 | one byte of kind, four of little-endian length, the payload |
| FrameCodec.AudioSurvivesIff | voice/engine/src/protocol.rs:36-37 | an audio payload survives encoding if and only if it is within the limit |
| FrameCodec.LeRoundTrip | voice/engine/src/protocol.rs:68-97 | the 32-bit length survives its four bytes |
| FrameCodec.StdinFrames | voice/engine/src/main.rs:222-245 | the reader thread sends exactly the decoded frames and then how the stream ended |
| FrameCodec.StartFrameLanguage | crates/workshop-voice/src/protocol.rs:23-29 | the language asked for is the language the helper uses |
| HelperSays.LanguageSurvives | crates/workshop-voice/src/protocol.rs:23-29 | a named language arrives as it is; none, an empty one and auto leave it open |
| HelperLoop.Helper.Run | voice/engine/src/main.rs:252-345 | every run of the loop is a sequence of rounds each of which says exactly what it should, until a turn that must end it, with that exit code |
| HelperLoop.Helper.Step | voice/engine/src/main.rs:252-345 | one turn of the loop; it exits if and only if the input ends, stdout is gone when there is something to say, or the idle time is over |
| HelperSays.GoesOn | voice/engine/src/main.rs:252-345 | the helper goes on after a start, audio, a stop or silence while stdout takes what there is to say and it is not idle |
| HelperSays.Ends | voice/engine/src/main.rs:288-343 | and what ends it, with which code |
| HelperLoop.OneAnswerPerStop | voice/engine/src/main.rs:274-290 | while stdout is open there are as many answers as stops |
| HelperLoop.AnsweredAtOnce | voice/engine/src/main.rs:274-290 | the answer is the one thing said in the turn that processes the stop |
| HelperSays.FinalText | voice/engine/src/main.rs:348-367 | what the answer says: nothing for less than three tenths of a second of audio, otherwise what the final decode gave, or its error |
| HelperSays.SecondStopIsEmpty | voice/engine/src/main.rs:272-287 | a stop with no utterance open is answered with nothing and decodes nothing |
| HelperLoop.PartialIff | voice/engine/src/main.rs:308-337 | a partial is said if and only if an interim decode is due, brings text that is new, and stdout is open |
| HelperSays.InterimIff | voice/engine/src/main.rs:303-313 | in an open utterance an interim decode comes if and only if there is a second of audio, the interval is over and none before it has heard as much; it hears the last of the window |
| HelperSays.InterimLanguage | voice/engine/src/main.rs:309-318 | its language: the one asked for, or the helper's, or the first found by a decode with three seconds of audio |
| HelperSays.PartialText | voice/engine/src/main.rs:319-329 | a partial is the text of that decode and all that is said in the turn |
| HelperLoop.PartialWhileOpen | voice/engine/src/main.rs:308-337 | a partial is not empty and follows a start with nothing but audio and silence since |
| HelperLoop.PartialsDiffer | voice/engine/src/main.rs:322-331 | consecutive partials of an utterance differ |
| HelperLoop.FinalSeesTheUtterance | voice/engine/src/main.rs:348-367 | the final decode sees exactly the samples of the audio frames since the last start, in its language |
| HelperLoop.HeardIsAudioSinceStart | voice/engine/src/main.rs:252-290 | an open utterance holds exactly the audio since its start |
| HelperLoop.Pcm16leToF32 | voice/engine/src/decode.rs:151-156 | one sample for each whole pair of bytes, appended to what was there |
| HelperLoop.SampleExact | voice/engine/src/decode.rs:151-156 | each 16-bit value is the sample it encodes |
| HelperLoop.SamplesConcat | voice/engine/src/decode.rs:151-156 | decoding whole samples frame by frame is decoding them together |
| CommentStripper.StripComments | crates/workshop-gates/src/lib.rs:74-128 | the scanner outputs exactly the text kept by parsing the source and dropping its comments but not their newlines |
| CommentStripper.ParsePrints | crates/workshop-gates/src/lib.rs:74-128 | every text, unterminated strings and comments included, is the print of its parse |
| CommentStripper.PrintParses | crates/workshop-gates/src/lib.rs:74-128 | every well-formed tree is the parse of its print |
| CommentLaws.OnlyStrip | crates/workshop-gates/src/lib.rs:72-128 | the stripper is the only function on texts that keeps every character of code and every literal, drops each line comment up to its newline and each nested block comment but for its newlines |
| CommentLaws.CodeStays | crates/workshop-gates/src/lib.rs:72-128 | code without comments or open literals stays in front of whatever follows, and that is stripped as if it stood alone |
| CommentStripper.NoOpenerLeft | crates/workshop-gates/src/lib.rs:74-128 | no opener is left outside the string literals |
| CommentStripper.UnchangedIff | crates/workshop-gates/src/lib.rs:74-128 | a text is left alone if and only if its parse has no comment |
| CommentStripper.Idempotent | crates/workshop-gates/src/lib.rs:74-128 | stripping twice is stripping once |
| CommentStripper.SameNewlines | crates/workshop-gates/src/lib.rs:74-128 | the newlines stay |

## Left out

- The supervisor's event loop and the vendors' event normalizers: the loop's promises rest on normalizers that are not part of this model.
- HTTP, TLS, sockets, pseudo-terminals, signals, archives and the keyring itself: they appear only as outcomes.
- Write-behind of the async file layer in the download: a chunk that was accepted counts as written until the flush.
- JSON and TOML text, UTF-8 decoding, SHA-256, Whisper and floating-point rounding: arbitrary functions, real numbers for samples.
- Bracketed-noise removal from recognised segments, which is an easy member beside the loop that calls it.
- Picker copy, suffixes, detail lines, status text, freshness notes and colours: presentation.
- Row ids as text: ids are values, so two kinds of row never share one, and `@` in a model reference is not split on.
- The catalog's provider groups and the vendors' model lists: inputs, with distinct ids, one group a provider and group names of their own.
- Recording an environment variable or an anonymous connection: one write of a record under the lock, as in a save.
- The clock behind an overdue first load and behind the helper's intervals: flags that may take any value at any key or turn.
- A host that assigns the picker's active connection while it is open, instead of building the picker with it.
- Failure to start a background thread, which ends the process.
- A kill that does not reach its process group: the last wait then simply lasts longer.
- Interleaving of several processes over the secret store: saves and forgets touch it only inside the lock that `ConnectionsFile` models.
- Two machines sharing one connections file, a file edited by hand while calls run, and a file that did not parse to begin with.
- CredentialBroker.ForgetOk: speaks of success only; a forget that fails is not all or nothing, because it deletes the secret before it writes the file, and `ForgetErr` says what is left.
