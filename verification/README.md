# Connect3Dp: the state engine and its companions, verified

Connect3Dp mirrors the state of 3D printers. A connector writes what it learns into a generated
*updater*; the connection turns the updater into a diff (`Changes`), applies it in place
(`AppendUpdate`) and broadcasts the diff; clients hold a replica and replay what they receive. This
project models that machinery over **every schema of scalars, dictionaries, sets and nested updaters**,
however deep (the two exceptions are listed at the end), proves exactly when
the replica agrees with the server, and lifts the result to runs of commits. Around it stand the
smaller stateful parts of the repository: the 3MF cache and scan, the request client, the scheduler,
the message format, spool matching, the operation lock, file pagination, the camera stream and the
log ring.

| Files | What they hold |
|---|---|
| `Schema.dfy`, `DiffEngine.dfy` | kinds of properties, values, updaters, diffs; what the generated members mean; the client's replay |
| `EmittedCode.dfy` | the generated members as loops over an object changed in place, each proved to compute that meaning |
| `Effects.dfy` | what an update brings about and what is reported, said place by place, and that the generated members do exactly that |
| `ReplayExact.dfy`, `Absorption.dfy` | when diff and apply agree; applying twice; the documented client order |
| `Replica.dfy`, `PropertyReplica.dfy`, `DocumentedReplica.dfy` | runs and late snapshots: of a whole value, of one property whatever the others do, and for a client that replays in the documented order |
| `Connection.dfy`, `Subscribers.dfy`, `MachineTypes.dfy` | `PreprocessState`, `CommitState` and notifications; what a machine's subscribers end up with; the annotated types themselves |
| `CommitEffects.dfy` | what a commit does, read off the state before it and the caller's update: auto-resolve, scheduled prints, entry keys |
| `SafeUpdates.dfy` | a condition on an update alone under which all of that applies, and convergence from a new machine |
| `FtpCache.dfy`, `FtpScan.dfy` | the LRU cache under interleaved downloads; the scan loop |
| `RequestClient.dfy`, `CronScheduler.dfy`, `MonoMachine.dfy` | request correlation, due-task collection, one operation at a time |
| `KeyValueMessage.dfy`, `CameraStream.dfy`, `FilePages.dfy`, `LogBuffer.dfy`, `Spools.dfy` | formats, framing, pagination, the ring, matching |
| `Text.dfy`, `Optional.dfy` | case-insensitive comparison; absent values |

Where the source changes state step by step, a `method` or a class does the same and its contract ties
the new state to a function of the old one; the lemmas are about that function. Concurrent parts
(cache, client, scheduler, lock) are also state machines whose `Run` takes an arbitrary sequence of
events, so their lemmas hold of every interleaving. Clock readings, transfer and parse results, random
ids, cron answers and network chunking are arbitrary inputs.

## Where the code does not do what one would expect

Each of these is a proved statement; the code was followed as it is.

* **Diff and apply disagree** on a key or element that is both set and removed but was not there
  before, and on a property that is itself an updater unless the old value exists and is rebuilt in
  full, or the update cannot create a value and says nothing new. `ReplayExact.ReplayIsExact` gives the
  exact condition. Two real cases concern the current job: a job that starts where there was none
  reaches the state and is reported to nobody (`MachineTypes.JobStartIsAppliedNotReported`), so a
  replica without a job never gets one (`Subscribers.MissingStaysMissing`); and a Creality progress
  message is broadcast and never reaches the state (`MachineTypes.ProgressIsReportedNotApplied`). Every
  other property of such a run still converges (`Subscribers.SubscriberPropertyConverges`).
* **The order shown to client authors** (remove, add, update: `Connect3Dp.JS/README.md:233-251`)
  leaves a partial entry behind for a key that is both updated and removed: a notification set again
  while its auto-resolve condition holds (`DocumentedReplica.SetAgainWhileResolvedClashes`). Applied to
  other dictionaries, as `Connect3Dp.JS/README.md:273` invites, it also skips a new value that
  JavaScript takes for false: an extruder that cools to zero keeps its old temperature
  (`DocumentedReplica.CoolingToZeroIsSkipped`). `Absorption.DocumentedOrderIsExact` says for which diffs
  the order is right.
* **A failed operation never releases the machine**: after a timeout or an exception every later
  operation waits forever (`MonoMachine.FailureBlocksForever`).
* **A file page that holds an entry without path and name** counts as short and can end the listing
  early (`FilePages.NamelessEntryTruncates`, with `FilePages.CompleteIff` for the exact condition).
* **Spools that share a location** can mislead rematching: it offers the second and the next check finds
  the first (`Spools.SharedLocationMisleads`, with `Spools.RematchRepairsAllIff` for the exact condition).
* **A message with an empty prefix and no values** prints to the empty string, which does not parse
  (`KeyValueMessage.RoundTripIsExact`).

## Model

| member | source | states |
|---|---|---|
| EmittedCode.ChangesOf | Generators/PartialBuilderSourceGen/PartialBuilderSourceGen.cs:560-779 | the emitted diff code, property by property, computes `Changes` for every schema |
| EmittedCode.ObjectChangesOf | Generators/PartialBuilderSourceGen/PartialBuilderSourceGen.cs:566-581 | the diff of an annotated type is the record of its properties' diffs |
| EmittedCode.PropertyChanges | Generators/PartialBuilderSourceGen/PartialBuilderSourceGen.cs:581-776 | the visit of all properties reports each set property against its own old value |
| EmittedCode.PlainChanges | Generators/PartialBuilderSourceGen/PartialBuilderSourceGen.cs:622-643 | a plain dictionary reports new keys as added, differing ones as updated, present ones as removed, all against the old dictionary |
| EmittedCode.EntriesChanges | Generators/PartialBuilderSourceGen/PartialBuilderSourceGen.cs:584-656 | the dictionary-of-updaters diff is `Changes` |
| EmittedCode.DiffOrCreate | Generators/PartialBuilderSourceGen/PartialBuilderSourceGen.cs:599-634 | existing entries are diffed without `TryCreate` and listed only with changes; absent ones are listed only when `TryCreate` succeeds |
| EmittedCode.PresentOf | Generators/PartialBuilderSourceGen/PartialBuilderSourceGen.cs:636-643 | only keys of the old dictionary are reported as removed |
| EmittedCode.TryCreate | Generators/PartialBuilderSourceGen/PartialBuilderSourceGen.cs:490-558 | succeeds exactly when every demanded property is given, at every depth; the result is made as `Made` says |
| EmittedCode.InitialMembers | Generators/PartialBuilderSourceGen/PartialBuilderSourceGen.cs:504-543 | the required checks fail on the first missing member, else the initializer holds every property |
| EmittedCode.InitialMember | Generators/PartialBuilderSourceGen/PartialBuilderSourceGen.cs:505-532 | one member: refused when required and unset, else its set value or its default |
| EmittedCode.ApplyMember | Generators/PartialBuilderSourceGen/PartialBuilderSourceGen.cs:812-926 | set first then remove; init-only skipped; nested updater replaced through `TryCreate` |
| EmittedCode.PutAndDrop | Generators/PartialBuilderSourceGen/PartialBuilderSourceGen.cs:850-861 | a plain dictionary after its assignments and then its removals |
| EmittedCode.UpdateOrCreate | Generators/PartialBuilderSourceGen/PartialBuilderSourceGen.cs:822-861 | existing entries are updated in place, absent ones created if possible, then removals apply |
| EmittedCode.Target.AppendUpdate | Generators/PartialBuilderSourceGen/PartialBuilderSourceGen.cs:781-935 | the object afterwards is what `Effect` says of the object before, and the diff what `Reported` says of it |
| Effects.CreatableIff | Generators/PartialBuilderSourceGen/PartialBuilderSourceGen.cs:504-522 | a value can be created exactly when each demanded property, found by its path, is given |
| Effects.EntryCreatableIff | Generators/PartialBuilderSourceGen/PartialBuilderSourceGen.cs:604-620 | for a dictionary entry the key property need not be given |
| Effects.ApplyIsEffect | Generators/PartialBuilderSourceGen/PartialBuilderSourceGen.cs:781-935 | after an update every scalar, element, key and nested value is what the update and the old value say, place by place; an entry's key property reads its key |
| Effects.CreateIsMade | Generators/PartialBuilderSourceGen/PartialBuilderSourceGen.cs:490-558 | a created value holds what was set and defaults elsewhere; an init-only scalar takes part only when required |
| Effects.EffectIsUnique | Generators/PartialBuilderSourceGen/PartialBuilderSourceGen.cs:781-935 | that leaves no choice: Effect determines the value |
| Effects.ChangesIsReported | Generators/PartialBuilderSourceGen/PartialBuilderSourceGen.cs:560-779 | what is reported, place by place: old and new value of each changed scalar, added, removed and updated keys, new entries and touched ones with their own diffs |
| DiffEngine.QuietDiffIsIdentity | Generators/PartialBuilderSourceGen/PartialBuilderSourceGen.cs:112-138 | a diff without `HasChanged` moves no replica whatever it holds, so suppressing it loses nothing |
| DiffEngine.HasChangedIsExact | Generators/PartialBuilderSourceGen/PartialBuilderSourceGen.cs:112-138 | `HasChanged` holds exactly when replaying the diff alters the old value |
| DiffEngine.QuietIsExact | Generators/PartialBuilderSourceGen/PartialBuilderSourceGen.cs:560-779 | no change is reported exactly when the update says only what the old value already holds, at every depth |
| ReplayExact.ApplyFits | Generators/PartialBuilderSourceGen/PartialBuilderSourceGen.cs:781-935 | applying keeps the annotated type, at every depth |
| ReplayExact.CreateFits | Generators/PartialBuilderSourceGen/PartialBuilderSourceGen.cs:490-558 | whatever `TryCreate` hands out is a complete value of its type |
| ReplayExact.RebuildIsExact | Generators/PartialBuilderSourceGen/PartialBuilderSourceGen.cs:705-735 | for a property replaced through `TryCreate` but diffed field by field: replaying the diff yields the replacement exactly when everything the old value holds is set again or is what a new object holds |
| ReplayExact.ReplayIsExact | Generators/PartialBuilderSourceGen/PartialBuilderSourceGen.cs:560-935 | for every schema, update and old value, replaying `Changes` onto the old value equals `AppendUpdate` if and only if `ReplayAgrees` holds |
| ReplayExact.ReportedIffAltered | Generators/PartialBuilderSourceGen/PartialBuilderSourceGen.cs:112-138 | under that condition a diff is reported exactly when applying altered the value |
| Absorption.ApplyTwice | Generators/PartialBuilderSourceGen/PartialBuilderSourceGen.cs:781-935 | applying any update a second time changes nothing, for every schema |
| Absorption.SecondReport | Generators/PartialBuilderSourceGen/PartialBuilderSourceGen.cs:560-779 | the second application reports no change if and only if the update settles: nothing creatable is both set and removed, and a nested update that cannot create a value says nothing new |
| Absorption.Absorbed | Generators/PartialBuilderSourceGen/PartialBuilderSourceGen.cs:490-935 | with disjoint sets and removals, and nested updaters (if any) that can create their values, the second application is silent and harmless, including entries that cannot be created; for every schema |
| Absorption.DocumentedOrderIsExact | Connect3Dp.JS/README.md:233-273 | remove-add-update with the truthiness test replays a diff as add-update-remove does exactly when no key is reported both updated and removed and no scalar changes to a falsy value |
| Absorption.DocumentedGivesState | Connect3Dp.JS/README.md:233-273 | for a commit that meets the replay condition, those are exactly the diffs from which the documented client gets the state `AppendUpdate` leaves |
| Absorption.DisjointNeverClashes | Connect3Dp.JS/README.md:233-251 | sets and removals disjoint at every depth never report a key both updated and removed, for every schema |
| DocumentedReplica.SetAgainWhileResolvedClashes | Connect3Dp.JS/README.md:233-251 | a present notification set again while its condition holds leaves the state, but the documented client keeps an entry without `IssuedAt` |
| DocumentedReplica.CoolingToZeroIsSkipped | Connect3Dp.JS/README.md:233-273 | an extruder set to zero degrees replays exactly, but the client that applies the pattern to extruders keeps the old temperature |
| DocumentedReplica.FalsyIsSkipped | Connect3Dp.JS/README.md:233-273 | the same for any entry of scalars set to a falsy value |
| DocumentedReplica.DocumentedStep | Connect3Dp.JS/README.md:233-251 | replaying a diff without a clash in the documented order keeps a late replica between the state and its snapshot |
| DocumentedReplica.LateSnapshotConvergesDocumented | Connect3Dp.JS/README.md:233-251 | over every run of diffs it replays as meant, a client in the documented order converges from a snapshot read at any time |
| Replica.BetweenStep | Connect3Dp/Extensions/Connect3Dp/Connect3DpWebSocketExtensions.Machine.cs:24-39 | a replica seeded too late stays, leaf by leaf, between the state being replayed and its own snapshot |
| Replica.BetweenEqualEnds | Connect3Dp/Extensions/Connect3Dp/Connect3DpWebSocketExtensions.Machine.cs:24-39 | once the replay reaches the snapshot, being between means being equal |
| Replica.Follows | Connect3Dp/Extensions/Connect3Dp/Connect3DpWebSocketExtensions.Machine.cs:56-78 | a replica that starts with the server's state and gets every diff stays equal to it |
| Replica.FollowsIff | Connect3Dp/Extensions/Connect3Dp/Connect3DpWebSocketExtensions.Machine.cs:56-78 | over a well-typed run it agrees after every commit if and only if every commit meets the replay condition in the state it finds |
| Replica.CatchesUp | Connect3Dp/Extensions/Connect3Dp/Connect3DpWebSocketExtensions.Machine.cs:24-78 | replaying diffs already contained in the snapshot leads back to the snapshot |
| Replica.SilentDiffsDoNotMatter | Lib3Dp/Connectors/MachineConnection.cs:296-296 | a run of diffs and the broadcast ones among them move any replica alike |
| Replica.LateSnapshotConverges | Connect3Dp/Extensions/Connect3Dp/Connect3DpWebSocketExtensions.Machine.cs:24-78 | registering first and reading the state later still converges: all broadcasts since the registration, replayed onto any later snapshot, give the final state |
| PropertyReplica.PropertyConverges | Connect3Dp/Extensions/Connect3Dp/Connect3DpWebSocketExtensions.Machine.cs:24-78 | one property of a late replica converges whenever its own updates meet the replay condition, whatever the run does to the others |
| PropertyReplica.GoodRunIsPerProperty | Connect3Dp/Extensions/Connect3Dp/Connect3DpWebSocketExtensions.Machine.cs:24-78 | a run meets the condition for the whole object exactly when it is well typed and meets it for each property |
| PropertyReplica.NullStaysNull | Generators/PartialBuilderSourceGen/PartialBuilderSourceGen.cs:576-577 | no run of diffs ever gives a replica a nested value it does not hold |
| Connection.PreprocessKeepsReplay | Lib3Dp/Connectors/MachineConnection.cs:153-216 | the removals that preprocessing adds keep the caller's update well typed and keep its replay condition |
| Connection.CommitReportedIffAltered | Lib3Dp/Connectors/MachineConnection.cs:218-298 | a commit raises OnChanges exactly when it altered the state |
| Connection.ResolvedDoesNotSurvive | Lib3Dp/Connectors/MachineConnection.cs:171-191 | no notification survives a commit whose auto-resolve condition held before it, even if set again by that commit |
| CommitEffects.AutoResolveRule | Lib3Dp/Connectors/MachineConnection.cs:171-191 | a notification is gone after a commit exactly when, in the state before, its message resolves while printing or printed, in the status it names, or while connected, or when the caller removes it |
| CommitEffects.NotificationStep | Lib3Dp/Connectors/MachineConnection.cs:171-191 | otherwise it is what the caller's update makes of it |
| CommitEffects.NotificationIsSet | Lib3Dp/Extensions/MachineStateUpdateExtensions.cs:12-17 | a notification the caller sets has the new message and time of sight after the commit, and its old issue time if it was there |
| CommitEffects.ScheduledPrintRule | Lib3Dp/Connectors/MachineConnection.cs:193-215 | a scheduled print leaves exactly when the caller removes it or a local job with its file |
| CommitEffects.OtherPropertiesAsGiven | Lib3Dp/Connectors/MachineConnection.cs:218-231 | every other property becomes what the caller's update makes of it |
| CommitEffects.EntriesCarryTheirKey | Generators/PartialBuilderSourceGen/PartialBuilderSourceGen.cs:607-608 | every entry an update concerns reads its key in its key property afterwards, in the state, in the diff's new entries and in a replica |
| CommitEffects.UnitIdsEqualTheirKeys | Generators/PartialBuilderSourceGen/PartialBuilderSourceGen.cs:827-828 | over every run of a new machine the ID of every material unit equals its key |
| CommitEffects.UnitCreatedByKey | Lib3Dp/Connectors/Creality/CrealityK1CConnection.cs:112-120 | a unit given only its capacity and capabilities is created under its key as ID |
| CommitEffects.JobDemands | Lib3Dp/State/PrintJob.cs:10-14 | a print job is created exactly when name, progress and both times are set |
| CommitEffects.SetNotificationFits | Lib3Dp/Extensions/MachineStateUpdateExtensions.cs:12-17 | setting a notification keeps an update well typed |
| Connection.InitOnlyKept | Generators/PartialBuilderSourceGen/PartialBuilderSourceGen.cs:898-904 | `AppendUpdate` never touches an init-only property |
| Connection.IssuedAtKept | Lib3Dp/Connectors/MachineConnection.cs:164-167 | a notification present before and after a commit keeps its `IssuedAt` |
| Connection.IssuedAtKeptOverRuns | Lib3Dp/Connectors/MachineConnection.cs:164-167 | the same over every run in which it stays present |
| Connection.SeenAfterIssuedOverRuns | Lib3Dp/Extensions/MachineStateUpdateExtensions.cs:12-17 | with a non-decreasing clock every notification of every run has `LastSeenAt >= IssuedAt` |
| Connection.SetNotificationsStamps | Lib3Dp/Extensions/MachineStateUpdateExtensions.cs:12-17 | updates built with `SetNotifications` meet the stamping the previous result assumes |
| Connection.SetNotificationsCreates | Lib3Dp/Extensions/MachineStateUpdateExtensions.cs:15-15 | a notification set that way can always be created |
| Connection.CallersGoodRun | Lib3Dp/Connectors/MachineConnection.cs:218-298 | if each caller's update meets the replay condition in the state it finds, so does what is applied, over the whole run |
| Subscribers.PreprocessKeepsProperty | Lib3Dp/Connectors/MachineConnection.cs:153-216 | preprocessing keeps the replay condition of every single property that meets it |
| Subscribers.SubscriberPropertyConverges | Connect3Dp/Extensions/Connect3Dp/Connect3DpWebSocketExtensions.Machine.cs:24-78 | a subscriber, whenever it read its snapshot, ends with the machine's value of every property whose own updates meet the replay condition, preprocessing and suppressed diffs included, whatever happens to the other properties |
| Subscribers.CallersGoodIsPerProperty | Lib3Dp/Connectors/MachineConnection.cs:218-298 | the condition on a whole run is exactly the condition on each property |
| Subscribers.SubscriberConverges | Connect3Dp/Extensions/Connect3Dp/Connect3DpWebSocketExtensions.Machine.cs:24-78 | when every property's updates meet it, the subscriber ends with the whole state |
| Subscribers.MissingStaysMissing | Generators/PartialBuilderSourceGen/PartialBuilderSourceGen.cs:576-577 | a subscriber whose snapshot had no value in a nested property never gets one, over any run |
| Connection.Updater.RemoveNotifications | Generators/PartialBuilderSourceGen/PartialBuilderSourceGen.cs:322-328 | adds one key to the removals and nothing else |
| Connection.Updater.RemoveScheduledPrints | Generators/PartialBuilderSourceGen/PartialBuilderSourceGen.cs:390-395 | adds one element to the removals and nothing else |
| Connection.Updater.SetNotifications | Lib3Dp/Extensions/MachineStateUpdateExtensions.cs:12-17 | sets message and both times with one clock reading, changes no other notification and nothing else of this one |
| Connection.MachineConnection.PreprocessState | Lib3Dp/Connectors/MachineConnection.cs:153-216 | the update gains exactly the resolved notifications and the orphaned scheduled prints as removals |
| Connection.MachineConnection.RemoveOrphans | Lib3Dp/Connectors/MachineConnection.cs:195-215 | exactly the scheduled prints of a removed job's file are removed |
| Connection.MachineConnection.CommitState | Lib3Dp/Connectors/MachineConnection.cs:218-298 | new state, raised diffs, and, under the replay condition, raised if and only if the state changed |
| MachineTypes.MachineStateIsMachine | Lib3Dp/State/MachineState.cs:8-37 | the machine state is a schema to which all the above applies |
| MachineTypes.ProgressIsReportedNotApplied | Lib3Dp/Connectors/Creality/CrealityK1CConnection.cs:420-426 | a progress-only job update is reported to clients, moves their replicas, and never reaches the state |
| MachineTypes.JobStartIsAppliedNotReported | Generators/PartialBuilderSourceGen/PartialBuilderSourceGen.cs:574-577 | a job created where there was none reaches the state, is reported to nobody, and breaks the replay condition |
| MachineTypes.AppliedNotReported | Generators/PartialBuilderSourceGen/PartialBuilderSourceGen.cs:574-577 | the same for any nested property, exactly when applying alters it |
| MachineTypes.ReportedNotApplied | Generators/PartialBuilderSourceGen/PartialBuilderSourceGen.cs:905-919 | the same for any nested property whose update cannot create a value but contradicts the old one |
| SafeUpdates.SetsAllRebuilds | Generators/PartialBuilderSourceGen/PartialBuilderSourceGen.cs:705-735 | a nested updater that sets everything can be created, and its diff rebuilds the new value from any old one |
| SafeUpdates.ApplyFilled | Generators/PartialBuilderSourceGen/PartialBuilderSourceGen.cs:781-935 | no update empties a mandatory nested property, at any depth |
| SafeUpdates.SafeAgrees | Generators/PartialBuilderSourceGen/PartialBuilderSourceGen.cs:560-935 | an update that sets and removes nothing in common, and sets nested properties in full, replays exactly in every state |
| SafeUpdates.NewStateFits | Lib3Dp/State/MachineState.cs:8-37 | a new machine state is a complete value of its type |
| SafeUpdates.SafeRunsConverge | Connect3Dp/Extensions/Connect3Dp/Connect3DpWebSocketExtensions.Machine.cs:24-78 | from a new machine, over every well-typed run, a subscriber ends with the machine's value of every property whose own updates are safe, whatever the run does to the other properties, the current job included |
| SafeUpdates.SafeRunsConvergeWhole | Connect3Dp/Extensions/Connect3Dp/Connect3DpWebSocketExtensions.Machine.cs:24-78 | when they are safe at every property, with the whole state |
| FtpCache.CacheInvariant | Lib3Dp/Connectors/BambuLab/FTP/BBLFTPConnection.cs:286-388 | under any interleaving of downloads: no duplicates on the list, at most 100 keys, every cached key listed, held by a download between its write and its touch, or being evicted |
| FtpCache.QuiescentCacheIsBounded | Lib3Dp/Connectors/BambuLab/FTP/BBLFTPConnection.cs:286-388 | with no download in flight the cache holds at most 100 entries, all listed |
| FtpCache.CacheIsBounded | Lib3Dp/Connectors/BambuLab/FTP/BBLFTPConnection.cs:286-388 | in every interleaving the cache holds at most 100 entries plus one per download that holds a key |
| FtpCache.LookupAndStore | Lib3Dp/Connectors/BambuLab/FTP/BBLFTPConnection.cs:338-371 | a lookup finds exactly what is cached; an uncached file is stored as it was parsed |
| FtpCache.ScanForgetsPath | Lib3Dp/Connectors/BambuLab/FTP/BBLFTPConnection.cs:138-143 | a path the scan removes is forgotten, and only that |
| FtpCache.ListIsMostRecent | Lib3Dp/Connectors/BambuLab/FTP/BBLFTPConnection.cs:286-302 | in every interleaving the list is the 100 most recently touched keys in order |
| FtpCache.RecencyIsByLastTouch | Lib3Dp/Connectors/BambuLab/FTP/BBLFTPConnection.cs:286-302 | that order is the order of last touches |
| FtpCache.EvictedIsLeastRecent | Lib3Dp/Connectors/BambuLab/FTP/BBLFTPConnection.cs:295-300 | the evicted key leaves the list and was touched before every key that stays |
| FtpCache.EvictionIsExclusive | Lib3Dp/Connectors/BambuLab/FTP/BBLFTPConnection.cs:288-300 | until an eviction ends nobody changes the list, and its end drops exactly the evicted key from the cache |
| FtpCache.TouchKeepsSequential | Lib3Dp/Connectors/BambuLab/FTP/BBLFTPConnection.cs:286-302 | touching a just-cached key keeps cache keys equal to list keys |
| FtpCache.BBLFTPConnection.TouchLRU | Lib3Dp/Connectors/BambuLab/FTP/BBLFTPConnection.cs:286-302 | moves the key to the front and evicts the last one past the limit |
| FtpCache.BBLFTPConnection.Download3MF | Lib3Dp/Connectors/BambuLab/FTP/BBLFTPConnection.cs:327-388 | one download alone: hit, parse, recovery or rethrow, with cache keys equal to list keys throughout |
| FtpScan.PassReconciles | Lib3Dp/Connectors/BambuLab/FTP/BBLFTPConnection.cs:124-186 | after every completed pass known and failed files are disjoint, together the listing's .3mf files, each failed one with its current size and time |
| FtpScan.PassOutcome | Lib3Dp/Connectors/BambuLab/FTP/BBLFTPConnection.cs:124-186 | a completed pass, path by path: unlisted files are forgotten, known ones kept, unchanged failed ones not tried again, any other tried and its outcome remembered |
| FtpScan.PassEvents | Lib3Dp/Connectors/BambuLab/FTP/BBLFTPConnection.cs:134-186 | its events: one for all missing known files, then one for each file added |
| FtpScan.CurrentIsListed | Lib3Dp/Connectors/BambuLab/FTP/BBLFTPConnection.cs:126-132 | a path is current exactly when a .3mf file item names it, with the last such item's size and time |
| FtpScan.EventsAlternate | Lib3Dp/Connectors/BambuLab/FTP/BBLFTPConnection.cs:109-219 | over every run, cut passes included, the known files are those whose last event was "added", and adds and removes alternate per path |
| FtpScan.Scanner.ScanOnce | Lib3Dp/Connectors/BambuLab/FTP/BBLFTPConnection.cs:124-186 | one turn of the loop computes the pass |
| FtpScan.Scanner.RemoveMissing | Lib3Dp/Connectors/BambuLab/FTP/BBLFTPConnection.cs:134-152 | missing known files are forgotten and reported at once; failed entries of missing files go |
| FtpScan.Scanner.SelectDownloads | Lib3Dp/Connectors/BambuLab/FTP/BBLFTPConnection.cs:154-166 | exactly the files neither known nor failed unchanged, in listing order |
| FtpScan.CurrentFiles | Lib3Dp/Connectors/BambuLab/FTP/BBLFTPConnection.cs:126-132 | the .3mf files by path, a later item winning |
| RequestClient.Correlation | Connect3Dp.JS/src/client.ts:503-593 | over every interleaving: each request settles at most once, resolves only with a message bearing its id, and the pending map is exactly the sent and unsettled requests, each with an armed timer |
| RequestClient.NothingPendingAfterClose | Connect3Dp.JS/src/client.ts:445-448 | after a close or disconnect nothing is pending, no timer armed, every sent request settled |
| RequestClient.ReplyResolves | Connect3Dp.JS/src/client.ts:514-523 | a reply resolves its own pending request with its data, clears the timer and reaches no topic handler |
| RequestClient.StrayIsDispatched | Connect3Dp.JS/src/client.ts:525-529 | any other message goes to the topic handlers and settles nothing |
| RequestClient.TimeoutRejects | Connect3Dp.JS/src/client.ts:560-563 | an armed timeout rejects and forgets its request; a cleared one does nothing |
| RequestClient.RequestWaitsOrIsRejected | Connect3Dp.JS/src/client.ts:547-585 | a request waits with a timer, or is rejected at once on a closed socket or a throwing send |
| RequestClient.CloseRejectsInOrder | Connect3Dp.JS/src/client.ts:587-593 | a close or disconnect rejects exactly what is pending, in order |
| RequestClient.EveryRequestIsAccounted | Connect3Dp.JS/src/client.ts:547-593 | every request ever made is pending or settled |
| RequestClient.Connect3DpClient.Request | Connect3Dp.JS/src/client.ts:547-585 | a closed socket or a throwing send rejects and leaves no trace; otherwise pending with a timer |
| RequestClient.Connect3DpClient.TimerFires | Connect3Dp.JS/src/client.ts:560-563 | the request is forgotten and rejected |
| RequestClient.Connect3DpClient.HandleMessage | Connect3Dp.JS/src/client.ts:503-530 | a reply settles its own pending request; anything else is dispatched by topic |
| RequestClient.Connect3DpClient.RejectAllPending | Connect3Dp.JS/src/client.ts:587-593 | every pending request is rejected in order, its timer cleared |
| RequestClient.Connect3DpClient.OnClose | Connect3Dp.JS/src/client.ts:445-448 | the close handler rejects everything pending |
| RequestClient.Connect3DpClient.Disconnect | Connect3Dp.JS/src/client.ts:145-150 | so does disconnect |
| CronScheduler.OccurrencesIncrease | Lib3Dp/Scheduling/CronScheduler.cs:53-113 | over every interleaving and any clock readings, even backwards, a task's collected occurrences strictly increase and none is collected early |
| CronScheduler.CheckIsComplete | Lib3Dp/Scheduling/CronScheduler.cs:93-113 | a check collects every due task for its occurrence, nothing else, and leaves none due at its own clock reading |
| CronScheduler.CheckAdvancesDue | Lib3Dp/Scheduling/CronScheduler.cs:104-112 | a check sets each due task to its expression's next occurrence after the reading, and changes no other task |
| CronScheduler.NextRunFollowsLastReading | Lib3Dp/Scheduling/CronScheduler.cs:53-113 | over every run a listed task runs next at the next occurrence after its last collection, or after its scheduling |
| CronScheduler.RecurringRunsAgain | Lib3Dp/Scheduling/CronScheduler.cs:104-112 | the first check at or after a task's next run collects it for that run and schedules the one after |
| CronScheduler.EndedIsNeverCollected | Lib3Dp/Scheduling/CronScheduler.cs:69-81 | an ended task is never collected again, whatever follows |
| CronScheduler.Scheduler.ScheduleAsync | Lib3Dp/Scheduling/CronScheduler.cs:53-67 | the task is listed with its next occurrence; without one the call throws and the task stays listed |
| CronScheduler.Scheduler.End | Lib3Dp/Scheduling/CronScheduler.cs:69-81 | removes the first task of that id and no other, and says whether there was one |
| CronScheduler.Scheduler.CheckScheduledTasks | Lib3Dp/Scheduling/CronScheduler.cs:93-113 | the loop under the lock collects the due tasks and sets each, and only those, to its next occurrence |
| KeyValueMessage.RoundTripIsExact | Lib3Dp/Utilities/PrefixedFixedLengthKeyValueMessage.cs:20-72 | a printed message parses back in order exactly when keys are non-empty and free of `=`, `:`, `]`, values are free of `]`, and something was printed |
| KeyValueMessage.ParseIsGrammar | Lib3Dp/Utilities/PrefixedFixedLengthKeyValueMessage.cs:34-72 | a text is accepted exactly when it is the prefix followed by readable blocks, and not empty; it yields their values assigned in order |
| KeyValueMessage.PrintIsWritten | Lib3Dp/Utilities/PrefixedFixedLengthKeyValueMessage.cs:20-32 | a message prints to its prefix and its pairs as blocks, each length in plain decimal |
| KeyValueMessage.ParseIntIsSpelling | Lib3Dp/Utilities/PrefixedFixedLengthKeyValueMessage.cs:59-59 | a length is read exactly from its spellings (white space, a sign, digits, trailing nulls) within 32 bits |
| KeyValueMessage.AcceptedNormalizes | Lib3Dp/Utilities/PrefixedFixedLengthKeyValueMessage.cs:34-72 | whatever was accepted prints to text that parses to the same message |
| KeyValueMessage.AcceptedIsPrintable | Lib3Dp/Utilities/PrefixedFixedLengthKeyValueMessage.cs:43-68 | accepted messages have printable pairs and keys distinct up to case |
| KeyValueMessage.PutKeys | Lib3Dp/Utilities/PrefixedFixedLengthKeyValueMessage.cs:13-18 | assigning keeps keys distinct up to case and touches one place |
| KeyValueMessage.PutStores | Lib3Dp/Utilities/PrefixedFixedLengthKeyValueMessage.cs:13-18 | assigning changes the value of that key alone, keeps its place and first spelling, and appends a new key |
| KeyValueMessage.Message.ToString | Lib3Dp/Utilities/PrefixedFixedLengthKeyValueMessage.cs:20-32 | the loop prints prefix and pairs, and the text parses back to the message exactly when the pairs are printable and something was printed |
| KeyValueMessage.Message.Add | Lib3Dp/Utilities/PrefixedFixedLengthKeyValueMessage.cs:15-18 | assigns one key and keeps the keys distinct up to case |
| KeyValueMessage.Message.TryParse | Lib3Dp/Utilities/PrefixedFixedLengthKeyValueMessage.cs:34-72 | the loop, with an always advancing index, computes the parse; the message it hands out has printable pairs and keys distinct up to case |
| Spools.MatchesAreExact | Lib3Dp/Extensions/IMachineStateExtensions.cs:21-52 | a match is listed exactly when it is a loaded spool of similar material |
| Spools.SimilarMeans | Lib3Dp/Extensions/IMachineStateExtensions.cs:33-44 | similar means the same name up to case and at most 40 apart in colour |
| Spools.MatchesInOrder | Lib3Dp/Extensions/IMachineStateExtensions.cs:29-48 | the matches are the similar spools, each once, unit by unit in tray order |
| Spools.BestIsFirstClosest | Lib3Dp/Extensions/IMachineStateExtensions.cs:54-54 | the best match is the first of the closest |
| Spools.FindPartitions | Lib3Dp/Extensions/IMachineStateExtensions.cs:51-58 | a required filament is missing exactly when no loaded spool is similar; otherwise its matches are exactly the similar spools and the best is the first of the closest |
| Spools.RematchIsSound | Lib3Dp/Extensions/IMachineStateExtensions.cs:68-122 | on success valid entries and those of other filaments are unchanged and repaired ones hold the required material; a repaired entry is valid exactly when the first spool similar to the required material can be found where it is, so always where locations agree |
| Spools.CanRematchIff | Lib3Dp/Extensions/IMachineStateExtensions.cs:88-114 | rematching succeeds exactly when every required filament whose mapping no longer holds has a similar spool |
| Spools.ValidMeans | Lib3Dp/Extensions/IMachineStateExtensions.cs:74-86 | a mapping holds exactly when the first spool at its location exists and is similar to the recorded one |
| Spools.RematchRepairsAllIff | Lib3Dp/Extensions/IMachineStateExtensions.cs:68-122 | every required entry is valid after a successful call exactly when, for each material to match again, the first similar spool is not hidden behind another at its location |
| Spools.AllMatchesFirst | Lib3Dp/Extensions/IMachineStateExtensions.cs:29-48 | the first match listed is the first similar spool in enumeration order |
| Spools.RematchTwice | Lib3Dp/Extensions/IMachineStateExtensions.cs:68-122 | a second call returns true and changes nothing, in every state; where locations agree, what is still invalid is exactly what was and is not required |
| Spools.UniqueLocationsAgree | Lib3Dp/Extensions/IMachineStateExtensions.cs:124-142 | with unique unit ids and spool numbers, locations agree |
| Spools.SharedLocationMisleads | Lib3Dp/Extensions/IMachineStateExtensions.cs:98-141 | with two dissimilar spools of one number, a successful rematch leaves an entry the next check finds invalid |
| Spools.TryGetLoadedSpool | Lib3Dp/Extensions/IMachineStateExtensions.cs:124-142 | the first loaded spool at the location |
| Spools.LoadedIsFirst | Lib3Dp/Extensions/IMachineStateExtensions.cs:124-142 | the loaded spool is the first in enumeration order at the location, and none is found when there is none |
| Spools.FindMatchingSpools | Lib3Dp/Extensions/IMachineStateExtensions.cs:21-59 | the nested loops compute the matches |
| Spools.SpoolMap.TryRematch | Lib3Dp/Extensions/IMachineStateExtensions.cs:68-122 | all replacements or none: false leaves the map untouched |
| MonoMachine.OneAtATime | Lib3Dp/MonoMachine.cs:20-96 | over every interleaving at most one operation is inside, the lock is free exactly when nobody is inside and every finished one succeeded, a poll loop reads its own stopwatch, an operation succeeds after as many answers as polls of which only the last is true and tells the time that took, and times out after false ones alone and more than its timeout; polls are bounded by the timeout |
| MonoMachine.EachPlaceMoves | Lib3Dp/MonoMachine.cs:22-55 | no operation is stuck except behind the lock or in its delay: a free lock is taken, a true answer leads to success and frees the lock, a false one to a delay of 250 ms or, past the timeout, to a timeout |
| MonoMachine.FailureBlocksForever | Lib3Dp/MonoMachine.cs:28-46 | after a failed operation every other one waits forever |
| MonoMachine.Machine.MutateUntil | Lib3Dp/MonoMachine.cs:20-56 | one operation: result, number of polls and release for each way it can end |
| FilePages.CycleEndsAtFirstEnd | Lib3Dp/Connectors/Creality/CrealityK1CConnection.cs:466-521 | every cycle ends within 200 requests, at the first page that is empty, shorter than the first, or the 200th, with exactly the files received |
| FilePages.CommitsPrefix | Lib3Dp/Connectors/Creality/CrealityK1CConnection.cs:466-521 | a fresh cycle stops at the first page that ends it and commits exactly the files up to there |
| FilePages.CompleteIff | Lib3Dp/Connectors/Creality/CrealityK1CConnection.cs:466-547 | the committed list is the whole list exactly when no page of it ends the cycle while a file lies beyond |
| FilePages.NamedListIsComplete | Lib3Dp/Connectors/Creality/CrealityK1CConnection.cs:466-521 | a list of named files is committed whole and in order exactly when it fits in 200 pages, else its first 200 pages are |
| FilePages.NamelessEntryTruncates | Lib3Dp/Connectors/Creality/CrealityK1CConnection.cs:529-530 | a concrete list with a nameless entry loses its last files |
| FilePages.DedupHandles | Lib3Dp/Connectors/Creality/CrealityK1CConnection.cs:551-554 | deduplication loses no handle and repeats none |
| FilePages.DedupKeepsFirsts | Lib3Dp/Connectors/Creality/CrealityK1CConnection.cs:551-554 | it keeps the first file of each handle, in order |
| FilePages.CrealityK1CConnection.SendGetFilesAndHistory | Lib3Dp/Connectors/Creality/CrealityK1CConnection.cs:233-252 | a fresh cycle unless one is active and was active within 30 seconds |
| FilePages.CrealityK1CConnection.HandleFilePage | Lib3Dp/Connectors/Creality/CrealityK1CConnection.cs:466-521 | the page is added; the list is committed and the cycle reset exactly on an empty page, one shorter than the first, or the 200th, and otherwise the next page is requested |
| FilePages.CrealityK1CConnection.DedupLoop | Lib3Dp/Connectors/Creality/CrealityK1CConnection.cs:551-554 | the loop computes the deduplication |
| FilePages.ExtractFiles | Lib3Dp/Connectors/Creality/CrealityK1CConnection.cs:523-547 | entries without path and name are skipped, the others kept in order |
| FilePages.RunCycle | Lib3Dp/Connectors/Creality/CrealityK1CConnection.cs:233-252 | a connection driven by in-order replies commits the cycle's result within 200 requests |
| CameraStream.FillBuffer | Lib3Dp/Connectors/BambuLab/BBLEspLANCameraStreamer.cs:120-129 | however reads split the bytes, the buffer gets the next bytes of the stream, or the stream ended first, or the token was found cancelled |
| CameraStream.ReadLoop | Lib3Dp/Connectors/BambuLab/BBLEspLANCameraStreamer.cs:64-85 | the emitted frames are those of the whole byte sequence, whatever the chunking; cancelled between frames or inside a read, they are its first ones |
| CameraStream.FramesRoundTrip | Lib3Dp/Connectors/BambuLab/BBLEspLANCameraStreamer.cs:64-85 | a stream of framed non-empty payloads, whatever fills each header and with idle headers anywhere, decodes to exactly them, even with a cut frame at its end |
| CameraStream.FramesAreStable | Lib3Dp/Connectors/BambuLab/BBLEspLANCameraStreamer.cs:64-85 | later bytes never change frames already emitted |
| LogBuffer.BufferedLogger.AddEntry | Connect3Dp/Logging/BufferedLoggerProvider.cs:48-55 | the ring keeps representing the last `capacity` entries ever added |
| LogBuffer.BufferedLogger.Entries | Connect3Dp/Logging/BufferedLoggerProvider.cs:23-36 | the entries are the last min(n, capacity) added, in order |
| LogBuffer.BufferedLogger.RetrieveHistory | Connect3Dp/Extensions/Connect3Dp/Connect3DpWebSocketExtensions.Logging.cs:43-63 | refused for a non-positive maximum, else exactly the newest retained entries that meet level and times, in order |
| LogBuffer.NewestIsNewest | Connect3Dp/Extensions/Connect3Dp/Connect3DpWebSocketExtensions.Logging.cs:50-60 | the answer is the entries at increasing places that meet the level and both times, none missed from the first of them on, nor before it unless the maximum was reached |

## Left out

- MachineTypes.MachineStateIsMachine: leaves out `PrintJob.SpoolMaterialUsages`, a null dictionary that no connector sets and the generated apply would dereference.
- `RemoveCurrentJob`, which the generated apply dereferences as null; every other dictionary or set property always exists.
- Properties that are both init-only and nested updaters, and sets of updaters: the generator supports them, no annotated type declares them.
- Equality coarser than identity: the source compares with each type's own `Equals` (two colours differing only in name are equal); here equal means identical.
- Aliasing of class-valued dictionary entries: an existing entry is updated in an object of its own and stored back under its key.
- The order inside the diff arrays: added, removed and updated are maps and sets.
- Connection.MachineConnection.CommitState: leaves out the job history, set on the updater after the apply and so never in the state, and the scheduler calls around the apply.
- The mutable `SchedulerID` inside set elements: set elements are immutable values.
- Commits racing without a lock and broadcasts overtaking each other: a commit is one step and delivery is in order.
- Changing the detail level by subscribing again, and the at-a-glance changes.
- The effect of scan events on the machine's local jobs, handlers that throw during a scan, and what a reconnect does to the loop.
- FtpCache.BBLFTPConnection.Download3MF: is the sequential method; the interleavings, and the file store in between, are the state machine's.
- KeyValueMessage.Message.TryParse: takes the prefix test as ordinal, number text as invariant-culture, and case folding as ASCII; the source's test is culture-sensitive.
- Spools: colours are Lab coordinates over `real` and distances are compared squared; the conversion from RGB and its rounding are not modelled.
- SafeUpdates.SafeAgrees: gives a sufficient condition, the strongest part being that a nested updater sets everything; the exact one depends on the state and is ReplayExact.ReplayIsExact.
- Cron expressions: evaluation is a finite table of answers, each strictly later than the question.
- MonoMachine.Machine.MutateUntil: starts with the semaphore free (waiting is in the state machine) and takes the 250 ms delay to pass on the stopwatch; both overloads are the one method, the returned value aside.
- The reconnect loop of the client, handlers that send requests while they run, and message parsing.
- LogBuffer.BufferedLogger.Entries: is enumerated at once; the source enumerates lazily, outside the lock, while entries may be added.
- Log subscribers and channels, and a capacity of zero.
- The camera's authentication packet, frame timing and reconnect.
- FilePages: history, the state effect of committing the list, and late replies of an abandoned cycle.
- Sockets, MQTT, FTP, HTTP, JSON, the file system and Roslyn: their results are arbitrary inputs.
