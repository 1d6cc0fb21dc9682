# Verified models of the Telemt panel backend

Telemt panel is a Go service that administers a proxy: it streams state to browsers, follows
log files, edits a TOML configuration through a patch API, keeps a history of client addresses
and draws a map of them from local GeoIP databases. This project models the parts of it whose
correctness is hard to see, and proves what they are for.

| file | what it models |
|---|---|
| `LogFollower.dfy`, `Utf8.dfy` | the polling log follower: a chunked, resumable, capped line reader that survives rotation and copytruncate |
| `ConfigDiff.dfy` | the diff of two configuration trees as a JSON Merge Patch |
| `GeoPublication.dfy` | publication of GeoIP bundles on a disk that may lose power at any moment |
| `GeoLookup.dfy` | the lookup cache in front of the active bundle, and batches bound to a generation |
| `Events.dfy`, `Hub.dfy`, `Sse.dfy` | the event hub, its replay ring, pollers and subscribers, and one event stream from subscription to live delivery |
| `UserIp.dfy` | the collector of observed addresses: batches, retries, reset barrier |
| `GeoEpochs.dfy`, `GeoCache.dfy`, `GeoBuild.dfy` | geography snapshots held together by an epoch vector, their cache and waiting calls, and the single-flight build among moving sources and leaving calls |
| `Paging.dfy`, `Aggregate.dfy` | stable pages of a snapshot, and the counts in it |
| `LogControls.dfy` | removal of terminal controls from log messages |
| `Options.dfy`, `Arithmetic.dfy` | an optional value, minimum and maximum |

A section under a mutex is one method and so one atomic step. Runs are arbitrary sequences of
such steps (`Run`, `Follow`, `Sse.HandleEvents`), or, where code reads changing sources without
a lock, a script of foreign moves between any two of its own reads (`GeoBuild.World`). Faults,
clocks, the disk, the network and the store's answers are parameters. Ghost fields record what
the proofs speak of: all events ever emitted, all states a disk passed through, where each
accepted observation is.

## Where the code does less than it seems to promise

- A desired null is lost by the configuration diff unless the current tree has a null in the
  same place (`ConfigDiff.NullIsLost`); `ConfigDiff.PatchedIsDesired` gives the exact condition.
  The preview handler reads the desired tree from TOML, which has no null, so it never meets
  this case: `ConfigDiff.NullFreeInPlace` and `ConfigDiff.Preview` say so.
- A client may present a `Last-Event-ID` that the hub only reached between its subscription and
  the replay, and then receive an event again (`Events.EventRepeated`); `Events.StaleResume` says
  exactly when.
- A page cursor over 1024 characters is refused although the service itself handed it out
  (`Paging.LongCursorRefused`); `Paging.PartitionIff` gives the exact condition.
- The comment at `internal/host/filetail.go:261` says that an unreadable tail is treated as a
  mismatch; `overlapStillMatches` (lines 288-292) takes an empty window as a match. A file whose
  tail could not be read, refilled under the same inode before the first tick, is then split from
  the middle of its new content (`LogFollower.FollowRefilled`, `LogFollower.UnreadableTailSplices`);
  `LogFollower.RefillSeenIff` says exactly which refills are noticed. The model follows the code.
- A replaced file that shows the same 256 bytes before the offset is taken for the old one
  (`LogFollower.FollowUnseen`, `LogFollower.UnseenReplacementSplices`). `LogFollower.SplicelessIff`
  says for which contents the window is enough, and `LogFollower.ToldApart` that nothing is
  spliced wherever two contents that differ before an offset differ in the window.

## Model

| member | source | states |
|---|---|---|
| `LogFollower.SplitSpells` | internal/host/filetail.go:325-412 | The reference split: a text is its newline-terminated lines followed by an unterminated rest, and no line or rest holds a newline. |
| `LogFollower.SplitUnique` | internal/host/filetail.go:325-412 | No other lines and rest spell the same text: `Lines` and `Rest` are pinned down by what `SplitSpells` says. |
| `LogFollower.TrimKeepsValid` | internal/host/filetail.go:379-389 | Cutting well-formed UTF-8 at any byte and trimming leaves a well-formed prefix and gives up at most three bytes. |
| `LogFollower.CappedValid` | internal/host/filetail.go:379-395 | A valid line stays valid when cut to 262144 bytes plus marker, loses at most three further bytes and never exceeds the cap plus marker. |
| `LogFollower.CappedIs` | internal/host/filetail.go:374-397 | A line of at most 262144 bytes is emitted unchanged; a longer one is emitted as its own first bytes, at least 262141 and at most 262144 of them and all 262144 unless they break a character, followed by the truncation marker. |
| `LogFollower.TrimPartialRune` | internal/host/filetail.go:380-389 | The backward scan for the last rune start computes exactly the trimming proved valid. |
| `Utf8.HeadOfEncoded` | internal/host/filetail.go:379-389 | What the model takes for a rune, first half: the UTF-8 form of a scalar value, whatever follows it, is one rune of its own width. |
| `Utf8.HeadIsEncoded` | internal/host/filetail.go:379-389 | Second half: a rune at the head of a text is the form of a scalar value. |
| `Utf8.FullRuneIs` | internal/host/filetail.go:384-387 | A tail counts as an incomplete rune exactly if it is a proper beginning of the form of some scalar value. |
| `LogFollower.IndexByte` | internal/host/filetail.go:358-362 | First newline of a chunk, or none. |
| `LogFollower.LedgerPoll` | internal/host/filetail.go:331-355 | One poll keeps the books: each generation after the first starts at offset zero and consists of pieces each taken from a file that still showed the last 256 bytes taken before it. |
| `LogFollower.TraceLedger` | internal/host/filetail.go:145-245 | The same for the generations of any run. |
| `LogFollower.TraceSpans` | internal/host/filetail.go:145-245 | The generations divide the ticks of a run among them, and each consists of exactly what was taken in its own ticks, in order. |
| `LogFollower.OnePerTurn` | internal/host/filetail.go:211-229 | A run has one generation more than it noticed replacements and restarts. |
| `LogFollower.NoSplice` | internal/host/filetail.go:211-229 | If in each generation bytes were taken only from beginnings of one content, the run emits the lines of these contents one after the other, each but the first from offset zero: no line joins two contents. A read that starts the cursor over counts for no generation. |
| `LogFollower.ToldApart` | internal/host/filetail.go:325-412 | Replacements at any moment, between polls or between the reads of one poll: if two contents that differ before an offset differ in the 256 bytes before it, every generation emits the lines of one single content. |
| `LogFollower.OneContent` | internal/host/filetail.go:349-352 | Pieces taken one after the other under the window check are one stretch of one content, if contents can be told apart. |
| `LogFollower.SplicelessIff` | internal/host/filetail.go:325-352 | The exact condition: chains of pieces never spell anything but beginnings of the contents if and only if joining two contents where their windows agree gives nothing new. |
| `LogFollower.TornPoll` | internal/host/filetail.go:349-352 | A poll whose second read shows other bytes in the window starts over after its first piece, and takes nothing from that read. |
| `LogFollower.TornRun` | internal/host/filetail.go:325-412 | The run over a file replaced between two reads of one poll meets the hypothesis of `NoSplice` and emits the line of the new content only. |
| `LogFollower.FollowTorn` | internal/host/filetail.go:145-245 | The follower itself, run over that file. |
| `LogFollower.UnseenReplacementSplices` | internal/host/filetail.go:288-299 | At a concrete input: a replacement with the same 256 bytes before the offset goes unseen, and the line emitted joins both contents. |
| `LogFollower.FollowUnseen` | internal/host/filetail.go:145-245 | The follower itself, run at that input. |
| `LogFollower.AppendedPoll` | internal/host/filetail.go:331-412 | On an append-only file a poll never restarts, whatever the chunks and short reads, and keeps the consumed bytes equal to the file's; without hindrance it reaches the polled end. |
| `LogFollower.FollowsLog` | internal/host/filetail.go:145-245 | Any run over a file that is only appended to stays in one generation and emits exactly the capped lines of the stretch between the start and the offset reached; an undisturbed last tick ends at the size it polled. |
| `LogFollower.RefillSeenIff` | internal/host/filetail.go:261-305 | A file refilled before the first tick is followed from its start if and only if the follower remembers bytes that the new content does not show at their place; otherwise it is split from the middle. |
| `LogFollower.UnreadableTailSplices` | internal/host/filetail.go:261-292 | At a concrete input: nothing remembered, the same inode refilled, and the first line emitted begins in the middle of the new content. |
| `LogFollower.FollowRefilled` | internal/host/filetail.go:145-245 | The follower itself, run at that input, emits that line. |
| `LogFollower.Cursor.Reset` | internal/host/filetail.go:312-317 | The cursor starts over: offset zero, no partial line, no remembered window. |
| `LogFollower.Cursor.Extend` | internal/host/filetail.go:359-373 | Bytes without a newline extend the open line; the kept prefix and the truncation flag are the capped line's. |
| `LogFollower.Cursor.EndLine` | internal/host/filetail.go:374-397 | A newline emits exactly the capped reference line and leaves an empty one. |
| `LogFollower.Cursor.Consume` | internal/host/filetail.go:357-402 | One chunk: the lines emitted are what the reference split gains from the bytes consumed, also when the receiver stops in the middle, and no line is handed out behind one that was refused. |
| `LogFollower.Cursor.ReadOnce` | internal/host/filetail.go:336-403 | One read: the cursor starts over if and only if the read finds other bytes in the window or the file shorter than it, and was neither cancelled nor failing nor too short to tell; otherwise the bytes taken stood behind the window in the file version read. |
| `LogFollower.Cursor.ReadNewLines` | internal/host/filetail.go:331-412 | A whole poll terminates; every read that yielded bytes showed the window before them, the read that starts the cursor over is the first that finds it gone, the lines are the gain of the reference split, the polled end is never passed, and each way of stopping early is justified by the read or the receiver that caused it. |
| `LogFollower.Cursor.ReadOn` | internal/host/filetail.go:222-229 | A tick whose polled size does not exceed the offset reads nothing; otherwise the poll accounts for its bytes, lines and ending. |
| `LogFollower.Cursor.Poll` | internal/host/filetail.go:211-229 | Inode, size and overlap checks before the read: content is taken as replaced exactly if one of them says so, and is then read from offset zero with nothing remembered. |
| `LogFollower.Drive` | internal/host/filetail.go:145-245 | Any schedule of ticks, including missing files, is a trace: every poll carries on the last generation and leaves it exactly when a check or a read finds its content gone; the run ends early only by an error or by its reader, with the third missing file in a row among the errors. |
| `LogFollower.Follow` | internal/host/filetail.go:145-245 | Any run: the emitted lines are those of its generations, which are as many as the replacements noticed and consist of what their own ticks took under the window check; they splice nothing when each generation saw one content, and see one content each when contents can be told apart. Append-only: the lines are the capped lines of the file between the start and the offset reached, and undisturbed ticks reach the last polled size without an error. |
| `ConfigDiff.EqualTrans` | internal/httpapi/telemt_config_toml.go:375-412 | The equality with integers and floats equal only within 2^53 is transitive. |
| `ConfigDiff.EqualSym` | internal/httpapi/telemt_config_toml.go:375-412 | That equality is symmetric. |
| `ConfigDiff.EqualRefl` | internal/httpapi/telemt_config_toml.go:375-412 | That equality is reflexive on values without NaN. |
| `ConfigDiff.EqualPlain` | internal/httpapi/telemt_config_toml.go:375-412 | Two values that are neither arrays nor tables are equal exactly if they are identical, or one is an integer from -9007199254740992 to 9007199254740992 and the other the float of the same value. |
| `ConfigDiff.EqualShape` | internal/httpapi/telemt_config_toml.go:375-412 | Arrays are equal position by position, tables key by key, and neither equals a value of another kind. |
| `ConfigDiff.EqualSame` | internal/httpapi/telemt_config_toml.go:375-412 | Where no number occurs equal is identical. |
| `ConfigDiff.NothingToDo` | internal/httpapi/telemt_config_toml.go:317-373 | There is no patch and nothing missing exactly when the trees are equal. |
| `ConfigDiff.PatchedIsDesired` | internal/httpapi/telemt_config_toml.go:329-373 | Merging the patch into the current tree by section 2 of RFC 7396 gives the desired tree if and only if no key is missing and every null of the desired tree stands where the current tree has one. |
| `ConfigDiff.NullFreeInPlace` | internal/httpapi/telemt_config_toml.go:190-222 | For a desired tree without null members, as TOML gives it, the merge reaches it if and only if no key is missing. |
| `ConfigDiff.PatchedIsStable` | internal/httpapi/telemt_config_toml.go:329-373 | When the merge reaches the desired tree a second diff is empty and changes nothing. |
| `ConfigDiff.PatchIsMinimal` | internal/httpapi/telemt_config_toml.go:329-373 | A key whose value is already equal is not in the patch and keeps its value untouched. |
| `ConfigDiff.NullIsLost` | internal/httpapi/telemt_config_toml.go:342-344 | A concrete desired null that the merge cannot produce. |
| `ConfigDiff.MergeFresh` | internal/httpapi/telemt_config_toml.go:342-344 | A value for a new key arrives unchanged exactly when it holds no null. |
| `ConfigDiff.MissingEmpty` | internal/httpapi/telemt_config_toml.go:334-338 | The missing report is empty exactly when the desired tree has every key of the current one, at every depth. |
| `ConfigDiff.AppendLeafPaths` | internal/httpapi/telemt_config_toml.go:414-431 | The recursive walk appends exactly the leaf paths of a value, each as often as there are leaves it names. |
| `ConfigDiff.JoinIs` | internal/httpapi/telemt_config_schema.go:50-55 | A path is its keys with dots between them. |
| `ConfigDiff.DiffValue` | internal/httpapi/telemt_config_toml.go:329-373 | The walk that fills the patch and the four lists in place returns the reference patch and adds to each list exactly the reference paths, none twice that is not two places. |
| `ConfigDiff.DiffTables` | internal/httpapi/telemt_config_toml.go:333-358 | Two tables, key by key in any order: the patch table and the reports of the whole, as multisets. |
| `ConfigDiff.PathsInAny` | internal/httpapi/telemt_config_toml.go:339-358 | A report is the sum over the keys, whichever key is taken first. |
| `ConfigDiff.Preview` | internal/httpapi/telemt_config_toml.go:178-239 | Refuses exactly when a key is missing; otherwise the patch it returns, merged into the current sections, gives the desired ones if and only if no null is misplaced, always when they have no null, and is empty exactly when nothing differs. Where no number occurs, "gives" and "nothing differs" mean identity. |
| `ConfigDiff.PreviewSound` | internal/httpapi/telemt_config_toml.go:210-239 | The same, on the specification, for all trees. |
| `GeoPublication.CrashSafe` | internal/geoip/persistence.go:40-95 | In a safe state every root a crash may leave has a manifest that names a bundle with the marker and every database the manifest was published with, all whole, and is again safe. |
| `GeoPublication.UnsafeCrash` | internal/geoip/persistence.go:40-95 | Safety is necessary: if a manifest that may survive names a bundle that is not assured, some crash leaves it dangling. |
| `GeoPublication.SafePublish` | internal/geoip/persistence.go:40-95 | Renaming the manifest is safe exactly when the new bundle is complete, durable and settled under its name. |
| `GeoPublication.SafeDelete` | internal/geoip/cleanup.go:53-150 | Deleting a bundle is safe exactly when no manifest that may survive names it. |
| `GeoPublication.SafeRenameIn` | internal/geoip/manager.go:620-623 | Renaming a staged directory to its final name is safe and leaves it unnamed by any manifest. |
| `GeoPublication.RenameMayBeLost` | internal/geoip/manager.go:633-635 | Without the root sync a crash may take the renamed bundle away, whichever manifest survives: the publication needs it. |
| `GeoPublication.SafeSyncRoot` | internal/geoip/manager.go:633-635 | Syncing the root directory keeps safety; from then on every crash leaves the present manifest and every bundle with the databases it durably holds. |
| `GeoPublication.Manager.StageFile` | internal/geoip/manager.go:434-484 | Copy and sync of one database: on success the file is whole and synced, on failure only the staging directory changed. |
| `GeoPublication.Manager.Stage` | internal/geoip/manager.go:540-616 | A staged directory that reports success holds the marker and every enabled database, each whole and synced under its name; nothing outside it is touched, and without a failing step it succeeds. |
| `GeoPublication.Manager.PublishStaged` | internal/geoip/manager.go:617-648 | Rename, sync, manifest: a reported success means the manifest on disk, and every one that may survive, names the new bundle and its databases, and that every enabled database is in it, whole and synced; failures leave the old one in force or the new one published but not durable. |
| `GeoPublication.Manager.BuildBundle` | internal/geoip/manager.go:540-648 | The whole build with any step failing: every intermediate state is safe, no other directory is touched, the previous bundle is reported for deletion only after durable publication; without a failing step the build succeeds, and a success leaves the marker and every enabled database in the bundle, whole and synced. |
| `GeoPublication.Manager.RemoveOwned` | internal/geoip/cleanup.go:189-254 | A bundle without a readable ownership marker stays as it is; otherwise the databases go in any order, then the marker, then the directory. Interrupted anywhere, it leaves the marker while a file is left, so that a later sweep can go on; uninterrupted, the bundle is gone. |
| `GeoPublication.Manager.RemoveAll` | internal/geoip/manager.go:627-632 | The undo behind a failed build: files unlinked in any order, interrupted anywhere, touch only the bundle that no manifest names. |
| `GeoPublication.Manager.SweepOne` | internal/geoip/cleanup.go:127-148 | One candidate: the active bundle and directories with a configured source are passed over, a failure is left for a later sweep. |
| `GeoPublication.Manager.CleanupOwned` | internal/geoip/cleanup.go:53-150 | The sweep leaves untouched the active bundle, directories holding a configured source or without a readable marker, everything when the sources are ambiguous or the manifest is not that of the bundle in use, and all others when it is for one predecessor; without a failing step all the rest is gone. |
| `GeoPublication.Manager.Update` | internal/geoip/manager.go:253-291 | One update: the bundle in use changes only to one that is durably published and holds every enabled database, whole and synced; without a failing step it does change, and a predecessor that need not be spared is gone. |
| `GeoPublication.Manager.Restore` | internal/geoip/manager.go:96-147 | After a restart the bundle in use is the one the manifest names and it is assured; the sweep runs only after the root was synced, and touches nothing it has to spare. |
| `GeoPublication.Run` | internal/geoip/manager.go:253-291 | Any sequence of updates, restarts and power losses with any faults: in every state passed through, each crash leaves either no manifest or one that some update of the run or the initial disk published, naming a bundle that still holds every database it was published with. A process takes no step behind the one it died at. Every event did to disk, bundle in use and process what an update, a restart or a crash does, and its states are among these. |
| `GeoLookup.MoveKeepsIndexed` | internal/geoip/manager.go:325-330 | Moving an entry to the front keeps map and list in agreement. |
| `GeoLookup.PushKeepsIndexed` | internal/geoip/manager.go:341-342 | Adding an entry keeps map and list in agreement. |
| `GeoLookup.EvictKeepsIndexed` | internal/geoip/manager.go:343-347 | Dropping the last entry keeps map and list in agreement. |
| `GeoLookup.Manager.Begin` | internal/geoip/manager.go:312-335 | A lookup answered at once gives what the active bundle, asked directly, would give, whatever other readers hold; a hit comes to the front of the list and moves nothing else. |
| `GeoLookup.Manager.Finish` | internal/geoip/manager.go:336-350 | A lookup that missed gives the direct answer too and caches only what the active bundle says; a new entry goes to the front, and beyond 4096 exactly the one used longest ago goes. |
| `GeoLookup.Manager.Swap` | internal/geoip/manager.go:278-284 | A swap or disable starts a new generation with an empty cache; the bundle of every older generation stays on record. |
| `GeoLookup.Manager.CloseBegin` | internal/geoip/manager.go:411-432 | Closing starts a new generation, so that no batch of an older one is answered afterwards. |
| `GeoLookup.Manager.LookupBatch` | internal/geoip/batch.go:22-78 | Refused exactly for more than 512 addresses, an ended context, or a closed manager or other generation, in this order; otherwise answered exactly when the context lives on and no reader fails, and every answer is that of the bundle of the expected generation. |
| `Events.ExactlyOnce` | internal/httpapi/sse.go:203-258 | Replay followed by live delivery above the watermark is a prefix of the events the client is owed, and all of them once the channel has been emptied: no gap, no repetition, for any interleaving. |
| `Events.DeliveredIncreasing` | internal/httpapi/sse.go:203-258 | Delivered numbers strictly increase and lie above the presented one. |
| `Events.StaleResume` | internal/httpapi/sse.go:203-258 | A presented number above the hub's at subscription: the same result holds if and only if the replay is not empty or no wanted event lies up to that number. |
| `Events.EventRepeated` | internal/httpapi/sse.go:203-258 | At a concrete input: a client that presents the number of an event emitted after its subscription is given that event again. |
| `Events.CoveredByReplay` | internal/httpapi/sse.go:203-222 | Everything the channel holds from before the replay is at or below the watermark. |
| `Hub.RingGuard` | internal/hub/hub.go:1565-1603 | The three refusals of `ReplaySince` together say exactly that the ring does not reach back to the number, also when one oversized event emptied it. |
| `Hub.RingCovers` | internal/hub/hub.go:1527-1603 | The ring reaches back to a number if and only if all events after it are together within both bounds. |
| `Hub.DrainedIsCurrent` | internal/hub/hub.go:1350-1387 | An open subscriber that began from the snapshots and emptied its channel holds, for each of its topics, the key last emitted. |
| `Hub.DrainedHoldsTheCache` | internal/hub/hub.go:1350-1387 | In the hub's terms: it holds a payload exactly when the hub has data for the topic, and then one with the comparison key of the hub's cache. |
| `Hub.RefreshedDemand` | internal/hub/hub.go:1350-1387 | A fetch that meets a waiting demand does so with an event of that topic. |
| `Hub.Hub.constructor` | internal/hub/hub.go:313-400 | The hub starts in order, with nothing cached and no poller running. |
| `Hub.Hub.Append` | internal/hub/hub.go:1527-1546 | The next number is given out and the ring is the longest last stretch of all events within both bounds. |
| `Hub.Hub.Trim` | internal/hub/hub.go:1532-1543 | Popping from the front restores both bounds, pops no more than needed and keeps the byte count exact. |
| `Hub.Hub.Broadcast` | internal/hub/hub.go:1548-1559 | Every open subscriber of the topic has the event behind what it had queued or, when its buffer is full, is closed with what it had queued and leaves all its topics; every other subscriber stays as it is, counts and running pollers stay right. |
| `Hub.Hub.CloseSubscriber` | internal/hub/hub.go:1103-1122 | Leaves once: the channel is closed, each of its topics loses one subscriber, and a demand is dropped only with the last one. |
| `Hub.Hub.RecordFetchSuccess` | internal/hub/hub.go:1350-1387 | An equal key refreshes the cache without an event unless a full fetch is awaited; then, and on any other key, exactly one event with the payload is emitted; the demand is met, whichever it was. |
| `Hub.Hub.RecordFetchError` | internal/hub/hub.go:1510-1525 | One error event; cache and demand stay. |
| `Hub.Hub.Subscribe` | internal/hub/hub.go:1024-1086 | Refused exactly for an empty list or an unknown topic, changing nothing; otherwise a new channel, snapshots with current keys, one more subscriber per topic, a running poller and, for the first, a demand for a full fetch. |
| `Hub.Hub.Unsubscribe` | internal/hub/hub.go:1088-1099 | The caller's cancel closes an open channel once and does nothing later. |
| `Hub.Hub.Receive` | internal/hub/hub.go:1548-1559 | Events come out in the order sent; a closed channel still yields what it holds. |
| `Hub.Hub.ReplaySince` | internal/hub/hub.go:1565-1603 | Accepts exactly the numbers whose later events are within the bounds of the ring, and returns exactly the wanted events after them. |
| `Hub.Hub.StopIfIdle` | internal/hub/hub.go:1124-1133 | A grace timer, however late, stops only an idle running poller, closing a stop channel that was still open. |
| `Hub.Hub.StartCollector` | internal/hub/hub.go:926-946 | A background collector gets its own, fresh stop channel. |
| `Hub.Hub.PollBegin` | internal/hub/hub.go:1236-1260 | What runs is history-only exactly if that was asked for, nobody subscribes and no demand waits, and then the projection is marked stale; a poll without recheck always starts, one for a demand exactly if the demand still waits, one for a snapshot exactly if the cache is stale, empty or awaited, or the poller has stopped and nothing was fetched since. |
| `Hub.Hub.PollEnd` | internal/hub/hub.go:1269-1333 | A history-only or cancelled poll publishes nothing and meets no demand; a successful full fetch updates the cache, meets the demand and emits unless the key is unchanged and nobody waits; a failed one emits an error and keeps the demand. |
| `Hub.Hub.Hydrate` | internal/hub/hub.go:1236-1387 | The law a demand rests on: the poll a waiting demand asks for starts, is a full fetch, and when the fetch succeeds it emits its payload, caches it and clears the demand. |
| `Hub.Hub.Close` | internal/hub/hub.go:1734-1756 | Every running poller's stop channel, none of them closed before, and every open subscriber channel is closed with what it had queued; nobody is left. |
| `Sse.Act` | internal/hub/hub.go:1024-1756 | Any action of the hub happens as its section says, keeps it in order, keeps the stream's own records and only extends the history; a demand for a full fetch that disappears went with a payload of its topic or with its last subscriber. |
| `Sse.Open` | internal/httpapi/sse.go:203-229 | Resumes the presented number exactly when everything after it is within the bounds of the ring, otherwise writes the snapshots; the watermark is the replay's highest number. |
| `Sse.Step` | internal/httpapi/sse.go:242-255 | Receives exactly if something is queued; the event is written unless the replay covered it. |
| `Sse.HandleEvents` | internal/httpapi/sse.go:177-258 | Whole stream against any hub activity: the presented number is resumed exactly when everything after it was within the bounds of the ring at the replay, and what was written is at every moment the replay or the snapshots followed by what was received; at every turn of the handler the first queued event is received, if there is one. Resumed, what was written is an unbroken beginning of what the client is owed and all of it once an open channel is empty, a number presented too early being overtaken exactly as `Events.StaleResume` says; from snapshots, an open emptied channel leaves the client with the current key of every topic. A topic whose first subscriber this client was has emitted a payload since or its full fetch is still awaited. |
| `UserIp.MergeAssoc` | internal/store/user_ip.go:185-200 | Merging records is associative, saturation and last-source rule included; what a merged row holds is `TallyRow` and `AppliedRow`. |
| `UserIp.TallyRow` | internal/store/user_ip.go:185-200 | A row of a history, field by field: the lesser of 2^63 - 1 and the number before plus the sightings of that address, the earliest and the latest of their times and the row's, the latest active time or zero, and the source of the last sighting among those with the latest time. |
| `UserIp.AppliedRow` | internal/store/user_ip.go:185-200 | The same for a batch merged into the store: each row is what it was, plus the sightings the batch was made of. |
| `UserIp.BatchIsItsSightings` | internal/store/user_ip.go:255-258 | Merging a batch into the store equals noting its observations one at a time. |
| `UserIp.ApplyRecords` | internal/store/user_ip.go:255-258 | The store's loop over a batch gives the rows of `AppliedRow`, in any order. |
| `UserIp.ForgetTally` | internal/store/user_ip.go:398-402 | Deleting a user's rows leaves what the other users' observations add up to. |
| `UserIp.Conservation` | internal/hub/user_ip.go:108-273 | Store, unapplied retry batch and pending records together hold, for every address, the row before the run plus every accepted observation counted once, with count, first, last and last active time and source given field by field. |
| `UserIp.StoredSinceReset` | internal/hub/user_ip.go:296-322 | Every stored row of a user who was ever reset counts and dates observations that all come from fetches started after the last reset, field by field. |
| `UserIp.IdealIsTally` | internal/hub/user_ip.go:108-322 | An ideal store, which notes every accepted observation at once and forgets at once, holds the tally of what was accepted since, on the rows it began with. |
| `UserIp.NotStale` | internal/hub/user_ip.go:112-114 | A fetch that carries the current generation started after every reset. |
| `UserIp.HistoryHolds` | internal/hub/user_ip.go:108-322 | The ideal store in plain terms: a row for exactly the addresses sighted since their user was last erased and those of the beginning whose user never was, and each such row counts and dates these sightings. |
| `UserIp.OwnSince` | internal/hub/user_ip.go:296-322 | Every sighting in such a row was fetched by a fetch that began after the last reset of its user. |
| `UserIp.MarkedOk` | internal/hub/user_ip.go:205-209 | The union of the two address lists records where each address was seen, holds at most 20000 addresses and at most the per-user limit, and is complete unless it holds that many. |
| `UserIp.Collector.ScanUser` | internal/hub/user_ip.go:167-215 | Addresses with their exact source; an overlay entry is valid exactly if the active list is there, all of it parses and all of it is shown, and lacks an address only if 20000 are shown; nothing is left out of the record unless a limit was reached; an absent list or an address that does not parse is marked as a gap. |
| `UserIp.Collector.AcceptOne` | internal/hub/user_ip.go:217-233 | An observation is accepted once; it is declined, and the collector marked limited, only if its address is not pending and 20000 records wait. |
| `UserIp.Collector.ObserveUsers` | internal/hub/user_ip.go:155-234 | What is accepted is part of what the fetch shows, each observation once, and all of it unless with it more than 20000 records would wait, some user shows more addresses than are kept, or there are more than 20000 users. |
| `UserIp.Collector.Submit` | internal/store/user_ip.go:235-262 | A submission fails only if the call fails. Accepted observations and base rows stay. |
| `UserIp.Collector.Apply` | internal/store/user_ip.go:235-262 | No batch is refused as invalid or stale, and one that was applied before its failure was reported is not applied again. |
| `UserIp.Collector.Cut` | internal/hub/user_ip.go:257-266 | Everything pending becomes one valid batch with a new number. |
| `UserIp.Collector.Flush` | internal/hub/user_ip.go:245-273 | Accepted observations and base rows stay; it succeeds if its calls do, and success leaves nothing pending or awaiting retry; a retry submits the identical batch. |
| `UserIp.Collector.Observe` | internal/hub/user_ip.go:108-242 | Observes exactly a fetch of the current generation that is later than the last; the observations are accepted as above, the base rows stay, the overlay shows exactly the users of this fetch unless there are more than 20000; a gap is marked for a pause of more than 30 seconds, a store that cannot be read, a name or list that cannot, and for nothing else; addresses are on view if some active list is there or there are no users; once 60 seconds have passed since the last flush, or at once if the store is not durable, everything goes to the store, and before that nothing. |
| `UserIp.Collector.FetchFailed` | internal/hub/user_ip.go:67-78 | A failed fetch changes no observation, base row, generation or overlay; what is pending goes to the store exactly if 60 seconds have passed since the last flush. |
| `UserIp.Collector.Reset` | internal/hub/user_ip.go:296-322 | Success: nothing pending or retried, no row and no shown address of the forgotten users, the other users' overlay, rows and observations kept, a new generation with a fence at all fetches started so far. Failure: no new generation. |
| `UserIp.Collector.Erase` | internal/hub/user_ip.go:303-308 | The store forgets exactly the named users, and only after everything pending has been stored; if all calls succeed it does. |
| `UserIp.Collector.Raise` | internal/hub/user_ip.go:309-320 | The new generation fences off every fetch started so far and shows nobody who was forgotten. |
| `UserIp.Collector.PublishStatus` | internal/hub/user_ip_snapshot.go:67-75 | A status update keeps the shown records and the epoch equal to the generation. |
| `UserIp.Collector.Publish` | internal/hub/user_ip_snapshot.go:62-65 | The published records are the overlay's, the epoch is the generation. |
| `UserIp.Collector.ResetEpoch` | internal/hub/user_ip_snapshot.go:126-131 | Readers always see the collector's generation. |
| `UserIp.Run` | internal/hub/user_ip.go:45-322 | Any run with any fetch arriving at any later time and any store call failing: every event accounts for what it had accepted and erased, and leaves something of a fetch out only under the pressure stated above; in the end store, unapplied batch and pending records together hold, for every address, a row that counts and dates field by field exactly the sightings accepted since its user was last erased; nothing accepted or on view was fetched before its user's last reset; readers see as many epochs as resets succeeded; of any two submissions the later is identical or has a greater `Through` and number. |
| `GeoEpochs.DoubleCollect` | internal/geography/service.go:139-151 | Two equal readings of the vector, component by component, make the whole vector true at every moment in between. |
| `GeoEpochs.MovedOk` | internal/geography/settings.go:130-140 | Epochs only grow, and the stored configuration is at the settings epoch or one ahead of it, the epoch never behind a returned call. |
| `GeoBuild.World.Collect` | internal/geography/service.go:139-151 | Four separate reads lie between the vector before and the vector after. |
| `GeoBuild.ReadRecords` | internal/geography/service.go:189-241 | Records are of the version named in the vector, or the attempt fails. |
| `GeoBuild.LookupBatch` | internal/geoip/batch.go:22-49 | Answers belong to the expected generation; a batch of at most 512 addresses fails only as the reader does, or because the generation has moved on. |
| `GeoBuild.ResolveAll` | internal/geography/service.go:276-306 | Exactly the addresses found are resolved, all in the vector's generation; it fails only by a failing call, the context or a generation that moved. |
| `GeoBuild.BuildVersion` | internal/geography/service.go:184-335 | A finished attempt is uniform: one bundle generation, records of the named version, settings at that epoch or the one being published; and its vector was true at some moment of the attempt. Every error has its cause: a clock at or before zero, the error of a call of its own, its context, or a source that moved; with none of them it succeeds. |
| `GeoBuild.Judge` | internal/geography/service.go:173-180 | An attempt that finished but no longer matches is always tried again: the vector never returns to an old value, so no empty result is returned without an error. An attempt nothing hindered is kept. |
| `GeoBuild.Build` | internal/geography/service.go:166-182 | No error means a snapshot that was true at a moment of the build, and the reverse; an error has the cause of the last attempt, which is the second only if the first was spoilt by moving sources, and with nothing in the way the build succeeds; a build whose context ended before its last attempt did reports exactly that. |
| `GeoBuild.FinishBuild` | internal/geography/cache.go:120-130 | A result handed to the cache is still uniform, was true, and its context was running when its last attempt ended; an error is the build's own: the clock, a call of its own, its context if that had ended, or that the sources moved; with none of these in the way there is a result. |
| `GeoBuild.UnhinderedNoCause` | internal/geography/service.go:184-335 | A build with a positive clock, no failing call, no moving source and a running context has no cause to fail by: the causes are exactly these. |
| `GeoBuild.RunBuild` | internal/geography/cache.go:120-155 | A build that has begun ends, and its ending, with the cause of an error, and the moments of its beginning and last attempt are on record. |
| `GeoBuild.World.Serve` | internal/geography/cache.go:46-111 | A step of any other call, between any two steps of a build, leaves that build the running one and its ending unwritten; its context is cancelled as soon as its work is. |
| `GeoBuild.InOrder` | internal/geography/cache.go:46-155 | In every reachable state: at most two consistent entries within 32 MiB, zero to eight waiters equal to the enrolled calls, every waiting call on the running build or an ended one, and a build that nobody waits for no longer has a running context. |
| `GeoBuild.NobodyElsesFault` | internal/geography/cache.go:100-109 | A call fails only with the error of a build of its own key whose context was still running when its last attempt ended, or had run out of time, which is what the call reports, or whose sources moved; never because others left. |
| `GeoBuild.CancelledEnds` | internal/geography/cache.go:120-134 | A build cancelled before its last attempt ended records the cancellation, unless the sources moved after an attempt that had finished: the vector is compared before the context is asked. |
| `GeoBuild.WakeAfterCancel` | internal/geography/cache.go:100-109 | A call that waits for such a build goes back to try again. |
| `GeoBuild.Respond` | internal/geography/overview.go:69-71 | A served snapshot's vector was true as a whole when the final check began, and its server location includes every `PutSettings` that had returned by then; a refused one has been left behind by the sources. |
| `GeoCache.PrunedIs` | internal/geography/cache.go:9-21 | Pruning keeps exactly the entries of the caller's vector younger than 120 seconds, in their order, and never adds size. |
| `GeoCache.PromotedIs` | internal/geography/cache.go:22-27 | Promotion reorders and nothing else. |
| `GeoCache.Service.Prune` | internal/geography/cache.go:9-21 | The loop computes the pruned list and keeps the bounds. |
| `GeoCache.Service.Promote` | internal/geography/cache.go:22-27 | The entry moves to the front, the others keep their order. |
| `GeoCache.Service.Pinned` | internal/geography/cache.go:29-44 | Found exactly when a current entry has that number. |
| `GeoCache.Service.Section` | internal/geography/cache.go:66-99 | The locked part of `acquire`: a hit has the requested key, the caller's vector and an age within the reuse window, 10 seconds for the live window and 60 for the others; busy only when eight others wait and nothing answers, closed exactly when closed; otherwise the call waits for the one current build, and a build it starts has its key. |
| `GeoCache.Service.Join` | internal/geography/cache.go:86-99 | A call joins the running build of its key, or starts one of its key when none is usable; no other call is moved. |
| `GeoCache.Service.Woken` | internal/geography/cache.go:100-109 | An error reaches only calls of that key, and never a cancellation: those calls try again. What errors a build may have is stated by `GeoBuild.NobodyElsesFault`. |
| `GeoCache.Service.Leave` | internal/geography/cache.go:49-59 | The waiter count follows the enrolled calls; the last one out cancels the build. |
| `GeoCache.Service.Evict` | internal/geography/cache.go:139-148 | Entries go from the end, no more than needed for two entries and 32 MiB. |
| `GeoCache.Service.CompleteBuild` | internal/geography/cache.go:131-154 | The build ends once, with the snapshot, its own error, or closed; the cache takes the snapshot in front within two entries and 32 MiB and keeps the entries that still fit, unless closed or too large. |
| `GeoCache.Service.Close` | internal/geography/service.go:338-350 | Nothing is cached after closing and the running build is cancelled. |
| `GeoBuild.Run` | internal/geography/cache.go:46-155 | Any sequence of calls, builds and source changes, with calls coming and leaving between any two steps of a build, keeps all that `InOrder`, `NobodyElsesFault` and `CancelledEnds` state. Every event goes through the next row of foreign steps, one state each, or ends the running build; no ending is rewritten. |
| `GeoBuild.Overview` | internal/geography/overview.go:39-73 | A response answers its request, was true as a whole at a moment during the request, and its server location is no older than any setting returned before that moment; without a response the call got no snapshot or the sources have left it behind. |
| `GeoBuild.PinnedOverview` | internal/geography/overview.go:48-72 | The same for a request that names a snapshot: served with that number, window and family; refused exactly for another window or family; expired only if no current entry has the number or the sources moved meanwhile. |
| `Paging.PageLimit` | internal/geography/pages.go:44-52 | Zero means fifty; outside 1 to 100 is refused. |
| `Paging.LocationsPage` | internal/geography/pages.go:84-125 | The emitting closure with its filter, counter and cursor search: the items are, index by index, the rows of that country (all without a filter) in list order from just behind the row the cursor names, at most the limit; the total is their number on every page; a next cursor exactly when one follows; a cursor of another list or of no row is refused. |
| `Paging.UsersPage` | internal/geography/pages.go:152-180 | Search and slice yield the page stated the same way, without a filter. |
| `Paging.PageForIs` | internal/geography/pages.go:84-180 | What a page is, by index over the list, for every cursor. |
| `Paging.MatchingAt` | internal/geography/pages.go:110-118 | A filtered list keeps exactly the rows of the country, in list order, by index. |
| `Paging.PositionOf` | internal/geography/pages.go:97-104 | A row's cursor leads back to just behind that row. |
| `Paging.FollowAll` | internal/geography/pages.go:55-130 | A client that follows the cursors with any limits makes the reference visit. |
| `Paging.VisitIs` | internal/geography/pages.go:55-185 | A visit that ends has seen every row once, in list order. |
| `Paging.PartitionIff` | internal/geography/pages.go:19-22 | Paging is a partition for every choice of limits if and only if the cursor of every row but the last encodes to at most 1024 characters. |
| `Paging.JsonIs` | internal/geography/pages.go:11-43 | The length used for the limit is the number of bytes `encoding/json` writes for the cursor, escapes and UTF-8 included. |
| `Paging.JsonApart` | internal/geography/pages.go:19-43 | Two cursors with the same encoding are the same cursor, so nothing of a position is lost in it. |
| `Paging.PlainFits` | internal/geography/pages.go:39-43 | Names of ordinary printable ASCII up to 256 bytes always fit. |
| `Paging.LongCursorRefused` | internal/geography/pages.go:19-22 | A name of 256 `<` characters does not fit, and a client that stops behind it cannot go on. |
| `Aggregate.Pass` | internal/geography/aggregate.go:20-140 | The single pass over the sorted pairs gives the counts of the set definition, each told in the fields of an address and its lookup: five classes by what was found, places by identifier, countries by code, conflicts, memberships; it fails exactly if the input, at 256 bytes a pair and lookup, or, before some 512th pair, the buffers exceed 67108864 bytes. |
| `Aggregate.PreviousIsEnough` | internal/geography/aggregate.go:65-75 | In the sorted list the previous usable pair alone tells repetitions of pairs and names. |
| `Aggregate.SortedIsGrouped` | internal/geography/aggregate.go:31-36 | Sorting by name and address puts equal names and equal pairs together. |
| `Aggregate.AheadIsLinear` | internal/geography/aggregate.go:31-36 | The comparison of the sort is a linear order by name, then by address. |
| `Aggregate.PairStep` | internal/geography/aggregate.go:71-139 | One more pair updates places, countries, quality, accounts and memberships as the set definition asks. |
| `Aggregate.DependsOnSetOnly` | internal/geography/aggregate.go:55-140 | All counts depend only on the set of usable pairs and the lookups. |
| `Aggregate.TotalsAddUp` | internal/geography/aggregate.go:81-119 | The five quality classes and the place counts each add up to the unique addresses. |
| `Aggregate.GroupTells` | internal/geography/aggregate.go:81-119 | The class, the place and the countries of one address, by fields of the address and its lookup alone. |
| `Aggregate.SumsTell` | internal/geography/aggregate.go:55-140 | Hence every count of the pass is the number of distinct observed addresses with those fields. |
| `Aggregate.MembershipIs` | internal/geography/aggregate.go:44-52 | A membership count is the number of distinct addresses of that account in that group. |
| `Aggregate.EveryGroupHasABuilder` | internal/geography/aggregate.go:146-162 | Every group with a member has its country or its place, so the final loop never meets a missing one. |
| `Aggregate.PlaceIsNoCountry` | internal/geography/locations.go:34-49 | No place is named with the country prefix. |
| `Aggregate.NothingOverflows` | internal/geography/aggregate.go:24-26 | The guard on the input keeps counts and account numbers within 32 bits. |
| `LogControls.StripIs` | internal/httpapi/logs_normalize.go:13-58 | For every byte string: the result is valid UTF-8 without a control rune except newline, carriage return and tab, keeps every line break of the input in order, leaves clean text alone, and stripping twice is stripping once. |
| `LogControls.SequenceGone` | internal/httpapi/logs_normalize.go:64-76 | ESC [ or the one-character form, then parameters, intermediates and a final byte, goes whole, and the stripped text around it stays. |
| `LogControls.ControlStringGone` | internal/httpapi/logs_normalize.go:78-96 | A control string goes whole up to and with BEL, ESC \ or the string terminator, and the text around it stays. |
| `LogControls.EscapeGone` | internal/httpapi/logs_normalize.go:35-48 | Any other escape sequence goes with its intermediates and final byte. |
| `LogControls.LoneGone` | internal/httpapi/logs_normalize.go:24-57 | A single control character goes alone. |
| `LogControls.CleanStays` | internal/httpapi/logs_normalize.go:24-57 | Text without controls before a control stays as it is. |
| `LogControls.ControlIs` | internal/httpapi/logs_normalize.go:24-57 | A control is exactly a rune below 0x20 other than tab, newline and carriage return, or from 0x7F to 0x9F. |
| `LogControls.RemovedCut` | internal/httpapi/logs_normalize.go:32-52 | Whatever is removed with a control ends on a rune boundary and holds no line break, malformed sequences included. |
| `LogControls.StringCut` | internal/httpapi/logs_normalize.go:78-96 | A control string, scanned byte by byte, ends on a rune boundary and before any line break. |
| `LogControls.RepairedBreaks` | internal/httpapi/logs_normalize.go:14-16 | Repairing UTF-8 keeps every line break. |
| `LogControls.RepairedValid` | internal/httpapi/logs_normalize.go:14-16 | Repairing yields valid UTF-8 for every byte string. |
| `LogControls.RunReplaced` | internal/httpapi/logs_normalize.go:14-16 | A run of bytes that decode to nothing becomes one U+FFFD, and the text around it stays. |
| `LogControls.StrippedIs` | internal/httpapi/logs_normalize.go:24-57 | The recursive definition of stripping yields clean text with the same line breaks. |
| `LogControls.SkipCsi` | internal/httpapi/logs_normalize.go:64-76 | The loop ends where the control sequence does. |
| `LogControls.SkipControlString` | internal/httpapi/logs_normalize.go:78-96 | The loop ends where the control string does. |
| `LogControls.SkipEscape` | internal/httpapi/logs_normalize.go:35-48 | What follows ESC is skipped as specified. |
| `LogControls.StripLogControls` | internal/httpapi/logs_normalize.go:13-58 | The loop with its pending plain stretch computes the specified text. |

## Left out

- HTTP handlers, authentication, TOML and base64 codecs and JSON decoding: of a cursor the JSON encoding is modelled and shown to be one-to-one; other spellings of the same cursor, which the decoder accepts too, are not modelled.
- Fetchers of the individual topics, history sampling and gauges: a poll's result is a parameter, its comparison key a number.
- `Poke`, the wake channel and its rate floor, backoff and heartbeats: timing only; the polls they cause are steps that may happen at any time.
- Event timestamps, and the order in which a broadcast visits subscribers.
- Wrap-around of the 64-bit event number, generation and epoch counters.
- Sorting as such: pair lists are taken grouped, which `Aggregate.SortedIsGrouped` derives from the sort; the order of users and addresses in a fetch, of places and of report paths is arbitrary.
- Real files: `ReadAt` is one atomic read, `rename` is all or nothing, buffers are sequences of bytes rather than reused arrays.
- Creation and durability of the GeoIP root directory itself, checksums and database formats: a file is whole or not, synced or not.
- Retention, per-user pruning and expiry inside the address store: its rows are what was applied and not reset.
- Persistence of the collector over a restart: what was pending in a process that dies is gone; a new collector starts on the store as it is.
- The size bound of the live overlay and the wording of its status.
- Labels, marker positions, radii and the owned-bytes estimate of an aggregate; the estimate is a parameter of the cache.
- Interning of group and account numbers in memberships: they are keyed by name.
- Validation of configuration paths, NaN values, and the sorting of the reported paths.
- Service managers, updates, quotas, branding and the web frontend.
- UserIp.Collector.Submit: identifiers drawn at random are taken never to repeat.
- UserIp.Collector.Reset: a reset of one user's history keeps the other users' addresses on view, also those fetched before it; the fence is stated for the users it names.
- UserIp.Collector.ScanUser: when the collector must not be marked limited is not stated; what it then leaves out is.
- GeoBuild.LookupBatch: what the answers are is stated by GeoLookup.Manager.LookupBatch; here only their generation matters.
- GeoBuild.Overview: one pass through the cache; that a waiting call returns to it is stated by GeoBuild.WakeAfterCancel and GeoCache.Service.Woken.
- GeoPublication.Manager.RemoveOwned: checks of owner, permissions, inode and foreign entries are steps that may fail; a directory holds only the four known names.
- Sse.HandleEvents: a failing write ends the stream, which leaves the client with a beginning of what is stated.
