# Verified models of the desktop client's concurrent state

The desktop client keeps most of its state in hand-written state machines: a trace hub fed from many
threads, windows and tabs shared between a repository and several controllers, caches of server events
that are re-read when they become invalid, sessions and connections that are opened, closed and
reopened, and conversation histories assembled from streams and pages. This project models them in
Dafny and proves what they promise, for every run.

`dafny verify dfyconfig.toml` checks everything.

| file | what it models |
|---|---|
| `TraceRing.dfy`, `TraceDelivery.dfy` | the protocol trace: ring, request/response correlation, debounced delivery |
| `WindowTabs.dfy`, `WindowRepository.dfy`, `WindowController.dfy` | tabs, the repository of window states, and its controller in another process |
| `EventSync.dfy`, `GoalSync.dfy`, `EventBuffers.dfy` | versioned server events with their re-reads, bounded output and audio |
| `Connection.dfy`, `Session.dfy`, `ConnectedSessions.dfy` | the connection to a server over many sessions, one session, and both together |
| `Terminals.dfy` | background terminals from notifications and listings |
| `Batching.dfy`, `Conversation.dfy`, `ThreadHistory.dfy`, `Resumption.dfy` | frames, the projection of turns and items, pages, and resuming a live thread |
| `Geometry.dfy` | restoring a window onto the monitors that exist |
| `ProfileSave.dfy` | saving a profile in several commands |

Each module has a value type for the state and one function per atomic step: the code between two
awaits, or one critical section. Invariants are proved for every step and lifted to runs. Where the
program changes fields in place there is a class with those fields whose methods are proved to compute
the same steps; facts about steps and runs then hold for the class. Beside the invariants, every
operation has lemmas that say outright when it does something, what the result is and what it leaves
alone; in the table they stand between the invariants and the class's methods.

Some promises hold only under a condition. Then the condition is stated and shown to be needed:

- A reply takes the window controller back to an older version exactly if newer events overtook it
  (`ReplyLowersVersionIff`, `VersionCanDecrease`).
- The base64 size estimate is exact only for padded text (`SizeIsExactIffPadded`).
- An older page and a notification that changes a turn of that page which is not loaded do not commute
  (`OlderTurnsCommuteIff`, `OlderTurnsCommuteExactly`).
- A text delta that the answer to a resumption already contains is appended again
  (`DeltaIsDuplicatedIff`); reports of turns and items converge (`ResumedSnapshotConverges`).
- Normalising a window twice can change it twice if it is smaller than the minimum or monitors overlap
  (`SecondPassChangesIff`, `SmallWindowsMayMoveTwice`, `OverlappingMonitorsMayMoveTwice`).
- Creating a proxy with the intent to clear its credential reports failure after creating it
  (`ProxyCreateIsTruthfulIff`), and a proxy edit that changes host and password together is refused
  (`QuietProxyEditIsSavedIff`, `ProxyEditsDoNotRebind`).

Assumptions made explicit in the models: tab ids and subscription ids made by the program are fresh;
a failing command has no effect; a server's listing is its list at some moment between request and
answer; the end of a read and the removal of its in-flight entry are one step; the session factory
returns before it calls back; decoding a stream chunk by chunk concatenates to decoding the whole.

## Model

| member | source | states |
|---|---|---|
| `TraceRing.AppendKeepsInv` | src-tauri/src/protocol_trace.rs:264-302 | Recording any message keeps the ring within 5000 entries and 32 MiB, the byte counter equal to the sum of payload lengths, the sequence numbers increasing, and the correlation table equal to what the retained entries alone determine |
| `TraceRing.EvictKeepsLongestFittingSuffix` | src-tauri/src/protocol_trace.rs:683-707 | Eviction keeps exactly the longest suffix that fits both bounds, and the (saturating) counter counts what was dropped |
| `TraceRing.EvictOldestKeepsTracking` | src-tauri/src/protocol_trace.rs:683-707 | Dropping the oldest entry never saturates the byte counter and forgets exactly the request that entry recorded |
| `TraceRing.NewestSurvives` | src-tauri/src/protocol_trace.rs:683-707 | The newest entry is never evicted, so the ring is never emptied by recording |
| `TraceRing.ResponseIsLabelledByLatestRequest` | src-tauri/src/protocol_trace.rs:633-681 | A response gets the method and window of the latest unanswered request that is still retained, with the same connection and id and the opposite direction; without one it keeps its own context |
| `TraceRing.OutstandingIsRetained` | src-tauri/src/protocol_trace.rs:633-707 | A pending request is one of the retained request entries, with the same key, method, window and sequence |
| `TraceRing.PendingBoundedByRing` | src-tauri/src/protocol_trace.rs:208-215 | The pending table is never larger than the ring, which holds at most 5000 entries and 32 MiB, even when request ids are reused |
| `TraceDelivery.NextKeepsInv` | src-tauri/src/protocol_trace.rs:251-434 | Every step (recording under the lock, scheduling after it, flushing, finishing a send, subscribing, clearing, unsubscribing, window loss) keeps the delivery invariant |
| `TraceDelivery.NoLostWakeUp` | src-tauri/src/protocol_trace.rs:264-303 | In every run, while something is waiting for delivery a flush is outstanding or a recorder is still between unlocking and scheduling |
| `TraceDelivery.FlushBatchIsNotEmpty` | src-tauri/src/protocol_trace.rs:403-434 | A flush that finds a pending start always has something to send: the empty-batch branch is unreachable |
| `TraceDelivery.EachFlushCatchesUp` | src-tauri/src/protocol_trace.rs:403-434 | After a delivered flush the subscriber's log since its last reset is strictly increasing, and from the oldest retained sequence on it is exactly the retained entries |
| `TraceDelivery.ReceivedIsAscending` | src-tauri/src/protocol_trace.rs:306-434 | At every moment of every run each subscription's log since its last reset is strictly increasing: nothing is delivered twice or out of order |
| `TraceDelivery.LandedSendCatchesUp` | src-tauri/src/protocol_trace.rs:403-434 | Whatever ran between the two halves of a send: when it lands, the subscriber has from the oldest retained entry on exactly the retained entries but those recorded since the flush took over |
| `TraceDelivery.QuiescentSubscriberIsUpToDate` | src-tauri/src/protocol_trace.rs:387-434 | With no recorder, flush or send outstanding, the subscriber holds every retained entry, in order, once |
| `TraceDelivery.UnsubscribeEndsOnlyItsGeneration` | src-tauri/src/protocol_trace.rs:342-351 | Unsubscribing a window's generation leaves the hub as it was unless that generation is the subscriber; then the subscription is gone and nothing of it is retained |
| `TraceDelivery.DisconnectEndsOnlyItsWindow` | src-tauri/src/protocol_trace.rs:353-364 | Losing a window ends exactly its own subscription, of whatever generation |
| `TraceDelivery.FailedSendEndsItsSubscription` | src-tauri/src/protocol_trace.rs:334-339 | A failed send releases the lock and ends the subscription it was for; after clearing, whichever the window has; any other is left alone |
| `TraceDelivery.FailedSendNamesTheSubscriber` | src-tauri/src/protocol_trace.rs:380-384 | In reachable states a send in progress is for the present subscriber, so its failure ends exactly that one |
| `TraceDelivery.LandedSendIsReceived` | src-tauri/src/protocol_trace.rs:403-434 | A landed send reaches the log of the subscription it was sent to, which a reset replaces; no other log and nothing of the hub changes |
| `TraceDelivery.SubscribingStartsAfresh` | src-tauri/src/protocol_trace.rs:306-340 | The waiting subscription that gets the lock is the subscriber, with nothing retained and an empty reset on its way |
| `TraceDelivery.ClearingKeepsTheSubscription` | src-tauri/src/protocol_trace.rs:366-385 | Clearing empties the hub for the window that is subscribed, keeps its subscription and sends it an empty reset; any other window is refused without effect |
| `TraceDelivery.GenerationsAreFresh` | src-tauri/src/protocol_trace.rs:306-315 | A new generation is not waiting, not subscribed, and is never handed out again |
| `TraceDelivery.SubscriptionEndsIffNamed` | src-tauri/src/protocol_trace.rs:306-434 | In one step a subscription ends if and only if the step names its generation or window, is a failed send to it, or lets another take over |
| `TraceDelivery.SubscriptionLastsUntilNamed` | src-tauri/src/protocol_trace.rs:306-434 | Over every run a subscription lasts exactly until the first such step, and never comes back |
| `TraceDelivery.RecordingAppends` | src-tauri/src/protocol_trace.rs:251-302 | With a subscriber a message joins the retained entries under the next sequence number, as classified, and the longest fitting suffix is kept; it waits for delivery behind what waits already; without one nothing happens |
| `TraceDelivery.FlushReportsTheRing` | src-tauri/src/protocol_trace.rs:403-434 | A flush sends exactly the retained entries from the pending start on, in order, with the oldest sequence, count, bytes and evictions of the ring |
| `TraceDelivery.ProtocolTraceHub.CorrelateMessage` | src-tauri/src/protocol_trace.rs:633-681 | In place, refines the answer and the new table of the correlation step |
| `TraceDelivery.ProtocolTraceHub.EvictOverflow` | src-tauri/src/protocol_trace.rs:683-707 | The popping loop leaves exactly the evicted ring |
| `TraceDelivery.ProtocolTraceHub.Record` | src-tauri/src/protocol_trace.rs:251-302 | The locked part of recording refines its step; nothing happens without a subscriber |
| `TraceDelivery.ProtocolTraceHub.ScheduleDelivery` | src-tauri/src/protocol_trace.rs:387-401 | The compare-exchange after unlocking starts a flush unless one is scheduled |
| `TraceDelivery.ProtocolTraceHub.BeginFlush` | src-tauri/src/protocol_trace.rs:403-434 | In place, refines the step that `FlushReportsTheRing` is about |
| `TraceDelivery.ProtocolTraceHub.FinishSend` | src-tauri/src/protocol_trace.rs:306-434 | In place, refines the outcome of a send that `FailedSendEndsItsSubscription` and `LandedSendIsReceived` are about |
| `TraceDelivery.ProtocolTraceHub.BeginSubscribe` | src-tauri/src/protocol_trace.rs:306-340 | In place, refines the step that `SubscribingStartsAfresh` is about |
| `TraceDelivery.ProtocolTraceHub.Unsubscribe` | src-tauri/src/protocol_trace.rs:342-351 | In place, refines the step that `UnsubscribeEndsOnlyItsGeneration` is about |
| `TraceDelivery.ProtocolTraceHub.DisconnectWindow` | src-tauri/src/protocol_trace.rs:353-364 | In place, refines the step that `DisconnectEndsOnlyItsWindow` is about |
| `TraceDelivery.ProtocolTraceHub.BeginClear` | src-tauri/src/protocol_trace.rs:366-385 | In place, refines the step that `ClearingKeepsTheSubscription` is about, and refuses exactly other windows |
| `TraceDelivery.ProtocolTraceHub.ClearState` | src-tauri/src/protocol_trace.rs:709-715 | Clearing drops entries, table, pending start and counters |
| `WindowTabs.ValidateTabs` | src-tauri/src/window_state.rs:819-857 | The loop with its two sets returns the first error the checks find, in their order |
| `WindowTabs.TabsErrorIffInvalid` | src-tauri/src/window_state.rs:819-857 | It accepts exactly the lists of 1 to 100 tabs with valid texts, distinct ids, distinct threads and an existing active tab |
| `WindowTabs.SameTabs` | src/app/useWindowState.ts:602-610 | Two tab lists are reported equal exactly if they are equal |
| `WindowTabs.PredictionIsAChange` | src/app/useWindowState.ts:487-600 | Every non-null prediction differs from the current tabs or active tab, so the repository's unchanged shortcut cannot answer it |
| `WindowTabs.PredictionIsValidIffRoom` | src/app/useWindowState.ts:487-600 | Every prediction from a valid state with fresh tab ids passes the repository's validation, except exactly a hundred-and-first opened tab |
| `WindowTabs.CloseTabActivatesNeighbour` | src/app/useWindowState.ts:487-600 | Closing the active tab removes just it and activates its right neighbour, or the left one at the end |
| `WindowTabs.BothEndsOpenTheSameTab` | src-tauri/src/window_state.rs:453-480 | Opening a thread gives the same tabs and active tab in the controller's prediction and in the repository |
| `WindowTabs.ValidTabsAre` | src-tauri/src/window_state.rs:819-890 | What is accepted, in numbers: 1 to 100 tabs, ids of 1 to 64 bytes, threads of 1 to 1024, no zero byte, nothing twice, the active tab among them |
| `WindowTabs.CloseInactiveTabKeepsActive` | src/app/useWindowState.ts:547-550 | Closing a tab in the background removes just it; the active tab stays active |
| `WindowTabs.CloseOnlyTabLeavesABlankOne` | src/app/useWindowState.ts:540-546 | Closing the only tab leaves one blank tab under the new id |
| `WindowTabs.MissingTabs` | src/app/useWindowState.ts:528-577 | A tab that is gone cannot be activated or given a thread; closing it is nothing |
| `WindowTabs.ClosedWindowsHaveNoTabs` | src/app/useWindowState.ts:491-494 | Without server or active tab every mutation of tabs is refused |
| `WindowTabs.ActivateTabNamesIt` | src/app/useWindowState.ts:528-534 | Activating a tab changes the active tab to it and nothing else |
| `WindowTabs.ShownThreadIsActivated` | src/app/useWindowState.ts:496-527 | Opening a thread, or replacing one by it, activates the tab that shows it already |
| `WindowTabs.ReplacingChangesTheActiveTab` | src/app/useWindowState.ts:505-512 | Any other thread takes the place of the active tab's; every other tab is as it was |
| `WindowTabs.OpeningAppends` | src/app/useWindowState.ts:523-526 | Any other tab is opened at the end and activated |
| `WindowTabs.CloseTabsKeepsTheRest` | src/app/useWindowState.ts:557-572 | Closing several tabs keeps exactly the others in their order and activates the named one; it fails exactly if that one is not kept |
| `WindowTabs.AttachingShownThreadClosesTheTab` | src/app/useWindowState.ts:578-586 | Attaching a thread that another tab shows closes this tab and activates that one |
| `WindowTabs.AttachingChangesTheTab` | src/app/useWindowState.ts:587-597 | Attaching any other thread changes just the named tab; the active tab stays active |
| `WindowTabs.ReplyIsAcceptedIff` | src/app/useWindowState.ts:451-485 | A reply is accepted exactly if it is the predicted next state at a time that is not earlier |
| `WindowRepository.PerformKeepsInv` | src-tauri/src/window_state.rs:132-554 | Every operation, and deleting a server without an active window, keeps: one window per server, references exactly where there are runtime states of the same server, valid tabs, versions in range |
| `WindowRepository.PerformAllKeepsInv` | src-tauri/src/window_state.rs:132-554 | The same for every run of operations |
| `WindowRepository.VersionsNeverDecrease` | src-tauri/src/window_state.rs:234-514 | An operation leaves a row alone or raises its version by exactly one with a later timestamp, discarding excepted |
| `WindowRepository.VersionsNeverDecreaseInRuns` | src-tauri/src/window_state.rs:132-554 | Versions never decrease over any run that does not discard the window |
| `WindowRepository.ActiveWindowIsNeverCorrupt` | src-tauri/src/window_state.rs:598-641 | Binding and updating tabs never report a corrupt state for an active window |
| `WindowRepository.UpdateTabsSucceedsIff` | src-tauri/src/window_state.rs:313-370 | An update succeeds exactly for the current version and valid tabs while the counters have room; then it stores them, otherwise nothing changes |
| `WindowRepository.BindServerSucceedsIff` | src-tauri/src/window_state.rs:234-311 | Binding to another server succeeds exactly if the version matches, the server exists and no other window is active on it; it starts with one blank tab |
| `WindowRepository.OtherWindowsAreKept` | src-tauri/src/window_state.rs:197-554 | An operation on one window leaves row, reference and tabs of every other as they were |
| `WindowRepository.RemovalsSay` | src-tauri/src/window_state.rs:516-554 | Deactivation forgets reference and tabs of the one window, discarding its row as well, a start those of all windows |
| `WindowRepository.LeavingFreesTheServer` | src-tauri/src/window_state.rs:516-554 | While a window is active on a server no other can be reserved for it; once it is deactivated or discarded one can |
| `WindowRepository.ReserveSucceedsIff` | src-tauri/src/window_state.rs:372-420 | Reserving succeeds exactly for a valid thread, an existing free server and a new window, and then holds one tab with the thread; every failure names its reason and changes nothing |
| `WindowRepository.LoadingMakesTheWindow` | src-tauri/src/window_state.rs:197-232 | Loading an unknown window makes it at version one, on no server |
| `WindowRepository.LoadingActivatesTheWindow` | src-tauri/src/window_state.rs:197-232 | Loading a known window activates it on its server with the tabs it still has there, or a blank one, unless another window is active on it; the row does not change |
| `WindowRepository.UnbindingSucceedsIff` | src-tauri/src/window_state.rs:234-311 | Taking a window off its server succeeds exactly for the current version with room, and frees the server; binding it to its own server changes nothing |
| `WindowRepository.BindingFailsWith` | src-tauri/src/window_state.rs:234-311 | The error of a failed binding, in the order of the checks |
| `WindowRepository.UpdatingFailsWith` | src-tauri/src/window_state.rs:313-370 | The error of a failed update of tabs, in the order of the checks |
| `WindowRepository.OpenTabSucceedsIff` | src-tauri/src/window_state.rs:430-514 | Opening a thread activates the tab that shows it or appends one, once; it succeeds exactly for a valid thread on this server with room for the tab |
| `WindowRepository.OpeningFailsWith` | src-tauri/src/window_state.rs:430-514 | The error when it fails, in the order of the checks |
| `WindowRepository.RaisingSays` | src-tauri/src/window_state.rs:274-293 | A raised row has the next version and the clock's time, or one millisecond more than before |
| `WindowRepository.DeletionSucceedsIff` | src-tauri/src/configuration/repository.rs:738-782 | A server is deleted exactly if no window is active on it and all rows that name it can be raised; these then name none |
| `WindowRepository.WindowStateRepository.Initialize` | src-tauri/src/window_state.rs:132-140 | Start-up drops all references and runtime states and keeps the rows |
| `WindowRepository.WindowStateRepository.LoadAndActivate` | src-tauri/src/window_state.rs:197-232 | Refines the load step: creates the row if needed, keeps a matching runtime state, refuses a server that is open elsewhere |
| `WindowRepository.WindowStateRepository.BindServer` | src-tauri/src/window_state.rs:234-311 | Refines the bind step with all its error cases, on tables updated in place |
| `WindowRepository.WindowStateRepository.UpdateTabs` | src-tauri/src/window_state.rs:313-370 | Refines the compare-and-swap of tabs with all its error cases |
| `WindowRepository.WindowStateRepository.ReserveNewWindow` | src-tauri/src/window_state.rs:372-420 | Refines reserving a window for a server that has none |
| `WindowRepository.WindowStateRepository.OpenTabForServer` | src-tauri/src/window_state.rs:430-514 | Refines opening a tab in the window that is active on the server |
| `WindowRepository.WindowStateRepository.DiscardReservedWindow` | src-tauri/src/window_state.rs:516-539 | Refines discarding a reserved window |
| `WindowRepository.WindowStateRepository.Deactivate` | src-tauri/src/window_state.rs:541-554 | Deactivation drops the window's reference and runtime state only |
| `WindowRepository.WindowStateRepository.FindActiveWindow` | src-tauri/src/window_state.rs:800-817 | Finds a window that is active on the server other than the excluded one, if there is one |
| `WindowController.RunKeepsInv` | src/app/useWindowState.ts:203-372 | Every interleaving of queued mutations, replies, other windows' commits, delivered events and loads keeps the joint invariant of controller and repository |
| `WindowController.RequestCommitsOrFails` | src/app/useWindowState.ts:300-372 | Processing a sent request either commits once, from exactly the state the controller saw, or changes nothing for the window |
| `WindowController.EveryResolutionIsTruthful` | src/app/useWindowState.ts:261-372 | A resolved mutation is a no-operation on a state the repository held, or exactly one commit made by its own request, from version v to v+1, with the predicted server, tabs and active tab |
| `WindowController.AuthoritativeStateWasHeld` | src/app/useWindowState.ts:203-220 | The controller's authoritative state is always null or one the repository held |
| `WindowController.SuccessReplyIsAccepted` | src/app/useWindowState.ts:324-372 | A success reply always matches the prediction: it is never rejected as a mismatch |
| `WindowController.LoadsNeverOverwriteMutations` | src/app/useWindowState.ts:374-392 | A load is applied only while no mutation is queued or in flight |
| `WindowController.ReplyLowersVersionIff` | src/app/useWindowState.ts:363-363 | The reply lowers the controller's version exactly if an event more than one version newer than the request's base was applied meanwhile |
| `WindowController.VersionCanDecrease` | src/app/useWindowState.ts:363-363 | It does happen: a sane run from a valid repository ends with the controller at version 3, and the delivery of its outstanding reply takes it to version 2 |
| `WindowController.EnqueuingSays` | src/app/useWindowState.ts:261-298 | A mutation is refused without a state, done at once if nothing is pending and the server is the same, and else the last in the queue, outdating loads |
| `WindowController.StartingSays` | src/app/useWindowState.ts:300-337 | Mutations start one at a time, the oldest first, each on the state current then, with exactly the request of its prediction |
| `WindowController.FailedRepliesSay` | src/app/useWindowState.ts:338-361 | A server that is open elsewhere leaves the state; any other failure loses it |
| `WindowController.SuccessfulRepliesSay` | src/app/useWindowState.ts:363-371 | A success is the new state and resolves the mutation with it |
| `WindowController.EventIsAppliedIff` | src/app/useWindowState.ts:203-220 | An event is applied if and only if it is newer than the state and the controller is not disposed |
| `WindowController.LoadCountsIff` | src/app/useWindowState.ts:374-392 | A load starts exactly if nothing is pending and counts exactly if nothing outdated it |
| `WindowController.DisposedTakesNothingIn` | src/app/useWindowState.ts:252-259 | A disposed controller starts nothing and takes in no event, load or mutation |
| `WindowController.UndisturbedMutationCommits` | src/app/useWindowState.ts:261-372 | From an up-to-date idle controller a mutation with room is committed by the next four steps, and the window has the predicted tabs |
| `WindowController.WindowStateController.Reload` | src/app/useWindowState.ts:144-163 | Refines starting a load with a new generation |
| `WindowController.WindowStateController.EnqueueMutation` | src/app/useWindowState.ts:261-298 | Refines queueing; disposed or unloaded controllers refuse |
| `WindowController.WindowStateController.BeginMutation` | src/app/useWindowState.ts:300-337 | Refines the start of the next mutation: no-operation, refusal, or the request with the base version |
| `WindowController.WindowStateController.FinishMutation` | src/app/useWindowState.ts:324-372 | Refines checking the reply and overwriting the state |
| `WindowController.WindowStateController.ApplyExternalState` | src/app/useWindowState.ts:203-220 | Refines applying an event only if it is newer |
| `WindowController.WindowStateController.FinishLoad` | src/app/useWindowState.ts:374-392 | Refines the end of a load: only the latest generation counts |
| `EventSync.RunKeepsInv` | src/appServer/serverEventSync.ts:13-160 | Every interleaving of notifications, page answers, failures, disconnection, reconnection and disposal keeps the invariant of store and synchroniser |
| `EventSync.ReadyQueueIsCurrent` | src/appServer/serverEventSync.ts:47-77 | A ready queue shows the first 100 entries of pages all requested after its version was set, and no change of that queue was reported since the first request |
| `EventSync.ReadyProjectsAreCurrent` | src/appServer/serverEventSync.ts:119-149 | The same for the project list |
| `EventSync.PendingQueueIsBeingRead` | src/appServer/serverEventSync.ts:22-45 | While connected, not disposed and not deleted, a pending queue has a read in flight, in every run that does not reconnect the store |
| `EventSync.PendingProjectsAreBeingRead` | src/appServer/serverEventSync.ts:113-117 | While connected and not disposed, the pending project list has a read in flight exactly once it has changed or a refresh was asked for |
| `EventSync.ReconnectionForgetsIff` | src/appServer/serverEventState.ts:553-557 | Reconnecting a store, which nothing in the program does, would leave a pending queue unread exactly if it changed while disconnected and no read from before was still waiting |
| `EventSync.OfflineChangeIsForgotten` | src/appServer/serverEventState.ts:553-557 | The shortest run that would |
| `EventSync.SameVersionMeansUnchanged` | src/appServer/serverEventState.ts:205-207 | Versions only grow, and equal versions mean that no change was reported in between, whatever was evicted from the cache |
| `EventSync.PutSays` | src/appServer/serverEventState.ts:198-200 | Putting an entry keeps the cache within 100 entries with distinct keys, drops only the oldest, and never the one put |
| `EventSync.MergingKeepsInv` | src/appServer/serverEventState.ts:504-560 | Merging or failing a read at the version it started from keeps what is shown current and loses no invalidation |
| `EventSync.ReadyListingsAreWhole` | src/appServer/serverEventSync.ts:54-67 | Over every run: what a ready queue or project list was read from is its whole listing or more than 100 entries of it, each page asked for with the cursor before it and no cursor coming twice |
| `EventSync.QueuePageOutcome` | src/appServer/serverEventSync.ts:54-69 | In every run: a page with a new cursor and room for more makes the read go on with that cursor; otherwise the queue is ready with what was read, failed if the cursor came before, or read again if it has changed |
| `EventSync.QueueErrorOutcome` | src/appServer/serverEventSync.ts:70-76 | A failed request fails the queue or has it read again |
| `EventSync.ProjectPageOutcome` | src/appServer/serverEventSync.ts:126-141 | The same for the project list, whose entries stay when its read fails |
| `EventSync.ProjectErrorOutcome` | src/appServer/serverEventSync.ts:142-146 | The same for a failed request of projects |
| `EventSync.LateAnswersChangeNothing` | src/appServer/serverEventSync.ts:63-63 | When nobody listens any more, or the thread is gone, an answer only ends its read |
| `EventSync.ChangesAreRead` | src/appServer/serverEventSync.ts:22-45 | A change or restoration has the list read from the start, unless a read is under way |
| `EventSync.ChangedQueueIsPending` | src/appServer/serverEventState.ts:250-256 | A changed queue is pending and empty at the next version; no other queue changes |
| `EventSync.ClearedQueueIsGone` | src/appServer/serverEventState.ts:473-480 | A reverted or deleted thread has no queue; every other queue stays |
| `EventSync.ChangedProjectsArePending` | src/appServer/serverEventState.ts:257-262 | A changed project list is pending with the entries of before |
| `EventSync.DisconnectionInvalidates` | src/appServer/serverEventState.ts:607-630 | A disconnection raises every version by one and marks every list unknown, in place |
| `EventSync.PutKeepsTheNewest` | src/appServer/serverEventState.ts:198-200 | Putting moves a known key to the end or adds a new one there; only the oldest entry of a full cache is dropped, and the others keep their order |
| `EventSync.ServerEventStore.ConsumeQueueChanged` | src/appServer/serverEventState.ts:250-256 | A queue change raises the version and marks the queue pending |
| `EventSync.ServerEventStore.ConsumeCleared` | src/appServer/serverEventState.ts:473-480 | Reverting or deleting a thread raises the version and drops the entry; deletion is remembered |
| `EventSync.ServerEventStore.ConsumeProjectChanged` | src/appServer/serverEventState.ts:257-262 | A project change raises the version and marks the list pending |
| `EventSync.ServerEventStore.HydrateQueue` | src/appServer/serverEventState.ts:504-523 | A read is merged exactly if the store is connected, the thread not deleted and the version unchanged |
| `EventSync.ServerEventStore.FailQueue` | src/appServer/serverEventState.ts:524-529 | A failure is shown under the same condition |
| `EventSync.ServerEventStore.HydrateProjects` | src/appServer/serverEventState.ts:542-547 | The project list is merged exactly at its version while connected |
| `EventSync.ServerEventStore.FailProjects` | src/appServer/serverEventState.ts:548-552 | A failed project read is shown exactly at its version while connected |
| `EventSync.ServerEventStore.Disconnect` | src/appServer/serverEventState.ts:607-630 | Disconnection raises every version once and marks what is shown unknown |
| `EventSync.ServerEventSync.RefreshQueue` | src/appServer/serverEventSync.ts:39-45 | At most one read per thread is started, only when it can be synchronised |
| `EventSync.ServerEventSync.QueuePageArrived` | src/appServer/serverEventSync.ts:54-69 | In place, refines the answer to one page request that `QueuePageOutcome` is about |
| `EventSync.ServerEventSync.QueueRequestFailed` | src/appServer/serverEventSync.ts:70-76 | A failed request stops, restarts or is recorded, by the same rules |
| `EventSync.ServerEventSync.ProjectPageArrived` | src/appServer/serverEventSync.ts:126-141 | In place, refines the answer that `ProjectPageOutcome` is about |
| `EventSync.ServerEventSync.ProjectRequestFailed` | src/appServer/serverEventSync.ts:142-146 | A failed project request, by the same rules |
| `EventSync.ServerEventSync.OnQueueChanged` | src/appServer/serverEventSync.ts:22-25 | The store hears a change before the synchroniser starts its read |
| `GoalSync.FreshGoalIsTheServers` | src/appServer/serverEventSync.ts:79-111 | In every run with truthful answers, a goal shown as current is the server's according to everything reported, whatever reads, disconnections and evictions came before |
| `GoalSync.AnswerEndsWithTheServersGoal` | src/appServer/serverEventSync.ts:92-97 | An answer that ends the reading, even one too late to be merged, leaves the server's goal shown as current |
| `GoalSync.NextKeepsInv` | src/appServer/serverEventState.ts:530-541 | Every step keeps: a read's version has not moved only if nothing about the goal was reported since its request |
| `GoalSync.AnswerSays` | src/appServer/serverEventSync.ts:92-97 | An answer is merged exactly at its version; a later one ends the reading if a report brought the goal, and has it start again if not |
| `GoalSync.FailureSays` | src/appServer/serverEventSync.ts:98-104 | A failure keeps the known goal as not current, under the same conditions |
| `GoalSync.RestorationSays` | src/appServer/serverEventSync.ts:79-91 | A goal is asked for exactly if it is of use and not under way; late answers only end the reading |
| `GoalSync.ReportsSay` | src/appServer/serverEventState.ts:530-541 | A report is current at once; a reverted thread has no goal; a disconnection leaves it not current |
| `EventBuffers.StreamIsSuffixOfHistory` | src/appServer/serverEventState.ts:653-669 | After any output deltas a stream shows the last 32768 units of everything decoded, and is marked truncated exactly if something was cut or a cap was reported |
| `EventBuffers.ExitShowsSuffixOfHistory` | src/appServer/serverEventState.ts:674-690 | The exit completes this with the decoder's tail, or with the captured output of a stream that never streamed |
| `EventBuffers.SizeOfEncodedBytesIsExact` | src/appServer/serverEventState.ts:770-772 | The size computed from length and padding is the exact byte count of padded base64 (section 4 of RFC 4648) |
| `EventBuffers.SizeIsExactIffPadded` | src/appServer/serverEventState.ts:770-772 | On decodable text without white space it is exact precisely if the text is padded to whole groups of four |
| `EventBuffers.AudioIsLongestSuffix` | src/appServer/serverEventState.ts:731-746 | The kept chunks are the longest suffix of all received ones that has one format, at most 100 chunks and at most 1 MiB; the truncation flag is set exactly if a received chunk is not kept |
| `EventBuffers.LongestForgetsThePast` | src/appServer/serverEventState.ts:735-743 | Computing the longest suffix from the kept chunks alone is the same as from the whole history |
| `EventBuffers.OutputStartsTheProcess` | src/appServer/serverEventState.ts:653-676 | Output of an unknown or ended process starts it from nothing; a second exit changes nothing |
| `EventBuffers.AudioBytesAreCounted` | src/appServer/serverEventState.ts:743-744 | The counters cover every received chunk, kept or not |
| `EventBuffers.ProcessEntry.Output` | src/appServer/serverEventState.ts:653-669 | One output delta, in place, refines its step |
| `EventBuffers.ProcessEntry.Complete` | src/appServer/serverEventState.ts:674-690 | The exit, in place, refines its step; a finished process is left alone |
| `EventBuffers.RealtimeEntry.OutputAudioDelta` | src/appServer/serverEventState.ts:731-746 | The shifting loop with its running size refines the audio step |
| `Connection.SessionsAreCreatedOneAfterAnother` | src/app/useConfiguredServerConnection.ts:303-392 | In every run a session is created only after the close of every earlier session has fulfilled, by the latest requested replacement and for the latest requested server |
| `Connection.AtMostOneSessionIsOpen` | src/app/useConfiguredServerConnection.ts:527-541 | In every run all sessions but at most one have been closed |
| `Connection.FailedCloseStopsCreation` | src/app/useConfiguredServerConnection.ts:325-331 | Once a close has failed, no session is ever created again |
| `Connection.TimerGuardIsRedundant` | src/app/useConfiguredServerConnection.ts:466-489 | A live reconnect timer always has the current generation and target, with reconnection not stopped and the controller not disposed: the callback's checks never reject |
| `Connection.NoTimerWhileStopped` | src/app/useConfiguredServerConnection.ts:226-260 | After stopping or disconnecting no reconnect timer exists until the user connects or the session becomes ready |
| `Connection.CountdownIsTruthful` | src/app/useConfiguredServerConnection.ts:446-525 | For any sessions that report nothing but their failure once they are over: the announced next attempt is that of the live timer, and three short process exits in a row leave no timer and no replacement |
| `Connection.ShownBelongsToTheOpenSession` | src/app/useConfiguredServerConnection.ts:568-634 | A client offered to the view belongs to the newest session, whose close was not requested; "connecting" is never shown with nothing under way |
| `Connection.ConnectionIdsAreNotReused` | src/app/useConfiguredServerConnection.ts:543-566 | All ids issued match the pattern, and none recurs within 1024 further ids |
| `Connection.DelayIsWithinTenPercent` | src/app/useConfiguredServerConnection.ts:467-471 | The delay of every attempt is within ten per cent of its base for every jitter |
| `Connection.ConnectCreatesASession` | src/app/useConfiguredServerConnection.ts:211-215 | Unless disposed or after a failed close, connecting creates a session for the requested server once the pending closes fulfil |
| `Connection.NextKeepsInv` | src/app/useConfiguredServerConnection.ts:211-634 | Every step keeps the controller's invariant |
| `Connection.FailureIsRetriedIff` | src/app/useConfiguredServerConnection.ts:394-489 | In every run a failure of the current attempt that is not announced yet is followed by the next attempt after its delay if and only if the transport was closed, failed or did not connect, the server was ready before, nobody stopped, and it is not the third short exit |
| `Connection.RejectedStartIsRetriedIff` | src/app/useConfiguredServerConnection.ts:376-391 | The same for a rejected start, unless an error is shown already |
| `Connection.AnnouncedFailureStands` | src/app/useConfiguredServerConnection.ts:446-452 | A failure that is announced already changes neither timer nor what is shown, except that a third short exit stops |
| `Connection.ExitsAreCounted` | src/app/useConfiguredServerConnection.ts:509-525 | Only exits within ten seconds count, and any other failure starts the count over |
| `Connection.DelayIsRounded` | src/app/useConfiguredServerConnection.ts:467-471 | Each delay is the rounded listed one times the jitter; the last is for all further attempts |
| `Connection.FailuresAreCounted` | src/app/useConfiguredServerConnection.ts:394-489 | Over every run the attempt number is the count of retried failures since the server was last ready or the user intervened, so the n-th failure waits for the n-th delay |
| `Connection.TimerCreatesASession` | src/app/useConfiguredServerConnection.ts:476-488 | A fired timer closes the session and leads to a new one for the same server once the closes have fulfilled |
| `Connection.OtherSessionsAreNotHeard` | src/app/useConfiguredServerConnection.ts:394-400 | A session other than the current attempt's changes nothing |
| `Connection.ReadySessionIsOffered` | src/app/useConfiguredServerConnection.ts:407-414 | A ready session is offered and all counts start over |
| `Connection.ProgressIsShown` | src/app/useConfiguredServerConnection.ts:429-429 | Progress is shown with the attempt it belongs to; nothing is offered |
| `Connection.ConnectStartsOver` | src/app/useConfiguredServerConnection.ts:211-224 | Connecting forgives everything and waits for the close of the session; what was reached counts only for the same server |
| `Connection.StoppingEndsTheCountdown` | src/app/useConfiguredServerConnection.ts:226-234 | Stopping ends the countdown and leaves the connection |
| `Connection.DisconnectDetaches` | src/app/useConfiguredServerConnection.ts:236-252 | Disconnecting detaches the session and has it closed; the target stays |
| `Connection.DisposalIsFinal` | src/app/useConfiguredServerConnection.ts:289-301 | After disposal nothing is shown, scheduled or created |
| `Connection.OvertakenCallsDoNothing` | src/app/useConfiguredServerConnection.ts:320-324 | An overtaken call does nothing when its wait is over |
| `Connection.ResumedCallSays` | src/app/useConfiguredServerConnection.ts:325-375 | The newest call goes on with the first usable id, or shows why it cannot |
| `Connection.ConfiguredServerConnectionController.ReplaceConnection` | src/app/useConfiguredServerConnection.ts:303-320 | Refines the part of a replacement before it waits for the close |
| `Connection.ConfiguredServerConnectionController.Resume` | src/app/useConfiguredServerConnection.ts:320-375 | Refines what follows the wait, with outdated, failed-close, id and factory failures |
| `Connection.ConfiguredServerConnectionController.AllocateConnectionId` | src/app/useConfiguredServerConnection.ts:543-566 | The loop returns the first usable of at most 16 ids, keeps set and queue in agreement and retains the newest 1024 |
| `Connection.ConfiguredServerConnectionController.HandleSessionState` | src/app/useConfiguredServerConnection.ts:394-430 | Refines ready, failure and progress reports of the current attempt |
| `Connection.ConfiguredServerConnectionController.HandleAttemptError` | src/app/useConfiguredServerConnection.ts:446-464 | In place, refines the decision that `FailureIsRetriedIff` and `RejectedStartIsRetriedIff` are about |
| `Connection.ConfiguredServerConnectionController.StartRejected` | src/app/useConfiguredServerConnection.ts:377-391 | Refines a rejected start |
| `Connection.ConfiguredServerConnectionController.RecordLocalProcessExit` | src/app/useConfiguredServerConnection.ts:509-525 | Refines counting short process exits |
| `Connection.ConfiguredServerConnectionController.Connect` | src/app/useConfiguredServerConnection.ts:211-215 | Refines connecting |
| `Connection.ConfiguredServerConnectionController.Retry` | src/app/useConfiguredServerConnection.ts:217-224 | Refines retrying |
| `Connection.ConfiguredServerConnectionController.StopReconnect` | src/app/useConfiguredServerConnection.ts:226-234 | Refines stopping reconnection |
| `Connection.ConfiguredServerConnectionController.Disconnect` | src/app/useConfiguredServerConnection.ts:236-260 | Refines disconnecting |
| `Connection.ConfiguredServerConnectionController.Dispose` | src/app/useConfiguredServerConnection.ts:289-301 | Refines disposal |
| `Connection.ConfiguredServerConnectionController.TimerFired` | src/app/useConfiguredServerConnection.ts:477-488 | Refines the timer's callback |
| `Connection.ConfiguredServerConnectionController.CloseSettled` | src/app/useConfiguredServerConnection.ts:527-541 | Refines one link of the close barrier |
| `Session.HandedIsAPrefixOfDelivered` | src/appServer/session.ts:391-463 | In every run the router sees an in-order prefix of what the transport delivered, and all of it in a healthy session with nothing buffered or queued |
| `Session.InboundCountIsExact` | src/appServer/session.ts:391-463 | The pending count always equals buffered plus queued plus running messages, never exceeds the capacity, and is zero once closed |
| `Session.TransportIsClosedExactlyOnce` | src/appServer/session.ts:465-511 | No transport is closed twice or while the session is healthy; an obtained one is closed once the session failed, closed, or is closing past its start, even when cancelling failed |
| `Session.FulfilledCloseReleasesEverything` | src/appServer/session.ts:349-389 | A close that fulfils leaves the start settled, the transport closed and nothing inbound |
| `Session.PhasesOnlyAdvance` | src/appServer/session.ts:465-523 | Failed, closing and closed never return to connecting, initialising or ready; from then on nothing is handed to the router and the failure stays |
| `Session.StartOutcomeIsTruthful` | src/appServer/session.ts:256-347 | A start that rejects belongs to a session that is over, and names its failure unless it was closed or got no real transport |
| `Session.PendingCloseCompletes` | src/appServer/session.ts:349-389 | From every reachable closing state, settling what the close waits for, one thing after the other, leads to closed within a bounded number of steps |
| `Session.NextKeepsInv` | src/appServer/session.ts:192-523 | Every step keeps the session's invariant |
| `Session.ReceiveKeepsPipeline` | src/appServer/session.ts:391-411 | A received message goes to the end of the pipeline, early or queued |
| `Session.FlushKeepsPipeline` | src/appServer/session.ts:425-431 | Flushing the early messages keeps their order and loses none |
| `Session.SessionEndsIff` | src/appServer/session.ts:256-479 | In every run a session ends in a step if and only if the step is one of the listed causes, with the listed code, its transport closed and everything not handed on dropped |
| `Session.MessageOverflowsIff` | src/appServer/session.ts:391-411 | In every run a message fails the session if and only if it is not over and exactly capacity messages are unfinished; otherwise it is the last one waiting and the session goes on |
| `Session.MessagesAreHandedOn` | src/appServer/session.ts:433-462 | Messages are handed on one at a time, the oldest first; once over the rest is dropped unread |
| `Session.UndisturbedStartAdvances` | src/appServer/session.ts:256-347 | Without a cause for its end a session takes the four steps of its start in order |
| `Session.UndisturbedSessionIsReadyIff` | src/appServer/session.ts:256-347 | A session that nothing ends is ready exactly once it was started, has begun, its connector delivered and its initialisation succeeded, whatever it receives meanwhile |
| `Session.OpeningQueuesEarlyMessages` | src/appServer/session.ts:425-431 | Early messages keep their order ahead of all later ones |
| `Session.LateTransportIsClosed` | src/appServer/session.ts:291-298 | A transport that comes too late is closed, and the start rejects with the reason the session ended for |
| `Session.ClosingWaitsFor` | src/appServer/session.ts:349-380 | A close waits for the cancelled connection, then for the start, and for the start no more if cancelling failed |
| `Session.OvertakenStartRejects` | src/appServer/session.ts:256-284 | A start that was overtaken rejects with the reason |
| `Session.OvertakenInitializationRejects` | src/appServer/session.ts:321-340 | So does an overtaken initialisation, whether it succeeds or fails |
| `Session.AppServerSession.ReceiveProtocolMessage` | src/appServer/session.ts:391-411 | In place, refines the reception that `MessageOverflowsIff` is about |
| `Session.AppServerSession.FlushEarlyInboundMessages` | src/appServer/session.ts:425-431 | The loop queues all early messages in order |
| `Session.AppServerSession.Fail` | src/appServer/session.ts:465-479 | Refines failing once |
| `Session.AppServerSession.CloseTransportOnce` | src/appServer/session.ts:489-506 | Requests the close of a known transport once |
| `Session.AppServerSession.ConnectorResolved` | src/appServer/session.ts:286-319 | Refines what follows the connector: no transport, too late, or initialisation |
| `Session.AppServerSession.ConnectorRejected` | src/appServer/session.ts:275-284 | Refines a rejected connector |
| `Session.AppServerSession.InitializationSettled` | src/appServer/session.ts:321-346 | Refines the end of initialisation |
| `Session.AppServerSession.CallClose` | src/appServer/session.ts:349-365 | Refines the first part of closing |
| `Session.AppServerSession.CancelSettled` | src/appServer/session.ts:363-380 | Refines the end of cancelling the connection attempt |
| `Session.AppServerSession.CloseContinued` | src/appServer/session.ts:372-388 | Refines the remaining parts of closing |
| `Session.AppServerSession.BeginInboundTask` | src/appServer/session.ts:433-455 | Refines the beginning of one link of the inbound chain |
| `Session.AppServerSession.EndInboundTask` | src/appServer/session.ts:452-461 | Refines its end |
| `ConnectedSessions.AtMostOneSessionIsUnreleased` | src/app/useConfiguredServerConnection.ts:303-392 | In every run of the controller with the sessions it creates, all sessions but at most one have their start settled, their transport closed and nothing inbound |
| `ConnectedSessions.CountdownIsTruthful` | src/app/useConfiguredServerConnection.ts:446-525 | With these sessions the countdown is truthful in every run; a timer is live only while the active session has failed, and the close of the active session is never called |
| `ConnectedSessions.FailedUntilClosed` | src/appServer/session.ts:465-479 | A session that failed stays failed until it is closed, which discharges what the controller takes for granted |
| `ConnectedSessions.NextKeepsInv` | src/app/useConfiguredServerConnection.ts:303-541 | Every step of controller and sessions keeps their joint invariant |
| `ConnectedSessions.FailedTransportIsRetriedIff` | src/app/useConfiguredServerConnection.ts:394-489 | In every run of controller and sessions a failed transport of the current session is followed by another attempt under exactly these conditions |
| `ConnectedSessions.InitializedSessionIsOffered` | src/app/useConfiguredServerConnection.ts:407-414 | A session whose initialisation succeeds is offered as ready |
| `Terminals.ReplayIsIdempotent` | src/app/useBackgroundTerminals.ts:286-326 | Replaying started and completed notifications on a list that already reflects them changes nothing, not even the order |
| `Terminals.FoldDecomposes` | src/app/useBackgroundTerminals.ts:373-422 | Notifications keep what they do not mention, in order, and append what they leave running |
| `Terminals.PartialSnapshotConverges` | src/app/useBackgroundTerminals.ts:72-78 | A listing that reflects any prefix of the buffered notifications, followed by all of them, is the list of an observer who saw everything |
| `Terminals.LoadedThreadsShowTheTruth` | src/app/useBackgroundTerminals.ts:51-166 | In every run with truthful listings, a loaded thread shows exactly what the server runs, in order, apart from processes ended on request |
| `Terminals.LateSnapshotChangesNothing` | src/app/useBackgroundTerminals.ts:64-87 | An answer for a thread closed or deleted since its request, or for a former connection, changes nothing that is shown, whatever it says |
| `Terminals.OvertakenRefreshIsDropped` | src/app/useBackgroundTerminals.ts:56-71 | Only the latest refresh of a thread is taken |
| `Terminals.ReduceFollowsFold` | src/app/useBackgroundTerminals.ts:286-326 | The reducer over all threads follows the plain fold on the thread concerned and leaves the others alone |
| `Terminals.RestartKeepsObservationTime` | src/app/useBackgroundTerminals.ts:373-395 | A process that starts again moves to the end and keeps the time it was first observed |
| `Terminals.NextKeepsInv` | src/app/useBackgroundTerminals.ts:51-224 | Every step keeps the hook's invariants |
| `Terminals.StartSays` | src/app/useBackgroundTerminals.ts:373-395 | A started command replaces what is listed of its process, comes last and clears the error |
| `Terminals.CompletionSays` | src/app/useBackgroundTerminals.ts:397-422 | A completed command, and only it, is listed no more |
| `Terminals.ClosingSays` | src/app/useBackgroundTerminals.ts:424-440 | A closed thread is forgotten |
| `Terminals.TerminationSays` | src/app/useBackgroundTerminals.ts:183-214 | Ending a process removes exactly it; a failure shows an error; a late outcome is not heard |
| `Terminals.LatestAnswerIsTaken` | src/app/useBackgroundTerminals.ts:63-79 | The answer to the latest refresh is taken, with what arrived since the request replayed on it, and the thread is loaded |
| `Terminals.QuietAnswerIsShown` | src/app/useBackgroundTerminals.ts:341-371 | If nothing arrived meanwhile it is listed as it is |
| `Terminals.LatestFailureIsShown` | src/app/useBackgroundTerminals.ts:80-96 | A failed refresh shows an error and leaves the list |
| `Terminals.RefreshStaysLatestIff` | src/app/useBackgroundTerminals.ts:51-96 | A refresh is outdated only by another connection, its thread being closed, or its being followed anew |
| `Terminals.FollowingSays` | src/app/useBackgroundTerminals.ts:141-166 | Following threads refreshes exactly the new ones and forgets all others |
| `Terminals.SwitchingSays` | src/app/useBackgroundTerminals.ts:100-112 | Another connection starts from nothing |
| `Terminals.BackgroundTerminals.OnNotification` | src/app/useBackgroundTerminals.ts:113-137 | Refines buffering, invalidating and reducing a notification |
| `Terminals.BackgroundTerminals.OnSnapshot` | src/app/useBackgroundTerminals.ts:63-79 | The replay loop refines taking an answer |
| `Terminals.BackgroundTerminals.OnSnapshotFailed` | src/app/useBackgroundTerminals.ts:80-96 | Refines a failed refresh |
| `Terminals.BackgroundTerminals.OnTargets` | src/app/useBackgroundTerminals.ts:141-166 | The loop refreshes newly followed threads and forgets the others |
| `Terminals.BackgroundTerminals.RefreshThread` | src/app/useBackgroundTerminals.ts:51-62 | Refines starting a refresh |
| `Terminals.BackgroundTerminals.SwitchClient` | src/app/useBackgroundTerminals.ts:100-108 | Refines a change of the connection |
| `Terminals.BackgroundTerminals.OnTerminated` | src/app/useBackgroundTerminals.ts:183-214 | Refines the outcomes of ending a process |
| `Batching.BatchingIsInvisible` | src/app/useConversation.ts:137-194 | For any arrivals, frames, resumption and independent updates: what is shown plus what waits is the state of an observer who applied everything at once; with no frame due it is what is shown |
| `Batching.ChangeThenFold` | src/app/useThreadSession.ts:166-224 | An update that commutes with each waiting notification commutes with all of them |
| `Conversation.FramesAreInvisible` | src/app/useConversation.ts:137-201 | In the conversation view every frame brings exactly the sequential state, with flags and errors set and threads switched in between |
| `Conversation.PiecesMakeTheWhole` | src/app/useConversation.ts:632-683 | A text delta split into any number of pieces gives the same state as the whole |
| `Conversation.SplitDelta` | src/app/useConversation.ts:632-683 | The two-piece case, for all five kinds of text deltas and any item they meet |
| `Conversation.ExtendedPart` | src/app/useConversation.ts:785-805 | Only the indexed reasoning part changes, by appending; missing parts are filled up empty |
| `Conversation.TurnsKeepTheirPlaces` | src/app/useConversation.ts:689-783 | No notification but a reversion removes, reorders or duplicates a turn; at most one is appended |
| `Conversation.SummaryKeepsItems` | src/app/useConversation.ts:704-734 | Merging a summary keeps every item in its place, brings newer versions, adds the rest, and never degrades a full view |
| `Conversation.MergeIsIdempotent` | src/app/useConversation.ts:704-734 | Receiving the same turn twice is the same as once |
| `Conversation.NoteShowsInItsItem` | src/app/useConversation.ts:613-683 | Each kind of notification changes the item it names as that kind demands: text at the end, output only of commands, patches only of file changes, a reasoning delta only in the named one of summary and content |
| `Conversation.NoteTouchesOnlyItsItem` | src/app/useConversation.ts:744-783 | No other item of the turn changes or moves, and nothing of the turn but its items |
| `Conversation.NoteTouchesOnlyItsTurn` | src/app/useConversation.ts:744-783 | No other turn and none of the flags change |
| `Conversation.NoteFindsTheActiveTurn` | src/app/useConversation.ts:744-809 | Afterwards the active turn is the last one in progress |
| `Conversation.TurnReportsChangeTheTurn` | src/app/useConversation.ts:613-703 | A started or completed turn is merged in its place or appended; started it is active, completed it is not and nothing is being stopped |
| `Conversation.MergeTakesTheNewer` | src/app/useConversation.ts:704-734 | A full report replaces the turn, one that was not loaded keeps its items, a summary replaces exactly the items it brings and adds the unknown ones |
| `Conversation.NewItemsInOrder` | src/app/useConversation.ts:722-726 | These come in the order of the report |
| `Conversation.DeltasWait` | src/app/useConversation.ts:182-193 | Exactly the five kinds of text deltas wait for the frame; anything else is applied at once after what was waiting |
| `Conversation.ConversationFeed.OnNotification` | src/app/useConversation.ts:182-193 | Refines queueing a delta or applying everything queued |
| `Conversation.ConversationFeed.Flush` | src/app/useConversation.ts:147-152 | Refines the frame callback |
| `Conversation.ConversationFeed.SwitchThread` | src/app/useConversation.ts:195-201 | Refines the end of a subscription: what is queued is thrown away |
| `ThreadHistory.OlderPageCommutes` | src/app/useThreadSession.ts:370-401 | An older page and any notification but a deletion or reversion may come in either order, if its turn is not on the page or already loaded |
| `ThreadHistory.OlderTurnsCommuteIff` | src/app/useThreadSession.ts:370-401 | For a notification that opens a turn of a loaded history, the orders agree exactly if its turn is not on the page |
| `ThreadHistory.OlderTurnsCommuteExactly` | src/app/useThreadSession.ts:370-401 | For any notification but a reversion on a loaded history, the orders agree exactly if its turn is not on the page, or is loaded, or the notification has nothing to change there |
| `ThreadHistory.ItemPageCommutes` | src/app/useThreadSession.ts:474-505 | A page of a turn's items and a notification about another turn may come in either order |
| `ThreadHistory.OlderPageCommutesWithRun` | src/app/useThreadSession.ts:370-401 | The same for any number of notifications |
| `ThreadHistory.OlderPageKeepsHistory` | src/app/useThreadSession.ts:374-401 | An older page keeps turn ids distinct, leaves the loaded turns as the suffix, and all its turns are shown |
| `ThreadHistory.WaitingIsInvisible` | src/app/useThreadSession.ts:166-303 | Resumption, frames, older pages, item pages, reversions and changes of the thread in any interleaving: once resumed and with no frame due, the session shows what applying every notification on arrival amounts to |
| `ThreadHistory.MergeUniqueItems` | src/app/useThreadSession.ts:705-721 | The loop with its index map computes the merge |
| `ThreadHistory.MergeUniqueKeepsPlaces` | src/app/useThreadSession.ts:705-721 | Merging keeps loaded items in their places and ids distinct |
| `ThreadHistory.MergeUniqueIsNewest` | src/app/useThreadSession.ts:705-721 | Every id carries its newest version, all that came in is there, and nothing is invented |
| `ThreadHistory.MergeUniqueIsIdempotent` | src/app/useThreadSession.ts:705-721 | Loading the same page again changes nothing |
| `ThreadHistory.ItemPageIsIdempotent` | src/app/useThreadSession.ts:723-741 | Applying loaded items twice is the same as once; an incomplete page keeps every live item |
| `ThreadHistory.LoadedPagesShow` | src/app/useThreadSession.ts:474-505 | After loading an item page every turn is in step with its page |
| `ThreadHistory.ResumptionShowsPages` | src/app/useThreadSession.ts:743-759 | After resuming, every turn is in step with the item pages loaded earlier |
| `ThreadHistory.OlderPageShowsPages` | src/app/useThreadSession.ts:377-385 | Older turns come with their item pages applied |
| `ThreadHistory.NotificationsChangeOnePart` | src/app/useThreadSession.ts:541-632 | A deletion leaves nothing; metadata and turns change one at a time, the turns as in the conversation view |
| `ThreadHistory.LoadedItemsComeFirst` | src/app/useThreadSession.ts:723-741 | A turn shows its loaded items first, followed by exactly the live ones that are not among them while there are more |
| `ThreadHistory.OlderPageComesFirst` | src/app/useThreadSession.ts:374-401 | An older page puts exactly the turns that are not loaded before the others, in the order of time, and the next cursor is the page's |
| `ThreadHistory.ItemPageJoinsItsTurn` | src/app/useThreadSession.ts:474-505 | A page of items joins what is loaded and shows in its turn alone; there is more exactly if it names a next cursor |
| `ThreadHistory.UselessItemPageIsRefused` | src/app/useThreadSession.ts:464-473 | A page of another turn or one that does not get further is refused and changes nothing that is loaded |
| `ThreadHistory.ResumptionSays` | src/app/useThreadSession.ts:251-301 | Resumption brings the answer's turns with the items loaded before; a failure keeps the history offline |
| `ThreadHistory.ReversionForgets` | src/app/useThreadSession.ts:195-207 | A reversion forgets the history and everything that waits, and resumes anew |
| `ThreadHistory.ArrivalsWait` | src/app/useThreadSession.ts:208-223 | Only text deltas wait for the frame; while resuming everything waits for the resumption |
| `ThreadHistory.ThreadSession.OnNotification` | src/app/useThreadSession.ts:208-223 | Refines buffering, queueing or applying a notification |
| `ThreadHistory.ThreadSession.OnResumed` | src/app/useThreadSession.ts:251-278 | Refines the end of resumption; an answer to a former source is dropped |
| `ThreadHistory.ThreadSession.OnResumeFailed` | src/app/useThreadSession.ts:279-301 | Refines a failed resumption |
| `ThreadHistory.ThreadSession.OnOlderPage` | src/app/useThreadSession.ts:361-401 | Refines merging an older page; an answer to a former source is dropped |
| `ThreadHistory.ThreadSession.OnItemPage` | src/app/useThreadSession.ts:461-516 | Refines merging or refusing an item page; an answer to a former source is dropped |
| `ThreadHistory.ThreadSession.OnReverted` | src/app/useThreadSession.ts:195-207 | A reversion forgets the history and outdates all requests |
| `ThreadHistory.ThreadSession.Flush` | src/app/useThreadSession.ts:182-187 | Refines the frame callback |
| `Resumption.ReportsReplayIdempotently` | src/app/useConversation.ts:613-734 | Replaying any reports of turns and items that are already reflected changes nothing |
| `Resumption.ResumedSnapshotConverges` | src/app/useThreadSession.ts:271-277 | An answer to the resumption that already contains the first of the buffered notifications, as long as these are reports, converges to the observer's turns |
| `Resumption.DeltaIsDuplicatedIff` | src/app/useThreadSession.ts:271-277 | A text delta that the answer already contains is there twice, exactly unless it is empty or meets no command to append to |
| `Resumption.TurnReplayIsIdempotent` | src/app/useConversation.ts:689-783 | The same for one turn, through replacing, summarising, not loaded and item reports in any order |
| `Geometry.NormalizedIsReachable` | src-tauri/src/windows.rs:417-459 | The window ends up no larger than its area, and inside it or visible by at least 64 pixels in both directions |
| `Geometry.ClampVisibleIsExact` | src-tauri/src/windows.rs:470-479 | For lengths of at least 64 the clamp's bounds are in order, the 32-bit fallback is never taken, and the result is visible by 64 |
| `Geometry.CenteredStaysInside` | src-tauri/src/windows.rs:465-468 | The centred window lies inside the area; it is centred exactly if the centre is representable or there is no room |
| `Geometry.VisibleLengths` | src-tauri/src/windows.rs:426-446 | A visible window fitted to its area keeps both lengths between 64 and the area's |
| `Geometry.ReachableIsKept` | src-tauri/src/windows.rs:417-459 | A visible window is left alone exactly if its size is admissible |
| `Geometry.NormalizeIsIdempotent` | src-tauri/src/windows.rs:417-459 | Normalising twice is the same as once, for windows of at least the minimum size and disjoint areas |
| `Geometry.SecondPassChangesIff` | src-tauri/src/windows.rs:417-459 | For any size: on disjoint areas a second pass changes the window exactly if it was visible and an earlier area is now the first to show it without admitting its size |
| `Geometry.SmallWindowsMayMoveTwice` | src-tauri/src/windows.rs:417-459 | The size condition is needed: a concrete window changes twice |
| `Geometry.OverlappingMonitorsMayMoveTwice` | src-tauri/src/windows.rs:417-459 | The disjointness condition is needed: a concrete window changes twice |
| `Geometry.VisibleMeansShared` | src-tauri/src/windows.rs:461-463 | So many pixels show as the longest stretch of window and area |
| `Geometry.VisibleWindowMovesLeast` | src-tauri/src/windows.rs:417-459 | A visible window gets the nearest admissible size and the nearest place that shows 64 pixels on the first monitor that shows it |
| `Geometry.HiddenWindowIsCentered` | src-tauri/src/windows.rs:417-468 | Any other is put in the middle of the primary or first monitor, to a pixel, or to its edge where the middle is not representable |
| `ProfileSave.ServerEditIsTruthful` | src/app/useServerProfileMutations.ts:308-430 | With any failures and any other writers: failed means nothing was done; any other outcome names the profile that exactly the effective commands lead to from the edited one, with no writer in between, and says what was and was not applied |
| `ProfileSave.ServerCreateIsTruthful` | src/app/useServerProfileMutations.ts:260-306 | The same for creating |
| `ProfileSave.ProxyEditIsTruthful` | src/app/useProxyProfileMutations.ts:195-264 | The same for editing a proxy, with the host key step |
| `ProfileSave.ProxyCreateIsTruthfulIff` | src/app/useProxyProfileMutations.ts:173-193 | The same for creating a proxy, except exactly when a clear intent meets a successful creation: it reports failure after creating |
| `ProfileSave.StaleEditChangesNothing` | src/app/useServerProfileMutations.ts:308-430 | If another writer was faster, an edit fails and changes nothing |
| `ProfileSave.QuietServerEditIsSavedIff` | src/app/useServerProfileMutations.ts:308-430 | Left alone, a server edit is saved exactly if the credential it leaves behind suits the configuration |
| `ProfileSave.QuietProxyEditIsSavedIff` | src/app/useProxyProfileMutations.ts:195-264 | Left alone, a proxy edit is saved exactly if in addition a new credential of the stored kind comes with an unchanged binding, and the host key is acceptable |
| `ProfileSave.ProxyEditsDoNotRebind` | src/app/useProxyProfileMutations.ts:240-253 | A concrete move of a proxy to another host with a new password fails where the same server edit succeeds |
| `ProfileSave.CommandActsOnTheKnownProfile` | src-tauri/src/configuration/repository.rs:670-700 | A command sent with the known version acts on exactly the known profile or not at all |
| `ProfileSave.ExecuteServerCreate` | src/app/useServerProfileMutations.ts:260-306 | The program refines its specification |
| `ProfileSave.ExecuteServerEdit` | src/app/useServerProfileMutations.ts:308-430 | The program refines its specification |
| `ProfileSave.ExecuteProxyCreate` | src/app/useProxyProfileMutations.ts:173-193 | The program refines its specification |
| `ProfileSave.ExecuteProxyEdit` | src/app/useProxyProfileMutations.ts:195-264 | The program refines its specification |
| `ProfileSave.FinalizeProxy` | src/app/useProxyProfileMutations.ts:146-172 | The host key step refines its specification |
| `ProfileSave.CredentialKeepsItsBinding` | src-tauri/src/configuration/repository.rs:2285-2340 | Over any commands that leave it alone a credential keeps its way of authenticating, its address and account, and is exposed to no further name |
| `ProfileSave.HostKeyKeepsItsHost` | src-tauri/src/configuration/repository.rs:2974-3000 | A confirmed host key stays with its host, whatever is done to the profile |

## Left out

- Clocks, random values, request results and the network are parameters of the steps.
- SQL, transactions and migrations: a locked transaction is one step on maps; a database failure is no step.
- The trace hub: redaction and truncation of payloads, the 40 ms delay, wrap-around of 64-bit sequence numbers and generations.
- Window geometry in the repository (`load_geometry`, `save_geometry`), the geometry tracker, and creating and focusing windows.
- The clearing of all local data, which also deletes window states.
- WindowController.EveryResolutionIsTruthful: a request whose call fails on the controller's side before it was processed is dropped; a backend that commits it afterwards is no step.
- Deactivating and reactivating the controlled window while its controller runs; published snapshots, listeners and retain counts.
- Of the event store: token usage, searches, imports, transcripts, records with their titles, the mark of a project list that was cut off, `clear()`, and the reordering of integer-like object keys.
- EventSync.PendingQueueIsBeingRead: leaves out `ServerEventStore.connect()`, which has no caller; each session has its own store and disconnects it for good.
- EventSync.ServerEventStore.ConsumeQueueChanged: does not model the record that is shown beside the queue.
- GoalSync.FreshGoalIsTheServers: one thread's goal on values instead of the maps of the store; the store's update in place is modelled for queues and projects only.
- EventBuffers.AudioIsLongestSuffix: covers data whose size is not negative; the two strings of padding alone are no base64.
- EventBuffers.StreamIsSuffixOfHistory: takes decoded text per chunk; the decoder's state and the eviction of a process from the cache are not modelled.
- The session: JSON parsing, the RPC router and schema validation, progress reports, and handlers that call back except at "initializing"; two overlapping first calls of `close()`.
- Connection.CountdownIsTruthful: requires that a session that is over reports nothing but its failure; `ConnectedSessions.CountdownIsTruthful` does without, for the sessions modelled here.
- ConnectedSessions.AtMostOneSessionIsUnreleased: state handlers stay passive, so a session's close is called by the close barrier only.
- Connection.DelayIsWithinTenPercent: computes over real numbers instead of doubles.
- The connection: view texts, connection stages, retain counts and the disposal they trigger.
- Terminals.LoadedThreadsShowTheTruth: a listing is taken at one moment; pages of one listing read at different moments are not modelled.
- Terminals: the keys of commands being ended and the texts of errors.
- The conversation view: sending, queueing, stopping, shell executions, and merging a restored thread into the shown one.
- ThreadHistory.WaitingIsInvisible: leaves out pages that overlap with notifications waiting for a frame or the resumption.
- Resumption.ResumedSnapshotConverges: about turns; metadata is simply overwritten, and notifications that change parts of an item (deltas, patches, added reasoning parts) are not reports.
- ThreadHistory.ThreadSession.OnReverted: begins to buffer at once; the program drops what arrives before its new subscription, which the resumption brings.
- Thread history: single-flight bookkeeping of page requests, subscription leases, and retained threads while offline.
- ThreadHistory.MergeUniqueIsNewest: requires distinct ids of what is loaded, which every earlier merge leaves.
- Geometry: maximised and full-screen windows.
- Profiles: names, validation of configurations, plaintext confirmation, deletion, test results and the removal of host keys; origins and hosts are compared as normalised by either side.
- ProfileSave.ServerEditIsTruthful: a command that takes effect but whose answer is lost is not modelled.
