# minis: a verified model of the workstation control plane

minis gives members macOS virtual machines on a cluster of Mac minis. A Go server keeps a table of workstations;
a Swift worker on every host makes its Tart VMs match that table. This project models the parts whose correctness
depends on many steps working together, and proves what they promise over every run:

- **Lifecycle protocol** (`Table`, `Runtime`, `Manager`, `Protocol`, `ProtocolInvariant`, `ProtocolSafety`,
  `ProtocolProgress`, `ProtocolWishes`, `ProtocolBudget`, `ProtocolOrphan`). Server transactions, the worker's management loop one tart
  command at a time, a network that loses, repeats and delays status reports, heartbeats that fail at any point, failing commands and crashes.
- **Slot allocator** (`Allocator`, `AllocatorRuns`, `Claims`). The least-loaded pick of a claim, and sequences of claims.
- **Terminal replay** (`TerminalHistory`, `TerminalReplay`, `TerminalSafety`, `TerminalPromises`,
  `TerminalDelivery`, `TerminalOrder`, `TerminalQueue`, `TerminalTimer`, `TerminalRuns`). The 256-frame ring, and attaches
  racing publishers one critical section at a time.
- **Proxy sessions** (`Proxy`, `ProxySections`), **relays** (`Relays`), **host names** (`Hostnames`, `Decimal`) and the
  **worker's configuration file** (`Yaml`, `YamlFiles`, `Config`).

`Types` and `Sets` hold shared values and counting lemmas. `dafny verify dfyconfig.toml` checks the whole project.

## How to read it

Code that changes things in place is a class or a method with a loop, proved against a function of the old state
(`WorkstationTable`, `WorkstationRuntime`, `WorkstationManager`, `TerminalSession`, `SessionManager`, `WorkersTable`,
`RelayTable`). Concurrency is a transition system over those same functions: `Guard` says when a step can happen,
`Next` what it does, and a theorem about runs quantifies over every sequence of steps.

In `Protocol` a claim holds the advisory lock over four steps (lock, read workers, read slots, insert), and every other
transaction may happen between them. `Redeliver` applies any report ever sent, again, at any time: that covers delays,
repetitions and handlers that outlive their request. `HeartbeatFails` is a lost request, a lost response or a response
whose status is not "ok". `RunCommand` is one tart command with any answer; a failing clone or delete may have taken effect.

## Assumptions

- Workstation ids and VM names are never reused (ids are random UUIDs; `ClaimInsert` needs both to be new).
- One worker process runs per worker id, and a host starts without workstation VMs of its own.
- A tart command ends with the worker process that issued it: none takes effect after a crash.
- `tart get` does not report a VM absent that is on disk and being deleted. `exists` maps every failure of `tart get` to
  "absent". `Runtime.DeletedMeansAbsentIffFaithful` shows that "deleted" means absent exactly under this assumption, and
  `ProtocolSafety.FalseAbsenceOrphansVM` how one false answer leaves a VM without a row; `ProtocolOrphan.OrphanHappens`
  is a run from the initial state that ends that way.
- The YAML library reads the part of YAML 1.1 that `Yaml` models as that version of the language defines it; the library itself
  is not part of this model.
- Rows leave the table only through a "deleted" report: nobody deletes a worker or a member, whose rows would go with it.
- `GenerateWorkerID` does not collide on the UUIDs in use: `Hostnames.IdsDiffer`, assumed only by `AssignmentsAreInjective`.

## What the proofs found

- A frame published after an attach's last snapshot and before the attachment is installed is kept in the history but
  never sent to that attachment (`TerminalDelivery.HandoverSkips`; `HandoverGapHappens` is such a run). Everything after
  the installation is sent or on its way unless a send fails (`LiveIsDelivered`), so the handover has no gap exactly when
  nothing was published in between (`GapFreeIff`).
- A reconcile that ends "stopped" or "deleted" has stopped its VM exactly when `tart get` did not deny a running VM
  (`ProtocolBudget.StoppedIsDownIff`).
- The idle timer runs exactly when the session is open and was detached after the last time an attach stopped the timer
  (`TerminalTimer.TimerRunsIff`). So a session can be attached with its timer running (`AttachedWhileTimed`: the old
  attachment goes away while the new attach is under way), and be open, unattached and without a timer
  (`AbandonedWithoutTimer`: an attach that replaced another one fails).
- Replay pushes up to 256 frames into a queue of 128 without waiting, and the ready message takes one place. As long as
  nothing is taken from the queue, an attach succeeds exactly when it has at most 127 frames to replay
  (`TerminalQueue.IdleAttachSucceedsIff`); every session with 128 frames has a run whose attach fails (`UnreadAttachFails`).
- Loading a saved configuration gives it back exactly when its worker token is empty or starts with `wkt_` and single
  quotes keep every text (`Config.SaveLoadsBackIff`). A text is kept when it is printable, every line break in it belongs to
  a stretch of line and paragraph separators and line feeds that starts with a separator and has no blanks around it, and
  no line of it is a document marker. A loaded value can have a line feed, and saving turns it into a space
  (`LineBreakIsLost`), so "saving what was loaded changes nothing" holds exactly for texts that are kept (`SaveIsStableIff`).
- A session that was closed is marked active again by a connection that found it before it left the table
  (`ProxySections.RevivalHappens`); it stays closed exactly as long as none does (`EndedStaysClosedIff`).
- The reaper closes a session that has become active when a connection completes its pair after the reaper collected the
  session's id and before it takes it out (`ReaperClosesActive`), and only then (`ReapedWasActiveIff`).
- Assigning a host name fails exactly when a number in use has reached the 32-bit maximum (`NewNameIsFresh`), and asking
  again gives the same name exactly when the first time did not hit another worker's id (`AskingAgain`).
- docs/api.md says a claim with a worker id moves the workstation to that worker. The code always inserts a new row; the
  model follows the code.

## Model

| member | source | states |
|---|---|---|
| `Allocator.FirstAvailableSlot` | server/internal/db/workstations.go:311-319 | the least slot of the pool that is not taken, or that the pool is full |
| `Allocator.SelectPreferred` | server/internal/db/workstations.go:273-290 | with a preference: the first listed worker of that id and its least free slot, target full, or target unavailable |
| `Allocator.SelectCandidate` | server/internal/db/workstations.go:272-309 | without a preference: a worker with a free slot that no other precedes in (load, id), with its least free slot; failure exactly when all are full |
| `Allocator.SelectionOrderIrrelevant` | server/internal/db/workstations.go:292-309 | the outcome depends only on which workers are listed, not on their order (with a preference: for distinct ids) |
| `Allocator.ChoiceIsLeast` | server/internal/db/workstations.go:292-319 | the choice spelled out: the least free slot of a listed worker, and every listed worker with room has more rows, or as many and a lexicographically later id |
| `AllocatorRuns.ListAllocatedSlots` | server/internal/db/workstations.go:531-551 | the nested map holds exactly the slots of the rows, worker by worker |
| `AllocatorRuns.FullIffLoadIsPool` | server/internal/db/workstations.go:311-319 | pigeonhole: inside its pool a worker is full exactly when it has as many rows as slots |
| `AllocatorRuns.ClaimFailsIffAllFull` | server/internal/db/workstations.go:292-309 | a claim without preference fails exactly when every schedulable worker is at its pool size |
| `AllocatorRuns.ClaimsConserveCapacity` | server/internal/db/workstations.go:226-264 | over any run of claims, claims made plus free slots left equals the total capacity |
| `AllocatorRuns.ExactlyCapacityClaimsSucceed` | server/internal/db/workstations.go:272-319 | from an empty table exactly the sum of the pool sizes claims succeed before the first failure |
| `AllocatorRuns.RunsStayBalanced` | server/internal/db/workstations.go:292-309 | in every run of claims no worker is more than one ahead of a worker that still has room |
| `Claims.ScanPlacements` | server/internal/db/workstations.go:531-537 | the scan returns exactly the (worker, slot) pairs of the table |
| `Claims.ClaimWorkstation` | server/internal/db/workstations.go:226-264 | no workers, refused with the right reason, an id or VM name in use, each with an unchanged table; or one new row: the member's, at the selected worker and slot, starting and to be run; that placement was free and inside the pool, so placements stay unique |
| `Claims.ClaimIsDetermined` | server/internal/db/workstations.go:226-264 | a claim's answer is determined by the table and the set of schedulable workers |
| `Table.WorkstationTable.EnsureRunningByID` | server/internal/db/workstations.go:129-169 | a released row is returned untouched; any other of the member's is to run, stopped and failed ones start, and its placement stays; all other rows are as before |
| `Table.WorkstationTable.ClaimExisting` | server/internal/db/workstations.go:336-367 | refuses a row being deleted, otherwise desired running, with stopped and failed rows starting |
| `Table.WorkstationTable.UpdateDesiredByID` | server/internal/db/workstations.go:377-432 | done exactly for the member's row that is not going away and a known wish: the wish is stored, the power is the one for each old power and wish, and placement stays; refusals leave the table unchanged |
| `Table.WorkstationTable.UpdateStatus` | server/internal/db/workstations.go:434-492 | the reported power is stored in the worker's row and nothing else changes; a released row goes on "deleted" and otherwise stays; unknown rows and other workers' rows are left alone |
| `Table.WorkstationTable.HandleHeartbeat` | server/internal/api/rest/workers.go:119-160 | all reports the database stores are applied in order, the others skipped, then the desired list is computed from the result |
| `Table.HeartbeatIsPointwise` | server/internal/api/rest/workers.go:119-128 | with one report per workstation each row is treated by its own report alone |
| `Table.HeartbeatTreatsEach` | server/internal/api/rest/workers.go:119-128 | after the handler a row is as its own report leaves it if that was stored, and otherwise as it was |
| `Table.RowTransactionsAreOneWay` | server/internal/db/workstations.go:129-169 | every transaction keeps placement and release consistency, never un-releases, and removes only released rows |
| `Table.RowByFields` | server/internal/db/workstations.go:377-492 | what each wish and each report makes of a row, field by field, and what is refused |
| `Table.VMNameOfUuid` | server/internal/db/workstations.go:553-559 | the VM of a workstation is named by the first two groups of its UUID |
| `Table.RequestsShowInPower` | server/internal/db/workstations.go:399-413 | after a wish to run the row is not stopped or failed, after a wish to stop it is not starting or running; both ways of asking to run agree |
| `Table.RepeatedReportChangesNothing` | server/internal/db/workstations.go:434-492 | a report delivered twice in a row has the effect of one |
| `Runtime.WorkstationRuntime.constructor` | worker/Sources/WorkerCore/WorkstationManager.swift:34-42 | a new runtime is stopped, without address or process, with the listed desired state |
| `Runtime.WorkstationRuntime.Reconcile` | worker/Sources/WorkerCore/WorkstationManager.swift:52-63 | ends where the command steps end and touches no other VM |
| `Runtime.WorkstationRuntime.EnsureRunning` | worker/Sources/WorkerCore/WorkstationManager.swift:76-83 | an absent VM is cloned and configured, and a failure of either ends in error; then the address is found; the VM is on disk as clone left it |
| `Runtime.WorkstationRuntime.AwaitAddress` | worker/Sources/WorkerCore/WorkstationManager.swift:85-103 | running with the address found; a launched VM without one left alone; else configured, launched and waited for, with the first failure ending in error |
| `Runtime.WorkstationRuntime.EnsureStopped` | worker/Sources/WorkerCore/WorkstationManager.swift:105-118 | a VM that is present is stopped, and a stop that fails ends in error; otherwise stopped without process or address |
| `Runtime.WorkstationRuntime.EnsureDeleted` | worker/Sources/WorkerCore/WorkstationManager.swift:120-134 | a VM that is present is stopped and, if still present, deleted; a failure ends in error, otherwise deleted without process or address; the VM goes exactly when a delete took effect |
| `Runtime.CommandIsSafe` | worker/Sources/WorkerCore/WorkstationManager.swift:76-134 | a VM appears only under desired running, disappears only under desired deleted; "deleted" is said only when the VM is absent |
| `Runtime.DeletedMeansAbsentIffFaithful` | worker/Sources/WorkerCore/TartDriver.swift:142-149 | saying "deleted" implies absence exactly when `tart get` did not deny a VM that is on disk |
| `Runtime.DriveIsSafe` | worker/Sources/WorkerCore/WorkstationManager.swift:76-134 | the same over a whole reconcile |
| `Runtime.ReconcileReachesDesired` | worker/Sources/WorkerCore/WorkstationManager.swift:52-134 | when commands succeed, one reconcile reaches the desired state (or launched and still waiting for an address) |
| `Manager.WorkstationManager.ApplyDesiredWorkstations` | worker/Sources/WorkerCore/WorkstationManager.swift:168-195 | a non-authoritative list changes nothing; after an authoritative one every listed runtime has its listed desired state, missing ones exist and are stopped, all others are to be deleted, and nothing else about a runtime changed |
| `Manager.LoopsApplyDesired` | worker/Sources/WorkerCore/WorkstationManager.swift:177-194 | the two loops together are one pointwise update |
| `Manager.ApplyDesiredByFields` | worker/Sources/WorkerCore/WorkstationManager.swift:177-194 | that update, entry by entry of the list |
| `Manager.WorkstationManager.Reconcile` | worker/Sources/WorkerCore/WorkstationManager.swift:197-211 | every runtime is reconciled against its own VM, and exactly the deleted undesired ones are dropped |
| `ProtocolInvariant.StepKeepsInv` | worker/Sources/WorkerCore/Worker.swift:148-212 | every step of server, worker and network keeps the invariant that ties rows, told runtimes, reports in flight and disks together |
| `ProtocolInvariant.DeliverKeepsInv` | server/internal/db/workstations.go:434-492 | delivering any report ever sent, at any time and any number of times, is safe |
| `ProtocolInvariant.ApplyKeepsInv` | worker/Sources/WorkerCore/WorkstationManager.swift:168-195 | whoever an authoritative response tells to delete is released or gone, and whoever was told before is told again |
| `ProtocolInvariant.RunsKeepInv` | worker/Sources/WorkerCore/Worker.swift:148-212 | the invariant holds in every state of every run |
| `ProtocolSafety.HostCapacity` | server/internal/db/workstations.go:454-466 | in every run each workstation VM on a host has a row on that worker, so there are never more of them than its pool size |
| `ProtocolSafety.PlacementsStaySound` | server/internal/db/migrations/00001_initial.sql:89-102 | (worker, slot) is unique and inside the pool in every reachable table |
| `ProtocolSafety.ReachablePigeonhole` | server/internal/db/workstations.go:311-319 | in every reachable table a worker is full exactly when its row count reaches its pool size |
| `ProtocolSafety.ClaimsNeverCollide` | server/internal/db/workstations.go:226-264 | the insert of a claim never meets a taken slot, whatever ran since its reads |
| `ProtocolSafety.ClaimReadsTheTable` | server/internal/db/workstations.go:531-551 | the slot map a claim reads in the protocol is the one the allocator's lemmas are about |
| `ProtocolSafety.OnlyCondemnedVMsAreDeleted` | worker/Sources/WorkerCore/WorkstationManager.swift:168-195 | a VM disappears only in a command of its own worker, and only when the server has released or removed its row |
| `ProtocolSafety.FalseAbsenceOrphansVM` | worker/Sources/WorkerCore/TartDriver.swift:142-149 | a false "absent" in either existence test of a deletion, in the last runtime of a round that is still listed, followed by one delivered heartbeat leaves the VM without a row |
| `ProtocolOrphan.OrphanHappens` | worker/Sources/WorkerCore/TartDriver.swift:142-149 | such a state is reachable: a complete run from registration to the orphaned VM |
| `ProtocolSafety.ReleaseStatesAgree` | server/internal/db/workstations.go:377-432 | in every reachable table desired deleted and power deleting go together, and deleted is never stored |
| `ProtocolSafety.RowsAgeOneWay` | server/internal/db/workstations.go:377-492 | member, worker, slot and VM name never change; released stays released, gone stays gone |
| `ProtocolSafety.ToldDeletedForEver` | worker/Sources/WorkerCore/WorkstationManager.swift:168-195 | once any incarnation of a runtime was told to delete, no later one is told anything else, after any crash |
| `ProtocolBudget.FullPoolFitsIff` | worker/Sources/WorkerCore/TartDriver.swift:291-293 | a full pool leaves one core free exactly when it has fewer VMs than the host has cores |
| `ProtocolBudget.ShareShrinks` | worker/Sources/WorkerCore/TartDriver.swift:291-293 | a worker configured for more VMs gives each a share no larger |
| `ProtocolBudget.ShareIsLargest` | worker/Sources/WorkerCore/TartDriver.swift:291-293 | the share is the largest with which so many VMs leave one core free |
| `ProtocolBudget.ShareIsAtLeastOne` | worker/Sources/WorkerCore/TartDriver.swift:291-293 | with more VMs than spare cores each gets one core |
| `ProtocolBudget.HostCPUBudget` | worker/Sources/WorkerCore/WorkstationManager.swift:76-103 | in every reachable state every launched VM on a host was configured successfully before its launch, and the shares they were launched with leave one core free, however the configured number of VMs changed, as long as it was never below the registered pool and the pool has fewer VMs than the host has cores |
| `ProtocolBudget.StoppedIsDownIff` | worker/Sources/WorkerCore/WorkstationManager.swift:105-134 | a reconcile that ends "stopped" or "deleted" leaves its VM not running exactly when `tart get` did not deny a running one |
| `ProtocolBudget.StoppedStaysDown` | worker/Sources/WorkerCore/WorkstationManager.swift:105-134 | such a VM stays down until it is launched again |
| `ProtocolProgress.ReleaseCompletes` | worker/Sources/WorkerCore/Worker.swift:148-212 | while the worker stays up and the workstation's commands and updates succeed, each completed heartbeat begun after a release lowers what is left; after two the row is gone and, once reconciled, the runtime too |
| `ProtocolProgress.RemovedSlotIsFree` | server/internal/db/workstations.go:461-466 | the slot of a removed row is free right after its removal |
| `ProtocolProgress.ReleaseFreesSlot` | server/internal/db/workstations.go:273-290 | between a release and its second completed heartbeat lies the step that removes the row, and right after it a claim preferring that worker gets it, with a slot no larger than the freed one |
| `ProtocolWishes.WishIsRecorded` | server/internal/db/workstations.go:399-417 | the owner's wish on a row that is not released stores the wish, with the power for it, and changes no other row |
| `ProtocolWishes.WishStands` | server/internal/db/workstations.go:399-417 | until a member asks something of the row again, its desired state is that wish, whatever is reported, claimed, crashed or lost |
| `ProtocolWishes.ResponseTellsTable` | worker/Sources/WorkerCore/WorkstationManager.swift:168-195 | applying a response tells every runtime of the worker what the table said when it was computed: its row's desired state, "deleted" without a row; new rows get a stopped runtime; state, address and process stay |
| `ProtocolWishes.ReportShows` | server/internal/db/workstations.go:468-489 | a stored report shows in its row the power its runtime had in the worker's snapshot, and changes nothing else |
| `ProtocolWishes.OutageTellsNothing` | worker/Sources/WorkerCore/ControlAPIClient.swift:84-123 | a heartbeat that fails or is skipped leaves runtimes, desired ids, disk and table as they were |
| `ProtocolWishes.CrashForgets` | worker/Sources/WorkerCore/WorkstationManager.swift:159-166 | a crash loses what the process knew and nothing on disk; a new process starts without runtimes |
| `ProtocolWishes.ClaimInsertsRow` | server/internal/db/workstations.go:321-334 | the row inserted in the protocol is the one of the claiming transaction |
| `ProtocolWishes.ClaimDoesWhatWasAsked` | server/internal/db/workstations.go:226-264 | whatever happens between its statements, a claim inserts for the member and preference it was locked with, at a placement selected among the workers it read and the slots taken when it read them |
| `TerminalHistory.TerminalSession.Append` | server/internal/api/rest/terminal_sessions.go:293-302 | the ring keeps representing exactly the last 256 frames |
| `TerminalHistory.AppendKeepsRing` | server/internal/api/rest/terminal_sessions.go:293-302 | writing at the pointer and moving it on keeps the frames in order with consecutive numbers |
| `TerminalHistory.TerminalSession.Publish` | server/internal/api/rest/terminal_sessions.go:264-281 | an open session numbers and keeps the frame and names the attachment to send it to; a closed one drops it |
| `TerminalHistory.TerminalSession.SnapshotFramesAfter` | server/internal/api/rest/terminal_sessions.go:304-322 | the retained frames newer than the argument, in order, and the latest number |
| `TerminalHistory.TerminalSession.ClearAttachment` | server/internal/api/rest/terminal_sessions.go:336-342 | only the current attachment is cleared, and that arms the timer of an open session |
| `TerminalHistory.TerminalSession.Close` | server/internal/api/rest/terminal_sessions.go:384-396 | closed, detached and without timer; the attachment to notify |
| `TerminalSafety.StepKeepsInv` | server/internal/api/rest/terminal_sessions.go:140-181 | every critical section keeps what is known of every attachment's stream |
| `TerminalSafety.RunsKeepInv` | server/internal/api/rest/terminal_sessions.go:140-181 | the same in every state of every run |
| `TerminalPromises.AtMostOnce` | server/internal/api/rest/terminal_sessions.go:140-181 | each attachment is sent each number at most once with its own payload; replayed frames increase; live frames are newer than all replayed |
| `TerminalPromises.ReplayIsComplete` | server/internal/api/rest/terminal_sessions.go:164-179 | the loop ends at a snapshot with nothing newer, and the replay is one unbroken run exactly when at most 256 frames were published between consecutive snapshots |
| `TerminalPromises.ReplayContiguousIff` | server/internal/api/rest/terminal_sessions.go:304-322 | the same about the snapshots themselves |
| `TerminalPromises.ReplayRoundsAreBounded` | server/internal/api/rest/terminal_sessions.go:164-179 | an attach takes at most one more snapshot than there are frames |
| `TerminalDelivery.LiveIsDelivered` | server/internal/api/rest/terminal_sessions.go:264-291 | every frame published since the current attachment was installed was sent to it or is held by a publisher that will send it, unless a send to it failed |
| `TerminalDelivery.HandoverSkips` | server/internal/api/rest/terminal_sessions.go:166-170 | a frame published between the last snapshot and the installation was never sent to that attachment and is not on its way |
| `TerminalDelivery.GapFreeIff` | server/internal/api/rest/terminal_sessions.go:164-179 | for the current attachment with no failed send, every frame since its last snapshot is sent or on its way exactly when nothing was published between that snapshot and the installation |
| `TerminalDelivery.HandoverGapHappens` | server/internal/api/rest/terminal_sessions.go:166-170 | a run in which a frame is skipped |
| `TerminalOrder.OneStreamInOrder` | server/internal/api/rest/terminal_sessions.go:203-219 | under every interleaving each attachment is sent the live frames of one stream in increasing order |
| `TerminalQueue.ReplayNeedsReader` | server/internal/api/rest/terminal_sessions.go:461-470 | at most 127 more frames are replayed than the writer took messages |
| `TerminalQueue.IdleAttachSucceedsIff` | server/internal/api/rest/terminal_sessions.go:164-179 | an attach that has ended, from whose queue nothing was taken and that is not closed, reached its installation exactly when its snapshots returned at most 127 frames |
| `TerminalQueue.QuietAttachSucceedsIff` | server/internal/api/rest/terminal_sessions.go:164-179 | the same when nothing is published meanwhile: exactly when fewer than 128 frames were ever published |
| `TerminalQueue.UnreadAttachFails` | server/internal/api/rest/terminal_sessions.go:171-177 | for every history of at least 128 frames, a run whose attach fails on the full queue |
| `TerminalPromises.ClosedIsFinal` | server/internal/api/rest/terminal_sessions.go:357-402 | after close nothing is published and no timer is armed again |
| `TerminalPromises.ClosedRefuses` | server/internal/api/rest/terminal_sessions.go:143-146 | an attach goes on exactly when it finds the session open |
| `TerminalPromises.ReplacedIsClosed` | server/internal/api/rest/terminal_sessions.go:151-154 | the attachment a new attach finds is closed and no longer the session's |
| `TerminalPromises.ClosedDismisses` | server/internal/api/rest/terminal_sessions.go:384-405 | once its session is closed an attachment has its notice to come or is closed |
| `TerminalTimer.TimerRunsIff` | server/internal/api/rest/terminal_sessions.go:336-382 | in every reachable state the idle timer runs exactly when the session is open and was detached since an attach last stopped the timer |
| `TerminalTimer.AttachedWhileTimed` | server/internal/api/rest/terminal_sessions.go:148-154 | a run that ends attached with the idle timer running |
| `TerminalTimer.AbandonedWithoutTimer` | server/internal/api/rest/terminal_sessions.go:148-177 | a run that ends open, unattached and without a timer: an attach replaced another, its ready message could not be written, and its replay failed |
| `Proxy.ProxySession.Connect` | server/internal/proxy/session.go:115-134 | stores the connection of a known role; both present makes it active and closes ready, at most once |
| `Proxy.ConnectedIsOpen` | server/internal/proxy/session.go:118-134 | a connection makes a session active exactly when the other side is there, and keeps it open |
| `Proxy.SessionManager.Create` | server/internal/proxy/session.go:64-87 | one new pending session, the rest untouched; table and left sessions move as the step on their values does |
| `Proxy.SessionManager.GetPending` | server/internal/proxy/session.go:95-106 | exactly the worker's pending sessions, each once |
| `Proxy.SessionManager.SetConn` | server/internal/proxy/session.go:109-135 | as one step: only the named session changes, and true exactly when both its sides are connected; an unknown one is refused |
| `Proxy.ActiveIffBoth` | server/internal/proxy/session.go:125-132 | after any operations a session in the table is active exactly when both its sides are connected |
| `Proxy.SessionManager.Close` | server/internal/proxy/session.go:137-165 | the session leaves the table closed, with done closed at most once |
| `Proxy.SessionManager.CloseByWorker` | server/internal/proxy/session.go:167-181 | exactly the worker's sessions leave, and their number is returned |
| `Proxy.SessionManager.CloseByVM` | server/internal/proxy/session.go:183-197 | exactly the VM's sessions leave, and their number is returned |
| `Proxy.SessionManager.Reap` | server/internal/proxy/session.go:224-239 | as one step: exactly the pending sessions older than 60 seconds leave, closed |
| `Proxy.RunsStayConsistent` | server/internal/proxy/session.go:64-197 | with each method one step: every session in the table is open (active, both connected and ready together) and every one that left is closed |
| `Proxy.SessionsAgeOneWay` | server/internal/proxy/session.go:64-197 | with each method one step: active stays active until it leaves, ready stays closed, and what left is frozen |
| `Proxy.ReapSparesActive` | server/internal/proxy/session.go:224-239 | with each method one step: a session with both sides connected is not reaped |
| `ProxySections.TableIsOpen` | server/internal/proxy/session.go:109-165 | one critical section at a time: under every interleaving a session in the table is open |
| `ProxySections.DoneIsClosedOnce` | server/internal/proxy/session.go:137-162 | however many threads close a session, whoever ends it finds done open |
| `ProxySections.EndedStaysClosedIff` | server/internal/proxy/session.go:115-134 | a session that ended is closed, or active again exactly when a connection completed its pair afterwards |
| `ProxySections.QuietIsFrozen` | server/internal/proxy/session.go:137-162 | a session that left the table and that no thread holds never changes again |
| `ProxySections.RevivalHappens` | server/internal/proxy/session.go:109-135 | a run in which a closed session ends up active |
| `ProxySections.BatchTakesWanted` | server/internal/proxy/session.go:167-197 | what a batch takes out was in the table when it was collected and is of the worker, the VM or the age it was collected for |
| `ProxySections.ReapedWasActiveIff` | server/internal/proxy/session.go:224-239 | a reaped session was pending and older than 60 seconds when collected, and is active when taken out exactly when a connection completed its pair in between |
| `ProxySections.ReaperClosesActive` | server/internal/proxy/session.go:224-239 | a run in which the reaper takes out an active session |
| `Relays.SingleRelayPerSession` | worker/Sources/WorkerCore/Worker.swift:244-305 | at most one unfinished relay per session, finished ids are in the table, and a launch never replaces an entry |
| `Relays.ConsideredIff` | worker/Sources/WorkerCore/Worker.swift:246-275 | a polled session is to be launched exactly when its target is known and it has no relay |
| `Relays.ResolvedIsRelayed` | worker/Sources/WorkerCore/Worker.swift:244-301 | such a session gets its relay and its table entry at the next launch |
| `Relays.RelayTable.CleanUpFinished` | worker/Sources/WorkerCore/Worker.swift:168-172 | exactly the finished relays leave the table |
| `Decimal.ParsePrint` | server/internal/db/postgres.go:113-120 | parsing a printed number gives it back |
| `Decimal.ParseLeadingZero` | server/internal/db/postgres.go:113-118 | leading zeros do not change a number |
| `Hostnames.WorkersTable.MaxNumber` | server/internal/db/postgres.go:109-118 | the largest number in use, failing exactly when one does not fit 32 bits |
| `Hostnames.WorkersTable.AssignHostname` | server/internal/db/postgres.go:86-137 | a known uuid keeps its name, a new one gets the next number, and uuids stay unique |
| `Hostnames.NewNameIsFresh` | server/internal/db/postgres.go:109-120 | a new name differs from every name in the table, leading zeros and other names included, and is the next number after one in use, or 1; it fails exactly at the 32-bit maximum |
| `Hostnames.AskingAgain` | server/internal/db/postgres.go:97-104 | asking again returns the same name exactly when no worker id collided |
| `Hostnames.AssignmentsAreInjective` | server/internal/db/postgres.go:86-137 | over any run two answers are the same name exactly when the same uuid asked |
| `Yaml.ScanQuoted` | worker/Sources/WorkerCore/Config.swift:100-102 | scanning a quoted string gives back the string and what follows it, for every string |
| `Yaml.QuoteDoublesQuotes` | worker/Sources/WorkerCore/Config.swift:100-102 | quoting doubles single quotes and changes nothing else |
| `Yaml.FoldKept` | worker/Sources/WorkerCore/Config.swift:100-102 | reading back what is between single quotes changes a text exactly when a stretch of its white space has a line break that is not kept |
| `Yaml.ScanDoubleQuoted` | worker/Sources/WorkerCore/Config.swift:46-50 | every string, line breaks included, can be written between double quotes and read back |
| `YamlFiles.ReadLines` | worker/Sources/WorkerCore/Config.swift:46-50 | a file of comment, blank and entry lines, quoted either way, with or without a final line feed, is read as its entries, or rejected exactly for a document marker in a single-quoted text |
| `Config.LoadedTokenIsIssued` | worker/Sources/WorkerCore/Config.swift:52-56 | for every mapping a file can hold, the loaded worker token is empty or issued, an issued one is kept, and a legacy token enrolls |
| `Config.FileLoads` | worker/Sources/WorkerCore/Config.swift:46-72 | a file in any order, quoted either way, with comments, other keys (letters, digits, underscores) and defaults left out loads to the configuration it describes |
| `Config.DoubleQuotedTokenLoads` | worker/Tests/WorkerCoreTests/ConfigTests.swift:55-82 | a double-quoted issued token is the loaded worker token |
| `Config.InstallerFileLoads` | install/setup-host.sh:310-325 | the installer's file loads to the installed values |
| `Config.SavedText` | worker/Sources/WorkerCore/Config.swift:81-95 | the lines of a saved file, each with its key and field |
| `Config.LoadSaved` | worker/Sources/WorkerCore/Config.swift:81-98 | what loading makes of any saved configuration: an error exactly for an unprintable character or a document marker, otherwise every text folded and the token classified |
| `Config.SaveLoadsBackIff` | worker/Sources/WorkerCore/Config.swift:81-98 | load after save is the identity exactly on empty or issued worker tokens and texts that single quotes keep |
| `Config.SaveIsStableIff` | worker/Sources/WorkerCore/Config.swift:46-98 | saving what any file loaded to and loading again changes nothing exactly when single quotes keep its texts |
| `Config.LineBreakIsLost` | worker/Sources/WorkerCore/Config.swift:89-102 | a file whose password has a line feed, which saving and loading turns into a space |
| `Config.IssuedTokenSurvivesRestart` | worker/Sources/WorkerCore/Worker.swift:218-240 | for every mapping the worker loaded: the issued token is used and no enrollment token; a saved file loads to the same configuration exactly when its texts are kept and the token has the issued form; being issued it again changes nothing |
| `Config.InstalledWorkerKeepsToken` | worker/Sources/WorkerCore/Worker.swift:218-240 | from the installer's file through registration to a restart: the file on disk loads to the installed values and the issued token |

## Left out

- Table: last_error, ip_address and time stamps of a row; the order of the desired list (by slot) is not modelled.
- Protocol.Next: schedulability is any subset of the registered workers; heartbeat ages and clocks are left out.
- Runtime: TartDriver's retries, deadlines and output parsing; a command is one step with its final answer.
- Disk sizing (`targetDiskSizeGiB`, the choice in `configure`): one expression, it would add only easy members.
- TerminalReplay: websocket writes, resizing and input are not modelled. Live frames of two different streams may reach the queue in either order.
- Proxy.RunsStayConsistent: one step per method; `ProxySections` has the single critical sections, where exactly a late connection breaks it (`EndedStaysClosedIff`).
- Proxy.SessionsAgeOneWay: one step per method, as above.
- Proxy.SessionManager.SetConn: one step, where the code looks up and stores in two sections; `ProxySections` has both.
- Proxy.SessionManager.Reap: one step, where the code collects and closes in separate sections; `ProxySections` has them.
- Proxy.ReapSparesActive: one step per method; `ProxySections.ReapedWasActiveIff` says exactly when it fails otherwise.
- Proxy: session tokens, allowed ports and the closing of the connections themselves.
- Config.Load: files outside one `key: scalar` per line are `NotModelled` (nested, flow and block values, anchors, tags, directives, keys of other characters, escapes by code point, line breaks between double quotes, plain texts that are not simple words); the lemmas over mappings cover them too. Strings are sequences of code points, so a quote or prefix that combines with a following mark is not modelled.
- Config.IssuedTokenSurvivesRestart: a save that fails (logged and skipped) is not modelled.
- Hostnames: re-registration of a worker with a host name of its own choice is not part of the runs of assignments.
- HTTP routing, Access JWTs, token hashing, release uploads and code signing, WebSocket, SSH and TCP relaying, keychain and overlay, the React frontend and the legacy vms table.
