# HubFuse, verified

A Dafny model of the concurrent protocols of HubFuse, a hub-and-agent file-sharing system, with proofs of what they promise. `dafny verify dfyconfig.toml` checks everything.

Five parts are modelled.

* **The hub's liveness and shutdown protocol.** `HubMachine` interleaves any number of Register, Heartbeat, Deregister, Leave, Subscribe and Join handlers, monitor sweeps, prunes and one Stop. `HubLifecycle` interleaves any number of Start and Stop calls with handlers and background goroutines. `HubRegistry`, `HubRoutines` and `DeviceTable` are the same sections, loops and statements as imperative code over mutable objects. `ShutdownBudget` is the bounded gRPC stop, `PairingSend` the one send that is made without the registry lock.
* **The agent's mounter.** `MountMachine` interleaves any number of Mount, Unmount, UnmountDevice and UnmountAll calls, with the mutex released during a liveness probe and probes that may never answer. `MounterObject` is its imperative form.
* **The agent's session supervisor.** `HubConnection` is the ownership of the hub connection between Run, Shutdown and any number of reconnect episodes; `HeartbeatDetector` is the failure counter tied to session identity; `AgentObject` has the fields under `sessionMu` and the reconnect loop as imperative code.
* **SFTP path resolution and access.** `PosixPath` gives Go's lexical path operations, `SharePath` the way from a client's path to a file in a share, `ShareAcl` the access decision, `ShareConfigObject` the in-place edits of a device list.
* **Join tokens.** `JoinTokens` interleaves issuers, joiners and expiry sweeps; `JoinTokenObject` is the table and its users as imperative code.

How to read the machines:

* A state machine is a function `Exec` from a process's program counter and the shared state to the next ones, a predicate for the steps the environment allows, and `IsRun`. Theorems are about every state, step or pair of states of every run, for any number of processes.
* One step is one SQL statement, one write-lock section, one step inside a read-lock section, one clock reading, or one call that may block. The store has a single connection, so a statement is atomic. Inside a read-lock section other readers and SQL statements interleave; a write-lock section waits for all readers to leave. In the hub machine reading the clock and writing `last_heartbeat` are one step; for join tokens the clock reading is a step of its own.
* Every statement and call may fail, at the environment's choice; one that fails has no effect. The clock never goes backwards. Times are integers, in milliseconds where a constant matters.
* The hub process may crash at any step and be started again on the same table. Theorems about one hub process speak of states of the same `epoch`.
* RPC handlers may start while the hub drains: the interceptor that turns them away is only an early exit, and nothing here relies on it. In the lifecycle machine they may also begin after GracefulStop was called, until it has returned unforced.
* The context that Start was given may be cancelled at any moment; a reconcile after that may fail on it, or succeed because it had already begun. In the mounter time does not pass the deadline of a caller that is waiting: its timer fires when it is due.
* Besides what never happens, the theorems say what does. `HubEffects` gives the exact effect of any step of the hub on rows, channels and subscriptions. `HubStories`, `HubDepartures`, `HubLoops`, `HubStartStop`, `MountStories` and `JoinStories` say of a call that has returned, whatever ran beside it, what it has done or which failure or race kept it from that; that no call gets stuck; and that no step is repeated but where the code waits.
* Fields described as history, and the `Source` tag of an event, record what happened; no step depends on them. A `*Mount` pointer, a channel, a hub client and a session are numbered in the order they were made.

What the proofs found:

* A signal during startup can make Start report an error that the shutdown caused: the caller's own context is cancelled before Stop marks the hub, and the reconcile runs on that context (`HubLifecycle.CancelledStartReportsShutdown`). `ShutdownReportedExactlyWhen` says for every run when that happens; a closed store and a stopped server are never reported (`StartErrorCauses`), and nothing is if the caller cancels only after Stop's mark (`CancelAfterMarkIsClean`).
* A Start that Stop preempted may also return an error because its own `Listen` fails afterwards (`HubLifecycle.PreemptedStartCanFail`); `PreemptedStartReturnsNil` says exactly when.
* A mount entry can be dropped with nothing showing that its mount is gone: after a failed unmount command the re-check takes every error for "gone", also one that a liveness probe would call unknown (`MountTheorems.EntryLostWithoutEvidence`). `LeavesWithoutEvidenceExactlyWhen` says exactly when. A re-check that times out drops nothing.
* A re-mount onto a different `to` leaves the old target at mode 0700 with nothing mounted on it (`MountTheorems.MovedRemountLeavesTargetWritable`), against the comment at internal/agent/mounter.go:870-880 that the mount which follows guards the target: it guards the new one. `RemountLeavesOldTargetIffMoved` says exactly when.
* The daemon may replace its connection after an attempt that the hub refused, in one case: a refused Subscribe whose set-up budget had fired meanwhile (`HubConnection.LateRefusalCondemns`, `RefusalsCondemnOnlyLate`). The agent's own client never reports such a refusal.
* The escape error of `ResolveSharePath` never occurs, for any share root and any client path (`SharePath.ResolvesBelowTheRoot`).
* A path handed out for writing can lie outside its share (`SharePath.WriteCanEscape`: a share configured as "l/../../.." with l a link to a/b). `WritesStayInsideExactlyWhen` gives the condition on the configuration: it never does below the share's root, nor for a root whose cleaned path does not end in "..", absolute ones among them, nor for one like "../.." that has no name in it.
* `sendToDevice` sends on a channel after releasing the lock under which it looked it up, so a close in between makes the hub panic (`PairingSend.PairingCanPanic`); `PanicsExactlyWhen` says that this is the only way.
* A join token is judged by the clock the joiner read before its DELETE, so a row can be claimed at or past its expiry (`JoinTokens.ClaimCanLandLate`), exactly when the clock passed the expiry between the two (`LateClaimExactlyWhen`). A token whose expiry equals the clock is neither claimable nor swept.

## Model

| member | source | states |
|---|---|---|
| DeviceTable.DeviceStore.UpdateHeartbeat | internal/hub/store/sqlite.go:303-310 | sets last_heartbeat of an existing row, touches no other column or row, and reports whether there was one |
| DeviceTable.DeviceStore.UpdateDeviceStatus | internal/hub/store/sqlite.go:185-193 | writes status, ip and port into an existing row, touches no other column or row, and reports whether there was one |
| DeviceTable.DeviceStore.MarkOfflineIfStale | internal/hub/store/sqlite.go:217-230 | demotes a row only while it is online and stale, reports true exactly when it did, and touches nothing else |
| DeviceTable.DeviceStore.MarkAllOffline | internal/hub/store/sqlite.go:245-260 | leaves no row online, touches no other column or row, and reports how many it demoted |
| DeviceTable.DeviceStore.MarkOnlineIfOffline | internal/hub/store/sqlite.go:268-284 | promotes only an offline row; last_ip becomes the given ip, or stays if none is given; reports true exactly when the online set changed |
| DeviceTable.DeviceStore.CreateDevice | internal/hub/store/sqlite.go:118-129 | inserts the row unless the device id or the nickname is taken, and touches no other |
| DeviceTable.DeviceStore.ListOnlineDevices | internal/hub/store/sqlite.go:158-168 | every online row, once |
| DeviceTable.DeviceStore.ListStaleDevices | internal/hub/store/sqlite.go:314-324 | every online row last heard of before the threshold, once |
| Subscribers.SubscribedKeeps | internal/hub/registry.go:517-568 | Subscribe keeps the subscriber invariant, closes only the channel it replaces and adds one fresh open channel, unless draining |
| Subscribers.RemovedKeeps | internal/hub/registry.go:718-725 | removeSubscriber keeps the invariant: the channel is closed once and leaves the map |
| Subscribers.UnsubscribedKeeps | internal/hub/registry.go:541-566 | a late unsubscribe keeps the invariant; it closes its own channel and unsubscribes the device only if that is still the current one, and touches no other |
| Subscribers.AllClosedKeeps | internal/hub/registry.go:570-581 | closing all subscribers keeps the invariant, closes exactly the channels in the map and empties it |
| Subscribers.OfferedKeeps | internal/hub/registry.go:608-636 | a send under the lock is appended to the open channel of its device, or dropped because 64 events are buffered, and changes nothing else |
| Subscribers.ReceivedKeeps | internal/hub/server.go:213-226 | a receive takes the oldest buffered event of its own channel |
| HubRegistry.BroadcastStep | internal/hub/registry.go:608-636 | a broadcast's result does not depend on the order in which the map is iterated |
| HubRegistry.CloseStep | internal/hub/registry.go:570-581 | nor does the result of closing all subscribers |
| HubRegistry.Registry.Subscribe | internal/hub/registry.go:517-568 | refused exactly while draining; otherwise a fresh channel replaces and closes the old one, and no other channel changes |
| HubRegistry.Registry.Unsubscribe | internal/hub/registry.go:541-566 | the device is removed if and only if its current channel is the given one; then exactly that channel is closed, and otherwise none |
| HubRegistry.Registry.RemoveSubscriber | internal/hub/registry.go:718-725 | removes and closes the device's channel, never a closed one |
| HubRegistry.Registry.CloseAllSubscribers | internal/hub/registry.go:570-581 | exactly the channels of the map are closed, the map is empty, and the count is right |
| HubRegistry.Registry.BroadcastLocked | internal/hub/registry.go:608-636 | exactly the channels of the subscribers that are not excluded get the event, at the end, if fewer than 64 events are buffered |
| HubRegistry.Registry.RecoverAndAnnounce | internal/hub/registry.go:326-344 | promotes and announces exactly when not draining, subscribed, the row is offline and the write succeeds; then the row is online and everyone else is told |
| HubRegistry.Registry.MarkOnlineUnlessDraining | internal/hub/registry.go:356-374 | reports ok exactly if not draining, the write succeeds and the row exists; then the row is online at the given ip and port, and nothing else changes |
| HubRoutines.HeartbeatMonitor.MarkOffline | internal/hub/registry.go:681-701 | announces a demotion exactly when it happened |
| HubRoutines.HeartbeatMonitor.CheckStale | internal/hub/heartbeat.go:106-133 | uninterrupted, exactly the stale devices whose write succeeds go offline; each other subscriber gets their events in the order listed until its buffer is full |
| HubRoutines.DemoteEachIs | internal/hub/heartbeat.go:114-132 | the demotions touch the listed stale rows and nothing else |
| HubRoutines.AnnouncedFills | internal/hub/registry.go:608-636 | after any number of announcements a channel has those that are for its device, in order, as far as its buffer of 64 goes |
| HubRoutines.SweepOnlineDevices | internal/hub/hub.go:497-525 | everyone gets the events of all rows it demotes until the buffer is full, and none if a statement fails; afterwards nothing is online |
| HubRoutines.DrainClosed | internal/hub/server.go:213-226 | after its channel is closed a stream still sends all that is buffered, in order, unless a send fails |
| HubSteps.StepKeepsInv | internal/hub/registry.go:97-725 | every step of every handler, sweep, prune, stop, crash and restart keeps the hub invariant |
| HubEffects.RowsChangeExactlyWhen | internal/hub/store/sqlite.go:118-400 | for every step of every run: when a row comes online, goes offline, appears and goes, and what its columns are then |
| HubEffects.RegisterBringsOnline | internal/hub/registry.go:356-374 | a Register that reaches its write on an existing row, and does not fail, leaves the row online at the address it reported |
| HubEffects.OutsideSteps | internal/hub/lifecycle.go:195-215 | besides processes only a reconcile touches the table, taking every online row offline; and only a crash the registry |
| HubEffects.ChannelsChangeExactlyWhen | internal/hub/registry.go:517-725 | for every step of every run: when a channel is closed, what it accepts, what is received from it, and who is subscribed on which one |
| HubEffects.LateUnsubscribeIsHarmless | internal/hub/registry.go:541-566 | a Subscribe handler that ends closes its own channel and no other, and a device that has subscribed anew meanwhile stays subscribed |
| HubStories.BroadcastsReachEveryone | internal/hub/registry.go:597-636 | when a broadcast ends, everyone subscribed then but the device itself has been offered the event, and its channel took it unless the buffer was full |
| HubStories.RegisterStory | internal/hub/registry.go:97-175 | a Register that is finished recorded the beat, then left the row online at its address, then told everyone else; or the hub was draining, the device unknown or a statement failed |
| HubStories.HeartbeatStory | internal/hub/registry.go:212-344 | a heartbeat that is finished was recorded, turned the offline row of its subscribed device online and told everyone else; or it met one of the reasons not to |
| HubDepartures.DeregisterStory | internal/hub/registry.go:445-474 | a Deregister that is finished read the address, then unsubscribed the device, then left the row offline at that address, then told everyone else; or a statement failed or there was no such device |
| HubDepartures.LeaveStory | internal/hub/registry.go:480-506 | a Leave that is finished deleted the row, then told everyone else, then unsubscribed the device; or a statement failed or there was no such device |
| HubLoops.SweepStory | internal/hub/heartbeat.go:106-133 | a monitor sweep that is finished demoted and announced every device it listed, unless a write failed or found the row no longer online and stale |
| HubLoops.SweepJudgesByItsStart | internal/hub/heartbeat.go:106-107 | a sweep judges by the clock it read when it began, less its timeout |
| HubLoops.PruneStory | internal/hub/heartbeat.go:138-156 | a prune that is finished unsubscribed and announced every device whose row it deleted |
| HubLoops.PruneIsJustified | internal/hub/store/sqlite.go:347-400 | a pruned row was offline, with no heartbeat for the retention time when the prune began, and its device was not subscribed when it looked |
| HubLoops.PruneTakesTheOldest | internal/hub/store/sqlite.go:347-400 | an offline row as old as that stays only if the batch of 500 is full of rows no younger |
| HubLoops.StopStory | internal/hub/hub.go:303-394 | a Stop that is finished leaves the hub draining, nobody subscribed and every channel closed; and nothing online, unless its list or its write failed |
| HubLoops.StreamStory | internal/hub/server.go:194-227 | a Subscribe stream that is finished was refused while draining; or it sent all that its own channel accepted, in order, unless a send failed or its client went away |
| HubLoops.NoDeadlock | internal/hub/registry.go:22-36 | in no run does the hub get stuck: a process that has something left to do can go on, or one that holds the read lock can |
| HubLoops.EveryStepGetsCloser | internal/hub/registry.go:97-725 | nothing is repeated or gone back to: every step of a handler but a stream leaves a phase, or takes one of a bounded number of steps, or sends to one more of the subscribers left |
| HubLoops.RestartServes | internal/hub/hub.go:154-258 | a hub process that comes up, also after a crash, serves once it has reconciled and started its server |
| HubTheorems.DrainedNeverGrows | internal/hub/registry.go:356-380 | once Drain has returned, the set of online rows never grows |
| HubTheorems.SweptStaysOffline | internal/hub/hub.go:303-337 | once MarkAllOffline has succeeded, no row is online in any later state of that hub, whatever was in flight |
| HubTheorems.ServesWithNothingOnline | internal/hub/lifecycle.go:195-215 | however the last hub process ended, the next has no online row when it starts serving |
| HubTheorems.SweepAnnouncesWhatItDemotes | internal/hub/hub.go:497-525 | every row the shutdown sweep demotes is announced to every subscriber, with any number of handlers in flight |
| HubTheorems.SweepWritesFirst | internal/hub/hub.go:485-525 | no sweep event is offered before the durable write, and then nothing is online |
| HubTheorems.ChannelsNeverMisused | internal/hub/registry.go:517-725 | no send under the registry lock and no close ever meets a closed channel; open channels are exactly those in the map, one per device |
| PairingSend.PanicsExactlyWhen | internal/hub/pairing.go:152-167 | in every run, a send made after the lock was released panics if and only if the channel looked up is closed between the look-up and the send |
| PairingSend.SendsWhereItLooked | internal/hub/pairing.go:152-167 | one that does not panic puts the event into the channel it looked up, if there is room, and changes nothing else |
| PairingSend.OnlySendersPanic | internal/hub/pairing.go:152-167 | nothing else panics, whatever sections, broadcasts and receives run beside it |
| PairingSend.OthersSendAndReceive | internal/hub/pairing.go:152-167 | beside the senders a broadcast's send reaches the channel of its device, and a receive takes the oldest event |
| PairingSend.PairingCanPanic | internal/hub/pairing.go:152-167 | a run in which a Deregister in between makes it panic |
| HubTheorems.ChannelsOnlyMoveOn | internal/hub/registry.go:517-636 | a closed channel never reopens or receives; accepted and delivered events are never rewritten |
| HubTheorems.ClosedStaysClosed | internal/hub/registry.go:517-581 | after Drain and CloseAllSubscribers the map stays empty and every channel closed |
| HubTheorems.StreamsAreFaithful | internal/hub/server.go:194-227 | a stream sends a prefix of what its channel accepted, in order; all of it when it ends because the channel was closed |
| HubTheorems.DepartedStaysOffline | internal/hub/registry.go:445-474 | once unsubscribed, and with no Register or Subscribe of the device running, nothing makes its row online |
| HubTheorems.DeregisterIsFinal | internal/hub/registry.go:445-474 | after both writes of Deregister the row stays offline until the device registers again |
| HubTheorems.NoRecoveryAfterDeparture | internal/hub/registry.go:326-344 | unless a new Subscribe readmits the device, every recovery announcement of it precedes all that is sent after its subscription was removed, Registers or not |
| HubTheorems.RecoveryAnnouncedExactlyOnce | internal/hub/registry.go:212-344 | a heartbeat's flip is offered once to each channel open to another device at the flip; without a flip nothing is announced |
| HubTheorems.FlipStep | internal/hub/registry.go:326-344 | a flip is recorded exactly when a heartbeat turns an offline row online, and no step turns a row online but a heartbeat's promotion and a Register's write |
| HubTheorems.AtMostOneRecoveryPerOutage | internal/hub/store/sqlite.go:268-284 | of any number of racing heartbeats and Registers at most one recovery wins, and none once the row is online |
| HubTheorems.DemotionIsJustified | internal/hub/heartbeat.go:106-133 | a demotion by a sweep begun at s means no heartbeat was recorded from s - timeout up to the write |
| HubTheorems.BeatsStep | internal/hub/store/sqlite.go:303-310 | a step records at most one heartbeat, at the end and with the clock of its write |
| HubTheorems.BeatsGrow | internal/hub/store/sqlite.go:303-310 | recorded heartbeats are only appended, none older than the clock before |
| HubTheorems.SteadyDeviceNeverDemoted | internal/hub/heartbeat.go:106-133 | a device whose recorded heartbeats are never more than the timeout apart is never demoted by the monitor |
| HubLifecycle.StepKeepsInv | internal/hub/hub.go:154-394 | every step of Start, Stop, handlers and goroutines keeps the lifecycle invariant |
| HubLifecycle.ReadyNeverAfterStop | internal/hub/hub.go:202-219 | OnReady runs at most once and never after Stop has marked the hub stopped |
| HubLifecycle.StoreClosesAtRest | internal/hub/hub.go:345-394 | the store is closed at most once, and nothing runs again after it |
| HubLifecycle.StoreClosesOnlyAtRest | internal/hub/hub.go:345-394 | it is closed only when both goroutines and all handlers have finished |
| HubLifecycle.StopsAgree | internal/hub/hub.go:286-294 | every Stop call that returns, whenever it was made, returns the same outcome |
| HubLifecycle.StopAnswersExactlyWhen | internal/hub/hub.go:303-452 | in every run a Stop that returned is unsettled if and only if the server hung, so never without one; the context is cancelled, the server stopped; the store is closed if and only if there was no server or it went down gracefully, and the wait was not cut short |
| HubStartStop.StartStory | internal/hub/hub.go:154-258 | a Start that returned an error had its reconcile, its Listen or its Serve fail; one that returned nil found the hub started before or stopped |
| HubStartStop.ServesOnlyWhenReady | internal/hub/hub.go:202-258 | a Start that serves has made the hub ready before, and both background goroutines run or have run |
| HubStartStop.NoDeadlock | internal/hub/hub.go:286-300 | no Start or Stop gets stuck: it can go on, or the Stop it waits for can |
| HubStartStop.EveryStepGetsCloser | internal/hub/hub.go:148-394 | a Start returns after at most nine steps of its own, a Stop after eleven |
| HubStartStop.StopCanCloseTheStore | internal/hub/hub.go:345-394 | a Stop that waits for the goroutines never waits in vain: from any state of any run they can end, and the store be closed |
| HubLifecycle.PreemptedStartReturnsNil | internal/hub/hub.go:154-258 | a Start that returns when the hub is stopped reports an error if and only if its own Listen failed or Serve failed before the stop |
| HubLifecycle.StartErrorCauses | internal/hub/hub.go:154-258 | what an error of Start comes from: never a closed store or a stopped server; a cancelled context only before Stop's mark |
| HubLifecycle.ShutdownReportedExactlyWhen | internal/hub/hub.go:166-182 | in every run, Start has reported an error the shutdown caused if and only if its reconcile failed on the cancelled context and it asked whether the hub is stopped before Stop marked it |
| HubLifecycle.CancelAfterMarkIsClean | internal/hub/hub.go:166-182 | no such error if the caller cancels only once Stop has marked the hub |
| HubLifecycle.CancelledStartReportsShutdown | cmd/hubfuse-hub/main.go:202-212 | a run of a signal during startup in which Start reports the cancelled context as an error |
| HubLifecycle.PreemptedStartCanFail | internal/hub/hub.go:184-201 | a run in which Stop wins and Start still returns an error |
| ShutdownBudget.SplitRemaining | internal/hub/hub.go:460-472 | the grace is the smaller of what is wanted and what is left of the budget, and the hard limit is the rest |
| ShutdownBudget.StopServer | internal/hub/lifecycle.go:94-172 | graceful exactly if the server stops within the grace, at its very end only if the select or the re-check sees it; hung only if it outlasts the forced window; and how long each outcome takes |
| ShutdownBudget.StopWithin | internal/hub/hub.go:303-394 | the stop overruns the remaining budget by at most the forced floor of 500 ms, and is graceful if the server stops within 3 s and the budget |
| MountTable.UnmountKeeps | internal/agent/mounter.go:884-945 | an unmount keeps the table and the target modes, and drops the entry exactly if the command succeeded or the re-check answered anything but a mount |
| MountTable.InstallKeeps | internal/agent/mounter.go:515-632 | a new mount keeps the table, and its target is the one that was open for it |
| MountTable.ProbeKeeps | internal/agent/mounter.go:760-803 | beginning a probe joins this generation's or starts one with a deadline 3 s ahead, and keeps the probe registry single-flight |
| MountTable.RetireKeepsTable | internal/agent/mounter.go:739-749 | a finished probe leaves the registry, and no other one does |
| MounterObject.Mounter.UnmountKey | internal/agent/mounter.go:884-945 | the entry stays exactly if the command failed and the re-check timed out or found a mount; otherwise it alone goes, and its target is guarded again if asked |
| MounterObject.Mounter.MountpointGoneCtx | internal/agent/mounter.go:685-711 | gone means answered, with any error or with no mount; a timeout is not |
| MounterObject.Mounter.UnmountEach | internal/agent/mounter.go:977-1009 | the sweep's loop is the unmounts one after another; no error means every one removed its entry |
| MounterObject.UnmountedEachKeeps | internal/agent/mounter.go:977-1061 | an entry survives a sweep exactly if each command on it failed and each re-check timed out or found a mount |
| MounterObject.Mounter.Snapshot | internal/agent/mounter.go:977-983 | every key of the device, or every key, once |
| MounterObject.Mounter.BeginProbe | internal/agent/mounter.go:760-790 | joins the registered probe exactly if it is this generation's, else registers a fresh one |
| MounterObject.Mounter.Answer | internal/agent/mounter.go:739-744 | healthy is published exactly for a mount, dead exactly for no mount, ENOTCONN and ENOENT, unknown exactly for other errors, together with done |
| MounterObject.Mounter.Retire | internal/agent/mounter.go:744-749 | the slot is freed only if it is still this entry's |
| MounterObject.Mounter.GuardTarget | internal/agent/mounter.go:1092-1107 | after a successful chmod the target is not writable and not stray |
| MounterObject.Mounter.Install | internal/agent/mounter.go:600-632 | the entry is a fresh generation |
| MountTheorems.StepKeepsInv | internal/agent/mounter.go:424-1061 | every step of every call and probe keeps the mounter's invariant |
| MountTheorems.TeardownNeedsEvidence | internal/agent/mounter.go:444-513 | a Mount tears down an entry only if its endpoint differs or a probe of that very generation answered no mount, ENOTCONN or ENOENT |
| MountStories.DeadRecheckTearsDown | internal/agent/mounter.go:450-486 | back under the lock with its entry unchanged, a Mount goes to the teardown if and only if the verdict is dead, and each verdict is the one the stat shows |
| MountStories.TeardownDecides | internal/agent/mounter.go:496-513 | the old entry is gone and the Mount goes on exactly if the command succeeded or the re-check answered anything but a mount; otherwise nothing changes and it gives up |
| MountStories.ProbesEnd | internal/agent/mounter.go:739-758 | a stat may come back at any time and decides its probe for all who wait; then the probe's slot is freed |
| MountStories.MountStory | internal/agent/mounter.go:424-632 | a Mount that returned made its mount the entry; or the share was mounted there and not shown dead, another call overtook it, or something failed |
| MountStories.FailureIsFinal | internal/agent/mounter.go:498-632 | a Mount that meets a failure, of a check, a chmod, the teardown, the command or the wait for the mount, changes no entry from then on; one that installs its mount met none |
| MountStories.UnmountStory | internal/agent/mounter.go:955-1061 | UnmountDevice and UnmountAll run the command for every entry of their snapshot, whatever fails on the way |
| MountStories.NoDeadlock | internal/agent/mounter.go:424-513 | no call gets stuck: it can go on, or the one that holds the lock can |
| MountStories.EveryStepGetsCloser | internal/agent/mounter.go:424-632 | every step brings a call closer to its return, but for the snapshot and a look for a mount that has not appeared yet |
| MountTheorems.EntriesLeaveExactlyWhen | internal/agent/mounter.go:685-945 | an entry leaves at a step if and only if that step unmounts it and the command succeeds or the re-check answers anything but a mount; never on a timeout, and none is overwritten |
| MountTheorems.LeavesWithoutEvidenceExactlyWhen | internal/agent/mounter.go:702-710 | an entry leaves without evidence exactly when the command fails and the re-check meets an error that a probe would call unknown |
| MountTheorems.EntryLostWithoutEvidence | internal/agent/mounter.go:702-710 | a run in which it does |
| MountTheorems.NeverFightsOrResurrects | internal/agent/mounter.go:480-513 | healthy, unknown, replaced or vanished: no later step of that call changes the table |
| MountTheorems.InstallsOnlyWhereFree | internal/agent/mounter.go:515-632 | a generation is installed only where there is no entry, on a target nobody has mounted |
| MountTheorems.OneProbePerGeneration | internal/agent/mounter.go:760-803 | at most one goroutine is in a stat for one generation, however many callers arrive |
| MountTheorems.JoinersAgree | internal/agent/mounter.go:812-846 | every caller that reads a probe's result reads the same one |
| MountTheorems.WaitsAreBounded | internal/agent/mounter.go:812-846 | whenever a caller waits it is not past the entry's shared deadline, fixed when the probe began; at the deadline it can always go on |
| MountTheorems.NoTargetLeftWritable | internal/agent/mounter.go:1092-1124 | with the lock free, the writable targets are those mounted and the stray ones; absent failed chmods, UnmountAllForce and moved re-mounts there are no stray ones |
| MountTheorems.RemountLeavesOldTargetIffMoved | internal/agent/mounter.go:460-513 | a re-mount leaves its old target writable if and only if it mounts on another one |
| MountTheorems.MovedRemountLeavesTargetWritable | internal/agent/mounter.go:460-513 | a run in which it does |
| ReconnectEpisode.BackoffStep | internal/agent/daemon.go:1425-1428 | doubling with a cap of 60 s gives the initial delay, by default 1 s, times a power of two, capped |
| ReconnectEpisode.VerdictsExactlyWhen | internal/agent/daemon.go:893-1030 | an attempt gives a session exactly if both calls were answered and the set-up budget had not fired; when it counts as refused, and when as failed |
| HubConnection.OwnershipIsLinear | internal/agent/daemon.go:654-718 | every dialled client is exactly one of installed, in one process's hand, or closed once |
| HubConnection.OnlyTheCondemnedIsRemoved | internal/agent/daemon.go:654-663 | the installed client changes only by a swap that condemned it, and never after Shutdown's claim |
| HubConnection.NoReinstall | internal/agent/daemon.go:1345-1350 | a swap that succeeds condemns the connection the whole failed attempt ran on: no client is ever installed again |
| HubConnection.ShutdownOwnsTheConnection | internal/agent/daemon.go:1863-1915 | from the claim on nobody else closes or replaces the connection; Deregister and Close use the same open client |
| HubConnection.NothingLeaks | internal/agent/daemon.go:563-626 | at rest, every client ever dialled is closed exactly once if and only if the daemon ended in Shutdown or never connected |
| HubConnection.EpisodesAreDisciplined | internal/agent/daemon.go:1318-1430 | in every episode at most one replacement, only after an attempt that timed out on that very client; attempts are one sleep apart, and the k-th delay is the first doubled k times up to the cap |
| HubConnection.EpisodeEndsExactlyWhen | internal/agent/daemon.go:1345-1430 | in every run an episode is over if and only if its last attempt had Register and Subscribe both answered in time, or it was cancelled at rest |
| HubConnection.ShutsDownExactlyWhen | internal/agent/daemon.go:722-732 | only a Run that ends in Shutdown claims the connection, and it takes the client installed at that moment |
| HubConnection.AttemptsAreFollowedUp | internal/agent/daemon.go:1345-1430 | what follows an attempt: the end, a replacement or a rest, each by the replies of the two calls and the budgets |
| HubConnection.ReplacementIsMadeExactlyWhen | internal/agent/daemon.go:654-718 | a replacement is made exactly if there is a client to condemn, a spare, and the condemned one is still installed and unclaimed |
| HubConnection.RefusalsCondemnOnlyLate | internal/agent/daemon.go:1001-1017 | in every run a replacement follows a refused attempt only if Subscribe was refused after its budget had fired, and never with the errors of the agent's own client |
| HubConnection.LateRefusalCondemns | internal/agent/daemon.go:1001-1017 | a run in which it does |
| AgentObject.Daemon.SwapHubClient | internal/agent/daemon.go:654-663 | swaps exactly if Shutdown has not claimed the connection and the condemned client is still installed |
| AgentObject.Daemon.ReplaceHubClient | internal/agent/daemon.go:680-718 | replaces exactly if there is a client, the dial works and it is still installed and unclaimed; the client that is not installed is closed once, and no other |
| AgentObject.Daemon.TakeHubClientForShutdown | internal/agent/daemon.go:726-731 | claims the connection and returns the installed client |
| AgentObject.Daemon.NewSessionCtx | internal/agent/daemon.go:1138-1152 | installs a fresh session, clears the count and hands back the previous one |
| AgentObject.Daemon.NoteHeartbeatFailure | internal/agent/daemon.go:1170-1185 | counts, and at the third failure in a row takes hold of the session to cancel and clears both, in one section |
| AgentObject.Daemon.ReconnectSession | internal/agent/daemon.go:1318-1430 | the loop performs the episode's steps and ends exactly when an attempt has both calls answered in time or the context is cancelled |
| AgentObject.TurnKeepsLoop | internal/agent/daemon.go:1345-1430 | one turn of the loop, whatever it meets, keeps the episode's discipline |
| HeartbeatDetector.CounterIsTheTrailingRun | internal/agent/daemon.go:1170-1199 | the counter is the run of failures at the end of the log, counted anew after every third |
| HeartbeatDetector.DroppedExactlyWhenDeserved | internal/agent/daemon.go:1138-1185 | a session is ended by the detector if and only if three heartbeats in a row failed after it was installed and before another was |
| HeartbeatDetector.NoSessionIsDroppedTwice | internal/agent/daemon.go:1170-1190 | the detector drops and cancels each session at most once |
| HeartbeatDetector.LateCancelIsHarmless | internal/agent/daemon.go:1160-1190 | a cancel made late never ends the session that is installed by then |
| HeartbeatDetector.EveryStepGetsCloser | internal/agent/daemon.go:1138-1199 | every caller of the detector ends, after at most three steps |
| HeartbeatDetector.SessionsLetGoAreCancelled | internal/agent/daemon.go:1138-1190 | every session ever installed is the current one, or about to be cancelled by whoever replaced or dropped it, or cancelled |
| HeartbeatDetector.CancelledExactlyWhenDeserved | internal/agent/daemon.go:1170-1190 | with every caller finished, the detector has cancelled exactly the sessions with three failures in a row |
| PosixPath.CleanIsCanonical | internal/agent/sharesacl.go:94-96 | Clean is idempotent and gives equal strings exactly for equal paths |
| PosixPath.CleanFollowsItsRules | internal/agent/sharesacl.go:94-96 | the documented rules of Clean: slashes collapse, "." vanishes, a name and the ".." after it cancel, ".." stops at "/", and the empty path is "." |
| PosixPath.SplitJoined | internal/agent/sharesacl.go:94-105 | components survive rendering and splitting |
| PosixPath.JoinWalks | internal/agent/sharesacl.go:115-116 | Join is walking on from where the first path leads |
| PosixPath.DirAndBase | internal/agent/sharesacl.go:150-151 | on a cleaned path Base is the last component and Dir all the others |
| PosixPath.RelTestIsContainment | internal/agent/sharesacl.go:117-120 | the Rel test accepts a path exactly if its components extend the root's without a "..", names such as "..data" included |
| PosixPath.RelTestOnAbsolutePaths | internal/agent/sharesacl.go:136-139 | for absolute paths that is a prefix test on components |
| SharePath.SplitTakesFirstName | internal/agent/sftphandler.go:52-62 | splitting the cleaned string is taking the first name of the path |
| SharePath.VirtualNamesFromTheTop | internal/agent/sharesacl.go:94-99 | a leading slash of the client makes no difference |
| SharePath.GrantedExactlyWhen | internal/agent/sftphandler.go:64-86 | a path is granted exactly if the first share of its alias names the peer or everyone and, for a write, is not read-only |
| SharePath.ResolvesBelowTheRoot | internal/agent/sharesacl.go:93-121 | the result is the root followed by the names after the alias, for every root and path; only a wrong alias is refused |
| SharePath.AliasesAgree | internal/agent/sharesacl.go:93-108 | the alias of splitVirtual is the one ResolveSharePath expects |
| SharePath.ContainedRealIsInside | internal/agent/sharesacl.go:127-141 | a path is returned exactly if both resolve and it lies inside the resolved root |
| SharePath.ReadExactlyInside | internal/agent/sftphandler.go:88-106 | a peer gets a path to read if and only if the first share of the alias admits it and the target resolves inside the resolved root |
| SharePath.WriteExactlyBesideParent | internal/agent/sftphandler.go:112-130 | a peer gets a path to write if and only if the share admits it for writing and the parent resolves inside the root; the last name is untouched |
| SharePath.WritesStayInside | internal/agent/sharesacl.go:149-157 | where a write path lies, by its last name and its resolved parent |
| SharePath.WritesStayInsideExactlyWhen | internal/agent/sharesacl.go:149-157 | writes stay inside the resolved root on every file system if and only if the path goes below the alias, or the share's cleaned path does not end in "..", or its configured path has no ordinary name that could be a link |
| SharePath.NamelessRootIsRefused | internal/agent/sharesacl.go:127-157 | a share root made of ".." alone never hands out its own path for writing: its parent is refused |
| SharePath.SafeWritesStayInside | internal/agent/sftphandler.go:112-130 | below the alias, or with a share whose cleaned path does not end in "..", every path handed out for writing is inside, whatever EvalSymlinks answers |
| SharePath.AbsoluteRootsAreSafe | internal/agent/sharesacl.go:149-157 | an absolute share path always is such a configuration |
| SharePath.WriteCanEscape | internal/agent/sharesacl.go:149-157 | a configuration and a file system in which a write path is outside |
| SharePath.NamesBelowAreTheClients | internal/agent/sharesacl.go:149-157 | below the share's root the exception cannot arise |
| SharePath.OutsidersLearnNothing | internal/agent/sftphandler.go:77-130 | a peer without access is refused whatever exists; "no such file" is heard only with access |
| ShareAcl.ShareACLsFromConfig | internal/agent/sharesacl.go:69-88 | each share flattened: "all" lifted out, anything but "rw" read-only |
| ShareAcl.Decide | internal/agent/sharesacl.go:35-55 | the scan is the membership test on id and known nickname |
| ShareAcl.DecisionFromConfig | internal/agent/sharesacl.go:35-88 | a peer is admitted if and only if the configured list has "all", its id or its known nickname; alias and path are the configured ones |
| ShareAcl.DenyPartitions | internal/agent/config/shares.go:57-80 | kept and removed interleave to the old list, each in order; no requested token stays and no other goes |
| ShareAcl.DenyConserves | internal/agent/config/shares.go:57-80 | with multiplicities, nothing is lost or made up |
| ShareAcl.AllowAddsTheMissing | internal/agent/config/shares.go:27-47 | exactly the missing requested tokens are added, each once |
| ShareAcl.AllowThenDenyRestores | internal/agent/config/shares.go:27-97 | denying what an Allow added restores the list exactly |
| ShareAcl.MissingIsWhatAllowAdds | internal/agent/config/shares.go:82-96 | the tokens Deny reports missing are those Allow would add |
| ShareAcl.DeniedPeerIsRefused | internal/agent/config/shares.go:57-80 | a peer denied by id and nickname is refused if and only if the share stays open to all |
| ShareAcl.AllowedPeerIsAdmitted | internal/agent/config/shares.go:27-47 | after an Allow a peer is admitted exactly if it was before or a requested token names it or everyone |
| ShareAcl.DenySparesOthers | internal/agent/config/shares.go:57-80 | denying other tokens leaves a peer's decision as it was |
| ShareConfigObject.ShareConfig.Compact | internal/agent/config/shares.go:68-80 | the in-place compaction leaves the kept tokens in order and returns the removed ones |
| ShareConfigObject.Config.AllowDevices | internal/agent/config/shares.go:27-47 | the named share's list grows by the missing tokens, no other share changes, an unknown alias changes nothing |
| ShareConfigObject.Config.DenyDevices | internal/agent/config/shares.go:57-97 | the named share's list is compacted, no other share changes, and removed and missing tokens are reported |
| ShareConfigObject.Config.FindShare | internal/agent/config/shares.go:9-16 | the first share of that alias |
| ShareConfigObject.Config.AllowsAll | internal/agent/config/shares.go:100-111 | true exactly if the share exists and lists "all" |
| JoinTokens.TokensAreConserved | internal/hub/store/sqlite.go:616-678 | issued tokens are pending, claimed or swept, never two of these, token by token and in number |
| JoinTokens.ClaimedOnceBeforeExpiry | internal/hub/store/sqlite.go:656-667 | each token is claimed at most once, by one Join, whose clock reading was strictly before its expiry |
| JoinTokens.LateClaimExactlyWhen | internal/hub/join_token.go:38-48 | in every run the row of a claim goes at or past its expiry if and only if the clock passed the expiry between the joiner's reading and its DELETE |
| JoinTokens.ClaimCanLandLate | internal/hub/join_token.go:38-48 | a run in which it does |
| JoinTokens.RowsNeverExceedClaims | internal/hub/registry.go:60-92 | Joins insert no more device rows than tokens were claimed, and only for claimed ones |
| JoinTokens.ResultTellsWhatHappened | internal/hub/registry.go:60-92 | from what a Join returns one can tell whether its token is burnt and whether it left a row |
| JoinTokens.SweptAreExpired | internal/hub/store/sqlite.go:671-678 | a sweep takes only tokens expired by its clock, and none that was claimed |
| JoinStories.JoinStory | internal/hub/registry.go:60-92 | every result of a Join has its reason: joined only after claiming, finding the nickname free and inserting the row asked for; refused as expired or invalid only if it could not be claimed |
| JoinStories.SweepStory | internal/hub/store/sqlite.go:671-680 | a sweep that has returned deleted exactly the tokens expired by the clock it had read, unless its DELETE failed |
| JoinStories.EveryStepGetsCloser | internal/hub/registry.go:60-92 | a Join returns after at most five steps, an issuer and a sweep after two |
| JoinStories.IssueStory | internal/hub/join_token.go:18-31 | an issued ticket expires the configured lifetime, or ten minutes if none is set, after the clock its issuer read |
| JoinTokenObject.TokenStore.ClaimJoinToken | internal/hub/store/sqlite.go:656-667 | reports true exactly if it removed the row, which it does only before expiry |
| JoinTokenObject.TokenStore.DeleteExpiredJoinTokens | internal/hub/store/sqlite.go:671-678 | removes exactly the tokens past their expiry |
| JoinTokenObject.Registry.IssueJoinToken | internal/hub/join_token.go:18-31 | a new ticket that expires after the configured time, unless the code is taken |
| JoinTokenObject.Registry.constructor | internal/hub/registry.go:38-50 | a lifetime that is set is the one used, and none means ten minutes |
| JoinTokenObject.Registry.ConsumeJoinToken | internal/hub/join_token.go:38-60 | claimed exactly if present and unexpired; "expired" and "invalid" told apart by the second clock reading |

## Left out

- Loops as imperative code (`HubRoutines`, `AgentObject`, `ShareConfigObject`, `MounterObject`) are proved for one uninterrupted call; what may happen in between is the machines' business.
- HubConnection.ShutdownOwnsTheConnection: speaks of the one Shutdown that Run makes; calling Shutdown twice by hand would close a client twice.
- HubTheorems.DeregisterIsFinal: says nothing about a Register that was already under way, which the code lets win.
- HubTheorems.AtMostOneRecoveryPerOutage: an outage lasts until the next demotion of the row or the next crash.
- MountTheorems.NoTargetLeftWritable: assumes that distinct shares have distinct targets, as the configuration intends; a chmod that fails is tracked, not excluded.
- SharePath.ReadExactlyInside: the file system is one fixed answer of EvalSymlinks per path, and nothing is assumed to relate the answers but, where stated, that a path without ordinary names resolves to its Clean; a path that changes between check and open is not modelled.
- PosixPath.RelTestIsContainment: Go's library functions are modelled as they are documented, not as their byte loops; only whether Rel escapes is used, not the string it returns for two paths that diverge.
- The ip, port and share list in events, and the shares table with UpdateShares; an event is its kind and its device.
- No claim is made that the last published event agrees with the row after a Register or a monitor demotion: write and broadcast are separate steps there.
- HubTheorems.ChannelsNeverMisused: does not cover sendToDevice, which the hub machine leaves out; `PairingSend` models it on its own, with any event for its payload.
- SQLite is taken to leave no effect behind a statement that reports an error. One whose context is cancelled after it committed could, and would leave a flip without its announcement (internal/hub/store/sqlite.go:268-284).
- Pairing invites, Rename, random codes, the protocol-version check, share listing and status display.
- gRPC, TLS and certificates (a Join's certificate is one call that may fail), SSH, SFTP handles and open flags, sshfs and fusermount, SQLite itself: atomic steps or the environment's answers.
- A GracefulStop that returns without a forced Stop is taken to mean that every handler has returned.
- The agent's mount monitor, its reconcile backoff and the configuration watcher; its own guarding and unguarding of configured targets; the stub mount mode.
- KDL parsing and saving, environment variables, log wording and log gates, version resolution, commands, service units, daemonize and PID files.
