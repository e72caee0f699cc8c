# tcpcc verification model

tcpcc terminates public TCP connections inside a hosted Linux kernel and bridges
each of them to a local backend.  This project models the parts of it that are
hard to get right and proves, with Dafny 4.11, what they promise.

**The bridge runtime** (`linux-overlay/arch/tcpcc/kernel/bridge.c`) is a state
machine.  `BridgeState` holds sessions, the ready, waiter and retired lists, the
buffer budget, the slot registry, and where each thread stands inside its code.
`BridgeSteps` gives every critical section, atomic operation and socket call of
three kinds of actor its own step: the dispatcher thread, the control thread
(start, join, cancel, reap), and the world (socket edges, callbacks that set a
flag and queue the session in separate steps, host events and notifiers, socket
answers of any kind and size).  A run is any sequence of such steps from the
initial state.  `BridgeInvariant` is the inductive invariant; the other `Bridge…`
modules show that every step of every actor keeps it, and `BridgeTheorems`,
`BridgeHistory` and `BridgeProgress` draw the conclusions, which hold in every
state of every run.  Code that updates data in place without concurrency is
modelled as such.  The slot registry (`SlotRegistry.Table`) is proved against the
functions on values that the state machine uses.  The pump loop over a byte array
(`BridgePump`) is proved against a function on values, with a flag edge possible
at every point of a turn, and `BridgePumpRuns` shows that the dispatcher's steps
through the loop, interleaved with everybody else's, compute that function, with
the flags that were set in the run; `BridgePumpLeaves` puts the two together.
`BridgeScarcity` builds a run in which sessions wait for buffers.

**The host transaction** (`tools/tcpcc_host.py`): the cleanup journal
(`HostCleanup`), acquisition with a failure possible at every point
(`HostNetwork`), TUN creation with name retries (`TunQueues`), iptables install,
rollback and close over an abstract nat table with injected faults (`NatTables`),
ownership markers (`OwnershipMarkers`), the two readers of `/proc/<pid>/stat`
(`StatFields`), and the stale-ownership reports (`OwnershipReports`).

**The service runtime** (`tools/tcpcc_cli.py`): `ServiceRuntime` is the object
that accepts, bridges, joins, drains and shuts down, against a hosted kernel
whose every answer is arbitrary; `ServiceRun` is `run_service` around it.

**The native supervisor** (`native/tcpcc_cli.c`): `Forwards` says which routes
are accepted and what they mean once the firewall's DNAT and the hosted listeners
compose; `Supervisor` is acquisition and cleanup, and `NativePolicies` is what
its iptables commands do to the nat table from the first to the last.

**The control ABI** (`tools/tcpcc_control.py`, `native/tcpcc_control.c`):
`ControlCodec` packs and unpacks the fixed records, `ControlPipes` moves them
through pipes that split and interrupt every transfer.

Results that are not what one might expect:

- A firewall lease that comes back without a resource name or a textual backend
  is neither journaled nor closed, so the acquisition is all-or-nothing exactly
  when that does not happen (`HostNetwork.Acquire`,
  `HostNetwork.MalformedLeaseLeaks`).
- An `iptables-restore` that reports failure after taking effect is not undone:
  the flushed chain stays referenced and deleting it fails
  (`NatTables.LateRestoreStays`).  A chain creation that reports failure after
  taking effect leaves an empty chain that nobody removes
  (`NatTables.LateCreationStays`).  `NatTables.Install` says exactly when a
  failing install leaves the table as it was; `NativePolicies.RunPolicies` says it
  of a whole run of the native supervisor, which ignores the results of its
  rollback (`NativePolicies.SecondJumpStays`).
- The Python reader of `/proc/<pid>/stat` fails on a command name that is not ASCII
  and the C reader does not (`StatFields.ReadersAgree`, `StatFields.ReadersDiffer`),
  so a running owner with such a name is reported as stale and blocks every start
  (`OwnershipReports.RunningOwnerActiveIff`).
- The native supervisor puts its ownership marker on the jumps in PREROUTING too,
  so two of its routes make the Python inspection report PREROUTING as malformed
  and block every start, although their owner runs
  (`OwnershipReports.NativeBlocksIff`, `OwnershipReports.TwoRoutesBlock`).
- The public address of a route is lost in the DNAT, so routing is faithful
  exactly when routes on one port agree on their backend
  (`Forwards.FaithfulIffAgreeing`); the check for distinct ports guarantees it.
- A hosted process that survives `_force_stop` before the L3 attach makes
  `shutdown` raise that error alone, and failures collected afterwards are
  dropped (`ServiceRuntime.PipeFailureLost`); `ServiceRuntime.Runtime.ShutDown`
  says exactly when, and that nothing is dropped otherwise.
- A control transaction whose answer did not come in time, or whose request went
  out in part, leaves every later one reading too early; one that sent nothing does
  no harm, and alignment holds exactly until one of the others
  (`ControlPipes.AlignedIff`, `ControlPipes.UnsentDoesNoHarm`,
  `ControlPipes.LateAnswerTaken`, `ControlPipes.PartlySentMisframes`).
- Sessions can wait for a buffer with budget to spare, exactly while the dispatcher
  is in the middle of waking them (`BridgeTheorems.BuffersAccounted`); such a state
  is reachable (`BridgeScarcity.WaitersWithSpare`).

## Model

| member | source | states |
|---|---|---|
| BridgeAllocating.RunInv | linux-overlay/arch/tcpcc/kernel/bridge.c:898-939 | The invariant holds in every state of every run, from the initial state, under every interleaving of dispatcher, control thread, callbacks and host events. |
| BridgeRounds.HandleKeeps | linux-overlay/arch/tcpcc/kernel/bridge.c:724-836 | Every dispatcher step with a session in hand (event delivery, both pumps, stop, finish, buffer hand-over) keeps the invariant, whatever the sockets answer. |
| BridgeRounds.LoopKeeps | linux-overlay/arch/tcpcc/kernel/bridge.c:867-939 | Every step of the dispatcher's main loop (sleeping, taking the pending mark, reading the stop mark, splicing and freeing the retired list, polling, taking from the ready queue) keeps the invariant. |
| BridgeWorld.HappenKeeps | linux-overlay/arch/tcpcc/kernel/bridge.c:273-359 | Every socket edge, host event, notifier call and callback step, with flag setting, queueing and waking apart, keeps the invariant. |
| BridgeAllocating.BeginKeeps | linux-overlay/arch/tcpcc/kernel/bridge.c:1039-1113 | Beginning any control operation keeps the invariant: session allocation, also when the memory for the slot or for the session is missing, join, cancel of one session and cancel of all. |
| BridgeStarting.ContinueKeeps | linux-overlay/arch/tcpcc/kernel/bridge.c:1474-1502 | The control thread's moves between sessions (the two loops of cancel, waking and waiting for the dispatcher) keep the invariant. |
| BridgeOperations.OperateKeeps | linux-overlay/arch/tcpcc/kernel/bridge.c:1115-1352 | Every control step on a session (connect, failed start, disabling events, reap, stop) keeps the invariant. |
| BridgeTheorems.NoUseAfterFree | linux-overlay/arch/tcpcc/kernel/bridge.c:1291-1352 | A freed session is on no list, in no slot and on no active list, in no thread's hands, has no callback inside its socket lock, no event reference and no buffer. |
| BridgeTheorems.CancelLeavesNothing | linux-overlay/arch/tcpcc/kernel/bridge.c:1474-1502 | Whenever there is no dispatcher thread, as after cancel returned, every session ever started has been freed and is unreferenced, no slot is bound and the buffer counter is zero. |
| BridgeTheorems.AwaitedIdleComes | linux-overlay/arch/tcpcc/kernel/bridge.c:1156-1173 | A reap waiting for event references to drop has been answered, or the dispatcher is handling an event of that session. |
| BridgeTheorems.NoLostWakeup | linux-overlay/arch/tcpcc/kernel/bridge.c:469-531 | A running session that is not stopping, not queued, not being pumped and about to be queued by nobody has no enabled work in either direction. |
| BridgeTheorems.Quiescence | linux-overlay/arch/tcpcc/kernel/bridge.c:533-722 | With no notification under way the same is true of the sockets themselves: each direction is done, lacks room for unsent bytes, waits for a buffer, or has no input; and a finished pair on a closed socket does not linger. |
| BridgeTheorems.StopsProgress | linux-overlay/arch/tcpcc/kernel/bridge.c:408-439 | A session told to stop and not yet finished has a nonzero status and is on the ready queue, or is being taken, finished or queued by the dispatcher, or about to be queued by the control thread. |
| BridgeTheorems.SocketsOpen | linux-overlay/arch/tcpcc/kernel/bridge.c:408-439 | Sockets are called only while open: the pump sends, receives and half-closes on a running session with its callbacks installed, and the shutdown after a failure, an error event or a cancel finds both sockets open and the session in use. |
| BridgeTheorems.NeverAsleepOnWork | linux-overlay/arch/tcpcc/kernel/bridge.c:898-939 | Asleep with its pending flag clear and nobody between adding and waking, the dispatcher has an empty ready queue and retired list, and every unpolled event still has a notifier call to come. |
| BridgeTheorems.StreamsFaithful | linux-overlay/arch/tcpcc/kernel/bridge.c:533-627 | Each direction has sent a prefix of what it received, and half-closed only after the end of stream was read and every byte sent. |
| BridgeTheorems.StreamsExact | linux-overlay/arch/tcpcc/kernel/bridge.c:629-722 | While a session runs, bytes received are bytes sent followed by the unsent part of the buffer, and the counter is the number of bytes sent. |
| BridgeTheorems.JoinZeroMeansComplete | linux-overlay/arch/tcpcc/kernel/bridge.c:1354-1384 | A join that returned 0 belongs to a session that forwarded both streams completely up to their ends, counted them, and half-closed both sides. |
| BridgeTheorems.BuffersAccounted | linux-overlay/arch/tcpcc/kernel/bridge.c:198-271 | The buffer counter is 16 KiB times the buffers held and at most 256 KiB; while sessions wait it is used up if and only if the dispatcher is not just waking them, and while it wakes them at least one buffer is to spare. |
| BridgeTheorems.WaitersWithBudget | linux-overlay/arch/tcpcc/kernel/bridge.c:577-621 | One way into that exception: when a receive blocks while sessions wait, the next state has waiters and exactly one buffer to spare. |
| BridgeScarcity.WaitersWithSpare | linux-overlay/arch/tcpcc/kernel/bridge.c:198-271 | Both sides of that condition are reachable from the initial state: a session waits with the budget used up, and a session waits with a buffer to spare while the dispatcher wakes. |
| BridgeScarcity.ReachBegun | linux-overlay/arch/tcpcc/kernel/bridge.c:1215-1289 | Any number of sessions up to the slot limit can be started one after the other before the dispatcher first moves. |
| BridgeTheorems.WaitersMarked | linux-overlay/arch/tcpcc/kernel/bridge.c:219-248 | A session is on the waiter list exactly when one of its directions is marked as waiting. |
| BridgeTheorems.NoIdleBuffers | linux-overlay/arch/tcpcc/kernel/bridge.c:577-621 | Outside the pump a held buffer implies a set source flag, and outside the ready queue it implies unsent bytes. |
| BridgeTheorems.ExactlyOnce | linux-overlay/arch/tcpcc/kernel/bridge.c:441-467 | Each session is signalled at most once, reaped at most once and only after it was signalled, and has a join result exactly when reaped. |
| BridgeTheorems.StaleHandleFindsNothing | linux-overlay/arch/tcpcc/kernel/bridge.c:1011-1037 | The handle of a session no longer bound never finds it again, and finds nothing until its slot was given out 2047 times more. |
| BridgeTheorems.JoinedHandleIsDead | linux-overlay/arch/tcpcc/kernel/bridge.c:1354-1384 | Once a join returned a status, join and cancel on that handle find nothing and change nothing until its slot was given out 2047 times more. |
| BridgeTheorems.LiveHandles | linux-overlay/arch/tcpcc/kernel/bridge.c:1055-1080 | The handle of a bound session finds that session, and no two bound sessions share a handle. |
| BridgeTheorems.RegistryPartitioned | linux-overlay/arch/tcpcc/kernel/bridge.c:976-1009 | Between any two steps every slot is free-listed once or bound to exactly one active session, and every active session has its own slot. |
| BridgeHistory.NothingTakenBack | linux-overlay/arch/tcpcc/kernel/bridge.c:408-467 | Along every run the first nonzero status and the join result of a session never change, its byte streams only grow, and retirement and freeing are final. |
| BridgeProgress.HandleCloser | linux-overlay/arch/tcpcc/kernel/bridge.c:724-762 | Every dispatcher step with a session in hand lowers a rank or shortens the waiter list, whatever the sockets answer. |
| BridgeProgress.LetsGo | linux-overlay/arch/tcpcc/kernel/bridge.c:724-762 | Over every stretch of a run in which the dispatcher has a session in hand, and whatever the others do meanwhile, its steps are bounded by a number fixed at the beginning: no pump, drain or stop goes on for ever. |
| BridgeBystanders.OthersAside | linux-overlay/arch/tcpcc/kernel/bridge.c:273-359 | A step of the control thread or the world never moves a dispatcher that has a session in hand, nor the waiter list, nor the buffer counter, and changes a lane only by setting flags. |
| BridgePumpRuns.PumpRuns | linux-overlay/arch/tcpcc/kernel/bridge.c:533-722 | From the head of the loop to its end, under every interleaving, the dispatcher's steps take the lane where Pumped takes it, with its status and number of operations; and every flag that Pumped is told was set late in a turn was set in the run by somebody else, while the dispatcher was inside that turn. |
| BridgePumpLeaves.LeavesBlocked | linux-overlay/arch/tcpcc/kernel/bridge.c:533-722 | In every run, when the dispatcher leaves a lane with operations to spare and no error, the lane is blocked but for flags that somebody else set during the dispatcher's last turn on it. |
| BridgePump.Pump | linux-overlay/arch/tcpcc/kernel/bridge.c:533-627 | The loop over the in-place buffer computes the function Pumped of the lane, the budget in use and the socket answers, frames everything else, and behaves as PumpedWell says. |
| BridgePump.PumpsWell | linux-overlay/arch/tcpcc/kernel/bridge.c:629-722 | For every schedule of answers and flag edges, edges inside a turn included: at most 32 operations, one for every turn but possibly the last, each but the last moving a byte; short of the budget the loop ends in an error or a lane that is blocked but for the flags set inside that very last turn; done only with everything sent; waiting only with the buffer budget used up. |
| BridgePump.TurnOfWell | linux-overlay/arch/tcpcc/kernel/bridge.c:538-621 | One turn of the loop keeps received bytes equal to sent bytes plus the unsent part, only extends the streams, and whenever it ends the loop without an error the lane is blocked but for the flags set after they were taken. |
| BridgePump.Direction.SendTurn | linux-overlay/arch/tcpcc/kernel/bridge.c:540-573 | The send half, in place, computes SendTurned: partial writes, EAGAIN, errors and zero-length sends. |
| BridgePump.Direction.ReceiveTurn | linux-overlay/arch/tcpcc/kernel/bridge.c:597-621 | The receive half, in place, computes ReceiveTurned and returns the buffer on EAGAIN and at the end of the stream. |
| BridgePump.Direction.AcquireBuffer | linux-overlay/arch/tcpcc/kernel/bridge.c:198-217 | Succeeds exactly when a buffer is held already or 16 KiB fit the 256 KiB budget, and charges the budget exactly once. |
| BridgePump.Direction.ReleaseBuffer | linux-overlay/arch/tcpcc/kernel/bridge.c:250-258 | Gives the buffer and its 16 KiB back and loses no byte. |
| Lanes.SendKeepsStream | linux-overlay/arch/tcpcc/kernel/bridge.c:548-573 | Sending any part of the unsent bytes keeps received == sent + unsent. |
| Lanes.ReceiveKeepsStream | linux-overlay/arch/tcpcc/kernel/bridge.c:594-621 | Receiving into the front of an empty buffer keeps received == sent + unsent. |
| Handles.HandleRoundTrip | linux-overlay/arch/tcpcc/kernel/bridge.c:117-121 | Handles are positive 31-bit numbers that decode to their slot and generation; tokens decode to the same slot. |
| Handles.HandlesInjective | linux-overlay/arch/tcpcc/kernel/bridge.c:117-121 | Equal handles have equal slots and generations. |
| Handles.GenerationClosedForm | linux-overlay/arch/tcpcc/kernel/bridge.c:123-130 | The generation of the n-th session on a slot in closed form: it cycles through 1 to 2047. |
| Handles.StaleHandleBound | linux-overlay/arch/tcpcc/kernel/bridge.c:123-130 | Two sessions of one slot share a handle, and an event token, exactly when their ordinals differ by a multiple of 2047. |
| SlotRegistry.BindPartitions | linux-overlay/arch/tcpcc/kernel/bridge.c:1055-1113 | Binding a session to the next slot keeps the partition of slots into free and bound. |
| SlotRegistry.UnbindPartitions | linux-overlay/arch/tcpcc/kernel/bridge.c:1332-1345 | So does releasing it. |
| SlotRegistry.ExhaustedWhenAllBound | linux-overlay/arch/tcpcc/kernel/bridge.c:976-1009 | The id range runs out exactly when all 1048575 slots are bound. |
| SlotRegistry.FindHandleSpec | linux-overlay/arch/tcpcc/kernel/bridge.c:1011-1037 | A handle of a slot finds the session bound there exactly when the two ordinals are congruent modulo 2047, and nothing otherwise. |
| SlotRegistry.Table.TakeSlot | linux-overlay/arch/tcpcc/kernel/bridge.c:976-1009 | In place: the most recently freed slot, else a new id, else none; the rest of the table unchanged. |
| SlotRegistry.Table.Allocate | linux-overlay/arch/tcpcc/kernel/bridge.c:1039-1113 | In place: the result is Bind of the old table, or, when the session cannot be allocated, the slot is back on the free list with its generation unchanged. |
| SlotRegistry.Table.Release | linux-overlay/arch/tcpcc/kernel/bridge.c:1186-1213 | In place: the result is Unbind of the old table, and stays partitioned. |
| SlotRegistry.Table.Find | linux-overlay/arch/tcpcc/kernel/bridge.c:1011-1037 | Finds what FindHandle says: out-of-range, unbound and stale handles find nothing. |
| HostCleanup.OwnershipJournal.Defer | tools/tcpcc_host.py:587-592 | Appends one callback, or reports a closed journal, an empty label or a failed append and changes nothing. |
| HostCleanup.OwnershipJournal.Close | tools/tcpcc_host.py:594-607 | Runs every callback exactly once, newest first, whatever each raises, reports every failure in that order, and does nothing the second time. |
| HostCleanup.FailuresExactly | tools/tcpcc_host.py:594-607 | A failure is reported exactly when one of the callbacks with that label raised that error. |
| HostCleanup.ReversedAt | tools/tcpcc_host.py:594-607 | The cleanup order is the acquisition order reversed, position by position. |
| HostNetwork.Acquire | tools/tcpcc_host.py:2194-2299 | Succeeds exactly when nothing fails, with both resources open and journaled after whatever the journal held; otherwise closes what it covers and what the journal held, once, in reverse order, before the first error leaves with every cleanup failure; and what it closed is all of that, newest first, if and only if it did not end at a malformed firewall lease. |
| HostNetwork.RollBack | tools/tcpcc_host.py:2156-2175 | A resource that could not be registered is closed first, then the journal; all failures are kept. |
| HostNetwork.MalformedLeaseLeaks | tools/tcpcc_host.py:2267-2299 | A run of Acquire that takes a nameless lease and closes only the TUN. |
| HostNetwork.CloseLease | tools/tcpcc_host.py:2152-2153 | Releases the firewall policy, then the TUN, then whatever the journal held before, each once, and reports every failure. |
| TunQueues.CreateTunQueue | tools/tcpcc_host.py:670-778 | Every descriptor opened is returned or closed once, in order; attempts are repeated only on collisions of generated names, up to the limit; the error is the one of the deciding attempt. |
| TunQueues.CollisionsSpec | tools/tcpcc_host.py:700-778 | The attempts repeated are exactly the leading ones that collide. |
| TunQueues.TunQueue.Close | tools/tcpcc_host.py:631-636 | Closes the descriptor the first time and never again. |
| NatTables.Install | tools/tcpcc_host.py:1942-2006 | For every fate of every command: when a lease results, when the creation failed, the table and the flags after a rollback; and a failing install leaves a well-formed table as it was if and only if neither the creation nor the batch took effect late and the deletion was carried out. |
| NatTables.UndoneIff | tools/tcpcc_host.py:1968-2000 | After a created chain and a failed batch the rollback restores the table if and only if the batch did not take effect and the deletion did. |
| NatTables.InstallNative | native/tcpcc_cli.c:1327-1368 | The three native commands: success exactly when all run, and then the instance is in place; a failing install leaves a well-formed table as it was if and only if the stated fates of its commands and of its unchecked rollback are met, and leaves its chain otherwise. |
| NatTables.IptablesDnatLease.Close | tools/tcpcc_host.py:1731-1772 | Runs the three removal commands in order whatever each does, once, and reports exactly the failing ones. |
| NatTables.InstallThenCloseIsIdentity | tools/tcpcc_host.py:1606-1624 | From any well-formed table without the chain, install followed by close restores the table exactly. |
| NatTables.CloseRemovesExactly | tools/tcpcc_host.py:1731-1772 | Closing removes exactly the instance, whatever others have done to the table since. |
| NatTables.RollbackRestores | tools/tcpcc_host.py:1968-2000 | If the rollback's delete succeeds, the table is what it was before the install, even after a batch that failed late and for tables of any shape. |
| NatTables.FailedCreateTouchesNothing | tools/tcpcc_host.py:1942-1967 | A chain creation that fails because the chain exists leaves every chain as it was. |
| NatTables.LateRestoreStays | tools/tcpcc_host.py:1968-2000 | A run of Install whose batch fails after it took effect: the rollback fails and the jump and the flushed chain stay. |
| NatTables.LateCreationStays | tools/tcpcc_host.py:1942-1967 | A run of Install whose creation fails after it took effect: the empty chain stays. |
| OwnershipMarkers.MarkerRoundTrip | tools/tcpcc_host.py:886-890 | A comment parses as an owner if and only if it is that owner's printed marker. |
| OwnershipMarkers.PrintedReadsBack | tools/tcpcc_host.py:31-35 | The printed pid, start time and TUN name parse back unchanged. |
| OwnershipMarkers.ParsedIsMarker | tools/tcpcc_host.py:31-35 | Whatever the pattern accepts is exactly a printed marker. |
| StatFields.ReadersAgree | tools/tcpcc_host.py:938-955 | For every command name, with any parentheses, spaces or line ends in it, the Python and the C reader take the same start time if and only if the name is ASCII. |
| StatFields.PythonReads | tools/tcpcc_host.py:938-955 | The Python reader takes field 22, of any size, if and only if the command name is ASCII, and fails otherwise. |
| StatFields.CReads | native/tcpcc_cli.c:861-913 | The C reader takes field 22 whatever octets the command name has, if and only if it fits 64 bits. |
| StatFields.ReadersDiffer | tools/tcpcc_host.py:75-76 | A stat line with one accented letter on which C gives the start time and Python fails. |
| StatFields.ScanStartTime | native/tcpcc_cli.c:878-913 | The cursor loop returns the twentieth space-separated word after the last parenthesis, as a number, or fails. |
| StatFields.FindParen | native/tcpcc_cli.c:888-891 | Finds one past the last closing parenthesis. |
| OwnershipReports.InspectNft | tools/tcpcc_host.py:999-1084 | One observation for every marked rule of the family, arranged by table name. |
| OwnershipReports.ArrangeSorts | tools/tcpcc_host.py:1083-1084 | Arranging sorts by resource name, keeps every observation, and keeps the ruleset order of those of one resource. |
| OwnershipReports.NftBlocksIff | tools/tcpcc_host.py:999-1084 | For every ruleset the report blocks if and only if some marked rule of the family has no proper table name, a marker that cannot be read, or an owner that is gone, unreadable or whose pid was reused. |
| OwnershipReports.NftInstalledBlocksIff | tools/tcpcc_host.py:999-1084 | Over installed instances it blocks exactly when the owner of one of them is not current. |
| OwnershipReports.CollectMarkers | tools/tcpcc_host.py:1876-1902 | The first loop collects exactly the reserved chains and, for each chain, its markers in order. |
| OwnershipReports.InspectIptables | tools/tcpcc_host.py:1876-1925 | One observation for every chain that is reserved or marked, and for no other, in strictly increasing order of chain name; a chain without one single marker is reported as malformed. |
| OwnershipReports.IptablesBlocksIff | tools/tcpcc_host.py:1817-1874 | For every table the report blocks if and only if some chain that is reserved or marked has not exactly one marker, no proper name, an unreadable marker, or an owner that is not current. |
| OwnershipReports.IptablesInstalledBlocksIff | tools/tcpcc_host.py:1817-1874 | Over chains with one marker each it blocks exactly when the owner of one of them is not current. |
| OwnershipReports.NativeBlocksIff | native/tcpcc_cli.c:1327-1368 | A table with the routes of one running native instance blocks if and only if there are two routes or more. |
| OwnershipReports.TwoRoutesBlock | tools/tcpcc_host.py:1903-1922 | The inspection of such a table with two routes blocks. |
| OwnershipReports.RunningOwnerActiveIff | tools/tcpcc_host.py:1846-1865 | The marker of a running process is found active if and only if the process's command name is ASCII, and stale otherwise. |
| ServiceRuntime.Runtime.Start | tools/tcpcc_cli.py:659-721 | The six transactions in order up to the first that fails; attached and listener are set exactly when their answers are positive. |
| ServiceRuntime.Runtime.Settle | tools/tcpcc_cli.py:837-882 | An accepted connection is handed to a bridge or sent a close: the operations sent, the failure returned and the active set are each stated as a function of the two answers. |
| ServiceRuntime.Runtime.AcceptAvailable | tools/tcpcc_cli.py:816-882 | Accepts until the limit is reached, nothing is waiting, an answer is bad or every waiting connection was taken; keeps the limit, every accepted handle settled, and the active set exact. |
| ServiceRuntime.Runtime.Join | tools/tcpcc_cli.py:746-793 | A bridge leaves the active set exactly on a terminal answer; a timeout and a malformed answer keep it. |
| ServiceRuntime.Runtime.Reap | tools/tcpcc_cli.py:795-797 | Asks active bridges only, each once, and all of them unless an answer is bad; keeps the accounts of the run. |
| ServiceRuntime.Runtime.Serve | tools/tcpcc_cli.py:884-892 | Any number of rounds keeps the limit, the settlement of every accepted handle and the exactness of the active set; each finished round asked every live bridge once and then accepted until the limit, EAGAIN or its last waiting connection; it fails exactly when it ends before the last round, and then the process exited, nobody listens, or an answer of that round was bad. |
| ServiceRuntime.Runtime.Pass | tools/tcpcc_cli.py:924-938 | One pass asks each bridge at most once, and all of them unless the deadline or a failure comes first. |
| ServiceRuntime.Runtime.Drain | tools/tcpcc_cli.py:910-949 | Draining ends with no active bridge, at the deadline, or with a failure, and has only sent joins for active bridges. |
| ServiceRuntime.Runtime.CancelAll | tools/tcpcc_cli.py:979-987 | Cancels exactly the remaining bridges, each once, and collects a failure exactly when an answer is bad. |
| ServiceRuntime.Runtime.JoinAll | tools/tcpcc_cli.py:988-1003 | Joins each remaining bridge once and leaves none active, failures or not. |
| ServiceRuntime.Runtime.Unwind | tools/tcpcc_cli.py:961-1015 | With a live attached kernel the trace is listener close, drain joins, cancels, joins, SHUTDOWN; the active set ends empty; clean exactly when every answer was good and the exit status is 0. |
| ServiceRuntime.Runtime.ShutDown | tools/tcpcc_cli.py:951-1044 | Both pipes are closed exactly once and last and a second call does nothing; the stop error escapes alone exactly when the process is alive, not attached and does not stop; otherwise the failures reported are exactly those of the teardown, the exit and the pipes, in order. |
| ServiceRuntime.CleanIff | tools/tcpcc_cli.py:961-1044 | There is no failure to report if and only if every answer was good, the kernel exited with status 0 and both pipes closed. |
| ServiceRuntime.PipeFailureLost | tools/tcpcc_cli.py:951-1044 | A run of ShutDown in which the standard input would not close and only the stop error leaves. |
| HostedProcess.Process.ForceStop | tools/tcpcc_cli.py:900-908 | Terminate, then kill; reports a stuck process exactly when no observation saw it end. |
| ServiceRun.RunHosted | tools/tcpcc_cli.py:1079-1118 | From creation to shutdown: there is a primary failure if and only if the six calls of the start were not all answered well or serving ended before its last round; a spawned process has both pipes closed exactly once, and the failures of the outcome are exactly those of the stage the shutdown found. |
| ServiceRun.RunService | tools/tcpcc_cli.py:1047-1136 | Whatever fails, each acquired host resource is released exactly once, firewall before TUN, and when each callback ran the process had done all it ever does; the cleanup failures are exactly those of the runtime and of the lease; the result is Stopped if and only if the service completed and there was none, Failed if and only if it did not complete and there was none. |
| Forwards.Config.ValidateNewListen | native/tcpcc_cli.c:313-332 | Accepts a listener exactly when the routes stay consistent with it, and says which rule it breaks. |
| Forwards.Config.AddForward | native/tcpcc_cli.c:334-350 | Adds the route exactly when it parses, fits and finds memory; a rejected forward changes nothing. |
| Forwards.Config.AddForwards | native/tcpcc_cli.c:296-350 | After any sequence of forwards the routes are exactly the accepted ones, of one family with distinct ports. |
| Forwards.FaithfulIffAgreeing | native/tcpcc_cli.c:313-332 | DNAT to the guest followed by listener lookup sends every public endpoint to its own backend, and nothing else anywhere, if and only if routes on one port agree on the backend. |
| Forwards.AcceptedFaithful | native/tcpcc_cli.c:334-350 | Whatever forwards are given, the accepted routes are consistent and faithful. |
| Supervisor.StartRoute | native/tcpcc_cli.c:1539-1585 | A started route has a listener on its own port with its own backend. |
| Supervisor.StartRoutes | native/tcpcc_cli.c:1492-1585 | Success means exactly one listener per route, in order, under one aggregate service handle; failure leaves those of a prefix. |
| Supervisor.RoutesDeliver | native/tcpcc_cli.c:1297-1325 | The installed policies and the started listeners together deliver every public endpoint to its own backend. |
| Supervisor.InstallAll | native/tcpcc_cli.c:1800-1804 | Installs policies in order up to the first failure; flags and policies in force are exactly those installed; what a failed install leaves behind is recorded, for that one policy only. |
| Supervisor.CloseAll | native/tcpcc_cli.c:1837-1840 | Attempts each installed policy once, last first, clears every flag, and succeeds exactly when none is left in force. |
| Supervisor.CloseFirst | native/tcpcc_cli.c:1837-1840 | A policy is still in force after the cleanup exactly when its own removal failed. |
| Supervisor.ClosesExactly | native/tcpcc_cli.c:1431-1469 | The cleanup closes exactly the installed policies. |
| Supervisor.ClosesReverse | native/tcpcc_cli.c:1837-1840 | In strictly decreasing order of index. |
| Supervisor.ClosesOnce | native/tcpcc_cli.c:1837-1840 | None of them twice. |
| Supervisor.RunChild | native/tcpcc_cli.c:1805-1836 | A spawned process is waited for or killed at the end; traffic is served only while the routes deliver. |
| Supervisor.Run | native/tcpcc_cli.c:1743-1855 | From every failure point: policies closed in reverse before the TUN; exactly the policies whose removal failed stay in force; besides them only the one failed install can leave something, exactly when its rollback does; exit status 0 exactly when everything succeeded and no policy is left. |
| NativePolicies.InstallPolicies | native/tcpcc_cli.c:1800-1804 | Over the nat table: the first policies whose commands run are in place, in order, and the first that fails leaves nothing exactly under the condition of InstallNative. |
| NativePolicies.RemovePolicies | native/tcpcc_cli.c:1431-1469 | Runs the three removal commands of each policy, last first, whatever each does, and succeeds exactly when all of them do. |
| NativePolicies.InstalledGoes | native/tcpcc_cli.c:1837-1840 | Removing any number of installed policies gives back the table they were installed into. |
| NativePolicies.RunPolicies | native/tcpcc_cli.c:1800-1840 | From the first install to the last removal, the removals running: the table is what it was if and only if every install went through or the failing one left nothing, which is what Supervisor is told of it. |
| NativePolicies.SecondJumpStays | native/tcpcc_cli.c:1353-1366 | A run with two policies in which the second jump fails after it took effect and the table is not restored. |
| ControlCodec.RequestRoundTrip | tools/tcpcc_control.py:192-218 | Every request in range encodes to 280 bytes that decode to the same fields. |
| ControlCodec.ResponseExactly | tools/tcpcc_control.py:221-253 | A record is accepted, with a given response, if and only if it is the record of that response to the expected operation. |
| ControlCodec.ResponseReadsBack | tools/tcpcc_control.py:221-253 | The record of any response decodes to it. |
| ControlPipes.WriteExact | native/tcpcc_control.c:111-136 | For every schedule of partial writes and interruptions, the bytes written and the error: success has written exactly the record, failure a proper prefix of it. |
| ControlPipes.ReadExact | native/tcpcc_control.c:138-164 | For every schedule of partial reads and interruptions, the bytes moved and the error: success has moved exactly that many bytes, failure fewer. |
| ControlPipes.Transact | native/tcpcc_control.c:187-247 | For every schedule: how much of the request went out, how much of the answer stream was read, and which outcome; a request that does not encode moves nothing, one that did not go out whole reads nothing. |
| ControlPipes.Converse | tools/tcpcc_control.py:475-503 | After any number of successful transactions both pipes stand on record boundaries and the i-th answer was decoded from the i-th record for the i-th request. |
| ControlPipes.AnswersBelong | tools/tcpcc_control.py:475-503 | If the other side answers in order, every answer is returned for the request it belongs to. |
| ControlPipes.Persist | tools/tcpcc_control.py:475-503 | Transactions after failed ones: where on the request pipe each of them wrote and which bytes, where in the answer stream it read, and what it made of them. |
| ControlPipes.AlignedIff | tools/tcpcc_control.py:475-503 | A transaction begins a request frame and reads the answer to that frame if and only if no earlier one went unanswered and none failed with part of its request written; otherwise it reads too early. |
| ControlPipes.OwnReply | linux-overlay/arch/tcpcc/kernel/control.c:1126-1152 | Against a kernel that answers whole frames in order, every answer until then is its reply to that very request. |
| ControlPipes.UnsentDoesNoHarm | native/tcpcc_control.c:119-121 | A transaction that times out before its first write, and a second that gets its own answer. |
| ControlPipes.LateAnswerTaken | native/tcpcc_control.c:221-226 | A transaction that times out before its answer, and a second of the same operation that gets that answer. |
| ControlPipes.PartlySentMisframes | native/tcpcc_control.c:111-136 | A request sent in part: the other side's first frame is its beginning followed by the beginning of the next request. |

## Left out

- The fatal dispatcher path after a failed host poll (`tcpcc_bridge_abort_all`), and kernel panics: polling succeeds in every run.
- Memory ordering, interrupts and lock internals: a critical section is one step.
- The order of host events and callbacks among themselves: they are unordered multisets, which allows every order.
- Diagnostic counters (EAGAIN counts, partial writes, high-water marks, terminal event bits) and the completion notifier's data.
- The width of the 64-bit byte counters: they are unbounded here.
- Two sessions sharing one public socket: each session has its own.
- BridgeProgress.LetsGo: bounds the dispatcher's own steps on one session; no fairness of the scheduler is assumed, so nothing is claimed about when a runnable thread runs.
- TCP, epoll, sockets and host system calls: answers are arbitrary counts, ends, EAGAIN and errors.
- Address parsing and formatting, TOML and command-line parsing, JSON events, preflight checks, ELF checks: addresses are opaque values with a family, and parsers appear by their results.
- The text of nftables and iptables commands, TUN address commands, and the scanner `tcpcc_check_ownership_text`: rules are values.
- ControlPipes.WriteExact: models the native loop; the Python client's single write, which reports a short write as an error, is not modelled.
- Service configuration, service statistics and bridge result payload layouts.
- StatFields.ReadersAgree: `int()` with signs or underscores is not modelled, and the lines are those the kernel prints: no NUL octets, shorter than the 4096 octets C reads at once.
- ServiceRuntime.Runtime.AcceptAvailable: the loop is bounded by the number of connections that can be waiting, since the source has no other bound when there is no connection limit.
- ServiceRuntime.Runtime.Drain: the clock appears as the number of joins that fit before the deadline.
- ServiceRun.RunService: signal handler installation and event output are not modelled; stop requests may come before start, before serving or after any number of rounds.
- Supervisor.Run: a failing firewall removal leaves its policy in force as a whole, and a failing install leaves something behind or nothing; the commands of one install or removal are separate in NatTables and NativePolicies only, and those are about iptables, not nftables.
- NativePolicies.RunPolicies: says when the table is restored if the removal commands run; what each failing removal command leaves is NatTables.IptablesDnatLease.Close.
- OwnershipReports.NativeBlocksIff: one native instance alone in the table; with others the general condition of IptablesBlocksIff applies.
