# A verified model of the TTLock BLE integration's state machines

The integration keeps one Bluetooth session with each lock, sends explicit
lock and unlock commands over it, publishes the lock's state to Home Assistant,
keeps private labels for access credentials, and replays the lock's operation
log without emitting old records again. This project models those parts in Dafny
and proves what they are for. `dafny verify dfyconfig.toml` checks all of it.

- `Basics.dfy`: an optional value, and a call that returns or raises.
- `Ledger.dfy`: the session protocol as an automaton over recorded events: the
  mutex, acquisitions with their clock, ownership and teardown of clients,
  announcements, stops and starts, control requests.
- `LedgerTheorems.dfy`: what every run of that automaton satisfies.
- `Client.dfy`: `TtlockBleClient`, which tracks how far one control command got.
- `Connection.dfy`: `TtlockBleConnection`. Each method holds the mutex as its
  original does. At every `await` it calls `Interfere`, which fires any number of
  disconnect callbacks, stops, starts and cancellations and advances the clock;
  what the awaited call then did is arbitrary. Every step is recorded, and the
  record is proved to stay a run of the automaton, so that the theorems hold of
  everything the class does.
- `Coordinator.dfy`: `TtlockBleDataUpdateCoordinator` as one last-writer-wins
  register per lock, with any number of overlapping aggregations.
- `LockEntity.dfy`: `TtlockBleLock`, its settle window and in-flight flags.
- `CredentialReferences.dfy`: the keyed handle of a credential record.
- `AccessRecords.dfy`: one reconciliation of an inventory with stored records.
- `AccessSteps.dfy`, `AccessTheorems.dfy`, `AccessStore.dfy`: the record store as
  steps between awaits, what every run of them satisfies, and the class.
- `LogHistory.dfy`: the bounded replay journal of the operation log.

Assumptions about what is not modelled from its source:

- The Bluetooth SDK writes the control opcode at most once in its control
  exchange, sends only authentication frames before it and none in it; a control
  call that is cancelled before its first control write ends without writing; a
  control call returns exactly on an accepted reply, and raises on a matching
  reply only if it was rejected. Every await of the SDK ends.
- SHA-256 and HMAC are injective, and random tokens never repeat: a token is the
  pair of key and material, and references are numbered in the order drawn.
- Clocks never run backwards. A stored file is replaced as a whole or not at all,
  and a caller can be cancelled after it was replaced and before it is told.
- Setup hands the record store out only once its load has returned
  (`custom_components/ttlock_ble/__init__.py:123-134`).
- `records_complete` is an input. Where a property needs an inventory without
  duplicates, or each ticket to be used once, its row says so.

Properties that the code has only under a condition:

- An inventory read is meant never to queue. `asyncio.Lock.locked()` is false
  while the lock is on its way to a waiter, so a read can pass its gate and queue;
  cancelled there, it leaves whatever session the waiter opened
  (`QueuedReadMayLeaveClient`). `GateDecides` says that these are exactly the reads
  that may exit with a client installed.
- The connect timeout is armed a moment after its length was decided;
  `ArmedWindow` says for every connect when it still ends within the deadline.
- A scope is kept over a restart exactly if it is as it was at the last save that
  replaced the file (`RestartKeeps`). Records live on over every run in which each
  restart finds it so (`RecordsLive`), however many saves failed in between, and
  so over every run that loses no save (`SavesPersist`). `UnsavedPinIsReplaced` is
  a run, without any reset, in which a PIN gets a second reference because the
  save of the first failed before a restart.
- A ticket used a second time can leave a fresh scope showing retired records as
  observed (`ReusedTicketMisleads`); `ReusedTicket` says exactly when it does.
- A loaded journal that lists one identity twice lets its mirror set forget an
  identity that the deque still holds (`MirrorSurvives`, `DuplicateBreaksMirror`).
- A battery level may depend on the order of delivery; `BatteryOrder` says exactly
  when, and `BatteryFollowsDelivery` gives an example.

## Model

| member | source | states |
|---|---|---|
| LedgerTheorems.UnretiredIsOwned | custom_components/ttlock_ble/connection.py:974-989 | at every point of every run, the client that is owned is exactly the one that was created and not yet retired |
| LedgerTheorems.AtMostOneUnretired | custom_components/ttlock_ble/connection.py:909-989 | at most one created client is unretired, and it is the latest created |
| LedgerTheorems.CreatedAfterRetired | custom_components/ttlock_ble/connection.py:909-989 | between two creations lies the confirmed end of the first client, and generations grow |
| LedgerTheorems.RetiredWasConfirmed | custom_components/ttlock_ble/connection.py:1254-1303 | a client is retired only after its disconnect returned or the SDK's evidence was read, with nothing in between that puts it in doubt |
| LedgerTheorems.KeptAfterDenial | custom_components/ttlock_ble/connection.py:1254-1295 | a client stays owned after a teardown only if the evidence was missing, its disconnect then raised, and the evidence was missing again, or a cancellation cut this short |
| LedgerTheorems.DisconnectIsNeeded | custom_components/ttlock_ble/connection.py:1262-1268 | a disconnect is tried only after the evidence was read as missing |
| LedgerTheorems.NoSessionWhileStopped | custom_components/ttlock_ble/connection.py:1110-1127 | from a stop to the next start no client is created or adopted, also not by an operation that was already scanning or connecting |
| LedgerTheorems.ShutdownHolds | custom_components/ttlock_ble/connection.py:244-269 | after a shutdown that completed, nothing is owned and the link is announced down until the next start |
| LedgerTheorems.AnnouncementsAlternate | custom_components/ttlock_ble/connection.py:1673-1688 | link announcements strictly alternate, starting with up |
| LedgerTheorems.UpMeansOwned | custom_components/ttlock_ble/connection.py:1231-1252 | while the link is announced up a client is owned; once it is retired the very next event announces the link down |
| LedgerTheorems.MutualExclusion | custom_components/ttlock_ble/connection.py:428-513 | two operations never overlap: a control that arrives during an inventory read begins after that read and its teardown ended |
| LedgerTheorems.HolderAcquired | custom_components/ttlock_ble/connection.py:610-678 | every event inside an operation lies between that operation's acquisition and release of the mutex |
| LedgerTheorems.HeldThroughout | custom_components/ttlock_ble/connection.py:610-678 | from acquiring the mutex to a later state of the same hold it was never released, through the control task and its reconciliation |
| LedgerTheorems.AttemptTracked | custom_components/ttlock_ble/connection.py:680-743 | what is known of a request is exactly what happened since its mutex was acquired: started, written, reply seen, accepted, rejected, ended |
| LedgerTheorems.ReconciliationTracked | custom_components/ttlock_ble/connection.py:722-743 | a request that is not reconciling has ended every reconciliation it began; it counts as reconciled exactly if one ended, and it began one exactly if it reconciles or has |
| LedgerTheorems.SentOnce | custom_components/ttlock_ble/connection.py:610-678 | in one request the physical operation starts at most once and at most one control write begins |
| LedgerTheorems.CommandIsAction | custom_components/ttlock_ble/connection.py:621-627 | every control write of a lock request carries the lock opcode, and of an unlock request the unlock opcode |
| LedgerTheorems.WithdrawnNeverWrites | custom_components/ttlock_ble/connection.py:696-701 | a request whose operation has not written when its cancellation is delivered never writes |
| LedgerTheorems.WithdrawnIsAborted | custom_components/ttlock_ble/connection.py:696-701 | its caller is told of the cancellation and nothing else, and the session is kept |
| LedgerTheorems.ReconcilesOnce | custom_components/ttlock_ble/connection.py:637-652 | one request reconciles at most once |
| LedgerTheorems.WritesBelongToControls | custom_components/ttlock_ble/connection.py:778-822 | control writes occur only inside a running operation of a control request, with the opcode of its action: reconciliation and every other operation never write |
| LedgerTheorems.ConfirmationTracked | custom_components/ttlock_ble/connection.py:778-822 | a request counts as confirmed exactly if a query after its write reported the commanded position |
| LedgerTheorems.ControlIsTruthful | custom_components/ttlock_ble/connection.py:610-670 | a normal end means a control write whose reply was seen and accepted, or a confirming query after a write; an unknown outcome means a write had begun and a reconciliation ended, and that no reply was accepted or rejected and no query confirmed; any other error or cancellation means nothing was accepted or confirmed, and either no write or a reply that was seen and rejected; a request writes only its own opcode, and operation and reconciliation, at most one each, have ended |
| LedgerTheorems.RequestIsTruthful | custom_components/ttlock_ble/connection.py:610-670 | the same of any recorded history that ends in some state of the protocol |
| LedgerTheorems.ControlIsAttempted | custom_components/ttlock_ble/connection.py:610-637 | a control request is attempted, unless no client could be acquired or a cancellation was delivered |
| LedgerTheorems.ReconciliationResolves | custom_components/ttlock_ble/connection.py:778-822 | a reconciliation ends only once a query was answered or failed, a dropped client could not be replaced, or it was interrupted |
| LedgerTheorems.ReconciliationAsksConnected | custom_components/ttlock_ble/connection.py:784-800 | a reconciliation asks only a client it saw connected, or the replacement its own acquisition returned |
| LedgerTheorems.AcquisitionTracked | custom_components/ttlock_ble/connection.py:939-1108 | the scans, connects, open window and time inside windows of an acquisition, and whether the deadline, a discard or a setup failure ended its policy, are those of its recorded events; closed windows kept their caps |
| LedgerTheorems.AcquisitionBounded | custom_components/ttlock_ble/connection.py:939-1108 | one acquisition makes at most one active scan and two connects; without `active_scan` no scan and at most one connect |
| LedgerTheorems.WindowsEndInBudget | custom_components/ttlock_ble/connection.py:955-961 | a scan lasts 25 whole seconds, or all that remain of the budget, rounded down and at least one; a connect gets its cap, 16 seconds before and 42 after the scan, or what remains, and never nothing: none ends after the start plus the budget |
| LedgerTheorems.FreshConnectKeepsItsShare | custom_components/ttlock_ble/connection.py:72-85 | the connect after the scan is granted at least 19 - c seconds of a 60-second budget and 7 - c of a 48-second one, c being the recorded time spent outside all windows, which is never negative |
| LedgerTheorems.GivesUpOnlyAfterScan | custom_components/ttlock_ble/connection.py:1086-1108 | an acquisition that may scan gives up, not stopped and with nothing owned, only after its scan, or after a recorded end of its deadline, discard or setup failure |
| LedgerTheorems.ExcusesHold | custom_components/ttlock_ble/connection.py:961-973 | the deadline ends an acquisition only with less than a second left, or with nothing left if no scan is to come; a candidate is discarded only for a stop |
| LedgerTheorems.UsableSessionIsKept | custom_components/ttlock_ble/connection.py:920-928 | once the installed client reported its link up, no other one is created and the acquisition does not end without one, unless it later reported it down |
| LedgerTheorems.LiveIsEarned | custom_components/ttlock_ble/connection.py:920-1062 | an acquisition returns a client only if it is installed, and reported its link up or was connected by this acquisition |
| LedgerTheorems.InterruptedWasCaused | custom_components/ttlock_ble/connection.py:1163-1205 | a cancellation is delivered to an operation only after something in it caused one: a request, a call that ended cancelled, or a connect cut off by anything but its own timeout |
| LedgerTheorems.AcquisitionLeft | custom_components/ttlock_ble/connection.py:870-1108 | an acquisition that was left without having returned was interrupted in it |
| LedgerTheorems.ExpiredConnectIsRetried | custom_components/ttlock_ble/connection.py:1063-1105 | a cached connect that its own timeout cut off is followed, once its client is torn down, by the scan, in an acquisition that may scan; unless a cancellation is delivered, the connection closes or the deadline is reached |
| LedgerTheorems.ExcuseIsFinal | custom_components/ttlock_ble/connection.py:961-1055 | after the deadline, a discard or a setup failure an acquisition scans, creates and connects nothing more |
| LedgerTheorems.CreatedOnRoute | custom_components/ttlock_ble/connection.py:1328-1352 | a client is created only for a cached route, not a stale one if the acquisition may scan, or for one that the scan found |
| LedgerTheorems.ScansSecond | custom_components/ttlock_ble/connection.py:1336-1352 | a scan starts only without a usable cached route, or after the one connect over it |
| LedgerTheorems.BudgetOfOperation | custom_components/ttlock_ble/connection.py:74-82 | every acquisition has the budget of its operation: a control 60 seconds and 48 to reconcile, both with scan; management 60; a query 48 with scan and 16 without; an inventory 16 with scan; log fetch and maintenance 16 without |
| LedgerTheorems.OneAcquisitionEach | custom_components/ttlock_ble/connection.py:784-800 | an operation makes one acquisition, and a control request at most one more, to reconcile |
| LedgerTheorems.OperationIsTruthful | custom_components/ttlock_ble/connection.py:256-868 | every operation reports what happened in it: a query the position read last, a log fetch, management command and inventory how their own SDK call ended, a shutdown fails only after two failed teardowns; a cancellation that was delivered is reported as one, except by a control or an inventory; and one that made neither query nor call was given no client or was interrupted |
| LedgerTheorems.UsesWhatItAcquired | custom_components/ttlock_ble/connection.py:296-868 | no operation starts its control, makes its SDK call or queries before its acquisition returned a client |
| LedgerTheorems.SessionIsKept | custom_components/ttlock_ble/connection.py:296-868 | what succeeded leaves its session installed, and so does a query, log fetch or management command whose call was cancelled, and every log fetch that made its call |
| LedgerTheorems.LiveSessionIsKept | custom_components/ttlock_ble/connection.py:920-938 | an acquisition that finds a client installed creates another only after the link was read as down |
| LedgerTheorems.CleanMeansConnected | custom_components/ttlock_ble/connection.py:1153-1175 | a candidate counts as connected only by its own connect, neither expired nor cancelled |
| LedgerTheorems.AdoptedOnlyClean | custom_components/ttlock_ble/connection.py:1153-1175 | a client is adopted only if its own connect returned before its deadline expired and before its caller was cancelled |
| LedgerTheorems.InventoryCloses | custom_components/ttlock_ble/connection.py:494-513 | an inventory read with the mutex leaves no installed client, reports its cleanup confirmed exactly when nothing is owned, and otherwise blocks every creation until what it left is retired |
| LedgerTheorems.GateIsOpen | custom_components/ttlock_ble/connection.py:432-434 | a read passes its gate only with the mutex free and no stop announced |
| LedgerTheorems.GatedReadCloses | custom_components/ttlock_ble/connection.py:428-513 | a read that passed its gate with no task before it, or was not cancelled in the queue, exits without an installed client and reports exactly whether all is torn down |
| LedgerTheorems.GateDecides | custom_components/ttlock_ble/connection.py:432-437 | reads always exit without an installed client exactly if they found no task before them or are not cancelled in the queue |
| LedgerTheorems.QueuedReadMayLeaveClient | custom_components/ttlock_ble/connection.py:432-437 | for any number of tasks before it, a history in which a read passes its gate, queues, is cancelled there, and exits with an installed client |
| LedgerTheorems.ArmedWindow | custom_components/ttlock_ble/connection.py:1162-1166 | in every acquisition of every run, the armed timeout of a connect ends within the deadline exactly if no time passed since it was decided or the whole phase cap still fits; it is late by that time at most |
| Connection.TtlockBleConnection.OnDisconnected | custom_components/ttlock_ble/connection.py:1698-1719 | a callback of a retired generation changes neither the announced state nor the wake event; any other one sets the event and announces down |
| Connection.TtlockBleConnection.Broadcast | custom_components/ttlock_ble/connection.py:1673-1688 | repeats are dropped, a change is announced once |
| Connection.TtlockBleConnection.RequestStop | custom_components/ttlock_ble/connection.py:244-248 | closing, its event and the wake event are set at once, whoever holds the mutex |
| Connection.TtlockBleConnection.Start | custom_components/ttlock_ble/connection.py:233-242 | closing is cleared only by a start that creates the maintenance task |
| Connection.TtlockBleConnection.DisconnectPendingOnce | custom_components/ttlock_ble/connection.py:1254-1295 | true exactly with a confirmed teardown; false only after a disconnect raised and the evidence was missing again; only a delivered cancellation is raised |
| Connection.TtlockBleConnection.AwaitCleanup | custom_components/ttlock_ble/connection.py:1222-1240 | the teardown is awaited to its end through any number of cancellations, and whether one was delivered is reported |
| Connection.TtlockBleConnection.CleanupCandidate | custom_components/ttlock_ble/connection.py:1208-1252 | exactly the two ownership guards raise, changing nothing; otherwise no cleanup task is left, the client is disowned exactly when the teardown is confirmed, and a cancellation is raised exactly if one was delivered |
| Connection.TtlockBleConnection.RetryPendingCleanup | custom_components/ttlock_ble/connection.py:1305-1311 | nothing to do without a retained client; otherwise one more teardown decides whether it stays owned |
| Connection.TtlockBleConnection.DisconnectLocked | custom_components/ttlock_ble/connection.py:1655-1671 | afterwards no client is installed, the result says exactly whether anything is still owned, and the ownership guard is never reached |
| Connection.TtlockBleConnection.WaitForDevice | custom_components/ttlock_ble/connection.py:1528-1653 | one scan of whole seconds within the deadline; found, given up for a recorded reason, or cancelled |
| Connection.TtlockBleConnection.ResolveInitialCandidate | custom_components/ttlock_ble/connection.py:1328-1352 | a cached route, or the one initial scan, and only with `active_scan` |
| Connection.TtlockBleConnection.ConnectInWindow | custom_components/ttlock_ble/connection.py:1162-1206 | how the connect ended decides: one that returned, neither expired nor cancelled, counts; one cut off after its timeout expired, with no cancellation requested since it was armed, is a timeout; cut off in any other case it is a cancellation |
| Connection.TtlockBleConnection.ConnectBeforeDeadline | custom_components/ttlock_ble/connection.py:1153-1206 | a timed-out or cancelled candidate is torn down before anything else, and the result says whether it is still owned |
| Connection.TtlockBleConnection.AdoptConnectedCandidate | custom_components/ttlock_ble/connection.py:1110-1146 | a shutdown that won tears the candidate down; otherwise it is installed and announced up, and the ownership guard raises only for a client that is not pending |
| Connection.TtlockBleConnection.CreateCandidate | custom_components/ttlock_ble/connection.py:974-990 | the guard against a second candidate raises exactly with a pending client; otherwise the next generation is pending |
| Connection.TtlockBleConnection.ConnectOnce | custom_components/ttlock_ble/connection.py:947-1091 | one pass ends with a live client, with nothing owned and another try allowed, or for good; the guard against a second candidate is never reached, and only a delivered cancellation is raised |
| Connection.TtlockBleConnection.EnsureConnected | custom_components/ttlock_ble/connection.py:870-1108 | it returns exactly a live installed client, nothing while closing, and raises a cancellation exactly if one was delivered: all ownership guards are unreachable |
| Connection.TtlockBleConnection.QueryState | custom_components/ttlock_ble/connection.py:271-314 | the state that a query of this call read last, or none with the session torn down; a cancellation is raised exactly if one was delivered; while closing always none |
| Connection.TtlockBleConnection.RunManagement | custom_components/ttlock_ble/connection.py:824-868 | it returns exactly if its own SDK call did; every failure tears the session down and escapes as TTLockError, and a cancellation is raised exactly if one was delivered |
| Connection.TtlockBleConnection.FetchOperationLog | custom_components/ttlock_ble/connection.py:535-569 | whether the fetch succeeded is whether its SDK call returned; a failure of it costs neither the session nor an exception |
| Connection.TtlockBleConnection.Maintain | custom_components/ttlock_ble/connection.py:1738-1748 | one turn of the maintenance loop under the mutex is a run of the protocol and raises only a cancellation; a stop, or a drop since the session was adopted, has left the wake event set before the wait |
| Connection.TtlockBleConnection.FinishStop | custom_components/ttlock_ble/connection.py:256-269 | a stop that returns owns nothing and has announced the link down; without a cancellation it fails only after two teardowns that left a client owned, which still is |
| Connection.TtlockBleConnection.ReadInventory | custom_components/ttlock_ble/connection.py:437-513 | however the read ends it leaves no installed client, reports its cleanup confirmed exactly when nothing is owned, and succeeds exactly if its SDK call returned and no cancellation was delivered |
| Connection.TtlockBleConnection.GatedInventory | custom_components/ttlock_ble/connection.py:428-437 | a waiting control, a held mutex or a shutdown refuses the read without any effect; a read that passes ends with no client installed, or is cancelled in a queue that it joined because a task was before it |
| Connection.TtlockBleConnection.AwaitControlTask | custom_components/ttlock_ble/connection.py:680-707 | it returns only once the task has ended: with the task's own outcome, or as cancelled with no control write begun; a request that was withdrawn is always reported as cancelled |
| Connection.TtlockBleConnection.AttemptControl | custom_components/ttlock_ble/connection.py:621-637 | an attempt that returned was written and its reply seen and accepted; one that raised was not accepted, and accounts for what was written and rejected, whatever cancellations arrive |
| Connection.TtlockBleConnection.Reconcile | custom_components/ttlock_ble/connection.py:722-776 | an ambiguity ends as a success exactly if a query confirmed it, and otherwise as the same unknown outcome |
| Connection.TtlockBleConnection.ReconcileControl | custom_components/ttlock_ble/connection.py:778-822 | true exactly if a query of this reconciliation reported the commanded position |
| Connection.TtlockBleConnection.ReconciliationOutcome | custom_components/ttlock_ble/connection.py:745-776 | the session stays installed exactly with a confirmation |
| Connection.TtlockBleConnection.RunControl | custom_components/ttlock_ble/connection.py:591-678 | what the caller of a request is told is the truth about its events, also that the opcode written was the one asked for, and the mutex is released only after operation and reconciliation ended |
| Connection.TtlockBleConnection.Drive | custom_components/ttlock_ble/connection.py:428-868 | any number of operations with anything in between keeps every invariant, and the history stays a run of the protocol |
| Client.TtlockBleClient.CommittedMeansWritten | custom_components/ttlock_ble/client.py:142-151 | `control_committed` holds exactly from this run's first control write to its end |
| Client.TtlockBleClient.ResetTracking | custom_components/ttlock_ble/client.py:261-269 | a reset forgets even a committed run, which is why the connection's mutex must admit only one |
| Client.TtlockBleClient.Begin | custom_components/ttlock_ble/client.py:165-172 | a new run inherits nothing from an earlier command's stage |
| Client.TtlockBleClient.EnterCommandLock | custom_components/ttlock_ble/client.py:173-177 | a shutdown seen before authentication ends the run with no control write |
| Client.TtlockBleClient.AuthenticationReturned | custom_components/ttlock_ble/client.py:187-191 | a shutdown seen before the control exchange ends the run with no control write |
| Client.TtlockBleClient.ControlRaised | custom_components/ttlock_ble/client.py:194-218 | an error stays itself before the write or after a matching reply; every other one, and every cancellation after the write, is an unknown outcome |
| Client.TtlockBleClient.BeginSend | custom_components/ttlock_ble/client.py:271-282 | the control opcode commits the run, no other frame does, and a committed run stays committed |
| Client.TtlockBleClient.EndSend | custom_components/ttlock_ble/client.py:284-294 | the end of a write neither commits nor uncommits |
| Client.TtlockBleClient.Answers | custom_components/ttlock_ble/client.py:296-330 | exactly a readable reply that echoes the control opcode counts as one; other echoes are listed, unreadable replies flagged, and commitment does not change |
| Client.TtlockBleClient.OnDisconnected | custom_components/ttlock_ble/client.py:332-342 | a disconnect is noted for a running control only, and commitment does not change |
| Coordinator.LatestIsNewest | custom_components/ttlock_ble/coordinator.py:210-256 | the register holds a known observation that no delivered known one is newer than, or none was known |
| Coordinator.OrderIndependent | custom_components/ttlock_ble/coordinator.py:210-256 | the same observations delivered in any order, and any number of times, leave the same register |
| Coordinator.LatestAdvances | custom_components/ttlock_ble/coordinator.py:234-251 | further deliveries never make the register older or unknown, and change it only to a higher revision |
| Coordinator.MergePublishes | custom_components/ttlock_ble/coordinator.py:224-255 | merging one result leaves `locked` and its attribution those of the newest known observation delivered |
| Coordinator.MergeTurn | custom_components/ttlock_ble/coordinator.py:224-255 | one turn of the merge settles the lock it is about and leaves all others as they were |
| Coordinator.BatteryOrder | custom_components/ttlock_ble/coordinator.py:234-248 | of two answers, the order of delivery leaves the battery level alone exactly if the earlier one is outdated or brings none, or, if the later knows the state, the later brings one or the earlier the current one, and otherwise the later brings none or the same |
| Coordinator.AggregationAdvances | custom_components/ttlock_ble/coordinator.py:210-256 | whatever results an aggregation brings, nothing published gets older or unknown |
| Coordinator.BatteryFollowsDelivery | custom_components/ttlock_ble/coordinator.py:241-248 | two answers for which the order of delivery decides the battery level |
| Coordinator.TtlockBleDataUpdateCoordinator.PublishedIsNewest | custom_components/ttlock_ble/coordinator.py:97-101 | what is published is the newest known observation delivered so far, and a state is known exactly if it has an attribution |
| Coordinator.TtlockBleDataUpdateCoordinator.NextAttribution | custom_components/ttlock_ble/coordinator.py:168-183 | revisions count the stamped observations of that lock, one each |
| Coordinator.TtlockBleDataUpdateCoordinator.Poll | custom_components/ttlock_ble/coordinator.py:296-378 | an answer is stamped when it comes: 0 as locked, 1 as unlocked, any other as unknown; it publishes nothing yet |
| Coordinator.TtlockBleDataUpdateCoordinator.PollOne | custom_components/ttlock_ble/coordinator.py:210-378 | a poll that nothing overtakes publishes the position its lock answered, with its own attribution, and for an unknown one leaves what was published |
| Coordinator.TtlockBleDataUpdateCoordinator.ApplyAuthoritativeState | custom_components/ttlock_ble/coordinator.py:185-208 | the state is published at once with a revision above every one stamped before; no battery level keeps the last |
| Coordinator.TtlockBleDataUpdateCoordinator.ApplyAdvertisement | custom_components/ttlock_ble/coordinator.py:103-162 | an advertisement sets the battery level, changes no lock's state or attribution, and asks for a refresh exactly when its hint changed or records appeared |
| Coordinator.TtlockBleDataUpdateCoordinator.StartUpdate | custom_components/ttlock_ble/coordinator.py:210-221 | every lock is polled, with an active scan exactly if one was requested or no state is known, and each request is used up once |
| Coordinator.TtlockBleDataUpdateCoordinator.FinishUpdate | custom_components/ttlock_ble/coordinator.py:222-256 | each lock of the aggregation is merged with its own result, no other lock is touched, bootstrap retries and log fetches are those of failed unknown locks and newly known states |
| Coordinator.TtlockBleDataUpdateCoordinator.Drive | custom_components/ttlock_ble/coordinator.py:185-315 | with any number of aggregations overlapping commands, queries, advertisements and refresh requests, all with arbitrary contents, published revisions only grow and no known state becomes unknown |
| LockEntity.TtlockBleLock.SyncFromCoordinator | custom_components/ttlock_ble/lock.py:198-229 | outside the settle window the entity adopts a known state; inside it keeps what was commanded and the update is held back exactly if it disagrees |
| LockEntity.TtlockBleLock.ApplyLockState | custom_components/ttlock_ble/lock.py:145-171 | a queried state is applied unless it disagrees inside the window, and the result says which |
| LockEntity.TtlockBleLock.QueryAndApply | custom_components/ttlock_ble/lock.py:334-355 | a query that the window holds back changes neither entity nor coordinator; any other known one shows and publishes, as its own, locked for 0 and unlocked otherwise |
| LockEntity.TtlockBleLock.PollAndSync | custom_components/ttlock_ble/lock.py:198-229 | a poll that nothing overtakes makes the entity show, for the same known answer, what such a query would, and is held back in the same cases |
| LockEntity.TtlockBleLock.RunCommand | custom_components/ttlock_ble/lock.py:239-293 | while a command runs exactly its own movement is shown, and none however it ends; success shows and publishes its position as a command's and opens a window of 4 seconds, failure opens none |
| LockEntity.TtlockBleLock.Interfere | custom_components/ttlock_ble/lock.py:113-143 | whatever updates and push queries arrive, in the window the entity shows the last position commanded with success, and outside it disagrees with the coordinator only while the last update was held back |
| CredentialReferences.MaterialDecodes | custom_components/ttlock_ble/credential_references.py:88-91 | the length-prefixed parts are recovered from their concatenation |
| CredentialReferences.Utf8Injective | custom_components/ttlock_ble/credential_references.py:88 | encoding text loses nothing |
| CredentialReferences.HandleIdentifies | custom_components/ttlock_ble/credential_references.py:76-91 | under one key two records share a handle exactly when lock, method, epoch and identifier agree |
| CredentialReferences.HandleDecodes | custom_components/ttlock_ble/credential_references.py:76-91 | a handle is derived exactly for a loaded key, a known method, an epoch and an identifier, and what was hashed decodes to lock, method, epoch and identifier, in this order |
| CredentialReferences.FirstSlashSplits | custom_components/ttlock_ble/access_records.py:177-182 | an epoch without a slash and a record type are recovered from their joined text |
| AccessRecords.BaseIdentifies | custom_components/ttlock_ble/access_records.py:177-182 | two items share a base exactly when lock, method, epoch, type and identifier agree |
| AccessRecords.ObserveItems | custom_components/ttlock_ble/access_records.py:171-191 | the loop over the items computes the reference definition, and fails exactly if an identifier gives no base |
| AccessRecords.RetireUnseen | custom_components/ttlock_ble/access_records.py:192-197 | the last loop completes it: unseen records retire, unless they are PINs, and lose their confirmation |
| AccessRecords.MergedKeeps | custom_components/ttlock_ble/access_records.py:167-203 | a reconciliation drops, moves and relabels no record, keeps its base and reference, never revives a retired card or fingerprint and never retires a PIN |
| AccessRecords.MergedAdds | custom_components/ttlock_ble/access_records.py:184-188 | new records have references never seen before and no label |
| AccessRecords.ItemIsStored | custom_components/ttlock_ble/access_records.py:183-191 | every item of the inventory has an active record under the reference it was observed as, with the validity that the last item of its base brought |
| AccessRecords.EnrolledAnew | custom_components/ttlock_ble/access_records.py:183-188 | a credential without a live record, also one retired before, gets a new reference and no label |
| AccessRecords.OneRecordEachKept | custom_components/ttlock_ble/access_records.py:171-191 | live records keep distinct bases exactly if the inventory does not list a credential that has no record twice |
| AccessRecords.StaleObservation | custom_components/ttlock_ble/access_records.py:192-206 | earlier observations stay true of the merged records exactly if all of them are seen again, or they are PINs |
| AccessSteps.ScopesDiffer | custom_components/ttlock_ble/access_records.py:109-114 | scope keys never collide |
| AccessSteps.StripIsCore | custom_components/ttlock_ble/access_records.py:265 | stripping a text leaves the slice of it that has white space all around and at neither end |
| AccessSteps.NameableIff | custom_components/ttlock_ble/access_records.py:246-264 | a renaming is accepted exactly for at most 64 printable characters, a read less than 300 seconds old, and an active record that it observed |
| AccessTheorems.RevisionsNeverDecrease | custom_components/ttlock_ble/access_records.py:116-122 | within a process no revision decreases over marks, resets, removals and loads |
| AccessTheorems.SupersededForGood | custom_components/ttlock_ble/access_records.py:289-300 | a ticket that was superseded once, also by a removal, is never current again |
| AccessTheorems.SupersededNeverFresh | custom_components/ttlock_ble/access_records.py:164-206 | a superseded ticket changes nothing under the lock, and one superseded while it saves leaves the scope stale |
| AccessTheorems.FreshStep | custom_components/ttlock_ble/access_records.py:203-206 | only the end of a successful save, with its ticket still current, makes a scope fresh |
| AccessTheorems.FreshIsSound | custom_components/ttlock_ble/access_records.py:141-206 | with each ticket used once, what a fresh scope shows as observed are references of active records, and a ticket current under the lock finds the store loaded |
| AccessTheorems.ReusedTicket | custom_components/ttlock_ble/access_records.py:164-206 | when a ticket is used again, that stays true exactly if all that was observed is seen again, or it is PINs |
| AccessTheorems.ReusedTicketMisleads | custom_components/ttlock_ble/access_records.py:164-206 | a run in which a ticket is used again and a fresh scope shows a card it has retired as observed |
| AccessTheorems.AlwaysWellStored | custom_components/ttlock_ble/access_records.py:47-55 | in memory and on file a scope has at most 512 records, each with its own reference and a label of at most 64 printable characters |
| AccessTheorems.AlwaysInStep | custom_components/ttlock_ble/access_records.py:202-207 | if no save of changed scopes failed and no restart came during one, whenever no such save is under way every scope with records is on file as it is in memory |
| AccessTheorems.RecordsLive | custom_components/ttlock_ble/access_records.py:167-203 | if resets and settings came only once the store was loaded, the scope was neither reset nor removed, and every restart found it as it was when a save last replaced the file, each of its records keeps its place, base, reference and type over any reconciles, failed saves, restarts and loads; a PIN stays active and a retired record of another kind stays retired |
| AccessTheorems.OnlyNamingRelabels | custom_components/ttlock_ble/access_records.py:246-270 | under the conditions of `RecordsLive` a label changes only when its own reference is named |
| AccessTheorems.OnlyObservedIsNamed | custom_components/ttlock_ble/access_records.py:246-270 | naming takes a fresh scope, an active record observed in it and a printable name |
| AccessTheorems.NamingIsStored | custom_components/ttlock_ble/access_records.py:246-270 | a renaming that is accepted, and whose save returns, gives the first active record with its reference the stripped name, in memory and on file, and confirms it; no other record, scope or field changes; one that is not accepted changes nothing |
| AccessTheorems.ConfirmedWasNamed | custom_components/ttlock_ble/access_records.py:267 | a confirmed label was named, and saved, since the last restart and removal |
| AccessTheorems.UnseenLapses | custom_components/ttlock_ble/access_records.py:192-197 | a current reconciliation takes the confirmation from every record whose credential it does not list |
| AccessTheorems.ResetUnconfirms | custom_components/ttlock_ble/access_records.py:272-282 | a reset drops its scope and takes the confirmation from all of its records |
| AccessTheorems.OneRecordForEach | custom_components/ttlock_ble/access_records.py:167-191 | if no inventory lists a credential twice, there is never more than one live record for it |
| AccessTheorems.PinKeepsReference | custom_components/ttlock_ble/access_records.py:192-197 | under the conditions of `RecordsLive`, and if no inventory lists a credential twice, a PIN's record stays the only one of its base, with the same reference |
| AccessTheorems.ResetForgets | custom_components/ttlock_ble/access_records.py:272-282 | once a reset has replaced the file, no reference the scope ever held comes back, whatever is restarted, loaded or read |
| AccessTheorems.UnsavedPinIsReplaced | custom_components/ttlock_ble/access_records.py:202-203 | a run without resets in which one PIN base has two references, because the save of the first failed before a restart |
| AccessTheorems.FileIsLastSave | custom_components/ttlock_ble/access_records.py:284-302 | in every run the file holds the scopes as they were when a save last replaced it, and none once it was deleted |
| AccessTheorems.RestartKeeps | custom_components/ttlock_ble/access_records.py:92-107 | in every run a scope of a loaded store survives a restart unchanged exactly if it is as it was when a save last replaced the file |
| AccessTheorems.SavesPersist | custom_components/ttlock_ble/access_records.py:202-207 | if no save of changed scopes failed, no restart came during one, resets and settings came only once the store was loaded, and the scope was neither reset nor removed, every restart finds a scope with records as the file has it, so that `RecordsLive` holds of it |
| AccessTheorems.ShownIsTrue | custom_components/ttlock_ble/access_records.py:208-244 | each record is shown with its own reference, label, type, validity and confirmation; nothing is shown as present or absent when the last read is 300 seconds old or more; when it is not, exactly what was observed is shown as present, and all of it is active |
| AccessStore.MergeRecords | custom_components/ttlock_ble/access_records.py:170-202 | the stretch before the save computes the reference definition, and fails exactly without a base or above the capacity |
| AccessStore.AccessRecordStore.MarkStale | custom_components/ttlock_ble/access_records.py:116-122 | the scope loses freshness and observations, its revision grows by one and is the ticket |
| AccessStore.AccessRecordStore.ReconcileLocked | custom_components/ttlock_ble/access_records.py:164-206 | one reconciliation is its step, marks of other tasks, and the end of its save, after which the file is as memory; without a save the step alone |
| AccessStore.AccessRecordStore.Reconcile | custom_components/ttlock_ble/access_records.py:141-163 | an incomplete, uncleaned, malformed or superseded read, or one of a store not loaded, changes no record, confirmation or file; every other one is reconciled under the lock |
| AccessStore.AccessRecordStore.NameLocked | custom_components/ttlock_ble/access_records.py:246-270 | exactly an acceptable renaming gives the first active record with that reference the stripped name and changes nothing else; it returns, and is confirmed, only with the file replaced |
| AccessStore.AccessRecordStore.ResetLocked | custom_components/ttlock_ble/access_records.py:272-282 | that scope alone is forgotten and its tickets superseded; it returns only with the file replaced |
| AccessStore.AccessRecordStore.SetLegacyLocked | custom_components/ttlock_ble/access_records.py:128-139 | the setting of that lock alone changes in memory, exactly when its save returned, and then is on file |
| AccessStore.AccessRecordStore.RemoveLocked | custom_components/ttlock_ble/access_records.py:289-302 | memory is forgotten and every ticket superseded at once; the files go one after the other, and the key is forgotten only once the content is gone |
| AccessStore.AccessRecordStore.LoadLocked | custom_components/ttlock_ble/access_records.py:92-107 | a load succeeds exactly with both files read, and a failed one leaves the store not loaded |
| LogHistory.JournalGrows | custom_components/ttlock_ble/log_history.py:79-89 | what was journaled stays, and two equal identities are more than 512 entries apart |
| LogHistory.EmittedIsJournaled | custom_components/ttlock_ble/log_history.py:90-94 | an emitted record has a date after the cutoff and is journaled by the batch that emits it |
| LogHistory.EmittedAgainOnlyLater | custom_components/ttlock_ble/log_history.py:68-109 | a record is emitted a second time only after 512 other, pairwise different identities were journaled for its lock |
| LogHistory.FreshRecordIsEmitted | custom_components/ttlock_ble/log_history.py:81-94 | at any place of any batch, a record is emitted exactly if it is dated after the cutoff and not among the last 512 journaled by then |
| LogHistory.WindowSuffices | custom_components/ttlock_ble/log_history.py:46-66 | two journals with the same last 512 entries classify every later batch alike |
| LogHistory.MirrorSurvives | custom_components/ttlock_ble/log_history.py:84-88 | the mirror set stays the deque's content exactly if the evicted identity is not in it twice |
| LogHistory.DuplicateBreaksMirror | custom_components/ttlock_ble/log_history.py:84-88 | otherwise the set forgets an identity that the deque still holds |
| LogHistory.DistinctIsSpaced | custom_components/ttlock_ble/log_history.py:56-66 | a loaded journal is a possible one exactly if it has no duplicate |
| LogHistory.ClassifyBatch | custom_components/ttlock_ble/log_history.py:79-96 | the loop on deque and set computes what the unbounded journal would emit, and both remain its last 512 entries |
| LogHistory.TtlockBleLogHistory.Classify | custom_components/ttlock_ble/log_history.py:68-109 | the same of the class, for that lock alone |
| LogHistory.TtlockBleLogHistory.Save | custom_components/ttlock_ble/log_history.py:111-118 | the file holds the last 512 journaled identities of each lock |
| LogHistory.TtlockBleLogHistory.Load | custom_components/ttlock_ble/log_history.py:46-66 | deque and set are the stored last 512 identities, and continue the journal they were saved from |
| LogHistory.Reload | custom_components/ttlock_ble/log_history.py:46-118 | saving and loading into a new load keeps the journal |

## Left out

- Home Assistant, bleak and the SDK: their calls are arbitrary choices under the assumptions above; frames, encryption, GATT and advertisement decoding are not part of this model.
- Route resolution, RSSI, reachability diagnostics and log messages: a candidate is some route or none, cached or fresh.
- `_on_event`, `event` entities and the forwarding of push events: a push event is an arbitrary query of the lock entity.
- The fields of ControlOutcomeUnknownError other than its kind; the tracking they are read from is modelled.
- The maintenance loop's backoff and cooldown: one turn of it is modelled.
- The inventory task and its preemption in `_async_run_command`: the request counter is an input of the gate, and a preemption is a cancellation.
- The delayed save of the journal, malformed stored entries, and the calendar of `operate_date`: dates are numbers, and a stored journal is a list of identities for each lock.
- Classifying the same batch twice: with a full journal a duplicate early in a batch can be evicted later in it, so no claim is made.
- Sums of granted windows: only their ends and the elapsed time are bounded.
- Bootstrap retries and operation-log tasks of the coordinator: which locks they are started for is modelled, not their timing.
- A cancelled save whose writer replaces the file only after a later save has: a save ends, replaced or not, before the next one begins.
- Schema values of record types and validities, and damaged files: a load that cannot read its file is an input.
- Config and options flows, cloud API, services, HTTP view, panel, diagnostics, sensors, binary sensors and event classification tables: validation, plumbing and finite lookups.
- AccessStore.AccessRecordStore.Reconcile: while it waits for the lock, a read of another task goes from its own checks to its reconciliation without a third task in between; the theorems about runs have no such limit.
- LedgerTheorems.GateDecides: how many tasks are before a read is an input; the order in which `asyncio.Lock` serves them is not modelled.
- LockEntity.TtlockBleLock.RunCommand: the log fetch and the refresh requested after a command are left to `Interfere`.
