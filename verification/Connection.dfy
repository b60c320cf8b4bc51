// One long-lived BLE session with one lock.
//
// Every method below runs while its caller holds the connection's mutex,
// except the callbacks of the first group.  At each `await` the method calls
// `Interfere`, which fires any number of those callbacks and advances the
// clock; what the awaited call then did is an arbitrary choice.  Each step is
// recorded, and the record stays a run of the Ledger automaton.
module Connection {
  import opened Basics
  import opened Ledger
  import opened Client
  import opened LedgerTheorems

  datatype Intent =
    | ExplicitControl
    | RoutineQuery
    | UnknownBootstrap
    | ManagementCommand
    | InventoryRead
    | AmbiguousReconciliation
    | OperationLogFetch
    | BackgroundMaintenance

  function AcquisitionBudget(intent: Intent): real {
    match intent
    case ExplicitControl => 60.0
    case ManagementCommand => 60.0
    case InventoryRead => 16.0
    case UnknownBootstrap => 48.0
    case AmbiguousReconciliation => 48.0
    case _ => 16.0
  }

  // How a connect phase that did not raise ended.
  datatype ConnectEnd = Connected | PhaseTimedOut(cleaned: bool)

  // What one pass of the acquisition loop leads to.
  datatype Pass = Live(client: TtlockBleClient) | TryFresh | GiveUp

  class TtlockBleConnection {
    var client: TtlockBleClient?
    var pending: TtlockBleClient?
    var cleanupTask: TtlockBleClient?  // the client of the cleanup task, if there is one
    var nextGeneration: nat
    var ownedGeneration: Option<nat>
    var closing: bool
    var closingEvent: bool
    var disconnected: bool
    var broadcast: bool
    var maintaining: bool
    var cancelRequests: nat  // the running task's `cancelling()`
    var cleanupConfirmed: Option<bool>  // of the latest inventory read
    var now: real
    ghost var history: seq<Event>
    ghost var state: State

    constructor ()
      ensures Valid() && history == [] && client == null && pending == null
    {
      client, pending, cleanupTask := null, null, null;
      nextGeneration, ownedGeneration := 0, None;
      closing, closingEvent, disconnected := false, false, false;
      broadcast, maintaining := false, false;
      cancelRequests, cleanupConfirmed, now := 0, None, 0.0;
      history, state := [], INITIAL;
      AcceptsInitial();
    }

    // ---- Invariants -------------------------------------------------------

    // The history is a run of the protocol that ends in `state`.
    ghost predicate Recorded()
      reads this`history, this`state
    {
      Accepts(history, state)
    }

    ghost function Owned(): Owner
      reads this`client, this`pending
    {
      if client != null then Installed(client.generation)
      else if pending != null then Pending(pending.generation)
      else Nobody
    }

    // Fields and record agree.
    ghost predicate Agrees()
      reads this`client, this`pending, this`nextGeneration, this`ownedGeneration, this`closing, this`closingEvent
      reads this`broadcast, this`now, this`history, this`state
    {
      && Recorded()
      && (client == null || pending == null)
      && state.owner == Owned()
      && state.created == nextGeneration
      && ownedGeneration == (if state.owner.Nobody? then None else Some(nextGeneration))
      && (!state.owner.Nobody? ==> state.owner.generation == nextGeneration)
      && state.up == broadcast
      && state.closing == closing == closingEvent
      && (broadcast ==> !state.owner.Nobody?)
      && !state.gate.AtOnce?
      && (state.acquisition.Some? ==> state.acquisition.value.last <= now)
    }

    // What the fields say of the record.
    lemma FieldsAgree()
      requires Agrees()
      ensures state.owner == Owned() && state.closing == closing == closingEvent && state.up == broadcast
      ensures client == null || pending == null
      ensures broadcast ==> !state.owner.Nobody?
      ensures state.acquisition.Some? ==> state.acquisition.value.last <= now
    {
    }

    // Holds at every await.  A stop, and a drop of the installed client since
    // its adoption, leave the wake event set.
    ghost predicate Inv()
      reads this
    {
      Agrees() && (closing || (client != null && !broadcast) ==> disconnected)
    }

    // Holds outside `CleanupCandidate`, while the mutex is held, ...
    ghost predicate Busy()
      reads this
    {
      Inv() && cleanupTask == null && state.teardown.Untried? && state.holder.Some?
    }

    // ... also while no control task runs, ...
    ghost predicate Held()
      reads this
    {
      Busy() && !state.attempt.running
    }

    // ... and with the mutex free.
    ghost predicate Valid()
      reads this
    {
      Inv() && cleanupTask == null && state.teardown.Untried? && state.holder.None?
    }

    // No scan or connect is in progress.
    ghost predicate Idle()
      reads this
    {
      BetweenPhases(state.acquisition)
    }

    twostate predicate SameFields()
      reads this
    {
      && client == old(client) && pending == old(pending) && cleanupTask == old(cleanupTask)
      && nextGeneration == old(nextGeneration) && ownedGeneration == old(ownedGeneration)
      && cleanupConfirmed == old(cleanupConfirmed)
      && old(cancelRequests) <= cancelRequests
      && old(now) <= now
      && old(history) <= history
    }

    // Only callbacks and time happened.
    twostate predicate OnlyEnvironment()
      reads this
    {
      && SameFields()
      && state == old(state).(up := state.up, closing := state.closing, requested := state.requested)
      && (state.up ==> old(state).up)
      && (old(state).requested ==> state.requested)
    }

    // As OnlyEnvironment; and an awaited call was made, of which the record
    // may say more about the teardown and about cancellations.
    twostate predicate OnlyAwaited()
      reads this
    {
      && SameFields()
      && state == old(state).(up := state.up, closing := state.closing, requested := state.requested,
                              interruptions := state.interruptions, teardown := state.teardown)
      && (state.up ==> old(state).up)
      && (old(state).requested ==> state.requested)
      && old(state).interruptions <= state.interruptions
    }

    // A cancellation was delivered exactly if it was raised.
    twostate predicate Delivers(raised: bool)
      reads this
    {
      raised <==> old(state).interruptions < state.interruptions
    }

    // The operation and its control attempt did not change, except that a
    // reconciliation may have looked for a replacement.
    twostate predicate SameRequest()
      reads this
    {
      && cleanupConfirmed == old(cleanupConfirmed)
      && old(now) <= now
      && old(history) <= history
      && state.holder == old(state).holder && state.serial == old(state).serial
      && state.gate == old(state).gate && state.work == old(state).work
      && state.attempt == old(state).attempt
      && old(state).interruptions <= state.interruptions
      && old(state).failures <= state.failures
    }

    // The same inside one acquisition.
    twostate predicate InAcquisition()
      reads this
    {
      && SameRequest()
      && old(state).acquisition.Some? && state.acquisition.Some?
      && state.acquisition.value.base == old(state).acquisition.value.base
    }

    // Ownership may have changed; the operation and its acquisition did not.
    twostate predicate SameOperation()
      reads this
    {
      SameRequest() && nextGeneration == old(nextGeneration)
      && state.acquisition == old(state).acquisition && state.search == old(state).search
    }

    ghost method Record(e: Event)
      requires Recorded() && Enabled(state, e)
      modifies this`history, this`state
      ensures Recorded() && history == old(history) + [e] && state == Apply(old(state), e)
    {
      hide Accepts, Enabled, Apply;
      AcceptsExtend(history, state, e);
      history, state := history + [e], Apply(state, e);
    }

    // ---- Callbacks: they run between awaits, outside the mutex ------------

    method Broadcast(connected: bool)
      requires Recorded() && state.up == broadcast && !state.gate.AtOnce?
      requires connected ==> state.owner.Installed?
      modifies this`broadcast, this`history, this`state
      ensures Recorded() && broadcast == connected
      ensures state == old(state).(up := connected)
      ensures history == if connected == old(broadcast) then old(history)
                         else old(history) + [Announced(connected)]
    {
      hide Accepts, Apply;
      if connected == broadcast {
        return;
      }
      broadcast := connected;
      AnnouncementChanges(state, connected);
      Record(Announced(connected));
    }

    // A callback of a retired client changes neither the announced link state
    // nor the wake event.
    method OnDisconnected(generation: Option<nat>)
      requires Inv()
      modifies this
      ensures Inv() && OnlyEnvironment()
      ensures cancelRequests == old(cancelRequests) && now == old(now) && maintaining == old(maintaining)
      ensures generation.Some? && generation != old(ownedGeneration) ==>
                disconnected == old(disconnected) && broadcast == old(broadcast) && history == old(history)
      ensures generation.None? || generation == old(ownedGeneration) ==> disconnected && !broadcast
    {
      hide Accepts;
      if generation.Some? && generation != ownedGeneration {
        return;
      }
      disconnected := true;
      Broadcast(false);
    }

    // `async_stop` up to its first await.
    method RequestStop()
      requires Inv()
      modifies this
      ensures Inv() && OnlyEnvironment()
      ensures closing && closingEvent && disconnected
      ensures history == old(history) + [Stopped]
    {
      hide Accepts, Apply;
      closing := true;
      closingEvent := true;
      disconnected := true;
      StopChanges(state);
      Record(Stopped);
    }

    method Start(maintain: bool)
      requires Inv()
      modifies this
      ensures Inv() && OnlyEnvironment()
      ensures !maintain || old(maintaining) ==> closing == old(closing) && history == old(history)
      ensures maintain && !old(maintaining) ==>
                !closing && maintaining && history == old(history) + [Restarted]
    {
      hide Accepts, Apply;
      if !maintain || maintaining {
        return;
      }
      closing := false;
      closingEvent := false;
      RestartChanges(state);
      Record(Restarted);
      maintaining := true;
    }

    // Other tasks and the radio run until this task is resumed.
    method Interfere()
      requires Inv()
      modifies this
      ensures Inv() && OnlyEnvironment()
    {
      hide Accepts;
      var steps: nat := *;
      while steps > 0
        invariant Inv() && OnlyEnvironment()
      {
        EnvironmentStep();
        steps := steps - 1;
      }
    }

    method EnvironmentStep()
      requires Inv()
      modifies this
      ensures Inv() && OnlyEnvironment()
    {
      hide Accepts;
      var elapsed: real := *;
      if elapsed > 0.0 {
        now := now + elapsed;
      }
      if {
        case true =>
          var generation: Option<nat> := *;
          OnDisconnected(generation);
        case true => RequestStop();
        case true =>
          var maintain: bool := *;
          Start(maintain);
        case true => maintaining := false;
        case true => RequestCancel();
      }
    }

    // `task.cancel()`: the running task will be cancelled.
    method RequestCancel()
      requires Inv()
      modifies this
      ensures Inv() && OnlyEnvironment()
      ensures state.holder.Some? ==> state.requested
    {
      hide Accepts, Apply;
      cancelRequests := cancelRequests + 1;
      if state.holder.Some? {
        RequestChanges(state, CancelRequested);
        Record(CancelRequested);
      }
    }

    method Monotonic() returns (t: real)
      modifies this`now
      ensures t == now && old(now) <= now
    {
      var elapsed: real := *;
      if elapsed > 0.0 {
        now := now + elapsed;
      }
      t := now;
    }

    method ReadClock() returns (t: real)
      requires Inv()
      modifies this`now
      ensures Inv() && t == now && old(now) <= now
      ensures state.acquisition.Some? ==> state.acquisition.value.last <= t
    {
      hide Accepts;
      t := Monotonic();
    }

    // A CancelledError reached this task; no operation is withdrawn by it.
    ghost method CancelDelivered()
      requires Inv() && state.holder.Some? && state.requested
      requires state.attempt.running ==> state.attempt.written
      modifies this
      ensures Inv() && SameFields() && cancelRequests == old(cancelRequests)
      ensures state == old(state).(interruptions := old(state).interruptions + 1)
      ensures history == old(history) + [Interrupted]
    {
      hide Accepts, Apply;
      InterruptionChanges(state);
      Record(Interrupted);
    }

    // The same after a `task.cancel()`.
    method Cancel()
      requires Inv() && state.holder.Some?
      requires state.attempt.running ==> state.attempt.written
      modifies this
      ensures Inv() && OnlyAwaited() && state.teardown == old(state).teardown && Delivers(true)
    {
      hide Accepts, Agrees, Enabled, Apply;
      RequestCancel();
      CancelDelivered();
    }

    ghost method NoteCallCancelled()
      requires Inv() && state.holder.Some?
      modifies this
      ensures Inv() && SameFields() && state == old(state).(requested := true)
    {
      hide Accepts, Apply;
      RequestChanges(state, CallCancelled);
      Record(CallCancelled);
    }

    // What an awaited SDK call did, when it neither controls nor owns.
    method SdkCall() returns (ended: Exit<()>)
      requires Inv()
      modifies this
      ensures Inv() && OnlyEnvironment()
      ensures ended.Raise? ==> ended.error != Ownership && ended.error != Unknown
    {
      hide Accepts, Enabled, Apply;
      Interfere();
      ended := *;
      if ended.Raise? && (ended.error == Ownership || ended.error == Unknown) {
        ended := Raise(Other);
      }
    }

    // The same outside a timeout: a cancellation comes from outside.
    method Sdk() returns (ended: Exit<()>)
      requires Inv() && state.holder.Some?
      requires state.attempt.running ==> state.attempt.written
      modifies this
      ensures Inv() && OnlyAwaited() && state.teardown == old(state).teardown
      ensures ended.Raise? ==> ended.error != Ownership && ended.error != Unknown
      ensures Delivers(ended == Raise(Cancelled))
      ensures ended == Raise(Cancelled) ==> state.requested
    {
      hide Accepts, Enabled, Apply, Agrees;
      ended := SdkCall();
      if ended == Raise(Cancelled) {
        NoteCallCancelled();
        CancelDelivered();
      }
    }

    // ---- Teardown ---------------------------------------------------------

    // Read the SDK's cleanup evidence; an unreadable one counts as missing.
    method CleanupIsConfirmed() returns (confirmed: bool)
      requires Inv() && state.holder.Some? && pending != null
      modifies this
      ensures Inv() && OnlyAwaited() && Delivers(false)
      ensures state.teardown == NextTeardown(old(state).teardown, TeardownEvidence(confirmed))
      ensures state.requested == old(state).requested
    {
      hide Accepts, Apply;
      confirmed := *;
      EvidenceChanges(state, TeardownEvidence(confirmed));
      Record(TeardownEvidence(confirmed));
    }

    ghost method NoteDisconnect(raised: bool)
      requires Inv() && state.holder.Some? && pending != null && state.teardown.Asked?
      modifies this
      ensures Inv() && OnlyAwaited() && Delivers(false)
      ensures state.teardown == if raised then Teardown.Raised else Confirmed
      ensures state.requested == old(state).requested
    {
      hide Accepts, Apply;
      ghost var e := if raised then TeardownRaised else TeardownReturned;
      EvidenceChanges(state, e);
      Record(e);
    }

    // One disconnect attempt: true when the SDK's evidence, or a disconnect
    // that returned, confirms it; false when it was denied after a disconnect
    // that raised.
    method DisconnectPendingOnce() returns (exit: Exit<bool>)
      requires Inv() && state.holder.Some? && pending != null && state.teardown.Untried? && !state.attempt.running
      modifies this
      ensures Inv() && OnlyAwaited() && Delivers(exit.Raise?)
      ensures exit == Return(true) ==> state.teardown.Confirmed?
      ensures exit == Return(false) ==> state.teardown.Denied?
      ensures exit.Raise? ==> exit.error == Cancelled && state.teardown.Raised? && state.requested
    {
      hide Accepts, Apply, Enabled, Agrees;
      var confirmed := CleanupIsConfirmed();
      if confirmed {
        return Return(true);
      }
      var ended := Sdk();
      NoteDisconnect(ended.Raise?);
      if ended.Return? {
        return Return(true);
      }
      if ended.error == Cancelled {
        return Raise(Cancelled);
      }
      confirmed := CleanupIsConfirmed();
      return Return(confirmed);
    }

    // Await the cleanup task through any number of caller cancellations.
    method AwaitCleanup() returns (cleanup: Exit<bool>, interrupted: bool)
      requires Inv() && state.holder.Some? && pending != null && state.teardown.Untried? && !state.attempt.running
      modifies this
      ensures Inv() && OnlyAwaited() && Delivers(interrupted || cleanup.Raise?)
      ensures cleanup == Return(true) ==> state.teardown.Confirmed?
      ensures cleanup == Return(false) ==> state.teardown.Denied?
      ensures cleanup.Raise? ==> cleanup.error == Cancelled && state.teardown.Raised? && state.requested
    {
      hide Accepts, Agrees, Enabled, Apply;
      interrupted := false;
      var cancellations: nat := *;
      while cancellations > 0
        invariant Inv() && OnlyAwaited() && Delivers(interrupted) && state.teardown.Untried?
      {
        Interfere();
        Cancel();
        interrupted := true;
        cancellations := cancellations - 1;
      }
      cleanup := DisconnectPendingOnce();
      Interfere();
      var late: bool := *;
      if late && cleanup.Return? {
        Cancel();
        interrupted := true;
      }
    }

    // The confirmed end of the pending client.
    method Retire()
      requires Inv() && state.holder.Some? && pending != null && state.teardown.Confirmed?
      modifies this
      ensures Inv() && SameOperation() && Disowned() && Delivers(false) && state.teardown.Untried?
      ensures cleanupTask == old(cleanupTask) && client == null && pending == null
    {
      hide Accepts, Apply;
      ghost var g := pending.generation;
      pending := null;
      ownedGeneration := None;
      RetirementChanges(state, g);
      Record(Retired(g));
      Broadcast(false);
    }

    ghost predicate Disowned()
      reads this
    {
      state.owner.Nobody? && !state.clean && !state.up
    }

    // The pending client stays owned.
    ghost method Retain()
      requires Inv() && state.holder.Some? && pending != null
      requires state.teardown.Denied? || (state.teardown.Raised? && state.requested)
      modifies this
      ensures Inv() && SameOperation() && !state.clean && Delivers(false) && state.teardown.Untried?
      ensures cleanupTask == old(cleanupTask) && client == null && pending == old(pending)
      ensures state.failures == old(state).failures + 1
    {
      hide Accepts;
      Record(TeardownFailed(pending.generation));
    }

    twostate predicate Untouched()
      reads this
    {
      && client == old(client) && pending == old(pending) && cleanupTask == old(cleanupTask)
      && state == old(state) && history == old(history)
    }

    // Tear down the pending client; its ownership ends only when confirmed.
    method CleanupCandidate(candidate: TtlockBleClient) returns (exit: Exit<bool>)
      requires Inv() && state.holder.Some? && state.teardown.Untried? && !state.attempt.running
      modifies this
      ensures Inv() && SameOperation() && state.teardown.Untried?
      ensures old(pending) != candidate || (old(cleanupTask) != null && old(cleanupTask) != candidate)
              ==> exit == Raise(Ownership) && Untouched()
      ensures old(pending) == candidate && (old(cleanupTask) == null || old(cleanupTask) == candidate)
              ==> CleanedUp(candidate, exit)
    {
      hide Accepts, Enabled, Apply, Agrees;
      if pending != candidate {
        return Raise(Ownership);
      }
      if cleanupTask == null {
        cleanupTask := candidate;
      } else if cleanupTask != candidate {
        return Raise(Ownership);
      }
      exit := FinishCleanup(candidate);
    }

    // The cleanup task is awaited, and its result settles the ownership.
    method FinishCleanup(candidate: TtlockBleClient) returns (exit: Exit<bool>)
      requires Inv() && state.holder.Some? && state.teardown.Untried? && !state.attempt.running
      requires pending == candidate && cleanupTask == candidate
      modifies this
      ensures Inv() && SameOperation() && state.teardown.Untried?
      ensures CleanedUp(candidate, exit)
    {
      hide Accepts, Enabled, Apply, Agrees;
      var cleanup, interrupted := AwaitCleanup();
      cleanupTask := null;
      if cleanup.Raise? {
        Retain();
        return Raise(cleanup.error);
      }
      if cleanup.value {
        Retire();
      } else {
        Retain();
      }
      if interrupted {
        return Raise(Cancelled);
      }
      return Return(cleanup.value);
    }

    twostate predicate CleanedUp(new candidate: TtlockBleClient, new exit: Exit<bool>)
      reads this
    {
      && cleanupTask == null
      && client == null
      && (pending == candidate || pending == null)
      && !state.clean
      && Delivers(exit.Raise?)
      && (pending != null ==> old(state).failures < state.failures)
      && match exit
         case Return(cleaned) => cleaned == (pending == null)
         case Raise(error) => error == Cancelled
    }

    method RetryPendingCleanup() returns (exit: Exit<bool>)
      requires Held()
      modifies this
      ensures Held() && SameOperation()
      ensures old(pending) == null ==>
                exit == Return(true) && client == old(client) && pending == null && state == old(state)
      ensures old(pending) != null ==> CleanedUp(old(pending), exit)
    {
      if pending == null {
        return Return(true);
      }
      exit := CleanupCandidate(pending);
    }

    // Move the installed client back under pending ownership.
    method TakeInstalled() returns (exit: Exit<()>)
      requires Recorded() && client != null
      requires pending == null ==> Inv() && state.holder.Some?
      modifies this
      ensures old(pending) != null ==> exit == Raise(Ownership)
      ensures old(pending) == null ==>
                && exit.Return? && Inv() && SameOperation() && Delivers(false) && state.teardown.Untried?
                && pending == old(client) && client == null && cleanupTask == old(cleanupTask)
    {
      hide Accepts, Apply;
      if pending != null {
        return Raise(Ownership);
      }
      pending := client;
      client := null;
      DemotionChanges(state, pending.generation);
      Record(Demoted(pending.generation));
      return Return(());
    }

    // Tear down whatever is owned; true exactly when nothing is owned then.
    method DisconnectLocked() returns (exit: Exit<bool>)
      requires Held()
      modifies this
      ensures Held() && SameOperation() && client == null && Delivers(exit.Raise?)
      ensures exit.Return? ==> exit.value == (pending == null)
      ensures exit.Raise? ==> exit.error == Cancelled
      ensures pending != null ==> old(state).failures < state.failures
      ensures pending != null ==> pending == old(client) || pending == old(pending)
      ensures old(client) == null && old(pending) == null ==> exit == Return(true)
    {
      hide Accepts, Enabled, Apply;
      if client == null {
        exit := RetryPendingCleanup();
        return;
      }
      ghost var installed := client;
      var taken := TakeInstalled();
      assert taken.Return?;
      exit := CleanupCandidate(pending);
    }

    // ---- Acquisition ------------------------------------------------------

    // An acquisition is under way whose previous client, if any, was down.
    ghost predicate Acquires(active: bool, deadline: real)
      reads this
    {
      && state.acquisition.Some?
      && var a := state.acquisition.value;
         && a.phase.Between? && !a.ended && !a.stopped
         && a.active == active && Deadline(a) == deadline
         && (a.link.NoClient? || a.link.Down?)
    }

    // The next connect may begin: the cached one, or after the scan the fresh.
    ghost predicate MayPass(active: bool, deadline: real, scanned: bool)
      reads this
    {
      && state.owner.Nobody?
      && Acquires(active, deadline)
      && var a := state.acquisition.value;
         MayConnect(a) && a.freshConnects == 0 && a.scans == (if scanned then 1 else 0)
    }

    ghost predicate MayScan(deadline: real)
      reads this
    {
      && state.owner.Nobody?
      && Acquires(true, deadline)
      && var a := state.acquisition.value;
         a.scans == 0 && a.freshConnects == 0 && (a.route.Missing? || a.cachedConnects == 1)
    }

    // No live client was found installed.
    ghost predicate NoLink()
      reads this
    {
      && state.acquisition.Some?
      && (state.acquisition.value.link.NoClient? || state.acquisition.value.link.Down?)
    }

    // The acquisition may end without a client.
    ghost predicate Over()
      reads this
    {
      && state.acquisition.Some?
      && (state.closing || state.owner.Pending?
          || (state.owner.Nobody? && Spent(state.acquisition.value)))
    }

    // The acquisition changed as recorded; ownership did not.
    twostate predicate OnlyAcquisition(after: Acquisition)
      reads this
    {
      && SameFields()
      && state == old(state).(acquisition := Some(after), up := state.up, closing := state.closing,
                              requested := state.requested, clean := state.clean)
      && (state.up ==> old(state).up)
      && (old(state).requested ==> state.requested)
    }

    ghost method RunOut(at: real)
      requires Held() && Acquiring(state) && state.acquisition.value.last <= at <= now
      requires var a := state.acquisition.value;
               if a.active && a.scans == 0 then Deadline(a) - at < 1.0 else Deadline(a) <= at
      modifies this
      ensures Held() && OnlyAcquisition(old(state).acquisition.value.(last := at, stopped := true))
    {
      hide Accepts, Apply;
      DeadlineChanges(state, at);
      Record(OutOfTime(at));
    }

    ghost method BeginScan(at: real, seconds: int)
      requires Held() && Enabled(state, ScanStarted(at, seconds)) && at <= now
      modifies this
      ensures Held()
      ensures var a := old(state).acquisition.value;
              OnlyAcquisition(a.(scans := a.scans + 1, route := Unsought, last := at,
                                 phase := Scanning(seconds as real)))
    {
      hide Accepts;
      Record(ScanStarted(at, seconds));
    }

    lemma ScanFits(at: real, seconds: int, deadline: real)
      requires Held() && MayScan(deadline) && state.acquisition.value.last <= at
      requires 1 <= seconds && seconds == Min(SCAN_SECONDS as real, Max(0.0, deadline - at)).Floor
      ensures Enabled(state, ScanStarted(at, seconds))
    {
    }

    ghost method FinishScan(at: real, found: bool)
      requires Held() && state.owner.Nobody? && state.acquisition.Some?
      requires state.acquisition.value.phase.Scanning? && state.acquisition.value.last <= at <= now
      modifies this
      ensures Held()
      ensures var a := old(state).acquisition.value;
              OnlyAcquisition(CloseWindow(a, at, a.phase.window).(route := if found then Usable else Missing))
    {
      hide Accepts;
      Record(ScanEnded(at, found));
    }

    // Wait for this address through one active scan.
    method WaitForDevice(deadline: real) returns (exit: Exit<bool>)
      requires Held() && MayScan(deadline)
      modifies this
      ensures Held() && InAcquisition() && state.owner.Nobody? && Acquiring(state) && NoLink()
      ensures exit == Return(true) ==> MayPass(true, deadline, true)
      ensures exit == Return(false) ==> Over()
      ensures Delivers(exit.Raise?) && (exit.Raise? ==> exit.error == Cancelled)
    {
      hide Accepts, Apply, Enabled, Agrees;
      var at := ReadClock();
      var seconds := Min(SCAN_SECONDS as real, Max(0.0, deadline - at)).Floor;
      if seconds <= 0 {
        RunOut(at);
        return Return(false);
      }
      ScanFits(at, seconds, deadline);
      BeginScan(at, seconds);
      var found, cancelled := AwaitAdvertisement();
      var end := ReadClock();
      FinishScan(end, found);
      if cancelled {
        Cancel();
        return Raise(Cancelled);
      }
      return Return(found);
    }

    // The scan ends with a candidate, without one, at a stop or cancelled.
    method AwaitAdvertisement() returns (found: bool, cancelled: bool)
      requires Inv()
      modifies this
      ensures Inv() && OnlyEnvironment()
    {
      Interfere();
      var stopSeen: bool := *;
      found := *;
      if closing || stopSeen {
        found := false;
      }
      Interfere();
      cancelled := *;
    }

    // Nothing of the acquisition was used yet.
    ghost predicate Unused()
      reads this
    {
      && state.acquisition.Some?
      && var a := state.acquisition.value;
         a.scans == 0 && a.cachedConnects == 0 && a.freshConnects == 0 && a.route.Unsought?
    }

    ghost method NoteRoute(cached: bool, stale: bool)
      requires Held() && Acquiring(state) && state.owner.Nobody? && Unused()
      modifies this
      ensures Held()
      ensures var a := old(state).acquisition.value;
              OnlyAcquisition(a.(route := if cached && !(a.active && stale) then Usable else Missing))
    {
      hide Accepts;
      Record(RouteRead(cached, stale));
    }

    // A cached candidate, or the one initial scan.
    method ResolveInitialCandidate(active: bool, deadline: real)
      returns (exit: Exit<bool>, attempted: bool)
      requires Held() && Acquires(active, deadline) && Unused() && state.owner.Nobody?
      modifies this
      ensures Held() && InAcquisition() && state.owner.Nobody? && Acquiring(state) && NoLink()
      ensures exit == Return(true) ==> MayPass(active, deadline, attempted)
      ensures exit == Return(false) ==> Over()
      ensures Delivers(exit.Raise?) && (exit.Raise? ==> exit.error == Cancelled)
      ensures attempted ==> active
    {
      hide Accepts, Apply, Enabled, Agrees;
      var cached: bool := *;
      var stale: bool := *;
      var usable := cached && !(active && stale);
      NoteRoute(cached, stale);
      if !active || usable {
        return Return(usable), false;
      }
      attempted := true;
      exit := WaitForDevice(deadline);
    }

    // Create the one candidate of this pass under pending ownership.
    method CreateCandidate() returns (exit: Exit<TtlockBleClient>)
      requires pending == null ==> Held() && Enabled(state, Created(nextGeneration + 1))
      modifies this
      ensures old(pending) != null ==> exit == Raise(Ownership)
      ensures old(pending) == null ==>
                && exit.Return? && fresh(exit.value) && Held()
                && exit.value.Valid() && exit.value.point == NotRunning
                && pending == exit.value && client == null
                && SameRequest() && state.acquisition == old(state).acquisition && !state.clean && Delivers(false)
    {
      hide Accepts, Apply;
      if pending != null {
        return Raise(Ownership);
      }
      CreationChanges(state, nextGeneration + 1);
      nextGeneration := nextGeneration + 1;
      var candidate := new TtlockBleClient(nextGeneration);
      pending := candidate;
      ownedGeneration := Some(nextGeneration);
      Record(Created(nextGeneration));
      return Return(candidate);
    }

    // The pending candidate has not connected yet, and may within `window`.
    ghost predicate MayConnectNow(candidate: TtlockBleClient, decided: real, window: real)
      reads this
    {
      pending == candidate && decided <= now && Enabled(state, ConnectStarted(decided, now, window))
    }

    // The connect was the cached or the fresh one; a setup failure stops all.
    ghost predicate ConnectUsed(before: Acquisition, after: Option<Acquisition>) {
      && after.Some?
      && after.value.phase.Between?
      && after.value.ended == before.ended && after.value.link == before.link
      && after.value.active == before.active && after.value.base == before.base
      && Deadline(after.value) == Deadline(before)
      && after.value.scans == before.scans
      && after.value.route == before.route
      && after.value.freshConnects == before.freshConnects + (if before.scans == 1 then 1 else 0)
      && after.value.cachedConnects == before.cachedConnects + (if before.scans == 1 then 0 else 1)
    }

    ghost method BeginConnect(decided: real, armed: real, window: real)
      requires Held() && Enabled(state, ConnectStarted(decided, armed, window)) && armed <= now
      modifies this
      ensures Held()
      ensures state.acquisition.Some? && ConnectOpen(old(state).acquisition.value, state.acquisition.value)
      ensures state.acquisition.value.last == armed
      ensures OnlyAcquisition(state.acquisition.value)
      ensures state.acquisition.value.stopped == old(state).acquisition.value.stopped
      ensures cancelRequests == old(cancelRequests)
    {
      hide Accepts, Apply, Enabled;
      ConnectChanges(state, decided, armed, window);
      Record(ConnectStarted(decided, armed, window));
    }

    ghost predicate ConnectOpen(before: Acquisition, after: Acquisition) {
      && after.phase.Connecting?
      && ConnectUsed(before, Some(after.(phase := Between)))
    }

    // A moment may pass before the timeout is armed.
    lemma StillMayConnect(before: real, decided: real, armed: real, window: real)
      requires Enabled(state, ConnectStarted(decided, before, window)) && before <= armed
      ensures Enabled(state, ConnectStarted(decided, armed, window))
    {
    }

    ghost method FinishConnect(at: real, ended: Exit<()>, expired: bool, cancelled: bool, requested: bool)
      requires Held() && pending != null && state.acquisition.Some?
      requires state.acquisition.value.phase.Connecting? && state.acquisition.value.last <= at <= now
      modifies this
      ensures Held()
      ensures var a := old(state).acquisition.value;
              OnlyAcquisition(CloseWindow(a, at, a.phase.window).(
                stopped := a.stopped || SetupFailure(ended, expired)))
      ensures state.clean <==> ended.Return? && !expired && !cancelled
      ensures CutOutside(ended, expired, cancelled, requested) ==> state.requested
      ensures history == old(history) + [ConnectEnded(at, ended, expired, cancelled, requested)]
      ensures cancelRequests == old(cancelRequests)
    {
      hide Accepts, Apply;
      ConnectEndChanges(state, at, ended, expired, cancelled, requested);
      Record(ConnectEnded(at, ended, expired, cancelled, requested));
    }

    // `client.connect()` inside its timeout: how it ended, whether the timeout
    // expired, and whether that was what cancelled the task.
    method ConnectInTimeout(candidate: TtlockBleClient, decided: real, window: real)
      returns (ended: Exit<()>, expired: bool, ownExpiry: bool)
      requires Held() && MayConnectNow(candidate, decided, window)
      modifies this
      ensures Held() && SameRequest() && pending == candidate && Delivers(false)
      ensures ended.Raise? ==> ended.error != Ownership && ended.error != Unknown
      ensures ConnectUsed(old(state).acquisition.value, state.acquisition)
      ensures state.acquisition.value.stopped <==>
                old(state).acquisition.value.stopped || SetupFailure(ended, expired)
      ensures ConnectRecorded(ended, expired) && client == null
      ensures state.clean <==> ended.Return? && !expired && cancelRequests == 0
      ensures ownExpiry <==> expired && cancelRequests == old(cancelRequests)
      ensures CutOutside(ended, expired, cancelRequests > 0, cancelRequests != old(cancelRequests)) ==>
                state.requested
    {
      hide Accepts, Apply, Enabled, Agrees;
      var armed := ReadClock();
      FieldsAgree();
      StillMayConnect(old(now), decided, armed, window);
      BeginConnect(decided, armed, window);
      var cancelledBefore := cancelRequests;
      ended := SdkCall();
      expired := *;
      ownExpiry := expired && cancelRequests == cancelledBefore;
      var at := ReadClock();
      FinishConnect(at, ended, expired, cancelRequests > 0, cancelRequests != cancelledBefore);
      assert history[|history| - 1].ConnectEnded?;
    }

    // The record says how `connect` ended, whether the timeout expired, and
    // whether the task was being cancelled and was asked to since it was armed.
    twostate predicate ConnectRecorded(new ended: Exit<()>, expired: bool)
      reads this
    {
      exists k :: |old(history)| <= k < |history|
        && history[k].ConnectEnded? && history[k].ended == ended && history[k].expired == expired
        && history[k].cancelled == (cancelRequests > 0)
        && history[k].requested == (cancelRequests != old(cancelRequests))
    }

    // The same up to the end of the `try` body.  A backend may swallow a
    // cancellation and return; that is still a cancellation.  One that the
    // timeout itself made, and no caller, is a TimeoutError.
    method ConnectInWindow(candidate: TtlockBleClient, decided: real, window: real)
      returns (ended: Exit<()>, expired: bool, ghost raw: Exit<()>)
      requires Held() && MayConnectNow(candidate, decided, window)
      modifies this
      ensures Held() && SameRequest() && pending == candidate
      ensures ConnectRecorded(raw, expired) && client == null
      ensures var cutOff := raw == Raise(Cancelled) || (raw.Return? && (expired || cancelRequests > 0));
              ended == if !cutOff then raw
                       else if expired && cancelRequests == old(cancelRequests) then Raise(TimedOut)
                       else Raise(Cancelled)
      ensures ended.Return? ==> state.clean
      ensures ended.Raise? ==> ended.error != Ownership && ended.error != Unknown
      ensures Delivers(ended == Raise(Cancelled))
      ensures ConnectUsed(old(state).acquisition.value, state.acquisition)
      ensures state.acquisition.value.stopped <==>
                old(state).acquisition.value.stopped || (ended.Raise? && SetupFailure(ended, expired))
    {
      hide Accepts, Apply, Enabled, ConnectUsed, Agrees;
      var ownExpiry;
      ended, expired, ownExpiry := ConnectInTimeout(candidate, decided, window);
      raw := ended;
      if ended.Return? && (expired || cancelRequests > 0) {
        ended := Raise(Cancelled);
      }
      if ended == Raise(Cancelled) {
        if ownExpiry {
          ended := Raise(TimedOut);
        } else {
          CancelDelivered();
        }
      }
    }

    method ConnectBeforeDeadline(candidate: TtlockBleClient, decided: real, window: real)
      returns (exit: Exit<ConnectEnd>)
      requires Held() && MayConnectNow(candidate, decided, window)
      modifies this
      ensures Held() && SameRequest() && client == null
      ensures pending == candidate || pending == null
      ensures ConnectUsed(old(state).acquisition.value, state.acquisition)
      ensures exit == Return(Connected) ==> pending == candidate && state.clean
      ensures exit.Return? && exit.value.PhaseTimedOut? ==> exit.value.cleaned == (pending == null)
      ensures exit.Raise? ==> exit.error != Ownership && exit.error != Unknown
      ensures Delivers(exit == Raise(Cancelled))
      ensures exit.Raise? && exit.error != Cancelled ==> pending == candidate
      ensures exit != Raise(Cancelled) ==>
                (state.acquisition.value.stopped <==>
                   old(state).acquisition.value.stopped || (exit.Raise? && exit.error != TTLock))
    {
      hide Accepts, Apply, Enabled, Agrees, ConnectUsed;
      var ended, expired, _ := ConnectInWindow(candidate, decided, window);
      if ended.Return? {
        return Return(Connected);
      }
      if ended.error == Cancelled {
        var _ :- CleanupCandidate(candidate);
        return Raise(Cancelled);
      }
      if ended.error == TimedOut && expired {
        var cleaned :- CleanupCandidate(candidate);
        return Return(PhaseTimedOut(cleaned));
      }
      return Raise(ended.error);
    }

    // Publish a completed connection unless shutdown won.
    method AdoptConnectedCandidate(candidate: TtlockBleClient) returns (exit: Exit<TtlockBleClient?>)
      requires Held()
      requires pending == candidate ==> state.clean && Acquiring(state)
      modifies this
      ensures Held() && SameRequest()
      ensures old(pending) != candidate && !old(closing) ==> exit == Raise(Ownership)
      ensures Delivers(exit == Raise(Cancelled))
      ensures old(pending) == candidate && !old(closing) ==>
                && exit == Return(candidate) && client == candidate && broadcast && !disconnected
                && state.acquisition == old(state).acquisition
      ensures old(pending) == candidate && old(closing) ==>
                && client == null && (exit == Return(null) || exit == Raise(Cancelled))
                && state.acquisition == Some(old(state).acquisition.value.(stopped := true))
    {
      hide Accepts;
      if closingEvent {
        if pending == candidate {
          Record(Discarded);
        }
        var _ :- CleanupCandidate(candidate);
        return Return(null);
      }
      if pending != candidate {
        return Raise(Ownership);
      }
      Install(candidate);
      return Return(client);
    }

    method Install(candidate: TtlockBleClient)
      requires Held() && Acquiring(state) && pending == candidate && state.clean && !closing
      modifies this
      ensures Held() && SameOperation() && Delivers(false)
      ensures client == candidate && broadcast && !disconnected && !closing
    {
      hide Accepts, Apply, Enabled;
      MoveToInstalled(candidate);
      disconnected := false;
      Broadcast(true);
    }

    method MoveToInstalled(candidate: TtlockBleClient)
      requires Held() && Acquiring(state) && pending == candidate && state.clean && !closing
      modifies this
      ensures Agrees() && cleanupTask == null && state.teardown.Untried? && state.holder.Some?
      ensures SameOperation() && Delivers(false) && !state.attempt.running
      ensures client == candidate && pending == null
      ensures closing == old(closing) && disconnected == old(disconnected)
    {
      hide Accepts, Apply;
      pending := null;
      client := candidate;
      AdoptionChanges(state, candidate.generation);
      Record(Adopted(candidate.generation));
    }

    // ---- One acquisition --------------------------------------------------

    // The grant of one connect: never past the deadline, and none once it is.
    method GrantWindow(deadline: real, attempted: bool) returns (decided: real, window: real)
      requires Inv()
      modifies this`now
      ensures decided == now && old(now) <= now && Inv()
      ensures window == Min(if attempted then FRESH_SECONDS else CACHED_SECONDS, Max(0.0, deadline - decided))
    {
      hide Accepts;
      var phaseCap := if attempted then FRESH_SECONDS else CACHED_SECONDS;
      decided := Monotonic();
      window := Min(phaseCap, Max(0.0, deadline - decided));
    }

    // One pass of the acquisition loop.
    method ConnectOnce(active: bool, deadline: real, attempted: bool) returns (exit: Exit<Pass>)
      requires Held() && MayPass(active, deadline, attempted) && !closing
      modifies this
      ensures Held() && InAcquisition() && Acquiring(state) && NoLink()
      ensures Delivers(exit.Raise?) && (exit.Raise? ==> exit.error == Cancelled)
      ensures exit == Return(GiveUp) ==> Over()
      ensures exit == Return(TryFresh) ==> state.owner.Nobody? && Acquires(active, deadline)
      ensures exit == Return(TryFresh) && active && !attempted ==> MayScan(deadline)
      ensures exit == Return(TryFresh) && (!active || attempted) ==> Over()
      ensures exit.Return? && exit.value.Live? ==> client == exit.value.client && Made(client)
      ensures client == null || (exit.Return? && exit.value.Live?)
    {
      hide Accepts, Apply, Enabled, Agrees;
      var decided, window := GrantWindow(deadline, attempted);
      FieldsAgree();
      if window <= 0.0 {
        RunOut(decided);
        return Return(GiveUp);
      }
      MayCreate(active, deadline, attempted);
      var made := CreateCandidate();
      assert made.Return?;
      MayConnectTo(made.value, decided, window);
      var end := ConnectBeforeDeadline(made.value, decided, window);
      exit := SettlePass(made.value, end);
    }

    lemma MayCreate(active: bool, deadline: real, attempted: bool)
      requires Held() && MayPass(active, deadline, attempted) && !closing
      ensures Enabled(state, Created(nextGeneration + 1)) && pending == null
    {
    }

    lemma MayConnectTo(candidate: TtlockBleClient, decided: real, window: real)
      requires Held() && Acquiring(state) && pending == candidate && !state.clean
      requires var a := state.acquisition.value;
               && MayConnect(a) && a.last <= decided <= now
               && 0.0 < window && window == Min(PhaseCap(a), Deadline(a) - decided)
      ensures MayConnectNow(candidate, decided, window)
    {
    }

    // The installed client was connected by this acquisition.
    twostate predicate Made(new c: TtlockBleClient)
      reads this, c
    {
      && fresh(c) && c.Valid() && c.point == NotRunning
      && state.acquisition.Some?
      && state.acquisition.value.cachedConnects + state.acquisition.value.freshConnects > 0
    }

    // What follows a connect phase: retry policy, or adoption.
    method SettlePass(candidate: TtlockBleClient, end: Exit<ConnectEnd>) returns (exit: Exit<Pass>)
      requires Held() && client == null && (pending == null || pending == candidate)
      requires Acquiring(state) && candidate.Valid() && candidate.point == NotRunning
      requires end == Return(Connected) ==> pending == candidate && state.clean
      requires end.Return? && end.value.PhaseTimedOut? ==> end.value.cleaned == (pending == null)
      requires end.Raise? && end.error != Cancelled ==> pending == candidate
      requires end.Raise? && end.error != Cancelled && end.error != TTLock ==>
                 state.acquisition.value.stopped
      modifies this
      ensures Held() && SameRequest() && Acquiring(state)
      ensures exit.Raise? ==> exit.error == Cancelled
      ensures end == Raise(Cancelled) ==> exit == Raise(Cancelled)
      ensures end != Raise(Cancelled) ==> Delivers(exit.Raise?)
      ensures exit == Return(GiveUp) ==> Over()
      ensures exit == Return(TryFresh) ==>
                && state.owner.Nobody? && state.acquisition == old(state).acquisition
                && (end.Raise? ==> end.error == TTLock)
      ensures exit.Return? && exit.value.Live? ==> client == exit.value.client == candidate
      ensures client == null || (exit.Return? && exit.value.Live?)
      ensures state.acquisition == old(state).acquisition
              || state.acquisition == Some(old(state).acquisition.value.(stopped := true))
    {
      hide Accepts, Apply, Enabled;
      if end.Raise? {
        if end.error == Cancelled {
          return Raise(Cancelled);
        }
        var cleaned :- CleanupCandidate(candidate);
        return Return(if end.error == TTLock && cleaned then TryFresh else GiveUp);
      }
      if end.value.PhaseTimedOut? {
        return Return(if end.value.cleaned then TryFresh else GiveUp);
      }
      var adopted :- AdoptConnectedCandidate(candidate);
      return Return(if adopted == null then GiveUp else Live(adopted));
    }

    method AcquireSession(active: bool, deadline: real) returns (exit: Exit<TtlockBleClient?>)
      requires Held() && Acquires(active, deadline) && Unused() && state.owner.Nobody?
      modifies this
      ensures Held() && InAcquisition() && Acquiring(state) && NoLink()
      ensures Delivers(exit.Raise?) && (exit.Raise? ==> exit.error == Cancelled)
      ensures exit == Return(null) ==> Over()
      ensures exit.Return? && exit.value != null ==> client == exit.value && Made(client)
      ensures client == null || exit == Return(client)
    {
      hide Accepts, Apply, Enabled;
      var candidate, attempted := ResolveInitialCandidate(active, deadline);
      var found :- candidate;
      while found && !closingEvent
        invariant Held() && InAcquisition() && client == null && Acquiring(state) && NoLink() && Delivers(false)
        invariant if found then MayPass(active, deadline, attempted) else Over()
        decreases found, !attempted
      {
        var pass :- ConnectOnce(active, deadline, attempted);
        if pass.Live? {
          return Return(pass.client);
        }
        if pass.GiveUp? || closingEvent || !active || attempted {
          return Return(null);
        }
        attempted := true;
        found :- WaitForDevice(deadline);
      }
      return Return(null);
    }

    ghost method EndAcquisition(live: bool)
      requires Held() && Acquiring(state)
      requires var a := state.acquisition.value;
               if live then client != null && (a.link.Up? || a.cachedConnects + a.freshConnects > 0)
               else Over() && !a.link.Up?
      modifies this
      ensures Held() && InAcquisition() && Idle() && Delivers(false)
      ensures client == old(client) && pending == old(pending) && closing == old(closing)
      ensures Settled(live)
    {
      hide Accepts, Apply;
      EndChanges(state, live);
      Record(AcquisitionEnded(live));
    }

    // The acquisition returned a client, or none; a reconciliation's one was its
    // search for a replacement.
    ghost predicate Settled(live: bool)
      reads this
    {
      && state.acquisition.Some? && state.acquisition.value.ended && state.acquisition.value.live == live
      && (state.attempt.reconciling ==> if live then state.search.Found? else state.search.NotFound?)
    }

    // The tail of an acquisition: no client was installed or it was down.
    method ReplaceSession(active: bool, deadline: real) returns (exit: Exit<TtlockBleClient?>)
      requires Held() && Acquires(active, deadline) && Unused()
      modifies this
      ensures Held() && InAcquisition() && Idle()
      ensures Delivers(exit.Raise?) && (exit.Raise? ==> exit.error == Cancelled)
      ensures exit.Return? ==> Settled(exit.value != null)
      ensures exit.Return? && exit.value != null ==>
                client == exit.value && fresh(client) && client.Valid() && client.point == NotRunning
      ensures client == null || exit == Return(client)
    {
      hide Accepts, Apply, Enabled;
      var cleaned :- DisconnectLocked();
      if !cleaned {
        EndAcquisition(false);
        return Return(null);
      }
      exit := AcquireSession(active, deadline);
      if exit.Return? {
        EndAcquisition(exit.value != null);
      }
    }

    // The operation may begin an acquisition for this purpose.
    ghost predicate MayAcquire(active: bool, intent: Intent)
      reads this
    {
      && Idle() && state.holder.Some? && Policy(state, active, AcquisitionBudget(intent))
      && if state.attempt.reconciling
         then Left(state) && state.attempt.linked == Some(false) && state.search.NotBegun?
         else state.acquisition.None?
    }

    ghost method BeginAcquisition(active: bool, started: real, intent: Intent)
      requires Held() && MayAcquire(active, intent) && started <= now
      modifies this
      ensures Held() && SameFields()
      ensures state == old(state).(acquisition := state.acquisition, search := state.search)
      ensures state.acquisition == Some(Acquisition(active, started, AcquisitionBudget(intent), started, 0.0, Between,
                0, 0, 0, if state.owner.Installed? then Unread else NoClient, Unsought, false, false, false,
                state.interruptions))
    {
      hide Accepts, Apply;
      StartChanges(state, active, started, AcquisitionBudget(intent));
      Record(AcquisitionStarted(active, started, AcquisitionBudget(intent)));
    }

    // Reuse the installed client if it still reports connected.
    method ReadLink() returns (connected: bool)
      requires Held() && Acquiring(state) && client != null
      modifies this
      ensures Held()
      ensures OnlyAcquisition(old(state).acquisition.value.(link := if connected then Up else Down))
    {
      hide Accepts;
      connected := *;
      Record(LinkRead(connected));
    }

    // An acquisition has just begun.
    ghost predicate Begun(active: bool, deadline: real)
      reads this
    {
      && Acquiring(state) && Unused()
      && var a := state.acquisition.value;
         && !a.stopped && a.active == active && Deadline(a) == deadline
         && (if client != null then a.link.Unread? else a.link.NoClient?)
    }

    // Return a live client, opening a new session if needed.
    method EnsureConnected(active: bool, intent: Intent) returns (exit: Exit<TtlockBleClient?>)
      requires Held() && MayAcquire(active, intent)
      modifies this
      ensures Held() && SameRequest() && Idle() && Left(state)
      ensures Delivers(exit.Raise?) && (exit.Raise? ==> exit.error == Cancelled)
      ensures old(closing) ==> exit == Return(null) && client == old(client) && pending == old(pending)
      ensures exit == Return(null) && !old(closing) ==> client == null
      ensures exit.Return? ==> Settled(exit.value != null)
      ensures exit.Return? && exit.value != null ==>
                && client == exit.value
                && (client == old(client) ||
                    (fresh(client) && client.Valid() && client.point == NotRunning))
      ensures client == null || client == old(client) || exit == Return(client)
    {
      hide Accepts, Apply, Enabled, Agrees, Policy;
      var started := ReadClock();
      BeginAcquisition(active, started, intent);
      var deadline := started + AcquisitionBudget(intent);
      FieldsAgree();
      if closing {
        EndAcquisition(false);
        return Return(null);
      }
      exit := ReuseOrReplace(active, deadline);
    }

    // Keep the installed client if it still reports connected, once a retained
    // one is torn down.
    method ReuseOrReplace(active: bool, deadline: real) returns (exit: Exit<TtlockBleClient?>)
      requires Held() && Begun(active, deadline)
      modifies this
      ensures Held() && InAcquisition() && Idle()
      ensures Delivers(exit.Raise?) && (exit.Raise? ==> exit.error == Cancelled)
      ensures exit == Return(null) ==> client == null
      ensures exit.Return? ==> Settled(exit.value != null)
      ensures exit.Return? && exit.value != null ==>
                && client == exit.value
                && (client == old(client) ||
                    (fresh(client) && client.Valid() && client.point == NotRunning))
      ensures client == null || client == old(client) || exit == Return(client)
    {
      hide Accepts, Apply, Enabled, Agrees;
      FieldsAgree();
      var cleaned :- RetryPendingCleanup();
      FieldsAgree();
      if !cleaned {
        EndAcquisition(false);
        return Return(null);
      }
      if client != null {
        var isConnected := ReadLink();
        if isConnected {
          EndAcquisition(true);
          return Return(client);
        }
      }
      exit := ReplaceSession(active, deadline);
    }

    // ---- The mutex --------------------------------------------------------

    // With the mutex free no client runs a control.
    ghost predicate AtRest()
      reads this, client
    {
      Valid() && (client != null ==> client.Valid() && !client.active)
    }

    ghost predicate HeldAtRest()
      reads this, client
    {
      Held() && Idle() && Left(state) && (client != null ==> client.Valid() && !client.active)
    }

    method AcquireMutex(op: Op)
      requires AtRest() && !op.Inventory?
      modifies this
      ensures HeldAtRest() && client == old(client) && pending == old(pending)
      ensures closing == old(closing) && now == old(now) && cleanupConfirmed == old(cleanupConfirmed)
      ensures history == old(history) + [Acquired(op)]
      ensures state == old(state).(holder := Some(op), serial := old(state).serial + 1,
                requested := false, interruptions := 0, failures := 0, work := NO_WORK, acquisition := None,
                attempt := NO_ATTEMPT, search := NotBegun)
    {
      hide Accepts, Apply;
      AcquiringChanges(state, op);
      Record(Acquired(op));
      cancelRequests := *;
    }

    method ReleaseMutex(verdict: Verdict)
      requires HeldAtRest() && MayRelease(state, verdict)
      modifies this
      ensures AtRest() && client == old(client) && pending == old(pending)
      ensures closing == old(closing) && broadcast == old(broadcast)
      ensures now == old(now) && cleanupConfirmed == old(cleanupConfirmed)
      ensures history == old(history) + [Released(verdict)]
      ensures state == old(state).(holder := None, acquisition := None, attempt := NO_ATTEMPT, work := NO_WORK,
                                          search := NotBegun)
    {
      hide Accepts, Apply, MayRelease;
      ReleasingChanges(state, verdict);
      Record(Released(verdict));
    }

    function VerdictOf<T>(exit: Exit<T>): Verdict {
      if exit.Return? then Completed
      else if exit.error == Unknown then OutcomeUnknown
      else if exit.error == Cancelled then Aborted
      else Refused
    }

    // The whole operation was recorded, from its Acquired to its Released.
    twostate predicate Performed(op: Op, verdict: Verdict)
      reads this
    {
      && |old(history)| + 2 <= |history|
      && old(history) <= history
      && history[|old(history)|] == Acquired(op)
      && history[|history| - 1] == Released(verdict)
      && state.serial == old(state).serial + 1
      && state.gate == old(state).gate
    }

    // ---- Queries, management, shutdown and inventory ----------------------

    lemma MayNote(e: Event)
      requires Held() && client != null && MayAsk(state) && (e.StateRead? || e.QueryFailed?)
      ensures Enabled(state, e)
    {
    }

    ghost method NoteRead(locked: Option<bool>)
      requires Held() && client != null && MayAsk(state)
      modifies this
      ensures Held() && SameFields() && history == old(history) + [StateRead(locked)]
      ensures state == old(state).(
                work := old(state).work.(answer := Some(locked)),
                attempt := old(state).attempt.(asked := true, confirmed := state.attempt.confirmed))
      ensures state.attempt.confirmed <==>
                || old(state).attempt.confirmed
                || (old(state).attempt.reconciling && Commanded(state.holder.value, locked))
    {
      hide Accepts, Apply, Enabled, MayAsk;
      MayNote(StateRead(locked));
      ReadChanges(state, locked);
      Record(StateRead(locked));
    }

    ghost method NoteFailure(error: Error)
      requires Held() && client != null && MayAsk(state)
      modifies this
      ensures Held() && SameFields()
      ensures state.attempt.confirmed == old(state).attempt.confirmed
      ensures state == old(state).(
                work := old(state).work.(failure := Some(error)),
                attempt := old(state).attempt.(asked := true, confirmed := state.attempt.confirmed))
    {
      hide Accepts, Apply, Enabled, MayAsk;
      MayNote(QueryFailed(error));
      FailureChanges(state, error);
      Record(QueryFailed(error));
    }

    // `client.query_state()` on the installed client.
    method AskState() returns (exit: Exit<Option<bool>>)
      requires Held() && client != null && MayAsk(state)
      modifies this
      ensures Held() && SameFields() && SameButAnswer()
      ensures state.attempt == old(state).attempt.(asked := true, confirmed := state.attempt.confirmed)
      ensures state.attempt.confirmed <==>
                || old(state).attempt.confirmed
                || (exit.Return? && old(state).attempt.reconciling && Commanded(state.holder.value, exit.value))
      ensures if exit.Return?
              then state.work.answer == Some(exit.value) && state.work.failure == old(state).work.failure
              else state.work.answer == old(state).work.answer && state.work.failure == Some(exit.error)
      ensures exit.Return? ==> |old(history)| < |history| && history[|history| - 1] == StateRead(exit.value)
      ensures exit.Raise? ==> exit.error != Ownership && exit.error != Unknown
      ensures Delivers(exit == Raise(Cancelled))
    {
      hide Accepts, Agrees, Enabled, Apply, Commanded;
      var ended := Sdk();
      if ended.Raise? {
        NoteFailure(ended.error);
        return Raise(ended.error);
      }
      var locked: Option<bool> := *;
      NoteRead(locked);
      return Return(locked);
    }

    twostate predicate SameButAnswer()
      reads this
    {
      && state.acquisition == old(state).acquisition && state.holder == old(state).holder
      && state.serial == old(state).serial && state.gate == old(state).gate
      && state.work.call == old(state).work.call
      && old(state).interruptions <= state.interruptions && old(state).failures <= state.failures
    }

    // The state read, or None when the lock is out of reach or the query fails.
    method QueryState(active: bool) returns (exit: Exit<Option<Option<bool>>>)
      requires AtRest()
      modifies this
      ensures OldOrFreshClient()
      ensures AtRest() && Performed(Query, if exit.Return? then Answered(exit.value) else Aborted)
      ensures exit.Raise? ==> exit.error == Cancelled
      ensures exit.Return? && exit.value.Some? ==> history[|history| - 2] == StateRead(exit.value.value)
      ensures exit == Return(None) && !old(closing) ==> client == null
      ensures old(closing) ==> exit == Return(None)
    {
      hide Accepts, Enabled, Apply, Agrees, MayRelease, HeldAtRest, AtRest;
      AcquireMutex(Query);
      exit := QueryLocked(active);
      ReleaseMutex(if exit.Return? then Answered(exit.value) else Aborted);
    }

    method QueryLocked(active: bool) returns (exit: Exit<Option<Option<bool>>>)
      requires HeldAtRest() && state.holder == Some(Query) && state.attempt == NO_ATTEMPT
      requires state.acquisition.None? && state.work == NO_WORK && state.interruptions == 0
      modifies this
      ensures OldOrFreshClient()
      ensures HeldAtRest() && SameMutex() && state.holder == Some(Query)
      ensures MayRelease(state, if exit.Return? then Answered(exit.value) else Aborted)
      ensures exit.Raise? ==> exit.error == Cancelled
      ensures exit.Return? && exit.value.Some? ==>
                |old(history)| < |history| && history[|history| - 1] == StateRead(exit.value.value)
      ensures exit == Return(None) && !old(closing) ==> client == null
      ensures old(closing) ==> exit == Return(None)
    {
      hide Accepts, Enabled, Apply, Agrees;
      var live :- EnsureConnected(active, if active then UnknownBootstrap else RoutineQuery);
      if live == null {
        return Return(None);
      }
      var answer := AskState();
      FieldsAgree();
      if answer.Return? {
        return Return(Some(answer.value));
      }
      if answer.error != Cancelled {
        var _ :- DisconnectLocked();
        return Return(None);
      }
      return Raise(Cancelled);
    }

    twostate predicate OldOrFreshClient()
      reads this
    {
      client == null || client == old(client) || fresh(client)
    }

    twostate predicate SameMutex()
      reads this
    {
      && old(history) <= history && old(now) <= now
      && cleanupConfirmed == old(cleanupConfirmed)
      && state.serial == old(state).serial && state.gate == old(state).gate
    }

    ghost method NoteCall(ended: Exit<()>)
      requires Held() && Served(state)
      requires state.holder.value.Management? || state.holder.value.OperationLog? || state.holder.value.Inventory?
      modifies this
      ensures Held() && SameFields()
      ensures state == old(state).(work := old(state).work.(call := Some(ended)))
    {
      hide Accepts, Apply;
      CallChanges(state, ended);
      Record(CallEnded(ended));
    }

    // The operation's own call of the SDK, on the client it acquired.
    method RunCall() returns (ended: Exit<()>)
      requires Held() && Served(state)
      requires state.holder.value.Management? || state.holder.value.OperationLog? || state.holder.value.Inventory?
      modifies this
      ensures Held() && OnlyCalled() && state.work.call == Some(ended)
      ensures ended.Raise? ==> ended.error != Ownership && ended.error != Unknown
      ensures Delivers(ended == Raise(Cancelled))
    {
      hide Accepts, Enabled, Apply, Agrees;
      ended := Sdk();
      NoteCall(ended);
    }

    twostate predicate OnlyCalled()
      reads this
    {
      && SameFields()
      && state == old(state).(up := state.up, closing := state.closing, requested := state.requested,
                              interruptions := state.interruptions, work := state.work)
      && old(state).interruptions <= state.interruptions
    }

    // A management command: every failure tears the session down, and none but
    // a cancellation escapes as anything other than TTLockError.
    method RunManagement(active: bool) returns (exit: Exit<()>)
      requires AtRest()
      modifies this
      ensures OldOrFreshClient()
      ensures AtRest() && Performed(Management, VerdictOf(exit))
      ensures exit.Raise? ==> exit.error == Cancelled || exit.error == TTLock
      ensures exit == Raise(Cancelled) <==> Interrupts(state)
      ensures exit == Raise(TTLock) ==> client == null || old(closing)
    {
      hide Accepts, Enabled, Apply, Agrees, MayRelease, HeldAtRest, AtRest;
      AcquireMutex(Management);
      exit := ManagementLocked(active);
      ReleaseMutex(VerdictOf(exit));
    }

    method ManagementLocked(active: bool) returns (exit: Exit<()>)
      requires HeldAtRest() && state.holder == Some(Management) && state.attempt == NO_ATTEMPT
      requires state.acquisition.None? && state.work == NO_WORK && state.interruptions == 0
      modifies this
      ensures OldOrFreshClient()
      ensures HeldAtRest() && SameMutex() && state.holder == Some(Management)
      ensures MayRelease(state, VerdictOf(exit))
      ensures exit.Raise? ==> exit.error == Cancelled || exit.error == TTLock
      ensures exit == Raise(Cancelled) <==> Interrupts(state)
      ensures exit == Raise(TTLock) ==> client == null || old(closing)
    {
      hide Accepts, Enabled, Apply, Agrees;
      var live := EnsureConnected(active, ManagementCommand);
      if live.Raise? || live.value == null {
        return Raise(if live.Raise? then live.error else TTLock);
      }
      exit := RunCall();
      FieldsAgree();
      if exit.Raise? && exit.error != Cancelled {
        var cleaned := DisconnectLocked();
        exit := Raise(if cleaned.Raise? then cleaned.error else TTLock);
      }
    }

    // Fetching the operation log keeps the session whatever the SDK raises.
    method FetchOperationLog() returns (exit: Exit<bool>)
      requires AtRest()
      modifies this
      ensures OldOrFreshClient()
      ensures AtRest() && Performed(OperationLog, if exit.Return? then Fetched(exit.value) else Aborted)
      ensures exit.Raise? ==> exit.error == Cancelled
      ensures exit == Return(true) ==> client != null
    {
      hide Accepts, Enabled, Apply, Agrees, MayRelease, HeldAtRest, AtRest;
      AcquireMutex(OperationLog);
      exit := FetchLocked();
      ReleaseMutex(if exit.Return? then Fetched(exit.value) else Aborted);
    }

    method FetchLocked() returns (exit: Exit<bool>)
      requires HeldAtRest() && state.holder == Some(OperationLog) && state.attempt == NO_ATTEMPT
      requires state.acquisition.None? && state.work == NO_WORK && state.interruptions == 0
      modifies this
      ensures OldOrFreshClient()
      ensures HeldAtRest() && SameMutex() && state.holder == Some(OperationLog)
      ensures MayRelease(state, if exit.Return? then Fetched(exit.value) else Aborted)
      ensures exit.Raise? ==> exit.error == Cancelled
      ensures exit == Return(true) ==> client != null
    {
      hide Accepts, Enabled, Apply, Agrees;
      var live :- EnsureConnected(false, OperationLogFetch);
      if live == null {
        return Return(false);
      }
      var ended := RunCall();
      FieldsAgree();
      return if ended == Raise(Cancelled) then Raise(Cancelled) else Return(ended.Return?);
    }

    // One turn of the maintenance loop under the mutex.  A stop or a drop since
    // the session was adopted is not missed by the wait that follows.
    method Maintain() returns (exit: Exit<bool>)
      requires AtRest()
      modifies this
      ensures OldOrFreshClient()
      ensures AtRest() && Performed(Maintenance, VerdictOf(exit))
      ensures exit.Raise? ==> exit.error == Cancelled
      ensures exit == Return(false) && !old(closing) ==> client == null
      ensures exit == Return(true) ==> client != null && (closing || !broadcast ==> disconnected)
    {
      hide Accepts, Enabled, Apply;
      AcquireMutex(Maintenance);
      var live := EnsureConnected(false, BackgroundMaintenance);
      ReleaseMutex(if live.Raise? then Aborted else Completed);
      return if live.Raise? then Raise(live.error) else Return(live.value != null);
    }

    // `async_stop` once it has the mutex: it returns only with nothing owned
    // and the link announced down, and fails only after two teardowns failed.
    method FinishStop() returns (exit: Exit<()>)
      requires AtRest()
      modifies this
      ensures AtRest() && Performed(Shutdown, VerdictOf(exit))
      ensures exit.Return? ==> client == null && pending == null && !broadcast
      ensures exit.Raise? ==>
                exit.error == Cancelled || (exit.error == TTLock && pending != null && state.failures >= 2)
      ensures exit == Raise(Cancelled) <==> Interrupts(state)
      ensures client == null
    {
      hide Accepts, Enabled, Apply, Agrees, MayRelease;
      AcquireMutex(Shutdown);
      exit := StopLocked();
      FieldsAgree();
      ReleaseMutex(VerdictOf(exit));
      FieldsAgree();
    }

    method StopLocked() returns (exit: Exit<()>)
      requires HeldAtRest() && state.holder == Some(Shutdown) && state.attempt == NO_ATTEMPT
      requires state.acquisition.None? && state.interruptions == 0
      modifies this
      ensures HeldAtRest() && SameMutex() && state.holder == Some(Shutdown) && client == null
      ensures MayRelease(state, VerdictOf(exit))
      ensures exit.Return? ==> pending == null && !broadcast
      ensures exit.Raise? ==>
                exit.error == Cancelled || (exit.error == TTLock && pending != null && state.failures >= 2)
      ensures exit == Raise(Cancelled) <==> Interrupts(state)
    {
      hide Accepts, Enabled, Apply, Agrees;
      var cleaned := DisconnectLocked();
      if cleaned == Return(false) {
        cleaned := RetryPendingCleanup();
      }
      FieldsAgree();
      exit := if cleaned.Raise? then Raise(cleaned.error)
              else if cleaned.value then Return(()) else Raise(TTLock);
    }

    // The gate of a read: refused while a control waits, the mutex is held or
    // the connection closes.
    predicate GateOpen(controlRequests: nat, mutexLocked: bool)
      reads this
    {
      controlRequests == 0 && !mutexLocked && !closing
    }

    ghost method PassGate()
      requires AtRest() && state.gate.NoRead? && !closing
      modifies this`history, this`state
      ensures Recorded() && history == old(history) + [GatePassed(0)]
      ensures state == old(state).(gate := AtOnce)
    {
      hide Accepts;
      Record(GatePassed(0));
    }

    // The read passes its gate and takes the mutex, which no task waits for.
    method EnterAtOnce()
      requires AtRest() && state.gate.NoRead? && !closing
      modifies this
      ensures HeldAtRest() && client == old(client) && pending == old(pending) && closing == old(closing)
      ensures history == old(history) + [GatePassed(0), Acquired(Inventory)]
      ensures state == old(state).(holder := Some(Inventory), serial := old(state).serial + 1,
                requested := false, interruptions := 0, failures := 0, work := NO_WORK, acquisition := None,
                attempt := NO_ATTEMPT, search := NotBegun)
    {
      hide Accepts, Apply;
      PassGate();
      AcquiringChanges(state, Inventory);
      Record(Acquired(Inventory));
      cancelRequests := *;
    }

    // The read passes its gate and queues for the mutex, which is on its way to
    // a task that waited for it.
    method JoinQueue(ahead: nat)
      requires AtRest() && state.gate.NoRead? && !closing && ahead > 0
      modifies this
      ensures AtRest() && client == old(client) && pending == old(pending)
      ensures state == old(state).(gate := Queued) && history == old(history) + [GatePassed(ahead)]
    {
      hide Accepts;
      Record(GatePassed(ahead));
    }

    // The read is cancelled in the queue.
    method LeaveQueue()
      requires AtRest() && state.gate.Queued?
      modifies this
      ensures AtRest() && client == old(client) && pending == old(pending)
      ensures state == old(state).(gate := NoRead) && history == old(history) + [Abandoned]
    {
      hide Accepts;
      Record(Abandoned);
    }

    // The read takes its turn.
    method LeaveForMutex()
      requires AtRest() && state.gate.Queued?
      modifies this
      ensures HeldAtRest() && client == old(client) && pending == old(pending)
      ensures history == old(history) + [Acquired(Inventory)]
      ensures state == old(state).(holder := Some(Inventory), serial := old(state).serial + 1, gate := NoRead,
                requested := false, interruptions := 0, failures := 0, work := NO_WORK, acquisition := None,
                attempt := NO_ATTEMPT, search := NotBegun)
    {
      hide Accepts, Apply;
      AcquiringChanges(state, Inventory);
      Record(Acquired(Inventory));
      cancelRequests := *;
    }

    // An inventory read that has the mutex.  Whatever happens in it, also a
    // cancellation or its own deadline, it ends with the teardown.
    method ReadInventory() returns (exit: Exit<()>)
      requires HeldAtRest() && state.holder == Some(Inventory) && state.gate.NoRead? && state.attempt == NO_ATTEMPT
      requires state.acquisition.None? && state.work == NO_WORK && state.interruptions == 0
      modifies this
      ensures AtRest() && client == null && state.gate.NoRead?
      ensures old(history) <= history && |old(history)| < |history| && state.serial == old(state).serial
      ensures history[|history| - 1] == Released(Closed(pending == null, exit.Return?))
      ensures cleanupConfirmed == Some(pending == null)
    {
      hide Accepts, Enabled, Apply, Agrees;
      exit := ReadPages();
      var cleaned := DisconnectLocked();
      cleanupConfirmed := Some(client == null && pending == null);
      if cleaned.Raise? {
        exit := Raise(cleaned.error);
      }
      FieldsAgree();
      ReleaseMutex(Closed(pending == null, exit.Return?));
    }

    // The `try` body of the read, inside its operation deadline.
    method ReadPages() returns (exit: Exit<()>)
      requires HeldAtRest() && state.holder == Some(Inventory) && state.attempt == NO_ATTEMPT
      requires state.acquisition.None? && state.work == NO_WORK && state.interruptions == 0
      modifies this
      ensures Held() && Idle() && Left(state) && SameMutex()
      ensures state.holder == Some(Inventory) && state.attempt == NO_ATTEMPT
      ensures exit.Return? <==> Succeeded(state.work.call)
      ensures state.work.call.Some? || Unserved(state) || Interrupts(state)
      ensures exit.Return? ==> !Interrupts(state)
    {
      hide Accepts, Enabled, Apply, Agrees;
      var live := EnsureConnected(true, InventoryRead);
      exit := if live.Raise? then Raise(live.error)
              else if live.value == null then Raise(Other) else Return(());
      if exit.Return? {
        exit := RunCall();
      }
      var operationDeadline: bool := *;
      if exit == Raise(Cancelled) && operationDeadline {
        exit := Raise(TimedOut);
      }
    }

    // ---- Explicit control -------------------------------------------------

    // What the record says of the request is what its client went through.
    ghost predicate Tied(c: TtlockBleClient)
      reads this, c
    {
      && Busy() && client == c && c.Valid()
      && (c.active || c.point.Ended?)
      && state.attempt.started
      && !state.attempt.reconciling && !state.attempt.reconciled && !state.attempt.confirmed
      && state.attempt.running == c.active
      && state.attempt.written == (c.writes == 1)
      && state.attempt.matched == c.ackReceived
      && state.attempt.accepted == (c.point.Ended? && c.point.outcome.Return?)
      && state.attempt.rejected ==
           (c.writes == 1 && c.point.Ended? && c.point.outcome.Raise? && c.point.outcome.error != Unknown)
      && (c.point.Ended? && c.point.outcome.Raise? ==> c.point.outcome.error != Ownership)
      && (c.point == Ended(Raise(Cancelled)) ==> Interrupts(state))
      && state.holder.value.Control?
      && (c.active ==> c.opcode == match state.holder.value.action
                                   case Lock => Some(LockBolt)
                                   case Unlock => Some(UnlockBolt))
    }

    // The same; and a request is withdrawn only by the cancellation that ends it.
    ghost predicate Linked(c: TtlockBleClient)
      reads this, c
    {
      Tied(c) && (state.attempt.withdrawn ==> c.point == Ended(Raise(Cancelled)))
    }

    // Only the control request, callbacks and time moved.
    twostate predicate OnlyControl()
      reads this
    {
      && SameFields()
      && state == old(state).(up := state.up, closing := state.closing, requested := state.requested,
                              interruptions := state.interruptions, attempt := state.attempt,
                              search := state.search)
      && (state.up ==> old(state).up)
      && (old(state).requested ==> state.requested)
      && old(state).interruptions <= state.interruptions
    }

    ghost method NoteControl(e: Event)
      requires Busy() && Enabled(state, e)
      requires e.OperationStarted? || e.ControlWritten? || e.ReplyMatched? || e.ReplyAccepted?
               || e.ReplyRejected? || e.OperationEnded?
      modifies this
      ensures Busy() && OnlyControl() && Delivers(false)
      ensures closing == old(closing)
      ensures state.attempt == NextAttempt(old(state).attempt, old(state).holder, old(state).interruptions, e)
    {
      hide Accepts;
      Record(e);
    }

    // A cancellation reaches the request; before its write that withdraws it.
    method Withdraw()
      requires Busy()
      modifies this
      ensures Busy() && OnlyControl() && Delivers(true) && closing == old(closing)
      ensures state.attempt == old(state).attempt.(withdrawn := state.attempt.withdrawn)
      ensures state.attempt.withdrawn <==>
                old(state).attempt.withdrawn || (state.attempt.running && !state.attempt.written)
    {
      hide Accepts, Apply;
      NoteCallCancelled();
      InterruptionChanges(state);
      Record(Interrupted);
    }

    // Any exception of the SDK, or a cancellation of the control task.
    method AnySdkError() returns (error: Error)
      requires Busy()
      modifies this
      ensures Busy() && OnlyControl() && closing == old(closing)
      ensures state.attempt == old(state).attempt.(withdrawn := state.attempt.withdrawn)
      ensures error != Unknown && error != Ownership
      ensures error != Cancelled ==> state.attempt == old(state).attempt
      ensures state.attempt.withdrawn <==>
                || old(state).attempt.withdrawn
                || (error == Cancelled && state.attempt.running && !state.attempt.written)
      ensures Delivers(error == Cancelled)
    {
      hide Accepts, Enabled, Apply, Agrees;
      error := *;
      if error == Unknown || error == Ownership {
        error := Other;
      }
      if error == Cancelled {
        Withdraw();
      }
    }

    function ControlCommand(action: Action): Command {
      if action.Lock? then LockBolt else UnlockBolt
    }

    // One stretch of the control task before the control exchange.
    method StepTowardsControl(c: TtlockBleClient)
      requires Linked(c) && (c.point.WaitingForCommandLock? || c.point.Authenticating?)
      modifies this, c
      ensures Linked(c) && OnlyControl() && !state.attempt.written
      ensures old(closing) ==> !c.point.Controlling?
    {
      hide Accepts, Apply, Enabled;
      var fails: bool := *;
      if fails {
        var error := AnySdkError();
        c.RaisedBeforeControl(error);
      } else if c.point.WaitingForCommandLock? {
        c.EnterCommandLock(!closingEvent);
      } else {
        var frameStarts: bool := *;
        var frameEnds: bool := *;
        if frameStarts {
          c.BeginSend(CheckUserTime);
        } else if frameEnds {
          c.EndSend(CheckUserTime);
        } else {
          c.AuthenticationReturned(!closingEvent);
        }
      }
      if c.point.Ended? {
        EndOperation();
      }
    }

    ghost method EndOperation()
      requires Busy() && state.attempt.running
      modifies this
      ensures Held() && OnlyControl()
      ensures state.attempt == old(state).attempt.(running := false)
    {
      hide Accepts, Apply;
      NoteControl(OperationEnded);
    }

    method StartControlWrite(c: TtlockBleClient)
      requires Linked(c) && c.point.Controlling? && !c.Committed()
      modifies this, c
      ensures Linked(c) && OnlyControl() && c.Committed()
    {
      hide Accepts, Apply;
      var command := c.opcode.value;
      c.BeginSend(command);
      NoteControl(ControlWritten(command));
    }

    method ControlSucceeds(c: TtlockBleClient)
      requires Linked(c) && c.point.Controlling? && c.ackReceived
      modifies this, c
      ensures Linked(c) && OnlyControl() && c.point == Ended(Return(()))
    {
      hide Accepts, Apply;
      c.ControlReturned();
      NoteControl(ReplyAccepted);
      EndOperation();
    }

    method ControlFails(c: TtlockBleClient)
      requires Tied(c) && c.active
      modifies this, c
      ensures Tied(c) && OnlyControl() && c.point.Ended? && c.writes == old(c.writes)
      ensures !old(state).attempt.withdrawn ==> Linked(c)
    {
      hide Accepts, Apply, Enabled;
      var error := AnySdkError();
      if !c.point.Controlling? {
        c.RaisedBeforeControl(error);
        EndOperation();
        return;
      }
      c.ControlRaised(error);
      if c.writes == 1 && c.point.outcome.error != Unknown {
        NoteRejection();
      }
      EndOperation();
    }

    // A candidate reply to the control frame.
    method OfferReply(c: TtlockBleClient)
      requires Linked(c) && c.Committed()
      modifies this, c
      ensures Linked(c) && OnlyControl() && c.Committed()
    {
      hide Accepts, Apply;
      var reply: Reply := *;
      var seen := c.ackReceived;
      c.Answers(reply, c.opcode.value);
      if c.ackReceived && !seen {
        NoteControl(ReplyMatched);
      }
    }

    // One stretch of the control exchange: the SDK writes the control frame at
    // most once, offers replies, and returns exactly on an accepted one.
    method StepInControl(c: TtlockBleClient)
      requires Linked(c) && c.point.Controlling?
      modifies this, c
      ensures Linked(c) && OnlyControl()
      ensures old(c.Committed()) ==> c.Committed() || c.point.Ended?
    {
      hide Accepts, Apply, Enabled;
      if {
        case !c.Committed() => StartControlWrite(c);
        case c.Committed() => c.EndSend(c.opcode.value);
        case c.Committed() => OfferReply(c);
        case true => c.OnDisconnected();
        case c.ackReceived => ControlSucceeds(c);
        case true => ControlFails(c);
      }
    }

    // The control task and the environment run until the awaiter is resumed.
    method LetControlRun(c: TtlockBleClient)
      requires Linked(c)
      modifies this, c
      ensures Linked(c) && OnlyControl()
    {
      hide Accepts, Apply, Enabled;
      var steps: nat := *;
      while steps > 0
        invariant Linked(c) && OnlyControl()
      {
        Interfere();
        if c.point.Controlling? {
          StepInControl(c);
        } else if !c.point.Ended? {
          StepTowardsControl(c);
        }
        steps := steps - 1;
      }
    }

    // A control task cancelled before its first write ends without writing.
    method CancelControl(c: TtlockBleClient)
      requires Linked(c) && c.active && !c.Committed()
      modifies this, c
      ensures Tied(c) && OnlyControl() && !c.active && c.writes == 0 && Delivers(true)
    {
      hide Accepts, Apply, Enabled;
      RequestCancel();
      Withdraw();
      ControlFails(c);
    }

    // Await the control task: once committed it is retained through any number
    // of caller cancellations, before that the first one cancels it.
    method AwaitControlTask(c: TtlockBleClient) returns (exit: Exit<()>)
      requires Linked(c)
      modifies this, c
      ensures Tied(c) && OnlyControl() && !c.active
      ensures exit == c.point.outcome || (exit == Raise(Cancelled) && c.writes == 0 && Delivers(true))
      ensures state.attempt.withdrawn ==> exit == Raise(Cancelled)
    {
      hide Accepts, Apply, Enabled;
      var cancellations: nat := *;
      while true
        invariant Linked(c) && OnlyControl()
        decreases cancellations
      {
        LetControlRun(c);
        if cancellations == 0 {
          // Every await of the task is bounded, so it ends at last.
          if c.active {
            ControlFails(c);
          }
          return c.point.outcome;
        }
        cancellations := cancellations - 1;
        if c.point.Ended? {
          Cancel();
          return c.point.outcome;
        }
        if !c.Committed() {
          CancelControl(c);
          return Raise(Cancelled);
        }
        Cancel();
      }
    }

    ghost method NoteRejection()
      requires Busy() && state.attempt.running && state.attempt.matched
      modifies this
      ensures Busy() && OnlyControl()
      ensures state.attempt == old(state).attempt.(rejected := true)
    {
      hide Accepts, Apply;
      NoteControl(ReplyRejected);
    }

    ghost method BeginOperation()
      requires HeldAtRest() && client != null && state.holder.Some? && state.holder.value.Control?
      requires !state.attempt.started && Served(state)
      modifies this
      ensures Busy() && OnlyControl() && Delivers(false)
      ensures state.attempt == old(state).attempt.(started := true, running := true)
    {
      hide Accepts, Apply;
      OperationChanges(state);
      NoteControl(OperationStarted);
    }

    // Create the control task; it may be cancelled before its first step.
    method StartControlTask(c: TtlockBleClient, action: Action) returns (begun: bool)
      requires HeldAtRest() && client == c && state.holder == Some(Control(action))
      requires state.attempt == NO_ATTEMPT && state.acquisition.Some? && state.acquisition.value.live
      modifies this, c
      ensures OnlyControl()
      ensures begun ==> Linked(c) && c.active
      ensures !begun ==>
                && HeldAtRest() && Delivers(true)
                && state.attempt == NO_ATTEMPT.(started := true, withdrawn := true)
    {
      hide Accepts, Apply, Enabled, Agrees;
      BeginOperation();
      Interfere();
      begun := *;
      if begun {
        c.Begin(ControlCommand(action));
      } else {
        RequestCancel();
        Withdraw();
        EndOperation();
      }
    }

    // What the control task raised or returned, with ambiguity not resolved.
    method AttemptControl(c: TtlockBleClient, action: Action) returns (exit: Exit<()>)
      requires HeldAtRest() && client == c && state.holder == Some(Control(action))
      requires state.attempt == NO_ATTEMPT && state.acquisition.Some? && state.acquisition.value.live
      modifies this, c
      ensures HeldAtRest() && OnlyControl() && Attempted(exit)
    {
      hide Accepts, Apply, Enabled;
      var begun := StartControlTask(c, action);
      if !begun {
        return Raise(Cancelled);
      }
      exit := AwaitControlTask(c);
    }

    // The operation has ended, and `exit` is what may be said of it so far.
    ghost predicate Attempted(exit: Exit<()>)
      reads this
    {
      && state.attempt.started && !state.attempt.running
      && !state.attempt.reconciling && !state.attempt.reconciled && !state.attempt.confirmed
      && (state.attempt.withdrawn ==> exit == Raise(Cancelled))
      && match exit
         case Return(_) => state.attempt.accepted && state.attempt.matched && state.attempt.written
         case Raise(error) =>
           && error != Ownership
           && !state.attempt.accepted
           && (error.Cancelled? ==> Interrupts(state))
           && if error.Unknown? then state.attempt.written && !state.attempt.rejected
              else !state.attempt.written || state.attempt.rejected
    }

    // The written client dropped: tear it down and acquire a fresh one.
    method ReplaceForReconciliation() returns (exit: Exit<bool>)
      requires HeldAtRest() && Reconciles() && state.attempt.linked == Some(false)
      modifies this
      ensures OldOrFreshClient()
      ensures HeldAtRest() && SameRequest()
      ensures exit.Return? ==>
                if exit.value then client != null && state.search.Found? else state.search.NotFound?
      ensures Delivers(exit.Raise?)
    {
      hide Accepts, Apply, Enabled, Agrees;
      var _ :- DisconnectLocked();
      var replacement :- EnsureConnected(true, AmbiguousReconciliation);
      return Return(replacement != null);
    }

    // A reconciliation was begun and has done nothing yet, but perhaps looked
    // whether its client is connected.
    ghost predicate Reconciles()
      reads this
    {
      && state.holder.Some? && state.holder.value.Control?
      && state.attempt.reconciling && !state.attempt.asked && !state.attempt.confirmed
      && state.search.NotBegun?
    }

    // Whether a fresh query reports the commanded position; a failed one does
    // not.
    method AskCommanded(action: Action) returns (exit: Exit<bool>)
      requires HeldAtRest() && client != null && state.holder == Some(Control(action))
      requires state.attempt.reconciling && !state.attempt.confirmed && MayAsk(state)
      modifies this
      ensures HeldAtRest() && SameMutex() && state.holder == old(state).holder && client == old(client)
      ensures state.attempt == old(state).attempt.(asked := true, confirmed := state.attempt.confirmed)
      ensures exit == Return(true) <==> state.attempt.confirmed
      ensures old(state).interruptions <= state.interruptions
    {
      hide Accepts, Apply, Enabled, Agrees;
      var answer := AskState();
      if answer.Raise? {
        return if answer.error == Cancelled then Raise(Cancelled) else Return(false);
      }
      return Return(Commanded(Control(action), answer.value));
    }

    ghost method NoteLink(isConnected: bool)
      requires HeldAtRest() && client != null && Reconciles() && state.attempt.linked.None?
      modifies this
      ensures HeldAtRest() && SameFields()
      ensures state == old(state).(attempt := old(state).attempt.(linked := Some(isConnected)))
    {
      hide Accepts;
      Record(LinkSeen(isConnected));
    }

    // What a reconciliation may change of the request.
    twostate predicate OnlyReconciled()
      reads this
    {
      && SameMutex() && state.holder == old(state).holder
      && state.attempt == old(state).attempt.(asked := state.attempt.asked, confirmed := state.attempt.confirmed,
                                              linked := state.attempt.linked)
      && old(state).interruptions <= state.interruptions
    }

    // What a reconciliation must have done by its end.
    twostate predicate Tried()
      reads this
    {
      state.attempt.asked || state.search.NotFound? || Delivers(true)
    }

    // Resolve an ambiguous write with one fresh query, never with a resend.
    method ReconcileControl(action: Action, c: TtlockBleClient) returns (exit: Exit<bool>)
      requires HeldAtRest() && client == c && state.holder == Some(Control(action))
      requires Reconciles() && state.attempt.linked.None?
      modifies this
      ensures OldOrFreshClient()
      ensures HeldAtRest() && OnlyReconciled() && Tried()
      ensures exit == Return(true) <==> state.attempt.confirmed
      ensures exit == Return(true) ==> client != null
    {
      hide Accepts, Apply, Enabled, HeldAtRest, Agrees;
      var isConnected: bool := *;
      NoteLink(isConnected);
      var found :- FindConnected(isConnected);
      if !found {
        return Return(false);
      }
      exit := AskCommanded(action);
    }

    // The client to ask: the written one, or its replacement.
    method FindConnected(isConnected: bool) returns (exit: Exit<bool>)
      requires HeldAtRest() && client != null && Reconciles() && state.attempt.linked == Some(isConnected)
      modifies this
      ensures OldOrFreshClient()
      ensures HeldAtRest() && SameRequest()
      ensures exit.Return? ==>
                if exit.value then client != null && MayAsk(state) else state.search.NotFound?
      ensures Delivers(exit.Raise?)
    {
      hide Accepts, Apply, Enabled, HeldAtRest, Agrees;
      if isConnected {
        return Return(true);
      }
      exit := ReplaceForReconciliation();
    }

    // The reconciliation task: its result, or its own failure, is absorbed and
    // the session is torn down unless the commanded state was confirmed.
    method ReconciliationOutcome(action: Action, c: TtlockBleClient) returns (confirmed: bool)
      requires HeldAtRest() && client == c && state.holder == Some(Control(action))
      requires Reconciles() && state.attempt.linked.None?
      modifies this
      ensures OldOrFreshClient()
      ensures HeldAtRest() && OnlyReconciled() && Tried()
      ensures confirmed <==> state.attempt.confirmed
      ensures confirmed <==> client != null
    {
      hide Accepts, Apply, Enabled, Agrees;
      var matched := ReconcileControl(action, c);
      if matched == Return(true) {
        return true;
      }
      var _ := DisconnectLocked();
      return false;
    }

    ghost method BeginReconciliation()
      requires Held() && state.attempt.written && !state.attempt.reconciling && !state.attempt.reconciled
      modifies this
      ensures Held() && OnlyControl() && Delivers(false)
      ensures state.attempt == old(state).attempt.(
                reconciling := true, asked := false, linked := None, since := state.interruptions)
      ensures state.search.NotBegun?
    {
      hide Accepts;
      Record(ReconciliationStarted);
    }

    ghost method EndReconciliation()
      requires Held() && state.attempt.reconciling
      requires state.attempt.asked || state.search.NotFound? || state.interruptions > state.attempt.since
      modifies this
      ensures Held() && OnlyControl()
      ensures state.attempt == old(state).attempt.(reconciling := false, reconciled := true)
    {
      hide Accepts;
      Record(ReconciliationEnded);
    }

    // The reconciliation task runs to its end whatever cancellations reach the
    // caller; one that is cancelled before it began leaves the ambiguity.
    method RunReconciliation(action: Action, c: TtlockBleClient) returns (confirmed: bool)
      requires HeldAtRest() && client == c && state.holder == Some(Control(action))
      requires Reconciles() && state.attempt.linked.None?
      modifies this
      ensures OldOrFreshClient()
      ensures HeldAtRest() && OnlyReconciled() && Tried()
      ensures confirmed <==> state.attempt.confirmed
      ensures confirmed ==> client != null
    {
      hide Accepts, Apply, Enabled, Agrees;
      Interfere();
      var begun: bool := *;
      if !begun {
        Cancel();
        return false;
      }
      confirmed := ReconciliationOutcome(action, c);
    }

    method Reconcile(action: Action, c: TtlockBleClient) returns (exit: Exit<()>)
      requires HeldAtRest() && client == c && state.holder == Some(Control(action))
      requires Attempted(Raise(Unknown))
      modifies this
      ensures OldOrFreshClient()
      ensures HeldAtRest() && SameMutex() && state.holder == old(state).holder
      ensures !state.attempt.reconciling && state.attempt.started && state.attempt.reconciled
      ensures state.attempt.written && !state.attempt.accepted && !state.attempt.rejected && !state.attempt.withdrawn
      ensures exit == if state.attempt.confirmed then Return(()) else Raise(Unknown)
      ensures exit.Return? ==> client != null
    {
      hide Accepts, Apply, Enabled, Agrees;
      BeginReconciliation();
      var confirmed := RunReconciliation(action, c);
      EndReconciliation();
      return if confirmed then Return(()) else Raise(Unknown);
    }

    // Acquire, attempt once, and resolve an ambiguity; every other failure of
    // the attempt tears the session down.
    method ControlLocked(action: Action) returns (exit: Exit<()>)
      requires HeldAtRest() && state.holder == Some(Control(action)) && state.attempt == NO_ATTEMPT
      requires state.acquisition.None? && state.interruptions == 0
      modifies this, client
      ensures OldOrFreshClient()
      ensures HeldAtRest() && SameMutex() && state.holder == old(state).holder
      ensures MayRelease(state, VerdictOf(exit))
      ensures exit.Raise? ==> exit.error == Cancelled || exit.error == TTLock || exit.error == Unknown
      ensures exit == Raise(TTLock) && !old(closing) ==> client == null
    {
      hide Accepts, Apply, Enabled, Agrees;
      var live := EnsureConnected(true, ExplicitControl);
      if live.Raise? || live.value == null {
        return Raise(if live.Raise? then live.error else TTLock);
      }
      exit := AttemptControl(live.value, action);
      if exit == Raise(Unknown) {
        exit := Reconcile(action, live.value);
      } else if exit.Raise? && exit.error != Cancelled {
        var cleaned := DisconnectLocked();
        exit := Raise(if cleaned.Raise? then cleaned.error else TTLock);
      }
      FieldsAgree();
    }

    // One explicit request, whatever cancellations arrive: see ToldTruly.
    method RunControl(action: Action) returns (exit: Exit<()>)
      requires AtRest()
      modifies this, client
      ensures OldOrFreshClient()
      ensures AtRest() && Performed(Control(action), VerdictOf(exit))
      ensures ToldTruly(history, |old(history)|, |history| - 1, action, VerdictOf(exit))
      ensures exit.Raise? ==> exit.error == Cancelled || exit.error == TTLock || exit.error == Unknown
      ensures exit == Raise(TTLock) && !old(closing) ==> client == null
    {
      hide Accepts, Apply, Enabled, ToldTruly;
      AcquireMutex(Control(action));
      ghost var h, s := history, state;
      exit := ControlLocked(action);
      HeldThroughout(h, s, history, state);
      ReleaseMutex(VerdictOf(exit));
      RequestIsTruthful(history, state, |h| - 1, |history| - 1, action, VerdictOf(exit));
    }

    // ---- Every run --------------------------------------------------------

    method AnyOperation()
      requires AtRest()
      modifies this, client
      ensures AtRest() && old(history) <= history && OldOrFreshClient() && state.gate == old(state).gate
    {
      hide Accepts, Apply, Enabled, ToldTruly;
      var active: bool := *;
      var lock: bool := *;
      if {
        case true => var _ := RunControl(if lock then Lock else Unlock);
        case true => var _ := QueryState(active);
        case true => var _ := RunManagement(active);
        case true => var _ := FetchOperationLog();
        case true => var _ := Maintain();
        case true => var _ := FinishStop();
        case true => Interfere();
      }
    }

    // Any number of operations in any order, with callbacks, cancellations,
    // stops and starts in between, while a read may be queued.
    method OtherOperations()
      requires AtRest()
      modifies this, client
      ensures AtRest() && old(history) <= history && OldOrFreshClient() && state.gate == old(state).gate
    {
      hide Accepts, Apply, Enabled;
      var steps: nat := *;
      while steps > 0
        invariant AtRest() && old(history) <= history && OldOrFreshClient() && state.gate == old(state).gate
      {
        AnyOperation();
        steps := steps - 1;
      }
    }

    // One inventory read: refused at its gate without any effect, or ended with
    // no client installed, or cancelled in a queue that it joined because a
    // task waited for the mutex.  `asyncio.Lock` is not locked while it is on
    // its way to a waiter, so the gate may pass with tasks before the read.
    method GatedInventory(controlRequests: nat, mutexLocked: bool, ahead: nat)
      returns (exit: Exit<()>, abandoned: bool)
      requires Inv() && (mutexLocked <==> state.holder.Some?) && (!mutexLocked ==> AtRest() && state.gate.NoRead?)
      modifies this, client
      ensures old(history) <= history
      ensures !old(GateOpen(controlRequests, mutexLocked)) ==>
                exit == Raise(Other) && !abandoned && unchanged(this) && (client != null ==> unchanged(client))
      ensures old(GateOpen(controlRequests, mutexLocked)) ==>
                && AtRest() && state.gate.NoRead? && OldOrFreshClient()
                && |old(history)| + 1 < |history| && history[|old(history)|] == GatePassed(ahead)
                && if abandoned then ahead > 0 && exit == Raise(Cancelled) && history[|history| - 1] == Abandoned
                   else
                     && history[|history| - 1] == Released(Closed(pending == null, exit.Return?))
                     && client == null && cleanupConfirmed == Some(pending == null)
    {
      hide Accepts, Apply, Enabled, Agrees;
      FieldsAgree();
      abandoned := false;
      if controlRequests > 0 || mutexLocked || closing {
        return Raise(Other), false;
      }
      if ahead == 0 {
        EnterAtOnce();
      } else {
        JoinQueue(ahead);
        OtherOperations();
        abandoned := *;
        if abandoned {
          LeaveQueue();
          return Raise(Cancelled), true;
        }
        LeaveForMutex();
      }
      exit := ReadInventory();
    }

    // Any number of operations and gated reads: the record stays a run of the
    // protocol.
    method Drive()
      requires AtRest() && state.gate.NoRead?
      modifies this, client
      ensures AtRest() && state.gate.NoRead? && old(history) <= history && OldOrFreshClient()
    {
      hide Accepts, Apply, Enabled, GateOpen;
      var steps: nat := *;
      while steps > 0
        invariant AtRest() && state.gate.NoRead? && old(history) <= history && OldOrFreshClient()
      {
        var controlRequests: nat := *;
        var ahead: nat := *;
        if {
          case true => AnyOperation();
          case true => var _, _ := GatedInventory(controlRequests, false, ahead);
        }
        steps := steps - 1;
      }
    }
  }
}
