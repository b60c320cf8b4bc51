// The lock entity: what the user sees of one lock.
//
// A settle window after each successful command holds back readings that
// disagree with it.  `_command_lock` admits one command at a time; while it
// waits for the radio, `Interfere` runs the coordinator and push queries.
module LockEntity {
  import opened Basics
  import opened Coordinator

  const COMMAND_SETTLE_SECONDS: real := 4.0

  class TtlockBleLock {
    const coordinator: TtlockBleDataUpdateCoordinator
    const mac: Mac
    var isLocked: Option<bool>
    var isLocking: bool
    var isUnlocking: bool
    var settleUntil: real
    var commandLocked: bool
    var now: real
    var inFlight: seq<seq<(Mac, PollResult)>>  // aggregations under way
    ghost var commanded: Option<bool>          // by the last successful command
    ghost var heldBack: bool                   // the last coordinator update was suppressed
    ghost var running: Option<bool>            // the position that a command is moving to

    // The coordinator knows a state, and the entity shows another one.
    predicate Disagrees()
      reads this, coordinator
    {
      coordinator.HasState(mac) && isLocked != coordinator.data[mac].locked
    }

    ghost predicate Settling()
      reads this
    {
      now < settleUntil
    }

    ghost predicate Valid()
      reads this, coordinator
    {
      && coordinator.Valid()
      && AllPolled(coordinator.stamped, inFlight)
      // In the window the entity shows what was last commanded successfully.
      && (Settling() ==> commanded.Some? && isLocked == commanded)
      && settleUntil <= now + COMMAND_SETTLE_SECONDS
      // It shows a state exactly if the coordinator knows one, and the same one
      // unless the last update was held back.
      && (isLocked.Some? <==> coordinator.HasState(mac))
      && (Disagrees() <==> heldBack)
      && ShowsMovement()
    }

    // A movement is shown exactly while a command runs, and the one it makes.
    ghost predicate ShowsMovement()
      reads this
    {
      && (commandLocked <==> running.Some?)
      && (isLocking <==> running == Some(true))
      && (isUnlocking <==> running == Some(false))
    }

    constructor (coordinator: TtlockBleDataUpdateCoordinator, mac: Mac, now: real)
      requires coordinator.Valid() && 0.0 <= now
      ensures Valid() && this.coordinator == coordinator && this.mac == mac
      ensures !isLocking && !isUnlocking && !Settling() && !Disagrees()
    {
      this.coordinator, this.mac, this.now := coordinator, mac, now;
      isLocked := if coordinator.HasState(mac) then coordinator.data[mac].locked else None;
      isLocking, isUnlocking, commandLocked := false, false, false;
      settleUntil := 0.0;
      inFlight := [];
      commanded, heldBack, running := None, false, None;
    }

    method Elapse()
      modifies this`now
      ensures old(now) <= now
    {
      var elapsed: real := *;
      if elapsed > 0.0 {
        now := now + elapsed;
      }
    }

    // The entity after the coordinator changed, before it has been told.
    ghost predicate Untold()
      reads this, coordinator
    {
      && coordinator.Valid()
      && AllPolled(coordinator.stamped, inFlight)
      && (Settling() ==> commanded.Some? && isLocked == commanded)
      && settleUntil <= now + COMMAND_SETTLE_SECONDS
      && (isLocked.Some? ==> coordinator.HasState(mac))
      && ShowsMovement()
    }

    // `_handle_coordinator_update`: adopt the coordinator's state, if any.
    method SyncFromCoordinator()
      requires Untold()
      modifies this`isLocked, this`heldBack
      ensures Valid()
      ensures !Settling() && coordinator.HasState(mac) ==> isLocked == coordinator.data[mac].locked
      ensures Settling() || !coordinator.HasState(mac) ==> isLocked == old(isLocked)
      ensures heldBack <==> Settling() && Disagrees()
    {
      heldBack := false;
      if !coordinator.HasState(mac) {
        return;
      }
      var locked := coordinator.data[mac].locked;
      if now < settleUntil && locked != isLocked {
        heldBack := true;
        return;
      }
      isLocked := locked;
    }

    // A queried state is shown, unless the window holds it back.
    method ApplyLockState(raw: int) returns (applied: bool)
      requires Valid()
      modifies this`isLocked
      ensures applied <==> !(Settling() && old(isLocked) != Some(raw == 0))
      ensures isLocked == if applied then Some(raw == 0) else old(isLocked)
    {
      var newLocked := raw == LOCK_STATE_LOCKED;
      if now < settleUntil && Some(newLocked) != isLocked {
        return false;
      }
      isLocked := Some(newLocked);
      return true;
    }

    // What the coordinator publishes was told by this entity, just now.
    predicate Told(locked: bool, source: string, rssi: Option<int>)
      reads this, coordinator
    {
      match coordinator.Published(mac)
      case Some((position, a)) => position == locked && a.source == source && a.observedAt == now && a.rssi == rssi
      case None => false
    }

    // Publish to the coordinator, whose listeners include this entity.
    method PublishAndSync(locked: bool, battery: Option<int>, source: string, rssi: Option<int>)
      requires coordinator.Valid() && AllPolled(coordinator.stamped, inFlight)
      requires isLocked == Some(locked)
      requires Settling() ==> commanded == Some(locked)
      requires settleUntil <= now + COMMAND_SETTLE_SECONDS
      requires ShowsMovement()
      modifies this`isLocked, this`heldBack, coordinator
      ensures Valid() && !Disagrees() && isLocked == Some(locked) && Told(locked, source, rssi)
    {
      hide Newer, StampsGrow, AllPolled;
      ghost var stamped := coordinator.stamped;
      coordinator.Publish(mac, locked, battery, source, rssi, now);
      PolledStays(stamped, coordinator.stamped, inFlight);
      SyncFromCoordinator();
    }

    // The window holds back this position.
    ghost predicate HeldBack(locked: bool)
      reads this
    {
      Settling() && commanded != Some(locked)
    }

    // A poll that nothing overtakes, and the update it causes, show the position
    // for a known answer that `QueryAndApply` shows for the same one.
    method PollAndSync(raw: Option<int>, battery: Option<int>, rssi: Option<int>)
      requires Valid()
      modifies this`isLocked, this`heldBack, coordinator
      ensures Valid()
      ensures (raw == Some(0) || raw == Some(1)) && !HeldBack(raw.value == 0) ==>
                isLocked == Some(raw.value == 0) && !Disagrees() && Told(raw.value == 0, "query", rssi)
      ensures (raw == Some(0) || raw == Some(1)) && HeldBack(raw.value == 0) ==>
                isLocked == old(isLocked) && Told(raw.value == 0, "query", rssi)
    {
      hide AllPolled;
      ghost var stamped := coordinator.stamped;
      coordinator.PollOne(mac, raw, battery, rssi, now);
      PolledStays(stamped, coordinator.stamped, inFlight);
      SyncFromCoordinator();
    }

    // The forced query after a push event, once it has been answered: what is
    // shown is also published, and what is held back is not.
    method QueryAndApply(result: Option<(Option<int>, Option<int>)>, rssi: Option<int>)
      requires Valid()
      modifies this`isLocked, this`heldBack, coordinator
      ensures Valid()
      ensures result.None? || result.value.0.None? || HeldBack(result.value.0.value == 0)
              ==> isLocked == old(isLocked) && coordinator.data == old(coordinator.data)
      ensures result.Some? && result.value.0.Some? && !HeldBack(result.value.0.value == 0)
              ==> isLocked == Some(result.value.0.value == 0) && !Disagrees()
                  && Told(result.value.0.value == 0, "query_after_push", rssi)
    {
      hide AllPolled;
      if result.None? || result.value.0.None? {
        return;
      }
      var raw := result.value.0.value;
      var applied := ApplyLockState(raw);
      if applied {
        PublishAndSync(raw == LOCK_STATE_LOCKED, result.value.1, "query_after_push", rssi);
      }
    }

    // What a running command does not change.
    twostate predicate SameCommand()
      reads this
    {
      && isLocking == old(isLocking) && isUnlocking == old(isUnlocking) && commandLocked == old(commandLocked)
      && settleUntil == old(settleUntil) && commanded == old(commanded) && running == old(running)
      && old(now) <= now
    }

    // Aggregations, publications, advertisements, push queries and time, while
    // this task awaits.
    method Interfere()
      requires Valid()
      modifies this, coordinator
      ensures Valid() && SameCommand()
    {
      var steps: nat := *;
      while steps > 0
        invariant Valid() && SameCommand()
      {
        InterfereOnce();
        steps := steps - 1;
      }
    }

    method InterfereOnce()
      requires Valid()
      modifies this, coordinator
      ensures Valid() && SameCommand()
    {
      hide AllPolled;
      Elapse();
      if {
        case true =>
          inFlight := coordinator.DriveStep(inFlight);
          SyncFromCoordinator();
        case true =>
          var result: Option<(Option<int>, Option<int>)> := *;
          var rssi: Option<int> := *;
          QueryAndApply(result, rssi);
        case true =>
      }
    }

    // The stretch after a command that returned.
    method Succeed(lock: bool, rssi: Option<int>)
      requires Valid()
      modifies this`isLocked, this`settleUntil, this`commanded, this`heldBack, coordinator
      ensures Valid() && isLocked == Some(lock) && !Disagrees() && commanded == Some(lock)
      ensures settleUntil == now + 4.0 && Told(lock, "command", rssi)
    {
      hide AllPolled;
      isLocked := Some(lock);
      settleUntil := now + COMMAND_SETTLE_SECONDS;
      commanded := Some(lock);
      PublishAndSync(lock, None, "command", rssi);
    }

    // One command, from its own acquisition of the command lock: however it
    // ends, also cancelled, no movement is shown afterwards; success shows and
    // publishes its position and opens the window, failure changes neither.
    method RunCommand(lock: bool, rssi: Option<int>) returns (exit: Exit<()>)
      requires Valid() && !commandLocked
      modifies this, coordinator
      ensures Valid() && !isLocking && !isUnlocking && !commandLocked && old(now) <= now
      ensures exit.Return? ==>
                && isLocked == Some(lock) && !Disagrees() && commanded == Some(lock)
                && settleUntil == now + 4.0 && Told(lock, "command", rssi)
      ensures exit.Raise? ==> settleUntil == old(settleUntil) && commanded == old(commanded)
    {
      hide AllPolled;
      SetInFlight(lock);
      Interfere();
      exit := *;
      if exit.Return? {
        Succeed(lock, rssi);
      }
      ClearInFlight();
    }

    method SetInFlight(lock: bool)
      requires Valid() && !commandLocked
      modifies this`commandLocked, this`isLocking, this`isUnlocking, this`running
      ensures Valid() && running == Some(lock)
    {
      commandLocked := true;
      isLocking := lock;
      isUnlocking := !lock;
      running := Some(lock);
    }

    method ClearInFlight()
      requires Valid()
      modifies this`commandLocked, this`isLocking, this`isUnlocking, this`running
      ensures Valid() && !isLocking && !isUnlocking && !commandLocked
    {
      isLocking := false;
      isUnlocking := false;
      running := None;
      commandLocked := false;
    }

    // Any number of commands, waiting for one another, and everything between.
    method Drive()
      requires Valid() && !commandLocked
      modifies this, coordinator
      ensures Valid() && !isLocking && !isUnlocking && old(now) <= now
    {
      var steps: nat := *;
      while steps > 0
        invariant Valid() && !commandLocked && old(now) <= now
      {
        var lock: bool := *;
        Interfere();
        var rssi: Option<int> := *;
        var _ := RunCommand(lock, rssi);
        steps := steps - 1;
      }
    }
  }
}
