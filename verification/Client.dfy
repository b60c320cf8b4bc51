// Command-outcome tracking of one TTLock client.
//
// `RunControl` is the coroutine `_ha_run_control`, cut at its awaits: `Begin`,
// `EnterCommandLock`, `AuthenticationReturned` and `ControlReturned` are its
// stretches, and `Ended` is what it returned or raised.  The SDK calls back
// into `BeginSend`, `EndSend` and `Answers` while it is in between.
module Client {
  import opened Basics

  datatype ControlStage =
    | BeforeAuth
    | AuthWriteStarted
    | AuthSent
    | Authenticated
    | ControlWriteStarted
    | ControlFrameWritten
    | ControlAckReceived
    | ControlAcknowledged
    | ControlAckRejected

  // A candidate reply, as far as it could be decrypted and parsed.
  datatype Reply = Unreadable | Echo(command: Command)

  // Where the control coroutine is suspended.
  datatype Point =
    | NotRunning
    | WaitingForCommandLock
    | Authenticating
    | Controlling
    | Ended(outcome: Exit<()>)

  predicate IsControl(command: Command) {
    command.LockBolt? || command.UnlockBolt?
  }

  predicate PostWrite(stage: ControlStage) {
    stage.ControlWriteStarted? || stage.ControlFrameWritten? || stage.ControlAckReceived?
    || stage.ControlAcknowledged? || stage.ControlAckRejected?
  }

  class TtlockBleClient {
    const generation: nat
    var opcode: Option<Command>
    var stage: ControlStage
    var frameWritten: bool
    var ackReceived: bool
    var responseUnclassified: bool
    var disconnectedDuringControl: bool
    var routedEchoes: seq<Command>
    var active: bool
    var point: Point
    ghost var writes: nat  // control writes begun by the latest run

    constructor (generation: nat)
      ensures this.generation == generation
      ensures Valid() && point == NotRunning
    {
      this.generation := generation;
      opcode := None;
      stage := BeforeAuth;
      frameWritten, ackReceived := false, false;
      responseUnclassified, disconnectedDuringControl := false, false;
      routedEchoes := [];
      active := false;
      point := NotRunning;
      writes := 0;
    }

    // The first physical control write of the running request may have begun.
    predicate Committed()
      reads this
    {
      active && PostWrite(stage)
    }

    ghost predicate Running()
      reads this
    {
      point.WaitingForCommandLock? || point.Authenticating? || point.Controlling?
    }

    // What an ended run tells its owner.
    ghost predicate Truthful()
      reads this
    {
      point.Ended? ==>
        match point.outcome
        case Return(_) => writes == 1 && ackReceived
        case Raise(error) =>
          if error.Unknown? then writes == 1
          else writes == 0 || (writes == 1 && ackReceived)
    }

    ghost predicate Valid()
      reads this
    {
      && active == Running()
      && writes <= 1
      && (active ==> opcode.Some? && IsControl(opcode.value))
      && (active && ackReceived ==> writes == 1)
      && (point.WaitingForCommandLock? || point.Authenticating? ==> writes == 0 && !PostWrite(stage))
      && (point.Controlling? ==>
            if writes == 0 then stage.Authenticated?
            else stage.ControlWriteStarted? || stage.ControlFrameWritten? || stage.ControlAckReceived?)
      && Truthful()
    }

    // `control_committed` holds exactly from this run's first write to its end.
    lemma CommittedMeansWritten()
      requires Valid()
      ensures Committed() <==> active && writes == 1
      ensures !active ==> !Committed()
    {
    }

    // Forgets the tracking of whatever run is in progress: also a committed
    // one, which is why only the connection's mutex may let a run begin.
    method ResetTracking(opcode: Command)
      modifies this
      ensures this.opcode == Some(opcode) && stage == BeforeAuth && routedEchoes == []
      ensures !frameWritten && !ackReceived && !responseUnclassified && !disconnectedDuringControl
      ensures active == old(active) && point == old(point) && writes == old(writes)
      ensures !Committed()
    {
      this.opcode := Some(opcode);
      stage := BeforeAuth;
      frameWritten := false;
      ackReceived := false;
      responseUnclassified := false;
      disconnectedDuringControl := false;
      routedEchoes := [];
    }

    method Begin(command: Command)
      requires Valid() && !active && IsControl(command)
      modifies this
      ensures Valid() && point == WaitingForCommandLock
      ensures active && !Committed() && writes == 0 && !ackReceived && opcode == Some(command)
    {
      writes := 0;
      ResetTracking(command);
      active := true;
      point := WaitingForCommandLock;
    }

    // `finally: self._ha_control_active = False`
    method End(outcome: Exit<()>)
      modifies this`active, this`point
      ensures !active && point == Ended(outcome)
    {
      active := false;
      point := Ended(outcome);
    }

    // The gate before authentication.
    method EnterCommandLock(allowed: bool)
      requires Valid() && point == WaitingForCommandLock
      modifies this
      ensures Valid() && writes == 0 && opcode == old(opcode) && ackReceived == old(ackReceived)
      ensures allowed ==> point == Authenticating
      ensures !allowed ==> point == Ended(Raise(TTLock))
    {
      if !allowed {
        End(Raise(TTLock));
        return;
      }
      point := Authenticating;
    }

    // The gate between authentication and the first control write.
    method AuthenticationReturned(allowed: bool)
      requires Valid() && point == Authenticating
      modifies this
      ensures Valid() && writes == 0 && opcode == old(opcode) && ackReceived == old(ackReceived)
      ensures allowed ==> point == Controlling
      ensures !allowed ==> point == Ended(Raise(TTLock))
    {
      stage := Authenticated;
      if !allowed {
        End(Raise(TTLock));
        return;
      }
      point := Controlling;
    }

    // An exception or a cancellation before the control exchange.
    method RaisedBeforeControl(error: Error)
      requires Valid() && (point == WaitingForCommandLock || point == Authenticating)
      requires !error.Unknown?
      modifies this
      ensures Valid() && writes == 0 && point == Ended(Raise(error)) && ackReceived == old(ackReceived)
    {
      End(Raise(error));
    }

    // The SDK returns only once a reply to the control frame was accepted.
    method ControlReturned()
      requires Valid() && point == Controlling && ackReceived
      modifies this
      ensures Valid() && point == Ended(Return(())) && stage == ControlAcknowledged
      ensures writes == old(writes) && ackReceived == old(ackReceived)
    {
      stage := ControlAcknowledged;
      End(Return(()));
    }

    // The control exchange raised: known only if it was not committed, or if
    // the lock itself answered with a refusal.
    method ControlRaised(error: Error)
      requires Valid() && point == Controlling && !error.Unknown?
      modifies this
      ensures Valid() && writes == old(writes) && ackReceived == old(ackReceived)
      ensures point == Ended(Raise(
                if writes == 0 then error
                else if ackReceived && !error.Cancelled? then error
                else Unknown))
    {
      if error.Cancelled? {
        if !Committed() {
          End(Raise(error));
          return;
        }
        End(Raise(Unknown));
        return;
      }
      if ackReceived {
        stage := ControlAckRejected;
        End(Raise(error));
        return;
      }
      if !Committed() {
        End(Raise(error));
        return;
      }
      End(Raise(Unknown));
    }

    // What the SDK may send while a run is suspended: only authentication
    // frames before the control exchange, and in it the one control frame.
    ghost predicate SdkSends(command: Command)
      reads this
    {
      && (Running() ==> !point.WaitingForCommandLock?)
      && (point.Authenticating? ==> Some(command) != opcode)
      && (point.Controlling? ==> Some(command) == opcode && writes == 0)
    }

    // `_send` up to the write ...
    method BeginSend(command: Command)
      requires Valid() && SdkSends(command)
      modifies this
      ensures Valid() && point == old(point) && active == old(active) && opcode == old(opcode)
      ensures ackReceived == old(ackReceived)
      ensures active && Some(command) == opcode ==> Committed() && writes == 1
      ensures Some(command) != opcode || !active ==> writes == old(writes)
      ensures old(Committed()) ==> Committed()
    {
      if command == CheckUserTime {
        stage := AuthWriteStarted;
      } else if Some(command) == opcode {
        stage := ControlWriteStarted;
        if active {
          writes := writes + 1;
        }
      }
    }

    // ... and after it, once every chunk was accepted.
    method EndSend(command: Command)
      requires Valid()
      requires point.Authenticating? ==> Some(command) != opcode
      requires point.Controlling? ==> Some(command) == opcode && writes == 1
      requires !point.WaitingForCommandLock?
      modifies this
      ensures Valid() && point == old(point) && active == old(active) && opcode == old(opcode)
      ensures writes == old(writes) && ackReceived == old(ackReceived)
      ensures old(Committed()) <==> Committed()
      ensures active && Some(command) == opcode ==> frameWritten && stage == ControlFrameWritten
    {
      if command == CheckUserTime {
        stage := AuthSent;
      } else if Some(command) == opcode {
        frameWritten := true;
        stage := ControlFrameWritten;
      }
    }

    // A candidate reply while the SDK awaits an answer to `expected`.
    method Answers(reply: Reply, expected: Command)
      requires Valid()
      requires Some(expected) == opcode ==> point.Controlling? && writes == 1
      modifies this
      ensures Valid() && point == old(point) && active == old(active) && opcode == old(opcode)
      ensures writes == old(writes)
      ensures old(Committed()) <==> Committed()
      ensures ackReceived <==> old(ackReceived) || (Some(expected) == opcode && reply == Echo(expected))
      ensures routedEchoes == old(routedEchoes) +
                (if Some(expected) == opcode && reply.Echo? && reply.command != expected
                 then [reply.command] else [])
      ensures responseUnclassified <==>
                old(responseUnclassified) || (Some(expected) == opcode && reply.Unreadable?)
    {
      if Some(expected) != opcode {
        return;
      }
      if reply.Unreadable? {
        responseUnclassified := true;
        return;
      }
      if reply.command == expected {
        ackReceived := true;
        stage := ControlAckReceived;
      } else {
        routedEchoes := routedEchoes + [reply.command];
      }
    }

    method OnDisconnected()
      requires Valid()
      modifies this
      ensures Valid() && point == old(point) && active == old(active) && opcode == old(opcode)
      ensures writes == old(writes) && ackReceived == old(ackReceived)
      ensures disconnectedDuringControl <==> old(disconnectedDuringControl) || active
      ensures old(Committed()) <==> Committed()
    {
      if active {
        disconnectedDuringControl := true;
      }
    }
  }
}
