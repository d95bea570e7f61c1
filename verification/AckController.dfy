/** The controller of one power-mode transition: whom it awaits, and until when. */
module AckControllers {
  import opened PowerTypes
  import opened ModeChange

  class AckController {
    const powerState: PowerState
    const transactionId: nat
    var pending: set<nat>
    var timeout: int
    var timerJob: Option<int>         // the instant the live timer job is armed for
    var handler: Option<Handler>
    var running: bool

    ghost predicate Valid()
      reads this
    {
      (running ==> timerJob.Some? && handler.Some?) && (timerJob.Some? ==> running)
    }

    function Value(): Controller
      requires Valid()
      reads this
    {
      Controller(transactionId, powerState, pending, timeout,
                 if running then Running(handler.value, timerJob.value) else NotRunning)
    }

    constructor (powerState: PowerState, transactionId: nat, now: int)
      ensures Valid() && Value() == NewController(transactionId, powerState, now) && handler == None
    {
      this.powerState, this.transactionId := powerState, transactionId;
      this.pending, this.timeout := {}, now;
      this.timerJob, this.handler, this.running := None, None, false;
    }

    method AckAwait(client: nat)
      requires Valid()
      modifies this`pending
      ensures Valid() && Value() == old(Value()).(pending := old(pending) + {client})
    {
      pending := pending + {client};
    }

    /** Forgets an awaited client; forgetting the last one of a running transaction stops the
        timer and invokes the closure. */
    method Ack(client: nat, txId: int) returns (status: Status, firing: Firing)
      requires Valid()
      modifies this
      ensures Valid() && (Value(), status, firing) == AcknowledgeController(old(Value()), client, txId)
      ensures handler == old(handler)
      ensures status == ErrorNone <==> txId == transactionId && client in old(pending)
      ensures pending == if status == ErrorNone then old(pending) - {client} else old(pending)
      ensures firing.Fire? <==> old(running) && status == ErrorNone && old(pending) == {client}
    {
      firing := Quiet;
      if txId != transactionId {
        return ErrorInvalidParameter, Quiet;
      }
      if client !in pending {
        return ErrorInvalidParameter, Quiet;
      }
      pending := pending - {client};
      status := ErrorNone;
      if pending == {} && running {
        running := false;
        firing := RunHandler(false);
      }
    }

    method RunHandler(timedOut: bool) returns (firing: Firing)
      requires handler.Some? && !running
      modifies this`timerJob
      ensures firing == Fire(handler.value, timedOut, false)
      ensures timerJob == if timedOut then old(timerJob) else None
    {
      if !timedOut {
        timerJob := None;
      }
      firing := Fire(handler.value, timedOut, false);
    }

    method Schedule(now: int, offset: int, completion: Handler) returns (firing: Firing)
      requires Valid() && !running && handler == None
      modifies this
      ensures Valid() && (Value(), firing) == ScheduleController(old(Value()), now, offset, completion)
    {
      if pending == {} || offset == 0 {
        firing := Fire(completion, false, false);
      } else {
        running := true;
        handler := Some(completion);
        var newTimeout := now + offset;
        timeout := Max(newTimeout, timeout);
        timerJob := Some(timeout);
        firing := Quiet;
      }
    }

    /** The timer job. */
    method Timeout() returns (firing: Firing)
      requires Valid() && timerJob.Some?
      modifies this
      ensures Valid() && (Value(), firing) == TimeoutController(old(Value())) && handler == old(handler)
    {
      timerJob := None;
      if running {
        running := false;
        firing := Fire(handler.value, true, false);
      } else {
        firing := Quiet;
      }
    }

    method Reschedule(now: int, client: nat, txId: int, offset: int) returns (status: Status)
      requires Valid()
      modifies this`timeout, this`timerJob
      ensures Valid() && (Value(), status) == RescheduleController(old(Value()), now, client, txId, offset)
    {
      var newTimeout := now + Unsigned(offset);
      if !running {
        timeout := Max(timeout, newTimeout);
        return ErrorNone;
      }
      if txId != transactionId {
        return ErrorInvalidParameter;
      }
      if client !in pending {
        return ErrorInvalidParameter;
      }
      if newTimeout > timeout {
        timeout := newTimeout;
        timerJob := Some(newTimeout);
      }
      status := ErrorNone;
    }

    /** Destruction: a running transaction is stopped and its closure told so. */
    method Revoke() returns (firing: Firing)
      requires Valid()
      modifies this
      ensures Valid() && Value() == old(Value()).(phase := NotRunning) && timerJob == None
      ensures firing == RevokeController(old(Value()))
    {
      firing := Quiet;
      if running {
        running := false;
        if timerJob.Some? {
          firing := Fire(handler.value, false, true);
        }
      }
      timerJob := None;
    }
  }
}
