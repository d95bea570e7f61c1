/** The promises of the power-mode change protocol, for every run. */
module ModeChangeTheorems {
  import opened PowerTypes
  import opened ModeChange
  import opened ModeChangeInvariants

  // ---------------------------------------------------------------- notifications

  /** What GetPowerState reports: the current state and the one before it. */
  function GetPowerState(s: State): Event {
    Event(s.device.lastKnown, s.device.stored)
  }

  /** In every run the notifications form a chain that starts at the boot state, and
      GetPowerState reports exactly the last of them. */
  lemma NotificationsFormChain(boot: Device, s: State)
    requires Reachable(boot, s)
    ensures Chained(boot.stored, s.log.events)
            && GetPowerState(s) ==
               if s.log.events == [] then Event(boot.lastKnown, boot.stored) else s.log.events[|s.log.events| - 1]
  {
    ReachableInv(boot, s);
  }

  /** Deep sleep is activated once for each notification of a change to it. */
  lemma DeepSleepFollowsNotification(boot: Device, s: State)
    requires Reachable(boot, s)
    ensures s.tally.deepSleeps == SleepEvents(s.log.events)
  {
    ReachableInv(boot, s);
  }

  // ---------------------------------------------------------------- exactly once

  /** How often the closure of transaction `txId` ran. */
  function Invocations(completed: seq<Completion>, txId: nat): nat {
    if completed == [] then 0
    else
      var k := |completed| - 1;
      Invocations(completed[..k], txId) + if completed[k].txId == txId then 1 else 0
  }

  lemma {:induction false} InvocationsOfIncreasing(completed: seq<Completion>, txId: nat)
    requires ScheduledOk(TxIds(completed), if completed == [] then 0 else completed[|completed| - 1].txId)
    ensures Invocations(completed, txId) == if txId in TxIds(completed) then 1 else 0
  {
    if completed != [] {
      var k := |completed| - 1;
      var ids, init := TxIds(completed), TxIds(completed[..k]);
      assert ids == init + [completed[k].txId];
      assert forall i :: 0 <= i < k ==> init[i] == ids[i];
      InvocationsOfIncreasing(completed[..k], txId);
      if txId == completed[k].txId {
        assert ids[k] == txId;
      }
    }
  }

  /** In every run each closure handed to Schedule has run exactly once, except that of
      the running transaction, which has not run yet; no other closure has run. References
      and lock acquisitions balance up to the requests still under way. */
  lemma HandlersRunExactlyOnce(boot: Device, s: State, txId: nat)
    requires Reachable(boot, s)
    ensures var running := IsRunning(s) && s.current.value.txId == txId;
            && Invocations(s.log.completed, txId) == (if txId in s.log.scheduled && !running then 1 else 0)
            && s.tally.refs == (if s.inFlight.Some? || IsRunning(s) then 1 else 0)
            && s.tally.acquired == s.tally.released + (if s.inFlight.Some? then 1 else 0)
  {
    ReachableInv(boot, s);
    InvocationsInLog(s.log.scheduled, s.log.completed, Owed(s), Limit(s), txId);
  }

  lemma InvocationsInLog(scheduled: seq<nat>, completed: seq<Completion>, owed: seq<nat>, limit: int, txId: nat)
    requires scheduled == TxIds(completed) + owed && ScheduledOk(scheduled, limit)
    ensures Invocations(completed, txId) == if txId in scheduled && txId !in owed then 1 else 0
  {
    assert forall i :: 0 <= i < |completed| ==> TxIds(completed)[i] == scheduled[i];
    InvocationsOfIncreasing(completed, txId);
    if txId in owed {
      var i :| 0 <= i < |owed| && owed[i] == txId;
      assert scheduled[|completed| + i] == txId;
    }
  }

  /** Every call of SetPowerState releases the lock exactly once: in its prologue when it
      opens no transaction, otherwise during its Schedule, and in no other step. */
  lemma LockDiscipline(boot: Device, s: State, step: Step)
    requires Reachable(boot, s) && Enabled(s, step)
    ensures var t := Next(s, step);
            && t.tally.acquired - s.tally.acquired == (if step.RequestStep? then 1 else 0)
            && t.tally.released - s.tally.released ==
               (if step.ScheduleStep? || (step.RequestStep? && !Opens(s, step.target, step.sleeping)) then 1 else 0)
  {
    ReachableInv(boot, s);
    LocksInStep(s, step);
  }

  lemma LocksInStep(s: State, step: Step)
    requires RequestInv(s) && ControllerInv(s) && Enabled(s, step)
    ensures var t := Next(s, step);
            && t.tally.acquired - s.tally.acquired == (if step.RequestStep? then 1 else 0)
            && t.tally.released - s.tally.released ==
               (if step.ScheduleStep? || (step.RequestStep? && !Opens(s, step.target, step.sleeping)) then 1 else 0)
  {
  }

  /** A revoked transaction commits nothing, then or later. */
  lemma RevokedNeverCommits(boot: Device, s: State, i: nat, j: nat)
    requires Reachable(boot, s)
    requires i < |s.log.completed| && j < |s.log.completed|
             && s.log.completed[i].revoked && s.log.completed[j].txId == s.log.completed[i].txId
    ensures !s.log.completed[j].committed
  {
    ReachableInv(boot, s);
    assert s.log.completed[i].txId == s.log.scheduled[i] && s.log.completed[j].txId == s.log.scheduled[j];
  }

  // ---------------------------------------------------------------- commit conditions

  /** The device changes only when a request reaches Schedule with nothing to wait for,
      when the last awaited client of the running transaction acknowledges or leaves, or
      when the clock has reached every deadline of the running transaction. */
  lemma CommitCondition(boot: Device, s: State, step: Step)
    requires Reachable(boot, s) && Enabled(s, step) && Next(s, step).device != s.device
    ensures
      || (step.ScheduleStep? && (s.inFlight.value.sync || s.current.value.pending == {}))
      || (step.AckStep? && IsRunning(s) && s.current.value.pending == {step.client} && step.txId == s.current.value.txId)
      || (step.RemoveClientStep? && IsRunning(s) && s.current.value.pending == {step.client})
      || (step.TimerStep? && IsRunning(s) && forall d :: d in s.log.deadlines ==> d <= s.clock)
      || (step.SaveStep? && Next(s, step).device == s.device.(saved := Next(s, step).device.saved))
  {
    ReachableInv(boot, s);
  }

  /** The deadline of a running transaction is the latest of the instant Schedule asked for
      and every accepted delay, before or after; the timer job is armed for it. */
  lemma DeadlineIsLatest(boot: Device, s: State)
    requires Reachable(boot, s)
    requires IsRunning(s)
    ensures var c := s.current.value;
            && c.phase.armedFor == c.timeout
            && c.timeout in s.log.deadlines
            && forall d :: d in s.log.deadlines ==> d <= c.timeout
  {
    ReachableInv(boot, s);
  }

  /** The closure never commits before its time: a committed completion was synchronous,
      had no client left to wait for, or ran at or after its deadline. The notifications
      are exactly those of the committed completions, in order. */
  lemma CommitsAreJustified(boot: Device, s: State)
    requires Reachable(boot, s)
    ensures s.log.events == Committed(s.log.completed)
            && forall i :: 0 <= i < |s.log.completed| && s.log.completed[i].committed ==>
                 && !s.log.completed[i].revoked
                 && (|| s.log.completed[i].handler.sync || s.log.completed[i].pending == {}
                     || s.log.completed[i].timeout <= s.log.completed[i].at)
  {
    ReachableInv(boot, s);
  }

  /** A running transaction can always be brought to its end by waiting for its deadline. */
  lemma TimeoutEndsTransition(s: State, env: Env)
    requires IsRunning(s)
    ensures var wait := Max(0, s.current.value.phase.armedFor - s.clock);
            var steps := [TickStep(wait), TimerStep(env)];
            && Runs(s, steps)
            && !IsRunning(After(s, steps))
            && |After(s, steps).log.completed| == |s.log.completed| + 1
            && After(s, steps).log.completed[..|s.log.completed|] == s.log.completed
  {
    var wait := Max(0, s.current.value.phase.armedFor - s.clock);
    var steps := [TickStep(wait), TimerStep(env)];
    var waited := Next(s, steps[0]);
    assert Enabled(waited, TimerStep(env));
    assert steps[1..] == [TimerStep(env)] && steps[1..][1..] == [];
    var t := TimerFire(waited, env);
    assert t.log.completed[..|s.log.completed|] == s.log.completed && !IsRunning(t);
    assert Runs(t, []);
    assert Runs(waited, steps[1..]);
    assert After(waited, steps[1..]) == t;
  }

  /** Waking to light sleep waits for nobody: Schedule runs the closure in the caller,
      whatever clients are still awaited and whatever delays they asked for. */
  lemma SyncWakeupIsImmediate(boot: Device, s: State, env: Env)
    requires Reachable(boot, s) && s.inFlight.Some? && s.current.Some? && s.inFlight.value.sync
    ensures var t := Schedule(s, env);
            && !IsRunning(t) && t.tally.refs == 0 && Permits(t) == 1
            && (env.platformOk ==> t.device.stored == LightSleep && t.log.events == s.log.events + [Event(DeepSleep, LightSleep)])
  {
    ReachableInv(boot, s);
    SyncScheduleCommits(s, env);
  }

  lemma SyncScheduleCommits(s: State, env: Env)
    requires Inv(s) && s.inFlight.Some? && s.current.Some? && s.inFlight.value.sync
    ensures var t := Schedule(s, env);
            && !IsRunning(t) && t.tally.refs == 0 && Permits(t) == 1
            && (env.platformOk ==> t.device.stored == LightSleep && t.log.events == s.log.events + [Event(DeepSleep, LightSleep)])
  {
  }

  /** The request of a deep-sleep timer wakeup: unless the latest transaction had that target
      already, the device is in light sleep when the call ends. */
  lemma TimerWakeupEndsInLightSleep(boot: Device, s: State, env: Env)
    requires Reachable(boot, s) && Permits(s) >= 1 && s.device.stored == DeepSleep && env.platformOk
    ensures var t := Request(s, LightSleep, false, env);
            && (t.inFlight.Some? <==> s.current == None || s.current.value.target != LightSleep)
            && (t.inFlight.Some? ==>
                  && t.current.Some? && Schedule(t, env).device.stored == LightSleep
                  && Schedule(t, env).log.events == s.log.events + [Event(DeepSleep, LightSleep)])
  {
    ReachableInv(boot, s);
    NextKeepsInv(s, RequestStep(LightSleep, false, env));
    RequestLeavesEvents(s, LightSleep, false, env);
    var t := Request(s, LightSleep, false, env);
    if t.inFlight.Some? {
      SyncScheduleCommits(t, env);
    }
  }

  lemma RequestLeavesEvents(s: State, target: PowerState, sleeping: bool, env: Env)
    requires s.inFlight == None
    ensures var t := Request(s, target, sleeping, env);
            && t.log.events == s.log.events && t.device == s.device
            && (t.inFlight.Some? <==> Opens(s, target, sleeping))
            && (t.inFlight.Some? ==> t.inFlight.value.sync == IsSyncStateChange(s.device.stored, target))
  {
    if Opens(s, target, sleeping) {
      OpeningRequest(s, target, sleeping, env);
    } else {
      RefusedRequest(s, target, sleeping, env);
    }
  }

  // ---------------------------------------------------------------- clients

  /** In every run a running transaction awaits someone, it awaits registered clients only,
      and client names are unique. */
  lemma AwaitedClientsAreRegistered(boot: Device, s: State)
    requires Reachable(boot, s)
    ensures (s.current.Some? ==> s.current.value.pending <= s.clients.Keys)
            && (IsRunning(s) ==> s.current.value.pending != {})
            && (forall a, b :: a in s.clients && b in s.clients && s.clients[a] == s.clients[b] ==> a == b)
  {
    ReachableInv(boot, s);
    ReachableClients(boot, s);
  }

  ghost predicate Distinct(ids: seq<nat>) {
    forall i, j :: 0 <= i < j < |ids| ==> ids[i] != ids[j]
  }

  /** Client ids are never reused exactly as long as the 32-bit counter has not gone round. */
  lemma ClientIdsAreDistinctUntilWrap(boot: Device, s: State)
    requires Reachable(boot, s)
    ensures Distinct(s.log.issued) <==> |s.log.issued| <= U32_RANGE
  {
    ReachableClients(boot, s);
    if |s.log.issued| > U32_RANGE {
      assert s.log.issued[0] == s.log.issued[U32_RANGE];
    }
  }

  /** An acknowledgement or, once running, a delay with a transaction id other than the
      current one is refused and changes nothing. */
  lemma StaleTransactionIsRefused(s: State, client: nat, txId: int, seconds: int, env: Env)
    requires s.current.Some? && txId != s.current.value.txId
    ensures Ack(s, client, txId, env) == (s, ErrorInvalidParameter)
    ensures IsRunning(s) ==> Delay(s, client, txId, seconds) == (s, ErrorInvalidParameter)
  {
  }

  /** In every run, acknowledgements of other transactions than the current one change nothing,
      however many come. */
  lemma {:induction false} StaleAcknowledgementsChangeNothing(s: State, steps: seq<Step>)
    requires s.current.Some?
    requires forall i :: 0 <= i < |steps| ==> steps[i].AckStep? && steps[i].txId != s.current.value.txId
    ensures Runs(s, steps) && After(s, steps) == s
    decreases |steps|
  {
    if steps != [] {
      StaleTransactionIsRefused(s, steps[0].client, steps[0].txId, 0, steps[0].env);
      StaleAcknowledgementsChangeNothing(s, steps[1..]);
    }
  }

  /** A delay is accepted exactly when the transaction is not running, whoever asks, or when
      an awaited client of the running transaction asks. */
  lemma DelayAcceptance(s: State, client: nat, txId: int, seconds: int)
    requires s.current.Some?
    ensures Delay(s, client, txId, seconds).1 == ErrorNone <==>
            !IsRunning(s) || (txId == s.current.value.txId && client in s.current.value.pending)
  {
  }

  /** A delay moves the deadline of a running transaction exactly when an awaited client of it
      asks for a later one, then to that instant and the timer job with it; it never moves it
      back. */
  lemma DelayPostponesExactlyWhen(boot: Device, s: State, client: nat, txId: int, seconds: int)
    requires Reachable(boot, s) && IsRunning(s)
    ensures var c, t := s.current.value, Delay(s, client, txId, seconds).0;
            var asked := s.clock + Unsigned(seconds * 1000);
            && IsRunning(t) && t.current.value.phase.armedFor == t.current.value.timeout
            && t.current.value.timeout ==
               if txId == c.txId && client in c.pending && asked > c.timeout then asked else c.timeout
  {
    ReachableInv(boot, s);
    DelayAcceptance(s, client, txId, seconds);
  }

  /** The deadline that an accepted delay asks for is the one it names exactly when the delay is
      not negative and fits the clock's 32 bits; a negative one asks for one far ahead. */
  lemma DelayIsLiteralExactlyWhen(s: State, client: nat, txId: int, seconds: int)
    requires s.current.Some? && Delay(s, client, txId, seconds).1 == ErrorNone
    ensures var asked := Delay(s, client, txId, seconds).0.log.deadlines[|s.log.deadlines|];
            && (asked == s.clock + seconds * 1000 <==> 0 <= seconds * 1000 < U32_RANGE)
            && (-U32_RANGE <= seconds * 1000 < 0 ==> asked == s.clock + U32_RANGE + seconds * 1000)
  {
    var ms := seconds * 1000;
    assert -U32_RANGE <= ms < 0 ==> (ms + U32_RANGE) % U32_RANGE == ms + U32_RANGE;
  }

  // ---------------------------------------------------------------- requests

  /** A request opens a transaction exactly when it asks for a change, no young deep sleep
      is in progress, and the latest transaction had another target. When it opens one, the
      transaction awaits every registered client and any running one is revoked. */
  lemma RequestOpensExactlyWhen(boot: Device, s: State, target: PowerState, sleeping: bool, env: Env)
    requires Reachable(boot, s) && Permits(s) >= 1
    ensures var t := Request(s, target, sleeping, env);
            && (t.inFlight.Some? <==> Opens(s, target, sleeping))
            && (t.inFlight.Some? ==> t.current.Some? && t.current.value.txId > s.nextTx && t.current.value.pending == s.clients.Keys)
            && (t.inFlight.Some? && IsRunning(s) ==>
                  |t.log.completed| == |s.log.completed| + 1 && t.log.completed[|s.log.completed|].revoked
                  && t.log.completed[|s.log.completed|].txId == s.current.value.txId)
            && (!t.inFlight.Some? ==> t.current == s.current && t.log.completed == s.log.completed)
            && t.device == s.device && t.log.events == s.log.events
  {
    ReachableInv(boot, s);
    if Opens(s, target, sleeping) {
      OpeningRequest(s, target, sleeping, env);
    } else {
      RefusedRequest(s, target, sleeping, env);
    }
  }

  /** Asking for the current state leaves a pending transition to another one running. */
  lemma CurrentStateRequestKeepsPending(s: State, sleeping: bool, env: Env)
    ensures Request(s, s.device.stored, sleeping, env) == Unlock(Lock(s))
  {
  }

  lemma LastOfAppend(completed: seq<Completion>, c: Completion)
    ensures (completed + [c])[|completed|] == c
  {
  }

  /** The step completed a transaction, and failed to commit it. */
  ghost predicate Fails(s: State, step: Step)
    requires Enabled(s, step)
  {
    var t := Next(s, step);
    && |t.log.completed| == |s.log.completed| + 1
    && !t.log.completed[|s.log.completed|].committed
    && !t.log.completed[|s.log.completed|].revoked
  }

  /** In every run, whichever step completed a transaction that could not be committed, the
      device is as before and a retry does nothing but wake from deep sleep: the controller of
      the failed transaction is still there, so the request for its target counts as a
      repetition. */
  lemma FailedTransitionSwallowsRetry(boot: Device, s: State, step: Step, sleeping: bool, env: Env)
    requires Reachable(boot, s) && Enabled(s, step) && Fails(s, step)
    ensures var t := Next(s, step);
            var target := t.log.completed[|s.log.completed|].handler.target;
            && t.device == s.device
            && Request(t, target, sleeping, env) ==
               if t.device.stored == DeepSleep && !sleeping then Unlock(Wake(Lock(t))) else Unlock(Lock(t))
  {
    ReachableInv(boot, s);
    FailureKeepsController(s, step);
  }

  lemma FailureKeepsController(s: State, step: Step)
    requires Inv(s) && Enabled(s, step) && Fails(s, step)
    ensures var t := Next(s, step);
            var target := t.log.completed[|s.log.completed|].handler.target;
            && t.device == s.device && t.current.Some?
            && t.current.value.target == target != t.device.stored
  {
    match step
    case RemoveClientStep(client, env) =>
      var left := s.(clients := s.clients - {client});
      var (c, _, firing) := AcknowledgeController(left.current.value, client, left.current.value.txId);
      FailedStep(left.(current := Some(c)), c, firing, env);
    case AckStep(client, txId, env) =>
      var (c, _, firing) := AcknowledgeController(s.current.value, client, txId);
      FailedStep(s.(current := Some(c)), c, firing, env);
    case ScheduleStep(env) => FailedSchedule(s, env);
    case TimerStep(env) =>
      var (c, firing) := TimeoutController(s.current.value);
      FailedStep(s.(current := Some(c)), c, firing, env);
    case RequestStep(target, sleeping, env) => RequestsFailNothing(s, target, sleeping, env);
    case _ =>
  }

  lemma FailedStep(s: State, c: Controller, firing: Firing, env: Env)
    requires firing.Fire? && !firing.revoked && s.current == Some(c)
    requires c.target == firing.handler.target != s.device.stored
    ensures var t := Complete(s, c, firing, env);
            && |t.log.completed| == |s.log.completed| + 1
            && (!t.log.completed[|s.log.completed|].committed ==>
                  && t.log.completed[|s.log.completed|].handler == firing.handler
                  && t.device == s.device && t.current == s.current)
  {
    LastOfAppend(s.log.completed, Done(s, c, firing, Commits(firing, env)));
  }

  lemma FailedSchedule(s: State, env: Env)
    requires Inv(s) && s.inFlight.Some? && s.current.Some? && Fails(s, ScheduleStep(env))
    ensures var t := Schedule(s, env);
            var target := t.log.completed[|s.log.completed|].handler.target;
            && t.device == s.device && t.current.Some?
            && t.current.value.target == target != t.device.stored
  {
    var handler := s.inFlight.value;
    var offset := if handler.sync then 0 else PRECHANGE_TIMEOUT_MS;
    var (c, firing) := ScheduleController(s.current.value, s.clock, offset, handler);
    ScheduleIsHandOver(s, env);
    if firing.Fire? {
      FailedStep(Handed(s, c, offset), c, firing, env);
    }
  }

  lemma RequestsFailNothing(s: State, target: PowerState, sleeping: bool, env: Env)
    ensures var t := Request(s, target, sleeping, env);
            |t.log.completed| == |s.log.completed| + 1 ==> t.log.completed[|s.log.completed|].revoked
  {
    if Opens(s, target, sleeping) {
      OpeningRequest(s, target, sleeping, env);
    } else {
      RefusedRequest(s, target, sleeping, env);
    }
  }

  // ---------------------------------------------------------------- persistence

  predicate InSync(d: Device) {
    d.stored == d.platform == d.saved
  }

  /** From an agreeing device, memory, file and platform agree after SetPowerState exactly when
      it was refused, or the settings were written in a version that a reload accepts, or what
      a reload yields instead is the new state. */
  lemma SetDeviceKeepsSync(d: Device, target: PowerState, env: Env)
    requires InSync(d)
    ensures InSync(SetDevice(d, target, env).0) <==>
            || !Accepts(target, env)
            || (if env.access == Writable then d.valid || target == DEFAULT_STATE else target == d.stored)
  {
  }

  /** The state that the notifications lead to. */
  function LastState(log: Log): PowerState {
    if log.events == [] then log.boot.stored else log.events[|log.events| - 1].next
  }

  /** In every run from an agreeing memory and platform these two always agree, after successful
      and failed transitions alike. The file agrees with them as well exactly when, if the present
      state was written since it was last committed, the settings are of a valid version or that
      state is what a reload yields of an invalid one; and if it was not, what the file holds
      instead happens to be that state. */
  lemma FileAgreesExactlyWhen(boot: Device, s: State)
    requires Reachable(boot, s) && boot.stored == boot.platform
    ensures s.device.stored == s.device.platform == LastState(s.log)
    ensures InSync(s.device) <==>
            if s.log.fileFresh then boot.valid || LastState(s.log) == DEFAULT_STATE
            else FileHolds(s.log) == LastState(s.log)
  {
    ReachableInv(boot, s);
    ReachableFile(boot, s);
  }

  /** How the settings file can be accessed during a step that writes it. */
  function AccessOf(step: Step): Access {
    match step
    case RemoveClientStep(_, env) => env.access
    case AckStep(_, _, env) => env.access
    case ScheduleStep(env) => env.access
    case TimerStep(env) => env.access
    case SaveStep(access) => access
    case _ => Unopened
  }

  /** From `s` to `t` the file became fresh or stale as it should: by a commit or a save. */
  predicate Refreshed(s: State, t: State, saves: bool, access: Access) {
    t.log.fileFresh <==>
    if |t.log.events| > |s.log.events| then access == Writable else s.log.fileFresh || (saves && access == Writable)
  }

  lemma CompleteRefreshes(s: State, c: Controller, firing: Firing, env: Env)
    ensures Refreshed(s, Complete(s, c, firing, env), false, env.access)
    ensures firing.Fire? && firing.revoked ==> Complete(s, c, firing, env).log.fileFresh == s.log.fileFresh
    ensures firing.Fire? && firing.revoked ==> Complete(s, c, firing, env).log.events == s.log.events
  {
  }

  /** In every step the file becomes fresh exactly by a commit or another save that is written,
      and stale exactly by a commit that is not. */
  lemma FreshExactlyWhenWritten(s: State, step: Step)
    requires Enabled(s, step)
    ensures Refreshed(s, Next(s, step), step.SaveStep?, AccessOf(step))
  {
    match step
    case RemoveClientStep(client, env) =>
      if client in s.clients && s.current.Some? {
        var left := s.(clients := s.clients - {client});
        var (c, _, firing) := AcknowledgeController(left.current.value, client, left.current.value.txId);
        CompleteRefreshes(left.(current := Some(c)), c, firing, env);
      }
    case AckStep(client, txId, env) =>
      if s.current.Some? {
        var (c, _, firing) := AcknowledgeController(s.current.value, client, txId);
        CompleteRefreshes(s.(current := Some(c)), c, firing, env);
      }
    case RequestStep(target, sleeping, env) => RequestLeavesFile(s, target, sleeping, env);
    case ScheduleStep(env) => ScheduleRefreshes(s, env);
    case TimerStep(env) =>
      var (c, firing) := TimeoutController(s.current.value);
      CompleteRefreshes(s.(current := Some(c)), c, firing, env);
    case _ =>
  }

  lemma ScheduleRefreshes(s: State, env: Env)
    requires s.inFlight.Some? && s.current.Some?
    ensures Refreshed(s, Schedule(s, env), false, env.access)
  {
    var handler := s.inFlight.value;
    var offset := if handler.sync then 0 else PRECHANGE_TIMEOUT_MS;
    var (c, firing) := ScheduleController(s.current.value, s.clock, offset, handler);
    ScheduleIsHandOver(s, env);
    CompleteRefreshes(Handed(s, c, offset), c, firing, env);
  }

  lemma RequestLeavesFile(s: State, target: PowerState, sleeping: bool, env: Env)
    ensures var t := Request(s, target, sleeping, env);
            t.log.fileFresh == s.log.fileFresh && t.log.events == s.log.events
  {
    if Opens(s, target, sleeping) {
      OpeningRequest(s, target, sleeping, env);
    } else {
      RefusedRequest(s, target, sleeping, env);
    }
  }
}
