/** The power manager: the entry points of the mode-change protocol over its controllers,
    clients, lock and device. Each method is one transition of module ModeChange. */
module PowerManagers {
  import opened PowerTypes
  import opened ModeChange
  import ModeChangeTheorems
  import ModeChangeInvariants
  import opened AckControllers
  import opened PowerControllers

  /** A request after it was found to need a transaction or not. */
  function Admitted(s: State, target: PowerState, sleeping: bool): State {
    var t := if s.device.stored == DeepSleep && target != DeepSleep && !sleeping then Wake(Lock(s)) else Lock(s);
    if Opens(s, target, sleeping) then t else Unlock(t)
  }

  lemma RequestInStages(s: State, target: PowerState, sleeping: bool, env: Env)
    ensures Request(s, target, sleeping, env) ==
            var t := Admitted(s, target, sleeping);
            if Opens(s, target, sleeping) then OpenTransaction(DropController(t, env), target) else t
  {
  }

  class PowerManager {
    const power: PowerController
    var clock: int
    var controller: AckController?
    var clients: map<nat, string>
    var nextClient: nat
    var nextTx: nat
    var inFlight: Option<Handler>     // what a SetPowerState call holds between prologue and Schedule
    var permits: int                  // selfLock
    var refs: int
    var deepSleeps: nat
    var wakeups: nat

    ghost var controllers: set<AckController>   // every controller ever made
    ghost var acquired: int
    ghost var released: int
    ghost var log: Log

    /** At most one controller runs, and it is the current one; the request between its
        prologue and Schedule holds the lock and has a fresh controller; a running
        transaction is asynchronous. */
    ghost predicate Valid()
      reads this, controllers, power, power.settings, power.storage
    {
      && (controller != null ==> controller in controllers && controller.Valid())
      && (forall c :: c in controllers && c != controller ==> !c.running)
      && permits == 1 + released - acquired <= 1
      && (inFlight.Some? ==> controller != null && controller.handler == None && permits == 0)
      && (controller != null && controller.running ==> !controller.handler.value.sync)
    }

    ghost function Value(): State
      requires Valid()
      reads this, controllers, power, power.settings, power.storage
    {
      State(clock, clients, nextClient, nextTx,
            if controller == null then None else Some(controller.Value()),
            inFlight, power.Value(), Tally(refs, acquired, released, deepSleeps, wakeups), log)
    }

    /** Some run from boot leads here, so that whatever is proved of all runs holds. */
    ghost predicate Reached()
      requires Valid()
      reads this, controllers, power, power.settings, power.storage
    {
      Reachable(log.boot, Value())
    }

    constructor (power: PowerController, clock: int)
      ensures Valid() && Reached() && Value() == Init(power.Value(), clock)
    {
      this.power := power;
      this.clock, this.controller, this.clients := clock, null, map[];
      nextClient, nextTx, inFlight := 0, 0, None;
      permits, refs, deepSleeps, wakeups := 1, 0, 0, 0;
      controllers, acquired, released := {}, 0, 0;
      log := Init(power.Value(), clock).log;
      new;
      ModeChangeInvariants.InitIsReachable(power.Value(), clock);
    }

    method Tick(ms: nat)
      requires Valid()
      modifies this`clock
      ensures Valid() && Value() == old(Value()).(clock := old(clock) + ms)
      ensures old(Reached()) ==> Reached()
    {
      if Reached() {
        ModeChangeInvariants.StepIsReachable(log.boot, Value(), TickStep(ms));
      }
      clock := clock + ms;
    }

    method AddPowerModePreChangeClient(name: string) returns (status: Status, client: nat)
      requires Valid()
      modifies this`clients, this`nextClient, this`log
      ensures Valid() && Value() == AddClient(old(Value()), name)
      ensures status == ErrorNone <==> name != ""
      ensures status == ErrorNone ==> client in clients && clients[client] == name
      ensures old(Reached()) ==> Reached()
    {
      if Reached() {
        ModeChangeInvariants.StepIsReachable(log.boot, Value(), AddClientStep(name));
      }
      if name == "" {
        return ErrorInvalidParameter, 0;
      }
      var found := FindClient(clients, name);
      if found.Some? {
        return ErrorNone, found.value;
      }
      nextClient := (nextClient + 1) % U32_RANGE;
      client := nextClient;
      clients := clients[client := name];
      log := log.(issued := log.issued + [client]);
      status := ErrorNone;
    }

    static method FindClient(clients: map<nat, string>, name: string) returns (found: Option<nat>)
      ensures found.Some? <==> Registered(clients, name)
      ensures found.Some? ==> found.value in clients && clients[found.value] == name
    {
      var unseen := clients.Keys;
      while unseen != {}
        invariant unseen <= clients.Keys
        invariant forall id :: id in clients && clients[id] == name ==> id in unseen
        decreases |unseen|
      {
        var id :| id in unseen;
        if clients[id] == name {
          return Some(id);
        }
        unseen := unseen - {id};
      }
      found := None;
    }

    method RemovePowerModePreChangeClient(client: nat, env: Env) returns (status: Status)
      requires Valid()
      modifies this, controllers, power, power.settings`powerState, power.storage
      ensures Valid()
      ensures (Value(), status) == RemoveClient(old(Value()), client, env)
      ensures old(Reached()) ==> Reached()
    {
      if Reached() {
        ModeChangeInvariants.StepIsReachable(log.boot, Value(), RemoveClientStep(client, env));
      }
      status := ForgetClient(client, env);
    }

    method ForgetClient(client: nat, env: Env) returns (status: Status)
      requires Valid()
      modifies this, controllers, power, power.settings`powerState, power.storage
      ensures Valid()
      ensures (Value(), status) == RemoveClient(old(Value()), client, env)
    {
      if client !in clients {
        return ErrorInvalidParameter;
      }
      clients := clients - {client};
      if controller != null {
        var _, firing := controller.Ack(client, controller.transactionId);
        CompletionHandler(controller, firing, env);
      }
      status := ErrorNone;
    }

    method PowerModePreChangeComplete(client: nat, txId: int, env: Env) returns (status: Status)
      requires Valid()
      modifies this, controllers, power, power.settings`powerState, power.storage
      ensures Valid()
      ensures (Value(), status) == Ack(old(Value()), client, txId, env)
      ensures old(Reached()) ==> Reached()
    {
      if Reached() {
        ModeChangeInvariants.StepIsReachable(log.boot, Value(), AckStep(client, txId, env));
      }
      status := ErrorInvalidParameter;
      if controller != null {
        var firing;
        status, firing := controller.Ack(client, txId);
        CompletionHandler(controller, firing, env);
      }
    }

    method DelayPowerModeChangeBy(client: nat, txId: int, seconds: int) returns (status: Status)
      requires Valid()
      modifies this`log, controllers
      ensures Valid()
      ensures (Value(), status) == Delay(old(Value()), client, txId, seconds)
      ensures old(Reached()) ==> Reached()
    {
      if Reached() {
        ModeChangeInvariants.StepIsReachable(log.boot, Value(), DelayStep(client, txId, seconds));
      }
      status := ErrorInvalidParameter;
      if controller != null {
        status := controller.Reschedule(clock, client, txId, seconds * 1000);
        if status == ErrorNone {
          log := log.(deadlines := log.deadlines + [clock + Unsigned(seconds * 1000)]);
        }
      }
    }

    /** The completion closure of a request. `c` is the controller that invoked it. */
    method CompletionHandler(c: AckController, firing: Firing, env: Env)
      requires Valid() && c.Valid()
      requires firing.Fire? && firing.handler.sync ==> inFlight == None && permits == 0
      modifies this, power, power.settings`powerState, power.storage
      ensures Valid() && unchanged(this`controller, this`controllers, this`inFlight)
      ensures Value() == Complete(old(Value()), c.Value(), firing, env)
    {
      if firing.Fire? {
        var committed := CommitUnlessRevoked(firing, env);
        log := log.(completed := log.completed + [Done(Value(), c.Value(), firing, committed)]);
        Release(firing.handler.sync);
      }
    }

    method CommitUnlessRevoked(firing: Firing, env: Env) returns (ok: bool)
      requires Valid() && firing.Fire?
      modifies this, power, power.settings`powerState, power.storage
      ensures Valid() && unchanged(this`controller, this`controllers, this`inFlight, this`permits, this`clock)
      ensures ok == Commits(firing, env)
      ensures ok <==> !firing.revoked && env.platformOk && !(env.ignoreDeepSleep && firing.handler.target == DeepSleep)
      ensures power.Value().stored == if ok then firing.handler.target else old(power.Value().stored)
      ensures Value() == if ok then Commit(old(Value()), firing.handler, env) else old(Value())
    {
      ok := false;
      if !firing.revoked {
        ok := SetDevicePowerState(firing.handler, env);
      }
    }

    /** Commits a transition: device, notification and, for deep sleep, its activation. */
    method SetDevicePowerState(handler: Handler, env: Env) returns (ok: bool)
      requires Valid()
      modifies this, power, power.settings`powerState, power.storage
      ensures Valid() && unchanged(this`controller, this`controllers, this`inFlight, this`permits, this`clock)
      ensures ok == Accepts(handler.target, env)
      ensures Value() == if ok then Commit(old(Value()), handler, env) else old(Value())
    {
      var status := power.SetPowerState(handler.target, env);
      if status != ErrorNone {
        return false;
      }
      log := NoteFile(log.(events := log.events + [Event(handler.prev, handler.target)]), handler.target, env.access);
      if handler.target == DeepSleep {
        deepSleeps := deepSleeps + 1;
      }
      ok := true;
    }

    /** The end of a closure: the reference, and for a synchronous request the lock. */
    method Release(sync: bool)
      requires Valid() && (sync ==> inFlight == None && permits == 0)
      modifies this
      ensures Valid() && unchanged(this`controller, this`controllers, this`inFlight)
      ensures Value() == ModeChange.Release(old(Value()), sync)
    {
      refs := refs - 1;
      if sync {
        Unlock();
      }
    }

    method Lock()
      requires Valid() && permits >= 1
      modifies this
      ensures unchanged(this`controller, this`controllers, this`inFlight)
      ensures Valid() && Value() == ModeChange.Lock(old(Value()))
    {
      permits := permits - 1;
      acquired := acquired + 1;
    }

    method Unlock()
      requires Valid() && inFlight == None && permits <= 0
      modifies this
      ensures unchanged(this`controller, this`controllers, this`inFlight)
      ensures Valid() && Value() == ModeChange.Unlock(old(Value()))
    {
      permits := permits + 1;
      released := released + 1;
    }

    /** SetPowerState up to the creation of the controller; the caller waits for the lock. */
    method SetPowerStatePrologue(target: PowerState, sleeping: bool, env: Env)
      requires Valid() && permits >= 1
      modifies this, controllers, power, power.settings`powerState, power.storage
      ensures Valid() && fresh(controllers - old(controllers))
      ensures Value() == Request(old(Value()), target, sleeping, env)
      ensures old(Reached()) ==> Reached()
    {
      if Reached() {
        ModeChangeInvariants.StepIsReachable(log.boot, Value(), RequestStep(target, sleeping, env));
      }
      BeginTransition(target, sleeping, env);
    }

    method BeginTransition(target: PowerState, sleeping: bool, env: Env)
      requires Valid() && permits >= 1
      modifies this, controllers, power, power.settings`powerState, power.storage
      ensures Valid() && fresh(controllers - old(controllers))
      ensures Value() == Request(old(Value()), target, sleeping, env)
    {
      RequestInStages(Value(), target, sleeping, env);
      var admitted := AdmitRequest(target, sleeping);
      if admitted {
        DestroyController(env);
        OpenTransactionFor(power.settings.powerState, target);
      }
    }

    /** Takes the lock, and gives it back at once when no transaction is needed. */
    method AdmitRequest(target: PowerState, sleeping: bool) returns (admitted: bool)
      requires Valid() && permits >= 1
      modifies this
      ensures Valid() && inFlight == None && unchanged(this`controller, this`controllers)
      ensures admitted <==> Opens(old(Value()), target, sleeping)
      ensures Value() == Admitted(old(Value()), target, sleeping)
    {
      Lock();
      admitted := NeedsTransaction(target, sleeping);
      assert admitted == Opens(old(Value()), target, sleeping);
      if !admitted {
        Unlock();
      }
    }

    /** A request from deep sleep that is not dropped deactivates it, whether or not it opens
        a transaction. */
    method NeedsTransaction(target: PowerState, sleeping: bool) returns (needed: bool)
      requires Valid()
      modifies this`wakeups
      ensures Valid() && needed == Opens(old(Value()), target, sleeping)
      ensures Value() ==
              if power.Value().stored == DeepSleep && target != DeepSleep && !sleeping then Wake(old(Value())) else old(Value())
    {
      var currState, _ := power.GetPowerState();
      if currState == target {
        return false;
      }
      if currState == DeepSleep {
        if sleeping {
          return false;
        }
        wakeups := wakeups + 1;
      }
      if controller != null && controller.powerState == target {
        return false;
      }
      needed := true;
    }

    /** The previous controller, if any, is destroyed; this revokes its transaction. */
    method DestroyController(env: Env)
      requires Valid() && inFlight == None
      modifies this, controllers, power, power.settings`powerState, power.storage
      ensures Valid() && controller == null && unchanged(this`controllers, this`inFlight)
      ensures Value() == DropController(old(Value()), env)
    {
      if controller != null {
        var stale := controller;
        controller := null;
        var firing := stale.Revoke();
        CompletionHandler(stale, firing, env);
      }
    }

    method OpenTransactionFor(current: PowerState, target: PowerState)
      requires Valid() && controller == null && inFlight == None && permits == 0
      requires current == power.Value().stored
      modifies this
      ensures Valid() && controller != null && fresh(controller) && controllers == old(controllers) + {controller}
      ensures Value() == OpenTransaction(old(Value()), target)
    {
      CreateController(target);
      log := log.(deadlines := [clock]);
      refs := refs + 1;
      inFlight := Some(Handler(current, target, IsSyncStateChange(current, target)));
    }

    method CreateController(target: PowerState)
      requires Valid() && controller == null && inFlight == None
      modifies this
      ensures unchanged(this`clock, this`clients, this`nextClient, this`inFlight, this`permits, this`refs, this`deepSleeps,
                        this`wakeups, this`acquired, this`released, this`log)
      ensures Valid() && controller != null && fresh(controller) && controllers == old(controllers) + {controller}
      ensures nextTx == old(nextTx) + 1 && controller.handler == None
      ensures controller.Value() == NewController(nextTx, target, clock).(pending := clients.Keys)
    {
      nextTx := nextTx + 1;
      controller := new AckController(target, nextTx, clock);
      controllers := controllers + {controller};
      AwaitClients(controller, clients.Keys);
      assert controller.pending == clients.Keys;
    }

    static method AwaitClients(c: AckController, ids: set<nat>)
      requires c.Valid()
      modifies c`pending
      ensures c.Valid() && c.Value() == old(c.Value()).(pending := old(c.pending) + ids)
    {
      var waiting := ids;
      while waiting != {}
        invariant c.Valid() && waiting <= ids
        invariant c.Value() == old(c.Value()).(pending := old(c.pending) + (ids - waiting))
        decreases |waiting|
      {
        var client :| client in waiting;
        c.AckAwait(client);
        waiting := waiting - {client};
      }
    }

    /** SetPowerState from its call of Schedule to its end. */
    method SetPowerStateSchedule(env: Env)
      requires Valid() && inFlight.Some?
      modifies this, controllers, power, power.settings`powerState, power.storage
      ensures Valid()
      ensures Value() == ModeChange.Schedule(old(Value()), env)
      ensures old(Reached()) ==> Reached()
    {
      if Reached() {
        ModeChangeInvariants.StepIsReachable(log.boot, Value(), ScheduleStep(env));
      }
      ScheduleTransition(env);
    }

    method ScheduleTransition(env: Env)
      requires Valid() && inFlight.Some?
      modifies this, controllers, power, power.settings`powerState, power.storage
      ensures Valid()
      ensures Value() == ModeChange.Schedule(old(Value()), env)
    {
      var handler, firing := StartWaiting();
      CompletionHandler(controller, firing, env);
      if !handler.sync {
        Unlock();
      }
    }

    method StartWaiting() returns (handler: Handler, firing: Firing)
      requires Valid() && inFlight.Some?
      modifies this`inFlight, this`log, controllers
      ensures Valid() && inFlight == None && permits == 0 && handler == old(inFlight).value
      ensures firing.Fire? ==> firing.handler == handler
      ensures var offset := if handler.sync then 0 else PRECHANGE_TIMEOUT_MS;
              && (controller.Value(), firing) == ScheduleController(old(controller.Value()), clock, offset, handler)
              && Value() == HandOver(old(Value()), controller.Value(), clock + offset)
    {
      handler := inFlight.value;
      var offset := if handler.sync then 0 else PRECHANGE_TIMEOUT_MS;
      firing := controller.Schedule(clock, offset, handler);
      inFlight := None;
      log := log.(scheduled := log.scheduled + [controller.transactionId]);
      log := log.(deadlines := log.deadlines + [clock + offset]);
    }

    /** The worker pool runs the timer job of the current controller. */
    method AckTimer(env: Env)
      requires Valid() && controller != null && controller.timerJob.Some? && controller.timerJob.value <= clock
      modifies this, controllers, power, power.settings`powerState, power.storage
      ensures Valid()
      ensures Value() == TimerFire(old(Value()), env)
      ensures old(Reached()) ==> Reached()
    {
      if Reached() {
        ModeChangeInvariants.StepIsReachable(log.boot, Value(), TimerStep(env));
      }
      var firing := controller.Timeout();
      CompletionHandler(controller, firing, env);
    }

    /** The standby mode is changed by the platform's leave, and saved. */
    method SetNetworkStandbyMode(mode: bool, wifi: WakeupAnswer, lan: WakeupAnswer, access: Access) returns (status: Status)
      requires Valid()
      modifies this, power.settings`standby, power.storage
      ensures Valid()
      ensures var refused := (wifi.supported && !wifi.ok) || (lan.supported && !lan.ok);
              if mode == old(power.settings.standby) || refused then
                && Value() == old(Value()) && power.settings.standby == old(power.settings.standby)
                && status == if mode == old(power.settings.standby) then ErrorNone else ErrorGeneral
              else
                && Value() == SaveSettings(old(Value()), access) && power.settings.standby == mode
                && (status == ErrorNone <==> access == Writable)
      ensures old(Reached()) ==> Reached()
    {
      if Reached() {
        ModeChangeInvariants.StepIsReachable(log.boot, Value(), SaveStep(access));
      }
      status := ChangeStandbyMode(mode, wifi, lan, access);
    }

    method ChangeStandbyMode(mode: bool, wifi: WakeupAnswer, lan: WakeupAnswer, access: Access) returns (status: Status)
      requires Valid()
      modifies this, power.settings`standby, power.storage
      ensures Valid()
      ensures var refused := (wifi.supported && !wifi.ok) || (lan.supported && !lan.ok);
              if mode == old(power.settings.standby) || refused then
                && Value() == old(Value()) && power.settings.standby == old(power.settings.standby)
                && status == if mode == old(power.settings.standby) then ErrorNone else ErrorGeneral
              else
                && Value() == SaveSettings(old(Value()), access) && power.settings.standby == mode
                && (status == ErrorNone <==> access == Writable)
    {
      var before := power.settings.standby;
      status := power.SetNetworkStandbyMode(mode, wifi, lan, access);
      if power.settings.standby != before {
        NoteSave(access);
      }
    }

    /** More than a day means no wakeup; the settings are saved twice. */
    method SetDeepSleepTimer(timeOut: int, first: Access, second: Access) returns (status: Status)
      requires Valid()
      modifies this, power.settings`timeout, power.storage
      ensures Valid() && status == ErrorNone
      ensures power.settings.timeout == if timeOut > 86400 then 0 else Unsigned(timeOut)
      ensures Value() == SaveSettings(SaveSettings(old(Value()), first), second)
      ensures old(Reached()) ==> Reached()
    {
      if Reached() {
        ModeChangeInvariants.StepIsReachable(log.boot, Value(), SaveStep(first));
        ModeChangeInvariants.StepIsReachable(log.boot, SaveSettings(Value(), first), SaveStep(second));
      }
      status := ChangeTimer(if timeOut > 86400 then 0 else timeOut, first, second);
    }

    method ChangeTimer(timeOut: int, first: Access, second: Access) returns (status: Status)
      requires Valid()
      modifies this, power.settings`timeout, power.storage
      ensures Valid() && status == ErrorNone && power.settings.timeout == Unsigned(timeOut)
      ensures Value() == SaveSettings(SaveSettings(old(Value()), first), second)
    {
      status := power.SetDeepSleepTimer(timeOut, first, second);
      NoteSave(first);
      NoteSave(second);
    }

    /** History only: the present state was saved, if the file could be written. */
    ghost method NoteSave(access: Access)
      modifies this`log
      ensures log == if access == Writable then old(log).(filed := Some(power.Value().stored), fileFresh := true) else old(log)
    {
      if access == Writable {
        log := log.(filed := Some(power.Value().stored), fileFresh := true);
      }
    }

    method GetPowerState() returns (current: PowerState, previous: PowerState)
      requires Valid()
      ensures Event(previous, current) == ModeChangeTheorems.GetPowerState(Value())
      ensures Reached() && log.events != [] ==> Event(previous, current) == log.events[|log.events| - 1]
    {
      if Reached() {
        ModeChangeTheorems.NotificationsFormChain(log.boot, Value());
      }
      current, previous := power.GetPowerState();
    }
  }
}
