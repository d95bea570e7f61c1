/** What every run of the power-mode change protocol keeps. */
module ModeChangeInvariants {
  import opened PowerTypes
  import opened ModeChange

  // ---------------------------------------------------------------- invariants

  predicate IsRunning(s: State) {
    s.current.Some? && s.current.value.phase.Running?
  }

  /** A pending request starts from the stored state and would change it. */
  predicate Current(h: Handler, stored: PowerState, target: PowerState) {
    h.prev == stored && h.target == target && h.target != h.prev && h.sync == IsSyncStateChange(h.prev, h.target)
  }

  /** At most one request is between prologue and Schedule, and it holds the lock;
      a request past its prologue and not yet completed holds one reference. */
  predicate RequestInv(s: State) {
    && s.tally.acquired - s.tally.released == (if s.inFlight.Some? then 1 else 0)
    && s.tally.refs == (if s.inFlight.Some? then 1 else 0) + (if IsRunning(s) then 1 else 0)
    && (s.inFlight.Some? ==>
          && s.current.Some?
          && !IsRunning(s)
          && Current(s.inFlight.value, s.device.stored, s.current.value.target))
  }

  predicate IsLatest(m: int, deadlines: seq<int>) {
    m in deadlines && forall d :: d in deadlines ==> d <= m
  }

  /** The current transaction. */
  predicate ControllerInv(s: State) {
    s.current.Some? ==>
      var c := s.current.value;
      && c.txId == s.nextTx
      && c.pending <= s.clients.Keys
      && s.log.deadlines != []
      && s.log.deadlines[0] <= s.clock
      && (s.inFlight.Some? || IsRunning(s) ==> IsLatest(c.timeout, s.log.deadlines))
      && (IsRunning(s) ==>
            && c.pending != {}
            && c.phase.armedFor == c.timeout
            && !c.phase.handler.sync
            && Current(c.phase.handler, s.device.stored, c.target))
  }

  /** Clients have distinct non-empty names; the k-th id handed out is k+1 in 32 bits. */
  ghost predicate ClientsOk(clients: map<nat, string>, nextClient: nat, issued: seq<nat>) {
    && (forall a, b :: a in clients && b in clients && clients[a] == clients[b] ==> a == b)
    && (forall a :: a in clients ==> clients[a] != "" && a in issued)
    && nextClient == |issued| % U32_RANGE
    && (forall k :: 0 <= k < |issued| ==> issued[k] == (k + 1) % U32_RANGE)
  }

  /** Consecutive notifications fit together and each reports a change. */
  ghost predicate Chained(start: PowerState, events: seq<Event>) {
    && (events != [] ==> events[0].prev == start)
    && (forall i, j :: 0 <= i < j < |events| && j == i + 1 ==> events[i].next == events[j].prev)
    && (forall i :: 0 <= i < |events| ==> events[i].prev != events[i].next)
  }

  ghost predicate ChainOk(boot: Device, device: Device, events: seq<Event>) {
    && Chained(boot.stored, events)
    && (events == [] ==> device.stored == boot.stored && device.lastKnown == boot.lastKnown)
    && (events != [] ==> events[|events| - 1] == Event(device.lastKnown, device.stored))
  }

  /** Transactions are scheduled in increasing order of their number, up to `limit`. */
  predicate ScheduledOk(scheduled: seq<nat>, limit: int) {
    && (forall i, j :: 0 <= i < j < |scheduled| ==> scheduled[i] < scheduled[j])
    && (forall i :: 0 <= i < |scheduled| ==> scheduled[i] <= limit)
  }

  function TxIds(completed: seq<Completion>): (ids: seq<nat>)
    ensures |ids| == |completed|
    ensures forall i :: 0 <= i < |ids| ==> ids[i] == completed[i].txId
  {
    seq(|completed|, i requires 0 <= i < |completed| => completed[i].txId)
  }

  /** The notifications owed to the committed completions. */
  function Committed(completed: seq<Completion>): seq<Event> {
    if completed == [] then []
    else
      var k := |completed| - 1;
      Committed(completed[..k]) +
      if completed[k].committed then [Event(completed[k].handler.prev, completed[k].handler.target)] else []
  }

  /** How many notifications report a change to deep sleep. */
  function SleepEvents(events: seq<Event>): nat {
    if events == [] then 0
    else
      var k := |events| - 1;
      SleepEvents(events[..k]) + if events[k].next == DeepSleep then 1 else 0
  }

  predicate Justified(c: Completion) {
    && (c.revoked ==> !c.committed)
    && (c.committed ==> c.handler.sync || c.pending == {} || c.timeout <= c.at)
  }

  predicate CompletedOk(completed: seq<Completion>, events: seq<Event>) {
    && (forall i :: 0 <= i < |completed| ==> Justified(completed[i]))
    && events == Committed(completed)
  }

  /** The running transaction is still owed its completion. */
  function Owed(s: State): seq<nat> {
    if IsRunning(s) then [s.current.value.txId] else []
  }

  /** The newest transaction that may have been scheduled. */
  function Limit(s: State): int {
    if s.inFlight.Some? then s.nextTx - 1 else s.nextTx
  }

  /** Completions follow the schedule, one for one. */
  predicate LogOk(scheduled: seq<nat>, completed: seq<Completion>, owed: seq<nat>, limit: int, events: seq<Event>, deepSleeps: nat) {
    && scheduled == TxIds(completed) + owed
    && ScheduledOk(scheduled, limit)
    && CompletedOk(completed, events)
    && deepSleeps == SleepEvents(events)
  }

  ghost predicate Inv(s: State) {
    && RequestInv(s)
    && ControllerInv(s)
    && ChainOk(s.log.boot, s.device, s.log.events)
    && LogOk(s.log.scheduled, s.log.completed, Owed(s), Limit(s), s.log.events, s.tally.deepSleeps)
  }

  // ---------------------------------------------------------------- preservation

  lemma InitInv(device: Device, clock: int)
    ensures Inv(Init(device, clock))
  {
    var s := Init(device, clock);
    assert s.log.scheduled == TxIds(s.log.completed) + Owed(s);
    assert SleepEvents(s.log.events) == 0 && Committed(s.log.completed) == [];
  }

  /** The transaction of `c` has left its running phase and its closure is about to run. */
  ghost predicate Finishing(s: State, c: Controller, firing: Firing) {
    && firing.Fire?
    && s.inFlight == None
    && s.tally.refs == 1
    && !IsRunning(s)
    && ControllerInv(s)
    && firing.handler.prev == s.device.stored != firing.handler.target
    && (!firing.revoked ==> firing.handler.sync || c.pending == {} || c.timeout <= s.clock)
    && ChainOk(s.log.boot, s.device, s.log.events)
    && LogOk(s.log.scheduled, s.log.completed, [c.txId], s.nextTx, s.log.events, s.tally.deepSleeps)
  }

  lemma CompletedAppend(completed: seq<Completion>, events: seq<Event>, c: Completion)
    requires CompletedOk(completed, events) && Justified(c)
    ensures c.committed ==> CompletedOk(completed + [c], events + [Event(c.handler.prev, c.handler.target)])
    ensures !c.committed ==> CompletedOk(completed + [c], events)
    ensures TxIds(completed + [c]) == TxIds(completed) + [c.txId]
  {
    assert (completed + [c])[..|completed|] == completed;
  }

  lemma ChainAppend(boot: Device, device: Device, events: seq<Event>, e: Event, changed: Device)
    requires ChainOk(boot, device, events)
    requires e.prev == device.stored != e.next
    requires changed.lastKnown == e.prev && changed.stored == e.next
    ensures ChainOk(boot, changed, events + [e])
  {
  }

  lemma CompleteKeepsChain(s: State, c: Controller, firing: Firing, env: Env)
    requires Finishing(s, c, firing)
    ensures var t := Complete(s, c, firing, env);
            ChainOk(t.log.boot, t.device, t.log.events) && t.tally.deepSleeps == SleepEvents(t.log.events)
  {
    if Commits(firing, env) {
      CommitKeepsChain(s, firing.handler, env);
    }
  }

  lemma CompleteKeepsLog(s: State, c: Controller, firing: Firing, env: Env)
    requires Finishing(s, c, firing)
    ensures var t := Complete(s, c, firing, env);
            && t.log.scheduled == TxIds(t.log.completed) && ScheduledOk(t.log.scheduled, t.nextTx)
            && CompletedOk(t.log.completed, t.log.events)
  {
    CompletedAppend(s.log.completed, s.log.events, Done(s, c, firing, Commits(firing, env)));
  }

  lemma CommitKeepsChain(s: State, handler: Handler, env: Env)
    requires ChainOk(s.log.boot, s.device, s.log.events) && s.tally.deepSleeps == SleepEvents(s.log.events)
    requires handler.prev == s.device.stored != handler.target && Accepts(handler.target, env)
    ensures var t := Commit(s, handler, env);
            && ChainOk(t.log.boot, t.device, t.log.events)
            && t.tally.deepSleeps == SleepEvents(t.log.events)
  {
    var e := Event(handler.prev, handler.target);
    ChainAppend(s.log.boot, s.device, s.log.events, e, SetDevice(s.device, handler.target, env).0);
    SleepAppend(s.log.events, e);
  }

  lemma SleepAppend(events: seq<Event>, e: Event)
    ensures SleepEvents(events + [e]) == SleepEvents(events) + if e.next == DeepSleep then 1 else 0
  {
    assert (events + [e])[..|events|] == events;
  }

  lemma CompleteKeepsRequests(s: State, c: Controller, firing: Firing, env: Env)
    requires Finishing(s, c, firing)
    requires s.tally.acquired - s.tally.released == if firing.handler.sync then 1 else 0
    ensures var t := Complete(s, c, firing, env);
            RequestInv(t) && ControllerInv(t) && !IsRunning(t) && t.inFlight == None
  {
  }

  lemma CompleteKeepsInv(s: State, c: Controller, firing: Firing, env: Env)
    requires Finishing(s, c, firing)
    requires s.tally.acquired - s.tally.released == if firing.handler.sync then 1 else 0
    ensures Inv(Complete(s, c, firing, env))
  {
    CompleteKeepsChain(s, c, firing, env);
    CompleteKeepsLog(s, c, firing, env);
    CompleteKeepsRequests(s, c, firing, env);
  }

  lemma AckKeepsInv(s: State, client: nat, txId: int, env: Env)
    requires Inv(s)
    ensures Inv(Ack(s, client, txId, env).0)
  {
    if s.current.Some? {
      var (c, _, firing) := AcknowledgeController(s.current.value, client, txId);
      if firing.Fire? {
        CompleteKeepsInv(s.(current := Some(c)), c, firing, env);
      }
    }
  }

  lemma RemoveClientKeepsInv(s: State, client: nat, env: Env)
    requires Inv(s)
    ensures Inv(RemoveClient(s, client, env).0)
  {
    if client in s.clients {
      var left := s.(clients := s.clients - {client});
      if left.current.Some? {
        var (c, _, firing) := AcknowledgeController(left.current.value, client, left.current.value.txId);
        if firing.Fire? {
          CompleteKeepsInv(left.(current := Some(c)), c, firing, env);
        }
      }
    }
  }

  lemma RescheduleKeepsTimeout(c: Controller, now: int, client: nat, txId: int, offset: int, deadlines: seq<int>)
    requires IsLatest(c.timeout, deadlines) && (c.phase.Running? ==> c.phase.armedFor == c.timeout)
    ensures var (d, status) := RescheduleController(c, now, client, txId, offset);
            && d == c.(timeout := d.timeout, phase := d.phase)
            && IsLatest(d.timeout, if status == ErrorNone then deadlines + [now + Unsigned(offset)] else deadlines)
            && (d.phase.Running? <==> c.phase.Running?)
            && (d.phase.Running? ==> d.phase == Running(c.phase.handler, d.timeout))
  {
    var last := now + Unsigned(offset);
    assert (deadlines + [last])[|deadlines|] == last;
    assert forall d :: d in deadlines ==> d in deadlines + [last];
  }

  lemma DelayKeepsInv(s: State, client: nat, txId: int, seconds: int)
    requires Inv(s)
    ensures Inv(Delay(s, client, txId, seconds).0)
  {
    if s.current.Some? && (s.inFlight.Some? || IsRunning(s)) {
      RescheduleKeepsTimeout(s.current.value, s.clock, client, txId, seconds * 1000, s.log.deadlines);
    }
  }

  lemma TimerFireKeepsInv(s: State, env: Env)
    requires Inv(s) && Enabled(s, TimerStep(env))
    ensures Inv(TimerFire(s, env))
  {
    var (c, firing) := TimeoutController(s.current.value);
    CompleteKeepsInv(s.(current := Some(c)), c, firing, env);
  }

  /** The state in which Schedule invokes the closure, or in which it leaves the timer armed.
      (An asynchronous request gives the lock back after its closure; before or after is the same.) */
  function Handed(s: State, c: Controller, offset: int): State
    requires s.inFlight.Some?
  {
    var t := HandOver(s, c, s.clock + offset);
    if s.inFlight.value.sync then t else Unlock(t)
  }

  lemma HandedKeepsInv(s: State, offset: int)
    requires Inv(s) && s.inFlight.Some? && offset >= 0
    requires s.inFlight.value.sync <==> offset == 0
    ensures var (c, firing) := ScheduleController(s.current.value, s.clock, offset, s.inFlight.value);
            var t := Handed(s, c, offset);
            if firing.Fire? then Finishing(t, c, firing) else Inv(t)
  {
  }

  lemma ScheduleIsHandOver(s: State, env: Env)
    requires s.inFlight.Some? && s.current.Some?
    ensures var handler := s.inFlight.value;
            var offset := if handler.sync then 0 else PRECHANGE_TIMEOUT_MS;
            var (c, firing) := ScheduleController(s.current.value, s.clock, offset, handler);
            Schedule(s, env) == Complete(Handed(s, c, offset), c, firing, env)
  {
  }

  lemma ScheduleKeepsInv(s: State, env: Env)
    requires Inv(s) && s.inFlight.Some? && s.current.Some?
    ensures Inv(Schedule(s, env))
  {
    var handler := s.inFlight.value;
    var offset := if handler.sync then 0 else PRECHANGE_TIMEOUT_MS;
    var (c, firing) := ScheduleController(s.current.value, s.clock, offset, handler);
    ScheduleIsHandOver(s, env);
    HandedKeepsInv(s, offset);
    HandedCompletes(s, c, firing, offset, env);
  }

  lemma HandedCompletes(s: State, c: Controller, firing: Firing, offset: int, env: Env)
    requires Inv(s) && s.inFlight.Some? && (firing.Fire? ==> firing.handler == s.inFlight.value)
    requires var t := Handed(s, c, offset); if firing.Fire? then Finishing(t, c, firing) else Inv(t)
    ensures Inv(Complete(Handed(s, c, offset), c, firing, env))
  {
    if firing.Fire? {
      CompleteKeepsInv(Handed(s, c, offset), c, firing, env);
    }
  }

  lemma DropControllerKeepsInv(s: State, env: Env)
    requires Inv(s) && s.inFlight == None
    ensures Inv(DropController(s, env))
  {
    if IsRunning(s) {
      CompleteKeepsInv(s.(current := None), s.current.value, RevokeController(s.current.value), env);
    }
  }

  lemma OpenTransactionKeepsInv(s: State, target: PowerState)
    requires Inv(s) && s.inFlight == None && s.current == None && s.device.stored != target
    ensures Inv(Lock(OpenTransaction(s, target)))
  {
  }

  /** Waking up before the previous transaction is dropped. */
  function Awake(s: State): State {
    if s.device.stored == DeepSleep then Wake(s) else s
  }

  lemma OpeningRequest(s: State, target: PowerState, sleeping: bool, env: Env)
    requires Opens(s, target, sleeping)
    ensures Request(s, target, sleeping, env) == Lock(OpenTransaction(DropController(Awake(s), env), target))
  {
    DropUnderLock(Awake(s), env);
  }

  lemma DropUnderLock(s: State, env: Env)
    ensures DropController(Lock(s), env) == Lock(DropController(s, env))
  {
  }

  lemma RefusedRequest(s: State, target: PowerState, sleeping: bool, env: Env)
    requires !Opens(s, target, sleeping)
    ensures Request(s, target, sleeping, env) ==
            Unlock(Lock(if s.device.stored == DeepSleep && target != DeepSleep && !sleeping then Wake(s) else s))
  {
  }

  lemma WakeKeepsInv(s: State)
    requires Inv(s)
    ensures Inv(Wake(s)) && Inv(Unlock(Lock(s)))
  {
  }

  lemma DroppedCanOpen(s: State, env: Env)
    requires s.inFlight == None
    ensures var t := DropController(s, env); t.inFlight == None && t.current == None && t.device == s.device
  {
  }

  lemma RequestKeepsInv(s: State, target: PowerState, sleeping: bool, env: Env)
    requires Inv(s) && Permits(s) >= 1
    ensures Inv(Request(s, target, sleeping, env))
  {
    WakeKeepsInv(s);
    if Opens(s, target, sleeping) {
      OpeningRequest(s, target, sleeping, env);
      DropControllerKeepsInv(Awake(s), env);
      DroppedCanOpen(Awake(s), env);
      OpenTransactionKeepsInv(DropController(Awake(s), env), target);
    } else {
      RefusedRequest(s, target, sleeping, env);
      WakeKeepsInv(Wake(s));
    }
  }

  /** Every step keeps the invariant. */
  lemma NextKeepsInv(s: State, step: Step)
    requires Inv(s) && Enabled(s, step)
    ensures Inv(Next(s, step))
  {
    match step
    case AddClientStep(name) =>
    case RemoveClientStep(client, env) => RemoveClientKeepsInv(s, client, env);
    case AckStep(client, txId, env) => AckKeepsInv(s, client, txId, env);
    case DelayStep(client, txId, seconds) => DelayKeepsInv(s, client, txId, seconds);
    case RequestStep(target, sleeping, env) => RequestKeepsInv(s, target, sleeping, env);
    case ScheduleStep(env) => ScheduleKeepsInv(s, env);
    case TimerStep(env) => TimerFireKeepsInv(s, env);
    case SaveStep(access) => SaveKeepsInv(s, access);
    case TickStep(ms) =>
  }

  lemma SaveKeepsInv(s: State, access: Access)
    requires Inv(s)
    ensures Inv(SaveSettings(s, access))
  {
  }

  lemma {:induction false} RunKeepsInv(s: State, steps: seq<Step>)
    requires Inv(s) && Runs(s, steps)
    ensures Inv(After(s, steps))
    decreases |steps|
  {
    if steps != [] {
      NextKeepsInv(s, steps[0]);
      RunKeepsInv(Next(s, steps[0]), steps[1..]);
    }
  }

  lemma {:induction false} RunKeepsBoot(s: State, steps: seq<Step>)
    requires Runs(s, steps)
    ensures After(s, steps).log.boot == s.log.boot
    decreases |steps|
  {
    if steps != [] {
      RunKeepsBoot(Next(s, steps[0]), steps[1..]);
    }
  }

  lemma AddClientKeepsClients(s: State, name: string)
    requires ClientsOk(s.clients, s.nextClient, s.log.issued)
    ensures var t := AddClient(s, name); ClientsOk(t.clients, t.nextClient, t.log.issued)
  {
  }

  lemma CommitLeavesClients(s: State, handler: Handler, env: Env)
    ensures var t := Commit(s, handler, env);
            && t.log.issued == s.log.issued && t.log.boot == s.log.boot
            && t.nextClient == s.nextClient && t.clients == s.clients
  {
  }

  lemma CompleteLeavesClients(s: State, c: Controller, firing: Firing, env: Env)
    ensures var t := Complete(s, c, firing, env);
            && t.log.issued == s.log.issued && t.log.boot == s.log.boot
            && t.nextClient == s.nextClient && t.clients == s.clients
  {
    if firing.Fire? {
      CommitLeavesClients(s, firing.handler, env);
    }
  }

  lemma OthersLeaveIssued(s: State, step: Step)
    requires Enabled(s, step) && !step.AddClientStep?
    ensures var t := Next(s, step);
            && t.log.issued == s.log.issued && t.nextClient == s.nextClient
            && t.clients == if step.RemoveClientStep? then s.clients - {step.client} else s.clients
  {
    match step
    case RequestStep(target, sleeping, env) =>
      RequestLeavesClients(s, target, sleeping, env);
    case ScheduleStep(env) => ScheduleLeavesClients(s, env);
    case _ =>
  }

  lemma RequestLeavesClients(s: State, target: PowerState, sleeping: bool, env: Env)
    ensures var t := Request(s, target, sleeping, env);
            t.log.issued == s.log.issued && t.nextClient == s.nextClient && t.clients == s.clients
  {
    if Opens(s, target, sleeping) {
      OpeningRequest(s, target, sleeping, env);
    } else {
      RefusedRequest(s, target, sleeping, env);
    }
  }

  lemma ScheduleLeavesClients(s: State, env: Env)
    requires s.inFlight.Some? && s.current.Some?
    ensures var t := Schedule(s, env);
            t.log.issued == s.log.issued && t.nextClient == s.nextClient && t.clients == s.clients
  {
    var handler := s.inFlight.value;
    var offset := if handler.sync then 0 else PRECHANGE_TIMEOUT_MS;
    var (c, firing) := ScheduleController(s.current.value, s.clock, offset, handler);
    CompleteLeavesClients(HandOver(s, c, s.clock + offset), c, firing, env);
  }

  lemma {:induction false} RunKeepsClients(s: State, steps: seq<Step>)
    requires Runs(s, steps) && ClientsOk(s.clients, s.nextClient, s.log.issued)
    ensures var t := After(s, steps); ClientsOk(t.clients, t.nextClient, t.log.issued)
    decreases |steps|
  {
    if steps != [] {
      if steps[0].AddClientStep? {
        AddClientKeepsClients(s, steps[0].name);
      } else {
        OthersLeaveIssued(s, steps[0]);
      }
      RunKeepsClients(Next(s, steps[0]), steps[1..]);
    }
  }

  // ---------------------------------------------------------------- the settings file

  /** What the file holds for a reload: the state last written to it, if it was written by
      settings of a version that a reload accepts, and the state found at boot if it never was. */
  function FileHolds(log: Log): PowerState {
    if log.filed == None then log.boot.saved else if log.boot.valid then log.filed.value else DEFAULT_STATE
  }

  /** Memory and platform agree if they did at boot, and the file is as last written. */
  ghost predicate FileOk(s: State) {
    && s.device.valid == s.log.boot.valid
    && (s.log.boot.stored == s.log.boot.platform ==> s.device.stored == s.device.platform)
    && s.device.saved == FileHolds(s.log)
    && (s.log.fileFresh ==> s.log.filed == Some(s.device.stored))
  }

  lemma CompleteKeepsFile(s: State, c: Controller, firing: Firing, env: Env)
    requires FileOk(s)
    ensures FileOk(Complete(s, c, firing, env))
  {
  }

  lemma NextKeepsFile(s: State, step: Step)
    requires FileOk(s) && Enabled(s, step)
    ensures FileOk(Next(s, step))
  {
    match step
    case RemoveClientStep(client, env) => RemoveClientKeepsFile(s, client, env);
    case AckStep(client, txId, env) => AckKeepsFile(s, client, txId, env);
    case RequestStep(target, sleeping, env) => RequestKeepsFile(s, target, sleeping, env);
    case ScheduleStep(env) => ScheduleKeepsFile(s, env);
    case TimerStep(env) =>
      var (c, firing) := TimeoutController(s.current.value);
      CompleteKeepsFile(s.(current := Some(c)), c, firing, env);
    case SaveStep(access) => SaveKeepsFile(s, access);
    case _ =>
  }

  lemma SaveKeepsFile(s: State, access: Access)
    requires FileOk(s)
    ensures FileOk(SaveSettings(s, access))
  {
  }

  lemma AckKeepsFile(s: State, client: nat, txId: int, env: Env)
    requires FileOk(s)
    ensures FileOk(Ack(s, client, txId, env).0)
  {
    if s.current.Some? {
      var (c, _, firing) := AcknowledgeController(s.current.value, client, txId);
      CompleteKeepsFile(s.(current := Some(c)), c, firing, env);
    }
  }

  lemma RemoveClientKeepsFile(s: State, client: nat, env: Env)
    requires FileOk(s)
    ensures FileOk(RemoveClient(s, client, env).0)
  {
    if client in s.clients && s.current.Some? {
      var left := s.(clients := s.clients - {client});
      var (c, _, firing) := AcknowledgeController(left.current.value, client, left.current.value.txId);
      CompleteKeepsFile(left.(current := Some(c)), c, firing, env);
    }
  }

  lemma HandedKeepsFile(s: State, c: Controller, offset: int)
    requires FileOk(s) && s.inFlight.Some?
    ensures FileOk(Handed(s, c, offset))
  {
  }

  lemma ScheduleKeepsFile(s: State, env: Env)
    requires FileOk(s) && s.inFlight.Some? && s.current.Some?
    ensures FileOk(Schedule(s, env))
  {
    var handler := s.inFlight.value;
    var offset := if handler.sync then 0 else PRECHANGE_TIMEOUT_MS;
    var (c, firing) := ScheduleController(s.current.value, s.clock, offset, handler);
    ScheduleIsHandOver(s, env);
    HandedKeepsFile(s, c, offset);
    CompleteKeepsFile(Handed(s, c, offset), c, firing, env);
  }

  lemma RequestKeepsFile(s: State, target: PowerState, sleeping: bool, env: Env)
    requires FileOk(s)
    ensures FileOk(Request(s, target, sleeping, env))
  {
    if Opens(s, target, sleeping) {
      OpeningRequest(s, target, sleeping, env);
      var t := Awake(s);
      if t.current.Some? {
        CompleteKeepsFile(t.(current := None), t.current.value, RevokeController(t.current.value), env);
      }
    }
  }

  lemma {:induction false} RunKeepsFile(s: State, steps: seq<Step>)
    requires Runs(s, steps) && FileOk(s)
    ensures FileOk(After(s, steps))
    decreases |steps|
  {
    if steps != [] {
      NextKeepsFile(s, steps[0]);
      RunKeepsFile(Next(s, steps[0]), steps[1..]);
    }
  }

  lemma {:induction false} RunAppend(s: State, steps: seq<Step>, step: Step)
    requires Runs(s, steps) && Enabled(After(s, steps), step)
    ensures Runs(s, steps + [step]) && After(s, steps + [step]) == Next(After(s, steps), step)
    decreases |steps|
  {
    if steps == [] {
      assert steps + [step] == [step] && [step][1..] == [];
      assert Runs(Next(s, step), []) && After(Next(s, step), []) == Next(s, step);
    } else {
      assert (steps + [step])[1..] == steps[1..] + [step];
      RunAppend(Next(s, steps[0]), steps[1..], step);
    }
  }

  lemma InitIsReachable(boot: Device, clock: int)
    ensures Reachable(boot, Init(boot, clock))
  {
    assert Runs(Init(boot, clock), []) && After(Init(boot, clock), []) == Init(boot, clock);
  }

  lemma StepIsReachable(boot: Device, s: State, step: Step)
    requires Reachable(boot, s) && Enabled(s, step)
    ensures Reachable(boot, Next(s, step))
  {
    var clock, steps :| Runs(Init(boot, clock), steps) && s == After(Init(boot, clock), steps);
    RunAppend(Init(boot, clock), steps, step);
  }

  /** Every reachable state satisfies the invariants. */
  lemma ReachableInv(boot: Device, s: State)
    requires Reachable(boot, s)
    ensures Inv(s) && s.log.boot == boot
  {
    var clock, steps :| Runs(Init(boot, clock), steps) && s == After(Init(boot, clock), steps);
    InitInv(boot, clock);
    RunKeepsInv(Init(boot, clock), steps);
    RunKeepsBoot(Init(boot, clock), steps);
  }

  lemma ReachableClients(boot: Device, s: State)
    requires Reachable(boot, s)
    ensures ClientsOk(s.clients, s.nextClient, s.log.issued)
  {
    var clock, steps :| Runs(Init(boot, clock), steps) && s == After(Init(boot, clock), steps);
    RunKeepsClients(Init(boot, clock), steps);
  }

  lemma ReachableFile(boot: Device, s: State)
    requires Reachable(boot, s)
    ensures FileOk(s) && s.log.boot == boot
  {
    var clock, steps :| Runs(Init(boot, clock), steps) && s == After(Init(boot, clock), steps);
    RunKeepsFile(Init(boot, clock), steps);
    RunKeepsBoot(Init(boot, clock), steps);
  }
}
