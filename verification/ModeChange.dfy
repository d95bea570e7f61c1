/** The power-mode change protocol as a machine on values: one transition for
    each entry point of the power manager, which guards them by its locks.
    The classes of PowerManager.dfy refine these transitions. */
module ModeChange {
  import opened PowerTypes

  // ---------------------------------------------------------------- acknowledgements

  /** What the completion closure of a request captures. */
  datatype Handler = Handler(prev: PowerState, target: PowerState, sync: bool)

  /** While a controller runs, its timer job is armed for one instant. */
  datatype Phase = NotRunning | Running(handler: Handler, armedFor: int)

  datatype Controller = Controller(txId: nat, target: PowerState, pending: set<nat>, timeout: int, phase: Phase)

  /** Whether an operation invoked the completion closure, and with which arguments. */
  datatype Firing = Quiet | Fire(handler: Handler, timedOut: bool, revoked: bool)

  const PRECHANGE_TIMEOUT_MS: int := 1000

  function NewController(txId: nat, target: PowerState, now: int): Controller {
    Controller(txId, target, {}, now, NotRunning)
  }

  function AcknowledgeController(c: Controller, client: nat, txId: int): (Controller, Status, Firing) {
    if txId != c.txId || client !in c.pending then
      (c, ErrorInvalidParameter, Quiet)
    else
      var acked := c.(pending := c.pending - {client});
      if acked.pending == {} && c.phase.Running? then
        (acked.(phase := NotRunning), ErrorNone, Fire(c.phase.handler, false, false))
      else
        (acked, ErrorNone, Quiet)
  }

  function ScheduleController(c: Controller, now: int, offset: int, handler: Handler): (Controller, Firing) {
    if c.pending == {} || offset == 0 then
      (c, Fire(handler, false, false))
    else
      var deadline := Max(now + offset, c.timeout);
      (c.(timeout := deadline, phase := Running(handler, deadline)), Quiet)
  }

  /** A signed number of milliseconds where the clock takes an unsigned 32-bit one. */
  function Unsigned(ms: int): int {
    ms % U32_RANGE
  }

  function RescheduleController(c: Controller, now: int, client: nat, txId: int, offset: int): (Controller, Status) {
    var deadline := now + Unsigned(offset);
    if !c.phase.Running? then
      (c.(timeout := Max(c.timeout, deadline)), ErrorNone)
    else if txId != c.txId || client !in c.pending then
      (c, ErrorInvalidParameter)
    else if deadline > c.timeout then
      (c.(timeout := deadline, phase := c.phase.(armedFor := deadline)), ErrorNone)
    else
      (c, ErrorNone)
  }

  function TimeoutController(c: Controller): (Controller, Firing) {
    if c.phase.Running? then (c.(phase := NotRunning), Fire(c.phase.handler, true, false)) else (c, Quiet)
  }

  function RevokeController(c: Controller): Firing {
    if c.phase.Running? then Fire(c.phase.handler, false, true) else Quiet
  }

  // ---------------------------------------------------------------- device

  /** `stored` and `lastKnown` are the power controller's memory; `saved` is the state a reload
      of the settings file would produce; `valid` says that the settings in memory carry the
      version that a reload accepts. */
  datatype Device = Device(stored: PowerState, lastKnown: PowerState, platform: PowerState, saved: PowerState, valid: bool)

  /** What the environment answers while a transition is committed. */
  datatype Env = Env(ignoreDeepSleep: bool, platformOk: bool, access: Access)

  predicate Accepts(target: PowerState, env: Env) {
    env.platformOk && !(env.ignoreDeepSleep && target == DeepSleep)
  }

  /** What a reload produces after an attempt to save `state`. */
  function Saving(d: Device, state: PowerState, access: Access): PowerState {
    if access != Writable then d.saved else if d.valid then state else DEFAULT_STATE
  }

  /** The settings are saved as they are. */
  function Saved(d: Device, access: Access): Device {
    d.(saved := Saving(d, d.stored, access))
  }

  function SetDevice(d: Device, target: PowerState, env: Env): (Device, Status) {
    if env.ignoreDeepSleep && target == DeepSleep then (d, ErrorIllegalState)
    else if !env.platformOk then (d, ErrorGeneral)
    else (Device(target, d.stored, target, Saving(d, target, env.access), d.valid), ErrorNone)
  }

  // ---------------------------------------------------------------- machine

  /** A mode-changed notification. */
  datatype Event = Event(prev: PowerState, next: PowerState)

  /** One invocation of a completion closure, with the circumstances it ran in. */
  datatype Completion = Completion(
    txId: nat, handler: Handler, timedOut: bool, revoked: bool,
    at: int, pending: set<nat>, timeout: int, committed: bool)

  /** References taken on the implementation by requests, selfLock acquisitions and releases,
      deep sleep activations submitted and deactivations. */
  datatype Tally = Tally(refs: int, acquired: int, released: int, deepSleeps: nat, wakeups: nat)

  /** History only: no transition reads it. */
  datatype Log = Log(
    boot: Device,
    issued: seq<nat>,               // client ids, in the order they were handed out
    scheduled: seq<nat>,            // transactions whose closure was handed to Schedule
    deadlines: seq<int>,            // deadlines of the current transaction, from its creation on
    completed: seq<Completion>,
    events: seq<Event>,
    filed: Option<PowerState>,      // the state last written to the settings file
    fileFresh: bool)                // whether the present state was written since it was last committed

  datatype State = State(
    clock: int,
    clients: map<nat, string>,
    nextClient: nat,
    nextTx: nat,
    current: Option<Controller>,
    inFlight: Option<Handler>,      // a request between its prologue and its Schedule
    device: Device,
    tally: Tally,
    log: Log)

  function Init(device: Device, clock: int): State {
    State(clock, map[], 0, 0, None, None, device, Tally(0, 0, 0, 0, 0), Log(device, [], [], [], [], [], None, false))
  }

  function Permits(s: State): int {
    1 + s.tally.released - s.tally.acquired
  }

  function Lock(s: State): State {
    s.(tally := s.tally.(acquired := s.tally.acquired + 1))
  }

  function Unlock(s: State): State {
    s.(tally := s.tally.(released := s.tally.released + 1))
  }

  function Wake(s: State): State {
    s.(tally := s.tally.(wakeups := s.tally.wakeups + 1))
  }

  function IsSyncStateChange(from: PowerState, to: PowerState): bool {
    from == DeepSleep && to == LightSleep
  }

  /** History only: whether a committed change reached the settings file. */
  function NoteFile(log: Log, target: PowerState, access: Access): Log {
    if access == Writable then log.(filed := Some(target), fileFresh := true) else log.(fileFresh := false)
  }

  function NoteSleep(tally: Tally, target: PowerState): Tally {
    if target == DeepSleep then tally.(deepSleeps := tally.deepSleeps + 1) else tally
  }

  /** A transition becomes the device's, with a notification and, for deep sleep, its activation. */
  function Commit(s: State, handler: Handler, env: Env): State {
    s.(device := SetDevice(s.device, handler.target, env).0,
       log := NoteFile(s.log.(events := s.log.events + [Event(handler.prev, handler.target)]), handler.target, env.access),
       tally := NoteSleep(s.tally, handler.target))
  }

  /** The end of a closure: the reference, and for a synchronous request the lock. */
  function Release(s: State, sync: bool): State {
    var t := s.(tally := s.tally.(refs := s.tally.refs - 1));
    if sync then Unlock(t) else t
  }

  function Record(s: State, c: Completion): State {
    s.(log := s.log.(completed := s.log.completed + [c]))
  }

  predicate Commits(firing: Firing, env: Env)
    requires firing.Fire?
  {
    !firing.revoked && Accepts(firing.handler.target, env)
  }

  function Done(s: State, c: Controller, firing: Firing, committed: bool): Completion
    requires firing.Fire?
  {
    Completion(c.txId, firing.handler, firing.timedOut, firing.revoked, s.clock, c.pending, c.timeout, committed)
  }

  /** The completion closure: commit unless revoked, then drop the reference and,
      for a synchronous request, the lock. */
  function Complete(s: State, c: Controller, firing: Firing, env: Env): State {
    if firing.Quiet? then s
    else if Commits(firing, env) then
      Release(Record(Commit(s, firing.handler, env), Done(s, c, firing, true)), firing.handler.sync)
    else
      Release(Record(s, Done(s, c, firing, false)), firing.handler.sync)
  }

  ghost predicate Registered(clients: map<nat, string>, name: string) {
    exists id :: id in clients && clients[id] == name
  }

  ghost function AddClient(s: State, name: string): State {
    if name == "" || Registered(s.clients, name) then s
    else
      var id := (s.nextClient + 1) % U32_RANGE;
      s.(nextClient := id, clients := s.clients[id := name], log := s.log.(issued := s.log.issued + [id]))
  }

  function RemoveClient(s: State, client: nat, env: Env): (State, Status) {
    if client !in s.clients then (s, ErrorInvalidParameter)
    else
      var left := s.(clients := s.clients - {client});
      if left.current == None then (left, ErrorNone)
      else
        var (c, _, firing) := AcknowledgeController(left.current.value, client, left.current.value.txId);
        (Complete(left.(current := Some(c)), c, firing, env), ErrorNone)
  }

  function Ack(s: State, client: nat, txId: int, env: Env): (State, Status) {
    if s.current == None then (s, ErrorInvalidParameter)
    else
      var (c, status, firing) := AcknowledgeController(s.current.value, client, txId);
      (Complete(s.(current := Some(c)), c, firing, env), status)
  }

  /** A deadline was set for the current transaction. */
  function NoteDeadline(s: State, deadline: int): State {
    s.(log := s.log.(deadlines := s.log.deadlines + [deadline]))
  }

  function Delay(s: State, client: nat, txId: int, seconds: int): (State, Status) {
    if s.current == None then (s, ErrorInvalidParameter)
    else
      var (c, status) := RescheduleController(s.current.value, s.clock, client, txId, seconds * 1000);
      var t := s.(current := Some(c));
      (if status == ErrorNone then NoteDeadline(t, s.clock + Unsigned(seconds * 1000)) else t, status)
  }

  /** A request opens a transaction only in this case. */
  predicate Opens(s: State, target: PowerState, sleeping: bool) {
    && s.device.stored != target
    && !(s.device.stored == DeepSleep && sleeping)
    && (s.current == None || s.current.value.target != target)
  }

  /** Destroying the previous controller runs its closure as revoked. */
  function DropController(s: State, env: Env): State {
    if s.current == None then s
    else
      var stale := s.current.value;
      Complete(s.(current := None), stale, RevokeController(stale), env)
  }

  /** A fresh transaction that awaits every registered client. */
  function OpenTransaction(s: State, target: PowerState): State {
    var c := NewController(s.nextTx + 1, target, s.clock).(pending := s.clients.Keys);
    s.(current := Some(c),
       nextTx := s.nextTx + 1,
       log := s.log.(deadlines := [s.clock]),
       tally := s.tally.(refs := s.tally.refs + 1),
       inFlight := Some(Handler(s.device.stored, target, IsSyncStateChange(s.device.stored, target))))
  }

  /** SetPowerState up to the creation of the controller. `sleeping` says that a deep
      sleep is in progress and younger than the transient threshold. */
  function Request(s: State, target: PowerState, sleeping: bool, env: Env): State {
    var locked := Lock(s);
    if s.device.stored == target || (s.device.stored == DeepSleep && sleeping) then
      Unlock(locked)
    else
      var awake := if s.device.stored == DeepSleep then Wake(locked) else locked;
      if s.current != None && s.current.value.target == target then
        Unlock(awake)
      else
        OpenTransaction(DropController(awake, env), target)
  }

  /** The request's closure is handed to its controller. */
  function HandOver(s: State, c: Controller, deadline: int): State {
    NoteDeadline(s.(current := Some(c), inFlight := None, log := s.log.(scheduled := s.log.scheduled + [c.txId])), deadline)
  }

  /** SetPowerState from its call of Schedule to its end. */
  function Schedule(s: State, env: Env): State
    requires s.inFlight.Some? && s.current.Some?
  {
    var handler := s.inFlight.value;
    var offset := if handler.sync then 0 else PRECHANGE_TIMEOUT_MS;
    var (c, firing) := ScheduleController(s.current.value, s.clock, offset, handler);
    var done := Complete(HandOver(s, c, s.clock + offset), c, firing, env);
    if handler.sync then done else Unlock(done)
  }

  /** The settings are saved for another reason, power state included. */
  function SaveSettings(s: State, access: Access): State {
    var t := s.(device := Saved(s.device, access));
    if access == Writable then t.(log := t.log.(filed := Some(s.device.stored), fileFresh := true)) else t
  }

  function TimerFire(s: State, env: Env): State
    requires s.current.Some?
  {
    var (c, firing) := TimeoutController(s.current.value);
    Complete(s.(current := Some(c)), c, firing, env)
  }

  // ---------------------------------------------------------------- runs

  datatype Step =
    | AddClientStep(name: string)
    | RemoveClientStep(client: nat, env: Env)
    | AckStep(client: nat, txId: int, env: Env)
    | DelayStep(client: nat, txId: int, seconds: int)
    | RequestStep(target: PowerState, sleeping: bool, env: Env)
    | ScheduleStep(env: Env)
    | TimerStep(env: Env)
    | SaveStep(access: Access)
    | TickStep(ms: nat)

  /** A request needs the lock; Schedule follows a prologue; the worker pool runs the
      timer job once its instant has come. */
  predicate Enabled(s: State, step: Step) {
    match step
    case RequestStep(_, _, _) => Permits(s) >= 1
    case ScheduleStep(_) => s.inFlight.Some? && s.current.Some?
    case TimerStep(_) => s.current.Some? && s.current.value.phase.Running? && s.current.value.phase.armedFor <= s.clock
    case _ => true
  }

  ghost function Next(s: State, step: Step): State
    requires Enabled(s, step)
  {
    match step
    case AddClientStep(name) => AddClient(s, name)
    case RemoveClientStep(client, env) => RemoveClient(s, client, env).0
    case AckStep(client, txId, env) => Ack(s, client, txId, env).0
    case DelayStep(client, txId, seconds) => Delay(s, client, txId, seconds).0
    case RequestStep(target, sleeping, env) => Request(s, target, sleeping, env)
    case ScheduleStep(env) => Schedule(s, env)
    case TimerStep(env) => TimerFire(s, env)
    case SaveStep(access) => SaveSettings(s, access)
    case TickStep(ms) => s.(clock := s.clock + ms)
  }

  /** Every step of the run is enabled when its turn comes. */
  ghost predicate Runs(s: State, steps: seq<Step>)
    decreases |steps|
  {
    steps == [] || (Enabled(s, steps[0]) && Runs(Next(s, steps[0]), steps[1..]))
  }

  ghost function After(s: State, steps: seq<Step>): State
    requires Runs(s, steps)
    decreases |steps|
  {
    if steps == [] then s else After(Next(s, steps[0]), steps[1..])
  }

  /** `s` is reached by some run of a manager that booted with `boot`. */
  ghost predicate Reachable(boot: Device, s: State) {
    exists clock, steps :: Runs(Init(boot, clock), steps) && s == After(Init(boot, clock), steps)
  }
}
