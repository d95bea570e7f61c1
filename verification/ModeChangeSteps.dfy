/** What each step of the power-mode change protocol does, by conditions that can be read off
    before it: which transaction it ends and how, what that does to the device, whom a transaction
    still awaits, and until when. */
module ModeChangeSteps {
  import opened PowerTypes
  import opened ModeChange
  import opened ModeChangeInvariants
  import opened ModeChangeTheorems

  // ---------------------------------------------------------------- the end of a transaction

  /** A request that needs a transaction of its own. */
  predicate Begins(s: State, step: Step) {
    && step.RequestStep? && s.device.stored != step.target
    && !(s.device.stored == DeepSleep && step.sleeping)
    && !(s.current.Some? && s.current.value.target == step.target)
  }

  /** The only client that a running transaction still awaits. */
  predicate Last(s: State, client: nat) {
    IsRunning(s) && s.current.value.pending == {client}
  }

  predicate Grants(env: Env, target: PowerState) {
    env.platformOk && !(env.ignoreDeepSleep && target == DeepSleep)
  }

  /** The completion of the running transaction. */
  function Ending(s: State, timedOut: bool, revoked: bool, pending: set<nat>, env: Env): Completion
    requires IsRunning(s)
  {
    var c := s.current.value;
    Completion(c.txId, c.phase.handler, timedOut, revoked, s.clock, pending, c.timeout,
               !revoked && Grants(env, c.phase.handler.target))
  }

  /** The completion that a step brings about: by the last answer, by the last awaited client
      leaving, by the timer, by a newer request, or at once in Schedule. */
  function EndOf(s: State, step: Step): Option<Completion>
    requires Enabled(s, step)
  {
    match step
    case AckStep(client, txId, env) =>
      if Last(s, client) && txId == s.current.value.txId then Some(Ending(s, false, false, {}, env)) else None
    case RemoveClientStep(client, env) =>
      if client in s.clients && Last(s, client) then Some(Ending(s, false, false, {}, env)) else None
    case TimerStep(env) => Some(Ending(s, true, false, s.current.value.pending, env))
    case RequestStep(_, _, env) =>
      if Begins(s, step) && IsRunning(s) then Some(Ending(s, false, true, s.current.value.pending, env)) else None
    case ScheduleStep(env) =>
      var c, h := s.current.value, s.inFlight.value;
      if h.sync || c.pending == {} then
        Some(Completion(c.txId, h, false, false, s.clock, c.pending, c.timeout, Grants(env, h.target)))
      else None
    case _ => None
  }

  /** The device after a change to `target`: memory, history and platform follow, and the file if
      it is written, by settings of a valid version with the new state. */
  function Changed(d: Device, target: PowerState, access: Access): Device {
    Device(target, d.stored, target, if access == Writable then (if d.valid then target else On) else d.saved, d.valid)
  }

  /** From `s` to `t` this completion happened, and the device changed exactly if it committed. */
  predicate Ended(s: State, t: State, end: Option<Completion>, access: Access) {
    && t.log.completed == s.log.completed + (if end.Some? then [end.value] else [])
    && (if end.Some? && end.value.committed then
          var h := end.value.handler;
          && t.device == Changed(s.device, h.target, access)
          && t.log.events == s.log.events + [Event(h.prev, h.target)]
          && t.tally.deepSleeps == s.tally.deepSleeps + if h.target == DeepSleep then 1 else 0
        else
          t.device == s.device && t.log.events == s.log.events && t.tally.deepSleeps == s.tally.deepSleeps)
  }

  /** What a completion does not touch. */
  predicate SameRest(s: State, t: State) {
    && t.clock == s.clock && t.clients == s.clients && t.nextClient == s.nextClient && t.nextTx == s.nextTx
    && t.current == s.current && t.inFlight == s.inFlight && t.tally.wakeups == s.tally.wakeups
    && t.tally.acquired == s.tally.acquired
    && t.log.issued == s.log.issued && t.log.deadlines == s.log.deadlines && t.log.scheduled == s.log.scheduled
  }

  lemma CompleteEnds(s: State, c: Controller, firing: Firing, env: Env)
    ensures var end := if firing.Quiet? then None
                       else Some(Completion(c.txId, firing.handler, firing.timedOut, firing.revoked, s.clock, c.pending, c.timeout,
                                            !firing.revoked && Grants(env, firing.handler.target)));
            Ended(s, Complete(s, c, firing, env), end, env.access)
    ensures SameRest(s, Complete(s, c, firing, env))
  {
  }

  lemma AckEnds(s: State, client: nat, txId: int, env: Env)
    requires Inv(s)
    ensures Ended(s, Ack(s, client, txId, env).0, EndOf(s, AckStep(client, txId, env)), env.access)
  {
    if s.current.Some? {
      var (c, _, firing) := AcknowledgeController(s.current.value, client, txId);
      CompleteEnds(s.(current := Some(c)), c, firing, env);
    }
  }

  lemma RemoveClientEnds(s: State, client: nat, env: Env)
    requires Inv(s)
    ensures Ended(s, RemoveClient(s, client, env).0, EndOf(s, RemoveClientStep(client, env)), env.access)
  {
    if client in s.clients && s.current.Some? {
      var left := s.(clients := s.clients - {client});
      var (c, _, firing) := AcknowledgeController(left.current.value, client, left.current.value.txId);
      CompleteEnds(left.(current := Some(c)), c, firing, env);
    }
  }

  lemma TimerEnds(s: State, env: Env)
    requires Enabled(s, TimerStep(env))
    ensures Ended(s, TimerFire(s, env), EndOf(s, TimerStep(env)), env.access)
  {
    var (c, firing) := TimeoutController(s.current.value);
    CompleteEnds(s.(current := Some(c)), c, firing, env);
  }

  lemma ScheduleEnds(s: State, env: Env)
    requires Enabled(s, ScheduleStep(env))
    ensures Ended(s, Schedule(s, env), EndOf(s, ScheduleStep(env)), env.access)
  {
    var handler := s.inFlight.value;
    var offset := if handler.sync then 0 else PRECHANGE_TIMEOUT_MS;
    var (c, firing) := ScheduleController(s.current.value, s.clock, offset, handler);
    ScheduleIsHandOver(s, env);
    CompleteEnds(Handed(s, c, offset), c, firing, env);
  }

  lemma RequestEnds(s: State, target: PowerState, sleeping: bool, env: Env)
    requires Enabled(s, RequestStep(target, sleeping, env))
    ensures Ended(s, Request(s, target, sleeping, env), EndOf(s, RequestStep(target, sleeping, env)), env.access)
  {
    if Opens(s, target, sleeping) {
      OpeningRequest(s, target, sleeping, env);
      var t := Awake(s);
      if t.current.Some? {
        CompleteEnds(t.(current := None), t.current.value, RevokeController(t.current.value), env);
      }
    } else {
      RefusedRequest(s, target, sleeping, env);
    }
  }

  /** In every run each step ends exactly the transaction that its condition says, in that way; the
      completion commits exactly if it is not revoked, the platform accepts and deep sleep is not
      overridden, and exactly then device, notifications and deep sleep follow. */
  lemma CompletionsCommitExactlyWhen(boot: Device, s: State, step: Step)
    requires Reachable(boot, s) && Enabled(s, step) && !step.SaveStep?
    ensures Ended(s, Next(s, step), EndOf(s, step), AccessOf(step))
  {
    ReachableInv(boot, s);
    match step
    case AckStep(client, txId, env) => AckEnds(s, client, txId, env);
    case RemoveClientStep(client, env) => RemoveClientEnds(s, client, env);
    case TimerStep(env) => TimerEnds(s, env);
    case ScheduleStep(env) => ScheduleEnds(s, env);
    case RequestStep(target, sleeping, env) =>
      RequestEnds(s, target, sleeping, env);
      assert AccessOf(step) == Unopened;
    case _ =>
  }

  /** A change that is granted takes effect as soon as nothing is left to wait for: in Schedule when
      it is synchronous or nobody is awaited, with the last acknowledgement, when the last awaited
      client leaves, and with the timer. */
  lemma GrantedTransitionTakesEffect(boot: Device, s: State, step: Step)
    requires Reachable(boot, s) && Enabled(s, step)
    requires match step
             case ScheduleStep(env) => s.inFlight.value.sync || s.current.value.pending == {}
             case AckStep(client, txId, env) => Last(s, client) && txId == s.current.value.txId
             case RemoveClientStep(client, env) => Last(s, client)
             case TimerStep(env) => true
             case _ => false
    ensures var t, target := Next(s, step), s.current.value.target;
            var env := step.env;
            if env.platformOk && !(env.ignoreDeepSleep && target == DeepSleep) then
              && t.device.stored == t.device.platform == target && t.device.lastKnown == s.device.stored
              && t.log.events == s.log.events + [Event(s.device.stored, target)]
            else
              t.device == s.device && t.log.events == s.log.events
    ensures !IsRunning(Next(s, step)) && |Next(s, step).log.completed| == |s.log.completed| + 1
  {
    ReachableInv(boot, s);
    if step.RemoveClientStep? {
      assert step.client in s.current.value.pending;
    }
    CompletionsCommitExactlyWhen(boot, s, step);
    NextKeepsInv(s, step);
    ControllersFollow(s, step);
  }

  // ---------------------------------------------------------------- whom a transaction awaits

  /** The client that answers the current transaction, or leaves. */
  function Heard(s: State, step: Step): set<nat> {
    match step
    case AckStep(client, txId, _) => if s.current.Some? && txId == s.current.value.txId then {client} else {}
    case RemoveClientStep(client, _) => if client in s.clients then {client} else {}
    case _ => {}
  }

  /** The deadline that a step sets for the current transaction: Schedule, if it is to wait, and a
      delay by an awaited client, or by anyone before the transaction runs. */
  function Asked(s: State, step: Step): Option<int>
    requires Enabled(s, step)
  {
    match step
    case ScheduleStep(_) => if EndOf(s, step).Some? then None else Some(s.clock + 1000)
    case DelayStep(client, txId, seconds) =>
      if s.current.Some? && (!IsRunning(s) || (txId == s.current.value.txId && client in s.current.value.pending)) then
        Some(s.clock + seconds * 1000 % U32_RANGE)
      else None
    case _ => None
  }

  /** The controller of a transaction after a step that opens no other. */
  function Followed(s: State, step: Step): Controller
    requires Enabled(s, step) && s.current.Some?
  {
    var c, asked := s.current.value, Asked(s, step);
    var timeout := if asked.Some? && asked.value > c.timeout then asked.value else c.timeout;
    Controller(c.txId, c.target, c.pending - Heard(s, step), timeout,
               if EndOf(s, step).Some? then NotRunning
               else if step.ScheduleStep? then Running(s.inFlight.value, timeout)
               else if c.phase.Running? then Running(c.phase.handler, timeout)
               else NotRunning)
  }

  predicate Follows(s: State, t: State, step: Step)
    requires Enabled(s, step)
  {
    if Begins(s, step) then
      && t.current == Some(Controller(s.nextTx + 1, step.target, s.clients.Keys, s.clock, NotRunning))
      && t.nextTx == s.nextTx + 1
      && t.inFlight == Some(Handler(s.device.stored, step.target, s.device.stored == DeepSleep && step.target == LightSleep))
    else
      && t.current == (if s.current.Some? then Some(Followed(s, step)) else None)
      && t.nextTx == s.nextTx
      && t.inFlight == if step.ScheduleStep? then None else s.inFlight
  }

  lemma NobodyHeard(s: State)
    ensures s.current.Some? ==> s.current.value.pending - {} == s.current.value.pending
  {
  }

  lemma AckFollows(s: State, client: nat, txId: int, env: Env)
    requires Inv(s)
    ensures Follows(s, Ack(s, client, txId, env).0, AckStep(client, txId, env))
  {
    NobodyHeard(s);
    if s.current.Some? {
      var (c, _, firing) := AcknowledgeController(s.current.value, client, txId);
      CompleteEnds(s.(current := Some(c)), c, firing, env);
      if txId == s.current.value.txId && client !in s.current.value.pending {
        assert s.current.value.pending - {client} == s.current.value.pending;
      }
    }
  }

  lemma RemoveClientFollows(s: State, client: nat, env: Env)
    requires Inv(s)
    ensures Follows(s, RemoveClient(s, client, env).0, RemoveClientStep(client, env))
  {
    NobodyHeard(s);
    if client in s.clients && s.current.Some? {
      var left := s.(clients := s.clients - {client});
      var (c, _, firing) := AcknowledgeController(left.current.value, client, left.current.value.txId);
      CompleteEnds(left.(current := Some(c)), c, firing, env);
      if client !in s.current.value.pending {
        assert s.current.value.pending - {client} == s.current.value.pending;
      }
    }
  }

  lemma DelayFollows(s: State, client: nat, txId: int, seconds: int)
    requires Inv(s)
    ensures Follows(s, Delay(s, client, txId, seconds).0, DelayStep(client, txId, seconds))
  {
    NobodyHeard(s);
  }

  lemma TimerFollows(s: State, env: Env)
    requires Inv(s) && Enabled(s, TimerStep(env))
    ensures Follows(s, TimerFire(s, env), TimerStep(env))
  {
    NobodyHeard(s);
    var (c, firing) := TimeoutController(s.current.value);
    CompleteEnds(s.(current := Some(c)), c, firing, env);
  }

  lemma ScheduleFollows(s: State, env: Env)
    requires Inv(s) && Enabled(s, ScheduleStep(env))
    ensures Follows(s, Schedule(s, env), ScheduleStep(env))
  {
    NobodyHeard(s);
    var handler := s.inFlight.value;
    var offset := if handler.sync then 0 else PRECHANGE_TIMEOUT_MS;
    var (c, firing) := ScheduleController(s.current.value, s.clock, offset, handler);
    ScheduleIsHandOver(s, env);
    CompleteEnds(Handed(s, c, offset), c, firing, env);
  }

  lemma RequestFollows(s: State, target: PowerState, sleeping: bool, env: Env)
    requires Inv(s) && Enabled(s, RequestStep(target, sleeping, env))
    ensures Follows(s, Request(s, target, sleeping, env), RequestStep(target, sleeping, env))
  {
    NobodyHeard(s);
    if Opens(s, target, sleeping) {
      OpeningRequest(s, target, sleeping, env);
      var t := Awake(s);
      if t.current.Some? {
        CompleteEnds(t.(current := None), t.current.value, RevokeController(t.current.value), env);
      }
    } else {
      RefusedRequest(s, target, sleeping, env);
    }
  }

  lemma ControllersFollow(s: State, step: Step)
    requires Inv(s) && Enabled(s, step)
    ensures Follows(s, Next(s, step), step)
  {
    NobodyHeard(s);
    match step
    case AckStep(client, txId, env) => AckFollows(s, client, txId, env);
    case RemoveClientStep(client, env) => RemoveClientFollows(s, client, env);
    case DelayStep(client, txId, seconds) => DelayFollows(s, client, txId, seconds);
    case TimerStep(env) => TimerFollows(s, env);
    case ScheduleStep(env) => ScheduleFollows(s, env);
    case RequestStep(target, sleeping, env) => RequestFollows(s, target, sleeping, env);
    case _ =>
  }

  /** In every run each step leaves a controller that awaits exactly those of before that did not
      answer or leave in it, until the later of its deadline and the one set, running exactly from
      a Schedule that waits to the end; or the controller of a new transaction, which awaits every
      registered client. */
  lemma ControllerFollowsExactly(boot: Device, s: State, step: Step)
    requires Reachable(boot, s) && Enabled(s, step)
    ensures Follows(s, Next(s, step), step)
  {
    ReachableInv(boot, s);
    ControllersFollow(s, step);
  }

  /** The clients registered when the current transaction was opened, and those that answered it or
      left since, as a run tells. */
  datatype Roll = Roll(called: set<nat>, heard: set<nat>)

  ghost function RollAfter(s: State, roll: Roll, steps: seq<Step>): Roll
    requires Runs(s, steps)
    decreases |steps|
  {
    if steps == [] then roll
    else
      var step := steps[0];
      RollAfter(Next(s, step),
                if Begins(s, step) then Roll(s.clients.Keys, {}) else Roll(roll.called, roll.heard + Heard(s, step)),
                steps[1..])
  }

  predicate AwaitsTheRest(s: State, roll: Roll) {
    s.current.Some? ==> s.current.value.pending == roll.called - roll.heard
  }

  lemma {:induction false} RollIsKept(s: State, roll: Roll, steps: seq<Step>)
    requires Inv(s) && Runs(s, steps) && AwaitsTheRest(s, roll)
    ensures AwaitsTheRest(After(s, steps), RollAfter(s, roll, steps))
    decreases |steps|
  {
    if steps != [] {
      var step := steps[0];
      NextKeepsInv(s, step);
      ControllersFollow(s, step);
      RollIsKept(Next(s, step),
                 if Begins(s, step) then Roll(s.clients.Keys, {}) else Roll(roll.called, roll.heard + Heard(s, step)),
                 steps[1..]);
    }
  }

  /** In every run the current transaction awaits exactly the clients that were registered when it
      was opened, without those that answered it, running or not, or left. */
  lemma PendingAreTheUnheard(boot: Device, clock: int, steps: seq<Step>)
    requires Runs(Init(boot, clock), steps)
    ensures AwaitsTheRest(After(Init(boot, clock), steps), RollAfter(Init(boot, clock), Roll({}, {}), steps))
  {
    InitInv(boot, clock);
    RollIsKept(Init(boot, clock), Roll({}, {}), steps);
  }

  /** So an asynchronous transaction that is neither revoked nor ended by the timer is not ended
      before everyone it called has answered or left. */
  lemma NobodyIsForgotten(boot: Device, clock: int, steps: seq<Step>, step: Step)
    requires Runs(Init(boot, clock), steps) && Enabled(After(Init(boot, clock), steps), step)
    requires var end := EndOf(After(Init(boot, clock), steps), step);
             end.Some? && !end.value.timedOut && !end.value.revoked && !end.value.handler.sync
    ensures var s, roll := After(Init(boot, clock), steps), RollAfter(Init(boot, clock), Roll({}, {}), steps);
            roll.called <= roll.heard + Heard(s, step)
  {
    PendingAreTheUnheard(boot, clock, steps);
    var roll := RollAfter(Init(boot, clock), Roll({}, {}), steps);
    var pending := After(Init(boot, clock), steps).current.value.pending;
    forall client | client in roll.called && client !in roll.heard
      ensures client in pending
    {
    }
  }

  // ---------------------------------------------------------------- everything else

  /** A request that leaves deep sleep for another state, outside the transient interval. */
  predicate Wakes(s: State, step: Step) {
    step.RequestStep? && s.device.stored == DeepSleep && step.target != DeepSleep && !step.sleeping
  }

  predicate Kept(s: State, t: State, step: Step)
    requires Enabled(s, step)
  {
    && t.clock == s.clock + (if step.TickStep? then step.ms else 0)
    && t.tally.wakeups == s.tally.wakeups + (if Wakes(s, step) then 1 else 0)
    && t.tally.acquired == s.tally.acquired + (if step.RequestStep? then 1 else 0)
    && t.tally.released == s.tally.released + (if step.ScheduleStep? || (step.RequestStep? && !Begins(s, step)) then 1 else 0)
    && t.log.scheduled == s.log.scheduled + (if step.ScheduleStep? then [s.current.value.txId] else [])
  }

  lemma OpeningKeepsCounters(s: State, target: PowerState, sleeping: bool, env: Env)
    requires Inv(s) && s.inFlight == None && Opens(s, target, sleeping)
    ensures Kept(s, Lock(OpenTransaction(DropController(Awake(s), env), target)), RequestStep(target, sleeping, env))
  {
    var t := Awake(s);
    if t.current.Some? {
      CompleteEnds(t.(current := None), t.current.value, RevokeController(t.current.value), env);
    }
  }

  lemma CountersAreKept(s: State, step: Step)
    requires Inv(s) && Enabled(s, step)
    ensures Kept(s, Next(s, step), step)
  {
    match step
    case ScheduleStep(env) => ScheduleKeepsCounters(s, env);
    case RequestStep(target, sleeping, env) =>
      if Opens(s, target, sleeping) {
        OpeningRequest(s, target, sleeping, env);
        OpeningKeepsCounters(s, target, sleeping, env);
      } else {
        RefusedRequest(s, target, sleeping, env);
      }
    case AckStep(client, txId, env) => EndsKeepCounters(s, step);
    case RemoveClientStep(client, env) => EndsKeepCounters(s, step);
    case TimerStep(env) => EndsKeepCounters(s, step);
    case _ =>
  }

  lemma EndsKeepCounters(s: State, step: Step)
    requires Inv(s) && Enabled(s, step) && (step.AckStep? || step.RemoveClientStep? || step.TimerStep?)
    ensures Kept(s, Next(s, step), step)
  {
  }

  lemma ScheduleKeepsCounters(s: State, env: Env)
    requires Inv(s) && Enabled(s, ScheduleStep(env))
    ensures Kept(s, Schedule(s, env), ScheduleStep(env))
  {
    var handler := s.inFlight.value;
    var offset := if handler.sync then 0 else PRECHANGE_TIMEOUT_MS;
    var (c, firing) := ScheduleController(s.current.value, s.clock, offset, handler);
    ScheduleIsHandOver(s, env);
    CompleteEnds(Handed(s, c, offset), c, firing, env);
  }

  ghost function WakeCalls(s: State, steps: seq<Step>): nat
    requires Runs(s, steps)
    decreases |steps|
  {
    if steps == [] then 0 else (if Wakes(s, steps[0]) then 1 else 0) + WakeCalls(Next(s, steps[0]), steps[1..])
  }

  /** In every run deep sleep is deactivated once for each request that leaves it, or that finds a
      repeated target from it, outside the transient interval. */
  lemma {:induction false} WakeupsAreTheirRequests(s: State, steps: seq<Step>)
    requires Inv(s) && Runs(s, steps)
    ensures After(s, steps).tally.wakeups == s.tally.wakeups + WakeCalls(s, steps)
    decreases |steps|
  {
    if steps != [] {
      NextKeepsInv(s, steps[0]);
      CountersAreKept(s, steps[0]);
      WakeupsAreTheirRequests(Next(s, steps[0]), steps[1..]);
    }
  }

  /** In every run each call takes the lock and gives it back, and tells deep sleep, in exactly
      these steps; only time moves the clock. */
  lemma CountersFollowExactly(boot: Device, s: State, step: Step)
    requires Reachable(boot, s) && Enabled(s, step)
    ensures Kept(s, Next(s, step), step)
  {
    ReachableInv(boot, s);
    CountersAreKept(s, step);
  }

  /** A name becomes registered exactly if it is new and not empty, under the id after the last one
      in 32 bits, and a client is forgotten exactly when it leaves. */
  predicate Registers(s: State, t: State, step: Step) {
    match step
    case AddClientStep(name) =>
      if name == "" || (exists id :: id in s.clients && s.clients[id] == name) then
        t.clients == s.clients && t.nextClient == s.nextClient && t.log.issued == s.log.issued
      else
        var id := (s.nextClient + 1) % U32_RANGE;
        t.clients == s.clients[id := name] && t.nextClient == id && t.log.issued == s.log.issued + [id]
    case _ =>
      && t.clients == (if step.RemoveClientStep? then s.clients - {step.client} else s.clients)
      && t.nextClient == s.nextClient && t.log.issued == s.log.issued
  }

  lemma ClientsFollowExactly(s: State, step: Step)
    requires Enabled(s, step)
    ensures Registers(s, Next(s, step), step)
  {
    if !step.AddClientStep? {
      OthersLeaveIssued(s, step);
    }
  }

  /** The answers to a client: an acknowledgement is accepted exactly from a client that the
      transaction it names awaits, a delay in the same case or before the transaction runs, a
      removal from a registered one. */
  lemma AnswersExactly(s: State, client: nat, txId: int, seconds: int, env: Env)
    ensures var awaited := s.current.Some? && txId == s.current.value.txId && client in s.current.value.pending;
            && Ack(s, client, txId, env).1 == (if awaited then ErrorNone else ErrorInvalidParameter)
            && Delay(s, client, txId, seconds).1 ==
               (if awaited || (s.current.Some? && !IsRunning(s)) then ErrorNone else ErrorInvalidParameter)
            && RemoveClient(s, client, env).1 == (if client in s.clients then ErrorNone else ErrorInvalidParameter)
  {
  }

  /** The deadlines recorded are those set since the transaction was opened. */
  predicate Recorded(s: State, t: State, step: Step)
    requires Enabled(s, step)
  {
    t.log.deadlines ==
    if Begins(s, step) then [s.clock]
    else if step.ScheduleStep? then s.log.deadlines + [if s.inFlight.value.sync then s.clock else s.clock + 1000]
    else if Asked(s, step).Some? then s.log.deadlines + [Asked(s, step).value]
    else s.log.deadlines
  }

  lemma DeadlinesFollow(s: State, step: Step)
    requires Inv(s) && Enabled(s, step)
    ensures Recorded(s, Next(s, step), step)
  {
    match step
    case ScheduleStep(env) => ScheduleRecords(s, env);
    case RequestStep(target, sleeping, env) =>
      if Opens(s, target, sleeping) {
        OpeningRequest(s, target, sleeping, env);
      } else {
        RefusedRequest(s, target, sleeping, env);
      }
    case _ =>
  }

  lemma ScheduleRecords(s: State, env: Env)
    requires Enabled(s, ScheduleStep(env))
    ensures Recorded(s, Schedule(s, env), ScheduleStep(env))
  {
    var handler := s.inFlight.value;
    var offset := if handler.sync then 0 else PRECHANGE_TIMEOUT_MS;
    var (c, firing) := ScheduleController(s.current.value, s.clock, offset, handler);
    ScheduleIsHandOver(s, env);
    CompleteEnds(Handed(s, c, offset), c, firing, env);
  }

  /** The platform's part of a change: refused by the override or by the platform, with these codes
      and no effect, and otherwise made. */
  lemma DeviceAnswersExactly(d: Device, target: PowerState, env: Env)
    ensures SetDevice(d, target, env) ==
            if env.ignoreDeepSleep && target == DeepSleep then (d, ErrorIllegalState)
            else if !env.platformOk then (d, ErrorGeneral)
            else (Changed(d, target, env.access), ErrorNone)
  {
  }

  /** A save for another reason writes the present state, if it can, and changes nothing else. */
  lemma SaveTouchesFileOnly(s: State, access: Access)
    ensures var t := Next(s, SaveStep(access));
            t == s.(device := s.device.(saved := t.device.saved), log := t.log)
    ensures var d := s.device;
            Next(s, SaveStep(access)).device.saved == if access == Writable then (if d.valid then d.stored else On) else d.saved
  {
  }
}
