/** The deep sleep controller with its retry loop and delay job. */
module DeepSleepControllers {
  import opened PowerTypes
  import opened DeepSleeps

  /** The number of attempts that a retry loop makes. */
  function Made(answers: seq<Attempt>): (n: nat)
    ensures n <= |answers| && (answers != [] ==> n > 0)
    ensures forall i :: 0 <= i < n - 1 ==> !answers[i].ok
    ensures 0 < n < |answers| ==> answers[n - 1].ok
  {
    if answers == [] then 0 else if answers[0].ok then 1 else 1 + Made(answers[1..])
  }

  lemma MadeAt(answers: seq<Attempt>, n: nat)
    requires 0 < n <= |answers| && (forall i :: 0 <= i < n - 1 ==> !answers[i].ok) && (n < |answers| ==> answers[n - 1].ok)
    ensures Made(answers) == n
  {
  }

  /** The steps from the start of a retry loop to its `n`-th attempt; `others` are those that
      come in while it sleeps before each attempt. */
  function Turns(id: nat, answers: seq<Attempt>, others: seq<seq<Step>>, n: nat): seq<Step>
    requires n <= |answers| == |others|
  {
    if n == 0 then [] else Turns(id, answers, others, n - 1) + others[n - 1] + [TryStep(id, answers[n - 1])]
  }

  /** No step of another thread is a round of the loop of activation `id`. */
  predicate OfOthers(steps: seq<Step>, id: nat) {
    forall i :: 0 <= i < |steps| ==> !(steps[i].TryStep? && steps[i].id == id)
  }

  lemma {:induction false} OthersLeaveLoops(s: State, steps: seq<Step>, id: nat)
    requires Inv(s) && id in s.pool.retrying && OfOthers(steps, id)
    ensures var t := After(s, steps);
            Inv(t) && id in t.pool.retrying && t.pool.retrying[id] == s.pool.retrying[id]
    decreases |steps|
  {
    if steps != [] {
      OthersLeaveLoop(s, steps[0], id);
      NextKeepsInv(s, steps[0]);
      OthersLeaveLoops(Next(s, steps[0]), steps[1..], id);
    }
  }

  lemma AfterAppend(past: seq<Step>, step: Step)
    ensures After(INIT, past + [step]) == Next(After(INIT, past), step)
  {
    AfterConcat(INIT, past, [step]);
    assert [step][1..] == [];
    assert After(After(INIT, past), [step]) == After(Next(After(INIT, past), step), []);
  }

  class DeepSleepController {
    var mode: Mode
    var delaySec: nat
    var wakeupTimeoutSec: nat
    var nwStandbyMode: bool
    var delayJob: Option<nat>
    /** What the worker pool runs. */
    var pool: Pool
    var accepted: seq<Activation>
    var attempts: nat
    var resolved: map<nat, Resolution>
    ghost var past: seq<Step>

    ghost function Value(): State
      reads this
    {
      State(mode, delaySec, wakeupTimeoutSec, nwStandbyMode, delayJob, pool, accepted, attempts, resolved)
    }

    /** The object is where the run of its past steps leads. */
    ghost predicate Valid()
      reads this
    {
      Value() == After(INIT, past)
    }

    constructor ()
      ensures Valid() && past == []
    {
      mode, delaySec, wakeupTimeoutSec := NotStarted, 0, 0;
      nwStandbyMode, delayJob := false, None;
      pool, accepted, attempts, resolved, past := Pool(map[], {}), [], 0, map[], [];
    }

    /** The job that an accepted `Activate` call queues, to its end: `others` are the steps of other
        threads during its sleeps. An activation that enters deep sleep at once has an outcome
        then, whatever these were. */
    method PerformActivate(timeOut: nat, requestedStandby: bool, delayConf: Option<nat>, wakeConf: Option<nat>,
                           answers: seq<Attempt>, others: seq<seq<Step>>)
      requires Valid() && |answers| == |others| == ATTEMPTS
      requires forall i :: 0 <= i < ATTEMPTS ==> OfOthers(others[i], |accepted|)
      modifies this
      ensures Valid()
      ensures var first := ActivateStep(timeOut, requestedStandby, delayConf, wakeConf);
              if old(mode) != InProgress && old(delaySec) == 0 == Found(delayConf) then
                && past == old(past) + [first] + Turns(old(|accepted|), answers, others, Made(answers))
                && old(|accepted|) in resolved && resolved[old(|accepted|)].tried == answers[..Made(answers)]
              else past == old(past) + [first]
    {
      var latched := Latch(timeOut, requestedStandby, delayConf, wakeConf);
      if latched && delaySec == 0 {
        EnterDeepSleepNow(|accepted| - 1, answers, others);
      }
    }

    /** Its first part, up to the first sleep. The network standby argument is unused. */
    method Latch(timeOut: nat, requestedStandby: bool, delayConf: Option<nat>, wakeConf: Option<nat>) returns (latched: bool)
      requires Valid()
      modifies this
      ensures Valid() && past == old(past) + [ActivateStep(timeOut, requestedStandby, delayConf, wakeConf)]
      ensures Value() == Activate(old(Value()), timeOut, requestedStandby, delayConf, wakeConf)
      ensures latched <==> old(mode) != InProgress
    {
      AfterAppend(past, ActivateStep(timeOut, requestedStandby, delayConf, wakeConf));
      latched := mode != InProgress;
      if latched {
        Accept(timeOut, requestedStandby, delayConf, wakeConf);
        Start(|accepted| - 1);
      }
      past := past + [ActivateStep(timeOut, requestedStandby, delayConf, wakeConf)];
    }

    /** Zero or missing override files leave the values given. */
    method Accept(timeOut: nat, requestedStandby: bool, delayConf: Option<nat>, wakeConf: Option<nat>)
      modifies this
      ensures unchanged(this`past)
      ensures Value() == DeepSleeps.Accept(old(Value()), Asked(old(Value()), timeOut, requestedStandby, delayConf, wakeConf))
    {
      mode := InProgress;
      wakeupTimeoutSec := timeOut;
      if delayConf.Some? && delayConf.value != 0 {
        delaySec := delayConf.value;
      }
      if wakeConf.Some? && wakeConf.value != 0 {
        wakeupTimeoutSec := wakeConf.value;
      }
      accepted := accepted + [Activation(wakeupTimeoutSec, requestedStandby, Found(delayConf), attempts)];
    }

    /** The delay job is scheduled, or the retry loop begins. */
    method Start(id: nat)
      modifies this
      ensures unchanged(this`past)
      ensures Value() == DeepSleeps.Start(old(Value()), id)
    {
      if delaySec != 0 {
        delayJob := Some(id);
        pool := pool.(jobs := pool.jobs + {id});
      } else {
        pool := pool.(retrying := pool.retrying[id := []]);
      }
    }

    /** At most five attempts; the first success ends the loop. */
    method EnterDeepSleepNow(id: nat, answers: seq<Attempt>, others: seq<seq<Step>>)
      requires Valid() && id in pool.retrying && pool.retrying[id] == [] && |answers| == |others| == ATTEMPTS
      requires forall i :: 0 <= i < ATTEMPTS ==> OfOthers(others[i], id)
      modifies this
      ensures Valid() && past == old(past) + Turns(id, answers, others, Made(answers))
      ensures id in resolved && resolved[id].tried == answers[..Made(answers)]
    {
      Sleep(others[0], id);
      var failed := true;
      var retryCount := ATTEMPTS;
      ghost var made := 0;
      while retryCount > 0 && failed
        invariant 0 <= retryCount <= ATTEMPTS && Valid()
        invariant made == ATTEMPTS - retryCount + if failed then 0 else 1
        invariant made <= ATTEMPTS && forall i :: 0 <= i < made - 1 ==> !answers[i].ok
        invariant made > 0 ==> failed == !answers[made - 1].ok
        invariant if retryCount > 0 && failed then
                    && id in pool.retrying && pool.retrying[id] == answers[..made]
                    && past == old(past) + Turns(id, answers, others, made) + others[made]
                  else
                    && id in resolved && resolved[id].tried == answers[..made]
                    && past == old(past) + Turns(id, answers, others, made)
        decreases retryCount, failed
      {
        failed := Round(id, answers[ATTEMPTS - retryCount]);
        made := made + 1;
        assert answers[..made] == answers[..made - 1] + [answers[made - 1]];
        assert past == old(past) + Turns(id, answers, others, made);
        if failed {
          retryCount := retryCount - 1;
          if retryCount > 0 {
            Sleep(others[ATTEMPTS - retryCount], id);
          }
        }
      }
      MadeAt(answers, made);
    }

    /** One attempt, and the notification after the last one. */
    method Round(id: nat, answer: Attempt) returns (failed: bool)
      requires Valid()
      modifies this
      ensures Valid() && past == old(past) + [TryStep(id, answer)]
      ensures Value() == Try(old(Value()), id, answer)
      ensures failed == !answer.ok
    {
      AfterAppend(past, TryStep(id, answer));
      failed := !answer.ok;
      if id in pool.retrying {
        var tried := pool.retrying[id] + [answer];
        attempts := attempts + 1;
        if failed {
          mode := DeepSleeps.Failed;
          if |tried| >= ATTEMPTS {
            Conclude(id, NotifiedFailure, tried, false);
          } else {
            pool := pool.(retrying := pool.retrying[id := tried]);
          }
        } else {
          mode := Completed;
          Conclude(id, Notify(answer.user), tried, false);
        }
      }
      past := past + [TryStep(id, answer)];
    }

    /** The activation has its outcome. */
    method Conclude(id: nat, outcome: Outcome, tried: seq<Attempt>, delayed: bool)
      modifies this
      ensures unchanged(this`past)
      ensures Value() == Resolve(old(Value()), id, outcome, tried, delayed)
    {
      pool := Pool(pool.retrying - {id}, pool.jobs - {id});
      resolved := resolved[id := Resolution(outcome, tried, delayed, nwStandbyMode && !delayed, |accepted|)];
    }

    /** A wakeup that was not the user's is reported as the timer's, whatever its reason. */
    function Notify(userWakeup: bool): Outcome
      reads this
    {
      if userWakeup then NotifiedUserWakeup else NotifiedTimerWakeup(wakeupTimeoutSec)
    }

    /** While the retry loop of `id` sleeps, other threads make their steps. */
    method Sleep(others: seq<Step>, ghost id: nat)
      requires Valid() && id in pool.retrying && OfOthers(others, id)
      modifies this
      ensures Valid() && past == old(past) + others
      ensures id in pool.retrying && pool.retrying[id] == old(pool.retrying[id])
    {
      RunKeepsInv(INIT, past);
      OthersLeaveLoops(Value(), others, id);
      AfterConcat(INIT, past, others);
      for i := 0 to |others|
        invariant Valid() && past == old(past) + others[..i]
      {
        Perform(others[i]);
        assert others[..i + 1] == others[..i] + [others[i]];
      }
      assert others[..|others|] == others;
    }

    method Perform(step: Step)
      requires Valid()
      modifies this
      ensures Valid() && past == old(past) + [step]
    {
      match step
      case ActivateStep(timeOut, standby, delayConf, wakeConf) =>
        var _ := Latch(timeOut, standby, delayConf, wakeConf);
      case TryStep(id, answer) =>
        var _ := Round(id, answer);
      case DelayStep(id, answer) =>
        EnterDeepSleepDelayed(id, answer);
      case DeactivateStep =>
        Deactivate();
    }

    /** A delay job, if it is still scheduled. */
    method EnterDeepSleepDelayed(id: nat, answer: Attempt)
      requires Valid()
      modifies this
      ensures Valid() && past == old(past) + [DelayStep(id, answer)]
      ensures Value() == EnterDelayed(old(Value()), id, answer)
    {
      AfterAppend(past, DelayStep(id, answer));
      if id in pool.jobs {
        delayJob := None;
        attempts := attempts + 1;
        mode := if answer.ok then Completed else DeepSleeps.Failed;
        Conclude(id, if answer.ok then Notify(answer.user) else NotifiedFailure, [answer], true);
      }
      past := past + [DelayStep(id, answer)];
    }

    method Deactivate()
      requires Valid()
      modifies this
      ensures Valid() && past == old(past) + [DeactivateStep]
      ensures Value() == DeepSleeps.Deactivate(old(Value()))
    {
      AfterAppend(past, DeactivateStep);
      if delayJob.Some? {
        Conclude(delayJob.value, Revoked, [], true);
        delayJob := None;
      }
      mode := NotStarted;
      past := past + [DeactivateStep];
    }
  }
}
