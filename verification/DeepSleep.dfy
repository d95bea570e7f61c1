/** The deep sleep controller as a machine on values. Its retry loops and delay jobs run on their
    own threads, so that each attempt is a step, and any other step may come in between. */
module DeepSleeps {
  import opened PowerTypes

  datatype Mode = Failed | NotStarted | InProgress | Completed

  /** One attempt to enter deep sleep: whether it was entered, and whether the user ended it. */
  datatype Attempt = Attempt(ok: bool, user: bool)

  /** How an accepted activation ended. */
  datatype Outcome = NotifiedFailure | NotifiedUserWakeup | NotifiedTimerWakeup(timeout: nat) | Revoked

  /** `tried` are the platform's answers, all asked for with the network standby flag `standby`;
      `seen` is the number of activations accepted by then. */
  datatype Resolution = Resolution(outcome: Outcome, tried: seq<Attempt>, delayed: bool, standby: bool, seen: nat)

  const ATTEMPTS: nat := 5

  /** An accepted activation: its wakeup timeout, the network standby flag it asked for, the delay
      it found configured, or 0, and the number of attempts made by any one before it. */
  datatype Activation = Activation(timeout: nat, standby: bool, delay: nat, before: nat)

  /** What runs apart from the callers, by activation: the retry loops, with the attempts they made
      in vain, and the scheduled delay jobs. */
  datatype Pool = Pool(retrying: map<nat, seq<Attempt>>, jobs: set<nat>)

  /** `job` is the delay job that the controller can cancel. The last three fields are history. */
  datatype State = State(
    mode: Mode, delaySec: nat, timeout: nat, standby: bool, job: Option<nat>, pool: Pool,
    accepted: seq<Activation>, attempts: nat, resolved: map<nat, Resolution>)

  const INIT: State := State(NotStarted, 0, 0, false, None, Pool(map[], {}), [], 0, map[])

  function Woken(last: Attempt, timeout: nat): Outcome {
    if last.user then NotifiedUserWakeup else NotifiedTimerWakeup(timeout)
  }

  /** A zero or missing override file leaves the previous value. */
  function Override(conf: Option<nat>, value: nat): nat {
    if conf.Some? && conf.value != 0 then conf.value else value
  }

  function Found(delayConf: Option<nat>): nat {
    if delayConf.Some? then delayConf.value else 0
  }

  function Asked(s: State, timeout: nat, standby: bool, delayConf: Option<nat>, wakeConf: Option<nat>): Activation {
    Activation(Override(wakeConf, timeout), standby, Found(delayConf), s.attempts)
  }

  /** The network standby flag is taken note of in the history only. */
  function Accept(s: State, a: Activation): State {
    s.(mode := InProgress, timeout := a.timeout, delaySec := Override(Some(a.delay), s.delaySec), accepted := s.accepted + [a])
  }

  function Start(s: State, id: nat): State {
    if s.delaySec != 0 then s.(job := Some(id), pool := s.pool.(jobs := s.pool.jobs + {id}))
    else s.(pool := s.pool.(retrying := s.pool.retrying[id := []]))
  }

  function Begin(s: State, a: Activation): State {
    Start(Accept(s, a), |s.accepted|)
  }

  function Activate(s: State, timeout: nat, standby: bool, delayConf: Option<nat>, wakeConf: Option<nat>): State {
    if s.mode == InProgress then s else Begin(s, Asked(s, timeout, standby, delayConf, wakeConf))
  }

  function Resolve(s: State, id: nat, outcome: Outcome, tried: seq<Attempt>, delayed: bool): State {
    var standby := s.standby && !delayed;
    s.(pool := Pool(s.pool.retrying - {id}, s.pool.jobs - {id}),
       resolved := s.resolved[id := Resolution(outcome, tried, delayed, standby, |s.accepted|)])
  }

  /** One round of the retry loop of activation `id`, which has at most five. */
  function Try(s: State, id: nat, answer: Attempt): State {
    if id !in s.pool.retrying then s
    else
      var tried := s.pool.retrying[id] + [answer];
      var t := s.(mode := if answer.ok then Completed else Failed, attempts := s.attempts + 1);
      if answer.ok then Resolve(t, id, Woken(answer, s.timeout), tried, false)
      else if |tried| >= ATTEMPTS then Resolve(t, id, NotifiedFailure, tried, false)
      else t.(pool := s.pool.(retrying := s.pool.retrying[id := tried]))
  }

  /** A delay job: a single attempt, without network standby. Whatever job could be cancelled, now
      none can. */
  function EnterDelayed(s: State, id: nat, answer: Attempt): State {
    if id !in s.pool.jobs then s
    else
      var t := s.(job := None, mode := if answer.ok then Completed else Failed, attempts := s.attempts + 1);
      Resolve(t, id, if answer.ok then Woken(answer, s.timeout) else NotifiedFailure, [answer], true)
  }

  function Deactivate(s: State): State {
    var t := s.(job := None, mode := NotStarted);
    if s.job.Some? then Resolve(t, s.job.value, Revoked, [], true) else t
  }

  datatype Step =
    | ActivateStep(timeout: nat, standby: bool, delayConf: Option<nat>, wakeConf: Option<nat>)
    | TryStep(id: nat, answer: Attempt)
    | DelayStep(id: nat, answer: Attempt)
    | DeactivateStep

  function Next(s: State, step: Step): State {
    match step
    case ActivateStep(timeout, standby, delayConf, wakeConf) => Activate(s, timeout, standby, delayConf, wakeConf)
    case TryStep(id, answer) => Try(s, id, answer)
    case DelayStep(id, answer) => EnterDelayed(s, id, answer)
    case DeactivateStep => Deactivate(s)
  }

  function After(s: State, steps: seq<Step>): State
    decreases |steps|
  {
    if steps == [] then s else After(Next(s, steps[0]), steps[1..])
  }

  lemma {:induction false} AfterConcat(s: State, a: seq<Step>, b: seq<Step>)
    ensures After(s, a + b) == After(After(s, a), b)
    decreases |a|
  {
    if a == [] {
      assert a + b == b;
    } else {
      assert (a + b)[1..] == a[1..] + b;
      AfterConcat(Next(s, a[0]), a[1..], b);
    }
  }

  // ---------------------------------------------------------------- what every run keeps

  /** How a resolution may look. */
  ghost predicate Sound(r: Resolution, id: nat, accepted: seq<Activation>) {
    && id < r.seen <= |accepted|
    && |r.tried| <= (if r.delayed then 1 else ATTEMPTS)
    && (r.outcome == Revoked ==> r.delayed && r.tried == [])
    && (r.outcome == NotifiedFailure ==> |r.tried| == (if r.delayed then 1 else ATTEMPTS))
    && (r.outcome == NotifiedFailure ==> forall a :: a in r.tried ==> !a.ok)
    && (r.outcome.NotifiedUserWakeup? || r.outcome.NotifiedTimerWakeup? ==>
          && r.tried != []
          && (forall i :: 0 <= i < |r.tried| - 1 ==> !r.tried[i].ok)
          && r.tried[|r.tried| - 1].ok
          && r.outcome == Woken(r.tried[|r.tried| - 1], accepted[r.seen - 1].timeout))
    && !r.standby
    && (r.delayed <==> Configured(accepted, id))
  }

  /** A delay was configured when activation `k` was accepted, or before. */
  ghost predicate Configured(accepted: seq<Activation>, k: int) {
    exists i :: 0 <= i <= k && i < |accepted| && accepted[i].delay != 0
  }

  /** `delay` is the one configured last, or 0 if none ever was. */
  ghost predicate LastConfigured(accepted: seq<Activation>, delay: nat) {
    && (delay == 0 ==> forall i :: 0 <= i < |accepted| ==> accepted[i].delay == 0)
    && (delay != 0 ==>
          exists i :: 0 <= i < |accepted| && accepted[i].delay == delay && forall j :: i < j < |accepted| ==> accepted[j].delay == 0)
  }

  /** A retry loop goes on after failed attempts only, and not after the fifth. */
  ghost predicate Trying(tried: seq<Attempt>) {
    |tried| < ATTEMPTS && forall a :: a in tried ==> !a.ok
  }

  ghost predicate PoolOk(pool: Pool, accepted: seq<Activation>) {
    && (forall k :: k in pool.retrying ==> k < |accepted| && Trying(pool.retrying[k]) && !Configured(accepted, k))
    && (forall k :: k in pool.jobs ==> k < |accepted| && Configured(accepted, k))
  }

  /** Each accepted activation is in one place. */
  ghost predicate Placed(pool: Pool, resolved: map<nat, Resolution>, count: nat) {
    && (forall k: nat :: k < count ==> k in pool.retrying || k in pool.jobs || k in resolved)
    && (forall k :: k in resolved ==> k < count && k !in pool.retrying && k !in pool.jobs)
  }

  ghost predicate AllSound(resolved: map<nat, Resolution>, accepted: seq<Activation>) {
    forall k :: k in resolved ==> Sound(resolved[k], k, accepted)
  }

  /** The job that can be cancelled is of the newest activation, and the mode is still its own
      exactly if no attempt was made since. */
  ghost predicate JobOk(s: State) {
    s.job.Some? ==>
      && s.accepted != [] && s.job.value == |s.accepted| - 1 && s.job.value in s.pool.jobs
      && s.accepted[s.job.value].before <= s.attempts
      && (s.mode == InProgress <==> s.attempts == s.accepted[s.job.value].before)
  }

  ghost predicate Inv(s: State) {
    && PoolOk(s.pool, s.accepted)
    && Placed(s.pool, s.resolved, |s.accepted|)
    && AllSound(s.resolved, s.accepted)
    && JobOk(s)
    && LastConfigured(s.accepted, s.delaySec)
    && (s.accepted != [] ==> s.timeout == s.accepted[|s.accepted| - 1].timeout)
    && !s.standby
  }

  lemma ConfiguredAppend(accepted: seq<Activation>, a: Activation, delay: nat)
    requires LastConfigured(accepted, delay)
    ensures forall k :: k < |accepted| ==> (Configured(accepted + [a], k) <==> Configured(accepted, k))
    ensures LastConfigured(accepted + [a], if a.delay != 0 then a.delay else delay)
    ensures Configured(accepted + [a], |accepted|) <==> a.delay != 0 || delay != 0
  {
    var more := accepted + [a];
    assert more[|accepted|] == a;
    assert forall i :: 0 <= i < |accepted| ==> more[i] == accepted[i];
  }

  lemma AcceptKeepsSound(resolved: map<nat, Resolution>, accepted: seq<Activation>, a: Activation, delay: nat)
    requires AllSound(resolved, accepted) && LastConfigured(accepted, delay)
    ensures AllSound(resolved, accepted + [a])
  {
    ConfiguredAppend(accepted, a, delay);
    forall k | k in resolved
      ensures Sound(resolved[k], k, accepted + [a])
    {
      assert Sound(resolved[k], k, accepted);
    }
  }

  lemma BeginKeepsInv(s: State, a: Activation)
    requires Inv(s) && a.before == s.attempts
    ensures Inv(Begin(s, a))
  {
    ConfiguredAppend(s.accepted, a, s.delaySec);
    AcceptKeepsSound(s.resolved, s.accepted, a, s.delaySec);
  }

  /** Everything but what is said of the job that can be cancelled. */
  ghost predicate Others(s: State) {
    Inv(s.(job := None))
  }

  lemma ResolveKeeps(s: State, id: nat, outcome: Outcome, tried: seq<Attempt>, delayed: bool)
    requires Others(s) && (id in s.pool.retrying || id in s.pool.jobs)
    requires Sound(Resolution(outcome, tried, delayed, s.standby && !delayed, |s.accepted|), id, s.accepted)
    ensures Others(Resolve(s, id, outcome, tried, delayed))
  {
  }

  lemma TrialGrows(tried: seq<Attempt>, answer: Attempt)
    requires Trying(tried)
    ensures Trying(tried + [answer]) <==> !answer.ok && |tried| + 1 < ATTEMPTS
  {
    assert answer in tried + [answer];
  }

  lemma LoopEndsSound(before: seq<Attempt>, answer: Attempt, id: nat, accepted: seq<Activation>)
    requires Trying(before) && id < |accepted| && !Configured(accepted, id) && (answer.ok || |before| + 1 >= ATTEMPTS)
    ensures var outcome := if answer.ok then Woken(answer, accepted[|accepted| - 1].timeout) else NotifiedFailure;
            Sound(Resolution(outcome, before + [answer], false, false, |accepted|), id, accepted)
  {
    var tried := before + [answer];
    assert forall i :: 0 <= i < |tried| - 1 ==> tried[i] in before;
  }

  lemma LastRoundKeepsInv(s: State, id: nat, answer: Attempt)
    requires Inv(s) && id in s.pool.retrying && (answer.ok || |s.pool.retrying[id]| + 1 >= ATTEMPTS)
    ensures Inv(Try(s, id, answer))
  {
    var t := s.(mode := if answer.ok then Completed else Failed, attempts := s.attempts + 1);
    LoopEndsSound(s.pool.retrying[id], answer, id, s.accepted);
    ResolveKeeps(t, id, if answer.ok then Woken(answer, s.timeout) else NotifiedFailure, s.pool.retrying[id] + [answer], false);
  }

  lemma RoundKeepsInv(s: State, id: nat, answer: Attempt)
    requires Inv(s) && id in s.pool.retrying && !answer.ok && |s.pool.retrying[id]| + 1 < ATTEMPTS
    ensures Inv(Try(s, id, answer))
  {
    TrialGrows(s.pool.retrying[id], answer);
  }

  lemma TryKeepsInv(s: State, id: nat, answer: Attempt)
    requires Inv(s)
    ensures Inv(Try(s, id, answer))
  {
    if id in s.pool.retrying {
      if answer.ok || |s.pool.retrying[id]| + 1 >= ATTEMPTS {
        LastRoundKeepsInv(s, id, answer);
      } else {
        RoundKeepsInv(s, id, answer);
      }
    }
  }

  lemma DelayKeepsInv(s: State, id: nat, answer: Attempt)
    requires Inv(s)
    ensures Inv(EnterDelayed(s, id, answer))
  {
    if id in s.pool.jobs {
      var t := s.(job := None, mode := if answer.ok then Completed else Failed, attempts := s.attempts + 1);
      ResolveKeeps(t, id, if answer.ok then Woken(answer, s.timeout) else NotifiedFailure, [answer], true);
    }
  }

  lemma DeactivateKeepsInv(s: State)
    requires Inv(s)
    ensures Inv(Deactivate(s))
  {
    if s.job.Some? {
      ResolveKeeps(s.(job := None, mode := NotStarted), s.job.value, Revoked, [], true);
    }
  }

  lemma NextKeepsInv(s: State, step: Step)
    requires Inv(s)
    ensures Inv(Next(s, step))
  {
    match step
    case ActivateStep(timeout, standby, delayConf, wakeConf) =>
      BeginKeepsInv(s, Asked(s, timeout, standby, delayConf, wakeConf));
    case TryStep(id, answer) => TryKeepsInv(s, id, answer);
    case DelayStep(id, answer) => DelayKeepsInv(s, id, answer);
    case DeactivateStep => DeactivateKeepsInv(s);
  }

  lemma {:induction false} RunKeepsInv(s: State, steps: seq<Step>)
    requires Inv(s)
    ensures Inv(After(s, steps))
    decreases |steps|
  {
    if steps != [] {
      NextKeepsInv(s, steps[0]);
      RunKeepsInv(Next(s, steps[0]), steps[1..]);
    }
  }

  // ---------------------------------------------------------------- one outcome each

  /** At most five attempts, one when delayed; failed exactly when all of them failed; none made
      exactly when revoked; else the last one succeeded, and the user's wakeup or the timer's is
      notified as that attempt says, the latter with the timeout of the activation accepted last
      by then. */
  ghost predicate Proper(r: Resolution, accepted: seq<Activation>) {
    && |r.tried| <= (if r.delayed then 1 else ATTEMPTS)
    && (r.outcome == NotifiedFailure <==>
          |r.tried| == (if r.delayed then 1 else ATTEMPTS) && forall a :: a in r.tried ==> !a.ok)
    && (r.outcome == Revoked <==> r.tried == [])
    && (r.outcome == NotifiedUserWakeup <==>
          r.tried != [] && r.tried[|r.tried| - 1].ok && r.tried[|r.tried| - 1].user)
    && (r.outcome.NotifiedTimerWakeup? <==>
          r.tried != [] && r.tried[|r.tried| - 1].ok && !r.tried[|r.tried| - 1].user)
    && 0 < r.seen <= |accepted|
    && (r.outcome.NotifiedTimerWakeup? ==> r.outcome.timeout == accepted[r.seen - 1].timeout)
  }

  lemma SoundIsProper(r: Resolution, id: nat, accepted: seq<Activation>)
    requires Sound(r, id, accepted)
    ensures Proper(r, accepted)
  {
    if r.tried != [] {
      assert r.tried[|r.tried| - 1] in r.tried;
    }
  }

  /** In every run an accepted activation is either under way, in its retry loop or as a delay job,
      or has an outcome, and a proper one; what follows never changes that outcome. */
  lemma EveryActivationIsResolvedOnce(steps: seq<Step>, more: seq<Step>, k: nat)
    requires k < |After(INIT, steps).accepted|
    ensures var s := After(INIT, steps);
            && (k in s.resolved <==> k !in s.pool.retrying && k !in s.pool.jobs)
            && !(k in s.pool.retrying && k in s.pool.jobs)
            && (k in s.resolved ==> Proper(s.resolved[k], s.accepted))
            && (k in s.resolved ==> k in After(INIT, steps + more).resolved && After(INIT, steps + more).resolved[k] == s.resolved[k])
  {
    RunKeepsInv(INIT, steps);
    AfterConcat(INIT, steps, more);
    var s := After(INIT, steps);
    if k in s.resolved {
      SoundIsProper(s.resolved[k], k, s.accepted);
      OutcomeStays(s, more, k);
    }
  }

  lemma NextKeepsOutcome(s: State, step: Step, k: nat)
    requires Inv(s) && k in s.resolved
    ensures k in Next(s, step).resolved && Next(s, step).resolved[k] == s.resolved[k]
  {
  }

  lemma {:induction false} OutcomeStays(s: State, more: seq<Step>, k: nat)
    requires Inv(s) && k in s.resolved
    ensures k in After(s, more).resolved && After(s, more).resolved[k] == s.resolved[k]
    decreases |more|
  {
    if more != [] {
      NextKeepsInv(s, more[0]);
      NextKeepsOutcome(s, more[0], k);
      OutcomeStays(Next(s, more[0]), more[1..], k);
    }
  }

  // ---------------------------------------------------------------- retry loops

  /** The answers that the retry loop of `k` gets during the steps. */
  function AnswersTo(steps: seq<Step>, k: nat): seq<Attempt> {
    if steps == [] then []
    else (if steps[0].TryStep? && steps[0].id == k then [steps[0].answer] else []) + AnswersTo(steps[1..], k)
  }

  lemma OthersLeaveLoop(s: State, step: Step, k: nat)
    requires Inv(s) && k in s.pool.retrying && !(step.TryStep? && step.id == k)
    ensures k in Next(s, step).pool.retrying && Next(s, step).pool.retrying[k] == s.pool.retrying[k]
  {
  }

  /** From any reachable state a retry loop goes on exactly as long as all its attempts failed and
      they are less than five: no deactivation and no other activation ends it. */
  lemma {:induction false} RetriesGoOnExactlyWhen(s: State, steps: seq<Step>, k: nat)
    requires Inv(s) && k in s.pool.retrying
    ensures k in After(s, steps).pool.retrying <==> Trying(s.pool.retrying[k] + AnswersTo(steps, k))
    decreases |steps|
  {
    if steps == [] {
      assert s.pool.retrying[k] + [] == s.pool.retrying[k];
    } else {
      var e, tried := steps[0], s.pool.retrying[k];
      NextKeepsInv(s, e);
      if e.TryStep? && e.id == k {
        var more := AnswersTo(steps[1..], k);
        assert tried + AnswersTo(steps, k) == tried + [e.answer] + more;
        TryContinues(s, k, e.answer);
        if Trying(tried + [e.answer]) {
          RetriesGoOnExactlyWhen(Next(s, e), steps[1..], k);
        } else {
          StaysResolved(Next(s, e), steps[1..], k);
          TrialStaysOver(tried + [e.answer], more);
        }
      } else {
        OthersLeaveLoop(s, e, k);
        RetriesGoOnExactlyWhen(Next(s, e), steps[1..], k);
        assert AnswersTo(steps, k) == AnswersTo(steps[1..], k);
      }
    }
  }

  lemma TrialStaysOver(tried: seq<Attempt>, more: seq<Attempt>)
    requires !Trying(tried)
    ensures !Trying(tried + more)
  {
    assert forall a :: a in tried ==> a in tried + more;
  }

  lemma TryContinues(s: State, k: nat, answer: Attempt)
    requires Inv(s) && k in s.pool.retrying
    ensures var t, tried := Try(s, k, answer), s.pool.retrying[k] + [answer];
            if Trying(tried) then k in t.pool.retrying && t.pool.retrying[k] == tried else k in t.resolved
  {
    TrialGrows(s.pool.retrying[k], answer);
  }

  lemma StaysResolved(s: State, steps: seq<Step>, k: nat)
    requires Inv(s) && k in s.resolved
    ensures k !in After(s, steps).pool.retrying
  {
    RunKeepsInv(s, steps);
    OutcomeStays(s, steps, k);
  }

  // ---------------------------------------------------------------- deactivation

  predicate NoActivation(steps: seq<Step>) {
    forall i :: 0 <= i < |steps| ==> !steps[i].ActivateStep?
  }

  function Cancellable(s: State): set<nat> {
    if s.job.Some? then {s.job.value} else {}
  }

  /** In every run a deactivation has the last word, so that without a new activation the platform
      is not asked to sleep again, exactly if no retry loop is under way and no other delay job
      than the one it cancels is scheduled. */
  lemma DeactivationStopsExactlyWhen(past: seq<Step>)
    ensures var s := After(INIT, past);
            (forall more :: NoActivation(more) ==> After(s, [DeactivateStep] + more).attempts == s.attempts) <==>
            s.pool == Pool(map[], Cancellable(s))
  {
    var s := After(INIT, past);
    RunKeepsInv(INIT, past);
    DeactivationLeaves(s);
    IdleExactlyWhen(Deactivate(s));
    forall more {
      AfterFirst(s, DeactivateStep, more);
    }
  }

  lemma DeactivationLeaves(s: State)
    requires Inv(s)
    ensures var t := Deactivate(s);
            && t.job == None && t.attempts == s.attempts
            && (t.pool == Pool(map[], {}) <==> s.pool == Pool(map[], Cancellable(s)))
  {
    if s.job.Some? {
      assert s.job.value !in s.pool.retrying;
      assert s.pool.retrying - {s.job.value} == s.pool.retrying;
      assert s.pool.jobs == (s.pool.jobs - {s.job.value}) + {s.job.value};
    }
  }

  /** With no job to cancel, the platform is never asked again exactly if nothing is under way. */
  lemma IdleExactlyWhen(s: State)
    requires s.job == None
    ensures (forall more :: NoActivation(more) ==> After(s, more).attempts == s.attempts) <==> s.pool == Pool(map[], {})
  {
    if k :| k in s.pool.retrying {
      MakesAttempt(s, TryStep(k, Attempt(true, false)));
    } else if k :| k in s.pool.jobs {
      MakesAttempt(s, DelayStep(k, Attempt(true, false)));
    } else {
      forall more | NoActivation(more) {
        IdleStaysIdle(s, more);
      }
    }
  }

  lemma AfterFirst(s: State, step: Step, more: seq<Step>)
    ensures After(s, [step] + more) == After(Next(s, step), more)
  {
    assert ([step] + more)[1..] == more;
  }

  lemma MakesAttempt(t: State, step: Step)
    requires (step.TryStep? && step.id in t.pool.retrying) || (step.DelayStep? && step.id in t.pool.jobs)
    ensures NoActivation([step]) && After(t, [step]).attempts == t.attempts + 1
  {
    assert [step][1..] == [];
    assert After(t, [step]) == After(Next(t, step), []);
  }

  lemma {:induction false} IdleStaysIdle(s: State, steps: seq<Step>)
    requires NoActivation(steps) && s.pool == Pool(map[], {}) && s.job == None
    ensures After(s, steps).attempts == s.attempts
    decreases |steps|
  {
    if steps != [] {
      IdleStaysIdle(Next(s, steps[0]), steps[1..]);
    }
  }

  // ---------------------------------------------------------------- the delay job

  /** In every run with a delay job to cancel, another activation replaces it, while it stays
      scheduled, exactly if an attempt was made since it was armed; otherwise the activation
      changes nothing. */
  lemma DelayJobIsReplacedExactlyWhen(steps: seq<Step>, timeout: nat, standby: bool, delayConf: Option<nat>, wakeConf: Option<nat>)
    requires After(INIT, steps).job.Some?
    ensures var s := After(INIT, steps);
            var t := Activate(s, timeout, standby, delayConf, wakeConf);
            && s.job.value < |s.accepted|
            && (if s.attempts > s.accepted[s.job.value].before
                then t.job == Some(|s.accepted|) && t.pool.jobs == s.pool.jobs + {|s.accepted|} && s.job.value in s.pool.jobs
                else t == s)
  {
    RunKeepsInv(INIT, steps);
  }

  /** A run to such a state: a retry goes on after a deactivation, and fails once a delay job is
      armed. The next activation leaves two delay jobs, of which one can be cancelled. */
  lemma TwoDelayJobs()
    ensures var s := After(INIT, [ActivateStep(10, false, None, None), DeactivateStep]
                                 + [ActivateStep(20, false, Some(60), None), TryStep(0, Attempt(false, false))]
                                 + [ActivateStep(30, false, None, None)]);
            s.pool.jobs == {1, 2} && s.job == Some(2)
  {
    var a, b, c := ActivateStep(10, false, None, None), ActivateStep(20, false, Some(60), None), ActivateStep(30, false, None, None);
    AfterTwo(INIT, a, DeactivateStep);
    AfterTwo(After(INIT, [a, DeactivateStep]), b, TryStep(0, Attempt(false, false)));
    AfterConcat(INIT, [a, DeactivateStep], [b, TryStep(0, Attempt(false, false))]);
    AfterConcat(INIT, [a, DeactivateStep] + [b, TryStep(0, Attempt(false, false))], [c]);
  }

  lemma AfterTwo(s: State, a: Step, b: Step)
    ensures After(s, [a, b]) == Next(Next(s, a), b)
  {
    assert [a, b][1..] == [b] && [b][1..] == [];
    assert After(Next(s, a), [b]) == After(Next(Next(s, a), b), []);
  }

  /** Once a delay was ever configured and no retry loop is left, a delay job is never replaced:
      while there is one to cancel, activations change nothing, if that was so at the start. */
  lemma DelayJobIsSafeAfterRetries(past: seq<Step>, steps: seq<Step>, timeout: nat, standby: bool, delayConf: Option<nat>,
                                   wakeConf: Option<nat>)
    requires var s := After(INIT, past); s.delaySec != 0 && s.pool.retrying == map[] && (s.job == None || s.mode == InProgress)
    requires After(INIT, past + steps).job.Some?
    ensures var t := After(INIT, past + steps); Activate(t, timeout, standby, delayConf, wakeConf) == t
  {
    AfterConcat(INIT, past, steps);
    OnlyJobsRemain(After(INIT, past), steps);
  }

  lemma {:induction false} OnlyJobsRemain(s: State, steps: seq<Step>)
    requires s.delaySec != 0 && s.pool.retrying == map[] && (s.job.Some? ==> s.mode == InProgress)
    ensures var t := After(s, steps); t.job.Some? ==> t.mode == InProgress
    decreases |steps|
  {
    if steps != [] {
      OnlyJobsRemain(Next(s, steps[0]), steps[1..]);
    }
  }

  // ---------------------------------------------------------------- what each step does

  /** An activation is accepted exactly unless deep sleep is in progress. It is then, with the
      timeout asked for unless a file names another, and waits for its delay or starts to try. */
  lemma ActivationIsAcceptedExactlyWhen(s: State, timeout: nat, standby: bool, delayConf: Option<nat>, wakeConf: Option<nat>)
    ensures var t := Next(s, ActivateStep(timeout, standby, delayConf, wakeConf));
            var named := if wakeConf.Some? && wakeConf.value > 0 then wakeConf.value else timeout;
            var delay := if delayConf.Some? then delayConf.value else 0;
            if s.mode == InProgress then t == s
            else
              && t.mode == InProgress && t.timeout == named
              && t.accepted == s.accepted + [Activation(named, standby, delay, s.attempts)]
              && t.delaySec == (if delay > 0 then delay else s.delaySec)
              && t.pool.jobs == s.pool.jobs + (if t.delaySec > 0 then {|s.accepted|} else {})
              && t.pool.retrying == (if t.delaySec > 0 then s.pool.retrying else s.pool.retrying[|s.accepted| := []])
              && t.job == (if t.delaySec > 0 then Some(|s.accepted|) else s.job)
              && t.resolved == s.resolved && t.attempts == s.attempts
  {
  }

  /** The only outcome that is new is that of activation `id`. */
  ghost predicate OnlyResolves(s: State, t: State, id: nat) {
    t.resolved.Keys == s.resolved.Keys + {id} && forall k :: k in s.resolved && k != id ==> t.resolved[k] == s.resolved[k]
  }

  /** An attempt of a retry loop that goes on completes deep sleep exactly if it succeeds, and ends
      the loop exactly then or at the fifth; the delay job stays. */
  lemma AttemptEndsLoopExactlyWhen(s: State, id: nat, answer: Attempt)
    ensures var t := Next(s, TryStep(id, answer));
            if id !in s.pool.retrying then t == s
            else
              var tried := s.pool.retrying[id] + [answer];
              && t.mode == (if answer.ok then Completed else Failed)
              && t.attempts == s.attempts + 1 && t.job == s.job && t.accepted == s.accepted
              && t.timeout == s.timeout && t.delaySec == s.delaySec
              && (if answer.ok || |tried| >= 5
                  then t.pool.retrying == s.pool.retrying - {id} && OnlyResolves(s, t, id) && t.resolved[id].tried == tried
                       && !t.resolved[id].delayed
                  else t.pool.retrying == s.pool.retrying[id := tried] && t.resolved == s.resolved)
              && (id !in s.pool.jobs ==> t.pool.jobs == s.pool.jobs)
  {
  }

  /** A scheduled delay job makes its one attempt, whatever is to be cancelled now. */
  lemma DelayJobTriesOnce(s: State, id: nat, answer: Attempt)
    ensures var t := Next(s, DelayStep(id, answer));
            if id !in s.pool.jobs then t == s
            else
              && t.mode == (if answer.ok then Completed else Failed)
              && t.attempts == s.attempts + 1 && t.job == None && t.accepted == s.accepted
              && t.timeout == s.timeout && t.delaySec == s.delaySec
              && t.pool.jobs == s.pool.jobs - {id} && (id !in s.pool.retrying ==> t.pool.retrying == s.pool.retrying)
              && OnlyResolves(s, t, id) && t.resolved[id].tried == [answer] && t.resolved[id].delayed
  {
  }

  /** A deactivation starts over; it cancels the delay job it knows of, and nothing else. */
  lemma DeactivationCancelsItsJob(s: State)
    requires Inv(s)
    ensures var t := Next(s, DeactivateStep);
            && t.mode == NotStarted && t.job == None && t.accepted == s.accepted
            && t.attempts == s.attempts && t.timeout == s.timeout && t.delaySec == s.delaySec
            && t.pool == Pool(s.pool.retrying, s.pool.jobs - Cancellable(s))
            && (s.job.Some? ==> OnlyResolves(s, t, s.job.value) && t.resolved[s.job.value].outcome == Revoked)
            && (s.job == None ==> t.resolved == s.resolved)
  {
    if s.job.Some? {
      assert s.job.value !in s.pool.retrying;
      assert s.pool.retrying - {s.job.value} == s.pool.retrying;
    }
  }

  // ---------------------------------------------------------------- standby and delay

  /** In every run the platform is asked for network standby as the activation asked exactly if
      the activation asked for it to be off. */
  lemma StandbyIsHonouredExactlyWhenOff(steps: seq<Step>, k: nat)
    requires k in After(INIT, steps).resolved
    ensures var s := After(INIT, steps);
            && k < |s.accepted|
            && (s.resolved[k].standby == s.accepted[k].standby <==> !s.accepted[k].standby)
  {
    RunKeepsInv(INIT, steps);
    var s := After(INIT, steps);
    assert Sound(s.resolved[k], k, s.accepted);
  }

  /** In every run an activation is delayed exactly if it or an earlier one found a delay
      configured, whether or not the file is still there; the delay in force is the one found
      last. */
  lemma DelayedExactlyWhenEverConfigured(steps: seq<Step>, k: nat)
    requires k < |After(INIT, steps).accepted|
    ensures var s := After(INIT, steps);
            && ((k in s.pool.jobs || (k in s.resolved && s.resolved[k].delayed)) <==> Configured(s.accepted, k))
            && LastConfigured(s.accepted, s.delaySec)
  {
    RunKeepsInv(INIT, steps);
    var s := After(INIT, steps);
    if k in s.resolved {
      assert Sound(s.resolved[k], k, s.accepted);
    }
  }
}
