/**
 * The circuit breaker of the input classifier, with concurrent calls. A call is
 * admitted or refused at once and settles later; the clock never goes back and
 * an admitted call settles within its deadline.
 */
module ClassifierCircuit {
  import opened Prelude

  const CIRCUIT_FAILURE_THRESHOLD := 5
  const CIRCUIT_OPEN_MS := 30_000

  /** `openUntil` is zero while the circuit is closed. */
  datatype Breaker = Breaker(consecutiveFailures: nat, openUntil: nat, halfOpenInFlight: bool)

  /**
   * How a call ends. `NotCounted` is an overload, a disabled execution or an
   * abort by the caller; `ProviderFails` a timeout, a rate limit or an error.
   */
  datatype Ending = Succeeds | ParseFails | ProviderFails | NotCounted

  function AdmitStep(b: Breaker, now: nat): (Breaker, bool) {
    if b.openUntil == 0 then (b, true)
    else if now < b.openUntil || b.halfOpenInFlight then (b, false)
    else (b.(halfOpenInFlight := true), true)
  }

  function FinishStep(b: Breaker, ending: Ending, now: nat): Breaker {
    match ending
    case Succeeds => Breaker(0, 0, false)
    case NotCounted => b.(halfOpenInFlight := false)
    case ParseFails => if b.halfOpenInFlight then Breaker(0, 0, false) else b
    case ProviderFails =>
      if b.halfOpenInFlight then b.(halfOpenInFlight := false, openUntil := now + CIRCUIT_OPEN_MS)
      else if b.consecutiveFailures + 1 >= CIRCUIT_FAILURE_THRESHOLD then
        b.(consecutiveFailures := 0, openUntil := now + CIRCUIT_OPEN_MS)
      else b.(consecutiveFailures := b.consecutiveFailures + 1)
  }

  /** The classifier's fields, changed in place. */
  class LlmContentClassifier {
    var consecutiveFailures: nat
    var openUntil: nat
    var halfOpenInFlight: bool

    constructor ()
      ensures View() == Breaker(0, 0, false)
    {
      consecutiveFailures, openUntil, halfOpenInFlight := 0, 0, false;
    }

    function View(): Breaker
      reads this
    {
      Breaker(consecutiveFailures, openUntil, halfOpenInFlight)
    }

    method Admit(now: nat) returns (admitted: bool)
      modifies this
      ensures (View(), admitted) == AdmitStep(old(View()), now)
    {
      if openUntil == 0 {
        return true;
      }
      if now < openUntil || halfOpenInFlight {
        return false;
      }
      halfOpenInFlight := true;
      return true;
    }

    method SettleFailure(parseFailed: bool, now: nat)
      modifies this
      ensures View() == FinishStep(old(View()), if parseFailed then ParseFails else ProviderFails, now)
    {
      if parseFailed {
        if halfOpenInFlight {
          halfOpenInFlight := false;
          openUntil := 0;
          consecutiveFailures := 0;
        }
        return;
      }
      if halfOpenInFlight {
        halfOpenInFlight := false;
        openUntil := now + CIRCUIT_OPEN_MS;
        return;
      }
      consecutiveFailures := consecutiveFailures + 1;
      if consecutiveFailures >= CIRCUIT_FAILURE_THRESHOLD {
        openUntil := now + CIRCUIT_OPEN_MS;
        consecutiveFailures := 0;
      }
    }

    /** What `classify` does once the provider call is over. */
    method Finish(ending: Ending, now: nat)
      modifies this
      ensures View() == FinishStep(old(View()), ending, now)
    {
      match ending {
        case NotCounted => halfOpenInFlight := false;
        case ProviderFails => SettleFailure(false, now);
        case ParseFails => SettleFailure(true, now);
        case Succeeds =>
          consecutiveFailures := 0;
          openUntil := 0;
          halfOpenInFlight := false;
      }
    }
  }

  // ----- the timed machine -------------------------------------------------------------

  /**
   * `inFlight` holds the admitted calls and when each was started; `admitted`
   * counts every call admitted so far.
   */
  datatype State = State(breaker: Breaker, now: nat, inFlight: map<nat, nat>, admitted: nat)

  datatype Step = Tick(now: nat) | Call(id: nat) | Finish(id: nat, ending: Ending)

  /** Time does not pass a call's deadline while the call is in flight. */
  predicate Enabled(timeoutMs: nat, s: State, step: Step) {
    match step
    case Tick(now) => s.now <= now && forall id :: id in s.inFlight ==> now <= s.inFlight[id] + timeoutMs
    case Call(id) => id !in s.inFlight
    case Finish(id, _) => id in s.inFlight
  }

  function Apply(s: State, step: Step): State {
    match step
    case Tick(now) => s.(now := now)
    case Call(id) =>
      var (breaker, admitted) := AdmitStep(s.breaker, s.now);
      if admitted then s.(breaker := breaker, inFlight := s.inFlight[id := s.now], admitted := s.admitted + 1)
      else s.(breaker := breaker)
    case Finish(id, ending) =>
      s.(breaker := FinishStep(s.breaker, ending, s.now), inFlight := s.inFlight - {id})
  }

  function Start(now: nat): State {
    State(Breaker(0, 0, false), now, map[], 0)
  }

  function Exec(s: State, run: seq<Step>): State {
    if run == [] then s else Apply(Exec(s, run[..|run| - 1]), run[|run| - 1])
  }

  ghost predicate Runs(timeoutMs: nat, s: State, run: seq<Step>) {
    run != [] ==>
      Runs(timeoutMs, s, run[..|run| - 1]) && Enabled(timeoutMs, Exec(s, run[..|run| - 1]), run[|run| - 1])
  }

  lemma {:induction false} RunOn(timeoutMs: nat, s: State, run: seq<Step>, step: Step)
    requires Runs(timeoutMs, s, run) && Enabled(timeoutMs, Exec(s, run), step)
    ensures Runs(timeoutMs, s, run + [step]) && Exec(s, run + [step]) == Apply(Exec(s, run), step)
  {
    assert (run + [step])[..|run|] == run;
  }

  // ----- safety --------------------------------------------------------------------------

  /** While the half-open flag is up, exactly one call is in flight. */
  predicate ProbeIsAlone(s: State) {
    s.breaker.halfOpenInFlight ==> |s.inFlight| == 1
  }

  ghost predicate Inv(timeoutMs: nat, s: State) {
    && s.breaker.consecutiveFailures < CIRCUIT_FAILURE_THRESHOLD
    && (s.breaker.halfOpenInFlight ==> 0 < s.breaker.openUntil <= s.now)
    && ProbeIsAlone(s)
    && (s.breaker.openUntil != 0 && !s.breaker.halfOpenInFlight ==>
          forall id :: id in s.inFlight ==> s.inFlight[id] + CIRCUIT_OPEN_MS <= s.breaker.openUntil)
    && (forall id :: id in s.inFlight ==> s.inFlight[id] <= s.now <= s.inFlight[id] + timeoutMs)
  }

  lemma {:induction false} StepKeepsInv(timeoutMs: nat, s: State, step: Step)
    requires timeoutMs < CIRCUIT_OPEN_MS
    requires Inv(timeoutMs, s) && Enabled(timeoutMs, s, step)
    ensures Inv(timeoutMs, Apply(s, step))
  {
    var s' := Apply(s, step);
    match step
    case Tick(_) =>
    case Call(id) =>
      if s'.breaker.halfOpenInFlight && !s.breaker.halfOpenInFlight {
        assert s.inFlight == map[];
        assert s'.inFlight == map[id := s.now];
      }
    case Finish(id, ending) =>
      if s.breaker.halfOpenInFlight {
        OnlyCall(s.inFlight, id);
      }
  }

  lemma {:induction false} OnlyCall(inFlight: map<nat, nat>, id: nat)
    requires id in inFlight && |inFlight| == 1
    ensures inFlight - {id} == map[]
  {
    assert |inFlight.Keys| == 1;
    CardSubset({id}, inFlight.Keys);
  }

  lemma {:induction false} RunKeepsInv(timeoutMs: nat, start: nat, run: seq<Step>)
    requires timeoutMs < CIRCUIT_OPEN_MS && Runs(timeoutMs, Start(start), run)
    ensures Inv(timeoutMs, Exec(Start(start), run))
  {
    hide Inv;
    if run == [] {
      StartIsGood(timeoutMs, start);
    } else {
      RunKeepsInv(timeoutMs, start, run[..|run| - 1]);
      StepKeepsInv(timeoutMs, Exec(Start(start), run[..|run| - 1]), run[|run| - 1]);
    }
  }

  lemma {:induction false} StartIsGood(timeoutMs: nat, start: nat)
    ensures Inv(timeoutMs, Start(start))
  {
  }

  /** The count of failures never reaches the threshold, whatever the deadline. */
  lemma {:induction false} FailuresStayBelowThreshold(timeoutMs: nat, start: nat, run: seq<Step>)
    requires Runs(timeoutMs, Start(start), run)
    ensures Exec(Start(start), run).breaker.consecutiveFailures < CIRCUIT_FAILURE_THRESHOLD
  {
    if run != [] {
      FailuresStayBelowThreshold(timeoutMs, start, run[..|run| - 1]);
    }
  }

  // ----- when it opens ----------------------------------------------------------------------

  datatype End = End(ending: Ending, at: nat)

  /** The breaker after calls have ended, one after the other. */
  function Ended(ends: seq<End>): Breaker {
    if ends == [] then Breaker(0, 0, false)
    else FinishStep(Ended(ends[..|ends| - 1]), ends[|ends| - 1].ending, ends[|ends| - 1].at)
  }

  /** Provider failures since the last success. */
  function Streak(ends: seq<End>): nat {
    if ends == [] || ends[|ends| - 1].ending.Succeeds? then 0
    else Streak(ends[..|ends| - 1]) + (if ends[|ends| - 1].ending.ProviderFails? then 1 else 0)
  }

  /**
   * From closed, the circuit stays closed while fewer than five provider failures
   * came without a success in between, and opens with the fifth.
   */
  lemma {:induction false} OpensAtTheFifthConsecutiveFailure(ends: seq<End>)
    requires forall k :: 0 <= k < |ends| ==> Streak(ends[..k]) < 5
    ensures Streak(ends) <= 5
    ensures Streak(ends) < 5 ==> Ended(ends) == Breaker(Streak(ends), 0, false)
    ensures Streak(ends) == 5 ==>
      ends != [] && Ended(ends) == Breaker(0, ends[|ends| - 1].at + 30_000, false)
  {
    if ends != [] {
      var front := ends[..|ends| - 1];
      assert forall k :: 0 <= k < |front| ==> front[..k] == ends[..k];
      OpensAtTheFifthConsecutiveFailure(front);
    }
  }

  // ----- the deadline must be shorter than the cooldown -----------------------------------

  /** One call stays in flight while `n` others, one after the other, fail. */
  lemma {:induction false} Failing(timeoutMs: nat, n: nat) returns (run: seq<Step>)
    requires n <= CIRCUIT_FAILURE_THRESHOLD
    ensures Runs(timeoutMs, Start(0), run)
    ensures Exec(Start(0), run)
      == State(if n < CIRCUIT_FAILURE_THRESHOLD then Breaker(n, 0, false) else Breaker(0, CIRCUIT_OPEN_MS, false),
               0, map[0 := 0], n + 1)
  {
    if n == 0 {
      RunOn(timeoutMs, Start(0), [], Call(0));
      run := [] + [Call(0)];
    } else {
      run := Failing(timeoutMs, n - 1);
      RunOn(timeoutMs, Start(0), run, Call(1));
      run := run + [Call(1)];
      assert Exec(Start(0), run).inFlight == map[0 := 0, 1 := 0];
      RunOn(timeoutMs, Start(0), run, Finish(1, ProviderFails));
      assert map[0 := 0, 1 := 0] - {1} == map[0 := 0];
      run := run + [Finish(1, ProviderFails)];
    }
  }

  /**
   * With a deadline of the cooldown or longer, a call from before the opening is
   * still in flight when the probe is let through, and its end ends the probe's
   * exclusion: a second probe is let through beside the first.
   */
  lemma {:induction false} LongDeadlineLetsTwoIn(timeoutMs: nat) returns (run: seq<Step>)
    requires timeoutMs >= CIRCUIT_OPEN_MS
    ensures Runs(timeoutMs, Start(0), run)
    ensures Exec(Start(0), run).breaker.halfOpenInFlight
    ensures Exec(Start(0), run).inFlight == map[1 := CIRCUIT_OPEN_MS, 2 := CIRCUIT_OPEN_MS]
  {
    run := Failing(timeoutMs, CIRCUIT_FAILURE_THRESHOLD);
    RunOn(timeoutMs, Start(0), run, Tick(CIRCUIT_OPEN_MS));
    run := run + [Tick(CIRCUIT_OPEN_MS)];
    RunOn(timeoutMs, Start(0), run, Call(1));
    run := run + [Call(1)];
    assert Exec(Start(0), run).inFlight == map[0 := 0, 1 := CIRCUIT_OPEN_MS];
    RunOn(timeoutMs, Start(0), run, Finish(0, NotCounted));
    assert map[0 := 0, 1 := CIRCUIT_OPEN_MS] - {0} == map[1 := CIRCUIT_OPEN_MS];
    run := run + [Finish(0, NotCounted)];
    RunOn(timeoutMs, Start(0), run, Call(2));
    run := run + [Call(2)];
  }

  /**
   * The probe is alone in every state of every run exactly when the deadline is
   * shorter than the cooldown.
   */
  lemma {:induction false} ProbeIsAloneIffDeadlineIsShort(timeoutMs: nat)
    ensures timeoutMs < CIRCUIT_OPEN_MS <==>
      forall start, run :: Runs(timeoutMs, Start(start), run) ==> ProbeIsAlone(Exec(Start(start), run))
  {
    if timeoutMs < CIRCUIT_OPEN_MS {
      forall start, run | Runs(timeoutMs, Start(start), run)
        ensures ProbeIsAlone(Exec(Start(start), run))
      {
        RunKeepsInv(timeoutMs, start, run);
      }
    } else {
      var run := LongDeadlineLetsTwoIn(timeoutMs);
      var s := Exec(Start(0), run);
      assert |s.inFlight| == 2;
      assert !ProbeIsAlone(s);
    }
  }

  // ----- an open circuit -------------------------------------------------------------------

  predicate Succeeded(step: Step) {
    step.Finish? && step.ending.Succeeds?
  }

  lemma {:induction false} OpeningIsNear(timeoutMs: nat, s: State, run: seq<Step>)
    requires Runs(timeoutMs, s, run) && s.breaker.openUntil <= s.now + CIRCUIT_OPEN_MS
    ensures Exec(s, run).breaker.openUntil <= Exec(s, run).now + CIRCUIT_OPEN_MS && s.now <= Exec(s, run).now
  {
    if run != [] {
      OpeningIsNear(timeoutMs, s, run[..|run| - 1]);
    }
  }

  lemma {:induction false} StaysShut(timeoutMs: nat, s: State, run: seq<Step>)
    requires Runs(timeoutMs, s, run) && s.breaker.openUntil <= s.now + CIRCUIT_OPEN_MS
    requires s.breaker.openUntil != 0 && !s.breaker.halfOpenInFlight
    requires forall k :: 0 <= k < |run| ==> !Succeeded(run[k])
    requires Exec(s, run).now < s.breaker.openUntil
    ensures Exec(s, run).admitted == s.admitted
    ensures Exec(s, run).breaker.openUntil >= s.breaker.openUntil && !Exec(s, run).breaker.halfOpenInFlight
  {
    if run != [] {
      var front, last := run[..|run| - 1], run[|run| - 1];
      OpeningIsNear(timeoutMs, s, front);
      StaysShut(timeoutMs, s, front);
      assert !Succeeded(last);
    }
  }

  /**
   * Once the circuit is open, no call is admitted before `openUntil` unless a call
   * from before the opening succeeds: failures only push `openUntil` back.
   */
  lemma {:induction false} NothingAdmittedWhileOpen(timeoutMs: nat, start: nat, before: seq<Step>, run: seq<Step>)
    requires Runs(timeoutMs, Start(start), before)
    requires var s := Exec(Start(start), before);
      && s.breaker.openUntil != 0 && !s.breaker.halfOpenInFlight
      && Runs(timeoutMs, s, run) && Exec(s, run).now < s.breaker.openUntil
    requires forall k :: 0 <= k < |run| ==> !Succeeded(run[k])
    ensures var s := Exec(Start(start), before);
      && Exec(s, run).admitted == s.admitted
      && Exec(s, run).breaker.openUntil >= s.breaker.openUntil
  {
    OpeningIsNear(timeoutMs, Start(start), before);
    StaysShut(timeoutMs, Exec(Start(start), before), run);
  }

  /** That exception is real: a success that was still in flight lets the next call in long before `openUntil`. */
  lemma {:induction false} SuccessReopensEarly(timeoutMs: nat) returns (before: seq<Step>, run: seq<Step>)
    ensures Runs(timeoutMs, Start(0), before) && Exec(Start(0), before).breaker.openUntil == CIRCUIT_OPEN_MS
    ensures var s := Exec(Start(0), before);
      && Runs(timeoutMs, s, run) && Exec(s, run).now < s.breaker.openUntil
      && Exec(s, run).admitted == s.admitted + 1
  {
    before := Failing(timeoutMs, CIRCUIT_FAILURE_THRESHOLD);
    var s := Exec(Start(0), before);
    RunOn(timeoutMs, s, [], Finish(0, Succeeds));
    run := [] + [Finish(0, Succeeds)];
    assert Exec(s, []) == s;
    RunOn(timeoutMs, s, run, Call(1));
    run := run + [Call(1)];
  }

  // ----- how a probe ends --------------------------------------------------------------------

  function CallsIn(run: seq<Step>): nat {
    if run == [] then 0 else CallsIn(run[..|run| - 1]) + (if run[|run| - 1].Call? then 1 else 0)
  }

  /** Calls are made, and none ends. */
  predicate NothingEnds(run: seq<Step>) {
    forall k :: 0 <= k < |run| ==> !run[k].Finish?
  }

  /** Some call of the run is made at `at` or later. */
  ghost predicate CallsFrom(s: State, run: seq<Step>, at: nat) {
    exists k :: 0 <= k < |run| && run[k].Call? && Exec(s, run[..k]).now >= at
  }

  lemma {:induction false} CallsFromFront(s: State, run: seq<Step>, at: nat)
    requires run != []
    ensures var n := |run| - 1;
      CallsFrom(s, run, at) <==> CallsFrom(s, run[..n], at) || (run[n].Call? && Exec(s, run[..n]).now >= at)
  {
    var n := |run| - 1;
    assert forall k :: 0 <= k < n ==> run[..n][..k] == run[..k] && run[..n][k] == run[k];
  }

  /** From the time the circuit opens again, the first call that comes is let in, alone. */
  lemma {:induction false} OneProbeAtATime(timeoutMs: nat, s: State, run: seq<Step>)
    requires Runs(timeoutMs, s, run) && NothingEnds(run)
    requires s.breaker.openUntil != 0 && !s.breaker.halfOpenInFlight
    ensures var s', probed := Exec(s, run), CallsFrom(s, run, s.breaker.openUntil);
      && s'.admitted == s.admitted + (if probed then 1 else 0)
      && s'.breaker == s.breaker.(halfOpenInFlight := probed) && s.now <= s'.now
  {
    if run != [] {
      OneProbeAtATime(timeoutMs, s, run[..|run| - 1]);
      CallsFromFront(s, run, s.breaker.openUntil);
      hide CallsFrom;
    }
  }

  /** Without a call in flight, an open circuit stays shut until its time. */
  lemma {:induction false} EmptyStaysShut(timeoutMs: nat, s: State, run: seq<Step>)
    requires Runs(timeoutMs, s, run) && s.inFlight == map[]
    requires s.breaker.openUntil != 0 && !s.breaker.halfOpenInFlight && Exec(s, run).now < s.breaker.openUntil
    ensures Exec(s, run).admitted == s.admitted && Exec(s, run).inFlight == map[] && Exec(s, run).breaker == s.breaker
  {
    if run != [] {
      EmptyStaysShut(timeoutMs, s, run[..|run| - 1]);
    }
  }

  /**
   * The half-open probe fails at the provider. With a deadline shorter than the
   * cooldown no call at all is let in for thirty seconds from then; and however
   * long the deadline, of the calls that come while none ends exactly the first
   * after these thirty seconds is.
   */
  lemma {:induction false} FailedProbeShutsForThirtySeconds(
      timeoutMs: nat, start: nat, before: seq<Step>, id: nat, run: seq<Step>)
    requires Runs(timeoutMs, Start(start), before)
    requires var s := Exec(Start(start), before);
      && s.breaker.halfOpenInFlight && id in s.inFlight && Runs(timeoutMs, Apply(s, Finish(id, ProviderFails)), run)
    ensures var s := Exec(Start(start), before);
      var s1 := Apply(s, Finish(id, ProviderFails));
      && (timeoutMs < 30_000 && Exec(s1, run).now < s.now + 30_000 ==> Exec(s1, run).admitted == s.admitted)
      && (NothingEnds(run) ==>
            Exec(s1, run).admitted == s.admitted + (if CallsFrom(s1, run, s.now + 30_000) then 1 else 0))
  {
    var s := Exec(Start(start), before);
    var s1 := Apply(s, Finish(id, ProviderFails));
    if timeoutMs < CIRCUIT_OPEN_MS && Exec(s1, run).now < s.now + CIRCUIT_OPEN_MS {
      RunKeepsInv(timeoutMs, start, before);
      OnlyCall(s.inFlight, id);
      EmptyStaysShut(timeoutMs, s1, run);
    }
    if NothingEnds(run) {
      OneProbeAtATime(timeoutMs, s1, run);
    }
  }

  /** The probe's end does not count: exactly one more is let in, whenever the next call comes. */
  lemma {:induction false} UncountedProbeLetsOneMoreIn(
      timeoutMs: nat, start: nat, before: seq<Step>, id: nat, run: seq<Step>)
    requires timeoutMs < 30_000 && Runs(timeoutMs, Start(start), before) && NothingEnds(run)
    requires var s := Exec(Start(start), before);
      && s.breaker.halfOpenInFlight && id in s.inFlight && Runs(timeoutMs, Apply(s, Finish(id, NotCounted)), run)
    ensures var s := Exec(Start(start), before);
      Exec(Apply(s, Finish(id, NotCounted)), run).admitted == s.admitted + (if CallsIn(run) > 0 then 1 else 0)
  {
    var s := Exec(Start(start), before);
    var s1 := Apply(s, Finish(id, NotCounted));
    RunKeepsInv(timeoutMs, start, before);
    OneProbeAtATime(timeoutMs, s1, run);
    CallsAreLate(timeoutMs, s1, run, s.breaker.openUntil);
  }

  lemma {:induction false} CallsAreLate(timeoutMs: nat, s: State, run: seq<Step>, at: nat)
    requires Runs(timeoutMs, s, run) && at <= s.now
    ensures CallsFrom(s, run, at) <==> CallsIn(run) > 0
    ensures s.now <= Exec(s, run).now
  {
    if run != [] {
      CallsAreLate(timeoutMs, s, run[..|run| - 1], at);
      CallsFromFront(s, run, at);
      hide CallsFrom;
    }
  }

  /** Provider failures since the last success. */
  function FailuresIn(run: seq<Step>): nat {
    if run == [] || Succeeded(run[|run| - 1]) then 0
    else
      var last := run[|run| - 1];
      FailuresIn(run[..|run| - 1]) + (if last.Finish? && last.ending.ProviderFails? then 1 else 0)
  }

  lemma {:induction false} ClosedLetsAllIn(timeoutMs: nat, s: State, run: seq<Step>)
    requires Runs(timeoutMs, s, run) && s.breaker == Breaker(0, 0, false)
    requires forall k :: 0 <= k <= |run| ==> FailuresIn(run[..k]) < 5
    ensures Exec(s, run).admitted == s.admitted + CallsIn(run)
    ensures Exec(s, run).breaker == Breaker(FailuresIn(run), 0, false)
  {
    if run != [] {
      var front := run[..|run| - 1];
      assert forall k :: 0 <= k <= |front| ==> front[..k] == run[..k];
      assert run[..|run|] == run;
      ClosedLetsAllIn(timeoutMs, s, front);
    }
  }

  /**
   * The probe is answered, well or not: every later call is let in, until five
   * provider failures have come without a success in between.
   */
  lemma {:induction false} AnsweredProbeLetsAllIn(
      timeoutMs: nat, start: nat, before: seq<Step>, id: nat, ending: Ending, run: seq<Step>)
    requires Runs(timeoutMs, Start(start), before) && (ending.Succeeds? || ending.ParseFails?)
    requires var s := Exec(Start(start), before);
      && s.breaker.halfOpenInFlight && id in s.inFlight && Runs(timeoutMs, Apply(s, Finish(id, ending)), run)
    requires forall k :: 0 <= k <= |run| ==> FailuresIn(run[..k]) < 5
    ensures var s := Exec(Start(start), before);
      Exec(Apply(s, Finish(id, ending)), run).admitted == s.admitted + CallsIn(run)
  {
    ClosedLetsAllIn(timeoutMs, Apply(Exec(Start(start), before), Finish(id, ending)), run);
  }
}
