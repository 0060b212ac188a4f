/**
 * How far back the limiter's clock may go. The in-memory form goes by the clock of
 * its process; the Redis script, and the expiry of its key, by the server's. `back`
 * is the most either is ever behind an earlier call.
 */
module OutboundSetback {
  import opened Prelude
  import opened OutboundLimiter

  ghost predicate Within(calls: seq<Call>, back: nat) {
    forall i, j :: 0 <= i < j < |calls| ==> calls[i].now - calls[j].now <= back
  }

  lemma {:induction false} RedisVerdictEach(cfg: Config, calls: seq<Call>)
    ensures |RunRedis(cfg, calls).1| == |calls|
  {
    if calls != [] {
      RedisVerdictEach(cfg, calls[..|calls| - 1]);
    }
  }

  /** The units the Redis form admits in the window from `start` on. */
  function RedisUnits(cfg: Config, calls: seq<Call>, start: int): int
    requires |RunRedis(cfg, calls).1| == |calls|
  {
    AdmittedUnits(calls, RunRedis(cfg, calls).1, start, start + cfg.windowMs)
  }

  /** No window of the Redis form is overfilled. */
  ghost predicate RedisBounded(cfg: Config, calls: seq<Call>) {
    && |RunRedis(cfg, calls).1| == |calls|
    && forall start :: RedisUnits(cfg, calls, start) <= cfg.maxMessages
  }

  lemma {:induction false} RedisRunGrows(cfg: Config, front: seq<Call>, call: Call, start: int)
    ensures |RunRedis(cfg, front).1| == |front| && |RunRedis(cfg, front + [call]).1| == |front| + 1
    ensures var step := RedisStep(cfg, RunRedis(cfg, front).0, call, |front|);
      && RunRedis(cfg, front + [call]).0 == step.0
      && RedisUnits(cfg, front + [call], start) == RedisUnits(cfg, front, start)
         + (if step.1.Allowed? && start <= call.now < start + cfg.windowMs then call.units else 0)
  {
    hide RedisStep;
    var calls := front + [call];
    RedisVerdictEach(cfg, front);
    RedisVerdictEach(cfg, calls);
    assert calls[..|front|] == front;
    assert RunRedis(cfg, calls).1[..|front|] == RunRedis(cfg, front).1;
  }

  // ----- a cap of one -------------------------------------------------------------------------------

  /** The set holds exactly one unit, at `at`. */
  ghost predicate HoldsOne(key: Option<SortedSet>, at: int) {
    key.Some? && exists m :: key.value.scores == map[m := at]
  }

  lemma {:induction false} OneMember(scores: map<Member, int>, m: Member, at: int, cutoff: int)
    requires scores == map[m := at]
    ensures |Trimmed(scores, cutoff)| == if at > cutoff then 1 else 0
    ensures Trimmed(scores, cutoff) == if at > cutoff then scores else map[]
  {
    if at <= cutoff {
      assert Trimmed(scores, cutoff) == map[];
    } else {
      assert Trimmed(scores, cutoff) == scores;
      assert scores.Keys == {m};
    }
  }

  /** A set without a live unit admits one unit and holds it. */
  lemma {:induction false} AddsOne(cfg: Config, key: Option<SortedSet>, call: Call, uuid: nat)
    requires cfg.maxMessages == 1 && call.units == 1
    requires Trimmed(Live(key, call.now), call.now - cfg.windowMs) == map[]
    ensures var step := RedisStep(cfg, key, call, uuid);
      && step.1.Allowed? && HoldsOne(step.0, call.now) && step.0.value.expiresAt == call.now + TtlMs(cfg.windowMs)
  {
    var scores := Added(map[], call.now, uuid, 1);
    assert Added(map[], call.now, uuid, 0) == map[];
    assert scores == map[Member(uuid, 1) := call.now];
    hide Live;
    hide Trimmed;
    hide TtlMs;
  }

  /** A unit that is held refuses the next until its window has passed, or the key with it. */
  lemma {:induction false} HeldOneRefuses(cfg: Config, key: Option<SortedSet>, at: int, call: Call, uuid: nat)
    requires cfg.maxMessages == 1 && call.units == 1 && HoldsOne(key, at)
    requires call.now <= key.value.expiresAt && at > call.now - cfg.windowMs
    ensures var step := RedisStep(cfg, key, call, uuid);
      && !step.1.Allowed? && HoldsOne(step.0, at) && step.0.value.expiresAt == call.now + TtlMs(cfg.windowMs)
  {
    hide TtlMs;
    hide Added;
    var m :| key.value.scores == map[m := at];
    OneMember(key.value.scores, m, at, call.now - cfg.windowMs);
    hide Trimmed;
  }

  lemma {:induction false} HeldOneGoes(cfg: Config, key: Option<SortedSet>, at: int, call: Call)
    requires HoldsOne(key, at) && (call.now > key.value.expiresAt || at <= call.now - cfg.windowMs)
    ensures Trimmed(Live(key, call.now), call.now - cfg.windowMs) == map[]
  {
    var m :| key.value.scores == map[m := at];
    OneMember(key.value.scores, m, at, call.now - cfg.windowMs);
  }

  /** The last admitted unit, at `at`, is held, and for its lifetime but for `back`. */
  ghost predicate HeldFor(cfg: Config, key: Option<SortedSet>, at: int, back: nat) {
    HoldsOne(key, at) && at + TtlMs(cfg.windowMs) <= key.value.expiresAt + back
  }

  predicate BackIsSpare(cfg: Config, back: nat) {
    back + cfg.windowMs <= TtlMs(cfg.windowMs) + 1
  }

  /** With the spare lifetime of the key, admissions are a window apart; other calls leave the unit held. */
  lemma {:induction false} OneUnitStep(cfg: Config, key: Option<SortedSet>, at: int, call: Call, uuid: nat, back: nat)
    requires cfg.maxMessages == 1 && BackIsSpare(cfg, back)
    requires HeldFor(cfg, key, at, back) && at <= call.now + back
    ensures var step := RedisStep(cfg, key, call, uuid);
      if step.1.Allowed? then call.units == 1 && at + cfg.windowMs <= call.now && HeldFor(cfg, step.0, call.now, back)
      else HeldFor(cfg, step.0, at, back)
  {
    if call.units == 1 {
      hide RedisStep;
      hide HoldsOne;
      hide TtlMs;
      if call.now <= key.value.expiresAt && at > call.now - cfg.windowMs {
        HeldOneRefuses(cfg, key, at, call, uuid);
      } else {
        HeldOneGoes(cfg, key, at, call);
        AddsOne(cfg, key, call, uuid);
      }
    }
  }

  lemma {:induction false} FirstUnitStep(cfg: Config, call: Call, uuid: nat, back: nat)
    requires cfg.maxMessages == 1
    ensures var step := RedisStep(cfg, None, call, uuid);
      if step.1.Allowed? then call.units == 1 && HeldFor(cfg, step.0, call.now, back) else step.0.None?
  {
    if call.units == 1 {
      assert Trimmed(Live(None, call.now), call.now - cfg.windowMs) == map[];
      AddsOne(cfg, None, call, uuid);
      hide TtlMs;
      hide RedisStep;
    }
  }

  /** The last admitted call of a run; -1 if there is none. */
  lemma {:induction false} OneUnitRun(cfg: Config, calls: seq<Call>, start: int, back: nat) returns (last: int)
    requires cfg.maxMessages == 1 && BackIsSpare(cfg, back) && Within(calls, back)
    ensures |RunRedis(cfg, calls).1| == |calls| && -1 <= last < |calls|
    ensures last == -1 ==> RunRedis(cfg, calls).0.None? && RedisUnits(cfg, calls, start) == 0
    ensures last >= 0 ==>
      && HeldFor(cfg, RunRedis(cfg, calls).0, calls[last].now, back)
      && (RedisUnits(cfg, calls, start) == 0 || (RedisUnits(cfg, calls, start) == 1 && start <= calls[last].now))
  {
    hide RedisStep;
    hide HeldFor;
    hide BackIsSpare;
    if calls == [] {
      last := -1;
    } else {
      var n := |calls| - 1;
      var front, call := calls[..n], calls[n];
      last := OneUnitRun(cfg, front, start, back);
      assert front + [call] == calls;
      RedisRunGrows(cfg, front, call, start);
      hide RunRedis;
      hide RedisUnits;
      if last == -1 {
        FirstUnitStep(cfg, call, n, back);
      } else {
        assert front[last] == calls[last] && calls[last].now - calls[n].now <= back;
        OneUnitStep(cfg, RunRedis(cfg, front).0, calls[last].now, call, n, back);
      }
      if RedisStep(cfg, RunRedis(cfg, front).0, call, n).1.Allowed? {
        last := n;
      }
    }
  }

  // ----- no cap, no window ----------------------------------------------------------------------------

  lemma {:induction false} NothingComesIn(cfg: Config, calls: seq<Call>, start: int)
    requires cfg.maxMessages == 0 || cfg.windowMs == 0
    ensures |RunRedis(cfg, calls).1| == |calls| && RedisUnits(cfg, calls, start) == 0
  {
    RedisVerdictEach(cfg, calls);
    if calls != [] {
      var front, last := calls[..|calls| - 1], calls[|calls| - 1];
      NothingComesIn(cfg, front, start);
      assert front + [last] == calls;
      RedisRunGrows(cfg, front, last, start);
      hide Trimmed;
      hide Live;
      hide Added;
      hide TtlMs;
    }
  }

  // ----- runs that overfill ---------------------------------------------------------------------------

  lemma {:induction false} FillsUp(cfg: Config, at: int)
    ensures cfg.maxMessages >= 1 ==>
      RedisStep(cfg, None, Call(at, cfg.maxMessages), 0)
        == (Some(SortedSet(Added(map[], at, 0, cfg.maxMessages), at + TtlMs(cfg.windowMs))), Allowed(0))
  {
    assert Trimmed(map[], at - cfg.windowMs) == map[];
    hide Added;
    hide TtlMs;
    hide Trimmed;
  }

  lemma {:induction false} AllTrimmed(at: int, uuid: nat, n: nat)
    ensures Trimmed(Added(map[], at, uuid, n), at) == map[]
  {
    AddedAbove(map[], at, uuid, n, at);
  }

  lemma {:induction false} DropsAndTakes(cfg: Config, key: SortedSet, now: int, uuid: nat)
    requires cfg.maxMessages >= 1 && now <= key.expiresAt && Trimmed(key.scores, now - cfg.windowMs) == map[]
    ensures var step := RedisStep(cfg, Some(key), Call(now, 1), uuid);
      step.1.Allowed? && HoldsOne(step.0, now) && step.0.value.expiresAt == now + TtlMs(cfg.windowMs)
  {
    assert Added(map[], now, uuid, 0) == map[];
    assert Added(map[], now, uuid, 1) == map[Member(uuid, 1) := now];
    hide TtlMs;
    hide Trimmed;
  }

  lemma {:induction false} TakesASecond(cfg: Config, key: Option<SortedSet>, at: int, now: int, uuid: nat)
    requires cfg.maxMessages >= 2 && HoldsOne(key, at)
    ensures RedisStep(cfg, key, Call(now, 1), uuid).1.Allowed?
  {
    var m :| key.value.scores == map[m := at];
    OneMember(key.value.scores, m, at, now - cfg.windowMs);
    assert Trimmed(map[], now - cfg.windowMs) == map[];
    hide Trimmed;
    hide Added;
    hide TtlMs;
  }

  lemma {:induction false} BackByOneSteps(cfg: Config, at: int)
    requires cfg.maxMessages >= 2 && cfg.windowMs >= 1
    ensures var calls := BackByOne(cfg, at);
      var first := RedisStep(cfg, None, calls[0], 0);
      var second := RedisStep(cfg, first.0, calls[1], 1);
      first.1.Allowed? && second.1.Allowed? && RedisStep(cfg, second.0, calls[2], 2).1.Allowed?
  {
    var calls := BackByOne(cfg, at);
    FillsUp(cfg, at);
    AllTrimmed(at, 0, cfg.maxMessages);
    var first := RedisStep(cfg, None, calls[0], 0);
    TtlIsRoundedUp(cfg.windowMs);
    hide RedisStep;
    hide TtlMs;
    hide Added;
    DropsAndTakes(cfg, first.0.value, at + cfg.windowMs, 1);
    TakesASecond(cfg, RedisStep(cfg, first.0, calls[1], 1).0, at + cfg.windowMs, at + cfg.windowMs - 1, 2);
  }

  lemma {:induction false} RedisStarts(cfg: Config, start: int)
    ensures RunRedis(cfg, []) == (None, []) && RedisUnits(cfg, [], start) == 0
  {
  }

  function UnitsOf(cfg: Config, verdict: Verdict, call: Call, start: int): int {
    if verdict.Allowed? && start <= call.now < start + cfg.windowMs then call.units else 0
  }

  /** What three calls admit, step by step. */
  lemma {:induction false} ThreeCalls(cfg: Config, a: Call, b: Call, c: Call, start: int)
    ensures |RunRedis(cfg, [a, b, c]).1| == 3
    ensures var first := RedisStep(cfg, None, a, 0);
      var second := RedisStep(cfg, first.0, b, 1);
      var third := RedisStep(cfg, second.0, c, 2);
      RedisUnits(cfg, [a, b, c], start)
        == UnitsOf(cfg, first.1, a, start) + UnitsOf(cfg, second.1, b, start) + UnitsOf(cfg, third.1, c, start)
  {
    hide RedisStep;
    RedisStarts(cfg, start);
    hide RunRedis;
    hide RedisUnits;
    RedisRunGrows(cfg, [], a, start);
    assert [] + [a] == [a];
    RedisRunGrows(cfg, [a], b, start);
    assert [a] + [b] == [a, b];
    RedisRunGrows(cfg, [a, b], c, start);
    assert [a, b] + [c] == [a, b, c];
  }

  /** For a cap of two or more, going back by one is enough: the window takes one unit more than the cap. */
  lemma {:induction false} BackByOneOverfills(cfg: Config, at: int)
    requires cfg.maxMessages >= 2 && cfg.windowMs >= 1
    ensures var calls := BackByOne(cfg, at);
      && Within(calls, 1) && |RunRedis(cfg, calls).1| == |calls|
      && RedisUnits(cfg, calls, at) == cfg.maxMessages + 1
  {
    hide RedisStep;
    var calls := BackByOne(cfg, at);
    var a, b, c := calls[0], calls[1], calls[2];
    BackByOneSteps(cfg, at);
    hide RunRedis;
    hide RedisUnits;
    ThreeCalls(cfg, a, b, c, at);
    assert calls == [a, b, c];
  }

  /** A unit; a refused call of long before, by which the key then expires; and one just after that. */
  function AfterExpiry(cfg: Config): seq<Call> {
    var ttl := TtlMs(cfg.windowMs);
    [Call(ttl + 2 - cfg.windowMs, 1), Call(0, 1), Call(ttl + 1, 1)]
  }

  lemma {:induction false} AfterExpirySteps(cfg: Config)
    requires cfg.maxMessages == 1 && cfg.windowMs >= 1
    ensures var calls := AfterExpiry(cfg);
      var first := RedisStep(cfg, None, calls[0], 0);
      var second := RedisStep(cfg, first.0, calls[1], 1);
      first.1.Allowed? && !second.1.Allowed? && RedisStep(cfg, second.0, calls[2], 2).1.Allowed?
  {
    var calls := AfterExpiry(cfg);
    var at := calls[0].now;
    TtlIsRoundedUp(cfg.windowMs);
    assert Trimmed(Live(None, at), at - cfg.windowMs) == map[];
    AddsOne(cfg, None, calls[0], 0);
    var first := RedisStep(cfg, None, calls[0], 0);
    hide RedisStep;
    hide TtlMs;
    hide HoldsOne;
    HeldOneRefuses(cfg, first.0, at, calls[1], 1);
    var second := RedisStep(cfg, first.0, calls[1], 1);
    HeldOneGoes(cfg, second.0, at, calls[2]);
    AddsOne(cfg, second.0, calls[2], 2);
  }

  /** For a cap of one it takes going back beyond the spare lifetime of the key. */
  lemma {:induction false} LongSetbackOverfills(cfg: Config)
    requires cfg.maxMessages == 1 && cfg.windowMs >= 1
    ensures var calls, back := AfterExpiry(cfg), TtlMs(cfg.windowMs) + 2 - cfg.windowMs;
      && back >= 0 && Within(calls, back) && |RunRedis(cfg, calls).1| == |calls| && RedisUnits(cfg, calls, back) == 2
  {
    hide RedisStep;
    var calls := AfterExpiry(cfg);
    var a, b, c := calls[0], calls[1], calls[2];
    TtlIsRoundedUp(cfg.windowMs);
    AfterExpirySteps(cfg);
    hide TtlMs;
    hide RunRedis;
    hide RedisUnits;
    ThreeCalls(cfg, a, b, c, a.now);
    assert calls == [a, b, c];
  }

  // ----- the exact conditions ----------------------------------------------------------------------------

  lemma {:induction false} WithinMore(calls: seq<Call>, small: nat, big: nat)
    requires Within(calls, small) && small <= big
    ensures Within(calls, big)
  {
  }

  /**
   * The in-memory form keeps its bound for every clock that goes back by at most
   * `back` exactly when the cap is below two, the window is empty, or the clock
   * does not go back at all.
   */
  lemma {:induction false} MemoryIsSafeIff(cfg: Config, back: nat)
    ensures (forall calls :: Within(calls, back) ==> WindowsBounded(cfg, calls)) <==>
      cfg.maxMessages <= 1 || cfg.windowMs == 0 || back == 0
  {
    hide RunMemory;
    hide AdmittedUnits;
    AnyClockIsSafeIff(cfg);
    if back == 0 {
      forall calls | Within(calls, back)
        ensures WindowsBounded(cfg, calls)
      {
        assert Ordered(calls);
        MemoryVerdictEach(cfg, calls);
        forall start
          ensures WindowUnits(cfg, calls, start) <= cfg.maxMessages
        {
          EveryWindowIsBounded(cfg, calls, start);
        }
      }
    } else if cfg.maxMessages >= 2 && cfg.windowMs >= 1 {
      var calls := BackByOne(cfg, 0);
      ClockGoingBackOverfills(cfg, 0);
      WithinMore(calls, 1, back);
      assert WindowUnits(cfg, calls, 0) > cfg.maxMessages;
      assert !WindowsBounded(cfg, calls);
    }
  }

  predicate SetbackIsHarmless(cfg: Config, back: nat) {
    || cfg.maxMessages == 0 || cfg.windowMs == 0 || back == 0
    || (cfg.maxMessages == 1 && BackIsSpare(cfg, back))
  }

  lemma {:induction false} HarmlessIsBounded(cfg: Config, calls: seq<Call>, back: nat)
    requires SetbackIsHarmless(cfg, back) && Within(calls, back)
    ensures RedisBounded(cfg, calls)
  {
    hide BackIsSpare;
    RedisVerdictEach(cfg, calls);
    forall start
      ensures RedisUnits(cfg, calls, start) <= cfg.maxMessages
    {
      hide RunRedis;
      if cfg.maxMessages == 0 || cfg.windowMs == 0 {
        NothingComesIn(cfg, calls, start);
      } else if back == 0 {
        assert Ordered(calls);
        EveryWindowIsBounded(cfg, calls, start);
      } else {
        var last := OneUnitRun(cfg, calls, start, back);
      }
    }
  }

  /**
   * The Redis form keeps it exactly when there is no cap, no window or no setback
   * to speak of, or the cap is one and the setback is within the time by which the
   * key outlives the window: a second or two.
   */
  lemma {:induction false} RedisIsSafeIff(cfg: Config, back: nat)
    ensures (forall calls :: Within(calls, back) ==> RedisBounded(cfg, calls)) <==> SetbackIsHarmless(cfg, back)
  {
    hide RunRedis;
    if SetbackIsHarmless(cfg, back) {
      forall calls | Within(calls, back)
        ensures RedisBounded(cfg, calls)
      {
        HarmlessIsBounded(cfg, calls, back);
      }
    } else if cfg.maxMessages == 1 {
      var calls, least := AfterExpiry(cfg), TtlMs(cfg.windowMs) + 2 - cfg.windowMs;
      LongSetbackOverfills(cfg);
      WithinMore(calls, least, back);
      assert RedisUnits(cfg, calls, least) > cfg.maxMessages;
      assert !RedisBounded(cfg, calls);
    } else {
      var calls := BackByOne(cfg, 0);
      BackByOneOverfills(cfg, 0);
      WithinMore(calls, 1, back);
      assert RedisUnits(cfg, calls, 0) > cfg.maxMessages;
      assert !RedisBounded(cfg, calls);
    }
  }
}
