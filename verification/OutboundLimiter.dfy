/**
 * The outbound burst limiter: at most `maxMessages` units per bucket in any
 * window. The in-memory form keeps a list of timestamps; the Redis form keeps a
 * sorted set under a key that expires. Both are compared with the plain rule
 * that looks at the whole log of admitted units.
 *
 * Time is in milliseconds: the process's own in memory, the server's own in Redis,
 * where the script asks for it. Every call has its own random id.
 */
module OutboundLimiter {
  import opened Prelude

  datatype Config = Config(maxMessages: nat, windowMs: nat)

  /** A call: when it is made and how many units it asks for. */
  datatype Call = Call(now: int, units: int)

  datatype Verdict =
    | Allowed(remaining: int)
    | CapExceeded(remaining: int)
    | BatchTooLarge
    | BadUnits

  // ----- the rule --------------------------------------------------------------------

  /** How many entries are later than `cutoff`. */
  function Recent(log: seq<int>, cutoff: int): nat {
    if log == [] then 0
    else Recent(log[..|log| - 1], cutoff) + (if log[|log| - 1] > cutoff then 1 else 0)
  }

  function Repeat(now: int, n: nat): seq<int> {
    if n == 0 then [] else Repeat(now, n - 1) + [now]
  }

  /** What is decided before any bucket is looked at. */
  function Refused(cfg: Config, units: int): Option<Verdict> {
    if units < 1 then Some(BadUnits)
    else if units > cfg.maxMessages then Some(BatchTooLarge)
    else None
  }

  function Max0(n: int): nat {
    if n < 0 then 0 else n
  }

  /** The plain rule: admit when the trailing window has room for all the units. */
  function LogStep(cfg: Config, log: seq<int>, call: Call): (seq<int>, Verdict) {
    var refused := Refused(cfg, call.units);
    if refused.Some? then (log, refused.value)
    else
      var current := Recent(log, call.now - cfg.windowMs);
      if current + call.units > cfg.maxMessages then (log, CapExceeded(Max0(cfg.maxMessages - current)))
      else (log + Repeat(call.now, call.units), Allowed(cfg.maxMessages - current - call.units))
  }

  // ----- the in-memory form ------------------------------------------------------------

  function Kept(bucket: seq<int>, cutoff: int): seq<int> {
    if bucket == [] then []
    else
      Kept(bucket[..|bucket| - 1], cutoff)
      + (if bucket[|bucket| - 1] > cutoff then [bucket[|bucket| - 1]] else [])
  }

  /** A refused call leaves even the stale timestamps where they are. */
  function MemoryStep(cfg: Config, bucket: seq<int>, call: Call): (seq<int>, Verdict) {
    var refused := Refused(cfg, call.units);
    if refused.Some? then (bucket, refused.value)
    else
      var kept := Kept(bucket, call.now - cfg.windowMs);
      if |kept| + call.units > cfg.maxMessages then (bucket, CapExceeded(Max0(cfg.maxMessages - |kept|)))
      else
        var filled := kept + Repeat(call.now, call.units);
        (filled, Allowed(cfg.maxMessages - |filled|))
  }

  // ----- the Redis form ------------------------------------------------------------------

  /** `uuid:index`, the member a unit is stored under. */
  datatype Member = Member(uuid: nat, index: nat)

  datatype SortedSet = SortedSet(scores: map<Member, int>, expiresAt: int)

  /** What the server still holds under the key. */
  function Live(key: Option<SortedSet>, now: int): map<Member, int> {
    if key.Some? && now <= key.value.expiresAt then key.value.scores else map[]
  }

  /** ZREMRANGEBYSCORE from minus infinity to `cutoff`. */
  function Trimmed(scores: map<Member, int>, cutoff: int): map<Member, int> {
    map m | m in scores && scores[m] > cutoff :: scores[m]
  }

  /** ZADD of `uuid:1` to `uuid:n`. */
  function Added(scores: map<Member, int>, now: int, uuid: nat, n: nat): map<Member, int> {
    if n == 0 then scores else Added(scores, now, uuid, n - 1)[Member(uuid, n) := now]
  }

  /** EXPIRE counts whole seconds: the window rounded up, and one more. */
  function TtlMs(windowMs: nat): nat {
    ((windowMs + 999) / 1000 + 1) * 1000
  }

  function RedisStep(cfg: Config, key: Option<SortedSet>, call: Call, uuid: nat): (Option<SortedSet>, Verdict) {
    var refused := Refused(cfg, call.units);
    if refused.Some? then (key, refused.value)
    else
      var kept := Trimmed(Live(key, call.now), call.now - cfg.windowMs);
      var expiresAt := call.now + TtlMs(cfg.windowMs);
      if |kept| + call.units > cfg.maxMessages then
        (if |kept| > 0 then Some(SortedSet(kept, expiresAt)) else None, CapExceeded(Max0(cfg.maxMessages - |kept|)))
      else
        ( Some(SortedSet(Added(kept, call.now, uuid, call.units), expiresAt)),
          Allowed(Max0(cfg.maxMessages - (|kept| + call.units))) )
  }

  /** The window rounded up to whole seconds, and one second more. */
  lemma {:induction false} TtlIsRoundedUp(windowMs: nat)
    ensures TtlMs(windowMs) % 1000 == 0 && windowMs + 1000 <= TtlMs(windowMs) < windowMs + 2000
  {
  }

  // ----- counting ---------------------------------------------------------------------------

  lemma {:induction false} RecentAppend(log: seq<int>, now: int, n: nat, cutoff: int)
    ensures Recent(log + Repeat(now, n), cutoff) == Recent(log, cutoff) + (if now > cutoff then n else 0)
  {
    if n == 0 {
      assert log + Repeat(now, n) == log;
    } else {
      RecentAppend(log, now, n - 1, cutoff);
      var longer, shorter := log + Repeat(now, n), log + Repeat(now, n - 1);
      assert longer[..|longer| - 1] == shorter;
    }
  }

  lemma {:induction false} KeptIsRecent(bucket: seq<int>, cutoff: int, later: int)
    requires cutoff <= later
    ensures |Kept(bucket, cutoff)| == Recent(bucket, cutoff)
    ensures Recent(Kept(bucket, cutoff), later) == Recent(bucket, later)
  {
    if bucket != [] {
      var front, last := bucket[..|bucket| - 1], bucket[|bucket| - 1];
      KeptIsRecent(front, cutoff, later);
      if last > cutoff {
        var kept := Kept(front, cutoff) + [last];
        assert kept[..|kept| - 1] == Kept(front, cutoff);
      } else {
        assert Kept(bucket, cutoff) == Kept(front, cutoff);
      }
    }
  }

  ghost function Above(scores: map<Member, int>, cutoff: int): set<Member> {
    set m | m in scores && scores[m] > cutoff
  }

  lemma {:induction false} TrimmedAbove(scores: map<Member, int>, cutoff: int, later: int)
    requires cutoff <= later
    ensures |Trimmed(scores, cutoff)| == |Above(scores, cutoff)|
    ensures Above(Trimmed(scores, cutoff), later) == Above(scores, later)
  {
    assert Trimmed(scores, cutoff).Keys == Above(scores, cutoff);
  }

  lemma {:induction false} AboveGrows(scores: map<Member, int>, unit: Member, now: int, cutoff: int)
    requires unit !in scores
    ensures |Above(scores[unit := now], cutoff)| == |Above(scores, cutoff)| + (if now > cutoff then 1 else 0)
  {
    assert Above(scores[unit := now], cutoff) == Above(scores, cutoff) + (if now > cutoff then {unit} else {});
  }

  /** Units under a fresh id are all new members. */
  lemma {:induction false} AddedAbove(scores: map<Member, int>, now: int, uuid: nat, n: nat, cutoff: int)
    requires forall m :: m in scores ==> m.uuid != uuid
    ensures forall m :: m in Added(scores, now, uuid, n) ==> m in scores || (m.uuid == uuid && 1 <= m.index <= n)
    ensures forall m :: m in Added(scores, now, uuid, n) ==>
      Added(scores, now, uuid, n)[m] == if m in scores then scores[m] else now
    ensures |Above(Added(scores, now, uuid, n), cutoff)| == |Above(scores, cutoff)| + (if now > cutoff then n else 0)
  {
    if n > 0 {
      AddedAbove(scores, now, uuid, n - 1, cutoff);
      var before, added := Added(scores, now, uuid, n - 1), Added(scores, now, uuid, n);
      var unit := Member(uuid, n);
      assert added == before[unit := now];
      AboveGrows(before, unit, now, cutoff);
      hide Above;
    }
  }

  // ----- each form follows the rule ---------------------------------------------------------

  /** From `clock` on, the bucket counts what the log counts. */
  ghost predicate MemoryTracks(cfg: Config, bucket: seq<int>, log: seq<int>, clock: int) {
    forall cutoff :: cutoff >= clock - cfg.windowMs ==> Recent(bucket, cutoff) == Recent(log, cutoff)
  }

  lemma {:induction false} MemoryFollows(cfg: Config, bucket: seq<int>, log: seq<int>, clock: int, call: Call)
    requires MemoryTracks(cfg, bucket, log, clock) && clock <= call.now
    ensures MemoryStep(cfg, bucket, call).1 == LogStep(cfg, log, call).1
    ensures MemoryTracks(cfg, MemoryStep(cfg, bucket, call).0, LogStep(cfg, log, call).0, call.now)
  {
    var cutoff := call.now - cfg.windowMs;
    KeptIsRecent(bucket, cutoff, cutoff);
    var verdict := LogStep(cfg, log, call).1;
    if verdict.Allowed? {
      RepeatLength(call.now, call.units);
      forall later | later >= cutoff
        ensures Recent(MemoryStep(cfg, bucket, call).0, later) == Recent(LogStep(cfg, log, call).0, later)
      {
        KeptIsRecent(bucket, cutoff, later);
        RecentAppend(Kept(bucket, cutoff), call.now, call.units, later);
        RecentAppend(log, call.now, call.units, later);
      }
    }
  }

  lemma {:induction false} RepeatLength(now: int, n: nat)
    ensures |Repeat(now, n)| == n
  {
    if n > 0 {
      RepeatLength(now, n - 1);
    }
  }

  function Scores(key: Option<SortedSet>): map<Member, int> {
    if key.Some? then key.value.scores else map[]
  }

  /**
   * From `clock` on, the sorted set counts what the log counts; the key outlives
   * every member's window; and only ids below `used` occur.
   */
  ghost predicate RedisTracks(cfg: Config, key: Option<SortedSet>, log: seq<int>, clock: int, used: nat) {
    && (forall cutoff :: cutoff >= clock - cfg.windowMs ==> |Above(Scores(key), cutoff)| == Recent(log, cutoff))
    && (forall m :: m in Scores(key) ==> m.uuid < used && Scores(key)[m] + cfg.windowMs < key.value.expiresAt)
    && (forall m :: m in Scores(key) ==> Scores(key)[m] <= clock)
  }

  /** The key's expiry never takes a unit that still counts. */
  lemma {:induction false} ExpiryDropsNothingLive(
      cfg: Config, key: Option<SortedSet>, log: seq<int>, clock: int, used: nat, now: int, cutoff: int)
    requires RedisTracks(cfg, key, log, clock, used)
    requires cutoff >= now - cfg.windowMs
    ensures Above(Live(key, now), cutoff) == Above(Scores(key), cutoff)
  {
    if key.Some? && now > key.value.expiresAt {
      forall m | m in Scores(key)
        ensures Scores(key)[m] <= cutoff
      {
      }
    }
  }

  lemma {:induction false} RedisCounts(
      cfg: Config, key: Option<SortedSet>, log: seq<int>, clock: int, used: nat, call: Call, later: int)
    requires RedisTracks(cfg, key, log, clock, used) && clock <= call.now
    requires Refused(cfg, call.units).None?
    requires later >= call.now - cfg.windowMs
    ensures |Above(Scores(RedisStep(cfg, key, call, used).0), later)| == Recent(LogStep(cfg, log, call).0, later)
  {
    var cutoff := call.now - cfg.windowMs;
    var live := Live(key, call.now);
    var kept := Trimmed(live, cutoff);
    ExpiryDropsNothingLive(cfg, key, log, clock, used, call.now, cutoff);
    ExpiryDropsNothingLive(cfg, key, log, clock, used, call.now, later);
    TrimmedAbove(live, cutoff, cutoff);
    TrimmedAbove(live, cutoff, later);
    if LogStep(cfg, log, call).1.Allowed? {
      AddedAbove(kept, call.now, used, call.units, later);
      RecentAppend(log, call.now, call.units, later);
    }
  }

  lemma {:induction false} RedisMembers(
      cfg: Config, key: Option<SortedSet>, log: seq<int>, clock: int, used: nat, call: Call)
    requires RedisTracks(cfg, key, log, clock, used) && clock <= call.now
    ensures var after := RedisStep(cfg, key, call, used).0;
      forall m :: m in Scores(after) ==>
        && m.uuid < used + 1 && Scores(after)[m] + cfg.windowMs < after.value.expiresAt && Scores(after)[m] <= call.now
  {
    hide Recent;
    hide Above;
    var kept := Trimmed(Live(key, call.now), call.now - cfg.windowMs);
    if Refused(cfg, call.units).None? && |kept| + call.units <= cfg.maxMessages {
      AddedAbove(kept, call.now, used, call.units, 0);
    }
  }

  lemma {:induction false} RedisVerdict(
      cfg: Config, key: Option<SortedSet>, log: seq<int>, clock: int, used: nat, call: Call)
    requires RedisTracks(cfg, key, log, clock, used) && clock <= call.now
    ensures RedisStep(cfg, key, call, used).1 == LogStep(cfg, log, call).1
  {
    hide Added;
    hide TtlMs;
    var cutoff := call.now - cfg.windowMs;
    ExpiryDropsNothingLive(cfg, key, log, clock, used, call.now, cutoff);
    TrimmedAbove(Live(key, call.now), cutoff, cutoff);
    hide Live;
    hide Trimmed;
    hide Above;
  }

  lemma {:induction false} RedisFollows(
      cfg: Config, key: Option<SortedSet>, log: seq<int>, clock: int, used: nat, call: Call)
    requires RedisTracks(cfg, key, log, clock, used) && clock <= call.now
    ensures RedisStep(cfg, key, call, used).1 == LogStep(cfg, log, call).1
    ensures RedisTracks(cfg, RedisStep(cfg, key, call, used).0, LogStep(cfg, log, call).0, call.now, used + 1)
  {
    RedisVerdict(cfg, key, log, clock, used, call);
    RedisMembers(cfg, key, log, clock, used, call);
    if Refused(cfg, call.units).None? {
      hide RedisStep;
      hide LogStep;
      forall later | later >= call.now - cfg.windowMs
        ensures |Above(Scores(RedisStep(cfg, key, call, used).0), later)| == Recent(LogStep(cfg, log, call).0, later)
      {
        RedisCounts(cfg, key, log, clock, used, call, later);
      }
      hide Above;
      hide Recent;
      hide Scores;
    }
  }

  // ----- whole runs -------------------------------------------------------------------------

  /** The clock never goes back. */
  ghost predicate Ordered(calls: seq<Call>) {
    forall i, j :: 0 <= i < j < |calls| ==> calls[i].now <= calls[j].now
  }

  function RunLog(cfg: Config, calls: seq<Call>): (seq<int>, seq<Verdict>) {
    if calls == [] then ([], [])
    else
      var before := RunLog(cfg, calls[..|calls| - 1]);
      var step := LogStep(cfg, before.0, calls[|calls| - 1]);
      (step.0, before.1 + [step.1])
  }

  function RunMemory(cfg: Config, calls: seq<Call>): (seq<int>, seq<Verdict>) {
    if calls == [] then ([], [])
    else
      var before := RunMemory(cfg, calls[..|calls| - 1]);
      var step := MemoryStep(cfg, before.0, calls[|calls| - 1]);
      (step.0, before.1 + [step.1])
  }

  /** The i-th call draws the id `i`: ids do not repeat. */
  function RunRedis(cfg: Config, calls: seq<Call>): (Option<SortedSet>, seq<Verdict>) {
    if calls == [] then (None, [])
    else
      var before := RunRedis(cfg, calls[..|calls| - 1]);
      var step := RedisStep(cfg, before.0, calls[|calls| - 1], |calls| - 1);
      (step.0, before.1 + [step.1])
  }

  ghost predicate RunTracks(cfg: Config, calls: seq<Call>, clock: int) {
    && MemoryTracks(cfg, RunMemory(cfg, calls).0, RunLog(cfg, calls).0, clock)
    && RedisTracks(cfg, RunRedis(cfg, calls).0, RunLog(cfg, calls).0, clock, |calls|)
    && RunMemory(cfg, calls).1 == RunRedis(cfg, calls).1 == RunLog(cfg, calls).1
  }

  lemma {:induction false} RunsTrack(cfg: Config, calls: seq<Call>)
    requires Ordered(calls) && calls != []
    ensures RunTracks(cfg, calls, calls[|calls| - 1].now)
  {
    var front, last := calls[..|calls| - 1], calls[|calls| - 1];
    var clock := last.now;
    if front != [] {
      RunsTrack(cfg, front);
      clock := front[|front| - 1].now;
      assert front[|front| - 1] == calls[|calls| - 2];
    } else {
      assert Above(map[], 0) == {};
      assert forall cutoff :: Above(map[], cutoff) == {};
    }
    MemoryFollows(cfg, RunMemory(cfg, front).0, RunLog(cfg, front).0, clock, last);
    RedisFollows(cfg, RunRedis(cfg, front).0, RunLog(cfg, front).0, clock, |front|, last);
  }

  /** Both forms decide every call alike, with the same room left, and as the rule does. */
  lemma {:induction false} FormsAgree(cfg: Config, calls: seq<Call>)
    requires Ordered(calls)
    ensures RunMemory(cfg, calls).1 == RunRedis(cfg, calls).1 == RunLog(cfg, calls).1
  {
    if calls != [] {
      RunsTrack(cfg, calls);
    }
  }

  // ----- the window bound ---------------------------------------------------------------------

  /** The units admitted at a time from `start` up to, not including, `end`. */
  function AdmittedUnits(calls: seq<Call>, verdicts: seq<Verdict>, start: int, end: int): int
    requires |calls| == |verdicts|
  {
    if calls == [] then 0
    else
      var last := |calls| - 1;
      AdmittedUnits(calls[..last], verdicts[..last], start, end)
      + (if verdicts[last].Allowed? && start <= calls[last].now < end then calls[last].units else 0)
  }

  lemma {:induction false} OneVerdictEach(cfg: Config, calls: seq<Call>)
    ensures |RunLog(cfg, calls).1| == |calls|
  {
    if calls != [] {
      OneVerdictEach(cfg, calls[..|calls| - 1]);
    }
  }

  /** The log is where the admitted units went: counting it counts them. */
  lemma {:induction false} LogHoldsAdmitted(cfg: Config, calls: seq<Call>, start: int, end: int)
    requires start <= end
    ensures |RunLog(cfg, calls).1| == |calls|
    ensures AdmittedUnits(calls, RunLog(cfg, calls).1, start, end)
         == Recent(RunLog(cfg, calls).0, start - 1) - Recent(RunLog(cfg, calls).0, end - 1)
  {
    OneVerdictEach(cfg, calls);
    if calls != [] {
      var front, last := calls[..|calls| - 1], calls[|calls| - 1];
      LogHoldsAdmitted(cfg, front, start, end);
      var verdicts := RunLog(cfg, calls).1;
      assert verdicts[..|front|] == RunLog(cfg, front).1;
      if verdicts[|front|].Allowed? {
        RecentAppend(RunLog(cfg, front).0, last.now, last.units, start - 1);
        RecentAppend(RunLog(cfg, front).0, last.now, last.units, end - 1);
      }
    }
  }

  lemma {:induction false} RecentFalls(log: seq<int>, early: int, late: int)
    requires early <= late
    ensures Recent(log, late) <= Recent(log, early)
  {
    if log != [] {
      RecentFalls(log[..|log| - 1], early, late);
    }
  }

  lemma {:induction false} RuleBoundsWindow(cfg: Config, calls: seq<Call>, start: int)
    ensures Recent(RunLog(cfg, calls).0, start - 1) - Recent(RunLog(cfg, calls).0, start + cfg.windowMs - 1)
         <= cfg.maxMessages
  {
    if calls != [] {
      var front, last := calls[..|calls| - 1], calls[|calls| - 1];
      RuleBoundsWindow(cfg, front, start);
      var log := RunLog(cfg, front).0;
      if LogStep(cfg, log, last).1.Allowed? {
        RecentAppend(log, last.now, last.units, start - 1);
        RecentAppend(log, last.now, last.units, start + cfg.windowMs - 1);
        if start <= last.now < start + cfg.windowMs {
          RecentFalls(log, last.now - cfg.windowMs, start - 1);
        }
      }
    }
  }

  /**
   * In either form, every half-open window of `windowMs` holds at most
   * `maxMessages` admitted units.
   */
  lemma {:induction false} EveryWindowIsBounded(cfg: Config, calls: seq<Call>, start: int)
    requires Ordered(calls)
    ensures |RunMemory(cfg, calls).1| == |RunRedis(cfg, calls).1| == |calls|
    ensures AdmittedUnits(calls, RunMemory(cfg, calls).1, start, start + cfg.windowMs) <= cfg.maxMessages
    ensures AdmittedUnits(calls, RunRedis(cfg, calls).1, start, start + cfg.windowMs) <= cfg.maxMessages
  {
    FormsAgree(cfg, calls);
    LogHoldsAdmitted(cfg, calls, start, start + cfg.windowMs);
    RuleBoundsWindow(cfg, calls, start);
  }

  lemma {:induction false} NothingIsLater(cfg: Config, calls: seq<Call>, now: int)
    requires forall i :: 0 <= i < |calls| ==> calls[i].now <= now
    ensures Recent(RunLog(cfg, calls).0, now) == 0
  {
    if calls != [] {
      var front, last := calls[..|calls| - 1], calls[|calls| - 1];
      NothingIsLater(cfg, front, now);
      if LogStep(cfg, RunLog(cfg, front).0, last).1.Allowed? {
        RecentAppend(RunLog(cfg, front).0, last.now, last.units, now);
      }
    }
  }

  /**
   * What a verdict gives as remaining is, in either form, the room there is: the cap
   * less the units admitted in the window that ends with the call, its own included.
   */
  lemma {:induction false} RemainingIsTheRoom(cfg: Config, calls: seq<Call>)
    requires Ordered(calls) && calls != [] && cfg.windowMs >= 1
    ensures var last, verdicts := |calls| - 1, RunMemory(cfg, calls).1;
      && |verdicts| == |calls| && RunRedis(cfg, calls).1 == verdicts
      && (verdicts[last].Allowed? || verdicts[last].CapExceeded? ==>
            verdicts[last].remaining
              == cfg.maxMessages
                 - AdmittedUnits(calls, verdicts, calls[last].now - cfg.windowMs + 1, calls[last].now + 1))
  {
    var n := |calls| - 1;
    var front, call := calls[..n], calls[n];
    FormsAgree(cfg, calls);
    LogHoldsAdmitted(cfg, calls, call.now - cfg.windowMs + 1, call.now + 1);
    NothingIsLater(cfg, calls, call.now);
    RuleKeepsWithinCap(cfg, front, call.now);
    StepRemaining(cfg, RunLog(cfg, front).0, call);
    LastVerdict(cfg, calls);
    hide *;
  }

  lemma {:induction false} LastVerdict(cfg: Config, calls: seq<Call>)
    requires calls != []
    ensures var n := |calls| - 1;
      var step := LogStep(cfg, RunLog(cfg, calls[..n]).0, calls[n]);
      |RunLog(cfg, calls).1| == |calls| && RunLog(cfg, calls).1[n] == step.1 && RunLog(cfg, calls).0 == step.0
  {
    hide LogStep;
    OneVerdictEach(cfg, calls[..|calls| - 1]);
  }

  lemma {:induction false} StepRemaining(cfg: Config, log: seq<int>, call: Call)
    requires Recent(log, call.now - cfg.windowMs) <= cfg.maxMessages && cfg.windowMs >= 1
    ensures var step, verdict := LogStep(cfg, log, call), LogStep(cfg, log, call).1;
      verdict.Allowed? || verdict.CapExceeded? ==>
        verdict.remaining == cfg.maxMessages - Recent(step.0, call.now - cfg.windowMs)
  {
    if LogStep(cfg, log, call).1.Allowed? {
      RecentAppend(log, call.now, call.units, call.now - cfg.windowMs);
    }
  }

  /** The trailing window never holds more than the cap. */
  lemma {:induction false} RuleKeepsWithinCap(cfg: Config, calls: seq<Call>, now: int)
    requires forall i :: 0 <= i < |calls| ==> calls[i].now <= now
    ensures Recent(RunLog(cfg, calls).0, now - cfg.windowMs) <= cfg.maxMessages
  {
    RuleBoundsWindow(cfg, calls, now - cfg.windowMs + 1);
    NothingIsLater(cfg, calls, now);
  }

  lemma {:induction false} MemoryVerdictEach(cfg: Config, calls: seq<Call>)
    ensures |RunMemory(cfg, calls).1| == |calls|
  {
    if calls != [] {
      MemoryVerdictEach(cfg, calls[..|calls| - 1]);
    }
  }

  /** The units the in-memory form admits in the window from `start` on. */
  function WindowUnits(cfg: Config, calls: seq<Call>, start: int): int
    requires |RunMemory(cfg, calls).1| == |calls|
  {
    AdmittedUnits(calls, RunMemory(cfg, calls).1, start, start + cfg.windowMs)
  }

  /** No window of the in-memory form is overfilled. */
  ghost predicate WindowsBounded(cfg: Config, calls: seq<Call>) {
    && |RunMemory(cfg, calls).1| == |calls|
    && forall start :: WindowUnits(cfg, calls, start) <= cfg.maxMessages
  }

  /** What one more call adds to a run. */
  lemma {:induction false} MemoryRunGrows(cfg: Config, front: seq<Call>, call: Call, start: int, end: int)
    ensures |RunMemory(cfg, front).1| == |front| && |RunMemory(cfg, front + [call]).1| == |front| + 1
    ensures var step := MemoryStep(cfg, RunMemory(cfg, front).0, call);
      && RunMemory(cfg, front + [call]).0 == step.0
      && AdmittedUnits(front + [call], RunMemory(cfg, front + [call]).1, start, end)
         == AdmittedUnits(front, RunMemory(cfg, front).1, start, end)
            + (if step.1.Allowed? && start <= call.now < end then call.units else 0)
  {
    hide MemoryStep;
    var calls := front + [call];
    MemoryVerdictEach(cfg, front);
    MemoryVerdictEach(cfg, calls);
    assert calls[..|front|] == front;
    assert RunMemory(cfg, calls).1[..|front|] == RunMemory(cfg, front).1;
  }

  lemma {:induction false} RepeatOnce(now: int)
    ensures Repeat(now, 1) == [now]
  {
    assert Repeat(now, 0) == [];
  }

  lemma {:induction false} AllStale(at: int, n: nat, cutoff: int)
    requires at <= cutoff
    ensures Kept(Repeat(at, n), cutoff) == []
  {
    if n > 0 {
      AllStale(at, n - 1, cutoff);
      assert Repeat(at, n)[..|Repeat(at, n)| - 1] == Repeat(at, n - 1);
    }
  }

  /** A full bucket, a call a window later, and one of the moment before. */
  function BackByOne(cfg: Config, at: int): seq<Call> {
    [Call(at, cfg.maxMessages), Call(at + cfg.windowMs, 1), Call(at + cfg.windowMs - 1, 1)]
  }

  /** A bucket is filled; a window later it is dropped; and a call of the moment before is let in. */
  lemma {:induction false} FillDropAndReturn(cfg: Config, at: int)
    requires cfg.maxMessages >= 2 && cfg.windowMs >= 1
    ensures var m, end := cfg.maxMessages, at + cfg.windowMs;
      && MemoryStep(cfg, [], Call(at, m)) == (Repeat(at, m), Allowed(0))
      && MemoryStep(cfg, Repeat(at, m), Call(end, 1)) == ([end], Allowed(m - 1))
      && MemoryStep(cfg, [end], Call(end - 1, 1)).1.Allowed?
  {
    var m, end := cfg.maxMessages, at + cfg.windowMs;
    RepeatLength(at, m);
    AllStale(at, m, at);
    RepeatOnce(end);
    RepeatLength(end - 1, 1);
    assert [] + Repeat(at, m) == Repeat(at, m);
    assert [end][..0] == [] && Kept([end], at - 1) == [end];
    hide Repeat;
  }

  /**
   * The clock matters. A full bucket is dropped once its window has passed; if the
   * clock then goes back by one, the window it filled takes one unit more.
   */
  lemma {:induction false} ClockGoingBackOverfills(cfg: Config, at: int)
    requires cfg.maxMessages >= 2 && cfg.windowMs >= 1
    ensures
      var calls := BackByOne(cfg, at);
      |RunMemory(cfg, calls).1| == |calls| && WindowUnits(cfg, calls, at) == cfg.maxMessages + 1
  {
    hide MemoryStep;
    hide Repeat;
    var m, end := cfg.maxMessages, at + cfg.windowMs;
    var full, late, back := Call(at, m), Call(end, 1), Call(end - 1, 1);
    FillDropAndReturn(cfg, at);
    MemoryRunGrows(cfg, [], full, at, end);
    MemoryRunGrows(cfg, [full], late, at, end);
    MemoryRunGrows(cfg, [full, late], back, at, end);
    assert [] + [full] == [full] && [full] + [late] == [full, late] && [full, late] + [back] == [full, late, back];
    assert RunMemory(cfg, []) == ([], []) && AdmittedUnits([], [], at, end) == 0;
    hide RunMemory;
    hide AdmittedUnits;
  }

  /** A cap of one remembers the last admitted unit, so admissions are a window apart whatever the clock does. */
  ghost predicate LastUnitKept(bucket: seq<int>, admitted: int, start: int) {
    || (bucket == [] && admitted == 0)
    || (|bucket| == 1 && (admitted == 0 || (admitted == 1 && start <= bucket[0])))
  }

  lemma {:induction false} OneUnitStepKeeps(cfg: Config, bucket: seq<int>, call: Call, admitted: int, start: int)
    requires cfg.maxMessages == 1 && LastUnitKept(bucket, admitted, start)
    ensures var step := MemoryStep(cfg, bucket, call);
      LastUnitKept(step.0,
        admitted + (if step.1.Allowed? && start <= call.now < start + cfg.windowMs then call.units else 0), start)
  {
    if bucket != [] {
      assert bucket[..0] == [];
    }
    if call.units == 1 {
      RepeatOnce(call.now);
    }
  }

  lemma {:induction false} OneUnitRunKeeps(cfg: Config, calls: seq<Call>, start: int)
    requires cfg.maxMessages == 1
    ensures |RunMemory(cfg, calls).1| == |calls|
    ensures LastUnitKept(RunMemory(cfg, calls).0,
      AdmittedUnits(calls, RunMemory(cfg, calls).1, start, start + cfg.windowMs), start)
  {
    hide MemoryStep;
    if calls != [] {
      var front, last := calls[..|calls| - 1], calls[|calls| - 1];
      OneUnitRunKeeps(cfg, front, start);
      assert front + [last] == calls;
      MemoryRunGrows(cfg, front, last, start, start + cfg.windowMs);
      OneUnitStepKeeps(cfg, RunMemory(cfg, front).0, last,
        AdmittedUnits(front, RunMemory(cfg, front).1, start, start + cfg.windowMs), start);
    }
  }

  lemma {:induction false} NothingAdmitted(cfg: Config, calls: seq<Call>, start: int, end: int)
    requires cfg.maxMessages == 0 || end <= start
    ensures |RunMemory(cfg, calls).1| == |calls|
    ensures AdmittedUnits(calls, RunMemory(cfg, calls).1, start, end) == 0
  {
    MemoryVerdictEach(cfg, calls);
    if calls != [] {
      var front, last := calls[..|calls| - 1], calls[|calls| - 1];
      NothingAdmitted(cfg, front, start, end);
      assert front + [last] == calls;
      MemoryRunGrows(cfg, front, last, start, end);
    }
  }

  /**
   * How far the bound leans on the clock: it survives every order of the calls
   * exactly for a cap below two (or an empty window).
   */
  lemma {:induction false} AnyClockIsSafeIff(cfg: Config)
    ensures (forall calls :: WindowsBounded(cfg, calls)) <==> cfg.maxMessages <= 1 || cfg.windowMs == 0
  {
    if cfg.maxMessages <= 1 || cfg.windowMs == 0 {
      forall calls
        ensures WindowsBounded(cfg, calls)
      {
        MemoryVerdictEach(cfg, calls);
        forall start
          ensures WindowUnits(cfg, calls, start) <= cfg.maxMessages
        {
          if cfg.maxMessages == 1 {
            OneUnitRunKeeps(cfg, calls, start);
          } else {
            NothingAdmitted(cfg, calls, start, start + cfg.windowMs);
          }
        }
      }
    } else {
      ClockGoingBackOverfills(cfg, 0);
      var calls := BackByOne(cfg, 0);
      assert WindowUnits(cfg, calls, 0) > cfg.maxMessages;
      assert !WindowsBounded(cfg, calls);
    }
  }

  // ----- the classes ------------------------------------------------------------------------

  /** The Redis server, as far as the script uses it. */
  class RedisServer {
    var keys: map<string, SortedSet>

    constructor ()
      ensures keys == map[]
    {
      keys := map[];
    }

    function At(key: string): Option<SortedSet>
      reads this
    {
      if key in keys then Some(keys[key]) else None
    }

    static method AddUnits(kept: map<Member, int>, now: int, uuid: nat, units: nat) returns (scores: map<Member, int>)
      ensures scores == Added(kept, now, uuid, units)
    {
      scores := kept;
      var i := 0;
      while i < units
        invariant 0 <= i <= units
        invariant scores == Added(kept, now, uuid, i)
      {
        i := i + 1;
        scores := scores[Member(uuid, i) := now];
      }
    }

    /** The admission script: it holds the script's verdict and touches one key. */
    method Eval(key: string, cfg: Config, call: Call, uuid: nat) returns (allowed: bool, current: nat)
      requires Refused(cfg, call.units).None?
      modifies this
      ensures At(key) == RedisStep(cfg, old(At(key)), call, uuid).0
      ensures forall other :: other != key ==> At(other) == old(At(other))
      ensures RedisStep(cfg, old(At(key)), call, uuid).1
           == if allowed then Allowed(Max0(cfg.maxMessages - current)) else CapExceeded(Max0(cfg.maxMessages - current))
    {
      hide Live;
      hide Trimmed;
      hide Added;
      hide TtlMs;
      var scores := Trimmed(Live(At(key), call.now), call.now - cfg.windowMs);
      current := |scores|;
      var expiresAt := call.now + TtlMs(cfg.windowMs);
      if current + call.units > cfg.maxMessages {
        keys := if current > 0 then keys[key := SortedSet(scores, expiresAt)] else keys - {key};
        return false, current;
      }
      scores := AddUnits(scores, call.now, uuid, call.units);
      keys := keys[key := SortedSet(scores, expiresAt)];
      return true, current + call.units;
    }
  }

  /** How the Redis call goes: it may fail before or after the script has run. */
  datatype Link = Answers | FailsBefore | FailsAfter

  datatype Backend = Redis(how: Link) | RedisDown | NotConfigured

  datatype Admission = Disabled | StoreUnavailable | Judged(verdict: Verdict)

  class OutboundRateLimiter {
    const enabled: bool
    const cfg: Config
    const server: RedisServer
    var memoryBuckets: map<string, seq<int>>

    constructor (enabled: bool, cfg: Config, server: RedisServer)
      ensures this.enabled == enabled && this.cfg == cfg && this.server == server && memoryBuckets == map[]
    {
      this.enabled, this.cfg, this.server, memoryBuckets := enabled, cfg, server, map[];
    }

    function Bucket(key: string): seq<int>
      reads this
    {
      if key in memoryBuckets then memoryBuckets[key] else []
    }

    method FromMemory(key: string, call: Call) returns (verdict: Verdict)
      requires Refused(cfg, call.units).None?
      modifies this
      ensures (Bucket(key), verdict) == MemoryStep(cfg, old(Bucket(key)), call)
      ensures forall other :: other != key ==> Bucket(other) == old(Bucket(other))
    {
      var bucket := Kept(Bucket(key), call.now - cfg.windowMs);
      if |bucket| + call.units > cfg.maxMessages {
        return CapExceeded(Max0(cfg.maxMessages - |bucket|));
      }
      ghost var kept := bucket;
      var i := 0;
      while i < call.units
        invariant 0 <= i <= call.units
        invariant bucket == kept + Repeat(call.now, i)
      {
        bucket := bucket + [call.now];
        i := i + 1;
      }
      memoryBuckets := memoryBuckets[key := bucket];
      return Allowed(cfg.maxMessages - |bucket|);
    }

    /**
     * A verdict comes from exactly one form and advances only that form's bucket;
     * an unreachable store lets the message through without counting it, except
     * that a lost answer may leave the units counted.
     */
    method Admit(key: string, call: Call, uuid: nat, backend: Backend) returns (admission: Admission)
      modifies this, server
      ensures forall other :: other != key ==>
        Bucket(other) == old(Bucket(other)) && server.At(other) == old(server.At(other))
      ensures admission.Disabled? <==> !enabled
      ensures enabled && Refused(cfg, call.units).Some? ==>
        && admission == Judged(Refused(cfg, call.units).value)
        && Bucket(key) == old(Bucket(key)) && server.At(key) == old(server.At(key))
      ensures enabled && Refused(cfg, call.units).None? ==>
        match backend
        case NotConfigured =>
          && admission == Judged(MemoryStep(cfg, old(Bucket(key)), call).1)
          && Bucket(key) == MemoryStep(cfg, old(Bucket(key)), call).0
          && server.At(key) == old(server.At(key))
        case RedisDown =>
          admission.StoreUnavailable? && Bucket(key) == old(Bucket(key)) && server.At(key) == old(server.At(key))
        case Redis(how) =>
          && Bucket(key) == old(Bucket(key))
          && admission == (if how.Answers? then Judged(RedisStep(cfg, old(server.At(key)), call, uuid).1)
                           else StoreUnavailable)
          && server.At(key) == if how.FailsBefore? then old(server.At(key))
                               else RedisStep(cfg, old(server.At(key)), call, uuid).0
    {
      if !enabled {
        return Disabled;
      }
      if call.units < 1 {
        return Judged(BadUnits);
      }
      if call.units > cfg.maxMessages {
        return Judged(BatchTooLarge);
      }
      match backend {
        case Redis(how) =>
          if how.FailsBefore? {
            return StoreUnavailable;
          }
          var allowed, current := server.Eval(key, cfg, call, uuid);
          if how.FailsAfter? {
            return StoreUnavailable;
          }
          var room := Max0(cfg.maxMessages - current);
          return Judged(if allowed then Allowed(room) else CapExceeded(room));
        case RedisDown =>
          return StoreUnavailable;
        case NotConfigured =>
          var verdict := FromMemory(key, call);
          return Judged(verdict);
      }
    }
  }
}
