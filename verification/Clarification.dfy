/**
 * The clarification core: a pure state machine that asks a learner to pick from
 * a menu, gives up after a bounded number of irrelevant answers, and recognises
 * replayed events by a bounded list of recent event ids.
 */
module Clarification {
  import opened Prelude

  const CLARIFICATION_TTL_MS := 10 * 60 * 1000
  const MAX_CLARIFICATION_ATTEMPTS := 2
  const MAX_CLARIFICATION_MENU_RESETS := 1
  const MAX_CLARIFICATION_TTL_MS := 24 * 60 * 60 * 1000
  const MAX_CLARIFICATION_ATTEMPTS_CAP := 10
  const MAX_CLARIFICATION_MENU_RESETS_CAP := 5
  const MAX_CLARIFICATION_EVENT_HISTORY := 8

  datatype Limits = Limits(ttlMs: int, maxAttempts: int, maxMenuResets: int)

  datatype Phase = AwaitingChoice | ConsumedPhase

  datatype Choice = Progress | Schedule | Reschedule

  datatype Event = Event(eventId: Option<string>, userId: Option<int>)

  datatype State = State(
    phase: Phase,
    attempts: int,
    menuResets: int,
    version: int,
    createdAt: int,
    expiresAt: int,
    userId: Option<int>,
    lastEventId: Option<string>,
    recentEventIds: Option<seq<string>>,
    lastChoice: Option<Choice>,
    lastReplyText: Option<string>,
    lastDeliveryFailed: bool)

  function Min(a: int, b: int): int {
    if a < b then a else b
  }

  function Normalize(limits: Limits): (r: Limits)
    ensures 0 < r.ttlMs <= MAX_CLARIFICATION_TTL_MS
    ensures 0 <= r.maxAttempts <= MAX_CLARIFICATION_ATTEMPTS_CAP
    ensures 0 <= r.maxMenuResets <= MAX_CLARIFICATION_MENU_RESETS_CAP
    ensures 0 < limits.ttlMs <= 86_400_000 ==> r.ttlMs == limits.ttlMs
    ensures 0 <= limits.maxAttempts <= 10 ==> r.maxAttempts == limits.maxAttempts
    ensures 0 <= limits.maxMenuResets <= 5 ==> r.maxMenuResets == limits.maxMenuResets
    ensures limits.ttlMs <= 0 ==> r.ttlMs == 600_000
    ensures limits.maxAttempts < 0 ==> r.maxAttempts == 2
    ensures limits.maxMenuResets < 0 ==> r.maxMenuResets == 1
    ensures limits.ttlMs > 86_400_000 ==> r.ttlMs == 86_400_000
    ensures limits.maxAttempts > 10 ==> r.maxAttempts == 10
    ensures limits.maxMenuResets > 5 ==> r.maxMenuResets == 5
  {
    Limits(
      Min(if limits.ttlMs > 0 then limits.ttlMs else CLARIFICATION_TTL_MS, MAX_CLARIFICATION_TTL_MS),
      Min(if limits.maxAttempts >= 0 then limits.maxAttempts else MAX_CLARIFICATION_ATTEMPTS,
          MAX_CLARIFICATION_ATTEMPTS_CAP),
      Min(if limits.maxMenuResets >= 0 then limits.maxMenuResets else MAX_CLARIFICATION_MENU_RESETS,
          MAX_CLARIFICATION_MENU_RESETS_CAP))
  }

  /** `slice(-n)` for a positive `n`. */
  function LastOf(ids: seq<string>, n: nat): seq<string> {
    if |ids| <= n then ids else ids[|ids| - n..]
  }

  function AppendEventIdentity(recent: Option<seq<string>>, eventId: Option<string>): Option<seq<string>> {
    if Given(eventId) then
      Some(LastOf((if recent.Some? then recent.value else []) + [eventId.value], MAX_CLARIFICATION_EVENT_HISTORY))
    else recent
  }

  function Identified(s: State, eventId: Option<string>): State {
    s.(lastEventId := if Given(eventId) then eventId else s.lastEventId,
       recentEventIds := AppendEventIdentity(s.recentEventIds, eventId))
  }

  function WithReply(s: State, eventId: Option<string>, reply: string): State {
    Identified(s, eventId).(lastReplyText := Some(reply), lastDeliveryFailed := false)
  }

  // ----- the operations, under normalised limits -----------------------------------------

  function Begin(limits: Limits, event: Event, now: int, reply: string): State {
    State(AwaitingChoice, 0, 0, 1, now, now + Normalize(limits).ttlMs, event.userId,
          if Given(event.eventId) then event.eventId else None,
          AppendEventIdentity(None, event.eventId), None, Some(reply), false)
  }

  /** No state means the state must be cleared. */
  function RecordIrrelevant(limits: Limits, s: State, event: Event, now: int, reply: string): Option<State> {
    var l := Normalize(limits);
    if s.attempts < l.maxAttempts then
      Some(WithReply(
        s.(attempts := s.attempts + 1, version := s.version + 1, expiresAt := now + l.ttlMs), event.eventId, reply))
    else if s.menuResets < l.maxMenuResets then
      Some(WithReply(
        s.(attempts := 0, menuResets := s.menuResets + 1, version := s.version + 1, expiresAt := now + l.ttlMs),
        event.eventId, reply))
    else None
  }

  function Consume(limits: Limits, s: State, event: Event, now: int, choice: Option<Choice>): State {
    Identified(
      s.(phase := ConsumedPhase, version := s.version + 1, expiresAt := now + Normalize(limits).ttlMs), event.eventId)
    .(lastChoice := if choice.Some? then choice else s.lastChoice)
  }

  /** Nothing when the state is not for that event. */
  function FailDelivery(s: Option<State>, event: Event): Option<State> {
    if s.None? || s.value.lastEventId != event.eventId then None
    else Some(s.value.(version := s.value.version + 1, lastDeliveryFailed := true))
  }

  datatype Inspection =
    | Replayed(replyText: Option<string>)
    | StaleReply(replyText: Option<string>)
    | ExpiredState
    | IdentityReset
    | AlreadyConsumed(choice: Option<Choice>)
    | Proceed

  function Inspect(state: Option<State>, event: Event, now: int): Inspection {
    if state.None? then Proceed
    else
      var s := state.value;
      if s.expiresAt <= now then ExpiredState
      else if s.userId != event.userId then IdentityReset
      else if && Given(event.eventId) && s.lastEventId == event.eventId && !s.lastDeliveryFailed
              && (Given(s.lastReplyText) || s.phase.ConsumedPhase?) then
        Replayed(s.lastReplyText)
      else if && Given(event.eventId) && s.lastEventId != event.eventId
              && s.recentEventIds.Some? && event.eventId.value in s.recentEventIds.value then
        StaleReply(s.lastReplyText)
      else if s.phase.ConsumedPhase? then
        AlreadyConsumed(if s.lastDeliveryFailed && event.eventId == s.lastEventId then s.lastChoice else None)
      else Proceed
  }

  // ----- how many irrelevant answers ---------------------------------------------------------

  datatype Answer = Answer(event: Event, now: int, reply: string)

  /** The state after a run of irrelevant answers, or none once one of them cleared it. */
  function Irrelevants(limits: Limits, s: State, answers: seq<Answer>): Option<State> {
    if answers == [] then Some(s)
    else
      var before := Irrelevants(limits, s, answers[..|answers| - 1]);
      var a := answers[|answers| - 1];
      if before.None? then None else RecordIrrelevant(limits, before.value, a.event, a.now, a.reply)
  }

  /** How many more irrelevant answers get a reply. */
  function Patience(l: Limits, s: State): int {
    (l.maxMenuResets - s.menuResets) * (l.maxAttempts + 1) + (l.maxAttempts - s.attempts)
  }

  predicate CountersOk(l: Limits, s: State) {
    0 <= s.attempts <= l.maxAttempts && 0 <= s.menuResets <= l.maxMenuResets
  }

  lemma {:induction false} EachAnswerTakesOne(limits: Limits, s: State, event: Event, now: int, reply: string)
    requires CountersOk(Normalize(limits), s)
    ensures var l, next := Normalize(limits), RecordIrrelevant(limits, s, event, now, reply);
      && (next.None? <==> Patience(l, s) == 0)
      && (next.Some? ==>
            && CountersOk(l, next.value) && Patience(l, next.value) == Patience(l, s) - 1
            && next.value.version == s.version + 1)
  {
    var l := Normalize(limits);
    hide Normalize;
    hide WithReply;
    var rounds, width := l.maxMenuResets - s.menuResets, l.maxAttempts + 1;
    if rounds > 0 {
      assert rounds * width == (rounds - 1) * width + width;
      assert (rounds - 1) * width >= 0;
    }
    KeepsCounters(s, event.eventId, reply);
  }

  lemma {:induction false} KeepsCounters(s: State, eventId: Option<string>, reply: string)
    ensures forall t: State :: var w := WithReply(t, eventId, reply);
      w.attempts == t.attempts && w.menuResets == t.menuResets && w.version == t.version
  {
  }

  /**
   * From the start, exactly (maxAttempts + 1) * (maxMenuResets + 1) - 1 irrelevant
   * answers are replied to, whatever they are and whenever they come; the next
   * one clears the state. The version counts the replies.
   */
  lemma {:induction false} IrrelevantAnswersAreCounted(
      limits: Limits, first: Event, start: int, reply: string, answers: seq<Answer>)
    ensures var l, s := Normalize(limits), Irrelevants(limits, Begin(limits, first, start, reply), answers);
      && (s.Some? <==> |answers| <= (l.maxAttempts + 1) * (l.maxMenuResets + 1) - 1)
      && (s.Some? ==>
            && CountersOk(l, s.value) && s.value.version == |answers| + 1
            && Patience(l, s.value) == (l.maxAttempts + 1) * (l.maxMenuResets + 1) - 1 - |answers|)
  {
    var l, s := Normalize(limits), Begin(limits, first, start, reply);
    hide Normalize;
    hide Begin;
    hide RecordIrrelevant;
    if answers == [] {
      BeginHasAllPatience(limits, first, start, reply);
    } else {
      var front, a := answers[..|answers| - 1], answers[|answers| - 1];
      IrrelevantAnswersAreCounted(limits, first, start, reply, front);
      var before := Irrelevants(limits, s, front);
      if before.Some? {
        EachAnswerTakesOne(limits, before.value, a.event, a.now, a.reply);
      }
    }
  }

  lemma {:induction false} BeginHasAllPatience(limits: Limits, first: Event, start: int, reply: string)
    ensures var l, s := Normalize(limits), Begin(limits, first, start, reply);
      && CountersOk(l, s) && s.version == 1
      && Patience(l, s) == (l.maxAttempts + 1) * (l.maxMenuResets + 1) - 1 >= 0
  {
    var l := Normalize(limits);
    hide Normalize;
    var a, r := l.maxAttempts + 1, l.maxMenuResets;
    assert a * (r + 1) == r * a + a;
    assert r * a >= 0;
  }

  // ----- replays -------------------------------------------------------------------------------

  datatype Op =
    | Irrelevant(event: Event, now: int, reply: string)
    | Choose(event: Event, now: int, choice: Option<Choice>)
    | Fail(event: Event)

  /** A lifecycle: it begins, and ends when an irrelevant answer clears it. */
  datatype Life = Life(first: Event, start: int, reply: string, ops: seq<Op>)

  function Do(limits: Limits, s: State, op: Op): Option<State> {
    match op
    case Irrelevant(event, now, reply) => RecordIrrelevant(limits, s, event, now, reply)
    case Choose(event, now, choice) => Some(Consume(limits, s, event, now, choice))
    case Fail(event) => var failed := FailDelivery(Some(s), event); if failed.Some? then failed else Some(s)
  }

  function Live(limits: Limits, life: Life): Option<State>
    decreases |life.ops|
  {
    if life.ops == [] then Some(Begin(limits, life.first, life.start, life.reply))
    else
      var before := Live(limits, Before(life));
      if before.None? then None else Do(limits, before.value, life.ops[|life.ops| - 1])
  }

  function Before(life: Life): Life
    requires life.ops != []
  {
    life.(ops := life.ops[..|life.ops| - 1])
  }

  lemma {:induction false} DoRaisesVersion(limits: Limits, s: State, op: Op)
    requires Do(limits, s, op).Some?
    ensures var next := Do(limits, s, op).value;
      next.version == s.version + 1 || (next == s && op.Fail? && op.event.eventId != s.lastEventId)
  {
    hide Normalize;
  }

  /**
   * Versions strictly increase: of two moments of a lifecycle the later has the
   * higher version, unless nothing was written in between.
   */
  lemma {:induction false} VersionsStrictlyIncrease(limits: Limits, life: Life, k: nat)
    requires k <= |life.ops| && Live(limits, life).Some?
    ensures Live(limits, life.(ops := life.ops[..k])).Some?
    ensures var earlier, later := Live(limits, life.(ops := life.ops[..k])).value, Live(limits, life).value;
      earlier.version < later.version || earlier == later
    decreases |life.ops|
  {
    hide Do;
    if k == |life.ops| {
      assert life.ops[..k] == life.ops;
    } else {
      VersionsStrictlyIncrease(limits, Before(life), k);
      assert Before(life).ops[..k] == life.ops[..k];
      DoRaisesVersion(limits, Live(limits, Before(life)).value, life.ops[|life.ops| - 1]);
    }
  }

  /** When the state was last written by an answer, or begun. */
  function LastAnswerAt(life: Life): int
    decreases |life.ops|
  {
    if life.ops == [] then life.start
    else if life.ops[|life.ops| - 1].Fail? then LastAnswerAt(Before(life))
    else life.ops[|life.ops| - 1].now
  }

  /** A state lives for the configured time after its last answer; a failure does not renew it. */
  lemma {:induction false} ExpiryFollowsTheLastAnswer(limits: Limits, life: Life)
    requires Live(limits, life).Some?
    ensures Live(limits, life).value.expiresAt == LastAnswerAt(life) + Normalize(limits).ttlMs
    ensures Live(limits, life).value.createdAt == life.start
    decreases |life.ops|
  {
    hide Normalize;
    if life.ops != [] {
      ExpiryFollowsTheLastAnswer(limits, Before(life));
    }
  }

  function IdOf(eventId: Option<string>): seq<string> {
    if Given(eventId) then [eventId.value] else []
  }

  /** The ids of all events answered so far, in order. */
  function EventLog(life: Life): seq<string>
    decreases |life.ops|
  {
    if life.ops == [] then IdOf(life.first.eventId)
    else
      var op := life.ops[|life.ops| - 1];
      EventLog(Before(life)) + (if op.Fail? then [] else IdOf(op.event.eventId))
  }

  /** The id of the latest event answered. */
  function LatestId(life: Life): Option<string> {
    var log := EventLog(life);
    if log == [] then None else Some(log[|log| - 1])
  }

  /**
   * The delivery for the latest event answered has been reported failed, and no
   * canned reply has gone out since. A report for any other event is ignored.
   */
  predicate FailureStands(life: Life)
    decreases |life.ops|
  {
    && life.ops != []
    && match life.ops[|life.ops| - 1]
       case Irrelevant(_, _, _) => false
       case Choose(_, _, _) => FailureStands(Before(life))
       case Fail(event) => event.eventId == LatestId(Before(life)) || FailureStands(Before(life))
  }

  predicate RepliesGiven(life: Life) {
    life.reply != "" && forall k :: 0 <= k < |life.ops| && life.ops[k].Irrelevant? ==> life.ops[k].reply != ""
  }

  /** The state remembers the last eight event ids. */
  predicate Remembers(s: State, log: seq<string>) {
    if log == [] then s.lastEventId == None && s.recentEventIds == None
    else
      && s.lastEventId == Some(log[|log| - 1])
      && s.recentEventIds == Some(LastOf(log, MAX_CLARIFICATION_EVENT_HISTORY))
  }

  lemma {:induction false} LastOfAppend(log: seq<string>, id: string, n: nat)
    requires n > 0
    ensures LastOf(LastOf(log, n) + [id], n) == LastOf(log + [id], n)
  {
  }

  lemma {:induction false} IdentifiedRemembers(s: State, log: seq<string>, eventId: Option<string>)
    requires Remembers(s, log)
    ensures Remembers(Identified(s, eventId), log + IdOf(eventId))
  {
    if Given(eventId) {
      LastOfAppend(log, eventId.value, MAX_CLARIFICATION_EVENT_HISTORY);
      assert [] + [eventId.value] == [eventId.value];
    } else {
      assert log + IdOf(eventId) == log;
    }
  }

  lemma {:induction false} DoRemembers(limits: Limits, s: State, op: Op, log: seq<string>)
    requires Remembers(s, log) && Do(limits, s, op).Some?
    ensures Remembers(Do(limits, s, op).value, log + (if op.Fail? then [] else IdOf(op.event.eventId)))
    ensures Do(limits, s, op).value.userId == s.userId
  {
    hide Normalize;
    if op.Fail? {
      assert log + [] == log;
    } else {
      var next := Do(limits, s, op).value;
      IdentifiedRemembers(s, log, op.event.eventId);
      SameIdentity(s, op.event.eventId, next);
    }
  }

  /** `Remembers` looks only at the two identity fields. */
  lemma {:induction false} SameIdentity(s: State, eventId: Option<string>, next: State)
    requires next.lastEventId == Identified(s, eventId).lastEventId
    requires next.recentEventIds == Identified(s, eventId).recentEventIds
    ensures forall log :: Remembers(next, log) <==> Remembers(Identified(s, eventId), log)
  {
  }

  lemma {:induction false} LifeRemembers(limits: Limits, life: Life)
    requires Live(limits, life).Some?
    ensures Remembers(Live(limits, life).value, EventLog(life))
    ensures Live(limits, life).value.userId == life.first.userId
    decreases |life.ops|
  {
    if life.ops == [] {
      hide Normalize;
      assert [] + IdOf(life.first.eventId) == IdOf(life.first.eventId);
    } else {
      hide Do;
      hide Remembers;
      LifeRemembers(limits, Before(life));
      DoRemembers(limits, Live(limits, Before(life)).value, life.ops[|life.ops| - 1], EventLog(Before(life)));
    }
  }

  lemma {:induction false} FailureMark(limits: Limits, life: Life)
    requires Live(limits, life).Some?
    ensures Live(limits, life).value.lastDeliveryFailed <==> FailureStands(life)
    decreases |life.ops|
  {
    if life.ops != [] {
      var before := Before(life);
      hide Normalize;
      hide EventLog;
      hide LastOf;
      FailureMark(limits, before);
      LifeRemembers(limits, before);
    }
  }

  lemma {:induction false} ReplyIsGiven(limits: Limits, life: Life)
    requires Live(limits, life).Some? && RepliesGiven(life)
    ensures Given(Live(limits, life).value.lastReplyText)
    decreases |life.ops|
  {
    hide Normalize;
    if life.ops != [] {
      ReplyIsGiven(limits, Before(life));
    }
  }

  predicate Suppressed(i: Inspection) {
    i.Replayed? || i.StaleReply?
  }

  /**
   * While the state is unexpired, an event of the same user is suppressed exactly
   * when its id is among the last eight answered, unless it is the latest of them
   * and its delivery is known to have failed: as a replay if it is the latest, as
   * a stale reply otherwise.
   */
  lemma {:induction false} ExactlyTheRetainedEventsAreSuppressed(limits: Limits, life: Life, event: Event, now: int)
    requires Live(limits, life).Some? && RepliesGiven(life)
    requires now < Live(limits, life).value.expiresAt && event.userId == life.first.userId
    ensures var inspection := Inspect(Live(limits, life), event, now);
      var retained := LastOf(EventLog(life), MAX_CLARIFICATION_EVENT_HISTORY);
      && (Suppressed(inspection) <==>
            && Given(event.eventId) && event.eventId.value in retained
            && !(event.eventId == LatestId(life) && FailureStands(life)))
      && (inspection.Replayed? <==>
            Given(event.eventId) && event.eventId == LatestId(life) && !FailureStands(life))
  {
    hide Live;
    hide EventLog;
    hide RepliesGiven;
    hide FailureStands;
    LifeRemembers(limits, life);
    FailureMark(limits, life);
    ReplyIsGiven(limits, life);
  }

  /** The text of the last canned reply. */
  function LastReply(life: Life): string
    decreases |life.ops|
  {
    if life.ops == [] then life.reply
    else if life.ops[|life.ops| - 1].Irrelevant? then life.ops[|life.ops| - 1].reply
    else LastReply(Before(life))
  }

  predicate Chosen(life: Life) {
    exists k :: 0 <= k < |life.ops| && life.ops[k].Choose?
  }

  /** The last choice that was made out. */
  function LastChoice(life: Life): Option<Choice>
    decreases |life.ops|
  {
    if life.ops == [] then None
    else
      var op := life.ops[|life.ops| - 1];
      if op.Choose? && op.choice.Some? then op.choice else LastChoice(Before(life))
  }

  lemma {:induction false} LifeIsTold(limits: Limits, life: Life)
    requires Live(limits, life).Some?
    ensures var s := Live(limits, life).value;
      && s.lastReplyText == Some(LastReply(life)) && s.lastChoice == LastChoice(life)
      && (s.phase.ConsumedPhase? <==> Chosen(life))
    decreases |life.ops|
  {
    hide Normalize;
    if life.ops != [] {
      var n := |life.ops| - 1;
      var before := Before(life);
      LifeIsTold(limits, before);
      assert forall k :: 0 <= k < n ==> before.ops[k] == life.ops[k];
      assert Chosen(life) <==> Chosen(before) || life.ops[n].Choose?;
      hide Chosen;
    }
  }

  /**
   * How an event is judged, by what the lifecycle was told: too late, of somebody
   * else, a replay of the latest or of an earlier event, after a choice, or new.
   */
  function Judged(limits: Limits, life: Life, event: Event, now: int): Inspection {
    var latest := event.eventId == LatestId(life);
    if LastAnswerAt(life) + Normalize(limits).ttlMs <= now then ExpiredState
    else if life.first.userId != event.userId then IdentityReset
    else if Given(event.eventId) && latest && !FailureStands(life) && (LastReply(life) != "" || Chosen(life)) then
      Replayed(Some(LastReply(life)))
    else if Given(event.eventId) && !latest && event.eventId.value in LastOf(EventLog(life), 8) then
      StaleReply(Some(LastReply(life)))
    else if Chosen(life) then AlreadyConsumed(if FailureStands(life) && latest then LastChoice(life) else None)
    else Proceed
  }

  lemma {:induction false} EveryEventIsJudged(limits: Limits, life: Life, event: Event, now: int)
    requires Live(limits, life).Some?
    ensures Inspect(Live(limits, life), event, now) == Judged(limits, life, event, now)
    ensures Inspect(None, event, now) == Proceed
  {
    hide Live;
    hide Normalize;
    hide EventLog;
    hide FailureStands;
    hide LastReply;
    hide LastChoice;
    hide Chosen;
    hide LastAnswerAt;
    LifeRemembers(limits, life);
    FailureMark(limits, life);
    LifeIsTold(limits, life);
    ExpiryFollowsTheLastAnswer(limits, life);
  }

  /**
   * A failed delivery lets exactly the failed event through again: it goes ahead,
   * or hands back the choice it had made.
   */
  lemma {:induction false} FailedEventIsRetried(s: State, event: Event, now: int)
    requires FailDelivery(Some(s), event).Some? && now < s.expiresAt && event.userId == s.userId
    ensures var inspection := Inspect(FailDelivery(Some(s), event), event, now);
      inspection == if s.phase.ConsumedPhase? then AlreadyConsumed(s.lastChoice) else Proceed
  {
  }

  /**
   * Accepting a choice leaves the failure mark of an earlier delivery up. The
   * choice's own event is then recognised as a replay exactly when no mark was up;
   * otherwise its replay hands the choice out a second time.
   */
  lemma {:induction false} ReplayOfChoiceNeedsNoEarlierFailure(
      limits: Limits, s: State, event: Event, now: int, choice: Option<Choice>, later: int)
    requires Given(event.eventId) && event.userId == s.userId && later < now + Normalize(limits).ttlMs
    ensures var inspection := Inspect(Some(Consume(limits, s, event, now, choice)), event, later);
      && (Suppressed(inspection) <==> !s.lastDeliveryFailed)
      && (s.lastDeliveryFailed ==>
            inspection == AlreadyConsumed(if choice.Some? then choice else s.lastChoice))
  {
    hide Normalize;
  }

  // ----- reading a stored state back -----------------------------------------------------------

  predicate IdReads(id: string) {
    0 < |id| <= 255
  }

  /** The checks the Redis store makes on a state it reads. */
  predicate ReadsBack(s: State) {
    && 0 <= s.attempts <= MAX_CLARIFICATION_ATTEMPTS_CAP && 0 <= s.menuResets <= MAX_CLARIFICATION_MENU_RESETS_CAP
    && s.version >= 1 && s.createdAt < s.expiresAt <= s.createdAt + MAX_CLARIFICATION_TTL_MS
    && (s.userId.Some? ==> s.userId.value >= 1)
    && (s.lastEventId.Some? ==> IdReads(s.lastEventId.value))
    && (s.lastReplyText.Some? ==> 0 < |s.lastReplyText.value| <= 4000)
    && (s.recentEventIds.Some? ==>
          && |s.recentEventIds.value| <= MAX_CLARIFICATION_EVENT_HISTORY
          && forall k :: 0 <= k < |s.recentEventIds.value| ==> IdReads(s.recentEventIds.value[k]))
  }

  lemma {:induction false} CountersStayOk(limits: Limits, life: Life)
    requires Live(limits, life).Some?
    ensures CountersOk(Normalize(limits), Live(limits, life).value) && Live(limits, life).value.version >= 1
    decreases |life.ops|
  {
    hide Normalize;
    hide AppendEventIdentity;
    if life.ops == [] {
      BeginHasAllPatience(limits, life.first, life.start, life.reply);
    } else {
      CountersStayOk(limits, Before(life));
      var s, op := Live(limits, Before(life)).value, life.ops[|life.ops| - 1];
      if op.Irrelevant? {
        EachAnswerTakesOne(limits, s, op.event, op.now, op.reply);
      }
    }
  }

  lemma {:induction false} LoggedIdsAreGiven(life: Life, k: nat)
    requires k < |EventLog(life)|
    ensures EventLog(life)[k] != ""
    decreases |life.ops|
  {
    if life.ops != [] && k < |EventLog(Before(life))| {
      LoggedIdsAreGiven(Before(life), k);
    }
  }

  /** The state is a day old at the most when it expires, if it expires after it began. */
  predicate EndsWithinADay(limits: Limits, life: Life) {
    life.start < LastAnswerAt(life) + Normalize(limits).ttlMs <= life.start + 86_400_000
  }

  /** The last reply, the user and the ids remembered are of a size the store reads. */
  predicate SizesRead(life: Life) {
    && 1 <= |LastReply(life)| <= 4000 && (life.first.userId.Some? ==> life.first.userId.value >= 1)
    && forall id :: id in LastOf(EventLog(life), 8) ==> |id| <= 255
  }

  lemma {:induction false} RememberedIdsRead(s: State, life: Life)
    requires Remembers(s, EventLog(life))
    ensures (forall id :: id in LastOf(EventLog(life), 8) ==> |id| <= 255) <==>
      && (s.lastEventId.Some? ==> IdReads(s.lastEventId.value))
      && (s.recentEventIds.Some? ==>
            && |s.recentEventIds.value| <= MAX_CLARIFICATION_EVENT_HISTORY
            && forall k :: 0 <= k < |s.recentEventIds.value| ==> IdReads(s.recentEventIds.value[k]))
  {
    var log := EventLog(life);
    hide EventLog;
    var kept := LastOf(log, 8);
    forall k | 0 <= k < |kept|
      ensures kept[k] != ""
    {
      LoggedIdsAreGiven(life, k + |log| - |kept|);
      assert kept[k] == log[k + |log| - |kept|];
    }
    if log != [] {
      assert kept[|kept| - 1] == log[|log| - 1];
    }
  }

  /**
   * Every answer, irrelevant or a choice, renews the expiry but not the creation
   * time, and the store reads back at most a day between the two: whatever led to
   * it, a state can be read again exactly when its last answer came early enough
   * for its lifetime to end within a day of its beginning (and, should the clock
   * have gone back, after its beginning), and its texts are of a size to be read.
   */
  lemma {:induction false} RefreshedStateReadsBackWithinADay(limits: Limits, life: Life)
    requires Live(limits, life).Some?
    ensures ReadsBack(Live(limits, life).value) <==> EndsWithinADay(limits, life) && SizesRead(life)
  {
    var s := Live(limits, life).value;
    hide Live;
    hide LastAnswerAt;
    hide EventLog;
    hide LastReply;
    hide Remembers;
    hide LastOf;
    CountersStayOk(limits, life);
    ExpiryFollowsTheLastAnswer(limits, life);
    LifeIsTold(limits, life);
    LifeRemembers(limits, life);
    RememberedIdsRead(s, life);
    hide IdReads;
    hide Normalize;
  }

  /** Of any other state, however it came about: what is out of bounds is not read. */
  lemma {:induction false} OutOfBoundsIsNotRead(s: State)
    requires
      || s.attempts < 0 || s.attempts > 10 || s.menuResets < 0 || s.menuResets > 5 || s.version <= 0
      || (s.userId.Some? && s.userId.value <= 0) || (s.recentEventIds.Some? && |s.recentEventIds.value| > 8)
    ensures !ReadsBack(s)
  {
  }

  /**
   * Such states are reached: with a lifetime of more than half a day, a choice
   * made late, but before the state expires, leaves a state that cannot be read.
   */
  lemma {:induction false} LateChoiceCannotBeReadBack(
      limits: Limits, first: Event, start: int, reply: string, event: Event, choice: Option<Choice>)
    requires 2 * Normalize(limits).ttlMs > 86_400_001
    ensures var at := start + 86_400_001 - Normalize(limits).ttlMs;
      var life := Life(first, start, reply, [Choose(event, at, choice)]);
      && Live(limits, Before(life)).Some? && start <= at < Live(limits, Before(life)).value.expiresAt
      && Live(limits, life).Some? && !ReadsBack(Live(limits, life).value)
  {
    var at := start + 86_400_001 - Normalize(limits).ttlMs;
    var life := Life(first, start, reply, [Choose(event, at, choice)]);
    assert Before(life).ops == [];
    assert LastAnswerAt(life) == at;
    assert Live(limits, life).Some?;
    RefreshedStateReadsBackWithinADay(limits, life);
  }
}
