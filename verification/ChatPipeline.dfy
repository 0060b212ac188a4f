/**
 * One flush of the chat pipeline: reserve quota, load history, ask the agent,
 * send, and settle the quota, where every port and hook may throw.
 *
 * `Env` fixes what each collaborator will do; the method records the port calls
 * it makes. The two halves of the `try` block are methods that return early when
 * a collaborator throws; `Flush` puts them together with the `catch` block.
 */
module ChatPipeline {
  import opened Prelude
  import opened JsText

  datatype Reserved = ReserveThrows | Denied(conflict: bool, limit: int) | Allowed(usageDate: Option<string>)

  datatype Reply = Reply(text: string, skipDelivery: bool, clarification: bool, skipHistory: bool)

  datatype Answered = AgentThrows | Answered(reply: Reply)

  datatype Sent = SendThrows | Sent(delivered: bool, partial: bool, rateLimited: bool)

  /**
   * What every collaborator does when called; a hook that is not wired does not
   * throw. The hooks whose errors are swallowed on the spot are not listed.
   */
  datatype Env = Env(
    beforeReserveThrows: bool,
    reserve: Reserved,
    beforeHistoryThrows: bool,
    historyThrows: bool,
    beforeAgentThrows: bool,
    agent: Answered,
    onBeforeSendThrows: bool,
    beforeSendThrows: bool,
    send: Sent,
    markDeliveredThrows: bool,
    appendThrows: bool,
    afterSendThrows: bool,
    onAfterSendThrows: bool,
    ambiguityCheckThrows: bool)

  datatype PortCall =
    | Reserve | GetHistory | AskAgent | SendText | Refund | MarkDelivered | AppendTurn | MarkCompleted | OnError

  datatype Outcome = Delivered | QuotaDenied(limit: int) | Duplicate | RateLimited | NotConfirmed

  datatype Result = Returned(outcome: Outcome) | Threw

  // ----- what an environment amounts to --------------------------------------------

  /** A quota slot is taken: the key is given and the limiter names a usage date. */
  predicate SlotTaken(key: Option<string>, env: Env) {
    Given(key) && !env.beforeReserveThrows && env.reserve.Allowed? && Given(env.reserve.usageDate)
  }

  /** The reserve step lets the turn go on. */
  predicate PassesReserve(key: Option<string>, env: Env) {
    !env.beforeReserveThrows && (Given(key) ==> env.reserve.Allowed?)
  }

  predicate Sends(reply: Reply) {
    !reply.skipDelivery && Trim(reply.text) != ""
  }

  /** Nothing throws from the reserve step to the end of the send. */
  predicate ReachesVerdict(env: Env) {
    && !env.beforeHistoryThrows && !env.historyThrows && !env.beforeAgentThrows && env.agent.Answered?
    && (Sends(env.agent.reply) ==> !env.onBeforeSendThrows && !env.beforeSendThrows && env.send.Sent?)
  }

  predicate SaidDelivered(env: Env)
    requires ReachesVerdict(env)
  {
    env.agent.reply.skipDelivery || (Sends(env.agent.reply) && env.send.delivered)
  }

  predicate SaidPartial(env: Env)
    requires ReachesVerdict(env)
  {
    Sends(env.agent.reply) && env.send.partial
  }

  predicate SaidRateLimited(env: Env)
    requires ReachesVerdict(env)
  {
    Sends(env.agent.reply) && env.send.rateLimited
  }

  /** The turn gets as far as marking the delivery. */
  predicate ReachesMark(env: Env) {
    && ReachesVerdict(env) && !SaidRateLimited(env)
    && (SaidDelivered(env) || SaidPartial(env))
    && !env.agent.reply.clarification
  }

  /** The turn gets as far as appending to the history. */
  predicate ReachesAppend(key: Option<string>, env: Env) {
    ReachesMark(env) && !env.agent.reply.skipHistory && (Given(key) ==> !env.markDeliveredThrows)
  }

  /** The turn gets as far as completing the idempotency row. */
  predicate ReachesComplete(key: Option<string>, env: Env) {
    && ReachesMark(env) && Given(key) && !env.markDeliveredThrows
    && (env.agent.reply.skipHistory || !env.appendThrows)
  }

  /** What follows a delivered or partial send does not throw. */
  predicate Concludes(key: Option<string>, env: Env)
    requires ReachesVerdict(env)
  {
    if env.agent.reply.clarification then !env.afterSendThrows
    else
      && (Given(key) ==> !env.markDeliveredThrows) && (env.agent.reply.skipHistory || !env.appendThrows)
      && (SaidDelivered(env) ==> !env.afterSendThrows && !env.onAfterSendThrows)
  }

  /** Only part of the reply went out and the bookkeeping after it fails. */
  predicate PartialThenFails(env: Env) {
    && ReachesMark(env) && !SaidDelivered(env)
    && (env.markDeliveredThrows || (!env.agent.reply.skipHistory && env.appendThrows))
  }

  predicate AsksHistory(key: Option<string>, env: Env) {
    PassesReserve(key, env) && !env.beforeHistoryThrows
  }

  predicate AsksAgent(key: Option<string>, env: Env) {
    AsksHistory(key, env) && !env.historyThrows && !env.beforeAgentThrows
  }

  predicate AsksSend(key: Option<string>, env: Env) {
    && AsksAgent(key, env) && env.agent.Answered? && Sends(env.agent.reply)
    && !env.onBeforeSendThrows && !env.beforeSendThrows
  }

  // ----- traces -----------------------------------------------------------------------

  /** How often `a` was called. */
  function Times(trace: seq<PortCall>, a: PortCall): nat {
    if trace == [] then 0
    else Times(trace[..|trace| - 1], a) + (if trace[|trace| - 1] == a then 1 else 0)
  }

  /** Every `b` in the trace comes after some `a`. */
  predicate Precedes(trace: seq<PortCall>, a: PortCall, b: PortCall) {
    if trace == [] then true
    else
      var before := trace[..|trace| - 1];
      Precedes(before, a, b) && (trace[|trace| - 1] == b ==> Times(before, a) > 0)
  }

  /** A port call, on the record. */
  function Then(trace: seq<PortCall>, next: PortCall): (r: seq<PortCall>)
    ensures forall a :: Times(r, a) == Times(trace, a) + (if next == a then 1 else 0)
    ensures forall a, b :: Precedes(r, a, b) <==> Precedes(trace, a, b) && (next == b ==> Times(trace, a) > 0)
  {
    assert (trace + [next])[..|trace|] == trace;
    trace + [next]
  }

  // ----- the method ---------------------------------------------------------------------

  /** The ports of the first half are each called exactly if the turn gets there, in their order. */
  predicate Conversed(key: Option<string>, env: Env, trace: seq<PortCall>) {
    && Times(trace, Reserve) == (if !env.beforeReserveThrows && Given(key) then 1 else 0)
    && Times(trace, GetHistory) == (if AsksHistory(key, env) then 1 else 0)
    && Times(trace, AskAgent) == (if AsksAgent(key, env) then 1 else 0)
    && Times(trace, SendText) == (if AsksSend(key, env) then 1 else 0)
    && (Given(key) ==> Precedes(trace, Reserve, GetHistory))
    && Precedes(trace, GetHistory, AskAgent) && Precedes(trace, AskAgent, SendText)
  }

  /** No settling call has been made, and at most one send. */
  predicate Unsettled(trace: seq<PortCall>) {
    && Times(trace, Refund) == Times(trace, MarkDelivered) == Times(trace, AppendTurn) == 0
    && Times(trace, MarkCompleted) == Times(trace, OnError) == 0 && Times(trace, SendText) <= 1
    && Precedes(trace, MarkDelivered, AppendTurn) && Precedes(trace, MarkDelivered, MarkCompleted)
    && Precedes(trace, AppendTurn, MarkCompleted)
  }

  /** How the first half of the `try` block ends. */
  datatype Turn =
    | Raised
    | Rejected(outcome: Outcome)
    | Verdict(delivered: bool, partial: bool, rateLimited: bool)

  /** From the reserve step to the verdict of the send. */
  method Converse(key: Option<string>, env: Env) returns (turn: Turn, usageDate: Option<string>, trace: seq<PortCall>)
    ensures Unsettled(trace) && Conversed(key, env, trace)
    ensures turn.Rejected? <==> !env.beforeReserveThrows && Given(key) && env.reserve.Denied?
    ensures turn.Rejected? ==>
      trace == [Reserve] && turn.outcome == if env.reserve.conflict then Duplicate else QuotaDenied(env.reserve.limit)
    ensures turn.Verdict? <==> PassesReserve(key, env) && ReachesVerdict(env)
    ensures turn.Verdict? ==> Times(trace, SendText) == if Sends(env.agent.reply) then 1 else 0
    ensures turn.Verdict? ==> turn == Verdict(SaidDelivered(env), SaidPartial(env), SaidRateLimited(env))
    ensures !turn.Rejected? ==> (Given(key) && Given(usageDate) <==> SlotTaken(key, env))
  {
    hide Times;
    hide Precedes;
    hide Then;
    hide Trim;
    NothingYet();
    trace, usageDate := [], None;
    if env.beforeReserveThrows {
      return Raised, None, trace;
    }
    if Given(key) {
      trace := [Reserve];
      OnlyReserve();
      match env.reserve {
        case ReserveThrows => return Raised, None, trace;
        case Denied(conflict, limit) =>
          return Rejected(if conflict then Duplicate else QuotaDenied(limit)), None, trace;
        case Allowed(date) => usageDate := date;
      }
    }
    if env.beforeHistoryThrows {
      return Raised, usageDate, trace;
    }
    trace := Then(trace, GetHistory);
    if env.historyThrows || env.beforeAgentThrows {
      return Raised, usageDate, trace;
    }
    trace := Then(trace, AskAgent);
    if env.agent.AgentThrows? {
      return Raised, usageDate, trace;
    }
    if env.agent.reply.skipDelivery {
      return Verdict(true, false, false), usageDate, trace;
    }
    if Trim(env.agent.reply.text) == "" {
      return Verdict(false, false, false), usageDate, trace;
    }
    if env.onBeforeSendThrows || env.beforeSendThrows {
      return Raised, usageDate, trace;
    }
    trace := Then(trace, SendText);
    if env.send.SendThrows? {
      return Raised, usageDate, trace;
    }
    turn := Verdict(env.send.delivered, env.send.partial, env.send.rateLimited);
  }

  /** From the verdict to the end of the `try` block; no outcome means it threw. */
  method Settle(key: Option<string>, env: Env, slot: bool, start: seq<PortCall>)
    returns (outcome: Option<Outcome>, refunded: bool, trace: seq<PortCall>)
    requires ReachesVerdict(env) && Unsettled(start) && Conversed(key, env, start)
    requires slot ==> Given(key)
    ensures Conversed(key, env, trace)
    ensures Times(trace, Refund) == if refunded then 1 else 0
    ensures refunded <==> slot && !ReachesMark(env)
    ensures Times(trace, MarkDelivered) == if ReachesMark(env) && Given(key) then 1 else 0
    ensures Times(trace, OnError) == if outcome == Some(NotConfirmed) then 1 else 0
    ensures Times(trace, AppendTurn) == if ReachesAppend(key, env) then 1 else 0
    ensures Times(trace, MarkCompleted) == if ReachesComplete(key, env) then 1 else 0
    ensures !env.agent.reply.skipHistory ==> Precedes(trace, AppendTurn, MarkCompleted)
    ensures Given(key) ==> Precedes(trace, MarkDelivered, AppendTurn)
    ensures Precedes(trace, MarkDelivered, MarkCompleted)
    ensures Given(key) ==> (outcome.None? && !SaidDelivered(env) && ReachesMark(env) <==> PartialThenFails(env))
    ensures outcome == Some(RateLimited) <==> SaidRateLimited(env)
    ensures outcome == Some(NotConfirmed) <==> !SaidRateLimited(env) && !SaidDelivered(env) && !SaidPartial(env)
    ensures outcome == Some(Delivered) <==>
      !SaidRateLimited(env) && (SaidDelivered(env) || SaidPartial(env)) && Concludes(key, env)
    ensures outcome.Some? ==> outcome.value.RateLimited? || outcome.value.NotConfirmed? || outcome.value.Delivered?
  {
    hide Times;
    hide Precedes;
    hide Then;
    hide Trim;
    hide AsksHistory;
    hide AsksAgent;
    hide AsksSend;
    var reply := env.agent.reply;
    trace, refunded := start, false;
    var rateLimited, delivered, partial := SaidRateLimited(env), SaidDelivered(env), SaidPartial(env);
    if rateLimited || (!delivered && !partial) {
      if slot {
        refunded, trace := true, Then(trace, Refund);
      }
      if rateLimited {
        return Some(RateLimited), refunded, trace;
      }
      trace := Then(trace, OnError);
      return Some(NotConfirmed), refunded, trace;
    }
    if reply.clarification {
      if slot {
        refunded, trace := true, Then(trace, Refund);
      }
      return if env.afterSendThrows then None else Some(Delivered), refunded, trace;
    }
    if Given(key) {
      trace := Then(trace, MarkDelivered);
      if env.markDeliveredThrows {
        return None, refunded, trace;
      }
    }
    if !reply.skipHistory {
      trace := Then(trace, AppendTurn);
      if env.appendThrows {
        return None, refunded, trace;
      }
    }
    if Given(key) {
      trace := Then(trace, MarkCompleted);
    }
    outcome := if delivered && (env.afterSendThrows || env.onAfterSendThrows) then None else Some(Delivered);
  }

  /**
   * For every combination of throws: at most one refund, and only of a slot that
   * was taken. A taken slot is both refunded and marked exactly when a partial
   * send's bookkeeping fails, and neither exactly when the turn fails before a
   * verdict and classifying that error fails too; otherwise exactly one of the
   * two happens. History is appended only after the delivery was marked, and the
   * row is completed only after that. The error hook is called once, exactly when
   * the delivery was not confirmed or an error came before it.
   */
  method Flush(key: Option<string>, env: Env) returns (result: Result, trace: seq<PortCall>)
    ensures Times(trace, Refund) <= 1 && Times(trace, MarkDelivered) <= 1
    ensures Conversed(key, env, trace)
    ensures Times(trace, OnError)
      == if result == Returned(NotConfirmed)
            || (&& result.Threw? && !env.ambiguityCheckThrows
                && !(PassesReserve(key, env) && ReachesVerdict(env) && SaidDelivered(env))) then 1 else 0
    ensures Times(trace, Refund) > 0 ==> SlotTaken(key, env)
    ensures SlotTaken(key, env) ==> (Times(trace, MarkDelivered) == 1 <==> ReachesMark(env))
    ensures SlotTaken(key, env) ==>
      (Times(trace, Refund) + Times(trace, MarkDelivered) == 2 <==> PartialThenFails(env) && !env.ambiguityCheckThrows)
    ensures SlotTaken(key, env) ==>
      (Times(trace, Refund) + Times(trace, MarkDelivered) == 0 <==> !ReachesVerdict(env) && env.ambiguityCheckThrows)
    ensures Given(key) ==> Precedes(trace, MarkDelivered, AppendTurn)
    ensures Precedes(trace, MarkDelivered, MarkCompleted)
    ensures env.agent.Answered? && !env.agent.reply.skipHistory ==> Precedes(trace, AppendTurn, MarkCompleted)
    ensures Times(trace, AppendTurn) == if PassesReserve(key, env) && ReachesAppend(key, env) then 1 else 0
    ensures Times(trace, MarkCompleted) == if PassesReserve(key, env) && ReachesComplete(key, env) then 1 else 0
    ensures result == Returned(RateLimited) <==> PassesReserve(key, env) && ReachesVerdict(env) && SaidRateLimited(env)
    ensures result == Returned(NotConfirmed) <==>
      PassesReserve(key, env) && ReachesVerdict(env) && !SaidRateLimited(env) && !SaidDelivered(env) && !SaidPartial(env)
    ensures result == Returned(Delivered) <==>
      && PassesReserve(key, env) && ReachesVerdict(env) && !SaidRateLimited(env)
      && (SaidDelivered(env) || SaidPartial(env)) && Concludes(key, env)
    ensures !env.beforeReserveThrows && Given(key) && env.reserve.Denied? ==>
      && trace == [Reserve]
      && result == Returned(if env.reserve.conflict then Duplicate else QuotaDenied(env.reserve.limit))
  {
    hide Times;
    hide Precedes;
    hide Then;
    hide Trim;
    hide AsksHistory;
    hide AsksAgent;
    hide AsksSend;
    var turn, usageDate;
    turn, usageDate, trace := Converse(key, env);
    if turn.Rejected? {
      OnlyReserve();
      return Returned(turn.outcome), trace;
    }
    var slot := Given(key) && Given(usageDate);
    var delivered, refunded := false, false;
    if turn.Verdict? {
      var outcome;
      outcome, refunded, trace := Settle(key, env, slot, trace);
      if outcome.Some? {
        return Returned(outcome.value), trace;
      }
      delivered := turn.delivered;
    }

    // the catch block: an error while classifying the error escapes at once
    if env.ambiguityCheckThrows {
      return Threw, trace;
    }
    if !delivered && slot && !refunded {
      trace := Then(trace, Refund);
    }
    if !delivered {
      trace := Then(trace, OnError);
    }
    result := Threw;
  }

  lemma {:induction false} NothingYet()
    ensures forall a :: Times([], a) == 0
    ensures forall a, b :: Precedes([], a, b)
  {
  }

  lemma {:induction false} OnlyReserve()
    ensures forall a :: Times([Reserve], a) == if a == Reserve then 1 else 0
    ensures forall a, b :: b != Reserve ==> Precedes([Reserve], a, b)
  {
    assert [Reserve][..0] == [];
  }

  // ----- the outbound adapter ---------------------------------------------------------------

  datatype DeliveryOutcome = OutcomeSent | OutcomeRateLimited | OutcomeAmbiguous | OutcomeNotSent | NoOutcome

  function AdapterSend(outcome: DeliveryOutcome): Sent {
    match outcome
    case OutcomeRateLimited => Sent(false, false, true)
    case OutcomeAmbiguous => Sent(false, false, false)
    case OutcomeNotSent => Sent(false, false, false)
    case _ => Sent(true, false, false)
  }

  /** Behind the shipped adapter a send is never partial and never both delivered and rate limited. */
  lemma {:induction false} AdapterNeverSplits(env: Env, outcome: DeliveryOutcome)
    requires env.send == AdapterSend(outcome)
    ensures !PartialThenFails(env)
    ensures ReachesVerdict(env) ==> !(SaidDelivered(env) && SaidRateLimited(env)) && !SaidPartial(env)
  {
  }

  /**
   * A send counts as delivered exactly if nothing is said against it, and as rate
   * limited exactly if that is said; what may or may not have gone out does not
   * count.
   */
  lemma {:induction false} AdapterDeliversIff(outcome: DeliveryOutcome)
    ensures AdapterSend(outcome).delivered <==> outcome in {OutcomeSent, NoOutcome}
    ensures AdapterSend(outcome).rateLimited <==> outcome == OutcomeRateLimited
    ensures !AdapterSend(outcome).partial
  {
  }

  // ----- capping the user's text ---------------------------------------------------------------

  const NEWLINE: string := "\n"

  function Lines(parts: seq<string>): string {
    Join(parts, NEWLINE)
  }

  function Cut(s: string, maxChars: nat): string {
    if |s| <= maxChars then s else s[..maxChars]
  }

  /** Adding a part adds a separator, except to nothing. */
  lemma {:induction false} LinesAppend(parts: seq<string>, part: string)
    ensures Lines(parts + [part]) == if parts == [] then part else Lines(parts) + NEWLINE + part
  {
    if |parts| >= 2 {
      assert (parts + [part])[1..] == parts[1..] + [part];
      LinesAppend(parts[1..], part);
      var a, b := parts[0] + NEWLINE, Lines(parts[1..]);
      assert a + (b + NEWLINE + part) == (a + b) + NEWLINE + part;
    } else if |parts| == 1 {
      assert (parts + [part])[1..] == [part];
      assert Lines([part]) == part && Lines(parts) == parts[0];
    } else {
      assert parts + [part] == [part];
    }
  }

  /** The lines of the first parts are where the lines of all parts begin. */
  lemma {:induction false} LinesPrefix(parts: seq<string>, n: nat)
    requires n <= |parts|
    ensures Lines(parts[..n]) <= Lines(parts)
    decreases |parts| - n
  {
    if n == |parts| {
      assert parts[..n] == parts;
    } else {
      LinesPrefix(parts, n + 1);
      assert parts[..n + 1] == parts[..n] + [parts[n]];
      LinesAppend(parts[..n], parts[n]);
      assert Lines(parts[..n]) <= Lines(parts[..n + 1]);
    }
  }

  lemma {:induction false} CutIsPrefix(short: string, long: string, maxChars: nat)
    requires short <= long && |short| == maxChars
    ensures Cut(long, maxChars) == short
  {
  }

  /**
   * Joining the capped parts gives the joined input cut to the cap; every capped
   * part but the last is whole, and the last is where its part begins.
   */
  method CapUserTextParts(parts: seq<string>, maxChars: nat) returns (bounded: seq<string>)
    ensures Lines(bounded) == Cut(Lines(parts), maxChars)
    ensures |bounded| <= |parts|
    ensures forall i :: 0 <= i < |bounded| - 1 ==> bounded[i] == parts[i]
    ensures bounded != [] ==> bounded[|bounded| - 1] <= parts[|bounded| - 1]
  {
    hide Join;
    if |Lines(parts)| <= maxChars {
      return parts;
    }
    bounded := [];
    var remaining: int := maxChars;
    assert Lines([]) == "" by { EmptyLines(); }
    LinesPrefix(parts, 0);
    var index := 0;
    while index < |parts|
      invariant 0 <= index <= |parts|
      invariant bounded == parts[..index]
      invariant remaining == maxChars - |Lines(bounded)| >= 0
    {
      var separator := if index > 0 then 1 else 0;
      var available := remaining - separator;
      LinesPrefix(parts, index);
      if available < 0 {
        CutIsPrefix(Lines(bounded), Lines(parts), maxChars);
        break;
      }
      LinesPrefix(parts, index + 1);
      assert parts[..index + 1] == parts[..index] + [parts[index]];
      LinesAppend(parts[..index], parts[index]);
      var clipped := Cut(parts[index], available);
      LinesAppend(bounded, clipped);
      bounded := bounded + [clipped];
      remaining := remaining - separator - |clipped|;
      if |clipped| < |parts[index]| {
        CutIsPrefix(Lines(bounded), Lines(parts), maxChars);
        break;
      }
      index := index + 1;
    }
    assert parts[..|parts|] == parts;
  }

  lemma {:induction false} EmptyLines()
    ensures Lines([]) == ""
  {
  }

  /**
   * What the agent is given: the merged text within the limit, and the texts it
   * was merged from, which join to exactly that text unless others were supplied.
   */
  method AgentText(texts: seq<string>, supplied: Option<seq<string>>, maxChars: nat)
    returns (mergedText: string, userTextParts: seq<string>)
    ensures mergedText == Cut(Lines(texts), maxChars)
    ensures supplied.None? ==> Lines(userTextParts) == mergedText
    ensures |Lines(userTextParts)| <= |mergedText|
  {
    hide Join;
    mergedText := Cut(Lines(texts), maxChars);
    userTextParts := CapUserTextParts(if supplied.Some? then supplied.value else texts, |mergedText|);
  }
}
