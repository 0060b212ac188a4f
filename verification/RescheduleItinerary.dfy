/**
 * Which ports a confirm call asks, and in which order. Over every run, the steps a
 * call has made up to where it is are exactly those that lead there, given what is
 * wired and what it was told.
 */
module RescheduleItinerary {
  import opened Prelude
  import opened RescheduleStore
  import opened RescheduleProtocol
  import opened RescheduleBudget
  import opened RescheduleAnswers

  datatype Port =
    | StatePort
    | RowPort
    | ReplayPort
    | BudgetPort
    | AttemptPort
    | BeginPort
    | CalendarPort
    | RecordPort
    | CleanupPort
    | ClearPort
    | RefundPort
    | ReleasePort

  /** The port a step asks on behalf of call `id`, answered or not. */
  function AskedBy(step: Step, id: nat): seq<Port> {
    match step
    case ReadState(i, _, _) => if i == id then [StatePort] else []
    case TakeRow(i, _, _, _) => if i == id then [RowPort] else []
    case FindReplay(i, _) => if i == id then [ReplayPort] else []
    case ConsumeBudget(i, _) => if i == id then [BudgetPort] else []
    case FindAttempt(i, _) => if i == id then [AttemptPort] else []
    case BeginAttempt(i, _) => if i == id then [BeginPort] else []
    case CalendarWrite(i, _) => if i == id then [CalendarPort] else []
    case ConfirmAttempt(i, _) => if i == id then [RecordPort] else []
    case Cleanup(i, _, _) => if i == id then [CleanupPort] else []
    case ClearAttempt(i, _) => if i == id then [ClearPort] else []
    case RefundBudget(i, _) => if i == id then [RefundPort] else []
    case ReleaseRow(i, _, _) => if i == id then [ReleasePort] else []
    case _ => []
  }

  function AskedIn(run: seq<Step>, id: nat): seq<Port> {
    if run == [] then [] else AskedIn(run[..|run| - 1], id) + AskedBy(run[|run| - 1], id)
  }

  // ----- the way through a confirm ---------------------------------------------------------

  function When(condition: bool, ports: seq<Port>): seq<Port> {
    if condition then ports else []
  }

  /** Its attempt is recorded: there is a store for that, and a nonce to record it under. */
  predicate Tracked(cfg: Config, c: Call)
    requires c.claim.Some?
  {
    cfg.attemptStore && Filled(if c.claim.value.record.nonce.Some? then c.claim.value.record.nonce else c.args.token)
  }

  /** No row was had: an earlier outcome is looked for, if the call names one. */
  function UpToMiss(cfg: Config, c: Call): seq<Port> {
    [StatePort, RowPort] + When(cfg.attemptStore && Filled(c.args.token), [ReplayPort])
  }

  function UpToCharge(cfg: Config): seq<Port> {
    [StatePort, RowPort] + When(cfg.consumeHook, [BudgetPort])
  }

  function UpToWrite(cfg: Config, c: Call): seq<Port>
    requires c.claim.Some?
  {
    UpToCharge(cfg) + When(Tracked(cfg, c), [AttemptPort, BeginPort]) + [CalendarPort]
  }

  function UpToRecord(cfg: Config, c: Call): seq<Port>
    requires c.claim.Some?
  {
    UpToWrite(cfg, c) + When(Tracked(cfg, c), [RecordPort])
  }

  function UpToClear(cfg: Config, c: Call): seq<Port>
    requires c.claim.Some?
  {
    UpToWrite(cfg, c) + When(Tracked(cfg, c), [ClearPort])
  }

  /** Up to giving the row back. */
  function UpToRelease(cfg: Config, c: Call, past: Past): seq<Port>
    requires c.claim.Some?
  {
    if !Complete(cfg, c.claim.value.record) then [StatePort, RowPort]
    else if past.declined then [StatePort, RowPort, BudgetPort]
    else if past.inDoubt then UpToCharge(cfg) + [AttemptPort]
    else UpToClear(cfg, c) + When(cfg.refundHook, [RefundPort])
  }

  /** Up to the end. A commit that could not be recorded is not cleaned up after. */
  predicate Through(cfg: Config, c: Call, past: Past, asked: seq<Port>) {
    if !Acceptable(cfg, c.args) then asked == []
    else if c.claim.None? then
      if past.replay.Some? then cfg.attemptStore && Filled(c.args.token) && asked == UpToMiss(cfg, c)
      else asked == UpToMiss(cfg, c) + [StatePort] || (asked == [StatePort] && past.sight == Some(Outdated))
    else if past.write.Some? && past.write.value.WriteOk? then
      || asked == UpToRecord(cfg, c) + [CleanupPort]
      || (past.unrecorded && Tracked(cfg, c) && asked == UpToRecord(cfg, c))
    else asked == UpToRelease(cfg, c, past) + [ReleasePort]
  }

  predicate GoesOn(past: Past) {
    past.sight.Some? && past.sight != Some(Outdated)
  }

  /** Who has seen at first that the request has expired goes no further. */
  predicate OnCourse(cfg: Config, c: Call, past: Past, asked: seq<Port>) {
    match c.pc
    case CheckingState => asked == []
    case Taking => asked == [StatePort] && GoesOn(past)
    case Replaying => asked == [StatePort, RowPort] && cfg.attemptStore && Filled(c.args.token) && GoesOn(past)
    case RecheckingState => asked == UpToMiss(cfg, c) && GoesOn(past)
    case Charging => asked == [StatePort, RowPort] && cfg.consumeHook && GoesOn(past)
    case LookingUp => c.claim.Some? && Tracked(cfg, c) && asked == UpToCharge(cfg) && GoesOn(past)
    case Beginning => c.claim.Some? && Tracked(cfg, c) && asked == UpToCharge(cfg) + [AttemptPort] && GoesOn(past)
    case Writing => c.claim.Some? && asked + [CalendarPort] == UpToWrite(cfg, c) && GoesOn(past)
    case Recording(_) => c.claim.Some? && Tracked(cfg, c) && asked == UpToWrite(cfg, c) && GoesOn(past)
    case CleaningUp(_) => c.claim.Some? && asked == UpToRecord(cfg, c) && GoesOn(past)
    case Clearing(_) => c.claim.Some? && Tracked(cfg, c) && asked == UpToWrite(cfg, c) && GoesOn(past)
    case Refunding(_) => c.claim.Some? && cfg.refundHook && asked == UpToClear(cfg, c) && GoesOn(past)
    case Releasing(_, _) =>
      && Acceptable(cfg, c.args) && c.claim.Some? && asked == UpToRelease(cfg, c, past) && GoesOn(past)
      && (past.write.Some? ==> past.write.value.WriteThrew?)
    case Returned(_) => Through(cfg, c, past, asked) && (c.claim.Some? ==> GoesOn(past))
    case Threw => true
  }

  // ----- step by step ----------------------------------------------------------------------

  lemma {:induction false} TrackedIff(cfg: Config, c: Call)
    requires c.claim.Some?
    ensures UsesAttempts(cfg, c) <==> Tracked(cfg, c)
  {
  }

  lemma {:induction false} ReadStateCourse(
      cfg: Config, s: State, id: nat, now: int, fault: Fault, past: Past, asked: seq<Port>)
    requires WellFormed(s.store) && id in s.calls
    requires Fits(cfg, s.calls[id], past) && OnCourse(cfg, s.calls[id], past, asked)
    requires s.calls[id].pc.CheckingState? || s.calls[id].pc.RecheckingState?
    ensures OnCourse(cfg, StepReadState(cfg, s, id, now, fault).calls[id],
                     Told(s, ReadState(id, now, fault), id, past), asked + [StatePort])
  {
    hide Acceptable;
    hide GetPendingState;
    hide WellFormed;
    ReadersAndCancellersAreFenced(s.store, s.calls[id].args.externalId, None, now);
  }

  lemma {:induction false} TakeCourse(
      cfg: Config, s: State, id: nat, now: int, lease: string, fault: Fault, past: Past, asked: seq<Port>)
    requires id in s.calls && Fits(cfg, s.calls[id], past) && OnCourse(cfg, s.calls[id], past, asked)
    requires s.calls[id].pc.Taking?
    ensures OnCourse(cfg, StepTake(cfg, s, id, now, lease, fault).calls[id], past, asked + [RowPort])
  {
    hide Acceptable;
    hide TakeValid;
    hide BindingOf;
  }

  lemma {:induction false} ReplayCourse(cfg: Config, s: State, id: nat, fault: Fault, past: Past, asked: seq<Port>)
    requires id in s.calls && Fits(cfg, s.calls[id], past) && OnCourse(cfg, s.calls[id], past, asked)
    requires s.calls[id].pc.Replaying? && s.calls[id].args.token.Some?
    ensures OnCourse(cfg, StepFindReplay(s, id, fault).calls[id],
                     Told(s, FindReplay(id, fault), id, past), asked + [ReplayPort])
  {
    hide Acceptable;
  }

  lemma {:induction false} ConsumeCourse(
      cfg: Config, s: State, id: nat, charge: ChargeResult, past: Past, asked: seq<Port>)
    requires Claimed(s, id) && Fits(cfg, s.calls[id], past) && OnCourse(cfg, s.calls[id], past, asked)
    requires s.calls[id].pc.Charging?
    ensures OnCourse(cfg, StepConsume(cfg, s, id, charge).calls[id],
                     Told(s, ConsumeBudget(id, charge), id, past), asked + [BudgetPort])
  {
    hide StepConsume;
    hide Acceptable;
    hide Complete;
    ConsumeGoesOn(cfg, s, id, charge);
  }

  lemma {:induction false} SameTracked(cfg: Config, c: Call, c': Call)
    requires c.claim.Some? && c'.claim == c.claim && c'.args == c.args
    ensures Tracked(cfg, c') == Tracked(cfg, c)
  {
  }

  lemma {:induction false} FindAttemptCourse(cfg: Config, s: State, id: nat, fault: Fault, past: Past, asked: seq<Port>)
    requires Claimed(s, id) && AttemptNonce(s.calls[id]).Some?
    requires Fits(cfg, s.calls[id], past) && OnCourse(cfg, s.calls[id], past, asked) && s.calls[id].pc.LookingUp?
    ensures OnCourse(cfg, StepFindAttempt(s, id, fault).calls[id],
                     Told(s, FindAttempt(id, fault), id, past), asked + [AttemptPort])
  {
    hide Acceptable;
    hide Complete;
  }

  lemma {:induction false} BeginAttemptCourse(
      cfg: Config, s: State, id: nat, fault: Fault, past: Past, asked: seq<Port>)
    requires Claimed(s, id) && AttemptNonce(s.calls[id]).Some?
    requires OnCourse(cfg, s.calls[id], past, asked) && s.calls[id].pc.Beginning?
    ensures OnCourse(cfg, StepBeginAttempt(s, id, fault).calls[id], past, asked + [BeginPort])
  {
    assert asked + [BeginPort] == UpToCharge(cfg) + [AttemptPort, BeginPort];
  }

  lemma {:induction false} WriteCourse(cfg: Config, s: State, id: nat, write: WriteResult, past: Past, asked: seq<Port>)
    requires Claimed(s, id) && s.calls[id].claim.value.record.nonce.Some?
    requires Fits(cfg, s.calls[id], past) && OnCourse(cfg, s.calls[id], past, asked) && s.calls[id].pc.Writing?
    ensures OnCourse(cfg, StepWrite(cfg, s, id, write).calls[id],
                     Told(s, CalendarWrite(id, write), id, past), asked + [CalendarPort])
  {
    hide Acceptable;
    hide Complete;
    hide UsesAttempts;
    hide Tracked;
    TrackedIff(cfg, s.calls[id]);
    SameTracked(cfg, s.calls[id], StepWrite(cfg, s, id, write).calls[id]);
  }

  lemma {:induction false} ConfirmAttemptCourse(
      cfg: Config, s: State, id: nat, fault: Fault, past: Past, asked: seq<Port>)
    requires Claimed(s, id) && AttemptNonce(s.calls[id]).Some?
    requires Fits(cfg, s.calls[id], past) && OnCourse(cfg, s.calls[id], past, asked) && s.calls[id].pc.Recording?
    ensures OnCourse(cfg, StepConfirmAttempt(s, id, fault).calls[id],
                     Told(s, ConfirmAttempt(id, fault), id, past), asked + [RecordPort])
  {
    hide Acceptable;
    hide Complete;
  }

  lemma {:induction false} CleanupCourse(
      cfg: Config, s: State, id: nat, fault: Fault, sync: bool, past: Past, asked: seq<Port>)
    requires Claimed(s, id) && Fits(cfg, s.calls[id], past) && OnCourse(cfg, s.calls[id], past, asked)
    requires s.calls[id].pc.CleaningUp?
    ensures OnCourse(cfg, StepCleanup(s, id, fault, sync).calls[id],
                     Told(s, Cleanup(id, fault, sync), id, past), asked + [CleanupPort])
  {
    hide Acceptable;
    hide Complete;
    hide CancelClaimed;
  }

  lemma {:induction false} ClearAttemptCourse(
      cfg: Config, s: State, id: nat, fault: Fault, past: Past, asked: seq<Port>)
    requires Claimed(s, id) && AttemptNonce(s.calls[id]).Some?
    requires Fits(cfg, s.calls[id], past) && OnCourse(cfg, s.calls[id], past, asked) && s.calls[id].pc.Clearing?
    ensures OnCourse(cfg, StepClearAttempt(cfg, s, id, fault).calls[id], past, asked + [ClearPort])
  {
    hide Acceptable;
    hide Complete;
  }

  lemma {:induction false} RefundCourse(cfg: Config, s: State, id: nat, fault: Fault, past: Past, asked: seq<Port>)
    requires Claimed(s, id) && Fits(cfg, s.calls[id], past) && OnCourse(cfg, s.calls[id], past, asked)
    requires s.calls[id].pc.Refunding?
    ensures OnCourse(cfg, StepRefund(s, id, fault).calls[id], past, asked + [RefundPort])
  {
    hide Acceptable;
    hide Complete;
  }

  lemma {:induction false} ReleaseCourse(
      cfg: Config, s: State, id: nat, now: int, fault: Fault, past: Past, asked: seq<Port>)
    requires Claimed(s, id) && Fits(cfg, s.calls[id], past) && OnCourse(cfg, s.calls[id], past, asked)
    requires s.calls[id].pc.Releasing?
    ensures OnCourse(cfg, StepRelease(s, id, now, fault).calls[id], past, asked + [ReleasePort])
  {
    hide Acceptable;
    hide Complete;
    hide CancelClaimed;
    hide RevertToPending;
  }

  // ----- over whole runs ---------------------------------------------------------------------

  lemma {:induction false} OwnStepCourse(cfg: Config, s: State, step: Step, past: Past, asked: seq<Port>)
    requires WellFormed(s.store) && Enabled(s, step) && OfConfirm(step) && step.id in s.calls
    requires Fits(cfg, s.calls[step.id], past) && OnCourse(cfg, s.calls[step.id], past, asked)
    ensures step.id in Apply(cfg, s, step).calls
    ensures OnCourse(cfg, Apply(cfg, s, step).calls[step.id],
                     Told(s, step, step.id, past), asked + AskedBy(step, step.id))
  {
    hide WellFormed;
    hide StepReadState;
    hide StepTake;
    hide StepFindReplay;
    hide StepConsume;
    hide StepFindAttempt;
    hide StepBeginAttempt;
    hide StepWrite;
    hide StepConfirmAttempt;
    hide StepCleanup;
    hide StepClearAttempt;
    hide StepRefund;
    hide StepRelease;
    hide AttemptNonce;
    hide Fits;
    hide ReplayOf;
    hide AttemptOf;
    hide OneCallMoved;
    ConfirmMovesOne(cfg, s, step);
    MovedIsThere(s, Apply(cfg, s, step), step.id);
    hide OnCourse;
    match step
    case ReadState(id, now, fault) => ReadStateCourse(cfg, s, id, now, fault, past, asked);
    case TakeRow(id, now, lease, fault) => TakeCourse(cfg, s, id, now, lease, fault, past, asked);
    case FindReplay(id, fault) => ReplayCourse(cfg, s, id, fault, past, asked);
    case ConsumeBudget(id, charge) => ConsumeCourse(cfg, s, id, charge, past, asked);
    case FindAttempt(id, fault) => FindAttemptCourse(cfg, s, id, fault, past, asked);
    case BeginAttempt(id, fault) => BeginAttemptCourse(cfg, s, id, fault, past, asked);
    case CalendarWrite(id, write) => WriteCourse(cfg, s, id, write, past, asked);
    case ConfirmAttempt(id, fault) => ConfirmAttemptCourse(cfg, s, id, fault, past, asked);
    case Cleanup(id, fault, sync) => CleanupCourse(cfg, s, id, fault, sync, past, asked);
    case ClearAttempt(id, fault) => ClearAttemptCourse(cfg, s, id, fault, past, asked);
    case RefundBudget(id, fault) => RefundCourse(cfg, s, id, fault, past, asked);
    case ReleaseRow(id, now, fault) => ReleaseCourse(cfg, s, id, now, fault, past, asked);
    case Crash(id) => CrashCourse(cfg, s, id, past, asked);
    case _ => assert false;
  }

  lemma {:induction false} CrashCourse(cfg: Config, s: State, id: nat, past: Past, asked: seq<Port>)
    requires id in s.calls
    ensures OnCourse(cfg, Goto(s, id, Threw).calls[id], past, asked)
  {
  }

  lemma {:induction false} NothingAsked(step: Step, id: nat)
    requires OfConfirm(step) ==> step.id != id
    ensures AskedBy(step, id) == []
  {
  }

  lemma {:induction false} NewCallCourse(cfg: Config, s: State, id: nat, args: Args)
    requires id !in s.calls
    ensures var s' := Apply(cfg, s, BeginConfirm(id, args));
      id in s'.calls && OnCourse(cfg, s'.calls[id], NO_PAST, [])
  {
    hide RequestAccepted;
    hide Acceptable;
    AcceptedIff(cfg, args);
  }

  /** A call that is there now and was not before has just begun. */
  lemma {:induction false} NewCallBegins(cfg: Config, s: State, step: Step, id: nat)
    requires WellFormed(s.store) && Enabled(s, step) && id !in s.calls && id in Apply(cfg, s, step).calls
    ensures step.BeginConfirm? && step.id == id
  {
    hide WellFormed;
    hide LeavesBooks;
    if step.BeginConfirm? {
    } else if OfConfirm(step) {
      hide Apply;
      ConfirmMovesOne(cfg, s, step);
      OwnerIsThere(s, step);
      assert false;
    } else {
      hide Apply;
      OtherStepsLeaveBooks(cfg, s, step);
      BooksHoldCalls(s, Apply(cfg, s, step));
      assert false;
    }
  }

  /** Before a call begins it asks for nothing. */
  lemma {:induction false} NobodyAsksBefore(cfg: Config, run: seq<Step>, s: State, id: nat)
    requires Exec(cfg, run) == Some(s) && id !in s.calls
    ensures AskedIn(run, id) == []
    decreases |run|
  {
    hide Apply;
    hide Enabled;
    hide AskedBy;
    if run != [] {
      var front, step := run[..|run| - 1], run[|run| - 1];
      var before := Exec(cfg, front).value;
      EveryCallFits(cfg, front, before, id);
      if id in before.calls {
        CallsStay(cfg, before, step, id);
        assert false;
      }
      NobodyAsksBefore(cfg, front, before, id);
      AskersAreThere(before, step, id);
    }
  }

  lemma {:induction false} AskersAreThere(s: State, step: Step, id: nat)
    requires Enabled(s, step) && id !in s.calls
    ensures AskedBy(step, id) == []
  {
  }

  /**
   * Whatever else happens in between, a call has asked exactly the ports that lead
   * to where it is, in this order and each once; a call that has returned has asked
   * all that were due, `Through` to the end, and no more.
   */
  lemma {:induction false} PortsAreAskedInOrder(cfg: Config, run: seq<Step>, s: State, id: nat)
    requires Exec(cfg, run) == Some(s) && id in s.calls
    ensures OnCourse(cfg, s.calls[id], PastOf(cfg, run, id), AskedIn(run, id))
    decreases |run|
  {
    hide OnCourse;
    hide Fits;
    hide Apply;
    hide Enabled;
    hide Told;
    hide AskedBy;
    if run != [] {
      var front, step := run[..|run| - 1], run[|run| - 1];
      var before := Exec(cfg, front).value;
      EveryCallFits(cfg, front, before, id);
      hide WellFormed;
      if id in before.calls {
        PortsAreAskedInOrder(cfg, front, before, id);
        if OfConfirm(step) && step.id == id {
          OwnStepCourse(cfg, before, step, PastOf(cfg, front, id), AskedIn(front, id));
        } else {
          OthersStay(cfg, before, step, id);
          NothingTold(before, step, id, PastOf(cfg, front, id));
          NothingAsked(step, id);
          assert AskedIn(run, id) == AskedIn(front, id);
        }
      } else {
        NobodyAsksBefore(cfg, front, before, id);
        AskersAreThere(before, step, id);
        NewCallBegins(cfg, before, step, id);
        NewCallCourse(cfg, before, id, step.args);
      }
    }
  }
}
