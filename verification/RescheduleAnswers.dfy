/**
 * What a confirm call answers. Over every run, the answer of a call that returns
 * follows from what its own awaits were told, by the table in `Due`; and what
 * becomes of the row follows from the same.
 */
module RescheduleAnswers {
  import opened Prelude
  import opened RescheduleStore
  import opened RescheduleProtocol
  import opened RescheduleSafety
  import opened RescheduleBudget
  import opened RescheduleClaims
  import opened RescheduleTheorems

  // ----- what a call was told ----------------------------------------------------------------

  /** What is to be seen of a row: none, one that is claimed, one that has expired, one that waits. */
  datatype Sight = Absent | Held | Outdated | Waiting

  function See(rows: map<string, Row>, key: string, now: int): Sight {
    if key !in rows then Absent
    else if rows[key].claimed then Held
    else if now >= rows[key].record.expiresAt then Outdated
    else Waiting
  }

  /**
   * What the awaits of a call were told: the last look at the row; the attempt
   * found under its token; that the budget was refused; that an attempt was already
   * under way; how the calendar write went; and that a write went unrecorded.
   */
  datatype Past = Past(
    sight: Option<Sight>,
    replay: Option<Attempt>,
    declined: bool,
    inDoubt: bool,
    write: Option<WriteResult>,
    unrecorded: bool)

  const NO_PAST := Past(None, None, false, false, None, false)

  /** The attempt the call works under: that of the row's nonce, or of its own token. */
  function AttemptOf(s: State, c: Call): Option<Attempt> {
    var nonce := if c.claim.Some? && c.claim.value.record.nonce.Some? then c.claim.value.record.nonce else c.args.token;
    if nonce.Some? && (c.args.externalId, nonce.value) in s.attempts
    then Some(s.attempts[(c.args.externalId, nonce.value)]) else None
  }

  function ReplayOf(s: State, a: Args): Option<Attempt> {
    if a.token.Some? && (a.externalId, a.token.value) in s.attempts
    then Some(s.attempts[(a.externalId, a.token.value)]) else None
  }

  /** The step is one of call `id` and tells it something. */
  function Told(s: State, step: Step, id: nat, past: Past): Past
    requires id in s.calls
  {
    var c := s.calls[id];
    match step
    case ReadState(i, now, Fine) =>
      if i == id then past.(sight := Some(See(s.store.rows, c.args.externalId, now))) else past
    case FindReplay(i, Fine) => if i == id then past.(replay := ReplayOf(s, c.args)) else past
    case ConsumeBudget(i, Declined) => if i == id then past.(declined := true) else past
    case FindAttempt(i, Fine) => if i == id then past.(inDoubt := AttemptOf(s, c) == Some(Attempting)) else past
    case CalendarWrite(i, write) => if i == id then past.(write := Some(write)) else past
    case ConfirmAttempt(i, fault) =>
      if i == id then past.(unrecorded := fault != Fine || AttemptOf(s, c).None?) else past
    case Cleanup(i, _, threwSynchronously) => if i == id && threwSynchronously then past.(unrecorded := true) else past
    case _ => past
  }

  /** What call `id` was told in the run. */
  function PastOf(cfg: Config, run: seq<Step>, id: nat): Past {
    if run == [] then NO_PAST
    else
      var front := run[..|run| - 1];
      var before := Exec(cfg, front);
      if before.Some? && id in before.value.calls
      then Told(before.value, run[|run| - 1], id, PastOf(cfg, front, id)) else NO_PAST
  }

  // ----- what it answers then ------------------------------------------------------------------

  predicate Filled(s: Option<string>) {
    s.Some? && s.value != ""
  }

  /** A store that insists on a token takes only calls with all they need. */
  predicate Acceptable(cfg: Config, a: Args) {
    cfg.requiresToken ==>
      && a.token.Some? && IsApprovalToken(a.token.value) && a.userId.Some?
      && Filled(a.binding.platform) && Filled(a.binding.mappingVersion)
  }

  /** And only rows that `stage` has filled in. */
  predicate Complete(cfg: Config, p: Pending) {
    cfg.requiresToken ==>
      p.toolName == Some("reschedule_study_session") && Filled(p.intentHash) && Filled(p.argsHash) && Filled(p.nonce)
  }

  function Due(cfg: Config, c: Call, past: Past): Answer {
    if !Acceptable(cfg, c.args) then Refused(InvalidRequest)
    else if c.claim.None? then
      match past.replay
      case Some(Committed(timeLabel)) => Confirmed(timeLabel, true)
      case Some(Attempting) => UnknownOutcome(ReplayInDoubt)
      case None =>
        if past.sight == Some(Outdated) then Refused(Expired)
        else if past.sight == Some(Held) then Refused(InProgress)
        else Refused(NoRequest)
    else if !Complete(cfg, c.claim.value.record) then Refused(InvalidRequest)
    else if past.declined then Refused(BudgetExceeded)
    else if past.inDoubt then UnknownOutcome(AttemptInDoubt)
    else
      match past.write
      case Some(WriteThrew(true)) => Refused(ScopeBlocked)
      case Some(WriteOk(timeLabel)) =>
        if past.unrecorded then UnknownOutcome(CommitUnrecorded) else Confirmed(timeLabel, false)
      case _ => Refused(Unavailable)
  }

  /** Past the claim, and nothing has stood in the way yet. */
  predicate Ready(cfg: Config, c: Call, past: Past) {
    && Acceptable(cfg, c.args) && c.claim.Some? && Complete(cfg, c.claim.value.record)
    && !past.declined && !past.inDoubt && !past.unrecorded
  }

  predicate Unclaimed(cfg: Config, c: Call, past: Past) {
    Acceptable(cfg, c.args) && c.claim.None? && past == NO_PAST.(sight := past.sight)
  }

  /** Of a refused budget, an attempt in doubt and a write, a call is told at most one, and that past the claim. */
  predicate Coherent(cfg: Config, c: Call, past: Past) {
    && (past.declined || past.inDoubt || past.write.Some? ==>
          Acceptable(cfg, c.args) && c.claim.Some? && Complete(cfg, c.claim.value.record))
    && !(past.declined && past.inDoubt) && !((past.declined || past.inDoubt) && past.write.Some?)
  }

  /** A call that nothing stood in the way of has written. */
  predicate Settled(cfg: Config, c: Call, past: Past) {
    Acceptable(cfg, c.args) && c.claim.Some? && Complete(cfg, c.claim.value.record) && !past.declined && !past.inDoubt ==>
      past.write.Some?
  }

  /** Where a call is follows from what it was told. */
  predicate Fits(cfg: Config, c: Call, past: Past) {
    Coherent(cfg, c, past) && IsDueAt(cfg, c, past)
  }

  predicate IsDueAt(cfg: Config, c: Call, past: Past) {
    match c.pc
    case CheckingState => Unclaimed(cfg, c, past)
    case Taking => Unclaimed(cfg, c, past)
    case Replaying => Unclaimed(cfg, c, past)
    case RecheckingState => Unclaimed(cfg, c, past)
    case Charging => Ready(cfg, c, past) && past.write.None?
    case LookingUp => Ready(cfg, c, past) && past.write.None?
    case Beginning => Ready(cfg, c, past) && past.write.None?
    case Writing => Ready(cfg, c, past) && past.write.None?
    case Recording(timeLabel) => Ready(cfg, c, past) && past.write == Some(WriteOk(timeLabel))
    case CleaningUp(timeLabel) => Ready(cfg, c, past) && past.write == Some(WriteOk(timeLabel))
    case Clearing(scope) => Ready(cfg, c, past) && past.write == Some(WriteThrew(scope))
    case Refunding(scope) => Ready(cfg, c, past) && past.write == Some(WriteThrew(scope))
    case Releasing(cancel, answer) =>
      && answer == Due(cfg, c, past) && Settled(cfg, c, past)
      && c.claim.Some? && (cancel <==> past.write == Some(WriteThrew(true)))
    case Returned(answer) => answer == Due(cfg, c, past) && Settled(cfg, c, past)
    case Threw => true
  }

  // ----- step by step --------------------------------------------------------------------------

  lemma {:induction false} AcceptedIff(cfg: Config, a: Args)
    ensures RequestAccepted(cfg, a) <==> Acceptable(cfg, a)
  {
    hide IsApprovalToken;
    assert a.token.Some? && IsApprovalToken(a.token.value) ==> a.token.value != "" by { TokensAreLong(a); }
  }

  lemma {:induction false} TokensAreLong(a: Args)
    ensures a.token.Some? && IsApprovalToken(a.token.value) ==> |a.token.value| == 36
  {
  }

  lemma {:induction false} ReadStateFits(cfg: Config, s: State, id: nat, now: int, fault: Fault, past: Past)
    requires WellFormed(s.store) && id in s.calls && Fits(cfg, s.calls[id], past)
    requires s.calls[id].pc.CheckingState? || s.calls[id].pc.RecheckingState?
    ensures Fits(cfg, StepReadState(cfg, s, id, now, fault).calls[id], Told(s, ReadState(id, now, fault), id, past))
  {
    hide Acceptable;
    hide GetPendingState;
    hide WellFormed;
    ReadersAndCancellersAreFenced(s.store, s.calls[id].args.externalId, None, now);
  }

  lemma {:induction false} TakeFits(cfg: Config, s: State, id: nat, now: int, lease: string, fault: Fault, past: Past)
    requires id in s.calls && Fits(cfg, s.calls[id], past) && s.calls[id].pc.Taking?
    ensures Fits(cfg, StepTake(cfg, s, id, now, lease, fault).calls[id], past)
  {
    hide Acceptable;
    hide TakeValid;
    hide BindingOf;
    hide UsesAttempts;
  }

  lemma {:induction false} ReplayFits(cfg: Config, s: State, id: nat, fault: Fault, past: Past)
    requires id in s.calls && Fits(cfg, s.calls[id], past) && s.calls[id].pc.Replaying? && s.calls[id].args.token.Some?
    ensures Fits(cfg, StepFindReplay(s, id, fault).calls[id], Told(s, FindReplay(id, fault), id, past))
  {
    hide Acceptable;
  }

  lemma {:induction false} ConsumeGoesOn(cfg: Config, s: State, id: nat, charge: ChargeResult)
    requires Claimed(s, id)
    ensures var c, c' := s.calls[id], StepConsume(cfg, s, id, charge).calls[id];
      && c'.args == c.args && c'.claim == c.claim
      && c'.pc == match charge
                  case Accepted => AfterCharge(cfg, c)
                  case Declined => Releasing(false, Refused(BudgetExceeded))
                  case ChargeThrew(_) => Threw
  {
    hide AfterCharge;
  }

  lemma {:induction false} ConsumeFits(cfg: Config, s: State, id: nat, charge: ChargeResult, past: Past)
    requires Claimed(s, id) && Fits(cfg, s.calls[id], past) && s.calls[id].pc.Charging?
    ensures Fits(cfg, StepConsume(cfg, s, id, charge).calls[id], Told(s, ConsumeBudget(id, charge), id, past))
  {
    hide StepConsume;
    hide Acceptable;
    hide Complete;
    hide UsesAttempts;
    ConsumeGoesOn(cfg, s, id, charge);
  }

  lemma {:induction false} FindAttemptFits(cfg: Config, s: State, id: nat, fault: Fault, past: Past)
    requires Claimed(s, id) && AttemptNonce(s.calls[id]).Some?
    requires Fits(cfg, s.calls[id], past) && s.calls[id].pc.LookingUp?
    ensures Fits(cfg, StepFindAttempt(s, id, fault).calls[id], Told(s, FindAttempt(id, fault), id, past))
  {
    hide Acceptable;
    hide Complete;
  }

  lemma {:induction false} BeginAttemptFits(cfg: Config, s: State, id: nat, fault: Fault, past: Past)
    requires Claimed(s, id) && AttemptNonce(s.calls[id]).Some?
    requires Fits(cfg, s.calls[id], past) && s.calls[id].pc.Beginning?
    ensures Fits(cfg, StepBeginAttempt(s, id, fault).calls[id], past)
  {
    hide Acceptable;
    hide Complete;
  }

  lemma {:induction false} WriteFits(cfg: Config, s: State, id: nat, write: WriteResult, past: Past)
    requires Claimed(s, id) && s.calls[id].claim.value.record.nonce.Some?
    requires Fits(cfg, s.calls[id], past) && s.calls[id].pc.Writing?
    ensures Fits(cfg, StepWrite(cfg, s, id, write).calls[id], Told(s, CalendarWrite(id, write), id, past))
  {
    hide Acceptable;
    hide Complete;
    hide UsesAttempts;
  }

  lemma {:induction false} ConfirmAttemptFits(cfg: Config, s: State, id: nat, fault: Fault, past: Past)
    requires Claimed(s, id) && AttemptNonce(s.calls[id]).Some?
    requires Fits(cfg, s.calls[id], past) && s.calls[id].pc.Recording?
    ensures Fits(cfg, StepConfirmAttempt(s, id, fault).calls[id], Told(s, ConfirmAttempt(id, fault), id, past))
  {
    hide Acceptable;
    hide Complete;
  }

  lemma {:induction false} CleanupFits(cfg: Config, s: State, id: nat, fault: Fault, sync: bool, past: Past)
    requires Claimed(s, id) && Fits(cfg, s.calls[id], past) && s.calls[id].pc.CleaningUp?
    ensures Fits(cfg, StepCleanup(s, id, fault, sync).calls[id], Told(s, Cleanup(id, fault, sync), id, past))
  {
    hide Acceptable;
    hide Complete;
    hide CancelClaimed;
  }

  lemma {:induction false} ClearAttemptFits(cfg: Config, s: State, id: nat, fault: Fault, past: Past)
    requires Claimed(s, id) && AttemptNonce(s.calls[id]).Some?
    requires Fits(cfg, s.calls[id], past) && s.calls[id].pc.Clearing?
    ensures Fits(cfg, StepClearAttempt(cfg, s, id, fault).calls[id], past)
  {
    hide Acceptable;
    hide Complete;
  }

  lemma {:induction false} RefundFits(cfg: Config, s: State, id: nat, fault: Fault, past: Past)
    requires Claimed(s, id) && Fits(cfg, s.calls[id], past) && s.calls[id].pc.Refunding?
    ensures Fits(cfg, StepRefund(s, id, fault).calls[id], past)
  {
    hide Acceptable;
    hide Complete;
  }

  lemma {:induction false} ReleaseFits(cfg: Config, s: State, id: nat, now: int, fault: Fault, past: Past)
    requires Claimed(s, id) && Fits(cfg, s.calls[id], past) && s.calls[id].pc.Releasing?
    ensures Fits(cfg, StepRelease(s, id, now, fault).calls[id], past)
  {
    hide Acceptable;
    hide Complete;
    hide CancelClaimed;
    hide RevertToPending;
  }

  // ----- over whole runs -------------------------------------------------------------------------

  /** A step of a call moves that call only; the other steps move none. */
  lemma {:induction false} OthersStay(cfg: Config, s: State, step: Step, id: nat)
    requires WellFormed(s.store) && Enabled(s, step) && id in s.calls && (OfConfirm(step) ==> step.id != id)
    ensures id in Apply(cfg, s, step).calls && Apply(cfg, s, step).calls[id] == s.calls[id]
  {
    hide Apply;
    hide Enabled;
    hide WellFormed;
    if OfConfirm(step) {
      ConfirmMovesOne(cfg, s, step);
    } else {
      OtherStepsLeaveBooks(cfg, s, step);
      BooksHoldCalls(s, Apply(cfg, s, step));
    }
  }

  lemma {:induction false} BooksHoldCalls(s: State, s': State)
    requires LeavesBooks(s, s')
    ensures s'.calls == s.calls
  {
  }

  ghost predicate OneCallMoved(s: State, s': State, id: nat) {
    id in s'.calls && s'.calls == s.calls[id := s'.calls[id]]
  }

  lemma {:induction false} ClaimingMovesOne(cfg: Config, s: State, id: nat, now: int, lease: string, fault: Fault)
    requires id in s.calls
    ensures OneCallMoved(s, StepTake(cfg, s, id, now, lease, fault), id)
  {
    hide TakeValid;
    hide AfterClaim;
    hide AfterMiss;
    hide BindingOf;
  }

  lemma {:induction false} WritingMovesOne(cfg: Config, s: State, id: nat, write: WriteResult)
    requires Claimed(s, id) && s.calls[id].claim.value.record.nonce.Some?
    ensures OneCallMoved(s, StepWrite(cfg, s, id, write), id)
  {
    hide AfterFailedWrite;
    hide UsesAttempts;
  }

  lemma {:induction false} CallMoveMovesOne(s: State, s': State, id: nat)
    requires CallMoves(s, s', id)
    ensures OneCallMoved(s, s', id)
  {
  }

  lemma {:induction false} ConfirmMovesOne(cfg: Config, s: State, step: Step)
    requires WellFormed(s.store) && Enabled(s, step) && OfConfirm(step)
    ensures OneCallMoved(s, Apply(cfg, s, step), step.id)
  {
    hide WellFormed;
    hide CallMoves;
    hide OneCallMoved;
    hide StepTake;
    hide StepWrite;
    hide AttemptNonce;
    if step.TakeRow? {
      ClaimingMovesOne(cfg, s, step.id, step.now, step.lease, step.fault);
    } else if step.CalendarWrite? {
      WritingMovesOne(cfg, s, step.id, step.write);
    } else {
      ConfirmStepMoves(cfg, s, step);
      hide Apply;
      CallMoveMovesOne(s, Apply(cfg, s, step), step.id);
    }
  }

  lemma {:induction false} MovedIsThere(s: State, s': State, id: nat)
    requires OneCallMoved(s, s', id)
    ensures id in s'.calls
  {
  }

  lemma {:induction false} OwnStepFits(cfg: Config, s: State, step: Step, past: Past)
    requires WellFormed(s.store) && Enabled(s, step) && OfConfirm(step) && step.id in s.calls
    requires Fits(cfg, s.calls[step.id], past)
    ensures step.id in Apply(cfg, s, step).calls
    ensures Fits(cfg, Apply(cfg, s, step).calls[step.id], Told(s, step, step.id, past))
  {
    hide WellFormed;
    hide StepReadState;
    hide StepTake;
    hide StepFindReplay;
    hide StepConsume;
    hide StepFindAttempt;
    hide StepBeginAttempt;
    hide StepWrite;
    hide StepConfirmAttempt;
    hide StepCleanup;
    hide StepClearAttempt;
    hide StepRefund;
    hide StepRelease;
    hide AttemptNonce;
    hide Ready;
    hide Unclaimed;
    hide Due;
    hide ReplayOf;
    hide AttemptOf;
    hide OneCallMoved;
    ConfirmMovesOne(cfg, s, step);
    MovedIsThere(s, Apply(cfg, s, step), step.id);
    match step
    case ReadState(id, now, fault) => ReadStateFits(cfg, s, id, now, fault, past);
    case TakeRow(id, now, lease, fault) => TakeFits(cfg, s, id, now, lease, fault, past);
    case FindReplay(id, fault) => ReplayFits(cfg, s, id, fault, past);
    case ConsumeBudget(id, charge) => ConsumeFits(cfg, s, id, charge, past);
    case FindAttempt(id, fault) => FindAttemptFits(cfg, s, id, fault, past);
    case BeginAttempt(id, fault) => BeginAttemptFits(cfg, s, id, fault, past);
    case CalendarWrite(id, write) => WriteFits(cfg, s, id, write, past);
    case ConfirmAttempt(id, fault) => ConfirmAttemptFits(cfg, s, id, fault, past);
    case Cleanup(id, fault, sync) => CleanupFits(cfg, s, id, fault, sync, past);
    case ClearAttempt(id, fault) => ClearAttemptFits(cfg, s, id, fault, past);
    case RefundBudget(id, fault) => RefundFits(cfg, s, id, fault, past);
    case ReleaseRow(id, now, fault) => ReleaseFits(cfg, s, id, now, fault, past);
    case Crash(_) =>
    case _ => assert false;
  }

  lemma {:induction false} StoreStepKeeps(cfg: Config, s: State, id: nat, now: int, lease: string, fault: Fault)
    requires WellFormed(s.store) && id in s.calls
    ensures WellFormed(StepReadState(cfg, s, id, now, fault).store)
    ensures WellFormed(StepTake(cfg, s, id, now, lease, fault).store)
  {
    hide WellFormed;
    hide GetPendingState;
    hide TakeValid;
    hide AnswerFor;
    hide AfterMiss;
    hide AfterClaim;
    hide BindingOf;
    var a := s.calls[id].args;
    ReadersAndCancellersAreFenced(s.store, a.externalId, None, now);
    ClaimIsExclusive(s.store, a.externalId, a.userId, BindingOf(a), now, lease);
  }

  lemma {:induction false} ReleaseStepKeeps(s: State, id: nat, now: int, fault: Fault, sync: bool)
    requires WellFormed(s.store) && Claimed(s, id)
    ensures s.calls[id].pc.CleaningUp? ==> WellFormed(StepCleanup(s, id, fault, sync).store)
    ensures s.calls[id].pc.Releasing? ==> WellFormed(StepRelease(s, id, now, fault).store)
  {
    hide WellFormed;
    hide CancelClaimed;
    hide RevertToPending;
    LeaseOperationsAreFenced(s.store, s.calls[id].args.externalId, s.calls[id].claim.value.lease, now);
  }

  lemma {:induction false} RecoveryStepKeeps(s: State, rid: nat, now: int)
    requires WellFormed(s.store) && rid in s.recoveries && s.recoveries[rid].known.Some?
    ensures WellFormed(StepRecoverApply(s, rid, now).store)
  {
    hide WellFormed;
    hide Put;
    hide Remove;
    var key := s.recoveries[rid].key;
    RemoveKeepsWellFormed(s.store, key);
    if key in s.store.rows {
      PutKeepsWellFormed(s.store, key, Rearmed(s.store.rows[key].record, now));
    }
  }

  lemma {:induction false} QueryStepKeeps(s: State, key: string, nonce: Option<string>, now: int)
    requires WellFormed(s.store)
    ensures WellFormed(CancelPending(s.store, key, nonce, now).0) && WellFormed(GetPendingState(s.store, key, now).0)
  {
    ReadersAndCancellersAreFenced(s.store, key, nonce, now);
    hide WellFormed;
  }

  lemma {:induction false} SaveStepKeeps(s: State, nonce: string, now: int, fault: Fault)
    requires WellFormed(s.store) && nonce in s.staged
    ensures WellFormed(StepStageSave(s, nonce, now, fault).store)
  {
    hide WellFormed;
    hide Save;
    SaveIsFenced(s.store, s.staged[nonce], now);
  }

  lemma {:induction false} StepKeepsStore(cfg: Config, s: State, step: Step)
    requires WellFormed(s.store) && Enabled(s, step)
    ensures WellFormed(Apply(cfg, s, step).store)
  {
    hide WellFormed;
    hide StepReadState;
    hide StepTake;
    hide StepCleanup;
    hide StepRelease;
    hide StepStageSave;
    hide StepRecoverApply;
    hide CancelPending;
    hide GetPendingState;
    hide StageAccepts;
    hide AttemptNonce;
    hide UsesAttempts;
    hide AfterCharge;
    hide AfterClear;
    hide AfterRefund;
    hide AfterFailedWrite;
    hide RequestAccepted;
    if step.ReadState? || step.TakeRow? {
      StoreStepKeeps(cfg, s, step.id, step.now, if step.TakeRow? then step.lease else "", step.fault);
    } else if step.Cleanup? {
      ReleaseStepKeeps(s, step.id, 0, step.fault, step.threwSynchronously);
    } else if step.ReleaseRow? {
      ReleaseStepKeeps(s, step.id, step.now, step.fault, false);
    } else if step.StageSave? {
      SaveStepKeeps(s, step.stagedNonce, step.now, step.fault);
    } else if step.CancelRow? {
      QueryStepKeeps(s, step.externalId, step.nonce, step.now);
    } else if step.PollState? {
      QueryStepKeeps(s, step.externalId, None, step.now);
    } else if step.RecoverApply? {
      RecoveryStepKeeps(s, step.rid, step.now);
    }
  }

  /** Whatever the interleaving, the store is well formed and every call is where what it was told has put it. */
  lemma {:induction false} EveryCallFits(cfg: Config, run: seq<Step>, s: State, id: nat)
    requires Exec(cfg, run) == Some(s)
    ensures WellFormed(s.store)
    ensures id in s.calls ==> Fits(cfg, s.calls[id], PastOf(cfg, run, id))
    decreases |run|
  {
    hide Fits;
    hide Apply;
    hide Enabled;
    hide Told;
    if run != [] {
      var front, step := run[..|run| - 1], run[|run| - 1];
      var before := Exec(cfg, front).value;
      EveryCallFits(cfg, front, before, id);
      hide WellFormed;
      StepKeepsStore(cfg, before, step);
      if id in before.calls {
        if OfConfirm(step) && step.id == id {
          OwnStepFits(cfg, before, step, PastOf(cfg, front, id));
        } else {
          OthersStay(cfg, before, step, id);
          NothingTold(before, step, id, PastOf(cfg, front, id));
        }
      } else if id in s.calls {
        NewCallFits(cfg, before, step, id);
      }
    }
  }

  lemma {:induction false} NothingTold(s: State, step: Step, id: nat, past: Past)
    requires id in s.calls && (OfConfirm(step) ==> step.id != id)
    ensures Told(s, step, id, past) == past
  {
  }

  lemma {:induction false} NewCallFits(cfg: Config, s: State, step: Step, id: nat)
    requires WellFormed(s.store) && Enabled(s, step) && id !in s.calls && id in Apply(cfg, s, step).calls
    ensures Fits(cfg, Apply(cfg, s, step).calls[id], NO_PAST)
  {
    hide WellFormed;
    hide Fits;
    hide LeavesBooks;
    if step.BeginConfirm? {
      NewCall(cfg, s, step.id, step.args);
    } else if OfConfirm(step) {
      hide Apply;
      ConfirmMovesOne(cfg, s, step);
      OwnerIsThere(s, step);
      assert false;
    } else {
      hide Apply;
      OtherStepsLeaveBooks(cfg, s, step);
      BooksHoldCalls(s, Apply(cfg, s, step));
      assert false;
    }
  }

  lemma {:induction false} OwnerIsThere(s: State, step: Step)
    requires Enabled(s, step) && OfConfirm(step) && !step.BeginConfirm?
    ensures step.id in s.calls
  {
  }

  lemma {:induction false} NewCall(cfg: Config, s: State, id: nat, args: Args)
    requires id !in s.calls
    ensures var s' := Apply(cfg, s, BeginConfirm(id, args));
      s'.calls.Keys == s.calls.Keys + {id} && Fits(cfg, s'.calls[id], NO_PAST)
  {
    hide RequestAccepted;
    hide Acceptable;
    AcceptedIff(cfg, args);
  }

  /**
   * The answer of a call that returns is the one due to what its own awaits were
   * told, in whatever order everything else happened.
   */
  lemma {:induction false} AnswersAreDue(cfg: Config, run: seq<Step>, s: State, id: nat)
    requires Exec(cfg, run) == Some(s) && id in s.calls && s.calls[id].pc.Returned?
    ensures s.calls[id].pc.answer == Due(cfg, s.calls[id], PastOf(cfg, run, id))
  {
    hide Exec;
    hide Due;
    EveryCallFits(cfg, run, s, id);
  }

  ghost predicate Wrote(run: seq<Step>, id: nat, write: WriteResult) {
    exists i :: 0 <= i < |run| && run[i] == CalendarWrite(id, write)
  }

  ghost predicate WasDeclined(run: seq<Step>, id: nat) {
    exists i :: 0 <= i < |run| && run[i] == ConsumeBudget(id, Declined)
  }

  lemma {:induction false} CallsStay(cfg: Config, s: State, step: Step, id: nat)
    requires WellFormed(s.store) && Enabled(s, step) && id in s.calls
    ensures id in Apply(cfg, s, step).calls
  {
    hide Apply;
    hide Enabled;
    hide WellFormed;
    if OfConfirm(step) && step.id == id {
      ConfirmMovesOne(cfg, s, step);
    } else {
      OthersStay(cfg, s, step, id);
    }
  }

  lemma {:induction false} LastTold(cfg: Config, s: State, step: Step, id: nat, past: Past)
    requires Enabled(s, step) && id in s.calls && Fits(cfg, s.calls[id], past)
    ensures var told := Told(s, step, id, past);
      && (step.CalendarWrite? && step.id == id ==> past.write.None? && told.write == Some(step.write))
      && (!(step.CalendarWrite? && step.id == id) ==> told.write == past.write)
      && (told.declined <==> past.declined || step == ConsumeBudget(id, Declined))
  {
    hide Coherent;
    hide Due;
    hide StageAccepts;
    hide AttemptNonce;
    hide AttemptOf;
    hide ReplayOf;
  }

  lemma {:induction false} LastStep(run: seq<Step>, id: nat, write: WriteResult)
    requires run != []
    ensures var front, step := run[..|run| - 1], run[|run| - 1];
      && (Wrote(run, id, write) <==> Wrote(front, id, write) || step == CalendarWrite(id, write))
      && (WasDeclined(run, id) <==> WasDeclined(front, id) || step == ConsumeBudget(id, Declined))
  {
    var n := |run| - 1;
    assert forall i :: 0 <= i < n ==> run[..n][i] == run[i];
  }

  /** A call that has not begun was told nothing. */
  lemma {:induction false} NewcomersWereToldNothing(cfg: Config, run: seq<Step>, s: State, id: nat)
    requires Exec(cfg, run) == Some(s) && id !in s.calls
    ensures PastOf(cfg, run, id) == NO_PAST
  {
    if run != [] {
      var front, step := run[..|run| - 1], run[|run| - 1];
      var before := Exec(cfg, front).value;
      EveryCallFits(cfg, front, before, id);
      hide Fits;
      hide Apply;
      hide Enabled;
      if id in before.calls {
        CallsStay(cfg, before, step, id);
      }
    }
  }

  /** A call writes once, and is told how that went. */
  lemma {:induction false} WriteIsTold(cfg: Config, run: seq<Step>, s: State, id: nat, write: WriteResult)
    requires Exec(cfg, run) == Some(s)
    ensures PastOf(cfg, run, id).write == Some(write) <==> Wrote(run, id, write)
    ensures PastOf(cfg, run, id).declined <==> WasDeclined(run, id)
    decreases |run|
  {
    hide Fits;
    hide Apply;
    hide Enabled;
    hide Told;
    hide Wrote;
    hide WasDeclined;
    hide WellFormed;
    if run == [] {
      NothingWritten(id, write);
    } else {
      var front, step := run[..|run| - 1], run[|run| - 1];
      var before := Exec(cfg, front).value;
      WriteIsTold(cfg, front, before, id, write);
      EveryCallFits(cfg, front, before, id);
      LastStep(run, id, write);
      if id in before.calls {
        LastTold(cfg, before, step, id, PastOf(cfg, front, id));
      } else {
        NewcomersWereToldNothing(cfg, front, before, id);
        if OfConfirm(step) && step.id == id && !step.BeginConfirm? {
          OwnerIsThere(before, step);
          assert false;
        }
      }
    }
  }

  lemma {:induction false} NothingWritten(id: nat, write: WriteResult)
    ensures !Wrote([], id, write) && !WasDeclined([], id)
  {
  }

  /**
   * In plain words: a call that returns answers that the entry is not the learner's
   * exactly if its calendar write said so, that the calendar is unavailable exactly
   * if its write failed otherwise, and that the budget is spent exactly if it was
   * declined.
   */
  lemma {:induction false} RefusalsAreExplained(cfg: Config, run: seq<Step>, s: State, id: nat)
    requires Exec(cfg, run) == Some(s) && id in s.calls && s.calls[id].pc.Returned?
    ensures var answer := s.calls[id].pc.answer;
      && (answer == Refused(ScopeBlocked) <==> Wrote(run, id, WriteThrew(true)))
      && (answer == Refused(Unavailable) <==> Wrote(run, id, WriteThrew(false)))
      && (answer == Refused(BudgetExceeded) <==> WasDeclined(run, id))
  {
    hide Exec;
    hide Wrote;
    hide WasDeclined;
    hide Acceptable;
    hide Complete;
    EveryCallFits(cfg, run, s, id);
    WriteIsTold(cfg, run, s, id, WriteThrew(true));
    WriteIsTold(cfg, run, s, id, WriteThrew(false));
    hide PastOf;
  }

  lemma {:induction false} GivingUpIsExact(cfg: Config, s: State, id: nat, now: int)
    requires Good(cfg, s) && WellFormed(s.store) && Claimed(s, id) && s.calls[id].pc.Releasing?
    ensures var s', c := StepRelease(s, id, now, Fine), s.calls[id];
      var key := c.args.externalId;
      && id in s'.calls && s'.calls[id].pc == Returned(c.pc.answer)
      && s'.store.rows
           == if c.pc.cancel then s.store.rows - {key}
              else s.store.rows[key := Row(c.claim.value.record.(expiresAt := now + 600_000), false)]
  {
    hide Good;
    hide WellFormed;
    hide CancelClaimed;
    hide RevertToPending;
    RowIsHeld(cfg, s, id);
    LeaseOperationsAreFenced(s.store, s.calls[id].args.externalId, s.calls[id].claim.value.lease, now);
  }

  /**
   * A call that gives its row up and returns deletes it exactly if the calendar said
   * that the entry is not the learner's; otherwise the row is pending again, as it
   * was claimed, for ten minutes from then.
   */
  lemma {:induction false} RowAfterRelease(cfg: Config, run: seq<Step>, s: State, id: nat, now: int)
    requires DisciplinedRun(cfg, run) && Exec(cfg, run) == Some(s) && Enabled(s, ReleaseRow(id, now, Fine))
    ensures var s', c := Apply(cfg, s, ReleaseRow(id, now, Fine)), s.calls[id];
      var key := c.args.externalId;
      && id in s'.calls && s'.calls[id].pc == Returned(Due(cfg, c, PastOf(cfg, run, id)))
      && s'.store.rows
           == if PastOf(cfg, run, id).write == Some(WriteThrew(true)) then s.store.rows - {key}
              else s.store.rows[key := Row(c.claim.value.record.(expiresAt := now + 600_000), false)]
  {
    hide Exec;
    hide DisciplinedRun;
    hide Due;
    hide Coherent;
    hide Settled;
    hide Good;
    hide WellFormed;
    hide StepRelease;
    RunKeepsGood(cfg, run);
    EveryCallFits(cfg, run, s, id);
    GivingUpIsExact(cfg, s, id, now);
    hide PastOf;
  }

  lemma {:induction false} RowIsHeld(cfg: Config, s: State, id: nat)
    requires Good(cfg, s) && Claimed(s, id) && Owning(s.calls[id].pc)
    ensures var c := s.calls[id];
      && HeldBy(s.store, c.args.externalId, c.claim.value.lease)
      && s.store.rows[c.args.externalId].record == c.claim.value.record
  {
    assert CallOk(cfg, s, id);
  }

  /** A call whose write was committed deletes the row. */
  lemma {:induction false} RowAfterCleanup(cfg: Config, run: seq<Step>, s: State, id: nat, sync: bool)
    requires DisciplinedRun(cfg, run) && Exec(cfg, run) == Some(s) && Enabled(s, Cleanup(id, Fine, sync))
    ensures Apply(cfg, s, Cleanup(id, Fine, sync)).store.rows == s.store.rows - {s.calls[id].args.externalId}
  {
    hide Exec;
    RunKeepsGood(cfg, run);
    EveryCallFits(cfg, run, s, id);
    var c := s.calls[id];
    RowIsHeld(cfg, s, id);
    hide Good;
    hide WellFormed;
    LeaseOperationsAreFenced(s.store, c.args.externalId, c.claim.value.lease, 0);
    hide CancelClaimed;
  }
}
