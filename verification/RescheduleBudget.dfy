/**
 * The write budget of the confirmation protocol: what a call consumed and
 * refunded is determined by how it ended, and summed over all calls it is never
 * below the number of committed writes.
 */
module RescheduleBudget {
  import opened Prelude
  import opened RescheduleStore
  import opened RescheduleProtocol

  /** Units a call that ended with `answer` keeps, when the consume hook is wired. */
  function UnitsFor(cfg: Config, answer: Answer): int {
    match answer
    case Confirmed(_, replayed) => if replayed then 0 else 1
    case UnknownOutcome(doubt) => if doubt.ReplayInDoubt? then 0 else 1
    case Refused(reason) => if (reason.ScopeBlocked? || reason.Unavailable?) && !cfg.refundHook then 1 else 0
  }

  /** The answers of a call whose write committed. */
  predicate AnswersAfterWrite(answer: Answer) {
    (answer.Confirmed? && !answer.replayed) || answer == UnknownOutcome(CommitUnrecorded)
  }

  predicate Charged(pc: Pc) {
    pc.LookingUp? || pc.Beginning? || pc.Writing? || pc.Recording? || pc.CleaningUp? || pc.Clearing? || pc.Refunding?
  }

  predicate UsesRecord(pc: Pc) {
    pc.LookingUp? || pc.Beginning? || pc.Recording? || pc.Clearing?
  }

  predicate AfterWrite(pc: Pc) {
    pc.Recording? || pc.CleaningUp? || (pc.Returned? && AnswersAfterWrite(pc.answer))
  }

  /** What a call's await says about its accounts. */
  predicate AccountsOk(cfg: Config, c: Call) {
    && (c.pc.Threw? || c.wrote == AfterWrite(c.pc))
    && (UsesRecord(c.pc) ==> c.claim.Some? && UsesAttempts(cfg, c))
    && (c.pc.Replaying? ==> cfg.attemptStore)
    && (c.wrote ==> c.claim.Some?)
    && (c.pc.Refunding? ==> cfg.refundHook)
    && (c.pc.Releasing? ==> !c.pc.answer.Confirmed? && !AnswersAfterWrite(c.pc.answer))
    && (cfg.consumeHook ==>
          && (c.units == 0 || (c.units == 1 && c.claim.Some?))
          && (Charged(c.pc) || c.wrote ==> c.units == 1)
          && (c.pc.Releasing? || c.pc.Returned? ==> c.units == UnitsFor(cfg, c.pc.answer)))
    && (c.pc.Charging? ==> c.units == 0)
    && (c.pc.CheckingState? || c.pc.Taking? || c.pc.Replaying? || c.pc.RecheckingState? ==>
          c.units == 0 && c.claim.None?)
  }

  lemma {:induction false} ReturnedUnits(cfg: Config, c: Call)
    requires AccountsOk(cfg, c) && cfg.consumeHook && cfg.refundHook && c.pc.Returned?
    ensures c.units == if c.wrote || c.pc.answer == UnknownOutcome(AttemptInDoubt) then 1 else 0
  {
  }

  ghost function Holders(calls: map<nat, Call>, user: int): set<nat> {
    set id | id in calls && calls[id].units == 1 && calls[id].claim.Some? && calls[id].claim.value.record.userId == user
  }

  ghost function Writers(calls: map<nat, Call>, user: int): set<nat> {
    set id | id in calls && calls[id].wrote && calls[id].claim.Some? && calls[id].claim.value.record.userId == user
  }

  ghost function WritesBy(writes: seq<Write>, user: int): nat {
    if writes == [] then 0
    else WritesBy(writes[..|writes| - 1], user) + (if writes[|writes| - 1].userId == user then 1 else 0)
  }

  /** The ledger agrees, user by user, with the calls that hold a unit and those that wrote. */
  ghost predicate LedgerOk(cfg: Config, s: State) {
    && (forall u: int :: WritesBy(s.writes, u) == |Writers(s.calls, u)|)
    && (cfg.consumeHook ==> forall u: int :: s.charges[u] == s.refunds[u] + |Holders(s.calls, u)|)
  }

  ghost predicate AllAccountsOk(cfg: Config, s: State) {
    forall id :: id in s.calls ==> AccountsOk(cfg, s.calls[id])
  }

  /** What a step of call `id` puts on the books. */
  datatype Booking = Nothing | Charge | Refund | Commit(timeLabel: string)

  /** Call `c` became `c'` while `booking` was put on the books. */
  predicate Booked(c: Call, c': Call, booking: Booking) {
    && (c.claim.Some? ==> c'.claim == c.claim)
    && (c'.claim != c.claim ==> c.units == 0 && !c.wrote && booking.Nothing?)
    && (booking.Nothing? || c.claim.Some?)
    && (booking.Commit? ==> c.claim.value.record.nonce.Some?)
    && c'.units == c.units + (if booking.Charge? then 1 else if booking.Refund? then -1 else 0)
    && (if booking.Commit? then !c.wrote && c'.wrote else c'.wrote == c.wrote)
  }

  ghost predicate Books(s: State, s': State, id: nat, c: Call, booking: Booking) {
    && (if id in s.calls then c == s.calls[id] else c.claim.None? && c.units == 0 && !c.wrote)
    && id in s'.calls && s'.calls == s.calls[id := s'.calls[id]]
    && Booked(c, s'.calls[id], booking)
    && s'.charges == (if booking.Charge? then s.charges + multiset{c.claim.value.record.userId} else s.charges)
    && s'.refunds == (if booking.Refund? then s.refunds + multiset{c.claim.value.record.userId} else s.refunds)
    && s'.writes == (if booking.Commit? then s.writes + [WriteOf(c, booking.timeLabel)] else s.writes)
  }

  /** The booking of a step, read off the step alone. */
  function BookingOf(step: Step): Booking {
    match step
    case ConsumeBudget(_, Accepted) => Charge
    case ConsumeBudget(_, ChargeThrew(charged)) => if charged then Charge else Nothing
    case RefundBudget(_, fault) => if fault.ThrewBefore? then Nothing else Refund
    case CalendarWrite(_, WriteOk(timeLabel)) => Commit(timeLabel)
    case _ => Nothing
  }

  predicate OfConfirm(step: Step) {
    && !step.StageVerified? && !step.StageSave? && !step.CancelRow? && !step.PollState?
    && !step.RecoverList? && !step.RecoverLookUp? && !step.RecoverApply?
  }

  lemma {:induction false} BeginBooks(cfg: Config, s: State, id: nat, args: Args, c: Call)
    requires id !in s.calls && c.claim.None? && c.units == 0 && !c.wrote
    ensures var s' := Apply(cfg, s, BeginConfirm(id, args));
      && Books(s, s', id, c, Nothing)
      && AccountsOk(cfg, s'.calls[id])
  {
  }

  lemma {:induction false} CrashBooks(cfg: Config, s: State, id: nat)
    requires id in s.calls && AccountsOk(cfg, s.calls[id])
    ensures var s' := Goto(s, id, Threw);
      && Books(s, s', id, s.calls[id], Nothing)
      && AccountsOk(cfg, s'.calls[id])
  {
  }

  lemma {:induction false} ReadStateBooks(cfg: Config, s: State, id: nat, now: int, fault: Fault)
    requires (At(s, id, CheckingState) || At(s, id, RecheckingState)) && AccountsOk(cfg, s.calls[id])
    ensures var s' := StepReadState(cfg, s, id, now, fault);
      && Books(s, s', id, s.calls[id], Nothing)
      && AccountsOk(cfg, s'.calls[id])
  {
  }

  lemma {:induction false} TakeBooks(cfg: Config, s: State, id: nat, now: int, lease: string, fault: Fault)
    requires At(s, id, Taking) && AccountsOk(cfg, s.calls[id])
    ensures var s' := StepTake(cfg, s, id, now, lease, fault);
      && Books(s, s', id, s.calls[id], Nothing)
      && AccountsOk(cfg, s'.calls[id])
  {
    var c := s.calls[id];
    var got := TakeValid(s.store, c.args.externalId, c.args.userId, BindingOf(c.args), now, lease).1;
    if !fault.ThrewBefore? && got.Some? {
      NewClaimIsOk(cfg, c, Claim(got.value, lease), fault);
    }
    hide TakeValid;
    hide AfterClaim;
    hide AfterMiss;
    hide BindingOf;
    MissIsOk(cfg, c, fault);
  }

  lemma {:induction false} MissIsOk(cfg: Config, c: Call, fault: Fault)
    requires c.pc.Taking? && AccountsOk(cfg, c)
    ensures AccountsOk(cfg, c.(pc := Threw)) && AccountsOk(cfg, c.(pc := Then(fault, AfterMiss(cfg, c.args))))
  {
  }

  lemma {:induction false} NewClaimIsOk(cfg: Config, c: Call, claim: Claim, fault: Fault)
    requires c.pc.Taking? && AccountsOk(cfg, c)
    ensures var held := c.(claim := Some(claim)); var c' := held.(pc := Then(fault, AfterClaim(cfg, held)));
      AccountsOk(cfg, c') && Booked(c, c', Nothing)
  {
  }

  lemma {:induction false} FindReplayBooks(cfg: Config, s: State, id: nat, fault: Fault)
    requires At(s, id, Replaying) && Given(s.calls[id].args.token) && AccountsOk(cfg, s.calls[id])
    ensures var s' := StepFindReplay(s, id, fault);
      && Books(s, s', id, s.calls[id], Nothing)
      && AccountsOk(cfg, s'.calls[id])
  {
  }

  lemma {:induction false} ConsumeBooks(cfg: Config, s: State, id: nat, charge: ChargeResult)
    requires At(s, id, Charging) && Claimed(s, id) && AccountsOk(cfg, s.calls[id])
    ensures var s' := StepConsume(cfg, s, id, charge);
      && Books(s, s', id, s.calls[id], BookingOf(ConsumeBudget(id, charge)))
      && AccountsOk(cfg, s'.calls[id])
  {
    ChargedIsOk(cfg, s.calls[id]);
    hide AccountsOk;
    hide AfterCharge;
    match charge
    case Accepted =>
    case Declined =>
    case ChargeThrew(landed) =>
  }

  lemma {:induction false} ChargedIsOk(cfg: Config, c: Call)
    requires c.pc.Charging? && c.claim.Some? && AccountsOk(cfg, c)
    ensures AccountsOk(cfg, c.(units := c.units + 1, pc := AfterCharge(cfg, c)))
    ensures AccountsOk(cfg, c.(units := c.units + 1, pc := Threw)) && AccountsOk(cfg, c.(pc := Threw))
    ensures AccountsOk(cfg, c.(pc := Releasing(false, Refused(BudgetExceeded))))
  {
  }

  lemma {:induction false} FindAttemptBooks(cfg: Config, s: State, id: nat, fault: Fault)
    requires At(s, id, LookingUp) && Claimed(s, id) && AttemptNonce(s.calls[id]).Some? && AccountsOk(cfg, s.calls[id])
    ensures var s' := StepFindAttempt(s, id, fault);
      && Books(s, s', id, s.calls[id], Nothing)
      && AccountsOk(cfg, s'.calls[id])
  {
  }

  lemma {:induction false} BeginAttemptBooks(cfg: Config, s: State, id: nat, fault: Fault)
    requires At(s, id, Beginning) && Claimed(s, id) && AttemptNonce(s.calls[id]).Some? && AccountsOk(cfg, s.calls[id])
    ensures var s' := StepBeginAttempt(s, id, fault);
      && Books(s, s', id, s.calls[id], Nothing)
      && AccountsOk(cfg, s'.calls[id])
  {
  }

  lemma {:induction false} WriteBooks(cfg: Config, s: State, id: nat, write: WriteResult)
    requires At(s, id, Writing) && Claimed(s, id) && s.calls[id].claim.value.record.nonce.Some? && AccountsOk(cfg, s.calls[id])
    ensures var s' := StepWrite(cfg, s, id, write);
      && Books(s, s', id, s.calls[id], BookingOf(CalendarWrite(id, write)))
      && AccountsOk(cfg, s'.calls[id])
  {
  }

  lemma {:induction false} ConfirmAttemptBooks(cfg: Config, s: State, id: nat, fault: Fault)
    requires Claimed(s, id) && s.calls[id].pc.Recording? && AttemptNonce(s.calls[id]).Some? && AccountsOk(cfg, s.calls[id])
    ensures var s' := StepConfirmAttempt(s, id, fault);
      && Books(s, s', id, s.calls[id], Nothing)
      && AccountsOk(cfg, s'.calls[id])
  {
  }

  lemma {:induction false} CleanupBooks(cfg: Config, s: State, id: nat, fault: Fault, sync: bool)
    requires Claimed(s, id) && s.calls[id].pc.CleaningUp? && AccountsOk(cfg, s.calls[id])
    ensures var s' := StepCleanup(s, id, fault, sync);
      && Books(s, s', id, s.calls[id], Nothing)
      && AccountsOk(cfg, s'.calls[id])
  {
  }

  lemma {:induction false} ClearAttemptBooks(cfg: Config, s: State, id: nat, fault: Fault)
    requires Claimed(s, id) && s.calls[id].pc.Clearing? && AttemptNonce(s.calls[id]).Some? && AccountsOk(cfg, s.calls[id])
    ensures var s' := StepClearAttempt(cfg, s, id, fault);
      && Books(s, s', id, s.calls[id], Nothing)
      && AccountsOk(cfg, s'.calls[id])
  {
  }

  lemma {:induction false} RefundBooks(cfg: Config, s: State, id: nat, fault: Fault)
    requires Claimed(s, id) && s.calls[id].pc.Refunding? && AccountsOk(cfg, s.calls[id])
    ensures var s' := StepRefund(s, id, fault);
      && Books(s, s', id, s.calls[id], BookingOf(RefundBudget(id, fault)))
      && AccountsOk(cfg, s'.calls[id])
  {
  }

  lemma {:induction false} ReleaseBooks(cfg: Config, s: State, id: nat, now: int, fault: Fault)
    requires Claimed(s, id) && s.calls[id].pc.Releasing? && AccountsOk(cfg, s.calls[id])
    ensures var s' := StepRelease(s, id, now, fault);
      && Books(s, s', id, s.calls[id], Nothing)
      && AccountsOk(cfg, s'.calls[id])
  {
  }

  lemma {:induction false} WritesByAppend(writes: seq<Write>, w: Write, user: int)
    ensures WritesBy(writes + [w], user) == WritesBy(writes, user) + (if w.userId == user then 1 else 0)
  {
    assert (writes + [w])[..|writes|] == writes;
  }

  /** The set of writers grows by exactly the call that commits. */
  lemma {:induction false} WritersMove(s: State, s': State, id: nat, c: Call, booking: Booking, user: int)
    requires Books(s, s', id, c, booking)
    ensures var before, after := Writers(s.calls, user), Writers(s'.calls, user);
      if booking.Commit? && WriteOf(c, booking.timeLabel).userId == user then id !in before && after == before + {id}
      else after == before
  {
    forall i | i != id ensures i in Writers(s.calls, user) <==> i in Writers(s'.calls, user) {
    }
  }

  lemma {:induction false} BookedWrites(s: State, s': State, id: nat, c: Call, booking: Booking)
    requires Books(s, s', id, c, booking)
    ensures booking.Commit? ==>
      && c.claim.Some? && c.claim.value.record.nonce.Some?
      && s'.writes == s.writes + [WriteOf(c, booking.timeLabel)]
    ensures !booking.Commit? ==> s'.writes == s.writes
  {
  }

  lemma {:induction false} BookingKeepsWriters(
      cfg: Config, s: State, s': State, id: nat, c: Call, booking: Booking, user: int)
    requires Books(s, s', id, c, booking)
    requires AccountsOk(cfg, c)
    requires WritesBy(s.writes, user) == |Writers(s.calls, user)|
    ensures WritesBy(s'.writes, user) == |Writers(s'.calls, user)|
  {
    hide Writers;
    hide AccountsOk;
    hide WritesBy;
    WritersMove(s, s', id, c, booking, user);
    BookedWrites(s, s', id, c, booking);
    hide Books;
    if booking.Commit? {
      WritesByAppend(s.writes, WriteOf(c, booking.timeLabel), user);
    }
  }

  /** The set of unit holders moves by exactly the call that was charged or refunded. */
  lemma {:induction false} HoldersMove(cfg: Config, s: State, s': State, id: nat, c: Call, booking: Booking, user: int)
    requires Books(s, s', id, c, booking) && cfg.consumeHook
    requires AccountsOk(cfg, c)
    requires AccountsOk(cfg, s'.calls[id])
    ensures var before, after := Holders(s.calls, user), Holders(s'.calls, user);
      if (booking.Charge? || booking.Refund?) && c.claim.value.record.userId == user then
        if booking.Charge? then id !in before && after == before + {id} else id !in after && before == after + {id}
      else after == before
  {
    forall i | i != id ensures i in Holders(s.calls, user) <==> i in Holders(s'.calls, user) {
    }
  }

  lemma {:induction false} BookingKeepsHolders(
      cfg: Config, s: State, s': State, id: nat, c: Call, booking: Booking, user: int)
    requires Books(s, s', id, c, booking) && cfg.consumeHook
    requires AccountsOk(cfg, c)
    requires AccountsOk(cfg, s'.calls[id])
    requires s.charges[user] == s.refunds[user] + |Holders(s.calls, user)|
    ensures s'.charges[user] == s'.refunds[user] + |Holders(s'.calls, user)|
  {
    HoldersMove(cfg, s, s', id, c, booking, user);
  }

  lemma {:induction false} StepBooks(cfg: Config, s: State, step: Step, c: Call)
    requires OfConfirm(step) && Enabled(s, step)
    requires AccountsOk(cfg, c)
    requires if step.id in s.calls then c == s.calls[step.id] else c.claim.None? && c.units == 0 && !c.wrote
    ensures Books(s, Apply(cfg, s, step), step.id, c, BookingOf(step))
    ensures AccountsOk(cfg, Apply(cfg, s, step).calls[step.id])
  {
    hide StepReadState;
    hide StepTake;
    hide StepFindReplay;
    hide StepConsume;
    hide StepFindAttempt;
    hide StepBeginAttempt;
    hide StepWrite;
    hide StepConfirmAttempt;
    hide StepCleanup;
    hide StepClearAttempt;
    hide StepRefund;
    hide StepRelease;
    hide AttemptNonce;
    hide AccountsOk;
    hide Books;
    match step
    case BeginConfirm(id, args) => BeginBooks(cfg, s, id, args, c);
    case Crash(id) => CrashBooks(cfg, s, id);
    case ReadState(id, now, fault) => ReadStateBooks(cfg, s, id, now, fault);
    case TakeRow(id, now, lease, fault) => TakeBooks(cfg, s, id, now, lease, fault);
    case FindReplay(id, fault) => FindReplayBooks(cfg, s, id, fault);
    case ConsumeBudget(id, charge) => ConsumeBooks(cfg, s, id, charge);
    case FindAttempt(id, fault) => FindAttemptBooks(cfg, s, id, fault);
    case BeginAttempt(id, fault) => BeginAttemptBooks(cfg, s, id, fault);
    case CalendarWrite(id, write) => WriteBooks(cfg, s, id, write);
    case ConfirmAttempt(id, fault) => ConfirmAttemptBooks(cfg, s, id, fault);
    case Cleanup(id, fault, sync) => CleanupBooks(cfg, s, id, fault, sync);
    case ClearAttempt(id, fault) => ClearAttemptBooks(cfg, s, id, fault);
    case RefundBudget(id, fault) => RefundBooks(cfg, s, id, fault);
    case ReleaseRow(id, now, fault) => ReleaseBooks(cfg, s, id, now, fault);
    case _ => assert false;
  }

  /** One booked step keeps the whole ledger balanced. */
  lemma {:induction false} BookedStepKeepsBudget(cfg: Config, s: State, s': State, id: nat, c: Call, booking: Booking)
    requires Books(s, s', id, c, booking)
    requires AccountsOk(cfg, c) && AccountsOk(cfg, s'.calls[id])
    requires AllAccountsOk(cfg, s) && LedgerOk(cfg, s)
    ensures AllAccountsOk(cfg, s') && LedgerOk(cfg, s')
  {
    forall u: int
      ensures WritesBy(s'.writes, u) == |Writers(s'.calls, u)|
      ensures cfg.consumeHook ==> s'.charges[u] == s'.refunds[u] + |Holders(s'.calls, u)|
    {
      BookingKeepsWriters(cfg, s, s', id, c, booking, u);
      if cfg.consumeHook {
        BookingKeepsHolders(cfg, s, s', id, c, booking, u);
      }
    }
  }

  lemma {:induction false} StepKeepsBudget(cfg: Config, s: State, step: Step)
    requires Enabled(s, step)
    requires AllAccountsOk(cfg, s) && LedgerOk(cfg, s)
    ensures AllAccountsOk(cfg, Apply(cfg, s, step)) && LedgerOk(cfg, Apply(cfg, s, step))
  {
    if OfConfirm(step) {
      var c := if step.BeginConfirm? then Call(step.args, Taking, None, 0, false) else s.calls[step.id];
      assert AccountsOk(cfg, c);
      hide AccountsOk;
      hide Books;
      hide Apply;
      hide LedgerOk;
      StepBooks(cfg, s, step, c);
      BookedStepKeepsBudget(cfg, s, Apply(cfg, s, step), step.id, c, BookingOf(step));
    } else {
      OtherStepsKeepBudget(cfg, s, step);
    }
  }

  /** The accounts do not depend on what is staged, stored or being recovered. */
  predicate LeavesBooks(s: State, s': State) {
    s'.calls == s.calls && s'.writes == s.writes && s'.charges == s.charges && s'.refunds == s.refunds
  }

  /** A step that leaves the calls, the ledger and the writes alone keeps the budget. */
  lemma {:induction false} SameBooks(cfg: Config, s: State, s': State)
    requires AllAccountsOk(cfg, s) && LedgerOk(cfg, s) && LeavesBooks(s, s')
    ensures AllAccountsOk(cfg, s') && LedgerOk(cfg, s')
  {
  }

  lemma {:induction false} OtherStepsLeaveBooks(cfg: Config, s: State, step: Step)
    requires Enabled(s, step) && !OfConfirm(step)
    ensures LeavesBooks(s, Apply(cfg, s, step))
  {
    hide Save;
    hide CancelPending;
    hide GetPendingState;
    hide StageAccepts;
    hide StepRecoverApply;
    if step.RecoverApply? {
      ApplyLeavesBooks(s, step.rid, step.now);
    }
  }

  lemma {:induction false} OtherStepsKeepBudget(cfg: Config, s: State, step: Step)
    requires Enabled(s, step) && !OfConfirm(step)
    requires AllAccountsOk(cfg, s) && LedgerOk(cfg, s)
    ensures AllAccountsOk(cfg, Apply(cfg, s, step)) && LedgerOk(cfg, Apply(cfg, s, step))
  {
    hide *;
    OtherStepsLeaveBooks(cfg, s, step);
    SameBooks(cfg, s, Apply(cfg, s, step));
  }

  lemma {:induction false} ApplyLeavesBooks(s: State, rid: nat, now: int)
    requires rid in s.recoveries && s.recoveries[rid].known.Some?
    ensures LeavesBooks(s, StepRecoverApply(s, rid, now))
  {
    hide Put;
    hide Remove;
  }
}
