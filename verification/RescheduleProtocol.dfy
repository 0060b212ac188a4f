/**
 * Staging, confirming and cancelling a reschedule as a transition system.
 *
 * Every awaited call of `stage`, `confirm` and `cancelForUser` is one atomic
 * step whose result the environment picks; calls interleave at every await.
 * A faulty call may throw before or after its effect landed. Two things are
 * assumed of the environment: nonces and lease tokens are fresh, and a calendar
 * write that throws did not commit.
 */
module RescheduleProtocol {
  import opened Prelude
  import opened RescheduleStore

  const TOOL_NAME: string := "reschedule_study_session"
  const MAX_SAFE_INTEGER: int := 0x1F_FFFF_FFFF_FFFF

  /** Which optional collaborators are wired, and whether the store insists on a token. */
  datatype Config = Config(requiresToken: bool, attemptStore: bool, consumeHook: bool, refundHook: bool)

  datatype Args = Args(externalId: string, userId: Option<int>, token: Option<string>, binding: Binding)

  datatype Refusal = InvalidRequest | Expired | InProgress | NoRequest | BudgetExceeded | ScopeBlocked | Unavailable

  datatype Doubt = ReplayInDoubt | AttemptInDoubt | CommitUnrecorded

  datatype Answer =
    | Confirmed(timeLabel: string, replayed: bool)
    | Refused(reason: Refusal)
    | UnknownOutcome(doubt: Doubt)

  /** The await a confirm call is suspended at, or how it ended. */
  datatype Pc =
    | CheckingState
    | Taking
    | Replaying
    | RecheckingState
    | Charging
    | LookingUp
    | Beginning
    | Writing
    | Recording(timeLabel: string)
    | CleaningUp(timeLabel: string)
    | Clearing(scope: bool)
    | Refunding(scope: bool)
    | Releasing(cancel: bool, answer: Answer)
    | Returned(answer: Answer)
    | Threw

  datatype Claim = Claim(record: Pending, lease: string)

  /** `units` is what the call consumed minus what it refunded; `wrote` says its write committed. */
  datatype Call = Call(args: Args, pc: Pc, claim: Option<Claim>, units: int, wrote: bool)

  datatype Attempt = Attempting | Committed(timeLabel: string)

  datatype Write = Write(nonce: string, externalId: string, userId: int, calendarId: int, target: Target, timeLabel: string)

  /** What a `stage` call verified for the nonce it issued. */
  datatype Grant = Grant(externalId: string, userId: int, calendarId: int, ownerUserId: int)

  /**
   * The cron at work on one row: what it listed, and whether its look-up knew of
   * an attempt, once it has been made. The lease is the one the row was listed
   * under; the cron itself does not look at it again.
   */
  datatype Recovery = Recovery(key: string, nonce: Option<string>, lease: string, known: Option<bool>)

  datatype State = State(
    store: Store,
    attempts: map<(string, string), Attempt>,
    calls: map<nat, Call>,
    staged: map<string, Pending>,
    granted: map<string, Grant>,
    leases: map<string, nat>,
    writes: seq<Write>,
    charges: multiset<int>,
    refunds: multiset<int>,
    recoveries: map<nat, Recovery>)

  function Initial(): State {
    State(Empty(), map[], map[], map[], map[], map[], [], multiset{}, multiset{}, map[])
  }

  // ----- pure helpers -----------------------------------------------------------

  datatype Entry = Entry(calendarId: int, scheduledTimeLabel: string, ownerUserId: Option<int>)

  datatype ScopeFailure = ScopeUnverified | ScopeMismatch

  predicate IsUserId(x: Option<int>) {
    x.Some? && 0 < x.value <= MAX_SAFE_INTEGER
  }

  /** A value that is not a number is `None`. */
  function ScopeFailureReason(owner: Option<int>, expected: Option<int>): (r: Option<ScopeFailure>)
    ensures r.None? <==> owner == expected && IsUserId(owner)
    ensures r == Some(ScopeMismatch) <==> owner != expected && IsUserId(owner) && IsUserId(expected)
  {
    if !IsUserId(owner) || !IsUserId(expected) then Some(ScopeUnverified)
    else if owner == expected then None
    else Some(ScopeMismatch)
  }

  function FindEntry(entries: seq<Entry>, calendarId: int): (r: Option<Entry>)
    ensures r.Some? ==> r.value in entries && r.value.calendarId == calendarId
  {
    if entries == [] then None
    else if entries[0].calendarId == calendarId then Some(entries[0])
    else FindEntry(entries[1..], calendarId)
  }

  predicate IsHex(c: char) {
    '0' <= c <= '9' || 'a' <= c <= 'f' || 'A' <= c <= 'F'
  }

  /** The version-4 UUID shape an approval token must have. */
  predicate IsApprovalToken(s: string) {
    && |s| == 36
    && s[14] == '4'
    && s[19] in "89abAB"
    && forall i :: 0 <= i < 36 ==>
      if i in {8, 13, 18, 23} then s[i] == '-' else IsHex(s[i])
  }

  predicate RequestAccepted(cfg: Config, a: Args) {
    cfg.requiresToken ==>
      && Given(a.token) && IsApprovalToken(a.token.value)
      && a.userId.Some?
      && Given(a.binding.platform) && Given(a.binding.mappingVersion)
  }

  /** The binding handed to the store: the token, when there is one, is the nonce asked for. */
  function BindingOf(a: Args): Binding {
    if Given(a.token) then a.binding.(nonce := a.token) else a.binding
  }

  predicate RecordComplete(p: Pending) {
    p.toolName == Some(TOOL_NAME) && Given(p.intentHash) && Given(p.argsHash) && Given(p.nonce)
  }

  function AttemptNonce(c: Call): Option<string>
    requires c.claim.Some?
  {
    if c.claim.value.record.nonce.Some? then c.claim.value.record.nonce else c.args.token
  }

  predicate UsesAttempts(cfg: Config, c: Call)
    requires c.claim.Some?
  {
    cfg.attemptStore && Given(AttemptNonce(c))
  }

  function AttemptKey(c: Call): (string, string)
    requires c.claim.Some? && AttemptNonce(c).Some?
  {
    (c.args.externalId, AttemptNonce(c).value)
  }

  // ----- where a confirm call goes next --------------------------------------------

  function AfterCharge(cfg: Config, c: Call): Pc
    requires c.claim.Some?
  {
    if UsesAttempts(cfg, c) then LookingUp else Writing
  }

  function AfterClaim(cfg: Config, c: Call): Pc
    requires c.claim.Some?
  {
    if cfg.requiresToken && !RecordComplete(c.claim.value.record) then Releasing(false, Refused(InvalidRequest))
    else if cfg.consumeHook then Charging
    else AfterCharge(cfg, c)
  }

  function AfterFailedWrite(cfg: Config, c: Call, scope: bool): Pc
    requires c.claim.Some?
  {
    if UsesAttempts(cfg, c) then Clearing(scope) else AfterClear(cfg, scope)
  }

  function AfterClear(cfg: Config, scope: bool): Pc {
    if cfg.refundHook then Refunding(scope) else AfterRefund(scope)
  }

  function AfterRefund(scope: bool): Pc {
    if scope then Releasing(true, Refused(ScopeBlocked)) else Releasing(false, Refused(Unavailable))
  }

  function AfterMiss(cfg: Config, a: Args): Pc {
    if cfg.attemptStore && Given(a.token) then Replaying else RecheckingState
  }

  function AnswerFor(state: PendingState): Answer {
    match state
    case StateExpired => Refused(Expired)
    case StateProcessing => Refused(InProgress)
    case _ => Refused(NoRequest)
  }

  // ----- steps ------------------------------------------------------------------------

  /** How a port call went. */
  datatype Fault = Fine | ThrewBefore | ThrewAfter

  datatype ChargeResult = Accepted | Declined | ChargeThrew(charged: bool)

  datatype WriteResult = WriteOk(timeLabel: string) | WriteThrew(scope: bool)

  datatype Step =
    | BeginConfirm(id: nat, args: Args)
    | ReadState(id: nat, now: int, fault: Fault)
    | TakeRow(id: nat, now: int, lease: string, fault: Fault)
    | FindReplay(id: nat, fault: Fault)
    | ConsumeBudget(id: nat, charge: ChargeResult)
    | FindAttempt(id: nat, fault: Fault)
    | BeginAttempt(id: nat, fault: Fault)
    | CalendarWrite(id: nat, write: WriteResult)
    | ConfirmAttempt(id: nat, fault: Fault)
    | Cleanup(id: nat, fault: Fault, threwSynchronously: bool)
    | ClearAttempt(id: nat, fault: Fault)
    | RefundBudget(id: nat, fault: Fault)
    | ReleaseRow(id: nat, now: int, fault: Fault)
    | StageVerified(record: Pending, entries: seq<Entry>)
    | StageSave(stagedNonce: string, now: int, fault: Fault)
    | CancelRow(externalId: string, nonce: Option<string>, now: int)
    | PollState(externalId: string, now: int)
    | Crash(id: nat)
    | RecoverList(rid: nat, externalId: string)
    | RecoverLookUp(rid: nat, asked: string, failed: bool)
    | RecoverApply(rid: nat, now: int)

  predicate At(s: State, id: nat, pc: Pc) {
    id in s.calls && s.calls[id].pc == pc
  }

  predicate Claimed(s: State, id: nat) {
    id in s.calls && s.calls[id].claim.Some?
  }

  /** `stage` found the entry in the learner's own calendar and minted the record's nonce. */
  predicate StageAccepts(s: State, p: Pending, entries: seq<Entry>) {
    var entry := FindEntry(entries, p.calendarId);
    && entry.Some?
    && ScopeFailureReason(entry.value.ownerUserId, Some(p.userId)).None?
    && p.sessionLabel == entry.value.scheduledTimeLabel
    && p.leaseToken.None?
    && p.toolName == Some(TOOL_NAME)
    && Given(p.intentHash) && Given(p.argsHash)
    && Given(p.nonce) && p.nonce.value !in s.granted
  }

  predicate Enabled(s: State, step: Step) {
    match step
    case BeginConfirm(id, _) => id !in s.calls
    case ReadState(id, _, _) => At(s, id, CheckingState) || At(s, id, RecheckingState)
    case TakeRow(id, _, lease, _) => At(s, id, Taking) && lease !in s.leases
    case FindReplay(id, _) => At(s, id, Replaying) && Given(s.calls[id].args.token)
    case ConsumeBudget(id, _) => At(s, id, Charging) && Claimed(s, id)
    case FindAttempt(id, _) => At(s, id, LookingUp) && Claimed(s, id) && AttemptNonce(s.calls[id]).Some?
    case BeginAttempt(id, _) => At(s, id, Beginning) && Claimed(s, id) && AttemptNonce(s.calls[id]).Some?
    case CalendarWrite(id, _) =>
      At(s, id, Writing) && Claimed(s, id) && s.calls[id].claim.value.record.nonce.Some?
    case ConfirmAttempt(id, _) =>
      Claimed(s, id) && s.calls[id].pc.Recording? && AttemptNonce(s.calls[id]).Some?
    case Cleanup(id, _, _) => Claimed(s, id) && s.calls[id].pc.CleaningUp?
    case ClearAttempt(id, _) =>
      Claimed(s, id) && s.calls[id].pc.Clearing? && AttemptNonce(s.calls[id]).Some?
    case RefundBudget(id, _) => Claimed(s, id) && s.calls[id].pc.Refunding?
    case ReleaseRow(id, _, _) => Claimed(s, id) && s.calls[id].pc.Releasing?
    case StageVerified(p, entries) => StageAccepts(s, p, entries)
    case StageSave(nonce, _, _) => nonce in s.staged
    case CancelRow(_, _, _) => true
    case PollState(_, _) => true
    case Crash(id) => id in s.calls && !Ended(s.calls[id].pc)
    case RecoverList(rid, key) =>
      && rid !in s.recoveries && key in s.store.rows
      && s.store.rows[key].claimed && s.store.rows[key].record.leaseToken.Some?
    case RecoverLookUp(rid, _, _) => rid in s.recoveries && s.recoveries[rid].known.None?
    case RecoverApply(rid, _) => rid in s.recoveries && s.recoveries[rid].known.Some?
  }

  predicate Ended(pc: Pc) {
    pc.Returned? || pc.Threw?
  }

  function Goto(s: State, id: nat, pc: Pc): State
    requires id in s.calls
  {
    s.(calls := s.calls[id := s.calls[id].(pc := pc)])
  }

  /** The continuation when a port call may throw: its effect lands unless it threw before. */
  function Then(fault: Fault, onFine: Pc): Pc {
    if fault.Fine? then onFine else Threw
  }

  function StepReadState(cfg: Config, s: State, id: nat, now: int, fault: Fault): State
    requires id in s.calls
  {
    var c := s.calls[id];
    var (store, state) := GetPendingState(s.store, c.args.externalId, now);
    var next :=
      if c.pc.RecheckingState? then Returned(AnswerFor(state))
      else if state.StateExpired? then Returned(Refused(Expired))
      else Taking;
    Goto(if fault.ThrewBefore? then s else s.(store := store), id, Then(fault, next))
  }

  function StepTake(cfg: Config, s: State, id: nat, now: int, lease: string, fault: Fault): State
    requires id in s.calls
  {
    var c := s.calls[id];
    if fault.ThrewBefore? then Goto(s, id, Threw)
    else
      var (store, got) := TakeValid(s.store, c.args.externalId, c.args.userId, BindingOf(c.args), now, lease);
      var s1 := s.(store := store);
      match got
      case None => Goto(s1, id, Then(fault, AfterMiss(cfg, c.args)))
      case Some(p) =>
        var held := c.(claim := Some(Claim(p, lease)));
        s1.(leases := s.leases[lease := id],
            calls := s.calls[id := held.(pc := Then(fault, AfterClaim(cfg, held)))])
  }

  function StepFindReplay(s: State, id: nat, fault: Fault): State
    requires id in s.calls && s.calls[id].args.token.Some?
  {
    var a := s.calls[id].args;
    var key := (a.externalId, a.token.value);
    var next :=
      if key !in s.attempts then RecheckingState
      else match s.attempts[key]
        case Committed(timeLabel) => Returned(Confirmed(timeLabel, true))
        case Attempting => Returned(UnknownOutcome(ReplayInDoubt));
    Goto(s, id, Then(fault, next))
  }

  function StepConsume(cfg: Config, s: State, id: nat, charge: ChargeResult): State
    requires Claimed(s, id)
  {
    var c := s.calls[id];
    var user := c.claim.value.record.userId;
    var charged := c.(units := c.units + 1);
    match charge
    case Accepted =>
      s.(charges := s.charges + multiset{user}, calls := s.calls[id := charged.(pc := AfterCharge(cfg, c))])
    case Declined => Goto(s, id, Releasing(false, Refused(BudgetExceeded)))
    case ChargeThrew(landed) =>
      if landed then s.(charges := s.charges + multiset{user}, calls := s.calls[id := charged.(pc := Threw)])
      else Goto(s, id, Threw)
  }

  function StepFindAttempt(s: State, id: nat, fault: Fault): State
    requires Claimed(s, id) && AttemptNonce(s.calls[id]).Some?
  {
    var key := AttemptKey(s.calls[id]);
    var inDoubt := key in s.attempts && s.attempts[key].Attempting?;
    Goto(s, id, Then(fault, if inDoubt then Releasing(false, UnknownOutcome(AttemptInDoubt)) else Beginning))
  }

  function StepBeginAttempt(s: State, id: nat, fault: Fault): State
    requires Claimed(s, id) && AttemptNonce(s.calls[id]).Some?
  {
    var s1 := if fault.ThrewBefore? then s else s.(attempts := s.attempts[AttemptKey(s.calls[id]) := Attempting]);
    Goto(s1, id, Then(fault, Writing))
  }

  function WriteOf(c: Call, timeLabel: string): Write
    requires c.claim.Some? && c.claim.value.record.nonce.Some?
  {
    var p := c.claim.value.record;
    Write(p.nonce.value, p.externalId, p.userId, p.calendarId, p.target, timeLabel)
  }

  function StepWrite(cfg: Config, s: State, id: nat, write: WriteResult): State
    requires Claimed(s, id) && s.calls[id].claim.value.record.nonce.Some?
  {
    var c := s.calls[id];
    match write
    case WriteThrew(scope) => Goto(s, id, AfterFailedWrite(cfg, c, scope))
    case WriteOk(timeLabel) =>
      var next := if UsesAttempts(cfg, c) then Recording(timeLabel) else CleaningUp(timeLabel);
      s.(writes := s.writes + [WriteOf(c, timeLabel)], calls := s.calls[id := c.(pc := next, wrote := true)])
  }

  /** A missing record and a failed call both leave the committed write in doubt. */
  function StepConfirmAttempt(s: State, id: nat, fault: Fault): State
    requires Claimed(s, id) && s.calls[id].pc.Recording? && AttemptNonce(s.calls[id]).Some?
  {
    var key := AttemptKey(s.calls[id]);
    var timeLabel := s.calls[id].pc.timeLabel;
    var recorded := key in s.attempts;
    var s1 := if fault.ThrewBefore? || !recorded then s else s.(attempts := s.attempts[key := Committed(timeLabel)]);
    Goto(s1, id, if fault.Fine? && recorded then CleaningUp(timeLabel) else Returned(UnknownOutcome(CommitUnrecorded)))
  }

  /** A rejected clean-up is swallowed; one that throws before returning a promise is not. */
  function StepCleanup(s: State, id: nat, fault: Fault, threwSynchronously: bool): State
    requires Claimed(s, id) && s.calls[id].pc.CleaningUp?
  {
    var c := s.calls[id];
    var store := CancelClaimed(s.store, c.args.externalId, c.claim.value.lease);
    Goto(if fault.ThrewBefore? then s else s.(store := store), id,
         if threwSynchronously then Returned(UnknownOutcome(CommitUnrecorded))
         else Returned(Confirmed(c.pc.timeLabel, false)))
  }

  /**
   * A rejected clearing is swallowed. One that throws before returning a promise
   * ends the call, which is a `Crash` at this await, or at the next if it cleared.
   */
  function StepClearAttempt(cfg: Config, s: State, id: nat, fault: Fault): State
    requires Claimed(s, id) && s.calls[id].pc.Clearing? && AttemptNonce(s.calls[id]).Some?
  {
    var c := s.calls[id];
    Goto(if fault.ThrewBefore? then s else s.(attempts := s.attempts - {AttemptKey(c)}), id, AfterClear(cfg, c.pc.scope))
  }

  function StepRefund(s: State, id: nat, fault: Fault): State
    requires Claimed(s, id) && s.calls[id].pc.Refunding?
  {
    var c := s.calls[id];
    var next := Then(fault, AfterRefund(c.pc.scope));
    if fault.ThrewBefore? then Goto(s, id, next)
    else s.(refunds := s.refunds + multiset{c.claim.value.record.userId},
            calls := s.calls[id := c.(units := c.units - 1, pc := next)])
  }

  function StepRelease(s: State, id: nat, now: int, fault: Fault): State
    requires Claimed(s, id) && s.calls[id].pc.Releasing?
  {
    var c := s.calls[id];
    var store :=
      if c.pc.cancel then CancelClaimed(s.store, c.args.externalId, c.claim.value.lease)
      else RevertToPending(s.store, c.args.externalId, c.claim.value.lease, now);
    Goto(if fault.ThrewBefore? then s else s.(store := store), id, Then(fault, Returned(c.pc.answer)))
  }

  function StepStageVerified(s: State, p: Pending, entries: seq<Entry>): State
    requires StageAccepts(s, p, entries)
  {
    var owner := FindEntry(entries, p.calendarId).value.ownerUserId.value;
    s.(staged := s.staged[p.nonce.value := p],
       granted := s.granted[p.nonce.value := Grant(p.externalId, p.userId, p.calendarId, owner)])
  }

  function StepStageSave(s: State, nonce: string, now: int, fault: Fault): State
    requires nonce in s.staged
  {
    var s1 := s.(staged := s.staged - {nonce});
    if fault.ThrewBefore? then s1 else s1.(store := Save(s.store, s.staged[nonce], now).0)
  }

  /** The cron lists a row that has been claimed for too long. */
  function StepRecoverList(s: State, rid: nat, key: string): State
    requires key in s.store.rows && s.store.rows[key].record.leaseToken.Some?
  {
    var p := s.store.rows[key].record;
    s.(recoveries := s.recoveries[rid := Recovery(key, p.nonce, p.leaseToken.value, None)])
  }

  /**
   * It asks whether an attempt was made under the listed nonce. A failed look-up,
   * and no attempt store at all, count as "no".
   */
  function StepRecoverLookUp(cfg: Config, s: State, rid: nat, asked: string, failed: bool): State
    requires rid in s.recoveries
  {
    var r := s.recoveries[rid];
    var known := cfg.attemptStore && !failed && Given(r.nonce) && (asked, r.nonce.value) in s.attempts;
    s.(recoveries := s.recoveries[rid := r.(known := Some(known))])
  }

  function Rearmed(p: Pending, now: int): Row {
    Row(p.(leaseToken := None, expiresAt := now + PENDING_TTL_MS), false)
  }

  /** If the row is still claimed, by whomever, it is taken out or goes back to pending. */
  function StepRecoverApply(s: State, rid: nat, now: int): State
    requires rid in s.recoveries && s.recoveries[rid].known.Some?
  {
    var r := s.recoveries[rid];
    var done := s.(recoveries := s.recoveries - {rid});
    if r.key !in s.store.rows || !s.store.rows[r.key].claimed then done
    else
      var p := s.store.rows[r.key].record;
      done.(store :=
        if r.known.value then Remove(s.store, r.key)
        else Put(s.store, r.key, Rearmed(p, now)))
  }

  function Apply(cfg: Config, s: State, step: Step): State
    requires Enabled(s, step)
  {
    match step
    case BeginConfirm(id, args) =>
      var pc := if RequestAccepted(cfg, args) then CheckingState else Returned(Refused(InvalidRequest));
      s.(calls := s.calls[id := Call(args, pc, None, 0, false)])
    case ReadState(id, now, fault) => StepReadState(cfg, s, id, now, fault)
    case TakeRow(id, now, lease, fault) => StepTake(cfg, s, id, now, lease, fault)
    case FindReplay(id, fault) => StepFindReplay(s, id, fault)
    case ConsumeBudget(id, charge) => StepConsume(cfg, s, id, charge)
    case FindAttempt(id, fault) => StepFindAttempt(s, id, fault)
    case BeginAttempt(id, fault) => StepBeginAttempt(s, id, fault)
    case CalendarWrite(id, write) => StepWrite(cfg, s, id, write)
    case ConfirmAttempt(id, fault) => StepConfirmAttempt(s, id, fault)
    case Cleanup(id, fault, sync) => StepCleanup(s, id, fault, sync)
    case ClearAttempt(id, fault) => StepClearAttempt(cfg, s, id, fault)
    case RefundBudget(id, fault) => StepRefund(s, id, fault)
    case ReleaseRow(id, now, fault) => StepRelease(s, id, now, fault)
    case StageVerified(p, entries) => StepStageVerified(s, p, entries)
    case StageSave(nonce, now, fault) => StepStageSave(s, nonce, now, fault)
    case CancelRow(key, nonce, now) => s.(store := CancelPending(s.store, key, nonce, now).0)
    case PollState(key, now) => s.(store := GetPendingState(s.store, key, now).0)
    case Crash(id) => Goto(s, id, Threw)
    case RecoverList(rid, key) => StepRecoverList(s, rid, key)
    case RecoverLookUp(rid, asked, failed) => StepRecoverLookUp(cfg, s, rid, asked, failed)
    case RecoverApply(rid, now) => StepRecoverApply(s, rid, now)
  }

  /** The state after the steps of `run`, in order; none when some step was not possible. */
  function Exec(cfg: Config, run: seq<Step>): Option<State>
    decreases |run|
  {
    if run == [] then Some(Initial())
    else
      var before := Exec(cfg, run[..|run| - 1]);
      var step := run[|run| - 1];
      if before.Some? && Enabled(before.value, step) then Some(Apply(cfg, before.value, step)) else None
  }

  /** What recovery has to be held to. */
  datatype Condition = StoreWired | LookUpAnswered | AsksRowsId | HolderIsOver | LeaseUnchanged

  /** The call that took the lease is over. */
  predicate LeaseIsOver(s: State, lease: string) {
    lease in s.leases && s.leases[lease] in s.calls && Ended(s.calls[s.leases[lease]].pc)
  }

  /**
   * An attempt store is wired; the look-up is answered, under the external id the
   * row was confirmed by; the call that claimed the row is over before it; and
   * when the row is touched it is still under the lease it was listed under.
   */
  predicate Meets(cfg: Config, s: State, step: Step, condition: Condition)
    requires Enabled(s, step)
  {
    match condition
    case StoreWired => step.RecoverLookUp? ==> cfg.attemptStore
    case LookUpAnswered => step.RecoverLookUp? ==> !step.failed
    case AsksRowsId => step.RecoverLookUp? ==> step.asked == s.recoveries[step.rid].key
    case HolderIsOver => step.RecoverLookUp? ==> LeaseIsOver(s, s.recoveries[step.rid].lease)
    case LeaseUnchanged =>
      step.RecoverApply? ==>
        var r := s.recoveries[step.rid];
        r.key in s.store.rows && s.store.rows[r.key].claimed ==>
          s.store.rows[r.key].record.leaseToken == Some(r.lease)
  }

  predicate Disciplined(cfg: Config, s: State, step: Step) {
    Enabled(s, step) ==>
      && Meets(cfg, s, step, StoreWired) && Meets(cfg, s, step, LookUpAnswered) && Meets(cfg, s, step, AsksRowsId)
      && Meets(cfg, s, step, HolderIsOver) && Meets(cfg, s, step, LeaseUnchanged)
  }

  ghost predicate DisciplinedRun(cfg: Config, run: seq<Step>) {
    forall i {:trigger run[i]} :: 0 <= i < |run| && Exec(cfg, run[..i]).Some? ==>
      Disciplined(cfg, Exec(cfg, run[..i]).value, run[i])
  }

  ghost predicate Reachable(cfg: Config, s: State) {
    exists run :: DisciplinedRun(cfg, run) && Exec(cfg, run) == Some(s)
  }
}
