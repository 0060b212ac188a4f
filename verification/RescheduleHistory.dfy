/**
 * What the state of the protocol says of its past is what happened: every write is
 * of a request as it was staged and verified, the books hold what the steps put
 * into them, and a request that is gone never comes back.
 */
module RescheduleHistory {
  import opened Prelude
  import opened RescheduleStore
  import opened RescheduleProtocol
  import opened RescheduleSafety
  import opened RescheduleBudget
  import opened RescheduleTheorems
  import opened RescheduleAnswers

  // ----- staging and claiming, exactly -----------------------------------------------------

  /** The first entry with the calendar id is the learner's own. */
  ghost predicate Owns(entries: seq<Entry>, p: Pending) {
    && 0 < p.userId <= 9_007_199_254_740_991
    && exists i ::
      && 0 <= i < |entries| && entries[i].calendarId == p.calendarId && entries[i].ownerUserId == Some(p.userId)
      && entries[i].scheduledTimeLabel == p.sessionLabel
      && forall j :: 0 <= j < i ==> entries[j].calendarId != p.calendarId
  }

  lemma {:induction false} FirstEntryIsFound(entries: seq<Entry>, i: nat)
    requires i < |entries| && forall j :: 0 <= j < i ==> entries[j].calendarId != entries[i].calendarId
    ensures FindEntry(entries, entries[i].calendarId) == Some(entries[i])
  {
    if i > 0 {
      FirstEntryIsFound(entries[1..], i - 1);
    }
  }

  lemma {:induction false} FoundEntryIsFirst(entries: seq<Entry>, calendarId: int) returns (i: nat)
    requires FindEntry(entries, calendarId).Some?
    ensures i < |entries| && entries[i] == FindEntry(entries, calendarId).value && entries[i].calendarId == calendarId
    ensures forall j :: 0 <= j < i ==> entries[j].calendarId != calendarId
  {
    i := 0;
    if entries[0].calendarId != calendarId {
      var k := FoundEntryIsFirst(entries[1..], calendarId);
      i := k + 1;
    }
  }

  /** A request is staged for exactly the learner's own entry, with all that `confirm` asks for and a new nonce. */
  lemma {:induction false} StageAcceptsIff(s: State, p: Pending, entries: seq<Entry>)
    ensures StageAccepts(s, p, entries) <==>
      && Owns(entries, p) && p.leaseToken.None? && p.toolName == Some("reschedule_study_session")
      && Filled(p.intentHash) && Filled(p.argsHash) && Filled(p.nonce) && p.nonce.value !in s.granted
  {
    if StageAccepts(s, p, entries) {
      var i := FoundEntryIsFirst(entries, p.calendarId);
      assert entries[i].calendarId == p.calendarId && entries[i].ownerUserId == Some(p.userId);
    }
    if Owns(entries, p) {
      var i :| 0 <= i < |entries| && entries[i].calendarId == p.calendarId && entries[i].ownerUserId == Some(p.userId)
        && entries[i].scheduledTimeLabel == p.sessionLabel
        && forall j :: 0 <= j < i ==> entries[j].calendarId != p.calendarId;
      FirstEntryIsFound(entries, i);
    }
  }

  /**
   * A call gets its row exactly if it waits there unexpired for that learner, under
   * the platform, mapping and hashes asked for, and under the call's own token, or,
   * if it has none, the nonce asked for.
   */
  lemma {:induction false} TakeIsExact(cfg: Config, s: State, id: nat, now: int, lease: string)
    requires WellFormed(s.store) && Enabled(s, TakeRow(id, now, lease, Fine))
    ensures var a, s' := s.calls[id].args, Apply(cfg, s, TakeRow(id, now, lease, Fine));
      id in s'.calls && (s.calls[id].claim.None? ==>
        (s'.calls[id].claim.Some? <==>
           && See(s.store.rows, a.externalId, now) == Waiting
           && var p := s.store.rows[a.externalId].record;
              && (a.userId.Some? ==> p.userId == a.userId.value)
              && Matches(a.binding.platform, p.platform) && Matches(a.binding.mappingVersion, p.mappingVersion)
              && Matches(a.binding.intentHash, p.intentHash) && Matches(a.binding.argsHash, p.argsHash)
              && Matches(if Filled(a.token) then a.token else a.binding.nonce, p.nonce)))
  {
    hide TakeValid;
    hide WellFormed;
    hide AfterClaim;
    hide AfterMiss;
    var a := s.calls[id].args;
    ClaimIsExact(s.store, a.externalId, a.userId, BindingOf(a), now, lease);
    var (after, got) := TakeValid(s.store, a.externalId, a.userId, BindingOf(a), now, lease);
    var taken := Apply(cfg, s, TakeRow(id, now, lease, Fine)).calls[id];
    assert s.calls[id].claim.None? ==> (taken.claim.Some? <==> got.Some?);
  }

  // ----- what a step does to the rows -----------------------------------------------------------

  /** The row is still under the lease the call took it by. */
  predicate Holds(s: State, id: nat) {
    && Claimed(s, id) && s.calls[id].args.externalId in s.store.rows
    && var row := s.store.rows[s.calls[id].args.externalId];
       row.claimed && row.record.leaseToken == Some(s.calls[id].claim.value.lease)
  }

  function WithoutIf(rows: map<string, Row>, key: string, condition: bool): map<string, Row> {
    if condition then rows - {key} else rows
  }

  lemma {:induction false} LooksAreExact(cfg: Config, s: State, id: nat, now: int, fault: Fault)
    requires WellFormed(s.store) && id in s.calls
    ensures var rows, key := s.store.rows, s.calls[id].args.externalId;
      StepReadState(cfg, s, id, now, fault).store.rows
        == WithoutIf(rows, key, fault != ThrewBefore && See(rows, key, now) == Outdated)
  {
    hide WellFormed;
    hide GetPendingState;
    hide AnswerFor;
    var key := s.calls[id].args.externalId;
    QueryIsExact(s.store, key, now);
    var (after, state) := GetPendingState(s.store, key, now);
    assert after.rows == WithoutIf(s.store.rows, key, See(s.store.rows, key, now) == Outdated);
  }

  lemma {:induction false} CleaningIsExact(s: State, id: nat, fault: Fault, sync: bool)
    requires WellFormed(s.store) && Claimed(s, id) && s.calls[id].pc.CleaningUp?
    ensures StepCleanup(s, id, fault, sync).store.rows
      == WithoutIf(s.store.rows, s.calls[id].args.externalId, fault != ThrewBefore && Holds(s, id))
  {
    hide WellFormed;
    hide CancelClaimed;
    LeaseOperationsAreFenced(s.store, s.calls[id].args.externalId, s.calls[id].claim.value.lease, 0);
  }

  lemma {:induction false} ReleasingIsExact(s: State, id: nat, now: int, fault: Fault)
    requires WellFormed(s.store) && Claimed(s, id) && s.calls[id].pc.Releasing?
    ensures var rows, key := s.store.rows, s.calls[id].args.externalId;
      StepRelease(s, id, now, fault).store.rows
        == if fault == ThrewBefore || !Holds(s, id) then rows
           else if s.calls[id].pc.cancel then rows - {key}
           else rows[key := Row(rows[key].record.(expiresAt := now + 600_000), false)]
  {
    hide WellFormed;
    hide CancelClaimed;
    hide RevertToPending;
    LeaseOperationsAreFenced(s.store, s.calls[id].args.externalId, s.calls[id].claim.value.lease, now);
  }

  /**
   * A look at the state takes out an expired row and no other; a cancel the row it
   * names; and a call that is done with its row changes it only under its own lease.
   */
  lemma {:induction false} RowsChangeExactly(cfg: Config, s: State, step: Step)
    requires WellFormed(s.store) && Enabled(s, step)
    ensures var rows, after := s.store.rows, Apply(cfg, s, step).store.rows;
      match step
      case ReadState(id, now, fault) =>
        var key := s.calls[id].args.externalId;
        after == WithoutIf(rows, key, fault != ThrewBefore && See(rows, key, now) == Outdated)
      case PollState(key, now) => after == WithoutIf(rows, key, See(rows, key, now) == Outdated)
      case CancelRow(key, nonce, now) =>
        after == WithoutIf(rows, key,
          key in rows && !rows[key].claimed && (nonce.Some? ==> rows[key].record.nonce == nonce))
      case Cleanup(id, fault, _) =>
        after == WithoutIf(rows, s.calls[id].args.externalId, fault != ThrewBefore && Holds(s, id))
      case ReleaseRow(id, now, fault) =>
        var key := s.calls[id].args.externalId;
        after == if fault == ThrewBefore || !Holds(s, id) then rows
                 else if s.calls[id].pc.cancel then rows - {key}
                 else rows[key := Row(rows[key].record.(expiresAt := now + 600_000), false)]
      case _ => true
  {
    hide WellFormed;
    hide StepReadState;
    hide StepCleanup;
    hide StepRelease;
    hide GetPendingState;
    hide CancelPending;
    hide StageAccepts;
    hide AttemptNonce;
    match step
    case ReadState(id, now, fault) => LooksAreExact(cfg, s, id, now, fault);
    case PollState(key, now) => QueryIsExact(s.store, key, now);
    case CancelRow(key, nonce, now) => CancelIsExact(s.store, key, nonce, now);
    case Cleanup(id, fault, sync) => CleaningIsExact(s, id, fault, sync);
    case ReleaseRow(id, now, fault) => ReleasingIsExact(s, id, now, fault);
    case _ =>
  }

  // ----- the books -------------------------------------------------------------------------------

  /** The nonce a call's attempt is recorded under. */
  function NonceOf(c: Call): Option<string> {
    if c.claim.Some? && c.claim.value.record.nonce.Some? then c.claim.value.record.nonce else c.args.token
  }

  predicate Asks(s: State, step: Step) {
    OfConfirm(step) && !step.BeginConfirm? && step.id in s.calls
  }

  /** A write that commits is the request's as the call holds it. */
  function WrittenBy(s: State, step: Step): seq<Write> {
    if Asks(s, step) && step.CalendarWrite? && step.write.WriteOk? && s.calls[step.id].claim.Some?
       && s.calls[step.id].claim.value.record.nonce.Some? then
      var p := s.calls[step.id].claim.value.record;
      [Write(p.nonce.value, p.externalId, p.userId, p.calendarId, p.target, step.write.timeLabel)]
    else []
  }

  /** A charge that landed is the learner's whose request it is, and so is a refund. */
  function ChargedBy(s: State, step: Step): multiset<int> {
    if Asks(s, step) && step.ConsumeBudget? && (step.charge.Accepted? || step.charge == ChargeThrew(true))
       && s.calls[step.id].claim.Some? then multiset{s.calls[step.id].claim.value.record.userId} else multiset{}
  }

  function RefundedBy(s: State, step: Step): multiset<int> {
    if Asks(s, step) && step.RefundBudget? && step.fault != ThrewBefore && s.calls[step.id].claim.Some?
    then multiset{s.calls[step.id].claim.value.record.userId} else multiset{}
  }

  /** A record is opened, committed with the label of the write, or cleared, unless the port failed before that. */
  function RecordsAfter(records: map<(string, string), Attempt>, s: State, step: Step): map<(string, string), Attempt> {
    if !Asks(s, step) || NonceOf(s.calls[step.id]).None? then records
    else
      var c := s.calls[step.id];
      var key := (c.args.externalId, NonceOf(c).value);
      match step
      case BeginAttempt(_, fault) => if fault != ThrewBefore then records[key := Attempting] else records
      case ClearAttempt(_, fault) => if fault != ThrewBefore then records - {key} else records
      case ConfirmAttempt(_, fault) =>
        if fault != ThrewBefore && key in records && c.pc.Recording? then records[key := Committed(c.pc.timeLabel)]
        else records
      case _ => records
  }

  /** A request is staged when it has been verified, and no longer once its save was tried. */
  function StagedAfter(staged: map<string, Pending>, step: Step): map<string, Pending> {
    match step
    case StageVerified(p, _) => if p.nonce.Some? then staged[p.nonce.value := p] else staged
    case StageSave(nonce, _, _) => staged - {nonce}
    case _ => staged
  }

  predicate TouchesStore(step: Step) {
    step.ReadState? || step.TakeRow? || step.Cleanup? || step.ReleaseRow?
  }

  predicate Booked(s: State, s': State, step: Step) {
    && s'.writes == s.writes + WrittenBy(s, step)
    && s'.charges == s.charges + ChargedBy(s, step)
    && s'.refunds == s.refunds + RefundedBy(s, step)
    && s'.attempts == RecordsAfter(s.attempts, s, step)
    && s'.staged == StagedAfter(s.staged, step)
    && (!step.StageVerified? ==> s'.granted == s.granted)
    && (OfConfirm(step) && !TouchesStore(step) ==> s'.store == s.store)
    && (Asks(s, step) ==>
          && step.id in s'.calls
          && (step.TakeRow? || s'.calls[step.id].claim == s.calls[step.id].claim)
          && s'.calls[step.id].units == s.calls[step.id].units + |ChargedBy(s, step)| - |RefundedBy(s, step)|
          && (s'.calls[step.id].wrote <==> s.calls[step.id].wrote || WrittenBy(s, step) != []))
  }

  /** Each book has steps of its own. */
  lemma {:induction false} OthersWriteNothing(s: State, step: Step)
    ensures !step.CalendarWrite? ==> WrittenBy(s, step) == []
    ensures !step.ConsumeBudget? ==> ChargedBy(s, step) == multiset{}
    ensures !step.RefundBudget? ==> RefundedBy(s, step) == multiset{}
    ensures !step.BeginAttempt? && !step.ClearAttempt? && !step.ConfirmAttempt? ==>
      RecordsAfter(s.attempts, s, step) == s.attempts
    ensures !step.StageVerified? && !step.StageSave? ==> StagedAfter(s.staged, step) == s.staged
  {
  }

  lemma {:induction false} ReadingBooks(cfg: Config, s: State, id: nat, now: int, fault: Fault)
    requires id in s.calls
    ensures Booked(s, StepReadState(cfg, s, id, now, fault), ReadState(id, now, fault))
  {
    hide GetPendingState;
    hide AnswerFor;
    hide WrittenBy;
    hide ChargedBy;
    hide RefundedBy;
    hide RecordsAfter;
    hide StagedAfter;
    OthersWriteNothing(s, ReadState(id, now, fault));
  }

  lemma {:induction false} TakingBooks(cfg: Config, s: State, id: nat, now: int, lease: string, fault: Fault)
    requires id in s.calls
    ensures Booked(s, StepTake(cfg, s, id, now, lease, fault), TakeRow(id, now, lease, fault))
  {
    hide TakeValid;
    hide AfterClaim;
    hide AfterMiss;
    hide BindingOf;
    hide WrittenBy;
    hide ChargedBy;
    hide RefundedBy;
    hide RecordsAfter;
    hide StagedAfter;
    OthersWriteNothing(s, TakeRow(id, now, lease, fault));
  }

  lemma {:induction false} ReplayingBooks(s: State, id: nat, fault: Fault)
    requires id in s.calls && s.calls[id].args.token.Some?
    ensures Booked(s, StepFindReplay(s, id, fault), FindReplay(id, fault))
  {
    hide WrittenBy;
    hide ChargedBy;
    hide RefundedBy;
    hide RecordsAfter;
    hide StagedAfter;
    OthersWriteNothing(s, FindReplay(id, fault));
  }

  lemma {:induction false} PayingBooks(cfg: Config, s: State, id: nat, charge: ChargeResult)
    requires Claimed(s, id)
    ensures Booked(s, StepConsume(cfg, s, id, charge), ConsumeBudget(id, charge))
  {
    hide AfterCharge;
    hide WrittenBy;
    hide RefundedBy;
    hide RecordsAfter;
    hide StagedAfter;
    OthersWriteNothing(s, ConsumeBudget(id, charge));
    assert ChargedBy(s, ConsumeBudget(id, charge))
      == if charge.Accepted? || charge == ChargeThrew(true) then multiset{s.calls[id].claim.value.record.userId}
         else multiset{};
    hide ChargedBy;
  }

  lemma {:induction false} RefundingBooks(s: State, id: nat, fault: Fault)
    requires Claimed(s, id) && s.calls[id].pc.Refunding?
    ensures Booked(s, StepRefund(s, id, fault), RefundBudget(id, fault))
  {
    hide AfterRefund;
    hide WrittenBy;
    hide ChargedBy;
    hide RecordsAfter;
    hide StagedAfter;
    OthersWriteNothing(s, RefundBudget(id, fault));
  }

  lemma {:induction false} FindingBooks(s: State, id: nat, fault: Fault)
    requires Claimed(s, id) && AttemptNonce(s.calls[id]).Some?
    ensures Booked(s, StepFindAttempt(s, id, fault), FindAttempt(id, fault))
  {
    hide AttemptKey;
    hide WrittenBy;
    hide ChargedBy;
    hide RefundedBy;
    hide RecordsAfter;
    hide StagedAfter;
    OthersWriteNothing(s, FindAttempt(id, fault));
  }

  lemma {:induction false} BeginningBooks(s: State, id: nat, fault: Fault)
    requires Claimed(s, id) && AttemptNonce(s.calls[id]).Some?
    ensures Booked(s, StepBeginAttempt(s, id, fault), BeginAttempt(id, fault))
  {
    hide WrittenBy;
    hide ChargedBy;
    hide RefundedBy;
    hide StagedAfter;
    OthersWriteNothing(s, BeginAttempt(id, fault));
    var key := AttemptKey(s.calls[id]);
    assert RecordsAfter(s.attempts, s, BeginAttempt(id, fault))
      == if fault.ThrewBefore? then s.attempts else s.attempts[key := Attempting];
    hide RecordsAfter;
    hide AttemptKey;
  }

  lemma {:induction false} ConfirmingBooks(s: State, id: nat, fault: Fault)
    requires Claimed(s, id) && AttemptNonce(s.calls[id]).Some? && s.calls[id].pc.Recording?
    ensures Booked(s, StepConfirmAttempt(s, id, fault), ConfirmAttempt(id, fault))
  {
    hide WrittenBy;
    hide ChargedBy;
    hide RefundedBy;
    hide StagedAfter;
    OthersWriteNothing(s, ConfirmAttempt(id, fault));
    var key := AttemptKey(s.calls[id]);
    assert RecordsAfter(s.attempts, s, ConfirmAttempt(id, fault))
      == if fault.ThrewBefore? || key !in s.attempts then s.attempts
         else s.attempts[key := Committed(s.calls[id].pc.timeLabel)];
    hide RecordsAfter;
    hide AttemptKey;
  }

  lemma {:induction false} ClearingBooks(cfg: Config, s: State, id: nat, fault: Fault)
    requires Claimed(s, id) && AttemptNonce(s.calls[id]).Some? && s.calls[id].pc.Clearing?
    ensures Booked(s, StepClearAttempt(cfg, s, id, fault), ClearAttempt(id, fault))
  {
    hide AfterClear;
    hide WrittenBy;
    hide ChargedBy;
    hide RefundedBy;
    hide StagedAfter;
    OthersWriteNothing(s, ClearAttempt(id, fault));
    var key := AttemptKey(s.calls[id]);
    assert RecordsAfter(s.attempts, s, ClearAttempt(id, fault))
      == if fault.ThrewBefore? then s.attempts else s.attempts - {key};
    hide RecordsAfter;
    hide AttemptKey;
  }

  lemma {:induction false} WritingBooks(cfg: Config, s: State, id: nat, write: WriteResult)
    requires Claimed(s, id) && s.calls[id].claim.value.record.nonce.Some?
    ensures Booked(s, StepWrite(cfg, s, id, write), CalendarWrite(id, write))
  {
    hide AfterFailedWrite;
    hide UsesAttempts;
    hide ChargedBy;
    hide RefundedBy;
    hide RecordsAfter;
    hide StagedAfter;
    OthersWriteNothing(s, CalendarWrite(id, write));
    assert WrittenBy(s, CalendarWrite(id, write))
      == if write.WriteOk? then [WriteOf(s.calls[id], write.timeLabel)] else [];
    hide WrittenBy;
    hide WriteOf;
  }

  lemma {:induction false} CleaningBooks(s: State, id: nat, fault: Fault, sync: bool)
    requires Claimed(s, id) && s.calls[id].pc.CleaningUp?
    ensures Booked(s, StepCleanup(s, id, fault, sync), Cleanup(id, fault, sync))
  {
    hide CancelClaimed;
    hide WrittenBy;
    hide ChargedBy;
    hide RefundedBy;
    hide RecordsAfter;
    hide StagedAfter;
    OthersWriteNothing(s, Cleanup(id, fault, sync));
  }

  lemma {:induction false} ReleasingBooks(s: State, id: nat, now: int, fault: Fault)
    requires Claimed(s, id) && s.calls[id].pc.Releasing?
    ensures Booked(s, StepRelease(s, id, now, fault), ReleaseRow(id, now, fault))
  {
    hide CancelClaimed;
    hide RevertToPending;
    hide WrittenBy;
    hide ChargedBy;
    hide RefundedBy;
    hide RecordsAfter;
    hide StagedAfter;
    OthersWriteNothing(s, ReleaseRow(id, now, fault));
  }

  lemma {:induction false} RecoveringBooks(s: State, rid: nat, now: int)
    requires rid in s.recoveries && s.recoveries[rid].known.Some?
    ensures Booked(s, StepRecoverApply(s, rid, now), RecoverApply(rid, now))
  {
    hide Remove;
    hide Put;
    hide Rearmed;
    hide WrittenBy;
    hide ChargedBy;
    hide RefundedBy;
    hide RecordsAfter;
    hide StagedAfter;
    OthersWriteNothing(s, RecoverApply(rid, now));
  }

  lemma {:induction false} SavingBooks(s: State, nonce: string, now: int, fault: Fault)
    requires nonce in s.staged
    ensures Booked(s, StepStageSave(s, nonce, now, fault), StageSave(nonce, now, fault))
  {
    hide Save;
    hide WrittenBy;
    hide ChargedBy;
    hide RefundedBy;
    hide RecordsAfter;
    OthersWriteNothing(s, StageSave(nonce, now, fault));
  }

  lemma {:induction false} StagingBooks(s: State, p: Pending, entries: seq<Entry>)
    requires StageAccepts(s, p, entries)
    ensures Booked(s, StepStageVerified(s, p, entries), StageVerified(p, entries))
  {
    hide FindEntry;
    hide ScopeFailureReason;
    hide WrittenBy;
    hide ChargedBy;
    hide RefundedBy;
    hide RecordsAfter;
    OthersWriteNothing(s, StageVerified(p, entries));
  }

  lemma {:induction false} OutsideBooks(cfg: Config, s: State, step: Step)
    requires Enabled(s, step)
    requires
      || step.Crash? || step.BeginConfirm? || step.CancelRow? || step.PollState?
      || step.RecoverList? || step.RecoverLookUp?
    ensures Booked(s, Apply(cfg, s, step), step)
  {
    hide GetPendingState;
    hide CancelPending;
    hide RequestAccepted;
    hide WrittenBy;
    hide ChargedBy;
    hide RefundedBy;
    hide RecordsAfter;
    hide StagedAfter;
    OthersWriteNothing(s, step);
  }

  lemma {:induction false} StepBooks(cfg: Config, s: State, step: Step)
    requires Enabled(s, step)
    ensures Booked(s, Apply(cfg, s, step), step)
  {
    hide Booked;
    hide StepReadState;
    hide StepTake;
    hide StepFindReplay;
    hide StepConsume;
    hide StepFindAttempt;
    hide StepBeginAttempt;
    hide StepWrite;
    hide StepConfirmAttempt;
    hide StepCleanup;
    hide StepClearAttempt;
    hide StepRefund;
    hide StepRelease;
    hide AttemptNonce;
    hide StageAccepts;
    hide StepStageVerified;
    hide StepStageSave;
    hide StepRecoverApply;
    match step
    case ReadState(id, now, fault) => ReadingBooks(cfg, s, id, now, fault);
    case TakeRow(id, now, lease, fault) => TakingBooks(cfg, s, id, now, lease, fault);
    case FindReplay(id, fault) => ReplayingBooks(s, id, fault);
    case ConsumeBudget(id, charge) => PayingBooks(cfg, s, id, charge);
    case FindAttempt(id, fault) => FindingBooks(s, id, fault);
    case BeginAttempt(id, fault) => BeginningBooks(s, id, fault);
    case CalendarWrite(id, write) => WritingBooks(cfg, s, id, write);
    case ConfirmAttempt(id, fault) => ConfirmingBooks(s, id, fault);
    case Cleanup(id, fault, sync) => CleaningBooks(s, id, fault, sync);
    case ClearAttempt(id, fault) => ClearingBooks(cfg, s, id, fault);
    case RefundBudget(id, fault) => RefundingBooks(s, id, fault);
    case ReleaseRow(id, now, fault) => ReleasingBooks(s, id, now, fault);
    case StageVerified(p, entries) => StagingBooks(s, p, entries);
    case StageSave(nonce, now, fault) => SavingBooks(s, nonce, now, fault);
    case RecoverApply(rid, now) => RecoveringBooks(s, rid, now);
    case _ => OutsideBooks(cfg, s, step);
  }

  // ----- where requests come from -------------------------------------------------------------

  /** The same request, whatever its expiry and lease. */
  predicate Same(p: Pending, q: Pending) {
    p == q.(leaseToken := p.leaseToken, expiresAt := p.expiresAt)
  }

  /** Every row holds a request that was there before, or the one just saved. */
  ghost predicate RowsFrom(before: Store, rows: map<string, Row>, saved: Option<Pending>) {
    forall k :: k in rows ==>
      (k in before.rows && Same(rows[k].record, before.rows[k].record)) || saved == Some(rows[k].record)
  }

  function SavedBy(s: State, step: Step): Option<Pending> {
    if step.StageSave? && step.stagedNonce in s.staged then Some(s.staged[step.stagedNonce]) else None
  }

  lemma {:induction false} SameRows(s: Store)
    ensures RowsFrom(s, s.rows, None)
  {
  }

  lemma {:induction false} QueriedRows(s: Store, key: string, nonce: Option<string>, now: int)
    requires WellFormed(s)
    ensures RowsFrom(s, GetPendingState(s, key, now).0.rows, None)
    ensures RowsFrom(s, CancelPending(s, key, nonce, now).0.rows, None)
  {
    hide WellFormed;
    hide GetPendingState;
    hide CancelPending;
    QueryIsExact(s, key, now);
    CancelIsExact(s, key, nonce, now);
  }

  lemma {:induction false} TakenRows(s: Store, a: Args, now: int, lease: string)
    requires WellFormed(s)
    ensures var (after, got) := TakeValid(s, a.externalId, a.userId, BindingOf(a), now, lease);
      && RowsFrom(s, after.rows, None)
      && (got.Some? ==> a.externalId in s.rows && Same(got.value, s.rows[a.externalId].record))
  {
    hide WellFormed;
    hide TakeValid;
    hide BindingOf;
    ClaimIsExact(s, a.externalId, a.userId, BindingOf(a), now, lease);
    var (after, got) := TakeValid(s, a.externalId, a.userId, BindingOf(a), now, lease);
    assert got.Some? ==> after.rows == s.rows[a.externalId := Row(got.value, true)];
  }

  lemma {:induction false} LetGoRows(s: Store, key: string, lease: string, now: int)
    requires WellFormed(s)
    ensures RowsFrom(s, RevertToPending(s, key, lease, now).rows, None)
    ensures RowsFrom(s, CancelClaimed(s, key, lease).rows, None)
  {
    LeaseOperationsAreFenced(s, key, lease, now);
  }

  lemma {:induction false} SavedRows(s: Store, p: Pending, now: int)
    requires WellFormed(s)
    ensures RowsFrom(s, Save(s, p, now).0.rows, Some(p))
  {
    hide WellFormed;
    hide Save;
    SaveIsFenced(s, p, now);
  }

  lemma {:induction false} PutRows(s: Store, key: string, row: Row)
    requires key in s.rows && Same(row.record, s.rows[key].record)
    ensures RowsFrom(s, Put(s, key, row).rows, None) && RowsFrom(s, Remove(s, key).rows, None)
  {
    hide Without;
  }

  lemma {:induction false} RearmedIsSame(p: Pending, now: int)
    ensures Same(Rearmed(p, now).record, p)
  {
  }

  lemma {:induction false} RecoveredRows(s: State, rid: nat, now: int)
    requires rid in s.recoveries && s.recoveries[rid].known.Some?
    ensures RowsFrom(s.store, StepRecoverApply(s, rid, now).store.rows, None)
  {
    hide RowsFrom;
    hide Same;
    hide Put;
    hide Remove;
    hide Rearmed;
    var key := s.recoveries[rid].key;
    SameRows(s.store);
    if key in s.store.rows {
      RearmedIsSame(s.store.rows[key].record, now);
      PutRows(s.store, key, Rearmed(s.store.rows[key].record, now));
    }
  }

  lemma {:induction false} ReadStepRows(cfg: Config, s: State, id: nat, now: int, lease: string, fault: Fault)
    requires WellFormed(s.store) && id in s.calls
    ensures RowsFrom(s.store, StepReadState(cfg, s, id, now, fault).store.rows, None)
    ensures RowsFrom(s.store, StepTake(cfg, s, id, now, lease, fault).store.rows, None)
  {
    hide WellFormed;
    hide RowsFrom;
    hide GetPendingState;
    hide TakeValid;
    hide AnswerFor;
    hide AfterMiss;
    hide AfterClaim;
    hide BindingOf;
    SameRows(s.store);
    QueriedRows(s.store, s.calls[id].args.externalId, None, now);
    TakenRows(s.store, s.calls[id].args, now, lease);
  }

  lemma {:induction false} LetGoStepRows(s: State, id: nat, now: int, fault: Fault, sync: bool)
    requires WellFormed(s.store) && Claimed(s, id)
    ensures s.calls[id].pc.CleaningUp? ==> RowsFrom(s.store, StepCleanup(s, id, fault, sync).store.rows, None)
    ensures s.calls[id].pc.Releasing? ==> RowsFrom(s.store, StepRelease(s, id, now, fault).store.rows, None)
  {
    hide WellFormed;
    hide RowsFrom;
    hide CancelClaimed;
    hide RevertToPending;
    SameRows(s.store);
    LetGoRows(s.store, s.calls[id].args.externalId, s.calls[id].claim.value.lease, now);
  }

  lemma {:induction false} OtherStepRows(cfg: Config, s: State, step: Step)
    requires Enabled(s, step) && OfConfirm(step) && !TouchesStore(step)
    ensures Apply(cfg, s, step).store == s.store
  {
    hide Apply;
    hide Enabled;
    hide Asks;
    hide WrittenBy;
    hide ChargedBy;
    hide RefundedBy;
    hide RecordsAfter;
    hide StagedAfter;
    StepBooks(cfg, s, step);
  }

  lemma {:induction false} ConfirmStepRows(cfg: Config, s: State, step: Step)
    requires WellFormed(s.store) && Enabled(s, step) && OfConfirm(step)
    ensures RowsFrom(s.store, Apply(cfg, s, step).store.rows, None)
  {
    hide WellFormed;
    hide RowsFrom;
    hide StepReadState;
    hide StepTake;
    hide StepCleanup;
    hide StepRelease;
    hide AttemptNonce;
    hide StepFindReplay;
    hide StepConsume;
    hide StepFindAttempt;
    hide StepBeginAttempt;
    hide StepWrite;
    hide StepConfirmAttempt;
    hide StepClearAttempt;
    hide StepRefund;
    match step
    case ReadState(id, now, fault) => ReadStepRows(cfg, s, id, now, "", fault);
    case TakeRow(id, now, lease, fault) => ReadStepRows(cfg, s, id, now, lease, fault);
    case Cleanup(id, fault, sync) => LetGoStepRows(s, id, 0, fault, sync);
    case ReleaseRow(id, now, fault) => LetGoStepRows(s, id, now, fault, false);
    case _ =>
      OtherStepRows(cfg, s, step);
      SameRows(s.store);
  }

  lemma {:induction false} StepRows(cfg: Config, s: State, step: Step)
    requires WellFormed(s.store) && Enabled(s, step)
    ensures RowsFrom(s.store, Apply(cfg, s, step).store.rows, SavedBy(s, step))
  {
    hide WellFormed;
    hide RowsFrom;
    hide Save;
    hide StepRecoverApply;
    hide GetPendingState;
    hide CancelPending;
    hide StageAccepts;
    SameRows(s.store);
    if OfConfirm(step) {
      ConfirmStepRows(cfg, s, step);
      hide Apply;
    } else {
      match step
      case StageSave(nonce, now, fault) =>
        SavedRows(s.store, s.staged[nonce], now);
        MoreMayBeSaved(s.store, s.store.rows, Some(s.staged[nonce]));
      case CancelRow(key, nonce, now) => QueriedRows(s.store, key, nonce, now);
      case PollState(key, now) => QueriedRows(s.store, key, None, now);
      case RecoverApply(rid, now) => RecoveredRows(s, rid, now);
      case _ =>
    }
  }

  lemma {:induction false} MoreMayBeSaved(before: Store, rows: map<string, Row>, saved: Option<Pending>)
    requires RowsFrom(before, rows, None)
    ensures RowsFrom(before, rows, saved)
  {
  }

  lemma {:induction false} OtherCallsStay(s: State, s': State, id: nat, other: nat)
    requires OneCallMoved(s, s', id) && other in s'.calls && other != id
    ensures other in s.calls && s.calls[other] == s'.calls[other]
  {
  }

  lemma {:induction false} TakenIsHeld(cfg: Config, s: State, id: nat, now: int, lease: string, fault: Fault)
    requires WellFormed(s.store) && id in s.calls
    ensures var claim, key := StepTake(cfg, s, id, now, lease, fault).calls[id].claim, s.calls[id].args.externalId;
      claim == s.calls[id].claim
      || (claim.Some? && key in s.store.rows && Same(claim.value.record, s.store.rows[key].record))
  {
    hide WellFormed;
    hide TakeValid;
    hide BindingOf;
    hide AfterClaim;
    hide AfterMiss;
    var a := s.calls[id].args;
    TakenRows(s.store, a, now, lease);
    var (after, got) := TakeValid(s.store, a.externalId, a.userId, BindingOf(a), now, lease);
    assert got.Some? ==> Same(got.value, s.store.rows[a.externalId].record);
  }

  /** What a call holds it has held before, or has just taken from its row. */
  lemma {:induction false} StepClaims(cfg: Config, s: State, step: Step, id: nat)
    requires WellFormed(s.store) && Enabled(s, step) && Claimed(Apply(cfg, s, step), id)
    ensures var claim := Apply(cfg, s, step).calls[id].claim;
      || (id in s.calls && s.calls[id].claim == claim)
      || (&& step.TakeRow? && step.id == id && id in s.calls && s.calls[id].args.externalId in s.store.rows
          && Same(claim.value.record, s.store.rows[s.calls[id].args.externalId].record))
  {
    hide Apply;
    hide Enabled;
    hide WellFormed;
    hide OneCallMoved;
    hide LeavesBooks;
    hide Same;
    hide WrittenBy;
    hide ChargedBy;
    hide RefundedBy;
    hide RecordsAfter;
    hide StagedAfter;
    if !OfConfirm(step) {
      OtherStepsLeaveBooks(cfg, s, step);
      BooksHoldCalls(s, Apply(cfg, s, step));
    } else if step.id != id {
      ConfirmMovesOne(cfg, s, step);
      OtherCallsStay(s, Apply(cfg, s, step), step.id, id);
    } else if step.BeginConfirm? {
      NothingHeldYet(cfg, s, step);
      assert false;
    } else {
      OwnerIsThere(s, step);
      if step.TakeRow? {
        TakenIsHeld(cfg, s, id, step.now, step.lease, step.fault);
        TakingTakes(cfg, s, id, step.now, step.lease, step.fault);
      } else {
        StepBooks(cfg, s, step);
      }
    }
  }

  lemma {:induction false} TakingTakes(cfg: Config, s: State, id: nat, now: int, lease: string, fault: Fault)
    requires Enabled(s, TakeRow(id, now, lease, fault)) && id in s.calls
    ensures Apply(cfg, s, TakeRow(id, now, lease, fault)) == StepTake(cfg, s, id, now, lease, fault)
  {
    hide StepTake;
  }

  lemma {:induction false} NothingHeldYet(cfg: Config, s: State, step: Step)
    requires Enabled(s, step) && step.BeginConfirm?
    ensures !Claimed(Apply(cfg, s, step), step.id)
  {
    hide RequestAccepted;
  }

  // ----- over whole runs ---------------------------------------------------------------------------

  datatype Books = Books(
    writes: seq<Write>,
    charges: multiset<int>,
    refunds: multiset<int>,
    records: map<(string, string), Attempt>,
    staged: map<string, Pending>)

  /** What the steps of a run put into the books, one after the other. */
  function BooksOf(cfg: Config, run: seq<Step>): Books {
    if run == [] then Books([], multiset{}, multiset{}, map[], map[])
    else
      var front, step := run[..|run| - 1], run[|run| - 1];
      var so := BooksOf(cfg, front);
      match Exec(cfg, front)
      case None => so
      case Some(s) =>
        Books(so.writes + WrittenBy(s, step), so.charges + ChargedBy(s, step), so.refunds + RefundedBy(s, step),
              RecordsAfter(so.records, s, step), StagedAfter(so.staged, step))
  }

  /** Whatever the interleaving, the state holds exactly what the steps put into its books. */
  lemma {:induction false} BooksAreTrue(cfg: Config, run: seq<Step>, s: State)
    requires Exec(cfg, run) == Some(s)
    ensures BooksOf(cfg, run) == Books(s.writes, s.charges, s.refunds, s.attempts, s.staged)
    decreases |run|
  {
    hide Apply;
    hide Enabled;
    hide WrittenBy;
    hide ChargedBy;
    hide RefundedBy;
    hide RecordsAfter;
    hide StagedAfter;
    if run != [] {
      var front, step := run[..|run| - 1], run[|run| - 1];
      var before := Exec(cfg, front).value;
      BooksAreTrue(cfg, front, before);
      StepBooks(cfg, before, step);
    }
  }

  /** What call `id` was charged less what it gave back. */
  function Spent(run: seq<Step>, id: nat): int {
    if run == [] then 0
    else
      Spent(run[..|run| - 1], id)
      + match run[|run| - 1]
        case ConsumeBudget(i, Accepted) => if i == id then 1 else 0
        case ConsumeBudget(i, ChargeThrew(landed)) => if i == id && landed then 1 else 0
        case RefundBudget(i, fault) => if i == id && fault != ThrewBefore then -1 else 0
        case _ => 0
  }

  function Commits(run: seq<Step>, id: nat): nat {
    if run == [] then 0
    else
      Commits(run[..|run| - 1], id)
      + match run[|run| - 1]
        case CalendarWrite(i, WriteOk(_)) => if i == id then 1 else 0
        case _ => 0
  }

  lemma {:induction false} OwnStepAccounts(cfg: Config, s: State, step: Step)
    requires Enabled(s, step) && Asks(s, step)
    ensures |ChargedBy(s, step)| - |RefundedBy(s, step)| == Spent([step], step.id)
    ensures WrittenBy(s, step) != [] <==> Commits([step], step.id) == 1
  {
    hide AttemptNonce;
    hide StageAccepts;
    assert [step][..0] == [];
  }

  lemma {:induction false} OtherStepAccounts(step: Step, id: nat)
    requires !OfConfirm(step) || step.id != id || step.BeginConfirm?
    ensures Spent([step], id) == 0 && Commits([step], id) == 0
  {
    assert [step][..0] == [];
  }

  lemma {:induction false} LastAccounts(run: seq<Step>, id: nat)
    requires run != []
    ensures var front, step := run[..|run| - 1], run[|run| - 1];
      && Spent(run, id) == Spent(front, id) + Spent([step], id)
      && Commits(run, id) == Commits(front, id) + Commits([step], id)
  {
    var step := run[|run| - 1];
    assert [step][..0] == [];
  }

  /** The account of each call is what its own steps make it, and it has written exactly if it has committed a write. */
  lemma {:induction false} AccountsAreTrue(cfg: Config, run: seq<Step>, s: State, id: nat)
    requires Exec(cfg, run) == Some(s)
    ensures id in s.calls ==> s.calls[id].units == Spent(run, id) && (s.calls[id].wrote <==> Commits(run, id) > 0)
    ensures id !in s.calls ==> Spent(run, id) == 0 && Commits(run, id) == 0
    decreases |run|
  {
    hide Apply;
    hide Enabled;
    hide WrittenBy;
    hide ChargedBy;
    hide RefundedBy;
    hide RecordsAfter;
    hide StagedAfter;
    hide Fits;
    if run != [] {
      var front, step := run[..|run| - 1], run[|run| - 1];
      var before := Exec(cfg, front).value;
      AccountsAreTrue(cfg, front, before, id);
      EveryCallFits(cfg, front, before, id);
      hide WellFormed;
      LastAccounts(run, id);
      hide Spent;
      hide Commits;
      if id in before.calls {
        CallsStay(cfg, before, step, id);
        if OfConfirm(step) && step.id == id {
          NotBegunTwice(before, step);
          StepBooks(cfg, before, step);
          OwnStepAccounts(cfg, before, step);
        } else {
          OthersStay(cfg, before, step, id);
          OtherStepAccounts(step, id);
        }
      } else {
        AskersAreThere(before, step, id);
        OtherStepAccounts(step, id);
        if id in s.calls {
          NewCallIsEmpty(cfg, before, step, id);
        }
      }
    }
  }

  lemma {:induction false} NotBegunTwice(s: State, step: Step)
    requires Enabled(s, step) && OfConfirm(step) && step.id in s.calls
    ensures Asks(s, step)
  {
    hide AttemptNonce;
  }

  lemma {:induction false} AskersAreThere(s: State, step: Step, id: nat)
    requires Enabled(s, step) && id !in s.calls
    ensures !OfConfirm(step) || step.id != id || step.BeginConfirm?
  {
    hide AttemptNonce;
  }

  lemma {:induction false} NewCallIsEmpty(cfg: Config, s: State, step: Step, id: nat)
    requires WellFormed(s.store) && Enabled(s, step) && id !in s.calls && id in Apply(cfg, s, step).calls
    ensures var c := Apply(cfg, s, step).calls[id]; c.units == 0 && !c.wrote && c.claim.None?
  {
    hide WellFormed;
    hide LeavesBooks;
    hide RequestAccepted;
    if step.BeginConfirm? {
    } else if OfConfirm(step) {
      hide Apply;
      ConfirmMovesOne(cfg, s, step);
      OwnerIsThere(s, step);
      assert false;
    } else {
      hide Apply;
      OtherStepsLeaveBooks(cfg, s, step);
      BooksHoldCalls(s, Apply(cfg, s, step));
      assert false;
    }
  }

  // ----- every write was staged ------------------------------------------------------------------------

  /** Some `stage` call of the run verified this very request, as the learner's own. */
  ghost predicate WasStaged(run: seq<Step>, p: Pending) {
    exists k :: 0 <= k < |run| && run[k].StageVerified? && Same(p, run[k].record) && Owns(run[k].entries, p)
  }

  ghost predicate AllStaged(run: seq<Step>, s: State) {
    && (forall n :: n in s.staged ==> WasStaged(run, s.staged[n]))
    && (forall key :: key in s.store.rows ==> WasStaged(run, s.store.rows[key].record))
    && (forall id :: Claimed(s, id) ==> WasStaged(run, s.calls[id].claim.value.record))
  }

  lemma {:induction false} StagedStays(run: seq<Step>, step: Step, p: Pending, q: Pending)
    requires WasStaged(run, p) && Same(q, p)
    ensures WasStaged(run + [step], q)
  {
    var k :| 0 <= k < |run| && run[k].StageVerified? && Same(p, run[k].record) && Owns(run[k].entries, p);
    assert (run + [step])[k] == run[k];
  }

  lemma {:induction false} JustStaged(run: seq<Step>, s: State, step: Step)
    requires Enabled(s, step) && step.StageVerified?
    ensures WasStaged(run + [step], step.record)
  {
    StageAcceptsIff(s, step.record, step.entries);
    assert (run + [step])[|run|] == step;
  }

  lemma {:induction false} StepKeepsStaged(cfg: Config, run: seq<Step>, s: State, step: Step)
    requires AllStaged(run, s) && WellFormed(s.store) && Enabled(s, step)
    ensures AllStaged(run + [step], Apply(cfg, s, step))
  {
    hide Apply;
    hide Enabled;
    hide WellFormed;
    hide WasStaged;
    hide Same;
    var s' := Apply(cfg, s, step);
    StepRows(cfg, s, step);
    StepBooks(cfg, s, step);
    forall n | n in s'.staged
      ensures WasStaged(run + [step], s'.staged[n])
    {
      if n in s.staged && s'.staged[n] == s.staged[n] {
        SameIsSame(s.staged[n]);
        StagedStays(run, step, s.staged[n], s.staged[n]);
      } else {
        JustStaged(run, s, step);
      }
    }
    forall key | key in s'.store.rows
      ensures WasStaged(run + [step], s'.store.rows[key].record)
    {
      var p := s'.store.rows[key].record;
      if key in s.store.rows && Same(p, s.store.rows[key].record) {
        StagedStays(run, step, s.store.rows[key].record, p);
      } else {
        SameIsSame(p);
        StagedStays(run, step, p, p);
      }
    }
    forall id | Claimed(s', id)
      ensures WasStaged(run + [step], s'.calls[id].claim.value.record)
    {
      var p := s'.calls[id].claim.value.record;
      StepClaims(cfg, s, step, id);
      if id in s.calls && s.calls[id].claim == s'.calls[id].claim {
        SameIsSame(p);
        StagedStays(run, step, p, p);
      } else {
        StagedStays(run, step, s.store.rows[s.calls[id].args.externalId].record, p);
      }
    }
  }

  lemma {:induction false} SameIsSame(p: Pending)
    ensures Same(p, p)
  {
  }

  lemma {:induction false} RunIsStaged(cfg: Config, run: seq<Step>, s: State)
    requires Exec(cfg, run) == Some(s)
    ensures AllStaged(run, s)
    decreases |run|
  {
    hide Apply;
    hide Enabled;
    hide WasStaged;
    hide Fits;
    if run != [] {
      var front, step := run[..|run| - 1], run[|run| - 1];
      var before := Exec(cfg, front).value;
      RunIsStaged(cfg, front, before);
      EveryCallFits(cfg, front, before, 0);
      hide WellFormed;
      hide AllStaged;
      StepKeepsStaged(cfg, front, before, step);
      assert front + [step] == run;
    }
  }

  /**
   * Whatever the interleaving, and whatever recovery does: every write is of a
   * request that some `stage` call of the run verified as the learner's own, to the
   * letter: the same learner, entry and target.
   */
  lemma {:induction false} EveryWriteWasStaged(cfg: Config, run: seq<Step>, s: State, w: Write) returns (p: Pending)
    requires Exec(cfg, run) == Some(s) && w in s.writes
    ensures WasStaged(run, p)
    ensures p.nonce == Some(w.nonce) && p.externalId == w.externalId
    ensures p.userId == w.userId && p.calendarId == w.calendarId && p.target == w.target
    decreases |run|
  {
    hide Apply;
    hide Enabled;
    hide WasStaged;
    hide Same;
    var front, step := run[..|run| - 1], run[|run| - 1];
    var before := Exec(cfg, front).value;
    StepBooks(cfg, before, step);
    if w in before.writes {
      p := EveryWriteWasStaged(cfg, front, before, w);
    } else {
      p := before.calls[step.id].claim.value.record;
      RunIsStaged(cfg, front, before);
    }
    SameIsSame(p);
    StagedStays(front, step, p, p);
    assert front + [step] == run;
  }

  // ----- what is gone stays gone -------------------------------------------------------------------------

  /** The request was staged once, and is neither waiting to be saved nor in the store. */
  ghost predicate Gone(s: State, nonce: string) {
    && nonce in s.granted && nonce !in s.staged
    && forall key :: key in s.store.rows ==> s.store.rows[key].record.nonce != Some(nonce)
  }

  lemma {:induction false} RowsStayGone(before: Store, rows: map<string, Row>, saved: Option<Pending>, nonce: string)
    requires RowsFrom(before, rows, saved) && (saved.Some? ==> saved.value.nonce != Some(nonce))
    requires forall key :: key in before.rows ==> before.rows[key].record.nonce != Some(nonce)
    ensures forall key :: key in rows ==> rows[key].record.nonce != Some(nonce)
  {
  }

  lemma {:induction false} RequestStaysGone(cfg: Config, s: State, step: Step, nonce: string)
    requires Inv(cfg, s) && Enabled(s, step) && Gone(s, nonce)
    ensures Gone(Apply(cfg, s, step), nonce)
  {
    StoreIsOk(cfg, s);
    StepRows(cfg, s, step);
    StepBooks(cfg, s, step);
    StagedKeepTheirNonce(cfg, s, step);
    NewNoncesAreFresh(s, step, nonce);
    if step.StageVerified? {
      GrantsStay(s, step.record, step.entries, nonce);
    }
    hide Inv;
    hide WellFormed;
    hide StageAccepts;
    hide StepStageVerified;
    hide RowsFrom;
    hide WrittenBy;
    hide ChargedBy;
    hide RefundedBy;
    hide RecordsAfter;
    RowsStayGone(s.store, Apply(cfg, s, step).store.rows, SavedBy(s, step), nonce);
  }

  lemma {:induction false} NobodyWritesIt(cfg: Config, s: State, step: Step, nonce: string)
    requires Inv(cfg, s) && Enabled(s, step) && Gone(s, nonce)
    ensures forall w :: w in WrittenBy(s, step) ==> w.nonce != nonce
  {
    hide Inv;
    hide AttemptNonce;
    hide StageAccepts;
    if step.CalendarWrite? {
      WriterHoldsRow(cfg, s, step.id, step.write);
    }
  }

  lemma {:induction false} StepKeepsGone(cfg: Config, s: State, step: Step, nonce: string)
    requires Inv(cfg, s) && Enabled(s, step) && Gone(s, nonce)
    ensures Gone(Apply(cfg, s, step), nonce)
    ensures forall w :: w in Apply(cfg, s, step).writes && w.nonce == nonce ==> w in s.writes
  {
    hide Inv;
    hide Apply;
    hide Enabled;
    hide Gone;
    hide WrittenBy;
    hide ChargedBy;
    hide RefundedBy;
    hide RecordsAfter;
    hide StagedAfter;
    RequestStaysGone(cfg, s, step, nonce);
    StepBooks(cfg, s, step);
    NobodyWritesIt(cfg, s, step, nonce);
  }

  lemma {:induction false} StagedKeepTheirNonce(cfg: Config, s: State, step: Step)
    requires Inv(cfg, s)
    ensures SavedBy(s, step).Some? ==> SavedBy(s, step).value.nonce == Some(step.stagedNonce)
  {
  }

  lemma {:induction false} NewNoncesAreFresh(s: State, step: Step, nonce: string)
    requires Enabled(s, step) && nonce in s.granted
    ensures step.StageVerified? ==> step.record.nonce != Some(nonce)
  {
  }

  lemma {:induction false} GrantsStay(s: State, p: Pending, entries: seq<Entry>, nonce: string)
    requires StageAccepts(s, p, entries) && nonce in s.granted
    ensures nonce in StepStageVerified(s, p, entries).granted
  {
    hide FindEntry;
    hide ScopeFailureReason;
  }

  lemma {:induction false} WriterHoldsRow(cfg: Config, s: State, id: nat, write: WriteResult)
    requires Inv(cfg, s) && Enabled(s, CalendarWrite(id, write))
    ensures var p := s.calls[id].claim.value.record;
      p.externalId in s.store.rows && s.store.rows[p.externalId].record == p
  {
    CallIsOk(cfg, s, id);
  }

  /** A request that is gone, for whatever reason, is never written any more. */
  lemma {:induction false} GoneIsNeverWritten(
      cfg: Config, run: seq<Step>, more: seq<Step>, s: State, t: State, nonce: string)
    requires DisciplinedRun(cfg, run + more) && Exec(cfg, run) == Some(s) && Exec(cfg, run + more) == Some(t)
    requires Gone(s, nonce)
    ensures Gone(t, nonce) && forall w :: w in t.writes && w.nonce == nonce ==> w in s.writes
    decreases |more|
  {
    hide Apply;
    hide Enabled;
    hide Gone;
    hide DisciplinedRun;
    if more == [] {
      assert run + more == run;
    } else {
      var all, rest := run + more, more[..|more| - 1];
      assert all[..|all| - 1] == run + rest;
      var before := Exec(cfg, run + rest).value;
      BeginningIsDisciplined(cfg, all, run + rest);
      GoneIsNeverWritten(cfg, run, rest, s, before, nonce);
      RunKeepsGood(cfg, run + rest);
      StepKeepsGone(cfg, before, all[|all| - 1], nonce);
    }
  }

  lemma {:induction false} BeginningIsDisciplined(cfg: Config, run: seq<Step>, front: seq<Step>)
    requires DisciplinedRun(cfg, run) && front <= run
    ensures DisciplinedRun(cfg, front)
  {
    hide Exec;
    hide Disciplined;
    assert forall i :: 0 <= i < |front| ==> front[..i] == run[..i] && front[i] == run[i];
  }

  /** A request its learner has cancelled was not written, and never will be. */
  lemma {:induction false} CancelledIsNeverWritten(
      cfg: Config, run: seq<Step>, more: seq<Step>, s: State, t: State, key: string, nonce: Option<string>, now: int)
    requires var cancel := [CancelRow(key, nonce, now)];
      && DisciplinedRun(cfg, run + cancel + more)
      && Exec(cfg, run) == Some(s) && Exec(cfg, run + cancel + more) == Some(t)
    requires CancelPending(s.store, key, nonce, now).1 == Cancelled
    ensures key in s.store.rows && s.store.rows[key].record.nonce.Some?
    ensures forall w :: w in t.writes ==> w.nonce != s.store.rows[key].record.nonce.value
  {
    hide Exec;
    hide DisciplinedRun;
    hide Apply;
    hide Enabled;
    hide Gone;
    var step := CancelRow(key, nonce, now);
    var first := run + [step];
    BeginningIsDisciplined(cfg, first + more, run);
    BeginningIsDisciplined(cfg, first + more, first);
    RunKeepsGood(cfg, run);
    var s1 := CancelGoes(cfg, run, s, step);
    var n := CancelledIsGone(cfg, s, key, nonce, now);
    GoneIsNeverWritten(cfg, first, more, s1, t, n);
  }

  lemma {:induction false} CancelGoes(cfg: Config, run: seq<Step>, s: State, step: Step) returns (s': State)
    requires Exec(cfg, run) == Some(s) && step.CancelRow?
    ensures Exec(cfg, run + [step]) == Some(s') && s'.writes == s.writes
    ensures s' == s.(store := CancelPending(s.store, step.externalId, step.nonce, step.now).0)
  {
    hide CancelPending;
    assert (run + [step])[..|run|] == run;
    s' := s.(store := CancelPending(s.store, step.externalId, step.nonce, step.now).0);
  }

  lemma {:induction false} CancelledIsGone(cfg: Config, s: State, key: string, nonce: Option<string>, now: int)
    returns (n: string)
    requires Inv(cfg, s) && CancelPending(s.store, key, nonce, now).1 == Cancelled
    ensures key in s.store.rows && s.store.rows[key].record.nonce == Some(n)
    ensures Gone(s.(store := CancelPending(s.store, key, nonce, now).0), n)
    ensures forall w :: w in s.writes ==> w.nonce != n
  {
    StoreIsOk(cfg, s);
    CancelIsExact(s.store, key, nonce, now);
    assert RowOk(s, key);
    n := s.store.rows[key].record.nonce.value;
    var rows := CancelPending(s.store, key, nonce, now).0.rows;
    forall k | k in rows
      ensures rows[k].record.nonce != Some(n)
    {
      assert RowOk(s, k);
    }
  }
}
