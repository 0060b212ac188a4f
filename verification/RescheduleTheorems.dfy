/** The confirmation guarantees, stated for every reachable state and every step out of it. */
module RescheduleTheorems {
  import opened Prelude
  import opened RescheduleStore
  import opened RescheduleProtocol
  import opened RescheduleSafety
  import opened RescheduleBudget
  import opened RescheduleClaims

  ghost predicate Good(cfg: Config, s: State) {
    Inv(cfg, s) && AllAccountsOk(cfg, s) && LedgerOk(cfg, s) && RecoveriesOk(s)
  }

  predicate BeforeCommit(step: Step) {
    step.BeginConfirm? || step.ReadState? || step.TakeRow? || step.FindReplay? || step.ConsumeBudget?
    || step.FindAttempt? || step.BeginAttempt?
  }

  lemma {:induction false} EarlyStepKeepsInv(cfg: Config, s: State, step: Step)
    requires Good(cfg, s) && Enabled(s, step) && BeforeCommit(step)
    ensures Inv(cfg, Apply(cfg, s, step))
  {
    match step
    case BeginConfirm(id, args) => BeginKeepsInv(cfg, s, id, args);
    case ReadState(id, now, fault) => ReadStateKeepsInv(cfg, s, id, now, fault);
    case TakeRow(id, now, lease, fault) => TakeKeepsInv(cfg, s, id, now, lease, fault);
    case FindReplay(id, fault) => FindReplayKeepsInv(cfg, s, id, fault);
    case ConsumeBudget(id, charge) => ConsumeKeepsInv(cfg, s, id, charge);
    case FindAttempt(id, fault) => FindAttemptKeepsInv(cfg, s, id, fault);
    case BeginAttempt(id, fault) =>
      assert AccountsOk(cfg, s.calls[id]);
      BeginAttemptKeepsInv(cfg, s, id, fault);
  }

  lemma {:induction false} LateStepKeepsInv(cfg: Config, s: State, step: Step)
    requires Good(cfg, s) && Enabled(s, step) && OfConfirm(step) && !BeforeCommit(step)
    ensures Inv(cfg, Apply(cfg, s, step))
  {
    assert AccountsOk(cfg, s.calls[step.id]);
    match step
    case CalendarWrite(id, write) => WriteKeepsInv(cfg, s, id, write);
    case ConfirmAttempt(id, fault) => ConfirmAttemptKeepsInv(cfg, s, id, fault);
    case Cleanup(id, fault, sync) => CleanupKeepsInv(cfg, s, id, fault, sync);
    case ClearAttempt(id, fault) => ClearAttemptKeepsInv(cfg, s, id, fault);
    case RefundBudget(id, fault) => RefundKeepsInv(cfg, s, id, fault);
    case ReleaseRow(id, now, fault) => ReleaseKeepsInv(cfg, s, id, now, fault);
    case Crash(id) => CrashKeepsInv(cfg, s, id);
  }

  lemma {:induction false} OtherStepKeepsInv(cfg: Config, s: State, step: Step)
    requires Inv(cfg, s) && RecoveriesOk(s) && Enabled(s, step) && !OfConfirm(step) && Disciplined(cfg, s, step)
    ensures Inv(cfg, Apply(cfg, s, step))
  {
    hide Inv;
    hide RecoveriesOk;
    hide WellFormed;
    hide OnlyUnclaimedRemoved;
    hide StageAccepts;
    hide LeaseIsOver;
    hide StepStageVerified;
    hide StepStageSave;
    hide CancelPending;
    hide GetPendingState;
    hide StepRecoverApply;
    StoreIsOk(cfg, s);
    match step
    case StageVerified(p, entries) => StageVerifiedKeepsInv(cfg, s, p, entries);
    case StageSave(nonce, now, fault) => StageSaveKeepsInv(cfg, s, nonce, now, fault);
    case CancelRow(key, nonce, now) =>
      ReadersAndCancellersAreFenced(s.store, key, nonce, now);
      RemovalKeepsInv(cfg, s, Apply(cfg, s, step));
    case PollState(key, now) =>
      ReadersAndCancellersAreFenced(s.store, key, None, now);
      RemovalKeepsInv(cfg, s, Apply(cfg, s, step));
    case RecoverList(_, _) => UntouchedKeepsInv(cfg, s, Apply(cfg, s, step));
    case RecoverLookUp(_, _, _) => UntouchedKeepsInv(cfg, s, Apply(cfg, s, step));
    case RecoverApply(rid, now) => ApplyKeepsInv(cfg, s, rid, now);
  }

  lemma {:induction false} StepKeepsInv(cfg: Config, s: State, step: Step)
    requires Good(cfg, s) && Enabled(s, step) && Disciplined(cfg, s, step)
    ensures Inv(cfg, Apply(cfg, s, step))
  {
    if BeforeCommit(step) {
      EarlyStepKeepsInv(cfg, s, step);
    } else if OfConfirm(step) {
      LateStepKeepsInv(cfg, s, step);
    } else {
      OtherStepKeepsInv(cfg, s, step);
    }
  }

  lemma {:induction false} RunKeepsGood(cfg: Config, run: seq<Step>)
    requires DisciplinedRun(cfg, run)
    ensures Exec(cfg, run).Some? ==> Good(cfg, Exec(cfg, run).value)
    decreases |run|
  {
    if run == [] {
      assert forall u: int :: Writers(map[], u) == {} && Holders(map[], u) == {};
    } else {
      var before := Exec(cfg, run[..|run| - 1]);
      var step := run[|run| - 1];
      var prefix := run[..|run| - 1];
      assert forall i :: 0 <= i < |prefix| ==> prefix[..i] == run[..i] && prefix[i] == run[i];
      RunKeepsGood(cfg, prefix);
      if before.Some? && Enabled(before.value, step) {
        StepKeepsInv(cfg, before.value, step);
        StepKeepsBudget(cfg, before.value, step);
        StepKeepsRecoveries(cfg, before.value, step);
      }
    }
  }

  lemma {:induction false} ReachableIsGood(cfg: Config, s: State)
    requires Reachable(cfg, s)
    ensures Good(cfg, s)
  {
    var run :| DisciplinedRun(cfg, run) && Exec(cfg, run) == Some(s);
    RunKeepsGood(cfg, run);
  }

  lemma {:induction false} ReachableCall(cfg: Config, s: State, id: nat)
    requires Reachable(cfg, s) && id in s.calls
    ensures CallOk(cfg, s, id) && AccountsOk(cfg, s.calls[id])
  {
    ReachableIsGood(cfg, s);
  }

  lemma {:induction false} ReachableRow(cfg: Config, s: State, key: string)
    requires Reachable(cfg, s) && key in s.store.rows
    ensures WellFormed(s.store) && RowOk(s, key)
  {
    ReachableIsGood(cfg, s);
  }

  /** The calendar write commits at most once per approval nonce. */
  lemma {:induction false} AtMostOneWritePerNonce(cfg: Config, s: State, i: nat, j: nat)
    requires Reachable(cfg, s)
    requires i < |s.writes| && j < |s.writes| && s.writes[i].nonce == s.writes[j].nonce
    ensures i == j
  {
    ReachableIsGood(cfg, s);
  }

  /** A row whose write committed is never pending again: it stays claimed or is gone. */
  lemma {:induction false} NeverRearmedAfterCommit(cfg: Config, s: State, key: string, w: Write)
    requires Reachable(cfg, s)
    requires w in s.writes && key in s.store.rows && s.store.rows[key].record.nonce == Some(w.nonce)
    ensures s.store.rows[key].claimed
  {
    ReachableRow(cfg, s, key);
  }

  /**
   * A positive answer means a write committed under the token the caller acted
   * on, and carries the label that write produced; a replay returns the same.
   */
  lemma {:induction false} ConfirmedMeansCommitted(cfg: Config, s: State, id: nat)
    requires Reachable(cfg, s) && id in s.calls
    requires s.calls[id].pc.Returned? && s.calls[id].pc.answer.Confirmed?
    ensures exists w ::
      && w in s.writes
      && w.externalId == s.calls[id].args.externalId
      && w.timeLabel == s.calls[id].pc.answer.timeLabel
      && (Given(s.calls[id].args.token) ==> w.nonce == s.calls[id].args.token.value)
    ensures !s.calls[id].pc.answer.replayed ==> s.calls[id].wrote
  {
    ReachableCall(cfg, s, id);
  }

  /** Every committed write went to a calendar entry its own `stage` call verified for that user. */
  lemma {:induction false} WritesAreOwnershipVerified(cfg: Config, s: State, w: Write)
    requires Reachable(cfg, s) && w in s.writes
    ensures w.nonce in s.granted
    ensures s.granted[w.nonce].externalId == w.externalId
    ensures s.granted[w.nonce].userId == w.userId == s.granted[w.nonce].ownerUserId
    ensures s.granted[w.nonce].calendarId == w.calendarId
  {
    ReachableIsGood(cfg, s);
  }

  /** At most one confirmation per external id holds the row, and nobody else can change it. */
  lemma {:induction false} OneLiveConfirmPerExternalId(cfg: Config, s: State, a: nat, b: nat)
    requires Reachable(cfg, s) && a in s.calls && b in s.calls
    requires Owning(s.calls[a].pc) && Owning(s.calls[b].pc)
    requires s.calls[a].args.externalId == s.calls[b].args.externalId
    ensures a == b
    ensures s.calls[a].claim.Some?
    ensures HeldBy(s.store, s.calls[a].args.externalId, s.calls[a].claim.value.lease)
  {
    ReachableIsGood(cfg, s);
    assert CallOk(cfg, s, a) && CallOk(cfg, s, b);
    OneHolder(cfg, s, a, b);
  }

  /** The step gives up the row at `key` under the lease it is held by. */
  predicate ByHolder(s: State, step: Step, key: string) {
    && (step.Cleanup? || step.ReleaseRow?)
    && Claimed(s, step.id)
    && s.calls[step.id].args.externalId == key
    && HeldBy(s.store, key, s.calls[step.id].claim.value.lease)
  }

  predicate Keeps(before: Store, after: Store, key: string) {
    key in before.rows && key in after.rows && after.rows[key] == before.rows[key]
  }

  lemma {:induction false} HolderStepsAreFenced(cfg: Config, s: State, step: Step, key: string)
    requires WellFormed(s.store) && Enabled(s, step)
    requires step.Cleanup? || step.ReleaseRow?
    requires key in s.store.rows && s.store.rows[key].claimed
    ensures Keeps(s.store, Apply(cfg, s, step).store, key) || ByHolder(s, step, key)
  {
    hide Put;
    hide Remove;
    var c := s.calls[step.id];
    LeaseOperationsAreFenced(s.store, c.args.externalId, c.claim.value.lease, if step.ReleaseRow? then step.now else 0);
  }

  lemma {:induction false} TakeIsFenced(cfg: Config, s: State, id: nat, now: int, lease: string, fault: Fault, key: string)
    requires WellFormed(s.store) && Enabled(s, TakeRow(id, now, lease, fault))
    requires key in s.store.rows && s.store.rows[key].claimed
    ensures Keeps(s.store, StepTake(cfg, s, id, now, lease, fault).store, key)
  {
    var a := s.calls[id].args;
    ClaimIsExclusive(s.store, a.externalId, a.userId, BindingOf(a), now, lease);
    hide TakeValid;
  }

  lemma {:induction false} ConfirmStepsAreFenced(cfg: Config, s: State, step: Step, key: string)
    requires WellFormed(s.store) && Enabled(s, step)
    requires OfConfirm(step) && !step.Cleanup? && !step.ReleaseRow?
    requires key in s.store.rows && s.store.rows[key].claimed
    ensures Keeps(s.store, Apply(cfg, s, step).store, key)
  {
    hide StepReadState;
    hide StepTake;
    hide AfterMiss;
    hide AfterCharge;
    hide AfterFailedWrite;
    hide AfterClear;
    hide AfterRefund;
    hide UsesAttempts;
    hide WellFormed;
    hide AttemptNonce;
    if step.ReadState? {
      ReadStateIsFenced(cfg, s, step.id, step.now, step.fault, key);
    } else if step.TakeRow? {
      TakeIsFenced(cfg, s, step.id, step.now, step.lease, step.fault, key);
    }
  }

  lemma {:induction false} ReadStateIsFenced(cfg: Config, s: State, id: nat, now: int, fault: Fault, key: string)
    requires WellFormed(s.store) && id in s.calls
    requires key in s.store.rows && s.store.rows[key].claimed
    ensures Keeps(s.store, StepReadState(cfg, s, id, now, fault).store, key)
  {
    hide WellFormed;
    hide GetPendingState;
    hide AnswerFor;
    ReadersAndCancellersAreFenced(s.store, s.calls[id].args.externalId, None, now);
  }

  lemma {:induction false} StageSaveIsFenced(s: State, nonce: string, now: int, fault: Fault, key: string)
    requires WellFormed(s.store) && nonce in s.staged && key in s.store.rows && s.store.rows[key].claimed
    ensures Keeps(s.store, StepStageSave(s, nonce, now, fault).store, key)
  {
    hide WellFormed;
    hide Save;
    SaveIsFenced(s.store, s.staged[nonce], now);
  }

  lemma {:induction false} QueriesAreFenced(s: State, k: string, nonce: Option<string>, now: int, key: string)
    requires WellFormed(s.store) && key in s.store.rows && s.store.rows[key].claimed
    ensures Keeps(s.store, CancelPending(s.store, k, nonce, now).0, key)
    ensures Keeps(s.store, GetPendingState(s.store, k, now).0, key)
  {
    hide WellFormed;
    hide CancelPending;
    hide GetPendingState;
    ReadersAndCancellersAreFenced(s.store, k, nonce, now);
  }

  lemma {:induction false} OtherStepsAreFenced(cfg: Config, s: State, step: Step, key: string)
    requires WellFormed(s.store) && Enabled(s, step)
    requires !OfConfirm(step) && !step.RecoverApply?
    requires key in s.store.rows && s.store.rows[key].claimed
    ensures Keeps(s.store, Apply(cfg, s, step).store, key)
  {
    hide WellFormed;
    hide StepStageSave;
    hide CancelPending;
    hide GetPendingState;
    hide StageAccepts;
    match step
    case StageVerified(_, _) =>
    case StageSave(nonce, now, fault) => StageSaveIsFenced(s, nonce, now, fault, key);
    case CancelRow(k, nonce, now) => QueriesAreFenced(s, k, nonce, now, key);
    case PollState(k, now) => QueriesAreFenced(s, k, None, now, key);
    case RecoverList(_, _) =>
    case RecoverLookUp(_, _, _) =>
  }

  /** The step carries out a recovery of the row at `key`. */
  predicate ByRecovery(s: State, step: Step, key: string) {
    step.RecoverApply? && step.rid in s.recoveries && s.recoveries[step.rid].key == key
  }

  /** No step but the holder's own, or recovery of an abandoned claim, changes a claimed row. */
  lemma {:induction false} ClaimedRowsAreFenced(cfg: Config, s: State, step: Step, key: string)
    requires Reachable(cfg, s) && Enabled(s, step)
    requires key in s.store.rows && s.store.rows[key].claimed
    ensures Keeps(s.store, Apply(cfg, s, step).store, key) || ByHolder(s, step, key) || ByRecovery(s, step, key)
  {
    ReachableRow(cfg, s, key);
    StepIsFenced(cfg, s, step, key);
  }

  lemma {:induction false} StepIsFenced(cfg: Config, s: State, step: Step, key: string)
    requires WellFormed(s.store) && Enabled(s, step)
    requires key in s.store.rows && s.store.rows[key].claimed
    ensures Keeps(s.store, Apply(cfg, s, step).store, key) || ByHolder(s, step, key) || ByRecovery(s, step, key)
  {
    if step.RecoverApply? {
      RecoveryIsFenced(s, step.rid, step.now, key);
    } else if step.Cleanup? || step.ReleaseRow? {
      HolderStepsAreFenced(cfg, s, step, key);
    } else if OfConfirm(step) {
      ConfirmStepsAreFenced(cfg, s, step, key);
    } else {
      OtherStepsAreFenced(cfg, s, step, key);
    }
  }

  lemma {:induction false} RecoveryIsFenced(s: State, rid: nat, now: int, key: string)
    requires rid in s.recoveries && s.recoveries[rid].known.Some? && key in s.store.rows
    ensures s.recoveries[rid].key != key ==> Keeps(s.store, StepRecoverApply(s, rid, now).store, key)
  {
  }

  /** The row is claimed under the lease, and the call that claimed it is over. */
  predicate Abandoned(s: State, key: string, lease: string) {
    HeldBy(s.store, key, lease) && LeaseIsOver(s, lease)
  }

  /**
   * A row whose claiming call is over stays under its lease until a recovery of
   * it is carried out: listing and looking up may take their time, as long as no
   * other recovery of the row comes between.
   */
  lemma {:induction false} AbandonedRowStays(cfg: Config, s: State, step: Step, key: string, lease: string)
    requires Reachable(cfg, s) && Enabled(s, step)
    requires Abandoned(s, key, lease) && !ByRecovery(s, step, key)
    ensures Keeps(s.store, Apply(cfg, s, step).store, key)
    ensures Abandoned(Apply(cfg, s, step), key, lease)
  {
    hide Reachable;
    hide Enabled;
    hide Apply;
    hide LeaseIsOver;
    hide ByHolder;
    ClaimedRowsAreFenced(cfg, s, step, key);
    ReachableRow(cfg, s, key);
    OverIsForGood(cfg, s, step);
    HolderGoesOn(cfg, s, step, key, lease);
    StillOver(s, Apply(cfg, s, step), lease);
  }

  lemma {:induction false} StillOver(s: State, s': State, lease: string)
    requires LeaseIsOver(s, lease) && OverStaysOver(s, s')
    ensures LeaseIsOver(s', lease)
  {
  }

  lemma {:induction false} OverIsForGood(cfg: Config, s: State, step: Step)
    requires WellFormed(s.store) && Enabled(s, step)
    ensures OverStaysOver(s, Apply(cfg, s, step))
  {
    hide OverStaysOver;
    hide StepRecoverApply;
    if !OfRecovery(step) {
      StepMoves(cfg, s, step);
      hide Apply;
    } else {
      RecoveryEndsNoCall(cfg, s, step);
    }
  }

  lemma {:induction false} RecoveryEndsNoCall(cfg: Config, s: State, step: Step)
    requires Enabled(s, step) && OfRecovery(step)
    ensures OverStaysOver(s, Apply(cfg, s, step))
  {
    hide Put;
    hide Remove;
    hide Given;
  }

  /** The holder of a row that gives it up is not over. */
  lemma {:induction false} HolderGoesOn(cfg: Config, s: State, step: Step, key: string, lease: string)
    requires Reachable(cfg, s) && Abandoned(s, key, lease)
    requires step.Cleanup? || step.ReleaseRow? ==> Enabled(s, step)
    ensures !ByHolder(s, step, key)
  {
    hide Reachable;
    if ByHolder(s, step, key) {
      ReachableCall(cfg, s, step.id);
    }
  }

  predicate TouchesRecords(step: Step) {
    step.BeginAttempt? || step.ConfirmAttempt? || step.ClearAttempt?
  }

  lemma {:induction false} ClaimingKeepsRecords(cfg: Config, s: State, id: nat, now: int, lease: string, fault: Fault)
    requires id in s.calls
    ensures StepReadState(cfg, s, id, now, fault).attempts == s.attempts
    ensures StepTake(cfg, s, id, now, lease, fault).attempts == s.attempts
    ensures s.calls[id].args.token.Some? ==> StepFindReplay(s, id, fault).attempts == s.attempts
  {
    hide GetPendingState;
    hide TakeValid;
    hide AfterMiss;
    hide AfterClaim;
    hide AnswerFor;
  }

  lemma {:induction false} PayingKeepsRecords(cfg: Config, s: State, id: nat, charge: ChargeResult)
    requires Claimed(s, id)
    ensures StepConsume(cfg, s, id, charge).attempts == s.attempts
  {
    hide AfterCharge;
  }

  lemma {:induction false} HoldingKeepsRecords(s: State, id: nat, fault: Fault)
    requires Claimed(s, id)
    ensures AttemptNonce(s.calls[id]).Some? ==> StepFindAttempt(s, id, fault).attempts == s.attempts
    ensures s.calls[id].pc.Refunding? ==> StepRefund(s, id, fault).attempts == s.attempts
  {
    hide AfterRefund;
    hide AttemptNonce;
  }

  lemma {:induction false} ClosingKeepsRecords(
      cfg: Config, s: State, id: nat, write: WriteResult, now: int, fault: Fault, sync: bool)
    requires Claimed(s, id)
    ensures s.calls[id].claim.value.record.nonce.Some? ==> StepWrite(cfg, s, id, write).attempts == s.attempts
    ensures s.calls[id].pc.CleaningUp? ==> StepCleanup(s, id, fault, sync).attempts == s.attempts
    ensures s.calls[id].pc.Releasing? ==> StepRelease(s, id, now, fault).attempts == s.attempts
  {
    hide CancelClaimed;
    hide RevertToPending;
    hide UsesAttempts;
    hide AfterFailedWrite;
  }

  lemma {:induction false} RecoveryKeepsRecords(s: State, rid: nat, now: int)
    requires rid in s.recoveries && s.recoveries[rid].known.Some?
    ensures StepRecoverApply(s, rid, now).attempts == s.attempts
  {
    hide Put;
    hide Remove;
  }

  lemma {:induction false} StagingKeepsRecords(s: State, p: Pending, entries: seq<Entry>)
    requires StageAccepts(s, p, entries)
    ensures StepStageVerified(s, p, entries).attempts == s.attempts
  {
    hide Given;
    hide IsUserId;
  }

  lemma {:induction false} SavingKeepsRecords(s: State, nonce: string, now: int, fault: Fault)
    requires nonce in s.staged
    ensures StepStageSave(s, nonce, now, fault).attempts == s.attempts
  {
    hide Save;
  }

  lemma {:induction false} OthersKeepRecords(cfg: Config, s: State, step: Step)
    requires Enabled(s, step) && !OfConfirm(step)
    ensures Apply(cfg, s, step).attempts == s.attempts
  {
    hide StepStageVerified;
    hide StepStageSave;
    hide CancelPending;
    hide GetPendingState;
    hide StageAccepts;
    hide StepRecoverApply;
    match step
    case StageVerified(p, entries) => StagingKeepsRecords(s, p, entries);
    case StageSave(nonce, now, fault) => SavingKeepsRecords(s, nonce, now, fault);
    case CancelRow(_, _, _) =>
    case PollState(_, _) =>
    case RecoverList(_, _) =>
    case RecoverLookUp(_, _, _) =>
    case RecoverApply(rid, now) => RecoveryKeepsRecords(s, rid, now);
    case _ => assert false;
  }

  lemma {:induction false} StepsKeepRecords(cfg: Config, s: State, step: Step)
    requires Enabled(s, step) && OfConfirm(step) && !TouchesRecords(step)
    ensures Apply(cfg, s, step).attempts == s.attempts
  {
    hide StepReadState;
    hide StepTake;
    hide StepFindReplay;
    hide StepConsume;
    hide StepFindAttempt;
    hide StepWrite;
    hide StepCleanup;
    hide StepRefund;
    hide StepRelease;
    hide AttemptNonce;
    match step
    case BeginConfirm(_, _) =>
    case Crash(_) =>
    case ReadState(id, now, fault) => ClaimingKeepsRecords(cfg, s, id, now, "", fault);
    case TakeRow(id, now, lease, fault) => ClaimingKeepsRecords(cfg, s, id, now, lease, fault);
    case FindReplay(id, fault) => ClaimingKeepsRecords(cfg, s, id, 0, "", fault);
    case ConsumeBudget(id, charge) => PayingKeepsRecords(cfg, s, id, charge);
    case FindAttempt(id, fault) => HoldingKeepsRecords(s, id, fault);
    case RefundBudget(id, fault) => HoldingKeepsRecords(s, id, fault);
    case CalendarWrite(id, write) => ClosingKeepsRecords(cfg, s, id, write, 0, Fine, false);
    case Cleanup(id, fault, sync) => ClosingKeepsRecords(cfg, s, id, WriteThrew(false), 0, fault, sync);
    case ReleaseRow(id, now, fault) => ClosingKeepsRecords(cfg, s, id, WriteThrew(false), now, fault, false);
    case _ => assert false;
  }

  /** A committed record is never overwritten, cleared or relabelled: replays answer the same for ever. */
  lemma {:induction false} CommittedRecordIsDurable(cfg: Config, s: State, step: Step, key: (string, string))
    requires Reachable(cfg, s) && Enabled(s, step)
    requires key in s.attempts && s.attempts[key].Committed?
    ensures key in Apply(cfg, s, step).attempts
    ensures Apply(cfg, s, step).attempts[key] == s.attempts[key]
  {
    hide Good;
    hide Reachable;
    if TouchesRecords(step) {
      ReachableIsGood(cfg, s);
      OtherRecord(cfg, s, step.id, key);
    } else if OfConfirm(step) {
      StepsKeepRecords(cfg, s, step);
    } else {
      OthersKeepRecords(cfg, s, step);
    }
  }

  /** The record a live call is working on is not a committed one. */
  lemma {:induction false} OtherRecord(cfg: Config, s: State, id: nat, key: (string, string))
    requires Good(cfg, s) && Claimed(s, id) && AttemptNonce(s.calls[id]).Some?
    requires s.calls[id].pc.Beginning? || s.calls[id].pc.Recording? || s.calls[id].pc.Clearing?
    requires key in s.attempts && s.attempts[key].Committed?
    ensures key != AttemptKey(s.calls[id])
  {
    assert CallOk(cfg, s, id) && AccountsOk(cfg, s.calls[id]);
    assert CommittedAs(s, key.0, key.1, s.attempts[key].timeLabel);
  }

  /** With the consume hook wired, a user's net consumption covers that user's committed writes. */
  lemma {:induction false} BudgetCoversWrites(cfg: Config, s: State, user: int)
    requires Reachable(cfg, s) && cfg.consumeHook
    ensures s.refunds[user] + WritesBy(s.writes, user) <= s.charges[user]
  {
    ReachableIsGood(cfg, s);
    forall id | id in Writers(s.calls, user) ensures id in Holders(s.calls, user) {
      assert AccountsOk(cfg, s.calls[id]);
    }
    CardSubset(Writers(s.calls, user), Holders(s.calls, user));
  }

  /**
   * With both hooks wired, a call that returns normally has kept exactly one
   * unit when its write committed or it was refused over an attempt in doubt,
   * and none otherwise.
   */
  lemma {:induction false} ReturnedCallKeepsItsDue(cfg: Config, s: State, id: nat)
    requires Reachable(cfg, s) && cfg.consumeHook && cfg.refundHook
    requires id in s.calls && s.calls[id].pc.Returned?
    ensures s.calls[id].units ==
      if s.calls[id].wrote || s.calls[id].pc.answer == UnknownOutcome(AttemptInDoubt) then 1 else 0
  {
    hide *;
    ReachableCall(cfg, s, id);
    ReturnedUnits(cfg, s.calls[id]);
  }
}
