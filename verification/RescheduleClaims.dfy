/**
 * What recovery can rely on between its awaits: a row claimed by a call that is
 * over stays as it is, whatever else happens, until some recovery touches it.
 */
module RescheduleClaims {
  import opened Prelude
  import opened RescheduleStore
  import opened RescheduleProtocol
  import opened RescheduleSafety

  predicate OldClaim(s: State, row: Row) {
    row.claimed && row.record.leaseToken.Some? && row.record.leaseToken.value in s.leases
  }

  /** Only unclaimed rows change, or rows that become claimed under a new lease. */
  ghost predicate OldClaimsOnly(s: State, rows: map<string, Row>) {
    forall k :: k in rows && OldClaim(s, rows[k]) ==> k in s.store.rows && s.store.rows[k] == rows[k]
  }

  /** A call that is over stays over. */
  ghost predicate OverStaysOver(s: State, s': State) {
    && (forall l :: l in s.leases ==> l in s'.leases && s'.leases[l] == s.leases[l])
    && (forall i :: i in s.calls && Ended(s.calls[i].pc) ==> i in s'.calls && s'.calls[i] == s.calls[i])
  }

  /** What is newly written was written by call `id`, holding its row. */
  ghost predicate WritesAsHolder(s: State, s': State, id: nat) {
    s'.writes == s.writes ||
      (&& Claimed(s, id) && Owning(s.calls[id].pc) && s.calls[id].claim.value.record.nonce.Some?
       && exists w: Write :: s'.writes == s.writes + [w] && Some(w.nonce) == s.calls[id].claim.value.record.nonce)
  }

  ghost predicate Moves(s: State, s': State, id: nat) {
    && s'.recoveries == s.recoveries && OldClaimsOnly(s, s'.store.rows)
    && OverStaysOver(s, s') && WritesAsHolder(s, s', id)
  }

  /** A holder's write is not under the nonce of a row whose claim is over. */
  lemma {:induction false} HolderWritesOwnRow(cfg: Config, s: State, id: nat, key: string)
    requires Inv(cfg, s) && Claimed(s, id) && Owning(s.calls[id].pc)
    requires key in s.store.rows && s.store.rows[key].claimed && s.store.rows[key].record.leaseToken.Some?
    requires LeaseIsOver(s, s.store.rows[key].record.leaseToken.value)
    ensures s.calls[id].claim.value.record.nonce != s.store.rows[key].record.nonce
  {
    assert CallOk(cfg, s, id);
    assert RowOk(s, key);
  }

  lemma {:induction false} RecoveryStays(cfg: Config, s: State, s': State, id: nat, r: Recovery)
    requires Inv(cfg, s) && RecoveryOk(s, r) && Moves(s, s', id)
    ensures RecoveryOk(s', r)
  {
    hide Inv;
    if r.key in s'.store.rows && s'.store.rows[r.key].claimed
       && s'.store.rows[r.key].record.leaseToken == Some(r.lease) {
      assert s.store.rows[r.key] == s'.store.rows[r.key];
      if r.known == Some(false) && s'.writes != s.writes {
        HolderWritesOwnRow(cfg, s, id, r.key);
        var w: Write :| s'.writes == s.writes + [w] && Some(w.nonce) == s.calls[id].claim.value.record.nonce;
        WrittenGrows(s.writes, w);
      }
    }
  }

  lemma {:induction false} RecoveriesStay(cfg: Config, s: State, s': State, id: nat)
    requires Inv(cfg, s) && RecoveriesOk(s) && Moves(s, s', id)
    ensures RecoveriesOk(s')
  {
    hide Inv;
    hide RecoveryOk;
    forall rid | rid in s'.recoveries ensures RecoveryOk(s', s'.recoveries[rid]) {
      hide Moves;
      assert s'.recoveries == s.recoveries by { MovesKeepsRecoveries(s, s', id); }
      RecoveryStays(cfg, s, s', id, s.recoveries[rid]);
    }
  }

  lemma {:induction false} MovesKeepsRecoveries(s: State, s': State, id: nat)
    requires Moves(s, s', id)
    ensures s'.recoveries == s.recoveries
  {
  }

  predicate GoingOn(s: State, id: nat) {
    id in s.calls && !Ended(s.calls[id].pc)
  }

  /** A call that is not over moves; no lease is given and nothing is written. */
  ghost predicate CallMoves(s: State, s': State, id: nat) {
    && (id in s.calls ==> GoingOn(s, id))
    && id in s'.calls && s'.calls == s.calls[id := s'.calls[id]]
    && s'.leases == s.leases && s'.writes == s.writes && s'.recoveries == s.recoveries
    && (s'.store == s.store || OldClaimsOnly(s, s'.store.rows))
  }

  lemma {:induction false} CallMoveIsAMove(s: State, s': State, id: nat)
    requires CallMoves(s, s', id)
    ensures Moves(s, s', id)
  {
  }

  /** A step of nobody's call changes the store, or what is staged. */
  lemma {:induction false} StoreMoveIsAMove(s: State, s': State, id: nat)
    requires s'.calls == s.calls && s'.leases == s.leases && s'.writes == s.writes && s'.recoveries == s.recoveries
    requires s'.store == s.store || OldClaimsOnly(s, s'.store.rows)
    ensures Moves(s, s', id)
  {
  }

  // ----- the store's operations make no old claims ------------------------------------------

  lemma {:induction false} RemovalIsOld(s: State, after: Store)
    requires OnlyUnclaimedRemoved(s.store, after)
    ensures OldClaimsOnly(s, after.rows)
  {
  }

  lemma {:induction false} QueriesAreOld(s: State, key: string, nonce: Option<string>, now: int)
    requires WellFormed(s.store)
    ensures OldClaimsOnly(s, CancelPending(s.store, key, nonce, now).0.rows)
    ensures OldClaimsOnly(s, GetPendingState(s.store, key, now).0.rows)
  {
    hide WellFormed;
    hide CancelPending;
    hide GetPendingState;
    ReadersAndCancellersAreFenced(s.store, key, nonce, now);
    RemovalIsOld(s, CancelPending(s.store, key, nonce, now).0);
    RemovalIsOld(s, GetPendingState(s.store, key, now).0);
  }

  lemma {:induction false} SaveIsOld(s: State, p: Pending, now: int)
    requires WellFormed(s.store)
    ensures OldClaimsOnly(s, Save(s.store, p, now).0.rows)
  {
    hide WellFormed;
    hide Save;
    SaveIsFenced(s.store, p, now);
  }

  lemma {:induction false} LettingGoIsOld(s: State, key: string, lease: string, now: int)
    requires WellFormed(s.store)
    ensures OldClaimsOnly(s, RevertToPending(s.store, key, lease, now).rows)
    ensures OldClaimsOnly(s, CancelClaimed(s.store, key, lease).rows)
  {
    hide WellFormed;
    LeaseOperationsAreFenced(s.store, key, lease, now);
    if !HeldBy(s.store, key, lease) {
      assert RevertToPending(s.store, key, lease, now) == CancelClaimed(s.store, key, lease) == s.store;
    }
    hide RevertToPending;
    hide CancelClaimed;
  }

  lemma {:induction false} NewClaimIsNotOld(s: State, rows: map<string, Row>, key: string, row: Row)
    requires rows == s.store.rows[key := row] && !OldClaim(s, row)
    ensures OldClaimsOnly(s, rows)
  {
  }

  lemma {:induction false} TakeIsOld(s: State, a: Args, now: int, lease: string)
    requires WellFormed(s.store) && lease !in s.leases
    ensures OldClaimsOnly(s, TakeValid(s.store, a.externalId, a.userId, BindingOf(a), now, lease).0.rows)
  {
    hide WellFormed;
    hide BindingAccepts;
    hide TakeValid;
    ClaimIsExclusive(s.store, a.externalId, a.userId, BindingOf(a), now, lease);
    var (store, got) := TakeValid(s.store, a.externalId, a.userId, BindingOf(a), now, lease);
    if got.Some? {
      NewClaimIsNotOld(s, store.rows, a.externalId, Row(got.value, true));
    } else {
      RemovalIsOld(s, store);
    }
  }

  // ----- every step but recovery's moves so -------------------------------------------------

  lemma {:induction false} OpeningStepsMove(cfg: Config, s: State, id: nat, args: Args, fault: Fault)
    ensures id !in s.calls ==> CallMoves(s, Apply(cfg, s, BeginConfirm(id, args)), id)
    ensures GoingOn(s, id) ==> CallMoves(s, Goto(s, id, Threw), id)
    ensures GoingOn(s, id) && s.calls[id].args.token.Some? ==> CallMoves(s, StepFindReplay(s, id, fault), id)
  {
    hide RequestAccepted;
    hide OldClaimsOnly;
  }

  lemma {:induction false} ConsumeMoves(cfg: Config, s: State, id: nat, charge: ChargeResult)
    requires GoingOn(s, id) && Claimed(s, id)
    ensures CallMoves(s, StepConsume(cfg, s, id, charge), id)
  {
    hide AfterCharge;
    hide OldClaimsOnly;
  }

  lemma {:induction false} RefundMoves(s: State, id: nat, fault: Fault)
    requires GoingOn(s, id) && Claimed(s, id) && s.calls[id].pc.Refunding?
    ensures CallMoves(s, StepRefund(s, id, fault), id)
  {
    hide AfterRefund;
    hide OldClaimsOnly;
  }

  lemma {:induction false} OpenAttemptMoves(s: State, id: nat, fault: Fault)
    requires GoingOn(s, id) && Claimed(s, id) && AttemptNonce(s.calls[id]).Some?
    ensures CallMoves(s, StepFindAttempt(s, id, fault), id)
    ensures CallMoves(s, StepBeginAttempt(s, id, fault), id)
  {
    hide AttemptNonce;
    hide OldClaimsOnly;
  }

  lemma {:induction false} CloseAttemptMoves(cfg: Config, s: State, id: nat, fault: Fault)
    requires GoingOn(s, id) && Claimed(s, id) && AttemptNonce(s.calls[id]).Some?
    ensures s.calls[id].pc.Recording? ==> CallMoves(s, StepConfirmAttempt(s, id, fault), id)
    ensures s.calls[id].pc.Clearing? ==> CallMoves(s, StepClearAttempt(cfg, s, id, fault), id)
  {
    hide AttemptNonce;
    hide AfterClear;
    hide OldClaimsOnly;
  }

  lemma {:induction false} WriteMoves(cfg: Config, s: State, id: nat, write: WriteResult)
    requires At(s, id, Writing) && Claimed(s, id) && s.calls[id].claim.value.record.nonce.Some?
    ensures Moves(s, StepWrite(cfg, s, id, write), id)
  {
    hide AfterFailedWrite;
    hide UsesAttempts;
    var s' := StepWrite(cfg, s, id, write);
    if write.WriteOk? {
      var w := WriteOf(s.calls[id], write.timeLabel);
      assert s'.writes == s.writes + [w];
    }
  }

  lemma {:induction false} ReadStateMoves(cfg: Config, s: State, id: nat, now: int, fault: Fault)
    requires WellFormed(s.store) && GoingOn(s, id)
    ensures CallMoves(s, StepReadState(cfg, s, id, now, fault), id)
  {
    hide WellFormed;
    hide GetPendingState;
    hide OldClaimsOnly;
    hide AnswerFor;
    QueriesAreOld(s, s.calls[id].args.externalId, None, now);
  }

  /** The claim itself: one call gets a lease nobody had. */
  lemma {:induction false} TakeMoves(cfg: Config, s: State, id: nat, now: int, lease: string, fault: Fault)
    requires WellFormed(s.store) && At(s, id, Taking) && lease !in s.leases
    ensures Moves(s, StepTake(cfg, s, id, now, lease, fault), id)
  {
    TakeIsOld(s, s.calls[id].args, now, lease);
    TakeGivesALease(cfg, s, id, now, lease, fault);
    StoreIsOld(s);
    hide *;
    MovesBy(s, StepTake(cfg, s, id, now, lease, fault), id);
  }

  /** Taking moves one call and gives out at most the new lease. */
  lemma {:induction false} TakeGivesALease(cfg: Config, s: State, id: nat, now: int, lease: string, fault: Fault)
    requires At(s, id, Taking) && lease !in s.leases
    ensures var s', a := StepTake(cfg, s, id, now, lease, fault), s.calls[id].args;
      && s'.recoveries == s.recoveries && s'.writes == s.writes && OverStaysOver(s, s')
      && (s'.store == s.store || s'.store == TakeValid(s.store, a.externalId, a.userId, BindingOf(a), now, lease).0)
  {
    hide TakeValid;
    hide AfterMiss;
    hide AfterClaim;
    hide BindingOf;
    hide OverStaysOver;
    TakeMovesOneCall(cfg, s, id, now, lease, fault);
    GivingOneLease(s, StepTake(cfg, s, id, now, lease, fault), id, lease);
  }

  lemma {:induction false} TakeMovesOneCall(cfg: Config, s: State, id: nat, now: int, lease: string, fault: Fault)
    requires id in s.calls
    ensures var s' := StepTake(cfg, s, id, now, lease, fault);
      && id in s'.calls && s'.calls == s.calls[id := s'.calls[id]]
      && (s'.leases == s.leases || s'.leases == s.leases[lease := id])
  {
    hide TakeValid;
    hide AfterMiss;
    hide AfterClaim;
    hide BindingOf;
  }

  lemma {:induction false} GivingOneLease(s: State, s': State, id: nat, lease: string)
    requires GoingOn(s, id) && id in s'.calls && lease !in s.leases
    requires s'.calls == s.calls[id := s'.calls[id]] && (s'.leases == s.leases || s'.leases == s.leases[lease := id])
    ensures OverStaysOver(s, s')
  {
  }

  lemma {:induction false} MovesBy(s: State, s': State, id: nat)
    requires s'.recoveries == s.recoveries && s'.writes == s.writes && OverStaysOver(s, s')
    requires OldClaimsOnly(s, s'.store.rows)
    ensures Moves(s, s', id)
  {
  }

  lemma {:induction false} StoreIsOld(s: State)
    ensures OldClaimsOnly(s, s.store.rows)
  {
  }

  lemma {:induction false} LettingGoMoves(s: State, id: nat, now: int, fault: Fault, sync: bool)
    requires WellFormed(s.store) && GoingOn(s, id) && Claimed(s, id)
    ensures s.calls[id].pc.CleaningUp? ==> CallMoves(s, StepCleanup(s, id, fault, sync), id)
    ensures s.calls[id].pc.Releasing? ==> CallMoves(s, StepRelease(s, id, now, fault), id)
  {
    hide WellFormed;
    hide RevertToPending;
    hide CancelClaimed;
    hide OldClaimsOnly;
    LettingGoIsOld(s, s.calls[id].args.externalId, s.calls[id].claim.value.lease, now);
  }

  predicate OfRecovery(step: Step) {
    step.RecoverList? || step.RecoverLookUp? || step.RecoverApply?
  }

  predicate OfOutside(step: Step) {
    step.StageVerified? || step.StageSave? || step.CancelRow? || step.PollState?
  }

  function MoverOf(step: Step): nat
    requires !OfRecovery(step)
  {
    if OfOutside(step) then 0 else step.id
  }

  lemma {:induction false} OutsideMoves(cfg: Config, s: State, step: Step)
    requires WellFormed(s.store) && Enabled(s, step) && OfOutside(step)
    ensures Moves(s, Apply(cfg, s, step), 0)
  {
    hide WellFormed;
    hide Save;
    hide CancelPending;
    hide GetPendingState;
    hide OldClaimsOnly;
    hide Moves;
    match step
    case StageVerified(p, entries) => StoreMoveIsAMove(s, StepStageVerified(s, p, entries), 0);
    case StageSave(nonce, now, fault) =>
      SaveIsOld(s, s.staged[nonce], now);
      StoreMoveIsAMove(s, StepStageSave(s, nonce, now, fault), 0);
    case CancelRow(key, nonce, now) =>
      QueriesAreOld(s, key, nonce, now);
      StoreMoveIsAMove(s, s.(store := CancelPending(s.store, key, nonce, now).0), 0);
    case PollState(key, now) =>
      QueriesAreOld(s, key, None, now);
      StoreMoveIsAMove(s, s.(store := GetPendingState(s.store, key, now).0), 0);
  }

  /** Steps of a call that neither claim nor write. */
  lemma {:induction false} ConfirmStepMoves(cfg: Config, s: State, step: Step)
    requires WellFormed(s.store) && Enabled(s, step) && !OfRecovery(step) && !OfOutside(step)
    requires !step.TakeRow? && !step.CalendarWrite?
    ensures CallMoves(s, Apply(cfg, s, step), step.id)
  {
    hide WellFormed;
    hide CallMoves;
    hide StepReadState;
    hide StepFindReplay;
    hide StepConsume;
    hide StepFindAttempt;
    hide StepBeginAttempt;
    hide StepConfirmAttempt;
    hide StepCleanup;
    hide StepClearAttempt;
    hide StepRefund;
    hide StepRelease;
    hide AttemptNonce;
    match step
    case BeginConfirm(id, args) => OpeningStepsMove(cfg, s, id, args, Fine);
    case Crash(id) => OpeningStepsMove(cfg, s, id, s.calls[id].args, Fine);
    case FindReplay(id, fault) => OpeningStepsMove(cfg, s, id, s.calls[id].args, fault);
    case ReadState(id, now, fault) => ReadStateMoves(cfg, s, id, now, fault);
    case ConsumeBudget(id, charge) => ConsumeMoves(cfg, s, id, charge);
    case RefundBudget(id, fault) => RefundMoves(s, id, fault);
    case Cleanup(id, fault, sync) => LettingGoMoves(s, id, 0, fault, sync);
    case ReleaseRow(id, now, fault) => LettingGoMoves(s, id, now, fault, false);
    case FindAttempt(id, fault) => OpenAttemptMoves(s, id, fault);
    case BeginAttempt(id, fault) => OpenAttemptMoves(s, id, fault);
    case ConfirmAttempt(id, fault) => CloseAttemptMoves(cfg, s, id, fault);
    case ClearAttempt(id, fault) => CloseAttemptMoves(cfg, s, id, fault);
    case _ => assert false;
  }

  lemma {:induction false} StepMoves(cfg: Config, s: State, step: Step)
    requires WellFormed(s.store) && Enabled(s, step) && !OfRecovery(step)
    ensures Moves(s, Apply(cfg, s, step), MoverOf(step))
  {
    hide WellFormed;
    hide Moves;
    hide CallMoves;
    if step.TakeRow? {
      TakeMoves(cfg, s, step.id, step.now, step.lease, step.fault);
    } else if step.CalendarWrite? {
      WriteMoves(cfg, s, step.id, step.write);
    } else if OfOutside(step) {
      OutsideMoves(cfg, s, step);
    } else {
      ConfirmStepMoves(cfg, s, step);
      hide Apply;
      CallMoveIsAMove(s, Apply(cfg, s, step), step.id);
    }
  }

  // ----- recovery's own steps ------------------------------------------------------------------

  lemma {:induction false} ListKeepsRecoveries(cfg: Config, s: State, rid: nat, key: string)
    requires Inv(cfg, s) && RecoveriesOk(s) && Enabled(s, RecoverList(rid, key))
    ensures RecoveriesOk(StepRecoverList(s, rid, key))
  {
    assert RowOk(s, key);
    hide Inv;
    var s' := StepRecoverList(s, rid, key);
    forall other | other in s'.recoveries ensures RecoveryOk(s', s'.recoveries[other]) {
      if other != rid {
        assert RecoveryOk(s, s.recoveries[other]);
      }
    }
  }

  /** Without an attempt record nothing was written under the nonce. */
  lemma {:induction false} NoRecordNoWrite(cfg: Config, s: State, key: string)
    requires Inv(cfg, s) && cfg.attemptStore && key in s.store.rows && Given(s.store.rows[key].record.nonce)
    requires (key, s.store.rows[key].record.nonce.value) !in s.attempts
    ensures s.store.rows[key].record.nonce.value !in Written(s.writes)
  {
    assert RowOk(s, key);
    assert forall w :: w in s.writes && w.nonce == s.store.rows[key].record.nonce.value ==>
      (key, w.nonce) in s.attempts;
  }

  lemma {:induction false} LookUpIsSound(cfg: Config, s: State, rid: nat, asked: string)
    requires Inv(cfg, s) && Enabled(s, RecoverLookUp(rid, asked, false)) && RecoveryOk(s, s.recoveries[rid])
    requires cfg.attemptStore && asked == s.recoveries[rid].key && LeaseIsOver(s, s.recoveries[rid].lease)
    ensures var s' := StepRecoverLookUp(cfg, s, rid, asked, false); RecoveryOk(s', s'.recoveries[rid])
  {
    var r := s.recoveries[rid];
    if r.key in s.store.rows && s.store.rows[r.key].claimed
       && s.store.rows[r.key].record.leaseToken == Some(r.lease) {
      assert RowOk(s, r.key);
      if (asked, r.nonce.value) !in s.attempts {
        NoRecordNoWrite(cfg, s, r.key);
      }
    }
  }

  lemma {:induction false} LookUpKeepsRecoveries(cfg: Config, s: State, rid: nat, asked: string, failed: bool)
    requires Inv(cfg, s) && RecoveriesOk(s)
    requires Enabled(s, RecoverLookUp(rid, asked, failed)) && Disciplined(cfg, s, RecoverLookUp(rid, asked, failed))
    ensures RecoveriesOk(StepRecoverLookUp(cfg, s, rid, asked, failed))
  {
    hide Inv;
    var s' := StepRecoverLookUp(cfg, s, rid, asked, failed);
    LookUpIsSound(cfg, s, rid, asked);
    forall other | other in s'.recoveries ensures RecoveryOk(s', s'.recoveries[other]) {
      if other != rid {
        assert RecoveryOk(s, s.recoveries[other]);
      }
    }
  }

  lemma {:induction false} ApplyKeepsRecoveries(s: State, rid: nat, now: int)
    requires RecoveriesOk(s) && rid in s.recoveries && s.recoveries[rid].known.Some?
    ensures RecoveriesOk(StepRecoverApply(s, rid, now))
  {
    var s' := StepRecoverApply(s, rid, now);
    var key := s.recoveries[rid].key;
    assert forall k :: k in s'.store.rows && s'.store.rows[k].claimed ==> k in s.store.rows && s'.store.rows[k] == s.store.rows[k];
    hide StepRecoverApply;
    forall other | other in s'.recoveries ensures RecoveryOk(s', s'.recoveries[other]) {
      assert RecoveryOk(s, s.recoveries[other]);
    }
  }

  lemma {:induction false} StepKeepsRecoveries(cfg: Config, s: State, step: Step)
    requires Inv(cfg, s) && RecoveriesOk(s) && Enabled(s, step) && Disciplined(cfg, s, step)
    ensures RecoveriesOk(Apply(cfg, s, step))
  {
    hide RecoveriesOk;
    hide Moves;
    hide Inv;
    if OfRecovery(step) {
      match step
      case RecoverList(rid, key) => ListKeepsRecoveries(cfg, s, rid, key);
      case RecoverLookUp(rid, asked, failed) => LookUpKeepsRecoveries(cfg, s, rid, asked, failed);
      case RecoverApply(rid, now) => ApplyKeepsRecoveries(s, rid, now);
    } else {
      hide Apply;
      StoreIsOk(cfg, s);
      StepMoves(cfg, s, step);
      RecoveriesStay(cfg, s, Apply(cfg, s, step), MoverOf(step));
    }
  }
}
