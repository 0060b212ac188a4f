/**
 * What every interleaving of stage, confirm and cancel keeps, whichever port
 * throws at whichever await: one calendar write per approval nonce, one live
 * confirmation per external id, honest answers, and a budget that covers the
 * committed writes.
 */
module RescheduleSafety {
  import opened Prelude
  import opened RescheduleStore
  import opened RescheduleProtocol

  // ----- the invariant -----------------------------------------------------------

  /** Awaits at which a call still holds the claimed row. */
  predicate Owning(pc: Pc) {
    BeforeWrite(pc) || pc.Recording? || pc.CleaningUp?
  }

  /** Awaits before the call has asked for the row. */
  predicate BeforeClaim(pc: Pc) {
    pc.CheckingState? || pc.Taking? || pc.Replaying? || pc.RecheckingState?
  }

  predicate BeforeWrite(pc: Pc) {
    pc.Charging? || pc.LookingUp? || pc.Beginning? || pc.Writing? || pc.Clearing? || pc.Refunding? || pc.Releasing?
  }

  ghost function Written(writes: seq<Write>): set<string> {
    set w | w in writes :: w.nonce
  }

  /** The record is one a `stage` call verified for its own user. */
  predicate Granted(s: State, p: Pending) {
    && Given(p.nonce) && p.nonce.value in s.granted
    && s.granted[p.nonce.value] == Grant(p.externalId, p.userId, p.calendarId, p.userId)
  }

  ghost predicate RowOk(s: State, key: string)
    requires key in s.store.rows
  {
    var row := s.store.rows[key];
    && row.record.externalId == key
    && Granted(s, row.record)
    && row.record.nonce.value !in s.staged
    && (!row.claimed ==> row.record.nonce.value !in Written(s.writes))
    && (row.claimed ==>
      && row.record.leaseToken.Some?
      && row.record.leaseToken.value in s.leases
      && s.leases[row.record.leaseToken.value] in s.calls
      && s.calls[s.leases[row.record.leaseToken.value]].claim == Some(Claim(row.record, row.record.leaseToken.value)))
  }

  ghost predicate ClaimOk(s: State, id: nat)
    requires Claimed(s, id)
  {
    var c := s.calls[id];
    var claim := c.claim.value;
    && claim.lease in s.leases && s.leases[claim.lease] == id
    && claim.record.leaseToken == Some(claim.lease)
    && claim.record.externalId == c.args.externalId
    && (Given(c.args.token) ==> claim.record.nonce == c.args.token)
    && Granted(s, claim.record)
    && claim.record.nonce.value !in s.staged
    && (Owning(c.pc) ==> claim.record.externalId in s.store.rows
                         && s.store.rows[claim.record.externalId] == Row(claim.record, true))
    && (BeforeWrite(c.pc) ==> claim.record.nonce.value !in Written(s.writes))
  }

  ghost predicate CallOk(cfg: Config, s: State, id: nat)
    requires id in s.calls
  {
    var c := s.calls[id];
    && (c.claim.Some? ==> ClaimOk(s, id))
    && (BeforeClaim(c.pc) ==> c.claim.None? && !c.wrote)
    && (Owning(c.pc) || c.wrote ==> c.claim.Some?)
    && (c.wrote ==> !BeforeWrite(c.pc) && c.claim.value.record.nonce.value in Written(s.writes))
    && (c.pc.Recording? ==> c.wrote && WriteOf(c, c.pc.timeLabel) in s.writes)
    && (c.pc.CleaningUp? ==> c.wrote && WriteOf(c, c.pc.timeLabel) in s.writes)
    && (c.claim.Some? && UsesAttempts(cfg, c) && (c.pc.Writing? || c.pc.Recording?) ==>
          AttemptKey(c) in s.attempts && s.attempts[AttemptKey(c)] == Attempting)
    && AnswerOk(s, c)
  }

  /** A positive answer is backed by a committed write and carries the label it produced. */
  ghost predicate AnswerOk(s: State, c: Call) {
    c.pc.Returned? && c.pc.answer.Confirmed? ==>
      if c.pc.answer.replayed then
        Given(c.args.token) && CommittedAs(s, c.args.externalId, c.args.token.value, c.pc.answer.timeLabel)
      else
        c.claim.Some? && c.claim.value.record.nonce.Some?
        && CommittedAs(s, c.args.externalId, c.claim.value.record.nonce.value, c.pc.answer.timeLabel)
  }

  ghost predicate CommittedAs(s: State, externalId: string, nonce: string, timeLabel: string) {
    exists w :: w in s.writes && w.externalId == externalId && w.nonce == nonce && w.timeLabel == timeLabel
  }

  ghost predicate WritesOk(s: State) {
    && (forall i, j :: 0 <= i < j < |s.writes| ==> s.writes[i].nonce != s.writes[j].nonce)
    && (forall w :: w in s.writes ==>
          && w.nonce in s.granted && w.nonce !in s.staged
          && s.granted[w.nonce] == Grant(w.externalId, w.userId, w.calendarId, w.userId))
  }

  ghost predicate AttemptsOk(cfg: Config, s: State) {
    && (forall key :: key in s.attempts && s.attempts[key].Committed? ==>
          CommittedAs(s, key.0, key.1, s.attempts[key].timeLabel))
    && (cfg.attemptStore ==>
          forall w :: w in s.writes ==> (w.externalId, w.nonce) in s.attempts)
  }

  ghost predicate StagedOk(s: State) {
    forall n :: n in s.staged ==>
      && s.staged[n].nonce == Some(n) && Granted(s, s.staged[n])
      && n !in Written(s.writes)
  }

  ghost predicate Inv(cfg: Config, s: State) {
    && WellFormed(s.store)
    && (forall key :: key in s.store.rows ==> RowOk(s, key))
    && (forall id :: id in s.calls ==> CallOk(cfg, s, id))
    && StagedOk(s)
    && WritesOk(s)
    && AttemptsOk(cfg, s)
  }

  /** The parts of the invariant a step usually needs. */
  lemma {:induction false} StoreIsOk(cfg: Config, s: State)
    requires Inv(cfg, s)
    ensures WellFormed(s.store)
  {
  }

  lemma {:induction false} CallIsOk(cfg: Config, s: State, id: nat)
    requires Inv(cfg, s) && id in s.calls
    ensures CallOk(cfg, s, id)
  {
  }

  lemma {:induction false} AttemptsAreOk(cfg: Config, s: State)
    requires Inv(cfg, s)
    ensures AttemptsOk(cfg, s)
  {
  }

  // ----- framing -----------------------------------------------------------------------

  /** Everything a step of call `id` may leave changed as far as other calls can tell. */
  ghost predicate Local(s: State, s': State, id: nat) {
    && (forall i :: i in s.calls && i != id ==> i in s'.calls && s'.calls[i] == s.calls[i])
    && (forall i :: i in s'.calls && i != id ==> i in s.calls)
    && (forall n :: n in s.granted ==> n in s'.granted && s'.granted[n] == s.granted[n])
    && (forall l :: l in s.leases ==> l in s'.leases && s'.leases[l] == s.leases[l])
    && (forall n :: n in s'.staged ==> n in s.staged || n !in s.granted)
    && (forall k :: k in s.store.rows && s.store.rows[k].claimed ==>
          Mine(s, s.store.rows[k], id) || (k in s'.store.rows && s'.store.rows[k] == s.store.rows[k]))
    && (s'.writes == s.writes || WritesMine(s, s', id))
    && (forall w :: w in s.writes ==> w in s'.writes)
    && (s'.attempts == s.attempts || AttemptsMine(s, s', id))
  }

  ghost predicate Mine(s: State, row: Row, id: nat) {
    row.record.leaseToken.Some? && row.record.leaseToken.value in s.leases && s.leases[row.record.leaseToken.value] == id
  }

  /** A holder's nonce: the one of the row it holds under its own lease. */
  ghost predicate HoldsNonce(s: State, id: nat, nonce: string) {
    && Claimed(s, id)
    && Owning(s.calls[id].pc)
    && s.calls[id].claim.value.record.nonce == Some(nonce)
  }

  ghost predicate WritesMine(s: State, s': State, id: nat) {
    forall n :: n in Written(s'.writes) && n !in Written(s.writes) ==> HoldsNonce(s, id, n)
  }

  ghost predicate AttemptsMine(s: State, s': State, id: nat) {
    forall key: (string, string) :: !HoldsNonce(s, id, key.1) ==>
      (key in s.attempts <==> key in s'.attempts)
      && (key in s.attempts ==> s'.attempts[key] == s.attempts[key])
  }

  /** Two calls holding rows for one nonce or one external id are the same call. */
  lemma {:induction false} OneHolder(cfg: Config, s: State, a: nat, b: nat)
    requires Inv(cfg, s)
    requires Claimed(s, a) && Owning(s.calls[a].pc)
    requires Claimed(s, b) && Owning(s.calls[b].pc)
    requires s.calls[a].args.externalId == s.calls[b].args.externalId
      || s.calls[a].claim.value.record.nonce == s.calls[b].claim.value.record.nonce
    ensures a == b
  {
    assert CallOk(cfg, s, a) && CallOk(cfg, s, b);
    assert Granted(s, s.calls[a].claim.value.record);
    assert Granted(s, s.calls[b].claim.value.record);
  }

  /** A step of call `id` keeps what the invariant says of every other call. */
  lemma {:induction false} OthersKeep(cfg: Config, s: State, s': State, id: nat, other: nat)
    requires Inv(cfg, s)
    requires Local(s, s', id)
    requires other != id && other in s.calls
    ensures CallOk(cfg, s', other)
  {
    hide Inv;
    var c := s.calls[other];
    CallIsOk(cfg, s, other);
    if c.claim.Some? {
      var p := c.claim.value.record;
      assert Granted(s', p);
      if Owning(c.pc) {
        assert s.store.rows[p.externalId] == Row(p, true);
        assert !Mine(s, s.store.rows[p.externalId], id);
        if HoldsNonce(s, id, p.nonce.value) {
          OneHolder(cfg, s, id, other);
        }
      }
    }
  }

  /** So such a step keeps every call in order that keeps its own. */
  lemma {:induction false} CallsKeep(cfg: Config, s: State, s': State, id: nat)
    requires Inv(cfg, s) && Local(s, s', id) && id in s'.calls && CallOk(cfg, s', id)
    ensures forall i :: i in s'.calls ==> CallOk(cfg, s', i)
  {
    hide Inv;
    hide CallOk;
    forall i | i in s'.calls && i != id ensures CallOk(cfg, s', i) {
      OthersKeep(cfg, s, s', id, i);
    }
  }

  /** Nothing moved but unclaimed rows disappearing, the budget ledger, and call `id` itself. */
  ghost predicate Quiet(s: State, s': State, id: nat) {
    && WellFormed(s'.store)
    && OnlyUnclaimedRemoved(s.store, s'.store)
    && s'.attempts == s.attempts && s'.writes == s.writes
    && s'.staged == s.staged && s'.granted == s.granted && s'.leases == s.leases
    && id in s'.calls && s'.calls == s.calls[id := s'.calls[id]]
    && s'.calls[id].claim == (if id in s.calls then s.calls[id].claim else None)
  }

  lemma {:induction false} QuietStepKeepsInv(cfg: Config, s: State, s': State, id: nat)
    requires Inv(cfg, s)
    requires Quiet(s, s', id)
    requires CallOk(cfg, s', id)
    ensures Inv(cfg, s')
  {
    assert Local(s, s', id);
    CallsKeep(cfg, s, s', id);
    forall key | key in s'.store.rows ensures RowOk(s', key) {
      assert RowOk(s, key);
    }
  }

  /** A change of the store alone that only removes unclaimed rows. */
  lemma {:induction false} RemovalKeepsInv(cfg: Config, s: State, s': State)
    requires Inv(cfg, s)
    requires s' == s.(store := s'.store)
    requires WellFormed(s'.store) && OnlyUnclaimedRemoved(s.store, s'.store)
    ensures Inv(cfg, s')
  {
    forall i | i in s'.calls ensures CallOk(cfg, s', i) {
      assert CallOk(cfg, s, i);
    }
    forall key | key in s'.store.rows ensures RowOk(s', key) {
      assert RowOk(s, key);
    }
  }

  /** A call that holds nothing moves on while unclaimed rows may disappear. */
  lemma {:induction false} IdleMoveKeepsInv(cfg: Config, s: State, id: nat, store: Store, pc: Pc)
    requires Inv(cfg, s) && id in s.calls
    requires BeforeClaim(s.calls[id].pc)
    requires !Owning(pc) && !(pc.Returned? && pc.answer.Confirmed?)
    requires WellFormed(store) && OnlyUnclaimedRemoved(s.store, store)
    ensures Inv(cfg, Goto(s.(store := store), id, pc))
  {
    assert CallOk(cfg, s, id);
    QuietStepKeepsInv(cfg, s, Goto(s.(store := store), id, pc), id);
  }

  lemma {:induction false} NothingRemoved(store: Store)
    ensures OnlyUnclaimedRemoved(store, store)
  {
  }

  lemma {:induction false} ReadStateKeepsInv(cfg: Config, s: State, id: nat, now: int, fault: Fault)
    requires Inv(cfg, s) && Enabled(s, ReadState(id, now, fault))
    ensures Inv(cfg, StepReadState(cfg, s, id, now, fault))
  {
    hide Inv;
    hide WellFormed;
    hide OnlyUnclaimedRemoved;
    hide GetPendingState;
    StoreIsOk(cfg, s);
    var key := s.calls[id].args.externalId;
    ReadersAndCancellersAreFenced(s.store, key, None, now);
    NothingRemoved(s.store);
    var s' := StepReadState(cfg, s, id, now, fault);
    IdleMoveKeepsInv(cfg, s, id, s'.store, s'.calls[id].pc);
  }

  lemma {:induction false} FindReplayKeepsInv(cfg: Config, s: State, id: nat, fault: Fault)
    requires Inv(cfg, s) && Enabled(s, FindReplay(id, fault))
    ensures Inv(cfg, StepFindReplay(s, id, fault))
  {
    assert CallOk(cfg, s, id);
    QuietStepKeepsInv(cfg, s, StepFindReplay(s, id, fault), id);
  }

  /** A call that holds its row and has not written moves on without touching any store. */
  lemma {:induction false} HolderMoveKeepsInv(cfg: Config, s: State, id: nat, s': State)
    requires Inv(cfg, s) && id in s.calls && id in s'.calls
    requires BeforeWrite(s.calls[id].pc)
    requires BeforeWrite(s'.calls[id].pc) || s'.calls[id].pc.Threw?
    requires s'.calls[id].pc.Writing? ==> s.calls[id].claim.Some? && !UsesAttempts(cfg, s.calls[id])
    requires s'.calls[id] == s.calls[id].(pc := s'.calls[id].pc, units := s'.calls[id].units)
    requires s' == s.(calls := s.calls[id := s'.calls[id]], charges := s'.charges, refunds := s'.refunds)
    ensures Inv(cfg, s')
  {
    assert CallOk(cfg, s, id);
    QuietStepKeepsInv(cfg, s, s', id);
  }

  lemma {:induction false} ConsumeKeepsInv(cfg: Config, s: State, id: nat, charge: ChargeResult)
    requires Inv(cfg, s) && Enabled(s, ConsumeBudget(id, charge))
    ensures Inv(cfg, StepConsume(cfg, s, id, charge))
  {
    hide Inv;
    HolderMoveKeepsInv(cfg, s, id, StepConsume(cfg, s, id, charge));
  }

  lemma {:induction false} FindAttemptKeepsInv(cfg: Config, s: State, id: nat, fault: Fault)
    requires Inv(cfg, s) && Enabled(s, FindAttempt(id, fault))
    ensures Inv(cfg, StepFindAttempt(s, id, fault))
  {
    hide Inv;
    HolderMoveKeepsInv(cfg, s, id, StepFindAttempt(s, id, fault));
  }

  lemma {:induction false} RefundKeepsInv(cfg: Config, s: State, id: nat, fault: Fault)
    requires Inv(cfg, s) && Enabled(s, RefundBudget(id, fault))
    ensures Inv(cfg, StepRefund(s, id, fault))
  {
    hide Inv;
    HolderMoveKeepsInv(cfg, s, id, StepRefund(s, id, fault));
  }

  lemma {:induction false} BeginKeepsInv(cfg: Config, s: State, id: nat, args: Args)
    requires Inv(cfg, s) && Enabled(s, BeginConfirm(id, args))
    ensures Inv(cfg, Apply(cfg, s, BeginConfirm(id, args)))
  {
    QuietStepKeepsInv(cfg, s, Apply(cfg, s, BeginConfirm(id, args)), id);
  }

  /** The row at `p.externalId` passes from nobody to call `id`, under a lease nobody had. */
  ghost predicate Claims(cfg: Config, s: State, id: nat, p: Pending, lease: string, s': State) {
    && At(s, id, Taking) && lease !in s.leases
    && p.externalId in s.store.rows && !s.store.rows[p.externalId].claimed
    && p == s.store.rows[p.externalId].record.(leaseToken := Some(lease))
    && p.externalId == s.calls[id].args.externalId
    && (Given(s.calls[id].args.token) ==> p.nonce == s.calls[id].args.token)
    && WellFormed(s'.store) && s'.store.rows == s.store.rows[p.externalId := Row(p, true)]
    && id in s'.calls
    && s'.calls[id] == s.calls[id].(claim := Some(Claim(p, lease)), pc := s'.calls[id].pc)
    && s' == s.(store := s'.store, leases := s.leases[lease := id], calls := s.calls[id := s'.calls[id]])
    && (BeforeWrite(s'.calls[id].pc) || s'.calls[id].pc.Threw?)
    && (s'.calls[id].pc.Writing? ==> !UsesAttempts(cfg, s'.calls[id]))
  }

  lemma {:induction false} ClaimantIsOk(cfg: Config, s: State, id: nat, p: Pending, lease: string, s': State)
    requires Inv(cfg, s) && Claims(cfg, s, id, p, lease, s')
    ensures CallOk(cfg, s', id)
  {
    hide WellFormed;
    hide AttemptsOk;
    hide WritesOk;
    hide StagedOk;
    assert CallOk(cfg, s, id);
    assert RowOk(s, p.externalId);
  }

  lemma {:induction false} ClaimKeepsRows(cfg: Config, s: State, id: nat, p: Pending, lease: string, s': State, key: string)
    requires Inv(cfg, s) && Claims(cfg, s, id, p, lease, s')
    requires key in s'.store.rows
    ensures RowOk(s', key)
  {
    assert CallOk(cfg, s, id);
    assert key in s.store.rows && RowOk(s, key);
  }

  lemma {:induction false} ClaimKeepsInv(cfg: Config, s: State, id: nat, p: Pending, lease: string, s': State)
    requires Inv(cfg, s) && Claims(cfg, s, id, p, lease, s')
    ensures Inv(cfg, s')
  {
    hide RowOk;
    hide CallOk;
    hide Local;
    hide WellFormed;
    ClaimantIsOk(cfg, s, id, p, lease, s');
    ClaimIsLocal(cfg, s, id, p, lease, s');
    CallsKeep(cfg, s, s', id);
    forall key | key in s'.store.rows ensures RowOk(s', key) {
      ClaimKeepsRows(cfg, s, id, p, lease, s', key);
    }
  }

  lemma {:induction false} ClaimIsLocal(cfg: Config, s: State, id: nat, p: Pending, lease: string, s': State)
    requires Claims(cfg, s, id, p, lease, s')
    ensures Local(s, s', id)
  {
    hide WellFormed;
    hide UsesAttempts;
  }

  lemma {:induction false} TakeKeepsInv(cfg: Config, s: State, id: nat, now: int, lease: string, fault: Fault)
    requires Inv(cfg, s) && Enabled(s, TakeRow(id, now, lease, fault))
    ensures Inv(cfg, StepTake(cfg, s, id, now, lease, fault))
  {
    hide TakeValid;
    hide Inv;
    hide WellFormed;
    hide RowOk;
    hide AfterMiss;
    StoreIsOk(cfg, s);
    AfterMissIsIdle(cfg, s.calls[id].args);
    var s' := StepTake(cfg, s, id, now, lease, fault);
    var a := s.calls[id].args;
    ClaimIsExclusive(s.store, a.externalId, a.userId, BindingOf(a), now, lease);
    var (store, got) := TakeValid(s.store, a.externalId, a.userId, BindingOf(a), now, lease);
    if fault.ThrewBefore? {
      IdleMoveKeepsInv(cfg, s, id, s.store, Threw);
    } else if got.None? {
      IdleMoveKeepsInv(cfg, s, id, store, Then(fault, AfterMiss(cfg, a)));
    } else {
      RowKey(cfg, s, a.externalId);
      ClaimKeepsInv(cfg, s, id, got.value, lease, s');
    }
  }

  lemma {:induction false} AfterMissIsIdle(cfg: Config, a: Args)
    ensures var pc := AfterMiss(cfg, a); !Owning(pc) && !(pc.Returned? && pc.answer.Confirmed?)
  {
  }

  lemma {:induction false} RowKey(cfg: Config, s: State, key: string)
    requires Inv(cfg, s) && key in s.store.rows
    ensures s.store.rows[key].record.externalId == key
  {
    assert RowOk(s, key);
  }

  // ----- the attempt record --------------------------------------------------------------

  /** Call `id`, holding its row, changes the attempt record of its own nonce and moves on. */
  ghost predicate TouchesAttempt(cfg: Config, s: State, id: nat, s': State) {
    && Claimed(s, id) && Owning(s.calls[id].pc) && UsesAttempts(cfg, s.calls[id])
    && id in s'.calls && s'.calls[id] == s.calls[id].(pc := s'.calls[id].pc)
    && s' == s.(attempts := s'.attempts, calls := s.calls[id := s'.calls[id]])
    && (forall key :: key != AttemptKey(s.calls[id]) ==>
          (key in s.attempts <==> key in s'.attempts)
          && (key in s.attempts ==> s'.attempts[key] == s.attempts[key]))
  }

  lemma {:induction false} AttemptStepKeepsInv(cfg: Config, s: State, id: nat, s': State)
    requires Inv(cfg, s) && TouchesAttempt(cfg, s, id, s')
    requires CallOk(cfg, s', id)
    requires AttemptsOk(cfg, s')
    ensures Inv(cfg, s')
  {
    hide WellFormed;
    hide AttemptsOk;
    hide CallOk;
    hide Local;
    AttemptStepIsLocal(cfg, s, id, s');
    CallsKeep(cfg, s, s', id);
    forall key | key in s'.store.rows ensures RowOk(s', key) {
      assert RowOk(s, key);
    }
  }

  lemma {:induction false} AttemptStepIsLocal(cfg: Config, s: State, id: nat, s': State)
    requires Inv(cfg, s) && TouchesAttempt(cfg, s, id, s')
    ensures Local(s, s', id)
  {
    hide Inv;
    hide AnswerOk;
    CallIsOk(cfg, s, id);
    assert HoldsNonce(s, id, AttemptKey(s.calls[id]).1);
  }

  lemma {:induction false} BegunIsOk(cfg: Config, s: State, id: nat, fault: Fault)
    requires Inv(cfg, s) && Enabled(s, BeginAttempt(id, fault)) && !fault.ThrewBefore?
    ensures CallOk(cfg, StepBeginAttempt(s, id, fault), id)
  {
    hide Inv;
    CallIsOk(cfg, s, id);
  }

  lemma {:induction false} BegunIsBacked(cfg: Config, s: State, id: nat, fault: Fault)
    requires AttemptsOk(cfg, s) && Enabled(s, BeginAttempt(id, fault))
    ensures AttemptsOk(cfg, StepBeginAttempt(s, id, fault))
  {
  }

  lemma {:induction false} BeginAttemptKeepsInv(cfg: Config, s: State, id: nat, fault: Fault)
    requires Inv(cfg, s) && Enabled(s, BeginAttempt(id, fault)) && cfg.attemptStore
    ensures Inv(cfg, StepBeginAttempt(s, id, fault))
  {
    hide Inv;
    hide AttemptsOk;
    CallIsOk(cfg, s, id);
    AttemptsAreOk(cfg, s);
    var s' := StepBeginAttempt(s, id, fault);
    if fault.ThrewBefore? {
      HolderMoveKeepsInv(cfg, s, id, s');
    } else {
      BegunIsOk(cfg, s, id, fault);
      BegunIsBacked(cfg, s, id, fault);
      AttemptStepKeepsInv(cfg, s, id, s');
    }
  }

  lemma {:induction false} ClearAttemptKeepsInv(cfg: Config, s: State, id: nat, fault: Fault)
    requires Inv(cfg, s) && Enabled(s, ClearAttempt(id, fault)) && cfg.attemptStore
    ensures Inv(cfg, StepClearAttempt(cfg, s, id, fault))
  {
    hide WellFormed;
    hide RowOk;
    hide StagedOk;
    assert CallOk(cfg, s, id);
    var s' := StepClearAttempt(cfg, s, id, fault);
    if fault.ThrewBefore? {
      HolderMoveKeepsInv(cfg, s, id, s');
    } else {
      forall w | w in s'.writes ensures (w.externalId, w.nonce) in s'.attempts {
        assert w.nonce in Written(s.writes);
      }
      AttemptStepKeepsInv(cfg, s, id, s');
    }
  }

  lemma {:induction false} ConfirmAttemptKeepsInv(cfg: Config, s: State, id: nat, fault: Fault)
    requires Inv(cfg, s) && Enabled(s, ConfirmAttempt(id, fault)) && cfg.attemptStore
    ensures Inv(cfg, StepConfirmAttempt(s, id, fault))
  {
    hide Inv;
    hide WellFormed;
    hide AttemptsOk;
    CallIsOk(cfg, s, id);
    StoreIsOk(cfg, s);
    var s' := StepConfirmAttempt(s, id, fault);
    ConfirmedIsOk(cfg, s, id, fault);
    ConfirmedIsBacked(cfg, s, id, fault);
    if fault.ThrewBefore? || AttemptKey(s.calls[id]) !in s.attempts {
      QuietStepKeepsInv(cfg, s, s', id);
    } else {
      AttemptStepKeepsInv(cfg, s, id, s');
    }
  }

  lemma {:induction false} ConfirmedIsOk(cfg: Config, s: State, id: nat, fault: Fault)
    requires Inv(cfg, s) && Enabled(s, ConfirmAttempt(id, fault))
    ensures CallOk(cfg, StepConfirmAttempt(s, id, fault), id)
  {
    hide Inv;
    CallIsOk(cfg, s, id);
  }

  /** The record of a commit is backed by the write the call made. */
  lemma {:induction false} ConfirmedIsBacked(cfg: Config, s: State, id: nat, fault: Fault)
    requires Inv(cfg, s) && Enabled(s, ConfirmAttempt(id, fault))
    ensures AttemptsOk(cfg, StepConfirmAttempt(s, id, fault))
  {
    hide WellFormed;
    hide RowOk;
    hide StagedOk;
    hide WritesOk;
    hide AnswerOk;
    assert CallOk(cfg, s, id);
    var w := WriteOf(s.calls[id], s.calls[id].pc.timeLabel);
    assert w in s.writes;
  }

  // ----- the write ---------------------------------------------------------------------------

  lemma {:induction false} WrittenGrows(writes: seq<Write>, w: Write)
    ensures Written(writes + [w]) == Written(writes) + {w.nonce}
  {
    assert w in writes + [w];
    assert forall v :: v in writes ==> v in writes + [w];
    forall n | n in Written(writes) + {w.nonce} ensures n in Written(writes + [w]) {
      if n == w.nonce {
        assert w in writes + [w];
      } else {
        var v :| v in writes && v.nonce == n;
        assert v in writes + [w];
      }
    }
  }

  /** The committing write of a holder: its nonce was never written before. */
  lemma {:induction false} CommitKeepsInv(cfg: Config, s: State, id: nat, timeLabel: string, s': State)
    requires Inv(cfg, s) && Enabled(s, CalendarWrite(id, WriteOk(timeLabel)))
    requires s' == StepWrite(cfg, s, id, WriteOk(timeLabel))
    ensures Inv(cfg, s')
  {
    CommitKeepsCalls(cfg, s, id, timeLabel, s');
    CommitKeepsRows(cfg, s, id, timeLabel, s');
    CommitKeepsStaged(cfg, s, id, timeLabel, s');
    CommitKeepsLog(cfg, s, id, timeLabel, s');
    hide RowOk;
    hide CallOk;
    hide WellFormed;
    hide WritesOk;
    hide AttemptsOk;
    hide StagedOk;
  }

  lemma {:induction false} CommitKeepsStaged(cfg: Config, s: State, id: nat, timeLabel: string, s': State)
    requires Inv(cfg, s) && Enabled(s, CalendarWrite(id, WriteOk(timeLabel)))
    requires s' == StepWrite(cfg, s, id, WriteOk(timeLabel))
    ensures StagedOk(s')
  {
    assert CallOk(cfg, s, id);
    WrittenGrows(s.writes, WriteOf(s.calls[id], timeLabel));
  }

  lemma {:induction false} CommitKeepsCalls(cfg: Config, s: State, id: nat, timeLabel: string, s': State)
    requires Inv(cfg, s) && Enabled(s, CalendarWrite(id, WriteOk(timeLabel)))
    requires s' == StepWrite(cfg, s, id, WriteOk(timeLabel))
    ensures forall i :: i in s'.calls ==> CallOk(cfg, s', i)
  {
    hide Inv;
    hide CallOk;
    hide Local;
    hide UsesAttempts;
    CommitterIsOk(cfg, s, id, timeLabel, s');
    CommitIsLocal(cfg, s, id, timeLabel, s');
    CallsKeep(cfg, s, s', id);
  }

  lemma {:induction false} CommitIsLocal(cfg: Config, s: State, id: nat, timeLabel: string, s': State)
    requires Inv(cfg, s) && Enabled(s, CalendarWrite(id, WriteOk(timeLabel)))
    requires s' == StepWrite(cfg, s, id, WriteOk(timeLabel))
    ensures Local(s, s', id)
  {
    hide Inv;
    hide AnswerOk;
    hide UsesAttempts;
    CallIsOk(cfg, s, id);
    var w := WriteOf(s.calls[id], timeLabel);
    WrittenGrows(s.writes, w);
    assert HoldsNonce(s, id, w.nonce);
  }

  lemma {:induction false} CommitterIsOk(cfg: Config, s: State, id: nat, timeLabel: string, s': State)
    requires Inv(cfg, s) && Enabled(s, CalendarWrite(id, WriteOk(timeLabel)))
    requires s' == StepWrite(cfg, s, id, WriteOk(timeLabel))
    ensures CallOk(cfg, s', id)
  {
    hide WellFormed;
    hide AttemptsOk;
    hide WritesOk;
    hide StagedOk;
    hide RowOk;
    assert CallOk(cfg, s, id);
    var w := WriteOf(s.calls[id], timeLabel);
    WrittenGrows(s.writes, w);
    assert s'.writes[|s.writes|] == w;
  }

  lemma {:induction false} CommitKeepsRows(cfg: Config, s: State, id: nat, timeLabel: string, s': State)
    requires Inv(cfg, s) && Enabled(s, CalendarWrite(id, WriteOk(timeLabel)))
    requires s' == StepWrite(cfg, s, id, WriteOk(timeLabel))
    ensures forall key :: key in s'.store.rows ==> RowOk(s', key)
  {
    assert CallOk(cfg, s, id);
    var w := WriteOf(s.calls[id], timeLabel);
    WrittenGrows(s.writes, w);
    forall key | key in s'.store.rows ensures RowOk(s', key) {
      assert RowOk(s, key);
      assert Granted(s, s.calls[id].claim.value.record);
    }
  }

  lemma {:induction false} CommitKeepsLog(cfg: Config, s: State, id: nat, timeLabel: string, s': State)
    requires Inv(cfg, s) && Enabled(s, CalendarWrite(id, WriteOk(timeLabel)))
    requires s' == StepWrite(cfg, s, id, WriteOk(timeLabel))
    ensures WritesOk(s') && AttemptsOk(cfg, s')
  {
    assert CallOk(cfg, s, id);
    var w := WriteOf(s.calls[id], timeLabel);
    forall i | 0 <= i < |s.writes| ensures s.writes[i].nonce != w.nonce {
      assert s.writes[i] in s.writes;
    }
    forall v | v in s'.writes
      ensures v in s.writes || v == w
    {
    }
    forall key | key in s'.attempts && s'.attempts[key].Committed?
      ensures CommittedAs(s', key.0, key.1, s'.attempts[key].timeLabel)
    {
      var v :| v in s.writes && v.externalId == key.0 && v.nonce == key.1
        && v.timeLabel == s.attempts[key].timeLabel;
      assert v in s'.writes;
    }
  }

  lemma {:induction false} WriteKeepsInv(cfg: Config, s: State, id: nat, write: WriteResult)
    requires Inv(cfg, s) && Enabled(s, CalendarWrite(id, write))
    ensures Inv(cfg, StepWrite(cfg, s, id, write))
  {
    var s' := StepWrite(cfg, s, id, write);
    match write
    case WriteThrew(scope) => HolderMoveKeepsInv(cfg, s, id, s');
    case WriteOk(timeLabel) => CommitKeepsInv(cfg, s, id, timeLabel, s');
  }

  // ----- letting go of the row ------------------------------------------------------------------

  /** Call `id` gives up the row it holds: deleted, or back to pending when nothing was written. */
  ghost predicate LetsGo(s: State, id: nat, at: int, s': State) {
    && Claimed(s, id) && Owning(s.calls[id].pc)
    && id in s'.calls && s'.calls[id] == s.calls[id].(pc := s'.calls[id].pc)
    && !Owning(s'.calls[id].pc) && !BeforeClaim(s'.calls[id].pc)
    && s' == s.(store := s'.store, calls := s.calls[id := s'.calls[id]])
    && WellFormed(s'.store)
    && var key := s.calls[id].args.externalId;
       key in s.store.rows
       && (s'.store.rows == s.store.rows - {key}
           || (BeforeWrite(s.calls[id].pc)
               && s'.store.rows == s.store.rows[key := Row(s.store.rows[key].record.(expiresAt := at), false)]))
  }

  lemma {:induction false} LetGoKeepsRows(cfg: Config, s: State, id: nat, at: int, s': State)
    requires Inv(cfg, s) && LetsGo(s, id, at, s')
    ensures forall key :: key in s'.store.rows ==> RowOk(s', key)
  {
    hide WellFormed;
    hide AttemptsOk;
    assert CallOk(cfg, s, id);
    forall key | key in s'.store.rows ensures RowOk(s', key) {
      assert RowOk(s, key);
    }
  }

  lemma {:induction false} LetGoKeepsCalls(cfg: Config, s: State, id: nat, at: int, s': State)
    requires Inv(cfg, s) && LetsGo(s, id, at, s')
    requires AnswerOk(s', s'.calls[id])
    ensures forall i :: i in s'.calls ==> CallOk(cfg, s', i)
  {
    hide Inv;
    hide WellFormed;
    CallIsOk(cfg, s, id);
    assert Local(s, s', id);
    assert CallOk(cfg, s', id);
    hide CallOk;
    hide Local;
    CallsKeep(cfg, s, s', id);
  }

  lemma {:induction false} LetGoKeepsInv(cfg: Config, s: State, id: nat, at: int, s': State)
    requires Inv(cfg, s) && LetsGo(s, id, at, s')
    requires AnswerOk(s', s'.calls[id])
    ensures Inv(cfg, s')
  {
    LetGoKeepsRows(cfg, s, id, at, s');
    LetGoKeepsCalls(cfg, s, id, at, s');
    hide RowOk;
    hide CallOk;
    hide WellFormed;
  }

  /** The end of a committed call: the row is deleted, or left claimed when the clean-up failed. */
  lemma {:induction false} FinishKeepsInv(cfg: Config, s: State, id: nat, store: Store, answer: Answer)
    requires Inv(cfg, s) && Claimed(s, id) && s.calls[id].pc.CleaningUp?
    requires answer.UnknownOutcome? || answer == Confirmed(s.calls[id].pc.timeLabel, false)
    requires WellFormed(store)
    requires store.rows == s.store.rows || store.rows == s.store.rows - {s.calls[id].args.externalId}
    ensures Inv(cfg, Goto(s.(store := store), id, Returned(answer)))
  {
    var c := s.calls[id];
    var s' := Goto(s.(store := store), id, Returned(answer));
    assert CallOk(cfg, s, id);
    assert AnswerOk(s', s'.calls[id]) by {
      assert WriteOf(c, c.pc.timeLabel) in s'.writes;
    }
    if store.rows == s.store.rows {
      QuietStepKeepsInv(cfg, s, s', id);
    } else {
      LetGoKeepsInv(cfg, s, id, 0, s');
    }
  }

  lemma {:induction false} CleanupKeepsInv(cfg: Config, s: State, id: nat, fault: Fault, sync: bool)
    requires Inv(cfg, s) && Enabled(s, Cleanup(id, fault, sync))
    ensures Inv(cfg, StepCleanup(s, id, fault, sync))
  {
    hide Inv;
    hide WellFormed;
    StoreIsOk(cfg, s);
    var c := s.calls[id];
    var s' := StepCleanup(s, id, fault, sync);
    LeaseOperationsAreFenced(s.store, c.args.externalId, c.claim.value.lease, 0);
    FinishKeepsInv(cfg, s, id, s'.store, s'.calls[id].pc.answer);
  }

  /** The end of a call that did not write: the row is given up, or left claimed when that failed. */
  lemma {:induction false} GiveUpKeepsInv(cfg: Config, s: State, id: nat, at: int, s': State)
    requires Inv(cfg, s) && Claimed(s, id) && s.calls[id].pc.Releasing?
    requires id in s'.calls && (s'.calls[id].pc.Threw? || s'.calls[id].pc.Returned?)
    requires s'.calls[id].pc.Returned? ==> !s'.calls[id].pc.answer.Confirmed?
    requires s' == Goto(s.(store := s'.store), id, s'.calls[id].pc)
    requires s'.store == s.store || LetsGo(s, id, at, s')
    ensures Inv(cfg, s')
  {
    assert CallOk(cfg, s, id);
    if s'.store == s.store {
      QuietStepKeepsInv(cfg, s, s', id);
    } else {
      LetGoKeepsInv(cfg, s, id, at, s');
    }
  }

  lemma {:induction false} ReleaseLetsGo(s: State, id: nat, now: int, fault: Fault)
    requires Enabled(s, ReleaseRow(id, now, fault)) && !fault.ThrewBefore?
    requires WellFormed(s.store)
    requires HeldBy(s.store, s.calls[id].args.externalId, s.calls[id].claim.value.lease)
    ensures LetsGo(s, id, now + PENDING_TTL_MS, StepRelease(s, id, now, fault))
  {
    hide WellFormed;
    hide RevertToPending;
    hide CancelClaimed;
    var c := s.calls[id];
    LeaseOperationsAreFenced(s.store, c.args.externalId, c.claim.value.lease, now);
    var s' := StepRelease(s, id, now, fault);
    if c.pc.cancel {
      assert s'.store == CancelClaimed(s.store, c.args.externalId, c.claim.value.lease);
    } else {
      assert s'.store == RevertToPending(s.store, c.args.externalId, c.claim.value.lease, now);
    }
    assert s'.calls == s.calls[id := c.(pc := Then(fault, Returned(c.pc.answer)))];
  }

  lemma {:induction false} HolderHolds(cfg: Config, s: State, id: nat)
    requires Inv(cfg, s) && Claimed(s, id) && Owning(s.calls[id].pc)
    ensures HeldBy(s.store, s.calls[id].args.externalId, s.calls[id].claim.value.lease)
  {
    assert CallOk(cfg, s, id);
  }

  lemma {:induction false} ReleaseKeepsInv(cfg: Config, s: State, id: nat, now: int, fault: Fault)
    requires Inv(cfg, s) && Enabled(s, ReleaseRow(id, now, fault))
    requires !s.calls[id].pc.answer.Confirmed?
    ensures Inv(cfg, StepRelease(s, id, now, fault))
  {
    if !fault.ThrewBefore? {
      HolderHolds(cfg, s, id);
      ReleaseLetsGo(s, id, now, fault);
    }
    GiveUpKeepsInv(cfg, s, id, now + PENDING_TTL_MS, StepRelease(s, id, now, fault));
  }

  // ----- staging and cancelling -------------------------------------------------------------------

  lemma {:induction false} StageVerifiedKeepsInv(cfg: Config, s: State, p: Pending, entries: seq<Entry>)
    requires Inv(cfg, s) && StageAccepts(s, p, entries)
    ensures Inv(cfg, StepStageVerified(s, p, entries))
  {
    var s' := StepStageVerified(s, p, entries);
    forall i | i in s'.calls ensures CallOk(cfg, s', i) {
      assert CallOk(cfg, s, i);
    }
    forall key | key in s'.store.rows ensures RowOk(s', key) {
      assert RowOk(s, key);
    }
    forall n | n in s'.staged ensures s'.staged[n].nonce == Some(n) && Granted(s', s'.staged[n]) && n !in Written(s'.writes) {
    }
  }

  /** The staged record is saved, or thrown away, and other unclaimed rows may have been pruned. */
  ghost predicate Saves(s: State, s': State, nonce: string)
    requires nonce in s.staged
  {
    && s' == s.(staged := s.staged - {nonce}, store := s'.store) && WellFormed(s'.store)
    && (forall k :: k in s.store.rows && s.store.rows[k].claimed ==>
          k in s'.store.rows && s'.store.rows[k] == s.store.rows[k])
    && (forall k :: k in s'.store.rows ==>
          || (k in s.store.rows && s'.store.rows[k] == s.store.rows[k])
          || (k == s.staged[nonce].externalId && s'.store.rows[k] == Row(s.staged[nonce], false)))
  }

  lemma {:induction false} StageSaveSaves(s: State, nonce: string, now: int, fault: Fault)
    requires WellFormed(s.store) && nonce in s.staged
    ensures Saves(s, StepStageSave(s, nonce, now, fault), nonce)
  {
    hide WellFormed;
    hide Save;
    SaveIsFenced(s.store, s.staged[nonce], now);
  }

  lemma {:induction false} SavedRowsAreOk(cfg: Config, s: State, s': State, nonce: string, key: string)
    requires Inv(cfg, s) && nonce in s.staged && Saves(s, s', nonce) && key in s'.store.rows
    ensures RowOk(s', key)
  {
    hide CallOk;
    hide WellFormed;
    if key in s.store.rows {
      assert RowOk(s, key);
    }
  }

  lemma {:induction false} SavedCallsAreOk(cfg: Config, s: State, s': State, nonce: string, id: nat)
    requires nonce in s.staged && Saves(s, s', nonce) && id in s.calls && CallOk(cfg, s, id)
    ensures CallOk(cfg, s', id)
  {
    hide WellFormed;
  }

  lemma {:induction false} StageSaveKeepsInv(cfg: Config, s: State, nonce: string, now: int, fault: Fault)
    requires Inv(cfg, s) && nonce in s.staged
    ensures Inv(cfg, StepStageSave(s, nonce, now, fault))
  {
    hide StepStageSave;
    hide RowOk;
    hide CallOk;
    var s' := StepStageSave(s, nonce, now, fault);
    StageSaveSaves(s, nonce, now, fault);
    hide WellFormed;
    forall i | i in s'.calls ensures CallOk(cfg, s', i) {
      SavedCallsAreOk(cfg, s, s', nonce, i);
    }
    forall key | key in s'.store.rows ensures RowOk(s', key) {
      SavedRowsAreOk(cfg, s, s', nonce, key);
    }
  }

  // ----- crashes and recovery -----------------------------------------------------------------------

  lemma {:induction false} CrashKeepsInv(cfg: Config, s: State, id: nat)
    requires Inv(cfg, s) && id in s.calls
    ensures Inv(cfg, Goto(s, id, Threw))
  {
    assert CallOk(cfg, s, id);
    QuietStepKeepsInv(cfg, s, Goto(s, id, Threw), id);
  }

  /** Taking a row away from a call that is over leaves every call as it was. */
  lemma {:induction false} AbandonedRowIsNobodys(cfg: Config, s: State, key: string, s': State)
    requires Inv(cfg, s) && key in s.store.rows && s.store.rows[key].claimed
    requires s' == s.(store := s'.store, recoveries := s'.recoveries)
    requires forall k :: k != key && k in s.store.rows ==> k in s'.store.rows && s'.store.rows[k] == s.store.rows[k]
    requires s.store.rows[key].record.leaseToken.Some?
    requires s.store.rows[key].record.leaseToken.value in s.leases
    requires s.leases[s.store.rows[key].record.leaseToken.value] in s.calls
    requires Ended(s.calls[s.leases[s.store.rows[key].record.leaseToken.value]].pc)
    ensures forall i :: i in s'.calls ==> CallOk(cfg, s', i)
  {
    assert RowOk(s, key);
    forall i | i in s'.calls ensures CallOk(cfg, s', i) {
      assert CallOk(cfg, s, i);
    }
  }

  /**
   * What a recovery may count on: if its row is still claimed under the lease it
   * was listed under, the record is the listed one; and once the look-up has been
   * made the call that claimed it is over and, if no attempt was known, nothing
   * was written under its nonce.
   */
  ghost predicate RecoveryOk(s: State, r: Recovery) {
    && r.lease in s.leases
    && (r.key in s.store.rows && s.store.rows[r.key].claimed
        && s.store.rows[r.key].record.leaseToken == Some(r.lease) ==>
          && s.store.rows[r.key].record.nonce == r.nonce
          && (r.known.Some? ==> LeaseIsOver(s, r.lease))
          && (r.known == Some(false) ==> r.nonce.Some? && r.nonce.value !in Written(s.writes)))
  }

  ghost predicate RecoveriesOk(s: State) {
    forall rid :: rid in s.recoveries ==> RecoveryOk(s, s.recoveries[rid])
  }

  /** A row taken out, or put back to pending when nothing was written under its nonce. */
  lemma {:induction false} RearmedRowsAreOk(s: State, s': State, key: string, at: int)
    requires forall k :: k in s.store.rows ==> RowOk(s, k)
    requires s' == s.(store := s'.store, recoveries := s'.recoveries) && key in s.store.rows
    requires
      || s'.store.rows == s.store.rows - {key}
      || (var p := s.store.rows[key].record;
          && p.nonce.Some? && p.nonce.value !in Written(s.writes)
          && s'.store.rows == s.store.rows[key := Row(p.(leaseToken := None, expiresAt := at), false)])
    ensures forall k :: k in s'.store.rows ==> RowOk(s', k)
  {
    forall k | k in s'.store.rows ensures RowOk(s', k) {
      assert RowOk(s, k);
    }
  }

  lemma {:induction false} ApplyKeepsInv(cfg: Config, s: State, rid: nat, now: int)
    requires Inv(cfg, s) && RecoveriesOk(s)
    requires Enabled(s, RecoverApply(rid, now)) && Meets(cfg, s, RecoverApply(rid, now), LeaseUnchanged)
    ensures Inv(cfg, StepRecoverApply(s, rid, now))
  {
    hide CallOk;
    hide RowOk;
    hide WellFormed;
    hide AttemptsOk;
    hide WritesOk;
    hide StagedOk;
    var s' := StepRecoverApply(s, rid, now);
    var r := s.recoveries[rid];
    if r.key in s.store.rows && s.store.rows[r.key].claimed {
      var p := s.store.rows[r.key].record;
      RemoveKeepsWellFormed(s.store, r.key);
      PutKeepsWellFormed(s.store, r.key, Row(p.(leaseToken := None, expiresAt := now + PENDING_TTL_MS), false));
      RearmedRowsAreOk(s, s', r.key, now + PENDING_TTL_MS);
      AbandonedRowIsNobodys(cfg, s, r.key, s');
      OwnListsStay(cfg, s, s');
    } else {
      UntouchedKeepsInv(cfg, s, s');
    }
  }

  /** What the invariant says of the staged requests, the writes and the attempts does not depend on the rows. */
  lemma {:induction false} OwnListsStay(cfg: Config, s: State, s': State)
    requires StagedOk(s) && WritesOk(s) && AttemptsOk(cfg, s)
    requires s' == s.(store := s'.store, recoveries := s'.recoveries)
    ensures StagedOk(s') && WritesOk(s') && AttemptsOk(cfg, s')
  {
  }

  /** The invariant does not speak of the recoveries. */
  lemma {:induction false} UntouchedKeepsInv(cfg: Config, s: State, s': State)
    requires Inv(cfg, s) && s' == s.(recoveries := s'.recoveries)
    ensures Inv(cfg, s')
  {
    forall i | i in s'.calls ensures CallOk(cfg, s', i) {
      assert CallOk(cfg, s, i);
    }
    forall key | key in s'.store.rows ensures RowOk(s', key) {
      assert RowOk(s, key);
    }
  }
}
