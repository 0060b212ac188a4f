/**
 * Why recovery has to be disciplined. A stored request can always be confirmed,
 * so re-arming a row whose nonce was written means writing it again; and each of
 * the five conditions recovery is held to is needed: keeping the other four, the
 * calendar can be written twice under one nonce. The runs here are for every
 * wiring and for every request a `stage` call accepts, tapped with its own token.
 */
module RescheduleRecovery {
  import opened Prelude
  import opened RescheduleStore
  import opened RescheduleProtocol

  // ----- runs that keep all conditions but one -----------------------------------------------

  predicate MeetsBut(cfg: Config, s: State, step: Step, but: Option<Condition>, condition: Condition)
    requires Enabled(s, step)
  {
    but == Some(condition) || Meets(cfg, s, step, condition)
  }

  predicate DisciplinedBut(cfg: Config, s: State, step: Step, but: Option<Condition>) {
    Enabled(s, step) ==>
      && MeetsBut(cfg, s, step, but, StoreWired) && MeetsBut(cfg, s, step, but, LookUpAnswered)
      && MeetsBut(cfg, s, step, but, AsksRowsId) && MeetsBut(cfg, s, step, but, HolderIsOver)
      && MeetsBut(cfg, s, step, but, LeaseUnchanged)
  }

  /** The run leads to `s` and keeps every condition, but for the excepted one. */
  ghost predicate Leads(cfg: Config, but: Option<Condition>, run: seq<Step>, s: State) {
    && Exec(cfg, run) == Some(s)
    && forall i {:trigger run[i]} :: 0 <= i < |run| && Exec(cfg, run[..i]).Some? ==>
         DisciplinedBut(cfg, Exec(cfg, run[..i]).value, run[i], but)
  }

  /** A run that keeps every condition leads to a reachable state. */
  lemma {:induction false} KeptRunIsReachable(cfg: Config, run: seq<Step>, s: State)
    requires Leads(cfg, None, run, s)
    ensures Reachable(cfg, s)
  {
    hide Exec;
    hide Meets;
    hide Enabled;
    assert DisciplinedRun(cfg, run);
  }

  /** Extends a run by one possible step. */
  lemma {:induction false} Do(cfg: Config, but: Option<Condition>, run: seq<Step>, s: State, step: Step)
    returns (run': seq<Step>)
    requires Leads(cfg, but, run, s) && Enabled(s, step) && DisciplinedBut(cfg, s, step, but)
    ensures Leads(cfg, but, run', Apply(cfg, s, step))
  {
    hide Enabled;
    hide Apply;
    hide DisciplinedBut;
    run' := run + [step];
    assert run'[..|run|] == run;
    forall i | 0 <= i < |run'| && Exec(cfg, run'[..i]).Some?
      ensures DisciplinedBut(cfg, Exec(cfg, run'[..i]).value, run'[i], but)
    {
      if i < |run| {
        assert run'[..i] == run[..i] && run'[i] == run[i];
      }
    }
  }

  predicate OfCron(step: Step) {
    step.RecoverLookUp? || step.RecoverApply?
  }

  /** Steps other than the cron's are held to nothing. */
  lemma {:induction false} Go(cfg: Config, but: Option<Condition>, run: seq<Step>, s: State, step: Step)
    returns (run': seq<Step>)
    requires Leads(cfg, but, run, s) && Enabled(s, step) && !OfCron(step)
    ensures Leads(cfg, but, run', Apply(cfg, s, step))
  {
    hide Leads;
    hide Enabled;
    hide Apply;
    run' := Do(cfg, but, run, s, step);
  }

  // ----- a learner taps a request --------------------------------------------------------------

  /** The request carries what a store that asks for tokens needs. */
  predicate Tappable(p: Pending) {
    && RecordComplete(p) && IsApprovalToken(p.nonce.value)
    && Given(p.platform) && Given(p.mappingVersion)
  }

  /** The learner's own tap: the token of the request, under the mapping it was staged for. */
  function Tap(p: Pending): Args {
    Args(p.externalId, Some(p.userId), p.nonce, Binding(p.platform, p.mappingVersion, None, None, None))
  }

  /** The request is stored and nobody has claimed it. */
  predicate Confirmable(s: State, p: Pending) {
    Tappable(p) && p.externalId in s.store.rows && s.store.rows[p.externalId] == Row(p, false)
  }

  lemma {:induction false} TapIsAccepted(cfg: Config, p: Pending)
    requires Tappable(p)
    ensures RequestAccepted(cfg, Tap(p))
  {
  }

  lemma {:induction false} PendingIsSeen(s: State, p: Pending)
    requires Confirmable(s, p)
    ensures GetPendingState(s.store, p.externalId, p.expiresAt - 1) == (s.store, StatePending)
  {
  }

  function Held(p: Pending, lease: string): Pending {
    p.(leaseToken := Some(lease))
  }

  lemma {:induction false} PendingIsTaken(s: State, p: Pending, lease: string)
    requires Confirmable(s, p)
    ensures var a := Tap(p);
      var (store, got) := TakeValid(s.store, a.externalId, a.userId, BindingOf(a), p.expiresAt - 1, lease);
      got == Some(Held(p, lease)) && store.rows == s.store.rows[p.externalId := Row(Held(p, lease), true)]
  {
  }

  lemma {:induction false} OpenCall(cfg: Config, but: Option<Condition>, run: seq<Step>, s: State, p: Pending, id: nat)
    returns (run': seq<Step>, s': State)
    requires Leads(cfg, but, run, s) && Confirmable(s, p) && id !in s.calls
    ensures Leads(cfg, but, run', s')
    ensures s' == s.(calls := s.calls[id := Call(Tap(p), CheckingState, None, 0, false)])
  {
    TapIsAccepted(cfg, p);
    hide Leads;
    hide RequestAccepted;
    hide Confirmable;
    run' := Go(cfg, but, run, s, BeginConfirm(id, Tap(p)));
    s' := Apply(cfg, s, BeginConfirm(id, Tap(p)));
  }

  lemma {:induction false} CheckState(cfg: Config, but: Option<Condition>, run: seq<Step>, s: State, p: Pending, id: nat)
    returns (run': seq<Step>, s': State)
    requires Leads(cfg, but, run, s) && Confirmable(s, p)
    requires id in s.calls && s.calls[id] == Call(Tap(p), CheckingState, None, 0, false)
    ensures Leads(cfg, but, run', s')
    ensures s' == s.(calls := s.calls[id := Call(Tap(p), Taking, None, 0, false)])
  {
    PendingIsSeen(s, p);
    hide Leads;
    hide GetPendingState;
    hide Confirmable;
    run' := Go(cfg, but, run, s, ReadState(id, p.expiresAt - 1, Fine));
    s' := StepReadState(cfg, s, id, p.expiresAt - 1, Fine);
  }

  function Units(cfg: Config): int {
    if cfg.consumeHook then 1 else 0
  }

  /** Where a tap stands once it has claimed its row. */
  function PoisedAt(cfg: Config): Pc {
    if cfg.attemptStore then LookingUp else Writing
  }

  /** Call `id` holds the request and is about to look its attempt up, or to write. */
  predicate Poised(cfg: Config, s: State, id: nat, p: Pending, lease: string) {
    && id in s.calls && Tappable(p)
    && s.calls[id] == Call(Tap(p), PoisedAt(cfg), Some(Claim(Held(p, lease), lease)), Units(cfg), false)
  }

  /** From `s` to `s'` nothing happened but that call `id` claimed the request. */
  ghost predicate ClaimedSince(s: State, s': State, p: Pending, id: nat, lease: string) {
    && s'.store.rows == s.store.rows[p.externalId := Row(Held(p, lease), true)]
    && id in s'.calls && s'.calls == s.calls[id := s'.calls[id]] && s'.leases == s.leases[lease := id]
    && s'.attempts == s.attempts && s'.writes == s.writes && s'.recoveries == s.recoveries
  }

  lemma {:induction false} TakeIt(
      cfg: Config, but: Option<Condition>, run: seq<Step>, s: State, p: Pending, id: nat, lease: string)
    returns (run': seq<Step>, s': State)
    requires Leads(cfg, but, run, s) && Confirmable(s, p) && lease !in s.leases
    requires id in s.calls && s.calls[id] == Call(Tap(p), Taking, None, 0, false)
    ensures Leads(cfg, but, run', s') && ClaimedSince(s, s', p, id, lease)
    ensures s'.calls[id] == Call(Tap(p), if cfg.consumeHook then Charging else PoisedAt(cfg),
                                 Some(Claim(Held(p, lease), lease)), 0, false)
  {
    PendingIsTaken(s, p, lease);
    hide Leads;
    hide TakeValid;
    hide BindingOf;
    run' := Go(cfg, but, run, s, TakeRow(id, p.expiresAt - 1, lease, Fine));
    s' := StepTake(cfg, s, id, p.expiresAt - 1, lease, Fine);
  }

  lemma {:induction false} PayForIt(
      cfg: Config, but: Option<Condition>, run: seq<Step>, s: State, p: Pending, id: nat, lease: string)
    returns (run': seq<Step>, s': State)
    requires Leads(cfg, but, run, s) && Tappable(p) && cfg.consumeHook
    requires id in s.calls && s.calls[id] == Call(Tap(p), Charging, Some(Claim(Held(p, lease), lease)), 0, false)
    ensures Leads(cfg, but, run', s') && Poised(cfg, s', id, p, lease)
    ensures s' == s.(charges := s'.charges, calls := s.calls[id := s'.calls[id]])
  {
    hide Leads;
    run' := Go(cfg, but, run, s, ConsumeBudget(id, Accepted));
    s' := StepConsume(cfg, s, id, Accepted);
  }

  /** A tap claims its request, and pays if there is a budget. */
  lemma {:induction false} ClaimRow(
      cfg: Config, but: Option<Condition>, run: seq<Step>, s: State, p: Pending, id: nat, lease: string)
    returns (run': seq<Step>, s': State)
    requires Leads(cfg, but, run, s) && Confirmable(s, p) && id !in s.calls && lease !in s.leases
    ensures Leads(cfg, but, run', s') && ClaimedSince(s, s', p, id, lease) && Poised(cfg, s', id, p, lease)
  {
    hide Leads;
    hide Tappable;
    var run1, s1 := OpenCall(cfg, but, run, s, p, id);
    var run2, s2 := CheckState(cfg, but, run1, s1, p, id);
    run', s' := TakeIt(cfg, but, run2, s2, p, id, lease);
    if cfg.consumeHook {
      run', s' := PayForIt(cfg, but, run', s', p, id, lease);
    }
  }

  // ----- and the calendar is written ------------------------------------------------------------

  function KeyOf(p: Pending): (string, string)
    requires p.nonce.Some?
  {
    (p.externalId, p.nonce.value)
  }

  /** No attempt under the request's nonce is in doubt. */
  predicate NotInDoubt(s: State, p: Pending)
    requires p.nonce.Some?
  {
    KeyOf(p) in s.attempts ==> s.attempts[KeyOf(p)].Committed?
  }

  /** A call that holds the request, at the await `pc`. */
  predicate HoldsAt(cfg: Config, s: State, id: nat, p: Pending, lease: string, pc: Pc) {
    && id in s.calls && Tappable(p)
    && s.calls[id] == Call(Tap(p), pc, Some(Claim(Held(p, lease), lease)), Units(cfg), false)
  }

  lemma {:induction false} LookUpNothing(
      cfg: Config, but: Option<Condition>, run: seq<Step>, s: State, id: nat, p: Pending, lease: string)
    returns (run': seq<Step>, s': State)
    requires Leads(cfg, but, run, s) && HoldsAt(cfg, s, id, p, lease, LookingUp) && NotInDoubt(s, p)
    ensures Leads(cfg, but, run', s') && s' == Goto(s, id, Beginning)
  {
    hide Leads;
    run' := Go(cfg, but, run, s, FindAttempt(id, Fine));
    s' := StepFindAttempt(s, id, Fine);
  }

  lemma {:induction false} RecordAttempt(
      cfg: Config, but: Option<Condition>, run: seq<Step>, s: State, id: nat, p: Pending, lease: string)
    returns (run': seq<Step>, s': State)
    requires Leads(cfg, but, run, s) && HoldsAt(cfg, s, id, p, lease, Beginning)
    ensures Leads(cfg, but, run', s')
    ensures s' == Goto(s, id, Writing).(attempts := s.attempts[KeyOf(p) := Attempting])
  {
    hide Leads;
    run' := Go(cfg, but, run, s, BeginAttempt(id, Fine));
    s' := StepBeginAttempt(s, id, Fine);
  }

  function WriteFor(p: Pending, timeLabel: string): Write
    requires p.nonce.Some?
  {
    Write(p.nonce.value, p.externalId, p.userId, p.calendarId, p.target, timeLabel)
  }

  function AfterCommit(cfg: Config, timeLabel: string): Pc {
    if cfg.attemptStore then Recording(timeLabel) else CleaningUp(timeLabel)
  }

  lemma {:induction false} WriteNow(
      cfg: Config, but: Option<Condition>, run: seq<Step>, s: State, id: nat, p: Pending, lease: string, t: string)
    returns (run': seq<Step>, s': State)
    requires Leads(cfg, but, run, s) && HoldsAt(cfg, s, id, p, lease, Writing)
    ensures Leads(cfg, but, run', s')
    ensures s' == s.(writes := s.writes + [WriteFor(p, t)],
                     calls := s.calls[id := s.calls[id].(pc := AfterCommit(cfg, t), wrote := true)])
  {
    hide Leads;
    run' := Go(cfg, but, run, s, CalendarWrite(id, WriteOk(t)));
    s' := StepWrite(cfg, s, id, WriteOk(t));
  }

  /** From a held request the write goes through, unless an attempt is in doubt. */
  lemma {:induction false} WriteHeld(
      cfg: Config, but: Option<Condition>, run: seq<Step>, s: State, id: nat, p: Pending, lease: string, t: string)
    returns (run': seq<Step>, s': State)
    requires Leads(cfg, but, run, s) && Poised(cfg, s, id, p, lease) && NotInDoubt(s, p)
    ensures Leads(cfg, but, run', s')
    ensures s' == s.(
      writes := s.writes + [WriteFor(p, t)],
      attempts := if cfg.attemptStore then s.attempts[KeyOf(p) := Attempting] else s.attempts,
      calls := s.calls[id := s.calls[id].(pc := AfterCommit(cfg, t), wrote := true)])
  {
    hide Leads;
    hide Tappable;
    var run1, s1 := run, s;
    if cfg.attemptStore {
      run1, s1 := LookUpNothing(cfg, but, run, s, id, p, lease);
      run1, s1 := RecordAttempt(cfg, but, run1, s1, id, p, lease);
    }
    run', s' := WriteNow(cfg, but, run1, s1, id, p, lease, t);
  }

  /** The commit is recorded; only the clean-up fails, and the row stays claimed by a call that is over. */
  lemma {:induction false} RecordCommit(
      cfg: Config, but: Option<Condition>, run: seq<Step>, s: State, id: nat, p: Pending, lease: string, t: string)
    returns (run': seq<Step>, s': State)
    requires Leads(cfg, but, run, s) && cfg.attemptStore && id in s.calls && Tappable(p)
    requires s.calls[id] == Call(Tap(p), Recording(t), Some(Claim(Held(p, lease), lease)), Units(cfg), true)
    requires KeyOf(p) in s.attempts
    ensures Leads(cfg, but, run', s')
    ensures s' == Goto(s, id, CleaningUp(t)).(attempts := s.attempts[KeyOf(p) := Committed(t)])
  {
    hide Leads;
    run' := Go(cfg, but, run, s, ConfirmAttempt(id, Fine));
    s' := StepConfirmAttempt(s, id, Fine);
  }

  lemma {:induction false} FailToCleanUp(
      cfg: Config, but: Option<Condition>, run: seq<Step>, s: State, id: nat, p: Pending, lease: string, t: string)
    returns (run': seq<Step>, s': State)
    requires Leads(cfg, but, run, s) && id in s.calls
    requires s.calls[id] == Call(Tap(p), CleaningUp(t), Some(Claim(Held(p, lease), lease)), Units(cfg), true)
    ensures Leads(cfg, but, run', s')
    ensures s' == Goto(s, id, Returned(Confirmed(t, false)))
  {
    hide Leads;
    hide CancelClaimed;
    run' := Go(cfg, but, run, s, Cleanup(id, ThrewBefore, false));
    s' := StepCleanup(s, id, ThrewBefore, false);
  }

  /** The request was written, the call is over, and the row is still claimed under its lease. */
  ghost predicate WrittenAndLeft(cfg: Config, s: State, s': State, id: nat, p: Pending, lease: string, t: string)
    requires p.nonce.Some?
  {
    && s'.store == s.store && s'.leases == s.leases && s'.recoveries == s.recoveries
    && s'.writes == s.writes + [WriteFor(p, t)]
    && s'.attempts == (if cfg.attemptStore then s.attempts[KeyOf(p) := Committed(t)] else s.attempts)
    && id in s'.calls && s'.calls == s.calls[id := s'.calls[id]] && Ended(s'.calls[id].pc)
  }

  lemma {:induction false} WriteAndLeave(
      cfg: Config, but: Option<Condition>, run: seq<Step>, s: State, id: nat, p: Pending, lease: string, t: string)
    returns (run': seq<Step>, s': State)
    requires Leads(cfg, but, run, s) && Poised(cfg, s, id, p, lease) && NotInDoubt(s, p)
    ensures Leads(cfg, but, run', s') && WrittenAndLeft(cfg, s, s', id, p, lease, t)
  {
    hide Leads;
    hide Tappable;
    var run1, s1 := WriteHeld(cfg, but, run, s, id, p, lease, t);
    if cfg.attemptStore {
      run1, s1 := RecordCommit(cfg, but, run1, s1, id, p, lease, t);
    }
    run', s' := FailToCleanUp(cfg, but, run1, s1, id, p, lease, t);
  }

  // ----- staging ---------------------------------------------------------------------------------

  /** Just after one request was staged: it is stored, and nothing else has happened. */
  predicate JustStaged(s: State, p: Pending) {
    && s.store.rows == map[p.externalId := Row(p, false)]
    && s.calls == map[] && s.leases == map[] && s.writes == [] && s.attempts == map[] && s.recoveries == map[]
  }

  lemma {:induction false} Verify(cfg: Config, but: Option<Condition>, p: Pending, entries: seq<Entry>)
    returns (run: seq<Step>, s: State)
    requires StageAccepts(Initial(), p, entries)
    ensures Leads(cfg, but, run, s)
    ensures s == Initial().(staged := map[p.nonce.value := p], granted := s.granted)
  {
    assert Leads(cfg, but, [], Initial());
    hide Leads;
    run := Go(cfg, but, [], Initial(), StageVerified(p, entries));
    s := StepStageVerified(Initial(), p, entries);
  }

  lemma {:induction false} StageRow(cfg: Config, but: Option<Condition>, p: Pending, entries: seq<Entry>)
    returns (run: seq<Step>, s: State)
    requires StageAccepts(Initial(), p, entries)
    ensures Leads(cfg, but, run, s) && JustStaged(s, p)
  {
    hide Leads;
    var run1, s1 := Verify(cfg, but, p, entries);
    hide StageAccepts;
    SavedFirst(p);
    hide Save;
    run := Go(cfg, but, run1, s1, StageSave(p.nonce.value, 0, Fine));
    s := StepStageSave(s1, p.nonce.value, 0, Fine);
  }

  lemma {:induction false} SavedFirst(p: Pending)
    ensures Save(Empty(), p, 0).0.rows == map[p.externalId := Row(p, false)]
  {
    assert Pruned(Empty(), 0) == Empty();
  }

  /** A stored request nobody holds can be written, unless an attempt is in doubt, whatever was written before. */
  lemma {:induction false} StoredRequestIsWritten(
      cfg: Config, but: Option<Condition>, run: seq<Step>, s: State, p: Pending, id: nat, lease: string, t: string)
    returns (run': seq<Step>, s': State)
    requires Leads(cfg, but, run, s) && Confirmable(s, p) && NotInDoubt(s, p)
    requires id !in s.calls && lease !in s.leases
    ensures Leads(cfg, but, run', s')
    ensures s'.writes == s.writes + [WriteFor(p, t)] && s'.recoveries == s.recoveries
    ensures s'.store.rows == s.store.rows[p.externalId := Row(Held(p, lease), true)]
    ensures s'.leases == s.leases[lease := id] && id in s'.calls && Ended(s'.calls[id].pc)
    ensures s'.attempts == if cfg.attemptStore then s.attempts[KeyOf(p) := Committed(t)] else s.attempts
    ensures forall i :: i in s.calls ==> i in s'.calls && s'.calls[i] == s.calls[i]
    ensures s'.calls.Keys == s.calls.Keys + {id}
  {
    hide Leads;
    hide Tappable;
    var run1, s1 := ClaimRow(cfg, but, run, s, p, id, lease);
    run', s' := WriteAndLeave(cfg, but, run1, s1, id, p, lease, t);
  }

  lemma {:induction false} CleanUp(
      cfg: Config, but: Option<Condition>, run: seq<Step>, s: State, id: nat, p: Pending, lease: string, t: string)
    returns (run': seq<Step>, s': State)
    requires Leads(cfg, but, run, s) && id in s.calls
    requires s.calls[id] == Call(Tap(p), CleaningUp(t), Some(Claim(Held(p, lease), lease)), Units(cfg), true)
    requires p.externalId in s.store.rows && s.store.rows[p.externalId] == Row(Held(p, lease), true)
    ensures Leads(cfg, but, run', s') && s'.store.rows == s.store.rows - {p.externalId} && s'.writes == s.writes
    ensures id in s'.calls && s'.calls[id].pc == Returned(Confirmed(t, false))
  {
    hide Leads;
    run' := Go(cfg, but, run, s, Cleanup(id, Fine, false));
    s' := StepCleanup(s, id, Fine, false);
  }

  /**
   * Every accepted request can be staged, tapped and written, in every wiring:
   * one write, a positive answer with its label, and the row gone.
   */
  lemma {:induction false} StagedRequestCanBeWritten(cfg: Config, p: Pending, entries: seq<Entry>, t: string)
    returns (run: seq<Step>, s: State)
    requires StageAccepts(Initial(), p, entries) && Tappable(p)
    ensures Leads(cfg, None, run, s) && Reachable(cfg, s)
    ensures s.writes == [WriteFor(p, t)] && s.store.rows == map[]
    ensures 0 in s.calls && s.calls[0].pc == Returned(Confirmed(t, false))
  {
    hide Leads;
    hide StageAccepts;
    hide Tappable;
    var run1, s1 := StageRow(cfg, None, p, entries);
    var run2, s2 := ClaimRow(cfg, None, run1, s1, p, 0, "a");
    var run3, s3 := WriteHeld(cfg, None, run2, s2, 0, p, "a", t);
    if cfg.attemptStore {
      run3, s3 := RecordCommit(cfg, None, run3, s3, 0, p, "a", t);
    }
    run, s := CleanUp(cfg, None, run3, s3, 0, p, "a", t);
    KeptRunIsReachable(cfg, run, s);
  }

  // ----- recovery ----------------------------------------------------------------------------------

  lemma {:induction false} ListRow(
      cfg: Config, but: Option<Condition>, run: seq<Step>, s: State, rid: nat, p: Pending, lease: string)
    returns (run': seq<Step>, s': State)
    requires Leads(cfg, but, run, s) && rid !in s.recoveries
    requires p.externalId in s.store.rows && s.store.rows[p.externalId] == Row(Held(p, lease), true)
    ensures Leads(cfg, but, run', s')
    ensures s' == s.(recoveries := s.recoveries[rid := Recovery(p.externalId, p.nonce, lease, None)])
  {
    hide Leads;
    run' := Go(cfg, but, run, s, RecoverList(rid, p.externalId));
    s' := StepRecoverList(s, rid, p.externalId);
  }

  /** The look-up comes out as "no attempt". */
  lemma {:induction false} LookUp(
      cfg: Config, but: Option<Condition>, run: seq<Step>, s: State, rid: nat, p: Pending, lease: string,
      asked: string, failed: bool)
    returns (run': seq<Step>, s': State)
    requires Leads(cfg, but, run, s) && p.nonce.Some?
    requires rid in s.recoveries && s.recoveries[rid] == Recovery(p.externalId, p.nonce, lease, None)
    requires failed || !cfg.attemptStore || (asked, p.nonce.value) !in s.attempts
    requires failed ==> but == Some(LookUpAnswered)
    requires !cfg.attemptStore ==> but == Some(StoreWired)
    requires asked != p.externalId ==> but == Some(AsksRowsId)
    requires !LeaseIsOver(s, lease) ==> but == Some(HolderIsOver)
    ensures Leads(cfg, but, run', s')
    ensures s' == s.(recoveries := s.recoveries[rid := Recovery(p.externalId, p.nonce, lease, Some(false))])
  {
    hide Leads;
    run' := Do(cfg, but, run, s, RecoverLookUp(rid, asked, failed));
    s' := StepRecoverLookUp(cfg, s, rid, asked, failed);
  }

  function Rearmable(p: Pending): Pending {
    p.(leaseToken := None, expiresAt := PENDING_TTL_MS)
  }

  /** A recovery that knows of no attempt re-arms the row. */
  lemma {:induction false} Rearm(
      cfg: Config, but: Option<Condition>, run: seq<Step>, s: State, rid: nat, p: Pending, seen: string, lease: string)
    returns (run': seq<Step>, s': State)
    requires Leads(cfg, but, run, s)
    requires rid in s.recoveries && s.recoveries[rid] == Recovery(p.externalId, p.nonce, seen, Some(false))
    requires p.externalId in s.store.rows && s.store.rows[p.externalId] == Row(Held(p, lease), true)
    requires lease != seen ==> but == Some(LeaseUnchanged)
    ensures Leads(cfg, but, run', s')
    ensures s'.store.rows == s.store.rows[p.externalId := Row(Rearmable(p), false)]
    ensures s' == s.(store := s'.store, recoveries := s.recoveries - {rid})
  {
    hide Leads;
    run' := Do(cfg, but, run, s, RecoverApply(rid, 0));
    s' := StepRecoverApply(s, rid, 0);
    assert Held(p, lease).(leaseToken := None, expiresAt := PENDING_TTL_MS) == Rearmable(p);
  }

  lemma {:induction false} RearmableIsTappable(p: Pending)
    requires Tappable(p)
    ensures Tappable(Rearmable(p)) && KeyOf(Rearmable(p)) == KeyOf(p) && Rearmable(p).externalId == p.externalId
    ensures forall t :: WriteFor(Rearmable(p), t) == WriteFor(p, t)
  {
  }

  /** The look-up is answered. */
  lemma {:induction false} AskAbout(cfg: Config, run: seq<Step>, s: State, rid: nat, r: Recovery)
    returns (run': seq<Step>, s': State)
    requires Leads(cfg, None, run, s) && cfg.attemptStore
    requires rid in s.recoveries && s.recoveries[rid] == r && r.known.None? && LeaseIsOver(s, r.lease)
    ensures Leads(cfg, None, run', s')
    ensures var known := r.nonce.Some? && r.nonce.value != "" && (r.key, r.nonce.value) in s.attempts;
      s' == s.(recoveries := s.recoveries[rid := r.(known := Some(known))])
  {
    hide Leads;
    run' := Do(cfg, None, run, s, RecoverLookUp(rid, r.key, false));
    s' := StepRecoverLookUp(cfg, s, rid, r.key, false);
  }

  /** The row, still under the lease it was listed under, is taken out or re-armed. */
  lemma {:induction false} Touch(cfg: Config, run: seq<Step>, s: State, rid: nat, now: int)
    returns (run': seq<Step>, s': State)
    requires Leads(cfg, None, run, s) && rid in s.recoveries && s.recoveries[rid].known.Some?
    requires var r := s.recoveries[rid];
      r.key in s.store.rows && s.store.rows[r.key].claimed && s.store.rows[r.key].record.leaseToken == Some(r.lease)
    ensures Leads(cfg, None, run', s') && s' == s.(store := s'.store, recoveries := s.recoveries - {rid})
    ensures var r, rows := s.recoveries[rid], s.store.rows;
      s'.store.rows
        == if r.known.value then rows - {r.key}
           else rows[r.key := Row(rows[r.key].record.(leaseToken := None, expiresAt := now + 600_000), false)]
  {
    hide Leads;
    hide Without;
    run' := Do(cfg, None, run, s, RecoverApply(rid, now));
    s' := StepRecoverApply(s, rid, now);
  }

  /**
   * A row whose claiming call is over is recovered by listing it, looking its
   * attempt up and touching it: if an attempt was recorded under its id and nonce it
   * is taken out, and otherwise it is pending again for ten minutes.
   */
  lemma {:induction false} AbandonedRowIsRecovered(
      cfg: Config, run: seq<Step>, s: State, rid: nat, key: string, now: int)
    returns (run': seq<Step>, s': State)
    requires Leads(cfg, None, run, s) && cfg.attemptStore && rid !in s.recoveries
    requires key in s.store.rows && s.store.rows[key].claimed && s.store.rows[key].record.leaseToken.Some?
    requires LeaseIsOver(s, s.store.rows[key].record.leaseToken.value)
    ensures Leads(cfg, None, run', s') && s' == s.(store := s'.store)
    ensures var p := s.store.rows[key].record;
      s'.store.rows
        == if p.nonce.Some? && p.nonce.value != "" && (key, p.nonce.value) in s.attempts then s.store.rows - {key}
           else s.store.rows[key := Row(p.(leaseToken := None, expiresAt := now + 600_000), false)]
  {
    hide Leads;
    var p := s.store.rows[key].record;
    var run1 := Go(cfg, None, run, s, RecoverList(rid, key));
    var s1 := s.(recoveries := s.recoveries[rid := Recovery(key, p.nonce, p.leaseToken.value, None)]);
    hide Apply;
    var run2, s2 := AskAbout(cfg, run1, s1, rid, s1.recoveries[rid]);
    run', s' := Touch(cfg, run2, s2, rid, now);
    assert s'.recoveries == s.recoveries;
  }

  /** The same nonce was written twice. */
  predicate WrittenTwice(s: State) {
    |s.writes| == 2 && s.writes[0].nonce == s.writes[1].nonce
  }

  /** Once re-armed, a written request is written again. */
  lemma {:induction false} WriteAgain(
      cfg: Config, but: Option<Condition>, run: seq<Step>, s: State, p: Pending, id: nat, lease: string, t: string)
    returns (run': seq<Step>, s': State)
    requires Leads(cfg, but, run, s) && Tappable(p) && NotInDoubt(s, p) && s.writes == [WriteFor(p, t)]
    requires p.externalId in s.store.rows && s.store.rows[p.externalId] == Row(Rearmable(p), false)
    requires id !in s.calls && lease !in s.leases
    ensures Leads(cfg, but, run', s') && WrittenTwice(s')
  {
    hide Leads;
    RearmableIsTappable(p);
    hide Tappable;
    hide Rearmable;
    run', s' := StoredRequestIsWritten(cfg, but, run, s, Rearmable(p), id, lease, t);
  }

  /**
   * The request is staged, written and its commit recorded; the clean-up fails
   * and the cron lists the row. One look-up that comes out as "no attempt" then
   * leads to a second write.
   */
  lemma {:induction false} OneBadLookUpWritesTwice(
      cfg: Config, p: Pending, entries: seq<Entry>, but: Condition, asked: string, failed: bool)
    returns (run: seq<Step>, s: State)
    requires StageAccepts(Initial(), p, entries) && Tappable(p)
    requires match but
      case StoreWired => !cfg.attemptStore && !failed && asked == p.externalId
      case LookUpAnswered => cfg.attemptStore && failed && asked == p.externalId
      case AsksRowsId => cfg.attemptStore && !failed && asked != p.externalId
      case _ => false
    ensures Leads(cfg, Some(but), run, s) && WrittenTwice(s)
  {
    hide Leads;
    hide StageAccepts;
    assert p.nonce.Some?;
    hide Tappable;
    var run1, s1 := StageRow(cfg, Some(but), p, entries);
    var run2, s2 := StoredRequestIsWritten(cfg, Some(but), run1, s1, p, 0, "a", "t");
    var run3, s3 := ListRow(cfg, Some(but), run2, s2, 0, p, "a");
    var run4, s4 := LookUp(cfg, Some(but), run3, s3, 0, p, "a", asked, failed);
    var run5, s5 := Rearm(cfg, Some(but), run4, s4, 0, p, "a", "a");
    run, s := WriteAgain(cfg, Some(but), run5, s5, p, 1, "b", "t");
  }

  /** Look-up failure: the record is there, but recovery cannot reach it. */
  lemma {:induction false} FailedLookupWritesTwice(cfg: Config, p: Pending, entries: seq<Entry>)
    returns (run: seq<Step>, s: State)
    requires cfg.attemptStore && StageAccepts(Initial(), p, entries) && Tappable(p)
    ensures Leads(cfg, Some(LookUpAnswered), run, s) && WrittenTwice(s)
  {
    run, s := OneBadLookUpWritesTwice(cfg, p, entries, LookUpAnswered, p.externalId, true);
  }

  /** No attempt store: nothing proves the committed write. */
  lemma {:induction false} NoAttemptStoreWritesTwice(cfg: Config, p: Pending, entries: seq<Entry>)
    returns (run: seq<Step>, s: State)
    requires !cfg.attemptStore && StageAccepts(Initial(), p, entries) && Tappable(p)
    ensures Leads(cfg, Some(StoreWired), run, s) && WrittenTwice(s)
  {
    run, s := OneBadLookUpWritesTwice(cfg, p, entries, StoreWired, p.externalId, false);
  }

  /** Asking under any other id than the one the request was confirmed by misses the record. */
  lemma {:induction false} OtherIdWritesTwice(cfg: Config, p: Pending, entries: seq<Entry>, asked: string)
    returns (run: seq<Step>, s: State)
    requires cfg.attemptStore && asked != p.externalId && StageAccepts(Initial(), p, entries) && Tappable(p)
    ensures Leads(cfg, Some(AsksRowsId), run, s) && WrittenTwice(s)
  {
    run, s := OneBadLookUpWritesTwice(cfg, p, entries, AsksRowsId, asked, false);
  }

  /**
   * The shipped cron always does: the rows it lists carry the storage key, which is
   * the platform and the id, and it asks under that.
   */
  lemma {:induction false} StorageKeyIsAnotherId(cfg: Config, s: State, step: Step, platform: string)
    requires Enabled(s, step) && step.RecoverLookUp? && step.asked == platform + ":" + s.recoveries[step.rid].key
    ensures !Meets(cfg, s, step, AsksRowsId)
  {
    assert |step.asked| > |s.recoveries[step.rid].key|;
  }

  /**
   * The look-up comes too early: the holder has not recorded its attempt yet. It
   * then writes, records the commit, fails to clean up and returns; only then is
   * the row re-armed, under the lease it was listed under, and written again.
   */
  lemma {:induction false} EarlyLookupWritesTwice(cfg: Config, p: Pending, entries: seq<Entry>)
    returns (run: seq<Step>, s: State)
    requires cfg.attemptStore && StageAccepts(Initial(), p, entries) && Tappable(p)
    ensures Leads(cfg, Some(HolderIsOver), run, s) && WrittenTwice(s)
  {
    hide Leads;
    hide StageAccepts;
    assert p.nonce.Some?;
    hide Tappable;
    var but := Some(HolderIsOver);
    var run1, s1 := StageRow(cfg, but, p, entries);
    var run2, s2 := ClaimRow(cfg, but, run1, s1, p, 0, "a");
    var run3, s3 := ListRow(cfg, but, run2, s2, 0, p, "a");
    var run4, s4 := LookUp(cfg, but, run3, s3, 0, p, "a", p.externalId, false);
    var run5, s5 := WriteAndLeave(cfg, but, run4, s4, 0, p, "a", "t");
    var run6, s6 := Rearm(cfg, but, run5, s5, 0, p, "a", "a");
    run, s := WriteAgain(cfg, but, run6, s6, p, 1, "b", "t");
  }

  /**
   * The holder is still alive when the row is re-armed: a second tap writes, and
   * then so does the first, which had looked its attempt up before.
   */
  lemma {:induction false} LiveHolderWritesTwice(cfg: Config, p: Pending, entries: seq<Entry>)
    returns (run: seq<Step>, s: State)
    requires cfg.attemptStore && StageAccepts(Initial(), p, entries) && Tappable(p)
    ensures Leads(cfg, Some(HolderIsOver), run, s) && WrittenTwice(s)
  {
    hide Leads;
    hide StageAccepts;
    RearmableIsTappable(p);
    hide Tappable;
    var but := Some(HolderIsOver);
    var run1, s1 := StageRow(cfg, but, p, entries);
    var run2, s2 := ClaimRow(cfg, but, run1, s1, p, 0, "a");
    var run3, s3 := LookUpNothing(cfg, but, run2, s2, 0, p, "a");
    var run4, s4 := ListRow(cfg, but, run3, s3, 0, p, "a");
    var run5, s5 := LookUp(cfg, but, run4, s4, 0, p, "a", p.externalId, false);
    var run6, s6 := Rearm(cfg, but, run5, s5, 0, p, "a", "a");
    hide Rearmable;
    var run7, s7 := StoredRequestIsWritten(cfg, but, run6, s6, Rearmable(p), 1, "b", "t");
    assert HoldsAt(cfg, s7, 0, p, "a", Beginning);
    run, s := WriteAfterAll(cfg, but, run7, s7, 0, p, "a", "t");
  }

  /** A holder that had found no attempt records one and writes, whatever happened meanwhile. */
  lemma {:induction false} WriteAfterAll(
      cfg: Config, but: Option<Condition>, run: seq<Step>, s: State, id: nat, p: Pending, lease: string, t: string)
    returns (run': seq<Step>, s': State)
    requires Leads(cfg, but, run, s) && HoldsAt(cfg, s, id, p, lease, Beginning)
    ensures Leads(cfg, but, run', s') && s'.writes == s.writes + [WriteFor(p, t)]
  {
    hide Leads;
    hide Tappable;
    var run1, s1 := RecordAttempt(cfg, but, run, s, id, p, lease);
    run', s' := WriteNow(cfg, but, run1, s1, id, p, lease, t);
  }

  /**
   * Two recoveries of one row overlap. The first re-arms it, rightly; the request
   * is tapped again and written; the second re-arms what is now another claim.
   */
  lemma {:induction false} OverlappingRecoveriesWriteTwice(cfg: Config, p: Pending, entries: seq<Entry>)
    returns (run: seq<Step>, s: State)
    requires cfg.attemptStore && StageAccepts(Initial(), p, entries) && Tappable(p)
    ensures Leads(cfg, Some(LeaseUnchanged), run, s) && WrittenTwice(s)
  {
    hide Leads;
    hide StageAccepts;
    RearmableIsTappable(p);
    hide Tappable;
    var but := Some(LeaseUnchanged);
    var run1, s1 := StageRow(cfg, but, p, entries);
    var run2, s2 := ClaimRow(cfg, but, run1, s1, p, 0, "a");
    var run3 := Go(cfg, but, run2, s2, Crash(0));
    var s3 := Goto(s2, 0, Threw);
    var run4, s4 := ListBoth(cfg, but, run3, s3, p);
    var run5, s5 := Rearm(cfg, but, run4, s4, 0, p, "a", "a");
    var q := Rearmable(p);
    var run6, s6 := StoredRequestIsWritten(cfg, but, run5, s5, q, 1, "b", "t");
    var run7, s7 := Rearm(cfg, but, run6, s6, 1, q, "a", "b");
    assert Rearmable(q) == Rearmable(p);
    run, s := WriteAgain(cfg, but, run7, s7, q, 2, "c", "t");
  }

  lemma {:induction false} ListBoth(cfg: Config, but: Option<Condition>, run: seq<Step>, s: State, p: Pending)
    returns (run': seq<Step>, s': State)
    requires Leads(cfg, but, run, s) && cfg.attemptStore && p.nonce.Some? && KeyOf(p) !in s.attempts
    requires p.externalId in s.store.rows && s.store.rows[p.externalId] == Row(Held(p, "a"), true)
    requires s.recoveries == map[] && LeaseIsOver(s, "a")
    ensures Leads(cfg, but, run', s')
    ensures var r := Recovery(p.externalId, p.nonce, "a", Some(false)); s' == s.(recoveries := map[0 := r, 1 := r])
  {
    hide Leads;
    var run1, s1 := ListRow(cfg, but, run, s, 0, p, "a");
    var run2, s2 := LookUp(cfg, but, run1, s1, 0, p, "a", p.externalId, false);
    var run3, s3 := ListRow(cfg, but, run2, s2, 1, p, "a");
    run', s' := LookUp(cfg, but, run3, s3, 1, p, "a", p.externalId, false);
  }
}
