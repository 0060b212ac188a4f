/**
 * Account linking as a transition system: link completions and reconcile runs
 * interleave over one store of verified intents and one table of mappings. Each
 * awaited port call is a step; it may work, work and lose its reply, or fail. A
 * thread may stop for good at any point, and mappings change behind its back.
 *
 * Generations are fresh: no two recorded intents share one.
 */
module AccountLink {
  import opened Prelude
  import opened LinkReconcile

  datatype Kind = Completion | Reconcile

  /** Why a thread is about to consume its intent. */
  datatype Reason = AfterCommit | AfterConflict | AfterDrop

  datatype Pc =
    | Recording(left: nat)
    | Finding
    | Deciding
    | Upserting(left: nat)
    | Consuming(reason: Reason)
    | InSideEffect
    | Ended

  /** While it is recording, a completion's intent has no generation of its own yet. */
  datatype Thread = Thread(kind: Kind, intent: Intent, pc: Pc)

  datatype Settings = Settings(
    completionAttempts: int,
    reconcileAttempts: int,
    completionKeeps: bool,
    reconcileKeeps: bool,
    reconcile: LinkReconcile.Config)

  /** The side effect comes before the consumption. */
  predicate Keeps(cfg: Settings, kind: Kind) {
    if kind.Completion? then cfg.completionKeeps else cfg.reconcileKeeps
  }

  datatype Consumption = Consumption(kind: Kind, reason: Reason)

  /** The fields from `recorded` on only look back at the run. */
  datatype State = State(
    world: World,
    threads: map<nat, Thread>,
    nextGeneration: nat,
    recorded: set<Intent>,
    linkedSince: set<Intent>,
    conflicted: set<Intent>,
    dropped: set<Intent>,
    superseded: set<Intent>,
    sideEffects: set<(Intent, Kind)>,
    consumed: map<Intent, Consumption>)

  datatype StoreAnswer = Works | WorksButThrows | FailsToWork

  datatype Step =
    | Begin(id: nat, externalUserId: string, userId: int, verifiedAt: int)
    | Record(id: nat, stored: StoreAnswer, again: bool)
    | Pick(id: nat, externalUserId: string)
    | Find(id: nat)
    | Decide(id: nat, now: int, state: Option<LinkState>, isFresh: bool)
    | Upsert(id: nat, answer: UpsertAnswer, again: bool)
    | ConsumeIntent(id: nat, stored: StoreAnswer)
    | SideEffect(id: nat, succeeds: bool)
    | Stop(id: nat)
    | Unlink(externalUserId: string)
    | LinkElsewhere(externalUserId: string, userId: int)

  function Init(world: World): State {
    State(world, map[], 0, {}, {}, {}, {}, {}, {}, map[])
  }

  predicate Enabled(s: State, step: Step) {
    match step
    case Begin(id, _, _, _) => id !in s.threads
    case Pick(id, e) => id !in s.threads && e in s.world.intents
    case Record(id, _, _) => id in s.threads && s.threads[id].pc.Recording?
    case Find(id) => id in s.threads && s.threads[id].pc.Finding?
    case Decide(id, _, _, _) => id in s.threads && s.threads[id].pc.Deciding?
    case Upsert(id, _, _) => id in s.threads && s.threads[id].pc.Upserting?
    case ConsumeIntent(id, _) => id in s.threads && s.threads[id].pc.Consuming?
    case SideEffect(id, _) => id in s.threads && s.threads[id].pc.InSideEffect?
    case Stop(id) => id in s.threads
    case Unlink(_) => true
    case LinkElsewhere(_, _) => true
  }

  // ----- the steps -----------------------------------------------------------------------

  function Goto(s: State, id: nat, pc: Pc): State
    requires id in s.threads
  {
    s.(threads := s.threads[id := s.threads[id].(pc := pc)])
  }

  /** What follows a standing mapping. */
  function PcAfterCommit(cfg: Settings, kind: Kind): Pc {
    if Keeps(cfg, kind) then InSideEffect else Consuming(AfterCommit)
  }

  /** The store keeps one intent for each external user: a newer one takes its place. */
  function Stored(s: State, intent: Intent): State {
    var e := intent.externalUserId;
    s.(world := s.world.(intents := s.world.intents[e := intent]),
       nextGeneration := s.nextGeneration + 1,
       recorded := s.recorded + {intent},
       superseded := s.superseded + (if e in s.world.intents then {s.world.intents[e]} else {}))
  }

  function RecordStep(cfg: Settings, s: State, id: nat, stored: StoreAnswer, again: bool): State
    requires Enabled(s, Record(id, stored, again))
  {
    var thread := s.threads[id];
    var intent := thread.intent.(generation := s.nextGeneration);
    var s' := if stored.FailsToWork? then s else Stored(s, intent);
    if stored.Works? then
      s'.(threads := s.threads[id := Thread(thread.kind, intent, Upserting(Attempts(cfg.completionAttempts)))])
    else if again && thread.pc.left > 1 then Goto(s', id, Recording(thread.pc.left - 1))
    else Goto(s', id, Ended)
  }

  function FindStep(cfg: Settings, s: State, id: nat): State
    requires Enabled(s, Find(id))
  {
    var thread := s.threads[id];
    Goto(s, id, if Mapped(s.world.mappings, thread.intent) then PcAfterCommit(cfg, thread.kind) else Deciding)
  }

  function DecideStep(cfg: Settings, s: State, id: nat, now: int, state: Option<LinkState>, isFresh: bool): State
    requires Enabled(s, Decide(id, now, state, isFresh))
  {
    var intent := s.threads[id].intent;
    if Stale(cfg.reconcile, intent, now) || Blocked(intent, state, isFresh) then
      Goto(s, id, Consuming(AfterDrop)).(dropped := s.dropped + {intent})
    else
      Goto(s, id, Upserting(Attempts(cfg.reconcileAttempts)))
  }

  function LinkedBy(s: State, intent: Intent): State {
    s.(world := s.world.(mappings := Linked(s.world.mappings, intent.externalUserId, intent.userId)))
  }

  function UpsertStep(cfg: Settings, s: State, id: nat, answer: UpsertAnswer, again: bool): State
    requires Enabled(s, Upsert(id, answer, again))
  {
    var thread := s.threads[id];
    var s' := if TakesEffect(answer) then LinkedBy(s, thread.intent) else s;
    if answer.Commits? then Goto(s', id, PcAfterCommit(cfg, thread.kind))
    else if again && thread.pc.left > 1 then Goto(s', id, Upserting(thread.pc.left - 1))
    else if answer.OwnershipConflict? then
      Goto(s', id, Consuming(AfterConflict)).(conflicted := s.conflicted + {thread.intent})
    else Goto(s', id, Ended)
  }

  function Gone(s: State, intent: Intent, kind: Kind, reason: Reason): State {
    if intent.externalUserId in s.world.intents && s.world.intents[intent.externalUserId] == intent then
      s.(world := s.world.(intents := Consumed(s.world.intents, intent)),
         consumed := s.consumed[intent := Consumption(kind, reason)])
    else s
  }

  /**
   * A completion shrugs off an error here and still runs its side effect; a
   * reconcile run gives the record up.
   */
  function ConsumeStep(cfg: Settings, s: State, id: nat, stored: StoreAnswer): State
    requires Enabled(s, ConsumeIntent(id, stored))
  {
    var thread := s.threads[id];
    var s' := if stored.FailsToWork? then s else Gone(s, thread.intent, thread.kind, thread.pc.reason);
    var goesOn := thread.kind.Completion? || stored.Works?;
    Goto(s', id, if thread.pc.reason.AfterCommit? && !Keeps(cfg, thread.kind) && goesOn then InSideEffect else Ended)
  }

  function SideEffectStep(cfg: Settings, s: State, id: nat, succeeds: bool): State
    requires Enabled(s, SideEffect(id, succeeds))
  {
    var thread := s.threads[id];
    var s' := if succeeds then s.(sideEffects := s.sideEffects + {(thread.intent, thread.kind)}) else s;
    Goto(s', id, if succeeds && Keeps(cfg, thread.kind) then Consuming(AfterCommit) else Ended)
  }

  function Act(cfg: Settings, s: State, step: Step): State
    requires Enabled(s, step)
  {
    match step
    case Begin(id, e, u, at) =>
      s.(threads := s.threads[id := Thread(Completion, Intent(e, u, 0, at), Recording(Attempts(cfg.completionAttempts)))])
    case Pick(id, e) => s.(threads := s.threads[id := Thread(Reconcile, s.world.intents[e], Finding)])
    case Record(id, stored, again) => RecordStep(cfg, s, id, stored, again)
    case Find(id) => FindStep(cfg, s, id)
    case Decide(id, now, state, isFresh) => DecideStep(cfg, s, id, now, state, isFresh)
    case Upsert(id, answer, again) => UpsertStep(cfg, s, id, answer, again)
    case ConsumeIntent(id, stored) => ConsumeStep(cfg, s, id, stored)
    case SideEffect(id, succeeds) => SideEffectStep(cfg, s, id, succeeds)
    case Stop(id) => Goto(s, id, Ended)
    case Unlink(e) => s.(world := s.world.(mappings := s.world.mappings - {e}))
    case LinkElsewhere(e, u) => s.(world := s.world.(mappings := Linked(s.world.mappings, e, u)))
  }

  /** Notes which recorded intents have their mapping in force right now. */
  function Noted(s: State): State {
    s.(linkedSince := s.linkedSince + set i | i in s.recorded && Mapped(s.world.mappings, i))
  }

  function Apply(cfg: Settings, s: State, step: Step): State
    requires Enabled(s, step)
  {
    Noted(Act(cfg, s, step))
  }

  ghost predicate Runs(cfg: Settings, s: State, run: seq<Step>)
    decreases |run|
  {
    run == [] || (Enabled(s, run[0]) && Runs(cfg, Apply(cfg, s, run[0]), run[1..]))
  }

  ghost function Exec(cfg: Settings, s: State, run: seq<Step>): State
    requires Runs(cfg, s, run)
    decreases |run|
  {
    if run == [] then s else Exec(cfg, Apply(cfg, s, run[0]), run[1..])
  }

  // ----- the invariant ------------------------------------------------------------------------

  predicate IsStored(s: State, i: Intent) {
    i.externalUserId in s.world.intents && s.world.intents[i.externalUserId] == i
  }

  ghost predicate GenerationsOk(s: State) {
    && (forall i :: i in s.recorded ==> i.generation < s.nextGeneration)
    && (forall e :: e in s.world.intents ==> s.world.intents[e] in s.recorded && s.world.intents[e].externalUserId == e)
  }

  /** Every recorded intent is in exactly one place. */
  ghost predicate Placed(s: State) {
    && s.superseded <= s.recorded && s.consumed.Keys <= s.recorded
    && (forall i :: i in s.recorded ==> IsStored(s, i) || i in s.superseded || i in s.consumed)
    && (forall i :: i in s.recorded && IsStored(s, i) ==> i !in s.superseded && i !in s.consumed)
    && (forall i :: i in s.superseded ==> i !in s.consumed)
  }

  /** What justifies consuming an intent for this reason. */
  predicate Justified(cfg: Settings, s: State, i: Intent, c: Consumption) {
    match c.reason
    case AfterCommit => i in s.linkedSince && (Keeps(cfg, c.kind) ==> (i, c.kind) in s.sideEffects)
    case AfterConflict => i in s.conflicted
    case AfterDrop => i in s.dropped
  }

  predicate ThreadOk(cfg: Settings, s: State, t: Thread) {
    match t.pc
    case Recording(_) => true
    case Ended => true
    case Finding => t.intent in s.recorded
    case Deciding => t.intent in s.recorded
    case Upserting(_) => t.intent in s.recorded
    case Consuming(reason) => t.intent in s.recorded && Justified(cfg, s, t.intent, Consumption(t.kind, reason))
    case InSideEffect => t.intent in s.recorded && t.intent in s.linkedSince
  }

  ghost predicate ThreadsOk(cfg: Settings, s: State) {
    forall id :: id in s.threads ==> ThreadOk(cfg, s, s.threads[id])
  }

  ghost predicate ConsumptionsOk(cfg: Settings, s: State) {
    forall i :: i in s.consumed ==> Justified(cfg, s, i, s.consumed[i])
  }

  ghost predicate Inv(cfg: Settings, s: State) {
    GenerationsOk(s) && Placed(s) && ThreadsOk(cfg, s) && ConsumptionsOk(cfg, s)
  }

  // ----- every step keeps it ------------------------------------------------------------------

  /** History only grows. */
  ghost predicate Grows(s: State, s': State) {
    && s.recorded <= s'.recorded && s.linkedSince <= s'.linkedSince && s.conflicted <= s'.conflicted
    && s.dropped <= s'.dropped && s.sideEffects <= s'.sideEffects
  }

  lemma {:induction false} JustifiedStays(cfg: Settings, s: State, s': State, i: Intent, c: Consumption)
    requires Grows(s, s') && Justified(cfg, s, i, c)
    ensures Justified(cfg, s', i, c)
  {
  }

  /** The step moved no thread but `id`, and left that one in order. */
  ghost predicate OnlyMoves(cfg: Settings, s: State, s': State, id: nat) {
    && s'.threads.Keys == s.threads.Keys + {id}
    && (forall other :: other in s.threads && other != id ==> s'.threads[other] == s.threads[other])
    && ThreadOk(cfg, s', s'.threads[id])
  }

  /** The intents, stored and gone, are as they were. */
  ghost predicate SameIntents(s: State, s': State) {
    && s'.world.intents == s.world.intents && s'.nextGeneration == s.nextGeneration
    && s'.recorded == s.recorded && s'.superseded == s.superseded && s'.consumed == s.consumed
  }

  /** Threads and consumptions that do not change stay in order while history grows. */
  lemma {:induction false} OthersStay(cfg: Settings, s: State, s': State, id: nat)
    requires Grows(s, s') && ThreadsOk(cfg, s) && OnlyMoves(cfg, s, s', id)
    ensures ThreadsOk(cfg, s')
  {
    hide Grows;
    hide ThreadOk;
    forall other | other in s'.threads
      ensures ThreadOk(cfg, s', s'.threads[other])
    {
      if other != id {
        ThreadStays(cfg, s, s', s.threads[other]);
      }
    }
  }

  lemma {:induction false} ThreadStays(cfg: Settings, s: State, s': State, t: Thread)
    requires Grows(s, s') && ThreadOk(cfg, s, t)
    ensures ThreadOk(cfg, s', t)
  {
  }

  lemma {:induction false} ConsumptionsStay(cfg: Settings, s: State, s': State)
    requires Grows(s, s') && ConsumptionsOk(cfg, s) && s'.consumed == s.consumed
    ensures ConsumptionsOk(cfg, s')
  {
    forall i | i in s'.consumed
      ensures Justified(cfg, s', i, s'.consumed[i])
    {
      JustifiedStays(cfg, s, s', i, s.consumed[i]);
    }
  }

  /** A step that leaves the intents alone and moves at most one thread. */
  lemma {:induction false} QuietStepKeepsInv(cfg: Settings, s: State, s': State, id: nat)
    requires Inv(cfg, s) && Grows(s, s') && SameIntents(s, s') && OnlyMoves(cfg, s, s', id)
    ensures Inv(cfg, s')
  {
    hide ThreadsOk;
    hide ConsumptionsOk;
    OthersStay(cfg, s, s', id);
    ConsumptionsStay(cfg, s, s');
    hide OnlyMoves;
    hide Grows;
  }

  /** The intent became the one stored for its external user. */
  ghost predicate Stores(s: State, s': State, intent: Intent) {
    && intent.generation == s.nextGeneration && s'.nextGeneration == s.nextGeneration + 1
    && s'.world.intents == Stored(s, intent).world.intents && s'.recorded == s.recorded + {intent}
    && s'.superseded == Stored(s, intent).superseded && s'.consumed == s.consumed
  }

  lemma {:induction false} RecordEffect(cfg: Settings, s: State, id: nat, stored: StoreAnswer, again: bool)
    requires Enabled(s, Record(id, stored, again))
    ensures var s' := RecordStep(cfg, s, id, stored, again);
      && Grows(s, s') && OnlyMoves(cfg, s, s', id)
      && if stored.FailsToWork? then SameIntents(s, s')
         else Stores(s, s', s.threads[id].intent.(generation := s.nextGeneration))
  {
    hide Justified;
    hide Attempts;
  }

  /** Taking note of the mappings in force disturbs nothing. */
  lemma {:induction false} NotedStays(cfg: Settings, s: State, s': State, id: nat)
    requires Grows(s, s') && OnlyMoves(cfg, s, s', id)
    ensures Grows(s, Noted(s')) && OnlyMoves(cfg, s, Noted(s'), id)
  {
    ThreadStays(cfg, s', Noted(s'), s'.threads[id]);
    hide ThreadOk;
  }

  lemma {:induction false} RecordKeepsInv(cfg: Settings, s: State, id: nat, stored: StoreAnswer, again: bool)
    requires Inv(cfg, s) && Enabled(s, Record(id, stored, again))
    ensures Inv(cfg, Apply(cfg, s, Record(id, stored, again)))
  {
    hide RecordStep;
    hide ThreadsOk;
    hide ConsumptionsOk;
    hide GenerationsOk;
    hide Placed;
    hide OnlyMoves;
    hide Grows;
    var s' := Apply(cfg, s, Record(id, stored, again));
    RecordEffect(cfg, s, id, stored, again);
    NotedStays(cfg, s, RecordStep(cfg, s, id, stored, again), id);
    if stored.FailsToWork? {
      QuietStepKeepsInv(cfg, s, s', id);
    } else {
      StoredKeepsPlaces(s, s', s.threads[id].intent.(generation := s.nextGeneration));
      OthersStay(cfg, s, s', id);
      ConsumptionsStay(cfg, s, s');
    }
  }

  lemma {:induction false} StoredKeepsPlaces(s: State, s': State, intent: Intent)
    requires GenerationsOk(s) && Placed(s) && Stores(s, s', intent)
    ensures GenerationsOk(s') && Placed(s')
  {
    assert intent !in s.recorded && intent !in s.consumed && intent !in s.superseded;
    forall i | i in s.recorded
      ensures IsStored(s', i) <==> IsStored(s, i) && i.externalUserId != intent.externalUserId
    {
    }
  }

  /** The intent left the store for this reason. */
  ghost predicate Consumes(s: State, s': State, intent: Intent, c: Consumption) {
    && IsStored(s, intent) && s'.world.intents == Consumed(s.world.intents, intent)
    && s'.consumed == s.consumed[intent := c]
    && s'.recorded == s.recorded && s'.superseded == s.superseded && s'.nextGeneration == s.nextGeneration
  }

  lemma {:induction false} ConsumeEffect(cfg: Settings, s: State, id: nat, stored: StoreAnswer)
    requires Enabled(s, ConsumeIntent(id, stored)) && ThreadOk(cfg, s, s.threads[id])
    ensures var s', t := Apply(cfg, s, ConsumeIntent(id, stored)), s.threads[id];
      && Grows(s, s') && OnlyMoves(cfg, s, s', id)
      && if stored.FailsToWork? || !IsStored(s, t.intent) then SameIntents(s, s')
         else Consumes(s, s', t.intent, Consumption(t.kind, t.pc.reason))
  {
  }

  lemma {:induction false} ConsumedIsJustified(cfg: Settings, s: State, s': State, intent: Intent, c: Consumption)
    requires Grows(s, s') && ConsumptionsOk(cfg, s) && Justified(cfg, s, intent, c) && Consumes(s, s', intent, c)
    ensures ConsumptionsOk(cfg, s')
  {
    hide Grows;
    hide Justified;
    forall i | i in s'.consumed
      ensures Justified(cfg, s', i, s'.consumed[i])
    {
      JustifiedStays(cfg, s, s', i, if i == intent then c else s.consumed[i]);
    }
  }

  lemma {:induction false} ConsumeKeepsInv(cfg: Settings, s: State, id: nat, stored: StoreAnswer)
    requires Inv(cfg, s) && Enabled(s, ConsumeIntent(id, stored))
    ensures Inv(cfg, Apply(cfg, s, ConsumeIntent(id, stored)))
  {
    hide Apply;
    hide ConsumptionsOk;
    hide GenerationsOk;
    hide Placed;
    hide OnlyMoves;
    hide Grows;
    hide Consumes;
    var s', t := Apply(cfg, s, ConsumeIntent(id, stored)), s.threads[id];
    assert ThreadOk(cfg, s, t);
    ConsumeEffect(cfg, s, id, stored);
    if stored.FailsToWork? || !IsStored(s, t.intent) {
      QuietStepKeepsInv(cfg, s, s', id);
    } else {
      var c := Consumption(t.kind, t.pc.reason);
      GoneKeepsPlaces(s, s', t.intent, c);
      OthersStay(cfg, s, s', id);
      ConsumedIsJustified(cfg, s, s', t.intent, c);
    }
  }

  lemma {:induction false} GoneKeepsPlaces(s: State, s': State, intent: Intent, c: Consumption)
    requires GenerationsOk(s) && Placed(s) && intent in s.recorded && Consumes(s, s', intent, c)
    ensures GenerationsOk(s') && Placed(s')
  {
    forall i | i in s.recorded
      ensures IsStored(s', i) <==> IsStored(s, i) && i != intent
    {
    }
  }

  lemma {:induction false} BeginKeepsInv(cfg: Settings, s: State, step: Step)
    requires Inv(cfg, s) && Enabled(s, step) && (step.Begin? || step.Pick? || step.Stop?)
    ensures Inv(cfg, Apply(cfg, s, step))
  {
    hide Placed;
    hide ConsumptionsOk;
    QuietStepKeepsInv(cfg, s, Apply(cfg, s, step), step.id);
  }

  lemma {:induction false} FindKeepsInv(cfg: Settings, s: State, step: Step)
    requires Inv(cfg, s) && Enabled(s, step) && (step.Find? || step.SideEffect?)
    ensures Inv(cfg, Apply(cfg, s, step))
  {
    hide Placed;
    hide GenerationsOk;
    hide ConsumptionsOk;
    assert ThreadOk(cfg, s, s.threads[step.id]);
    QuietStepKeepsInv(cfg, s, Apply(cfg, s, step), step.id);
  }

  lemma {:induction false} DecideKeepsInv(cfg: Settings, s: State, step: Step)
    requires Inv(cfg, s) && Enabled(s, step) && step.Decide?
    ensures Inv(cfg, Apply(cfg, s, step))
  {
    hide Placed;
    hide GenerationsOk;
    hide ConsumptionsOk;
    hide Stale;
    hide Blocked;
    assert ThreadOk(cfg, s, s.threads[step.id]);
    QuietStepKeepsInv(cfg, s, Apply(cfg, s, step), step.id);
  }

  lemma {:induction false} UpsertEffect(cfg: Settings, s: State, id: nat, answer: UpsertAnswer, again: bool)
    requires Enabled(s, Upsert(id, answer, again)) && ThreadOk(cfg, s, s.threads[id])
    ensures var s' := Apply(cfg, s, Upsert(id, answer, again));
      Grows(s, s') && SameIntents(s, s') && OnlyMoves(cfg, s, s', id)
  {
    hide ThreadOk;
    hide Linked;
    hide PcAfterCommit;
    UpsertedIsOk(cfg, s, id, answer, again);
  }

  lemma {:induction false} UpsertedIsOk(cfg: Settings, s: State, id: nat, answer: UpsertAnswer, again: bool)
    requires Enabled(s, Upsert(id, answer, again)) && ThreadOk(cfg, s, s.threads[id])
    ensures var s' := Apply(cfg, s, Upsert(id, answer, again)); ThreadOk(cfg, s', s'.threads[id])
  {
    hide Linked;
    LinkedMaps(s.world.mappings, s.threads[id].intent);
  }

  lemma {:induction false} UpsertKeepsInv(cfg: Settings, s: State, id: nat, answer: UpsertAnswer, again: bool)
    requires Inv(cfg, s) && Enabled(s, Upsert(id, answer, again))
    ensures Inv(cfg, Apply(cfg, s, Upsert(id, answer, again)))
  {
    hide Apply;
    hide OnlyMoves;
    hide SameIntents;
    hide Grows;
    assert ThreadOk(cfg, s, s.threads[id]);
    UpsertEffect(cfg, s, id, answer, again);
    QuietStepKeepsInv(cfg, s, Apply(cfg, s, Upsert(id, answer, again)), id);
  }

  lemma {:induction false} LinkedMaps(mappings: map<string, int>, i: Intent)
    ensures Mapped(Linked(mappings, i.externalUserId, i.userId), i)
  {
  }

  lemma {:induction false} OutsideStepKeepsInv(cfg: Settings, s: State, step: Step)
    requires Inv(cfg, s) && Enabled(s, step) && (step.Unlink? || step.LinkElsewhere?)
    ensures Inv(cfg, Apply(cfg, s, step))
  {
    var s' := Apply(cfg, s, step);
    forall id | id in s'.threads
      ensures ThreadOk(cfg, s', s'.threads[id])
    {
      ThreadStays(cfg, s, s', s.threads[id]);
    }
    ConsumptionsStay(cfg, s, s');
  }

  lemma {:induction false} StepKeepsInv(cfg: Settings, s: State, step: Step)
    requires Inv(cfg, s) && Enabled(s, step)
    ensures Inv(cfg, Apply(cfg, s, step))
  {
    hide Inv;
    hide Apply;
    match step
    case Record(id, stored, again) => RecordKeepsInv(cfg, s, id, stored, again);
    case ConsumeIntent(id, stored) => ConsumeKeepsInv(cfg, s, id, stored);
    case Upsert(id, answer, again) => UpsertKeepsInv(cfg, s, id, answer, again);
    case Unlink(_) => OutsideStepKeepsInv(cfg, s, step);
    case LinkElsewhere(_, _) => OutsideStepKeepsInv(cfg, s, step);
    case Find(_) => FindKeepsInv(cfg, s, step);
    case SideEffect(_, _) => FindKeepsInv(cfg, s, step);
    case Decide(_, _, _, _) => DecideKeepsInv(cfg, s, step);
    case _ => BeginKeepsInv(cfg, s, step);
  }

  lemma {:induction false} RunKeepsInv(cfg: Settings, s: State, run: seq<Step>)
    requires Inv(cfg, s) && Runs(cfg, s, run)
    ensures Inv(cfg, Exec(cfg, s, run))
    decreases |run|
  {
    hide Inv;
    hide Apply;
    if run != [] {
      StepKeepsInv(cfg, s, run[0]);
      RunKeepsInv(cfg, Apply(cfg, s, run[0]), run[1..]);
    }
  }

  // ----- the theorems --------------------------------------------------------------------------

  /** The store starts without intents; mappings may already be there. */
  ghost predicate Reachable(cfg: Settings, mappings: map<string, int>, run: seq<Step>) {
    Runs(cfg, Init(World(mappings, map[])), run)
  }

  ghost function After(cfg: Settings, mappings: map<string, int>, run: seq<Step>): State
    requires Reachable(cfg, mappings, run)
  {
    Exec(cfg, Init(World(mappings, map[])), run)
  }

  lemma {:induction false} ReachableIsGood(cfg: Settings, mappings: map<string, int>, run: seq<Step>)
    requires Reachable(cfg, mappings, run)
    ensures Inv(cfg, After(cfg, mappings, run))
  {
    assert Inv(cfg, Init(World(mappings, map[])));
    RunKeepsInv(cfg, Init(World(mappings, map[])), run);
  }

  /**
   * Crash safety: whatever runs and stops, a recorded intent is still stored, or
   * its mapping has been in force since, or a conflict or a drop was decided for
   * it, or a newer intent of the same external user took its place.
   */
  lemma {:induction false} NoIntentIsLost(cfg: Settings, mappings: map<string, int>, run: seq<Step>, i: Intent)
    requires Reachable(cfg, mappings, run) && i in After(cfg, mappings, run).recorded
    ensures var s := After(cfg, mappings, run);
      IsStored(s, i) || i in s.linkedSince || i in s.conflicted || i in s.dropped || i in s.superseded
  {
    hide Exec;
    hide Runs;
    ReachableIsGood(cfg, mappings, run);
    var s := After(cfg, mappings, run);
    if i in s.consumed {
      assert Justified(cfg, s, i, s.consumed[i]);
    }
  }

  /** Each recorded intent is stored, superseded or consumed, and only one of these. */
  lemma {:induction false} IntentsAreConserved(cfg: Settings, mappings: map<string, int>, run: seq<Step>, i: Intent)
    requires Reachable(cfg, mappings, run) && i in After(cfg, mappings, run).recorded
    ensures var s := After(cfg, mappings, run);
      && (IsStored(s, i) || i in s.superseded || i in s.consumed)
      && !(IsStored(s, i) && i in s.superseded) && !(IsStored(s, i) && i in s.consumed)
      && !(i in s.superseded && i in s.consumed)
  {
    hide Exec;
    hide Runs;
    ReachableIsGood(cfg, mappings, run);
  }

  /** With the after-commit option, a commit's intent is consumed only after its side effect succeeded. */
  lemma {:induction false} SideEffectComesFirst(cfg: Settings, mappings: map<string, int>, run: seq<Step>, i: Intent)
    requires Reachable(cfg, mappings, run) && i in After(cfg, mappings, run).consumed
    ensures var s := After(cfg, mappings, run);
      var c := s.consumed[i];
      c.reason.AfterCommit? ==>
        && i in s.linkedSince
        && ((if c.kind.Completion? then cfg.completionKeeps else cfg.reconcileKeeps) ==> (i, c.kind) in s.sideEffects)
  {
    hide Exec;
    hide Runs;
    ReachableIsGood(cfg, mappings, run);
    var s := After(cfg, mappings, run);
    assert Justified(cfg, s, i, s.consumed[i]);
  }

  // ----- what the histories mean ----------------------------------------------------------------

  datatype Event =
    | WasRecorded(i: Intent)
    | WasSuperseded(i: Intent)
    | WasLinked(i: Intent)
    | WasDropped(i: Intent)
    | WasInConflict(i: Intent)
    | HadSideEffect(i: Intent, kind: Kind)
    | WasConsumed(i: Intent)

  predicate InHistory(s: State, e: Event) {
    match e
    case WasRecorded(i) => i in s.recorded
    case WasSuperseded(i) => i in s.superseded
    case WasLinked(i) => i in s.linkedSince
    case WasDropped(i) => i in s.dropped
    case WasInConflict(i) => i in s.conflicted
    case HadSideEffect(i, kind) => (i, kind) in s.sideEffects
    case WasConsumed(i) => i in s.consumed
  }

  /** What each of these takes, in terms of the step, its thread and the store. */
  predicate Happens(cfg: Settings, s: State, step: Step, e: Event)
    requires Enabled(s, step)
  {
    match e
    case WasRecorded(i) =>
      step.Record? && !step.stored.FailsToWork? && i == s.threads[step.id].intent.(generation := s.nextGeneration)
    case WasSuperseded(i) =>
      && step.Record? && !step.stored.FailsToWork?
      && var external := s.threads[step.id].intent.externalUserId;
         external in s.world.intents && s.world.intents[external] == i
    case WasLinked(i) =>
      var s' := Apply(cfg, s, step);
      i in s'.recorded && i.externalUserId in s'.world.mappings && s'.world.mappings[i.externalUserId] == i.userId
    case WasDropped(i) =>
      && step.Decide? && i == s.threads[step.id].intent
      && (step.now - i.verifiedAt >= cfg.reconcile.maxRecordAgeMs || Blocked(i, step.state, step.isFresh))
    case WasInConflict(i) =>
      && step.Upsert? && step.answer.OwnershipConflict? && i == s.threads[step.id].intent
      && (!step.again || s.threads[step.id].pc.left <= 1)
    case HadSideEffect(i, kind) =>
      step.SideEffect? && step.succeeds && i == s.threads[step.id].intent && kind == s.threads[step.id].kind
    case WasConsumed(i) =>
      step.ConsumeIntent? && !step.stored.FailsToWork? && i == s.threads[step.id].intent && IsStored(s, i)
  }

  ghost predicate Ever(cfg: Settings, s: State, run: seq<Step>, e: Event)
    requires Runs(cfg, s, run)
    decreases |run|
  {
    run != [] && (Happens(cfg, s, run[0], e) || Ever(cfg, Apply(cfg, s, run[0]), run[1..], e))
  }

  lemma {:induction false} LinkIsNoted(cfg: Settings, s: State, step: Step, i: Intent)
    requires Enabled(s, step)
    ensures InHistory(Apply(cfg, s, step), WasLinked(i)) <==>
      InHistory(s, WasLinked(i)) || Happens(cfg, s, step, WasLinked(i))
  {
    hide Blocked;
    hide Stale;
    hide Linked;
    assert Act(cfg, s, step).linkedSince == s.linkedSince;
    hide Act;
  }

  lemma {:induction false} StoreIsNoted(cfg: Settings, s: State, step: Step, e: Event)
    requires Enabled(s, step) && (e.WasRecorded? || e.WasSuperseded? || e.WasConsumed?)
    ensures InHistory(Apply(cfg, s, step), e) <==> InHistory(s, e) || Happens(cfg, s, step, e)
  {
    hide Blocked;
    hide Stale;
    hide Linked;
    hide Mapped;
  }

  lemma {:induction false} DecisionIsNoted(cfg: Settings, s: State, step: Step, e: Event)
    requires Enabled(s, step) && (e.WasDropped? || e.WasInConflict? || e.HadSideEffect?)
    ensures InHistory(Apply(cfg, s, step), e) <==> InHistory(s, e) || Happens(cfg, s, step, e)
  {
    hide Blocked;
    hide Linked;
    hide Mapped;
  }

  lemma {:induction false} StepIsNoted(cfg: Settings, s: State, step: Step, e: Event)
    requires Enabled(s, step)
    ensures InHistory(Apply(cfg, s, step), e) <==> InHistory(s, e) || Happens(cfg, s, step, e)
  {
    hide *;
    if e.WasLinked? {
      LinkIsNoted(cfg, s, step, e.i);
    } else if e.WasRecorded? || e.WasSuperseded? || e.WasConsumed? {
      StoreIsNoted(cfg, s, step, e);
    } else {
      DecisionIsNoted(cfg, s, step, e);
    }
  }

  /** What a state says of its past is exactly what happened on the way to it. */
  lemma {:induction false} HistoryIsTrue(cfg: Settings, s: State, run: seq<Step>, e: Event)
    requires Runs(cfg, s, run)
    ensures InHistory(Exec(cfg, s, run), e) <==> InHistory(s, e) || Ever(cfg, s, run, e)
    decreases |run|
  {
    hide Enabled;
    hide Apply;
    hide InHistory;
    hide Happens;
    if run != [] {
      StepIsNoted(cfg, s, run[0], e);
      HistoryIsTrue(cfg, Apply(cfg, s, run[0]), run[1..], e);
    }
  }

  /** What is decided against can be consumed next. */
  lemma {:induction false} DecidedAgainstIsConsumed(cfg: Settings, s: State, step: Step, i: Intent)
    requires Enabled(s, step) && IsStored(s, i)
    requires Happens(cfg, s, step, WasDropped(i)) || Happens(cfg, s, step, WasInConflict(i))
    ensures var s' := Apply(cfg, s, step);
      Enabled(s', ConsumeIntent(step.id, Works)) && !IsStored(Apply(cfg, s', ConsumeIntent(step.id, Works)), i)
  {
    hide Blocked;
  }

  // ----- how often is tried -----------------------------------------------------------------------

  function RecordsIn(run: seq<Step>, id: nat): nat {
    if run == [] then 0 else (if run[0].Record? && run[0].id == id then 1 else 0) + RecordsIn(run[1..], id)
  }

  function UpsertsIn(run: seq<Step>, id: nat): nat {
    if run == [] then 0 else (if run[0].Upsert? && run[0].id == id then 1 else 0) + UpsertsIn(run[1..], id)
  }

  /** The configured number of attempts, and at least one. */
  function MostTries(cfg: Settings, kind: Kind): nat {
    var n := if kind.Completion? then cfg.completionAttempts else cfg.reconcileAttempts;
    if n >= 1 then n else 1
  }

  /** The attempts at recording and at linking a thread may still make. */
  function RecordsLeft(t: Thread): nat {
    if t.pc.Recording? then t.pc.left else 0
  }

  function UpsertsLeft(cfg: Settings, t: Thread): nat {
    match t.pc
    case Upserting(left) => left
    case Recording(_) => MostTries(cfg, t.kind)
    case Finding => MostTries(cfg, t.kind)
    case Deciding => MostTries(cfg, t.kind)
    case _ => 0
  }

  /** Completions record, reconcile runs find and decide, and whoever tries has a try left. */
  predicate TryOk(t: Thread) {
    && (t.pc.Recording? ==> t.kind.Completion? && t.pc.left > 0)
    && (t.pc.Finding? || t.pc.Deciding? ==> t.kind.Reconcile?)
    && (t.pc.Upserting? ==> t.pc.left > 0)
  }

  predicate IsTrying(t: Thread) {
    t.pc.Recording? || t.pc.Finding? || t.pc.Deciding? || t.pc.Upserting?
  }

  /** From one state of a thread to a later one, with so many tries in between. */
  predicate Spends(cfg: Settings, t: Thread, t': Thread, records: nat, upserts: nat) {
    && t'.kind == t.kind && TryOk(t')
    && RecordsLeft(t') + records <= RecordsLeft(t) && UpsertsLeft(cfg, t') + upserts <= UpsertsLeft(cfg, t)
    && (t'.pc.Recording? ==> t.pc.Recording? && RecordsLeft(t') + records == RecordsLeft(t))
    && (IsTrying(t') ==> IsTrying(t) && UpsertsLeft(cfg, t') + upserts == UpsertsLeft(cfg, t))
  }

  lemma {:induction false} OtherThreadsStay(cfg: Settings, s: State, step: Step, id: nat)
    requires Enabled(s, step) && id in s.threads && (step.Unlink? || step.LinkElsewhere? || step.id != id)
    ensures var s' := Apply(cfg, s, step); id in s'.threads && s'.threads[id] == s.threads[id]
  {
    hide Blocked;
    hide Stale;
    hide Mapped;
    hide Linked;
  }

  lemma {:induction false} OwnStepSpendsTries(cfg: Settings, s: State, step: Step)
    requires Enabled(s, step) && !step.Unlink? && !step.LinkElsewhere?
    requires step.id in s.threads && TryOk(s.threads[step.id])
    ensures var s' := Apply(cfg, s, step);
      && step.id in s'.threads
      && Spends(
           cfg, s.threads[step.id], s'.threads[step.id], if step.Record? then 1 else 0, if step.Upsert? then 1 else 0)
  {
    hide Blocked;
    hide Stale;
    hide Mapped;
    hide Linked;
  }

  lemma {:induction false} StepSpendsTries(cfg: Settings, s: State, step: Step, id: nat)
    requires Enabled(s, step) && id in s.threads && TryOk(s.threads[id])
    ensures var s' := Apply(cfg, s, step);
      && id in s'.threads
      && Spends(cfg, s.threads[id], s'.threads[id], RecordsIn([step], id), UpsertsIn([step], id))
  {
    hide Apply;
    assert [step][1..] == [];
    if step.Unlink? || step.LinkElsewhere? || step.id != id {
      OtherThreadsStay(cfg, s, step, id);
    } else {
      OwnStepSpendsTries(cfg, s, step);
    }
  }

  lemma {:induction false} RunSpendsTries(cfg: Settings, s: State, run: seq<Step>, id: nat)
    requires Runs(cfg, s, run) && id in s.threads && TryOk(s.threads[id])
    ensures var s' := Exec(cfg, s, run);
      && id in s'.threads
      && Spends(cfg, s.threads[id], s'.threads[id], RecordsIn(run, id), UpsertsIn(run, id))
    decreases |run|
  {
    hide Enabled;
    hide Apply;
    hide RecordsLeft;
    hide UpsertsLeft;
    hide IsTrying;
    hide TryOk;
    if run != [] {
      StepSpendsTries(cfg, s, run[0], id);
      RunSpendsTries(cfg, Apply(cfg, s, run[0]), run[1..], id);
    }
  }

  /**
   * A thread never tries to record, or to link, more often than its kind is
   * configured to, and at least one try is allowed; as long as it goes on trying,
   * it has exactly what it has not used left.
   */
  lemma {:induction false} TriesAreCounted(cfg: Settings, s: State, start: Step, run: seq<Step>, id: nat)
    requires (start.Begin? || start.Pick?) && start.id == id
    requires Enabled(s, start) && Runs(cfg, Apply(cfg, s, start), run)
    ensures var s' := Exec(cfg, Apply(cfg, s, start), run);
      && id in s'.threads && s'.threads[id].kind == (if start.Begin? then Completion else Reconcile)
      && var most, pc := MostTries(cfg, s'.threads[id].kind), s'.threads[id].pc;
         && RecordsIn(run, id) <= most && UpsertsIn(run, id) <= most
         && (pc.Recording? ==> pc.left == most - RecordsIn(run, id))
         && (pc.Upserting? ==> pc.left == most - UpsertsIn(run, id))
  {
    RunSpendsTries(cfg, Apply(cfg, s, start), run, id);
  }

  /** A try that failed in passing is repeated exactly as long as there are tries left. */
  lemma {:induction false} FailedTryIsRepeated(cfg: Settings, s: State, start: Step, run: seq<Step>, step: Step)
    requires start.Begin? || start.Pick?
    requires Enabled(s, start) && Runs(cfg, Apply(cfg, s, start), run)
    requires var s' := Exec(cfg, Apply(cfg, s, start), run);
      Enabled(s', step) && ((step.Record? && !step.stored.Works?) || (step.Upsert? && !step.answer.Commits?))
    requires step.id == start.id && step.again
    ensures var s' := Exec(cfg, Apply(cfg, s, start), run);
      var after, most := Apply(cfg, s', step), MostTries(cfg, if start.Begin? then Completion else Reconcile);
      && step.id in after.threads
      && (step.Record? ==> (after.threads[step.id].pc.Recording? <==> RecordsIn(run, step.id) + 1 < most))
      && (step.Upsert? ==> (after.threads[step.id].pc.Upserting? <==> UpsertsIn(run, step.id) + 1 < most))
  {
    hide Exec;
    hide Runs;
    hide RecordsIn;
    hide UpsertsIn;
    hide MostTries;
    hide Linked;
    TriesAreCounted(cfg, s, start, run, step.id);
  }

  // ----- the way forward ---------------------------------------------------------------------

  lemma {:induction false} RunOn(cfg: Settings, s: State, step: Step, rest: seq<Step>)
    requires Enabled(s, step) && Runs(cfg, Apply(cfg, s, step), rest)
    ensures Runs(cfg, s, [step] + rest)
    ensures Exec(cfg, s, [step] + rest) == Exec(cfg, Apply(cfg, s, step), rest)
  {
    hide Apply;
    assert ([step] + rest)[1..] == rest;
  }

  predicate HasUpsert(run: seq<Step>) {
    exists k :: 0 <= k < |run| && run[k].Upsert?
  }

  /** The mapping stands, the side effect has run and the intent is gone. */
  predicate Finished(s: State, i: Intent, kind: Kind) {
    Mapped(s.world.mappings, i) && (i, kind) in s.sideEffects && !IsStored(s, i)
  }

  /** A thread whose mapping stands finishes in two more steps, and consumes the intent if it is still stored. */
  lemma {:induction false} CommitCanBeFinished(cfg: Settings, s: State, id: nat) returns (run: seq<Step>)
    requires id in s.threads && s.threads[id].pc == PcAfterCommit(cfg, s.threads[id].kind)
    requires Mapped(s.world.mappings, s.threads[id].intent)
    ensures Runs(cfg, s, run) && !HasUpsert(run)
    ensures var i, kind, after := s.threads[id].intent, s.threads[id].kind, Exec(cfg, s, run);
      && Finished(after, i, kind) && s.recorded <= after.recorded
      && (IsStored(s, i) ==> i in after.consumed && after.consumed[i] == Consumption(kind, AfterCommit))
  {
    var effect, consume, keeps := SideEffect(id, true), ConsumeIntent(id, Works), Keeps(cfg, s.threads[id].kind);
    var first := if keeps then effect else consume;
    var second := if keeps then consume else effect;
    var s1 := Apply(cfg, s, first);
    var s2 := Apply(cfg, s1, second);
    assert Runs(cfg, s2, []) && Exec(cfg, s2, []) == s2;
    RunOn(cfg, s1, second, []);
    RunOn(cfg, s, first, [second] + []);
    run := [first] + ([second] + []);
  }

  /** What a completion leaves behind: its mapping, its side effect, and no intent. */
  lemma {:induction false} LinkCanBeCompleted(
      cfg: Settings, s: State, id: nat, externalUserId: string, userId: int, verifiedAt: int)
    returns (run: seq<Step>, i: Intent)
    requires id !in s.threads
    ensures Runs(cfg, s, run) && i == Intent(externalUserId, userId, s.nextGeneration, verifiedAt)
    ensures var after := Exec(cfg, s, run);
      && i in after.recorded && Finished(after, i, Completion)
      && i in after.consumed && after.consumed[i] == Consumption(Completion, AfterCommit)
  {
    hide Finished;
    i := Intent(externalUserId, userId, s.nextGeneration, verifiedAt);
    var begin, record, upsert :=
      Begin(id, externalUserId, userId, verifiedAt), Record(id, Works, false), Upsert(id, Commits, false);
    var s1 := Apply(cfg, s, begin);
    var s2 := Apply(cfg, s1, record);
    LinkedMaps(s2.world.mappings, i);
    var s3 := Apply(cfg, s2, upsert);
    var rest := CommitCanBeFinished(cfg, s3, id);
    hide Apply;
    RunOn(cfg, s2, upsert, rest);
    RunOn(cfg, s1, record, [upsert] + rest);
    RunOn(cfg, s, begin, [record] + ([upsert] + rest));
    run := [begin] + ([record] + ([upsert] + rest));
  }

  /** A mapping that was in force since may be gone again: the learner unlinks, or links another id. */
  lemma {:induction false} MappingMayGoAgain(cfg: Settings, s: State, i: Intent, elsewhere: string)
    requires i in s.linkedSince && Mapped(s.world.mappings, i) && elsewhere != i.externalUserId
    ensures forall step :: step in [Unlink(i.externalUserId), LinkElsewhere(elsewhere, i.userId)] ==>
      Enabled(s, step) && var after := Apply(cfg, s, step); i in after.linkedSince && !Mapped(after.world.mappings, i)
  {
  }

  /**
   * A stored intent is never stuck: from any state, one reconcile run whose ports
   * work finishes it, unless it is too old or blocked; and if its mapping already
   * stands, without another upsert.
   */
  lemma {:induction false} StoredIntentCanBeFinished(
      cfg: Settings, s: State, i: Intent, id: nat, now: int, state: Option<LinkState>, isFresh: bool)
    returns (run: seq<Step>)
    requires IsStored(s, i) && id !in s.threads
    requires now - i.verifiedAt < cfg.reconcile.maxRecordAgeMs && !Blocked(i, state, isFresh)
    ensures Runs(cfg, s, run) && Finished(Exec(cfg, s, run), i, Reconcile)
    ensures HasUpsert(run) <==> !Mapped(s.world.mappings, i)
  {
    hide Blocked;
    hide Finished;
    var pick, find := Pick(id, i.externalUserId), Find(id);
    var s1 := Apply(cfg, s, pick);
    var s2 := Apply(cfg, s1, find);
    var rest;
    if Mapped(s.world.mappings, i) {
      rest := CommitCanBeFinished(cfg, s2, id);
    } else {
      rest := UnmappedCanBeFinished(cfg, s2, id, now, state, isFresh);
    }
    RunOn(cfg, s1, find, rest);
    RunOn(cfg, s, pick, [find] + rest);
    run := [pick] + ([find] + rest);
    PrefixedUpsert(pick, [find] + rest);
    PrefixedUpsert(find, rest);
  }

  lemma {:induction false} PrefixedUpsert(step: Step, rest: seq<Step>)
    ensures HasUpsert([step] + rest) <==> step.Upsert? || HasUpsert(rest)
  {
    var run := [step] + rest;
    assert run[0] == step && forall k :: 0 <= k < |rest| ==> run[k + 1] == rest[k];
  }

  lemma {:induction false} UnmappedCanBeFinished(
      cfg: Settings, s: State, id: nat, now: int, state: Option<LinkState>, isFresh: bool) returns (run: seq<Step>)
    requires id in s.threads && s.threads[id].kind.Reconcile? && s.threads[id].pc.Deciding?
    requires !Stale(cfg.reconcile, s.threads[id].intent, now) && !Blocked(s.threads[id].intent, state, isFresh)
    ensures Runs(cfg, s, run) && Finished(Exec(cfg, s, run), s.threads[id].intent, Reconcile)
    ensures HasUpsert(run)
  {
    hide Stale;
    hide Blocked;
    hide Finished;
    var decide, upsert := Decide(id, now, state, isFresh), Upsert(id, Commits, false);
    var s1 := Apply(cfg, s, decide);
    LinkedMaps(s1.world.mappings, s.threads[id].intent);
    var s2 := Apply(cfg, s1, upsert);
    var rest := CommitCanBeFinished(cfg, s2, id);
    RunOn(cfg, s1, upsert, rest);
    RunOn(cfg, s, decide, [upsert] + rest);
    run := [decide] + ([upsert] + rest);
    assert run[1] == upsert;
  }
}
