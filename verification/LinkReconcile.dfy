/**
 * The reconcile cron of account linking: it works through verified link intents
 * that never became mappings. Every port and every observer may throw.
 */
module LinkReconcile {
  import opened Prelude

  datatype LinkState = Active | ConfirmedRevoked | TemporarilyUnknown | LocallyUnlinked(revokedAt: Option<int>)

  /** A verified intent; `generation` tells it from later intents of the same external user. */
  datatype Intent = Intent(externalUserId: string, userId: int, generation: nat, verifiedAt: int)

  datatype World = World(mappings: map<string, int>, intents: map<string, Intent>)

  datatype Config = Config(maxRecordAgeMs: int, maxRecords: int, maxAttempts: int, consumeLast: bool)

  // ----- ports ---------------------------------------------------------------------------

  predicate Mapped(mappings: map<string, int>, record: Intent) {
    record.externalUserId in mappings && mappings[record.externalUserId] == record.userId
  }

  /** A learner has one active mapping: linking displaces the learner's other external ids. */
  function Linked(mappings: map<string, int>, externalUserId: string, userId: int): map<string, int> {
    (map e | e in mappings && mappings[e] != userId :: mappings[e])[externalUserId := userId]
  }

  /** Only the very intent named is removed, not a newer one. */
  function Consumed(intents: map<string, Intent>, record: Intent): map<string, Intent> {
    if record.externalUserId in intents && intents[record.externalUserId] == record
    then intents - {record.externalUserId}
    else intents
  }

  datatype UpsertAnswer =
    | Commits
    | CommitsButThrows(abort: bool)
    | Fails(abort: bool)
    | OwnershipConflict

  predicate TakesEffect(answer: UpsertAnswer) {
    answer.Commits? || answer.CommitsButThrows?
  }

  /** The default: an abort or a conflict is final. */
  predicate Retryable(answer: UpsertAnswer) {
    (answer.CommitsButThrows? || answer.Fails?) && !answer.abort
  }

  datatype ConsumeAnswer = Removes | RemovesButThrows | KeepsAndThrows

  /** How the ports and observers behave while one record is handled. */
  datatype Env = Env(
    now: int,
    findThrows: bool,
    clarificationHookThrows: bool,
    stateThrows: bool,
    state: Option<LinkState>,
    freshThrows: bool,
    isFresh: bool,
    upserts: seq<UpsertAnswer>,
    consume: ConsumeAnswer,
    sideEffectThrows: bool,
    sideEffectHookThrows: bool,
    onMismatchThrows: bool,
    onDroppedThrows: bool,
    onOutcomeThrows: bool,
    onFailedThrows: bool)

  /** The answer to the i-th upsert; past the list the port works. */
  function AnswerAt(answers: seq<UpsertAnswer>, i: nat): UpsertAnswer {
    if i < |answers| then answers[i] else Commits
  }

  // ----- retry -----------------------------------------------------------------------------

  function Attempts(maxAttempts: int): nat {
    if maxAttempts < 1 then 1 else maxAttempts
  }

  /** An error that is no abort: whether the upsert took effect is not known. */
  predicate IsPassing(answer: UpsertAnswer) {
    answer in {Fails(false), CommitsButThrows(false)}
  }

  /** All answers but the last were passing errors, and so was the last only if the attempts were used up. */
  predicate TriedInOrder(answers: seq<UpsertAnswer>, tries: nat, maxAttempts: int) {
    && (tries <= maxAttempts || tries <= 1)
    && (forall i :: 0 <= i < tries - 1 ==> IsPassing(AnswerAt(answers, i)))
    && (tries > 0 && IsPassing(AnswerAt(answers, tries - 1)) ==> tries >= maxAttempts)
  }

  /** Tries until an answer is final or the attempts are used up, and never longer. */
  method Retry(answers: seq<UpsertAnswer>, maxAttempts: int) returns (tries: nat)
    ensures 1 <= tries <= Attempts(maxAttempts)
    ensures TriedInOrder(answers, tries, maxAttempts)
  {
    tries := 1;
    while Retryable(AnswerAt(answers, tries - 1)) && tries < Attempts(maxAttempts)
      invariant 1 <= tries <= Attempts(maxAttempts)
      invariant forall i :: 0 <= i < tries - 1 ==> Retryable(AnswerAt(answers, i))
    {
      tries := tries + 1;
    }
  }

  /** One of the first `tries` upserts changed the mapping. */
  predicate AnyEffect(answers: seq<UpsertAnswer>, tries: nat) {
    exists i :: 0 <= i < tries && TakesEffect(AnswerAt(answers, i))
  }

  // ----- decisions -----------------------------------------------------------------------------

  predicate Stale(cfg: Config, record: Intent, now: int) {
    now - record.verifiedAt >= cfg.maxRecordAgeMs
  }

  /** The state alone blocks, whatever the freshness lookup says. */
  predicate BlockedOutright(record: Intent, state: LinkState) {
    || state.ConfirmedRevoked?
    || (state.LocallyUnlinked? && state.revokedAt.Some? && record.verifiedAt <= state.revokedAt.value)
  }

  /** Whether the freshness of the relink has to be looked up. */
  predicate AsksFreshness(record: Intent, state: Option<LinkState>) {
    state.Some? && !state.value.Active? && !BlockedOutright(record, state.value)
  }

  predicate Blocked(record: Intent, state: Option<LinkState>, isFresh: bool) {
    state.Some? && (BlockedOutright(record, state.value) || (AsksFreshness(record, state) && !isFresh))
  }

  /**
   * An intent from before a revocation never passes; without a state, or with an
   * active one, every intent does; and neither a later verification nor a fresher
   * relink is ever worse off.
   */
  lemma {:induction false} RevocationBlocksEarlierIntents(
      record: Intent, state: Option<LinkState>, isFresh: bool, later: Intent, fresher: bool)
    requires record.verifiedAt <= later.verifiedAt && (isFresh ==> fresher)
    ensures state.None? || state == Some(Active) ==> !Blocked(record, state, isFresh)
    ensures state == Some(ConfirmedRevoked) ==> Blocked(record, state, isFresh)
    ensures state == Some(TemporarilyUnknown) || state == Some(LocallyUnlinked(None)) ==>
      (Blocked(record, state, isFresh) <==> !isFresh)
    ensures forall at :: state == Some(LocallyUnlinked(Some(at))) ==>
      (Blocked(record, state, isFresh) <==> record.verifiedAt <= at || !isFresh)
    ensures Blocked(later, state, fresher) ==> Blocked(record, state, isFresh)
  {
  }

  /** The record gets as far as the upsert: not yet mapped, younger than the maximum age, not blocked. */
  predicate ReachesUpsert(cfg: Config, before: World, record: Intent, env: Env) {
    && !env.findThrows && !Mapped(before.mappings, record) && env.now - record.verifiedAt < cfg.maxRecordAgeMs
    && !env.stateThrows && (AsksFreshness(record, env.state) ==> !env.freshThrows)
    && !Blocked(record, env.state, env.isFresh)
  }

  /** The record is to be dropped: not mapped, and too old or blocked. */
  predicate ReachesDrop(cfg: Config, before: World, record: Intent, env: Env) {
    && !env.findThrows && !Mapped(before.mappings, record)
    && ( || env.now - record.verifiedAt >= cfg.maxRecordAgeMs
         || (&& !env.stateThrows && (AsksFreshness(record, env.state) ==> !env.freshThrows)
             && Blocked(record, env.state, env.isFresh)) )
  }

  // ----- one record -----------------------------------------------------------------------------

  datatype Outcome = Reconciled | AlreadyCommitted | Dropped | Mismatched

  /** After a commit: clarification, side effect and consumption all go through. */
  predicate FinishesCommit(cfg: Config, env: Env) {
    && !env.clarificationHookThrows && env.consume.Removes?
    && (env.sideEffectThrows ==> !env.sideEffectHookThrows && !cfg.consumeLast)
  }

  /** What handling one record may do; no outcome means it threw before it was counted. */
  ghost predicate Handled(
      cfg: Config, before: World, record: Intent, env: Env, outcome: Option<Outcome>, tries: nat, after: World) {
    && tries <= Attempts(cfg.maxAttempts) && TriedInOrder(env.upserts, tries, cfg.maxAttempts)
    && (tries > 0 <==> ReachesUpsert(cfg, before, record, env))
    && after.mappings
       == (if AnyEffect(env.upserts, tries) then Linked(before.mappings, record.externalUserId, record.userId)
           else before.mappings)
    && (after.intents == before.intents || after.intents == Consumed(before.intents, record))
    && (outcome.Some? ==> after.intents == Consumed(before.intents, record))
    && (env.consume.KeepsAndThrows? ==> after.intents == before.intents)
    && (outcome == Some(AlreadyCommitted) <==>
          !env.findThrows && Mapped(before.mappings, record) && FinishesCommit(cfg, env))
    && (Mapped(before.mappings, record) ==> outcome.None? || outcome.value.AlreadyCommitted?)
    && (outcome == Some(Dropped) <==>
          && ReachesDrop(cfg, before, record, env)
          && !env.onDroppedThrows && env.consume.Removes? && !env.onOutcomeThrows)
    && (outcome == Some(Reconciled) <==>
          tries > 0 && AnswerAt(env.upserts, tries - 1).Commits? && FinishesCommit(cfg, env))
    && (outcome == Some(Mismatched) <==>
          && tries > 0 && AnswerAt(env.upserts, tries - 1).OwnershipConflict? && env.consume.Removes?
          && (record.externalUserId in before.mappings ==> !env.onMismatchThrows))
  }

  /**
   * An intent leaves the store only for a reason: its mapping stands, or it is to
   * be dropped, or the mapping belongs to someone else. With `consumeLast` a
   * standing mapping is a reason only once the side effect has succeeded.
   */
  ghost predicate ConsumedForReason(
      cfg: Config, before: World, record: Intent, env: Env, tries: nat, after: World) {
    after.intents != before.intents ==>
      || ReachesDrop(cfg, before, record, env)
      || (tries > 0 && AnswerAt(env.upserts, tries - 1).OwnershipConflict?)
      || (Mapped(after.mappings, record) && (cfg.consumeLast ==> !env.sideEffectThrows))
  }

  /** `consumeRecord`; `ok` is false when it throws. */
  method Consume(world: World, record: Intent, answer: ConsumeAnswer) returns (after: World, ok: bool)
    ensures ok <==> answer.Removes?
    ensures after.mappings == world.mappings
    ensures after.intents == if answer.KeepsAndThrows? then world.intents else Consumed(world.intents, record)
  {
    after := if answer.KeepsAndThrows? then world else world.(intents := Consumed(world.intents, record));
    ok := answer.Removes?;
  }

  /** What follows a standing mapping, in the order the option asks for. */
  method Finish(cfg: Config, world: World, record: Intent, env: Env) returns (after: World, ok: bool)
    ensures ok <==> FinishesCommit(cfg, env)
    ensures after.mappings == world.mappings
    ensures after.intents == world.intents || after.intents == Consumed(world.intents, record)
    ensures env.consume.KeepsAndThrows? ==> after.intents == world.intents
    ensures ok ==> after.intents == Consumed(world.intents, record)
    ensures cfg.consumeLast && env.sideEffectThrows ==> after.intents == world.intents
  {
    after, ok := world, false;
    if env.clarificationHookThrows {
      return;
    }
    if !cfg.consumeLast {
      after, ok := Consume(after, record, env.consume);
      if !ok {
        return;
      }
    }
    if env.sideEffectThrows && (env.sideEffectHookThrows || cfg.consumeLast) {
      return after, false;
    }
    ok := true;
    if cfg.consumeLast {
      after, ok := Consume(after, record, env.consume);
    }
  }

  method Drop(cfg: Config, world: World, record: Intent, env: Env) returns (after: World, ok: bool)
    ensures ok <==> !env.onDroppedThrows && env.consume.Removes? && !env.onOutcomeThrows
    ensures after.mappings == world.mappings
    ensures after.intents == world.intents || after.intents == Consumed(world.intents, record)
    ensures env.consume.KeepsAndThrows? ==> after.intents == world.intents
    ensures ok ==> after.intents == Consumed(world.intents, record)
  {
    if env.onDroppedThrows {
      return world, false;
    }
    after, ok := Consume(world, record, env.consume);
    ok := ok && !env.onOutcomeThrows;
  }

  method Link(cfg: Config, world: World, record: Intent, env: Env)
    returns (after: World, outcome: Option<Outcome>, tries: nat)
    requires ReachesUpsert(cfg, world, record, env)
    ensures Handled(cfg, world, record, env, outcome, tries, after)
    ensures ConsumedForReason(cfg, world, record, env, tries, after)
  {
    tries := Retry(env.upserts, cfg.maxAttempts);
    after := world;
    if AnyEffect(env.upserts, tries) {
      after := after.(mappings := Linked(after.mappings, record.externalUserId, record.userId));
    }
    var answer := AnswerAt(env.upserts, tries - 1);
    var ok;
    if answer.OwnershipConflict? {
      if record.externalUserId in world.mappings && env.onMismatchThrows {
        return after, None, tries;
      }
      after, ok := Consume(after, record, env.consume);
      return after, if ok then Some(Mismatched) else None, tries;
    }
    if !answer.Commits? {
      return after, None, tries;
    }
    after, ok := Finish(cfg, after, record, env);
    outcome := if ok then Some(Reconciled) else None;
  }

  method TryRecord(cfg: Config, world: World, record: Intent, env: Env)
    returns (after: World, outcome: Option<Outcome>, tries: nat)
    ensures Handled(cfg, world, record, env, outcome, tries, after)
    ensures ConsumedForReason(cfg, world, record, env, tries, after)
  {
    if env.findThrows {
      return world, None, 0;
    }
    var ok;
    if Mapped(world.mappings, record) {
      after, ok := Finish(cfg, world, record, env);
      return after, if ok then Some(AlreadyCommitted) else None, 0;
    }
    if Stale(cfg, record, env.now) {
      after, ok := Drop(cfg, world, record, env);
      return after, if ok then Some(Dropped) else None, 0;
    }
    if env.stateThrows || (AsksFreshness(record, env.state) && env.freshThrows) {
      return world, None, 0;
    }
    if Blocked(record, env.state, env.isFresh) {
      after, ok := Drop(cfg, world, record, env);
      return after, if ok then Some(Dropped) else None, 0;
    }
    after, outcome, tries := Link(cfg, world, record, env);
  }

  /** The ports answer, and neither they nor the observers throw. */
  predicate NothingThrows(env: Env) {
    && !env.findThrows && !env.clarificationHookThrows && !env.stateThrows && !env.freshThrows
    && (forall i :: 0 <= i < |env.upserts| ==> env.upserts[i].Commits?)
    && env.consume.Removes? && !env.sideEffectThrows && !env.onDroppedThrows && !env.onOutcomeThrows
  }

  /**
   * Age decides, in plain numbers: while nothing throws, an unblocked intent without
   * a mapping is linked, by one upsert, exactly if it is younger than the maximum
   * age; otherwise it is dropped untried. Either way it is consumed.
   */
  lemma {:induction false} AgeDecides(
      cfg: Config, world: World, record: Intent, env: Env, outcome: Option<Outcome>, tries: nat, after: World)
    requires Handled(cfg, world, record, env, outcome, tries, after)
    requires NothingThrows(env) && !Mapped(world.mappings, record) && !Blocked(record, env.state, env.isFresh)
    ensures env.now < record.verifiedAt + cfg.maxRecordAgeMs ==>
      outcome == Some(Reconciled) && tries == 1 && Mapped(after.mappings, record)
    ensures env.now >= record.verifiedAt + cfg.maxRecordAgeMs ==>
      outcome == Some(Dropped) && tries == 0 && after.mappings == world.mappings
    ensures after.intents == Consumed(world.intents, record)
  {
    if tries > 0 {
      assert TakesEffect(AnswerAt(env.upserts, 0)) && !IsPassing(AnswerAt(env.upserts, 0));
    }
  }

  /**
   * Linking gives the external id to the learner and takes all the learner's other
   * ids away; the other learners keep theirs, but for that id.
   */
  lemma {:induction false} LinkingIsExclusive(mappings: map<string, int>, externalUserId: string, userId: int)
    ensures var after := Linked(mappings, externalUserId, userId);
      && (forall e :: e in after && after[e] == userId <==> e == externalUserId)
      && (forall e :: e != externalUserId && e in mappings && mappings[e] != userId <==>
            e != externalUserId && e in after)
      && (forall e :: e != externalUserId && e in after ==> after[e] == mappings[e])
  {
  }

  /**
   * A commit whose record could not be consumed is finished by the next run, at
   * whichever attempt it was made and even if its reply was lost: that run finds
   * the mapping, makes no second upsert, and counts `already_committed` exactly
   * when nothing throws.
   */
  method RerunAfterCommit(cfg: Config, world: World, record: Intent, first: Env, second: Env, ghost i: nat)
    returns (between: World, after: World, outcome: Option<Outcome>, tries: nat)
    requires ReachesUpsert(cfg, world, record, first)
    requires i < Attempts(cfg.maxAttempts) && TakesEffect(AnswerAt(first.upserts, i))
    requires forall j :: 0 <= j < i ==> Retryable(AnswerAt(first.upserts, j))
    requires first.consume.KeepsAndThrows?
    ensures Mapped(between.mappings, record) && between.intents == world.intents
    ensures tries == 0 && after.mappings == between.mappings
    ensures outcome == Some(AlreadyCommitted) <==> !second.findThrows && FinishesCommit(cfg, second)
    ensures outcome.Some? ==> outcome == Some(AlreadyCommitted) && after.intents == Consumed(world.intents, record)
  {
    var ignored, ran;
    between, ignored, ran := TryRecord(cfg, world, record, first);
    assert i < ran && TakesEffect(AnswerAt(first.upserts, i));
    after, outcome, tries := TryRecord(cfg, between, record, second);
  }

  // ----- a batch ----------------------------------------------------------------------------------

  datatype Tally = Tally(
    records: nat, reconciled: nat, alreadyCommitted: nat, dropped: nat, mismatched: nat, failed: nat)

  function Sum(t: Tally): nat {
    t.reconciled + t.alreadyCommitted + t.dropped + t.mismatched + t.failed
  }

  function Bump(t: Tally, outcome: Outcome): Tally {
    match outcome
    case Reconciled => t.(reconciled := t.reconciled + 1)
    case AlreadyCommitted => t.(alreadyCommitted := t.alreadyCommitted + 1)
    case Dropped => t.(dropped := t.dropped + 1)
    case Mismatched => t.(mismatched := t.mismatched + 1)
  }

  datatype Job = Job(record: Intent, env: Env)

  /** How one job went, for the record. */
  datatype Trial = Trial(before: World, outcome: Option<Outcome>, tries: nat, after: World)

  /** The outcome observer threw after the record was counted. */
  predicate ThrewLate(job: Job, trial: Trial) {
    trial.outcome.Some? && !trial.outcome.value.Dropped? && job.env.onOutcomeThrows
  }

  function Count(trials: seq<Trial>, outcome: Option<Outcome>): nat {
    if trials == [] then 0
    else Count(trials[..|trials| - 1], outcome) + (if trials[|trials| - 1].outcome == outcome then 1 else 0)
  }

  function LateThrows(jobs: seq<Job>, trials: seq<Trial>): nat
    requires |trials| <= |jobs|
  {
    if trials == [] then 0
    else
      var last := |trials| - 1;
      LateThrows(jobs, trials[..last]) + (if ThrewLate(jobs[last], trials[last]) then 1 else 0)
  }

  /** Each trial starts where the one before it ended and follows the rules for one record. */
  ghost predicate Chained(cfg: Config, world: World, jobs: seq<Job>, trials: seq<Trial>)
    requires |trials| <= |jobs|
  {
    forall k :: 0 <= k < |trials| ==>
      trials[k].before == EndOf(world, trials[..k]) && TrialOk(cfg, jobs[k], trials[k])
  }

  /** The counters as the trials make them. */
  predicate Tallied(jobs: seq<Job>, trials: seq<Trial>, t: Tally)
    requires |trials| <= |jobs|
  {
    && t.records == |jobs|
    && t.reconciled == Count(trials, Some(Reconciled)) && t.alreadyCommitted == Count(trials, Some(AlreadyCommitted))
    && t.dropped == Count(trials, Some(Dropped)) && t.mismatched == Count(trials, Some(Mismatched))
    && t.failed == Count(trials, None) + LateThrows(jobs, trials)
  }

  lemma {:induction false} AddTrial(jobs: seq<Job>, trials: seq<Trial>, trial: Trial, before: Tally, after: Tally)
    requires |trials| < |jobs| && Tallied(jobs, trials, before)
    requires var counted := if trial.outcome.Some? then Bump(before, trial.outcome.value) else before;
      after == if trial.outcome.None? || ThrewLate(jobs[|trials|], trial)
               then counted.(failed := counted.failed + 1) else counted
    ensures Tallied(jobs, trials + [trial], after)
  {
    assert (trials + [trial])[..|trials|] == trials;
  }

  ghost predicate TrialOk(cfg: Config, job: Job, trial: Trial) {
    && Handled(cfg, trial.before, job.record, job.env, trial.outcome, trial.tries, trial.after)
    && ConsumedForReason(cfg, trial.before, job.record, job.env, trial.tries, trial.after)
  }

  ghost function EndOf(world: World, trials: seq<Trial>): World {
    if trials == [] then world else trials[|trials| - 1].after
  }

  lemma {:induction false} ChainOn(cfg: Config, world: World, jobs: seq<Job>, trials: seq<Trial>, trial: Trial)
    requires |trials| < |jobs| && Chained(cfg, world, jobs, trials)
    requires trial.before == EndOf(world, trials) && TrialOk(cfg, jobs[|trials|], trial)
    ensures Chained(cfg, world, jobs, trials + [trial])
  {
    hide TrialOk;
    var longer := trials + [trial];
    forall k | 0 <= k < |longer|
      ensures longer[k].before == EndOf(world, longer[..k]) && TrialOk(cfg, jobs[k], longer[k])
    {
      if k < |trials| {
        assert longer[..k] == trials[..k];
      } else {
        assert longer[..k] == trials;
      }
    }
  }

  /** Every trial has an outcome or none. */
  lemma {:induction false} CountsPartition(jobs: seq<Job>, trials: seq<Trial>, t: Tally)
    requires |trials| <= |jobs| && Tallied(jobs, trials, t)
    ensures Sum(t) == |trials| + LateThrows(jobs, trials) && t.records == |jobs|
  {
    CountsCover(trials);
  }

  lemma {:induction false} CountsCover(trials: seq<Trial>)
    ensures Count(trials, Some(Reconciled)) + Count(trials, Some(AlreadyCommitted)) + Count(trials, Some(Dropped))
         + Count(trials, Some(Mismatched)) + Count(trials, None) == |trials|
  {
    if trials != [] {
      CountsCover(trials[..|trials| - 1]);
      var last := trials[|trials| - 1].outcome;
      if last.Some? {
        match last.value {
          case Reconciled =>
          case AlreadyCommitted =>
          case Dropped =>
          case Mismatched =>
        }
      }
    }
  }

  lemma {:induction false} NoLateThrows(jobs: seq<Job>, trials: seq<Trial>)
    requires |trials| <= |jobs|
    ensures LateThrows(jobs, trials) == 0 <==> forall k :: 0 <= k < |trials| ==> !ThrewLate(jobs[k], trials[k])
  {
    if trials != [] {
      NoLateThrows(jobs, trials[..|trials| - 1]);
      var front := trials[..|trials| - 1];
      assert forall k :: 0 <= k < |front| ==> front[k] == trials[k];
    }
  }

  lemma {:induction false} NothingTried(cfg: Config, world: World, jobs: seq<Job>)
    ensures Chained(cfg, world, jobs, []) && Tallied(jobs, [], Tally(|jobs|, 0, 0, 0, 0, 0))
  {
  }

  /** `slice(0, n)`: a negative `n` leaves that many off the end. */
  function FirstOf(jobs: seq<Job>, n: int): seq<Job> {
    if n >= |jobs| then jobs
    else if n >= 0 then jobs[..n]
    else if |jobs| + n >= 0 then jobs[..|jobs| + n]
    else []
  }

  /**
   * Each handled record lands in exactly one counter, and the counters sum to
   * `records` exactly when no observer throws after its record was counted: such
   * a throw counts the record a second time, as failed. An error thrown while
   * reporting a failure escapes, and there is no result. `trials` keeps the record
   * of what was done.
   */
  method RunBatch(cfg: Config, world: World, listed: seq<Job>)
    returns (result: Option<Tally>, after: World, trials: seq<Trial>)
    ensures |trials| <= |FirstOf(listed, cfg.maxRecords)|
    ensures Chained(cfg, world, FirstOf(listed, cfg.maxRecords), trials)
    ensures after == EndOf(world, trials)
    ensures result.Some? ==> |trials| == |FirstOf(listed, cfg.maxRecords)|
    ensures result.Some? ==> Tallied(FirstOf(listed, cfg.maxRecords), trials, result.value)
    ensures result.Some? ==>
      (Sum(result.value) == result.value.records <==>
        forall k :: 0 <= k < |trials| ==> !ThrewLate(FirstOf(listed, cfg.maxRecords)[k], trials[k]))
    ensures result.None? <==>
      && trials != []
      && var job, trial := FirstOf(listed, cfg.maxRecords)[|trials| - 1], trials[|trials| - 1];
         job.env.onFailedThrows && (trial.outcome.None? || ThrewLate(job, trial))
  {
    hide Handled;
    hide ConsumedForReason;
    hide Chained;
    hide Tallied;
    hide Count;
    var jobs := FirstOf(listed, cfg.maxRecords);
    var t := Tally(|jobs|, 0, 0, 0, 0, 0);
    after, trials := world, [];
    NothingTried(cfg, world, jobs);
    var i := 0;
    while i < |jobs|
      invariant 0 <= i == |trials| <= |jobs|
      invariant Chained(cfg, world, jobs, trials)
      invariant Tallied(jobs, trials, t)
      invariant after == EndOf(world, trials)
      invariant trials != [] ==>
        !(jobs[i - 1].env.onFailedThrows && (trials[i - 1].outcome.None? || ThrewLate(jobs[i - 1], trials[i - 1])))
    {
      var job := jobs[i];
      var outcome, tries;
      var before := after;
      ghost var sofar := t;
      after, outcome, tries := TryRecord(cfg, after, job.record, job.env);
      var trial := Trial(before, outcome, tries, after);
      var failed := outcome.None?;
      if outcome.Some? {
        t := Bump(t, outcome.value);
        failed := !outcome.value.Dropped? && job.env.onOutcomeThrows;
      }
      if failed {
        t := t.(failed := t.failed + 1);
      }
      AddTrial(jobs, trials, trial, sofar, t);
      ChainOn(cfg, world, jobs, trials, trial);
      trials := trials + [trial];
      if failed && job.env.onFailedThrows {
        return None, after, trials;
      }
      i := i + 1;
    }
    CountsPartition(jobs, trials, t);
    NoLateThrows(jobs, trials);
    result := Some(t);
  }
}
