/**
 * Reports on one confirmation message as a transition system. A learner's tap
 * gets a reply and reports how that went; the recovery cron lists what is due,
 * delivers it again and reports too. Listing, delivering, looking the record up
 * and marking it are separate awaits, and any number of taps and cron runs
 * interleave at them. Any of them may stop for good at any await.
 */
module NotifyRuns {
  import opened Prelude
  import opened RescheduleNotify

  /**
   * What lies between a report's look-up and its mark. The in-memory store hands
   * out its live record, so nothing does (`Live`). A store may raise the count in
   * the statement that marks (`Counting`). The SQL store reads the count once more
   * and writes it, plus one, in a later statement (`Rereading`).
   */
  datatype Store = Live | Counting | Rereading

  /** `locked`: cron runs exclude each other. */
  datatype Config = Config(locked: bool, store: Store)

  datatype Kind = Tap | Cron

  /** What a report found, and how many reports had been marked by then. */
  datatype Look = Look(outcome: Outcome, found: nat, foundAt: nat)

  datatype Pc =
    | Listed
    | Reporting(outcome: Outcome)
    | Marking(look: Look)
    | Writing(look: Look, read: nat, readAt: nat)
    | Done

  /** `listedAt` is how many reports had been marked when a cron listed the record. */
  datatype Thread = Thread(kind: Kind, now: int, listedAt: nat, pc: Pc)

  /** A mark that was made. */
  datatype Report = Report(kind: Kind, now: int, look: Look, readAt: nat, count: nat)

  /** The fields from `reports` on only look back at the run. */
  datatype State = State(record: AttemptRecord, threads: map<nat, Thread>, reports: seq<Report>, sends: nat, lost: nat)

  datatype Step =
    | Tapped(id: nat, outcome: Outcome, now: int)
    | List(id: nat, now: int)
    | Deliver(id: nat, outcome: Outcome)
    | Find(id: nat)
    | ReadCount(id: nat)
    | Land(id: nat)
    | Stop(id: nat)

  function Start(r: AttemptRecord): State {
    State(r, map[], [], 0, 0)
  }

  predicate CronFree(cfg: Config, s: State) {
    cfg.locked ==> forall id :: id in s.threads && s.threads[id].kind.Cron? ==> s.threads[id].pc.Done?
  }

  predicate Enabled(cfg: Config, s: State, step: Step) {
    match step
    case Tapped(id, _, _) => id !in s.threads
    case List(id, now) => id !in s.threads && s.record.confirmed && IsDue(s.record, now) && CronFree(cfg, s)
    case Deliver(id, _) => id in s.threads && s.threads[id].pc.Listed?
    case Find(id) => id in s.threads && s.threads[id].pc.Reporting?
    case ReadCount(id) => id in s.threads && s.threads[id].pc.Marking? && cfg.store.Rereading?
    case Land(id) =>
      id in s.threads && (s.threads[id].pc.Writing? || (s.threads[id].pc.Marking? && !cfg.store.Rereading?))
    case Stop(id) => id in s.threads && !s.threads[id].pc.Done?
  }

  function Goto(s: State, id: nat, pc: Pc): State
    requires id in s.threads
  {
    s.(threads := s.threads[id := s.threads[id].(pc := pc)])
  }

  /** A cron that has sent and not marked yet. */
  predicate InFlight(t: Thread) {
    t.kind.Cron? && !t.pc.Listed? && !t.pc.Done?
  }

  function Stopped(s: State, id: nat): State
    requires id in s.threads
  {
    Goto(s, id, Done).(lost := if InFlight(s.threads[id]) then s.lost + 1 else s.lost)
  }

  function MarkOf(report: Report): Mark {
    MarkFor(report.look.outcome, report.look.found, report.now)
  }

  /** The SQL store counts an abandonment too. */
  function NewCount(store: Store, mark: Mark, read: nat): nat {
    if mark.status.Abandoned? && !store.Rereading? then read else read + 1
  }

  function Landed(cfg: Config, s: State, id: nat, look: Look, read: nat, readAt: nat): State
    requires id in s.threads
  {
    var t := s.threads[id];
    var mark := MarkFor(look.outcome, look.found, t.now);
    var report := Report(t.kind, t.now, look, readAt, NewCount(cfg.store, mark, read));
    Goto(s, id, Done).(record := Marked(s.record, mark, report.count), reports := s.reports + [report])
  }

  function StepFind(cfg: Config, s: State, id: nat): State
    requires Enabled(cfg, s, Find(id))
  {
    var look := Look(s.threads[id].pc.outcome, s.record.attempts, |s.reports|);
    if !s.record.confirmed then Stopped(s, id)
    else if cfg.store.Live? then Landed(cfg, s, id, look, s.record.attempts, |s.reports|)
    else Goto(s, id, Marking(look))
  }

  function StepLand(cfg: Config, s: State, id: nat): State
    requires Enabled(cfg, s, Land(id))
  {
    match s.threads[id].pc
    case Writing(look, read, readAt) => Landed(cfg, s, id, look, read, readAt)
    case Marking(look) => Landed(cfg, s, id, look, s.record.attempts, |s.reports|)
  }

  function Apply(cfg: Config, s: State, step: Step): State
    requires Enabled(cfg, s, step)
  {
    match step
    case Tapped(id, outcome, now) => s.(threads := s.threads[id := Thread(Tap, now, |s.reports|, Reporting(outcome))])
    case List(id, now) => s.(threads := s.threads[id := Thread(Cron, now, |s.reports|, Listed)])
    case Deliver(id, outcome) => Goto(s, id, Reporting(outcome)).(sends := s.sends + 1)
    case Find(id) => StepFind(cfg, s, id)
    case ReadCount(id) => Goto(s, id, Writing(s.threads[id].pc.look, s.record.attempts, |s.reports|))
    case Land(id) => StepLand(cfg, s, id)
    case Stop(id) => Stopped(s, id)
  }

  /** The state after the steps of `run`, in order; none when some step was not possible. */
  function Exec(cfg: Config, r: AttemptRecord, run: seq<Step>): Option<State> {
    if run == [] then Some(Start(r))
    else
      var before := Exec(cfg, r, run[..|run| - 1]);
      var step := run[|run| - 1];
      if before.Some? && Enabled(cfg, before.value, step) then Some(Apply(cfg, before.value, step)) else None
  }

  lemma {:induction false} ExecOn(cfg: Config, r: AttemptRecord, run: seq<Step>, step: Step)
    ensures var before := Exec(cfg, r, run);
      Exec(cfg, r, run + [step])
        == if before.Some? && Enabled(cfg, before.value, step) then Some(Apply(cfg, before.value, step)) else None
  {
    assert (run + [step])[..|run|] == run;
  }

  // ----- the record is what its reports made it ------------------------------------------------

  function RecordAfter(r: AttemptRecord, reports: seq<Report>): AttemptRecord {
    if reports == [] then r
    else var last := reports[|reports| - 1]; Marked(r, MarkOf(last), last.count)
  }

  function AttemptsAt(r: AttemptRecord, reports: seq<Report>, n: nat): nat
    requires n <= |reports|
  {
    RecordAfter(r, reports[..n]).attempts
  }

  predicate LookOk(r: AttemptRecord, reports: seq<Report>, look: Look) {
    look.foundAt <= |reports| && look.found == AttemptsAt(r, reports, look.foundAt)
  }

  predicate ReportOk(cfg: Config, r: AttemptRecord, reports: seq<Report>, i: nat)
    requires i < |reports|
  {
    var report := reports[i];
    && LookOk(r, reports, report.look) && report.look.foundAt <= report.readAt <= i
    && report.count == NewCount(cfg.store, MarkOf(report), AttemptsAt(r, reports, report.readAt))
    && (cfg.store.Live? ==> report.look.foundAt == i)
    && (!cfg.store.Rereading? ==> report.readAt == i)
  }

  /** A cron listed the record when it was due. */
  predicate ListingOk(r: AttemptRecord, reports: seq<Report>, t: Thread) {
    t.kind.Cron? ==> t.listedAt <= |reports| && IsDue(RecordAfter(r, reports[..t.listedAt]), t.now)
  }

  predicate ThreadOk(cfg: Config, r: AttemptRecord, reports: seq<Report>, t: Thread) {
    && ListingOk(r, reports, t)
    && match t.pc
       case Listed => t.kind.Cron?
       case Reporting(_) => true
       case Marking(look) => !cfg.store.Live? && LookOk(r, reports, look)
       case Writing(look, read, readAt) =>
         && cfg.store.Rereading? && LookOk(r, reports, look) && look.foundAt <= readAt <= |reports|
         && read == AttemptsAt(r, reports, readAt)
       case Done => true
  }

  ghost predicate Inv(cfg: Config, r: AttemptRecord, s: State) {
    && s.record == RecordAfter(r, s.reports)
    && (forall i :: 0 <= i < |s.reports| ==> ReportOk(cfg, r, s.reports, i))
    && (forall id :: id in s.threads ==> ThreadOk(cfg, r, s.reports, s.threads[id]))
  }

  lemma {:induction false} ThreadStays(cfg: Config, r: AttemptRecord, reports: seq<Report>, report: Report, t: Thread)
    requires ThreadOk(cfg, r, reports, t)
    ensures ThreadOk(cfg, r, reports + [report], t)
  {
    hide RecordAfter;
    hide IsDue;
    assert forall n :: 0 <= n <= |reports| ==> (reports + [report])[..n] == reports[..n];
  }

  lemma {:induction false} ReportStays(cfg: Config, r: AttemptRecord, reports: seq<Report>, report: Report, i: nat)
    requires i < |reports| && ReportOk(cfg, r, reports, i)
    ensures ReportOk(cfg, r, reports + [report], i)
  {
    hide RecordAfter;
    assert forall n :: 0 <= n <= |reports| ==> (reports + [report])[..n] == reports[..n];
  }

  lemma {:induction false} LandingKeepsInv(
      cfg: Config, r: AttemptRecord, s: State, id: nat, look: Look, read: nat, readAt: nat)
    requires Inv(cfg, r, s) && id in s.threads && LookOk(r, s.reports, look)
    requires look.foundAt <= readAt <= |s.reports| && read == AttemptsAt(r, s.reports, readAt)
    requires cfg.store.Live? ==> look.foundAt == |s.reports|
    requires !cfg.store.Rereading? ==> readAt == |s.reports|
    ensures Inv(cfg, r, Landed(cfg, s, id, look, read, readAt))
  {
    hide ReportOk;
    hide ThreadOk;
    hide IsDue;
    var s' := Landed(cfg, s, id, look, read, readAt);
    var n := |s.reports|;
    var report := s'.reports[n];
    forall i | 0 <= i < |s'.reports|
      ensures ReportOk(cfg, r, s'.reports, i)
    {
      if i < n {
        ReportStays(cfg, r, s.reports, report, i);
      } else {
        NewReportIsOk(cfg, r, s.reports, report, read);
      }
    }
    forall i | i in s'.threads
      ensures ThreadOk(cfg, r, s'.reports, s'.threads[i])
    {
      ThreadStays(cfg, r, s.reports, report, s.threads[i]);
      if i == id {
        EndedIsOk(cfg, r, s'.reports, s.threads[i]);
      }
    }
  }

  lemma {:induction false} NewReportIsOk(cfg: Config, r: AttemptRecord, reports: seq<Report>, report: Report, read: nat)
    requires LookOk(r, reports, report.look) && report.look.foundAt <= report.readAt <= |reports|
    requires read == AttemptsAt(r, reports, report.readAt) && report.count == NewCount(cfg.store, MarkOf(report), read)
    requires cfg.store.Live? ==> report.look.foundAt == |reports|
    requires !cfg.store.Rereading? ==> report.readAt == |reports|
    ensures ReportOk(cfg, r, reports + [report], |reports|)
  {
    hide RecordAfter;
    assert forall n :: 0 <= n <= |reports| ==> (reports + [report])[..n] == reports[..n];
  }

  lemma {:induction false} EndedIsOk(cfg: Config, r: AttemptRecord, reports: seq<Report>, t: Thread)
    requires ThreadOk(cfg, r, reports, t)
    ensures ThreadOk(cfg, r, reports, t.(pc := Done))
  {
  }

  lemma {:induction false} StepKeepsInv(cfg: Config, r: AttemptRecord, s: State, step: Step)
    requires Inv(cfg, r, s) && Enabled(cfg, s, step)
    ensures Inv(cfg, r, Apply(cfg, s, step))
  {
    hide ReportOk;
    hide CronFree;
    var n := |s.reports|;
    assert s.reports[..n] == s.reports;
    if step.id in s.threads {
      assert ThreadOk(cfg, r, s.reports, s.threads[step.id]);
    }
    match step
    case Find(id) =>
      if s.record.confirmed && cfg.store.Live? {
        LandingKeepsInv(cfg, r, s, id, Look(s.threads[id].pc.outcome, s.record.attempts, n), s.record.attempts, n);
      }
    case Land(id) =>
      match s.threads[id].pc {
        case Writing(look, read, readAt) => LandingKeepsInv(cfg, r, s, id, look, read, readAt);
        case Marking(look) => LandingKeepsInv(cfg, r, s, id, look, s.record.attempts, n);
      }
    case _ =>
  }

  /**
   * In every run, the record is what its last mark made of it; every mark goes by
   * the count at its own look-up and is numbered by the count at its own reading;
   * and every cron listed the record when it was due.
   */
  lemma {:induction false} RecordFollowsReports(cfg: Config, r: AttemptRecord, run: seq<Step>)
    ensures Exec(cfg, r, run).Some? ==> Inv(cfg, r, Exec(cfg, r, run).value)
  {
    hide Inv;
    hide Enabled;
    hide Apply;
    if run == [] {
      StartIsOk(cfg, r);
    } else {
      RecordFollowsReports(cfg, r, run[..|run| - 1]);
      var before := Exec(cfg, r, run[..|run| - 1]);
      if before.Some? && Enabled(cfg, before.value, run[|run| - 1]) {
        StepKeepsInv(cfg, r, before.value, run[|run| - 1]);
      }
    }
  }

  lemma {:induction false} StartIsOk(cfg: Config, r: AttemptRecord)
    ensures Inv(cfg, r, Start(r))
  {
  }

  // ----- when a message is sent again --------------------------------------------------------

  predicate SentOrMaybe(outcome: Outcome) {
    outcome.WasSent? || outcome.MayBeSent?
  }

  /** The last of the first `n` marks was a failure's, whose look-up had found attempts to spare. */
  predicate FailedLast(r: AttemptRecord, reports: seq<Report>, n: nat)
    requires n <= |reports|
  {
    && n > 0
    && var look := reports[n - 1].look;
       && look.outcome.NotSent? && look.foundAt <= |reports|
       && AttemptsAt(r, reports, look.foundAt) < MAX_NOTIFICATION_ATTEMPTS
  }

  lemma {:induction false} DeferredIff(cfg: Config, r: AttemptRecord, s: State, n: nat)
    requires Inv(cfg, r, s) && 0 < n <= |s.reports|
    ensures RecordAfter(r, s.reports[..n]).notification.Deferred? <==> FailedLast(r, s.reports, n)
  {
    assert s.reports[..n][n - 1] == s.reports[n - 1];
    assert ReportOk(cfg, r, s.reports, n - 1);
  }

  /**
   * A record whose message was or may have been sent is deferred again exactly
   * when the last mark since was a failure's, a tap's or a cron's, whose look-up
   * had found attempts to spare, whatever was marked after that look-up.
   */
  lemma {:induction false} SentRecordReopensIff(cfg: Config, r: AttemptRecord, run: seq<Step>, s: State)
    requires !r.notification.Deferred? && Exec(cfg, r, run) == Some(s)
    ensures s.record.notification.Deferred? <==> FailedLast(r, s.reports, |s.reports|)
  {
    hide Exec;
    RecordFollowsReports(cfg, r, run);
    assert s.reports[..|s.reports|] == s.reports;
    if s.reports != [] {
      DeferredIff(cfg, r, s, |s.reports|);
    }
  }

  /** The marks that raised the count, where the mark itself raises it. */
  function Counted(reports: seq<Report>): nat {
    if reports == [] then 0
    else Counted(reports[..|reports| - 1]) + (if MarkOf(reports[|reports| - 1]).status.Abandoned? then 0 else 1)
  }

  /** There, the count is the number of marks but for abandonments. */
  lemma {:induction false} EveryMarkCounts(cfg: Config, r: AttemptRecord, s: State, n: nat)
    requires Inv(cfg, r, s) && !cfg.store.Rereading? && n <= |s.reports|
    ensures AttemptsAt(r, s.reports, n) == r.attempts + Counted(s.reports[..n])
  {
    if n > 0 {
      EveryMarkCounts(cfg, r, s, n - 1);
      assert s.reports[..n][..n - 1] == s.reports[..n - 1];
      assert ReportOk(cfg, r, s.reports, n - 1);
    }
  }

  predicate IsListed(s: State, id: nat) {
    id in s.threads && s.threads[id].pc.Listed?
  }

  /** `run[i]` listed the record for cron `id`, which has done nothing since. */
  predicate ListedBy(run: seq<Step>, i: nat, id: nat)
    requires i < |run|
  {
    run[i].List? && run[i].id == id && forall k :: i < k < |run| ==> run[k].id != id
  }

  /** Nothing takes a listed record off the list again: not even its being marked as sent. */
  lemma {:induction false} ListedIff(cfg: Config, r: AttemptRecord, run: seq<Step>, s: State, id: nat)
    requires Exec(cfg, r, run) == Some(s)
    ensures IsListed(s, id) <==> exists i :: 0 <= i < |run| && ListedBy(run, i, id)
    decreases |run|
  {
    if run != [] {
      var n := |run| - 1;
      var front, last := run[..n], run[n];
      var before := Exec(cfg, r, front).value;
      ListedIff(cfg, r, front, before, id);
      hide CronFree;
      hide IsDue;
      if last.id == id {
        assert IsListed(s, id) <==> last.List?;
        assert last.List? ==> ListedBy(run, n, id);
        assert forall i :: 0 <= i < n ==> !ListedBy(run, i, id);
      } else {
        assert IsListed(s, id) <==> IsListed(before, id);
        forall i | 0 <= i < n
          ensures ListedBy(run, i, id) <==> ListedBy(front, i, id)
        {
          assert front[i] == run[i] && forall k :: i < k < n ==> front[k] == run[k];
        }
      }
    }
  }

  lemma {:induction false} DeliverIff(cfg: Config, r: AttemptRecord, run: seq<Step>, s: State, id: nat, outcome: Outcome)
    requires Exec(cfg, r, run) == Some(s)
    ensures Exec(cfg, r, run + [Deliver(id, outcome)]).Some? <==> IsListed(s, id)
  {
    ExecOn(cfg, r, run, Deliver(id, outcome));
  }

  lemma {:induction false} ListAndDeliverIff(
      cfg: Config, r: AttemptRecord, run: seq<Step>, s: State, id: nat, now: int, outcome: Outcome)
    requires Exec(cfg, r, run) == Some(s)
    ensures Exec(cfg, r, run + [List(id, now), Deliver(id, outcome)]).Some? <==> Enabled(cfg, s, List(id, now))
  {
    hide Exec;
    ExecOn(cfg, r, run, List(id, now));
    ExecOn(cfg, r, run + [List(id, now)], Deliver(id, outcome));
    assert run + [List(id, now)] + [Deliver(id, outcome)] == run + [List(id, now), Deliver(id, outcome)];
  }

  /** The cron holds a listing of a record marked as sent at `j`: a stale one, or one after a failure. */
  predicate HoldsListing(r: AttemptRecord, s: State, id: nat, j: nat) {
    && IsListed(s, id) && s.threads[id].listedAt <= |s.reports|
    && (|| s.threads[id].listedAt <= j
        || (j + 1 < s.threads[id].listedAt && FailedLast(r, s.reports, s.threads[id].listedAt)))
  }

  /** The cron may list it again: the last mark was a failure's, and its delay is over. */
  predicate MayList(cfg: Config, r: AttemptRecord, s: State, id: nat, now: int, j: nat) {
    var n := |s.reports|;
    && id !in s.threads && CronFree(cfg, s)
    && j + 1 < n && FailedLast(r, s.reports, n) && s.reports[n - 1].now + NOTIFICATION_RETRY_MS <= now
    && AttemptsAt(r, s.reports, n) < MAX_NOTIFICATION_ATTEMPTS
  }

  /**
   * After a mark of `sent` or `ambiguous`, the `j`-th of a run, the cron sends the
   * message again exactly if it had listed the record before that mark, or if
   * after it a failure that had found attempts to spare was the last mark before
   * the cron listed, or lists, the record.
   */
  lemma {:induction false} SentAgainIff(
      cfg: Config, r: AttemptRecord, run: seq<Step>, s: State, j: nat, id: nat, now: int, outcome: Outcome)
    requires r.confirmed && Exec(cfg, r, run) == Some(s)
    requires j < |s.reports| && SentOrMaybe(s.reports[j].look.outcome)
    ensures
      || Exec(cfg, r, run + [Deliver(id, outcome)]).Some?
      || Exec(cfg, r, run + [List(id, now), Deliver(id, outcome)]).Some?
      <==> HoldsListing(r, s, id, j) || MayList(cfg, r, s, id, now, j)
  {
    hide Exec;
    RecordFollowsReports(cfg, r, run);
    DeliverIff(cfg, r, run, s, id, outcome);
    ListAndDeliverIff(cfg, r, run, s, id, now, outcome);
    if IsListed(s, id) {
      ListingFollowsAFailure(cfg, r, s, id, j);
    }
    DueIff(cfg, r, s, now);
    assert FailedLast(r, s.reports, |s.reports|) ==> j + 1 < |s.reports|;
    hide CronFree;
    hide Inv;
    hide FailedLast;
    hide IsDue;
  }

  lemma {:induction false} ListingFollowsAFailure(cfg: Config, r: AttemptRecord, s: State, id: nat, j: nat)
    requires Inv(cfg, r, s) && IsListed(s, id) && j < |s.reports| && SentOrMaybe(s.reports[j].look.outcome)
    ensures HoldsListing(r, s, id, j)
  {
    var t := s.threads[id];
    assert ThreadOk(cfg, r, s.reports, t);
    if j < t.listedAt {
      DeferredIff(cfg, r, s, t.listedAt);
    }
  }

  lemma {:induction false} DueIff(cfg: Config, r: AttemptRecord, s: State, now: int)
    requires Inv(cfg, r, s) && s.reports != []
    ensures var n := |s.reports|;
      IsDue(s.record, now) <==>
        && FailedLast(r, s.reports, n) && s.reports[n - 1].now + NOTIFICATION_RETRY_MS <= now
        && AttemptsAt(r, s.reports, n) < MAX_NOTIFICATION_ATTEMPTS
  {
    assert s.reports[..|s.reports|] == s.reports;
    DeferredIff(cfg, r, s, |s.reports|);
  }

  // ----- runs ------------------------------------------------------------------------------------

  lemma {:induction false} Go(cfg: Config, r: AttemptRecord, run: seq<Step>, s: State, step: Step)
    returns (run': seq<Step>)
    requires Exec(cfg, r, run) == Some(s) && Enabled(cfg, s, step)
    ensures run' == run + [step] && Exec(cfg, r, run') == Some(Apply(cfg, s, step))
  {
    run' := run + [step];
    ExecOn(cfg, r, run, step);
  }

  /** The marks of one report, once it has looked the record up. */
  function MarkRun(cfg: Config, id: nat): seq<Step> {
    if cfg.store.Rereading? then [ReadCount(id), Land(id)] else [Land(id)]
  }

  /** The awaits of one report, with nothing between them. */
  function ReportRun(cfg: Config, id: nat): seq<Step> {
    if cfg.store.Live? then [Find(id)] else [Find(id)] + MarkRun(cfg, id)
  }

  function Reported(cfg: Config, s: State, id: nat): State
    requires id in s.threads && s.threads[id].pc.Reporting?
  {
    Landed(cfg, s, id, Look(s.threads[id].pc.outcome, s.record.attempts, |s.reports|), s.record.attempts, |s.reports|)
  }

  lemma {:induction false} Marks(cfg: Config, r: AttemptRecord, run: seq<Step>, s: State, id: nat)
    returns (run': seq<Step>)
    requires Exec(cfg, r, run) == Some(s) && id in s.threads && s.threads[id].pc.Marking?
    ensures run' == run + MarkRun(cfg, id)
    ensures Exec(cfg, r, run') == Some(Landed(cfg, s, id, s.threads[id].pc.look, s.record.attempts, |s.reports|))
  {
    hide Exec;
    if cfg.store.Rereading? {
      run' := Go(cfg, r, run, s, ReadCount(id));
      var s1 := Apply(cfg, s, ReadCount(id));
      run' := Go(cfg, r, run', s1, Land(id));
      assert s1.threads[id := s1.threads[id].(pc := Done)] == s.threads[id := s.threads[id].(pc := Done)];
    } else {
      run' := Go(cfg, r, run, s, Land(id));
    }
  }

  lemma {:induction false} Reports(cfg: Config, r: AttemptRecord, run: seq<Step>, s: State, id: nat)
    returns (run': seq<Step>)
    requires Exec(cfg, r, run) == Some(s) && id in s.threads && s.threads[id].pc.Reporting? && s.record.confirmed
    ensures run' == run + ReportRun(cfg, id) && Exec(cfg, r, run') == Some(Reported(cfg, s, id))
  {
    hide Exec;
    run' := Go(cfg, r, run, s, Find(id));
    if !cfg.store.Live? {
      var s1 := Apply(cfg, s, Find(id));
      run' := Marks(cfg, r, run', s1, id);
      assert s1.threads[id := s1.threads[id].(pc := Done)] == s.threads[id := s.threads[id].(pc := Done)];
    }
  }

  /** A reply goes out, or not, and is reported. */
  function TapRun(cfg: Config, id: nat, outcome: Outcome, at: int): seq<Step> {
    [Tapped(id, outcome, at)] + ReportRun(cfg, id)
  }

  lemma {:induction false} Taps(cfg: Config, r: AttemptRecord, run: seq<Step>, s: State, id: nat, outcome: Outcome, at: int)
    returns (run': seq<Step>, s': State)
    requires Exec(cfg, r, run) == Some(s) && id !in s.threads && s.record.confirmed
    ensures run' == run + TapRun(cfg, id, outcome, at) && Exec(cfg, r, run') == Some(s')
    ensures var mark := MarkFor(outcome, s.record.attempts, at);
      && s'.record == Marked(s.record, mark, NewCount(cfg.store, mark, s.record.attempts))
      && s'.threads == s.threads[id := Thread(Tap, at, |s.reports|, Done)] && s'.sends == s.sends && s'.lost == s.lost
      && |s'.reports| == |s.reports| + 1 && s'.reports[..|s.reports|] == s.reports
      && s'.reports[|s.reports|].kind.Tap? && s'.reports[|s.reports|].look.outcome == outcome
  {
    hide Exec;
    run' := Go(cfg, r, run, s, Tapped(id, outcome, at));
    var s1 := Apply(cfg, s, Tapped(id, outcome, at));
    run' := Reports(cfg, r, run', s1, id);
    s' := Reported(cfg, s1, id);
  }

  /**
   * A message is sent again though nothing failed: the cron has listed it when the
   * learner's tap gets the reply, and delivers it from its list.
   */
  lemma {:induction false} ListedThenSentIsSentAgain(
      cfg: Config, r: AttemptRecord, now: int, reply: Outcome, at: int, again: Outcome)
    returns (run: seq<Step>, s: State)
    requires r.confirmed && IsDue(r, now) && SentOrMaybe(reply)
    ensures run == [List(0, now)] + TapRun(cfg, 1, reply, at) && Exec(cfg, r, run) == Some(s)
    ensures s.record.notification == (if reply.WasSent? then Delivered else Ambiguous) && s.sends == 0
    ensures |s.reports| == 1 && s.reports[0].look.outcome == reply
    ensures Exec(cfg, r, run + [Deliver(0, again)]).Some?
    ensures s.record.confirmed && s.record.attempts == r.attempts + 1
    ensures IsListed(s, 0) && s.threads[0] == Thread(Cron, now, 0, Listed)
  {
    hide Exec;
    assert Exec(cfg, r, []) == Some(Start(r)) by { ExecNothing(cfg, r); }
    run := Go(cfg, r, [], Start(r), List(0, now));
    var s1 := Apply(cfg, Start(r), List(0, now));
    run, s := Taps(cfg, r, run, s1, 1, reply, at);
    DeliverIff(cfg, r, run, s, 0, again);
  }

  lemma {:induction false} ExecNothing(cfg: Config, r: AttemptRecord)
    ensures Exec(cfg, r, []) == Some(Start(r))
  {
  }

  /**
   * If that delivery fails, the cron itself reopens a record marked as sent: it is
   * due once more exactly when it had been listed with at most two attempts.
   */
  lemma {:induction false} StaleDeliveryReopens(
      cfg: Config, r: AttemptRecord, now: int, reply: Outcome, at: int, later: int)
    returns (run: seq<Step>, s: State)
    requires r.confirmed && IsDue(r, now) && SentOrMaybe(reply)
    ensures run == [List(0, now)] + TapRun(cfg, 1, reply, at) + [Deliver(0, NotSent)] + ReportRun(cfg, 0)
    ensures Exec(cfg, r, run) == Some(s) && |s.reports| == 2 && s.reports[1].kind.Cron?
    ensures IsDue(s.record, later) <==> r.attempts <= 2 && now + NOTIFICATION_RETRY_MS <= later
  {
    hide Exec;
    var s1;
    run, s1 := ListedThenSentIsSentAgain(cfg, r, now, reply, at, NotSent);
    run := Go(cfg, r, run, s1, Deliver(0, NotSent));
    var s2 := Apply(cfg, s1, Deliver(0, NotSent));
    run := Reports(cfg, r, run, s2, 0);
    s := Reported(cfg, s2, 0);
  }

  lemma {:induction false} TwoLookUps(cfg: Config, r: AttemptRecord, at: int)
    returns (run: seq<Step>, s: State)
    requires r.confirmed && !cfg.store.Live?
    ensures run == [Tapped(0, NotSent, at), Tapped(1, NotSent, at), Find(0), Find(1)] && Exec(cfg, r, run) == Some(s)
    ensures var found := Thread(Tap, at, 0, Marking(Look(NotSent, r.attempts, 0)));
      s == Start(r).(threads := map[0 := found, 1 := found])
  {
    hide Exec;
    ExecNothing(cfg, r);
    run := Go(cfg, r, [], Start(r), Tapped(0, NotSent, at));
    s := Apply(cfg, Start(r), Tapped(0, NotSent, at));
    run := Go(cfg, r, run, s, Tapped(1, NotSent, at));
    s := Apply(cfg, s, Tapped(1, NotSent, at));
    run := Go(cfg, r, run, s, Find(0));
    s := Apply(cfg, s, Find(0));
    run := Go(cfg, r, run, s, Find(1));
    s := Apply(cfg, s, Find(1));
  }

  /**
   * Two failing taps on a record with four attempts. If both look it up before
   * either marks it, it ends deferred, with six attempts.
   */
  lemma {:induction false} OverlappingTapsDefer(cfg: Config, r: AttemptRecord, at: int)
    returns (run: seq<Step>, s: State)
    requires r.confirmed && r.attempts == MAX_NOTIFICATION_ATTEMPTS - 1 && !cfg.store.Live?
    ensures run == [Tapped(0, NotSent, at), Tapped(1, NotSent, at), Find(0), Find(1)] + MarkRun(cfg, 0) + MarkRun(cfg, 1)
    ensures Exec(cfg, r, run) == Some(s) && s.record.notification.Deferred? && s.record.attempts == 6
  {
    hide Exec;
    run, s := TwoLookUps(cfg, r, at);
    run := Marks(cfg, r, run, s, 0);
    s := Landed(cfg, s, 0, s.threads[0].pc.look, s.record.attempts, |s.reports|);
    run := Marks(cfg, r, run, s, 1);
    s := Landed(cfg, s, 1, s.threads[1].pc.look, s.record.attempts, |s.reports|);
  }

  /** One after the other, the second abandons it. */
  lemma {:induction false} SeparateTapsAbandon(cfg: Config, r: AttemptRecord, at: int)
    returns (run: seq<Step>, s: State)
    requires r.confirmed && r.attempts == MAX_NOTIFICATION_ATTEMPTS - 1
    ensures run == TapRun(cfg, 0, NotSent, at) + TapRun(cfg, 1, NotSent, at)
    ensures Exec(cfg, r, run) == Some(s) && s.record.notification.Abandoned?
  {
    hide Exec;
    ExecNothing(cfg, r);
    run, s := Taps(cfg, r, [], Start(r), 0, NotSent, at);
    run, s := Taps(cfg, r, run, s, 1, NotSent, at);
    assert [] + TapRun(cfg, 0, NotSent, at) == TapRun(cfg, 0, NotSent, at);
  }

  /**
   * A failed tap reopens a record whose message was or may have been sent: the
   * cron then sends it again exactly when at most three attempts had been used and
   * the delay is over.
   */
  lemma {:induction false} FailedTapReopensASentRecord(
      cfg: Config, r: AttemptRecord, at: int, later: int, again: Outcome)
    requires r.confirmed
    ensures Exec(cfg, r, TapRun(cfg, 0, NotSent, at) + [List(1, later), Deliver(1, again)]).Some? <==>
      r.attempts + 1 < MAX_NOTIFICATION_ATTEMPTS && later >= at + NOTIFICATION_RETRY_MS
  {
    hide Exec;
    ExecNothing(cfg, r);
    var run, s := Taps(cfg, r, [], Start(r), 0, NotSent, at);
    assert [] + TapRun(cfg, 0, NotSent, at) == TapRun(cfg, 0, NotSent, at);
    ListAndDeliverIff(cfg, r, run, s, 1, later, again);
  }
}
