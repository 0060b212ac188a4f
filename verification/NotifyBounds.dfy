/**
 * How often the cron repeats a confirmation message. With cron runs excluding
 * each other and marks that raise the count themselves, four times at most, plus
 * once for each report that was lost; without either, there is no bound.
 */
module NotifyBounds {
  import opened Prelude
  import opened RescheduleNotify
  import opened NotifyRuns

  /** A record just confirmed. */
  predicate JustConfirmed(r: AttemptRecord) {
    r.confirmed && r.notification.Pending? && r.attempts == 0
  }

  // ----- every send is accounted for -----------------------------------------------------------

  function ReportsBy(reports: seq<Report>, kind: Kind): nat {
    if reports == [] then 0
    else ReportsBy(reports[..|reports| - 1], kind) + (if reports[|reports| - 1].kind == kind then 1 else 0)
  }

  lemma {:induction false} OneMoreReport(reports: seq<Report>, report: Report, kind: Kind)
    ensures ReportsBy(reports + [report], kind) == ReportsBy(reports, kind) + (if report.kind == kind then 1 else 0)
  {
    assert (reports + [report])[..|reports|] == reports;
  }

  ghost function Flying(s: State): set<nat> {
    set id | id in s.threads && InFlight(s.threads[id])
  }

  /** Each message the cron sent was reported, was lost, or is still to be reported. */
  ghost predicate Accounted(s: State) {
    s.sends == ReportsBy(s.reports, Cron) + s.lost + |Flying(s)|
  }

  /** Only thread `id` moved. */
  ghost predicate MovesOnly(s: State, s': State, id: nat) {
    && id in s'.threads && s'.threads == s.threads[id := s'.threads[id]]
    && (id in s.threads ==> s'.threads[id].kind == s.threads[id].kind)
  }

  lemma {:induction false} FlyingMoves(s: State, s': State, id: nat)
    requires MovesOnly(s, s', id)
    ensures var before := if id in s.threads && InFlight(s.threads[id]) then 1 else 0;
      |Flying(s')| == |Flying(s)| - before + (if InFlight(s'.threads[id]) then 1 else 0)
  {
    var rest := Flying(s) - {id};
    assert id in Flying(s) ==> Flying(s) == rest + {id};
    assert id !in Flying(s) ==> Flying(s) == rest;
    assert Flying(s') == if InFlight(s'.threads[id]) then rest + {id} else rest;
  }

  lemma {:induction false} StepMovesOne(cfg: Config, s: State, step: Step)
    requires Enabled(cfg, s, step)
    ensures MovesOnly(s, Apply(cfg, s, step), step.id)
  {
    hide IsDue;
    hide CronFree;
  }

  /** What a step does to the books, as thread `step.id` goes from its place to the next. */
  lemma {:induction false} StepBooks(cfg: Config, s: State, step: Step)
    requires Enabled(cfg, s, step) && (step.Deliver? ==> s.threads[step.id].kind.Cron?)
    ensures var s' := Apply(cfg, s, step);
      && step.id in s'.threads
      && s'.sends + s.lost + ReportsBy(s.reports, Cron)
           + (if step.id in s.threads && InFlight(s.threads[step.id]) then 1 else 0)
         == s.sends + s'.lost + ReportsBy(s'.reports, Cron) + (if InFlight(s'.threads[step.id]) then 1 else 0)
  {
    hide IsDue;
    hide CronFree;
    hide ReportsBy;
    var s' := Apply(cfg, s, step);
    if |s'.reports| > |s.reports| {
      OneMoreReport(s.reports, s'.reports[|s.reports|], Cron);
    }
  }

  lemma {:induction false} CronsDeliver(cfg: Config, r: AttemptRecord, s: State, step: Step)
    requires Inv(cfg, r, s) && Enabled(cfg, s, step)
    ensures step.Deliver? ==> step.id in s.threads && s.threads[step.id].kind.Cron?
  {
    if step.Deliver? {
      assert ThreadOk(cfg, r, s.reports, s.threads[step.id]);
    }
  }

  lemma {:induction false} EverySendIsAccounted(cfg: Config, r: AttemptRecord, run: seq<Step>)
    ensures Exec(cfg, r, run).Some? ==> Accounted(Exec(cfg, r, run).value)
  {
    hide Apply;
    hide Enabled;
    if run == [] {
      assert Flying(Start(r)) == {};
    } else {
      var before := Exec(cfg, r, run[..|run| - 1]);
      var step := run[|run| - 1];
      EverySendIsAccounted(cfg, r, run[..|run| - 1]);
      if before.Some? && Enabled(cfg, before.value, step) {
        var s, s' := before.value, Apply(cfg, before.value, step);
        RecordFollowsReports(cfg, r, run[..|run| - 1]);
        CronsDeliver(cfg, r, s, step);
        hide Inv;
        StepMovesOne(cfg, s, step);
        FlyingMoves(s, s', step.id);
        StepBooks(cfg, s, step);
        hide Flying;
        hide InFlight;
      }
    }
  }

  // ----- one cron at a time ----------------------------------------------------------------------

  predicate Busy(t: Thread) {
    t.kind.Cron? && !t.pc.Done?
  }

  ghost predicate OneCron(s: State) {
    forall a, b :: a in s.threads && b in s.threads && Busy(s.threads[a]) && Busy(s.threads[b]) ==> a == b
  }

  lemma {:induction false} LockKeepsOneCron(cfg: Config, s: State, step: Step)
    requires cfg.locked && OneCron(s) && Enabled(cfg, s, step)
    ensures OneCron(Apply(cfg, s, step))
  {
    hide IsDue;
    StepMovesOne(cfg, s, step);
    NobodyGetsBusy(cfg, s, step);
    hide Apply;
  }

  lemma {:induction false} NobodyGetsBusy(cfg: Config, s: State, step: Step)
    requires Enabled(cfg, s, step)
    ensures var s' := Apply(cfg, s, step);
      step.id in s'.threads && Busy(s'.threads[step.id]) && !step.List? ==>
        step.id in s.threads && Busy(s.threads[step.id])
  {
    hide IsDue;
    hide CronFree;
  }

  lemma {:induction false} AtMostOneFlies(s: State)
    requires OneCron(s)
    ensures |Flying(s)| <= 1
    ensures |Flying(s)| == 1 ==> exists id :: id in s.threads && Busy(s.threads[id])
  {
    var flying := Flying(s);
    if flying != {} {
      var id :| id in flying;
      assert flying == {id};
      assert id in s.threads && Busy(s.threads[id]);
    }
  }

  // ----- marks that raise the count themselves ---------------------------------------------------

  /** Each report of the cron used up an attempt, and so did the failure it came after. */
  ghost predicate CountOk(s: State) {
    var n, a := ReportsBy(s.reports, Cron), s.record.attempts;
    && (s.reports != [] ==> a >= 1) && n <= 4 && (n == 0 || n + 1 <= a || a >= MAX_NOTIFICATION_ATTEMPTS)
    && (forall id :: id in s.threads && Busy(s.threads[id]) ==> n <= 3 && a >= 1)
    && (forall id :: id in s.threads && s.threads[id].pc.Marking? ==> s.threads[id].pc.look.found <= a)
  }

  /** One mark, of thread `id`. */
  ghost predicate MarksOne(cfg: Config, s: State, s': State, id: nat) {
    && MovesOnly(s, s', id) && id in s.threads && s'.threads[id].pc.Done?
    && |s'.reports| == |s.reports| + 1 && s'.reports[..|s.reports|] == s.reports
    && var report := s'.reports[|s.reports|];
       && report.kind == s.threads[id].kind && s'.record.attempts == report.count
       && report.count == NewCount(cfg.store, MarkOf(report), s.record.attempts)
       && report.look.found <= s.record.attempts
  }

  lemma {:induction false} MarkKeepsCount(cfg: Config, s: State, s': State, id: nat)
    requires OneCron(s) && CountOk(s) && !cfg.store.Rereading? && MarksOne(cfg, s, s', id) && !s.threads[id].pc.Done?
    ensures CountOk(s')
  {
    var report := s'.reports[|s.reports|];
    assert s'.reports == s.reports + [report];
    OneMoreReport(s.reports, report, Cron);
    hide ReportsBy;
    if report.kind.Cron? {
      assert Busy(s.threads[id]);
    }
  }

  /** The other steps leave the count and the reports alone. */
  lemma {:induction false} OthersKeepCount(cfg: Config, s: State, s': State, id: nat)
    requires CountOk(s) && MovesOnly(s, s', id) && s'.record == s.record && s'.reports == s.reports
    requires Busy(s'.threads[id]) ==>
      || (id in s.threads && Busy(s.threads[id]))
      || (s.reports != [] && s.record.attempts < MAX_NOTIFICATION_ATTEMPTS)
    requires s'.threads[id].pc.Marking? ==> s'.threads[id].pc.look.found <= s.record.attempts
    ensures CountOk(s')
  {
    hide ReportsBy;
  }

  lemma {:induction false} FirstListingIsLate(cfg: Config, r: AttemptRecord, s: State, id: nat, now: int)
    requires JustConfirmed(r) && Inv(cfg, r, s) && Enabled(cfg, s, List(id, now))
    ensures s.reports != []
  {
  }

  predicate MarksNow(cfg: Config, s: State, step: Step) {
    step.Land? || (step.Find? && cfg.store.Live? && s.record.confirmed)
  }

  lemma {:induction false} StepMarksOne(cfg: Config, s: State, step: Step)
    requires Enabled(cfg, s, step) && MarksNow(cfg, s, step) && !cfg.store.Rereading? && CountOk(s)
    requires step.Land? ==> s.threads[step.id].pc.Marking?
    ensures MarksOne(cfg, s, Apply(cfg, s, step), step.id) && !s.threads[step.id].pc.Done?
  {
    hide ReportsBy;
    hide IsDue;
    hide CronFree;
  }

  lemma {:induction false} StepKeepsCount(cfg: Config, r: AttemptRecord, s: State, step: Step)
    requires JustConfirmed(r) && Inv(cfg, r, s) && OneCron(s) && CountOk(s) && Enabled(cfg, s, step)
    requires !cfg.store.Rereading?
    ensures CountOk(Apply(cfg, s, step))
  {
    var s' := Apply(cfg, s, step);
    if step.id in s.threads {
      assert ThreadOk(cfg, r, s.reports, s.threads[step.id]);
    }
    if step.List? {
      FirstListingIsLate(cfg, r, s, step.id, step.now);
    }
    hide Inv;
    hide ThreadOk;
    hide CronFree;
    StepMovesOne(cfg, s, step);
    if MarksNow(cfg, s, step) {
      StepMarksOne(cfg, s, step);
      MarkKeepsCount(cfg, s, s', step.id);
    } else {
      hide CountOk;
      OthersKeepCount(cfg, s, s', step.id);
    }
  }

  lemma {:induction false} RunKeepsCount(cfg: Config, r: AttemptRecord, run: seq<Step>)
    requires JustConfirmed(r) && cfg.locked && !cfg.store.Rereading?
    ensures Exec(cfg, r, run).Some? ==> OneCron(Exec(cfg, r, run).value) && CountOk(Exec(cfg, r, run).value)
  {
    hide Enabled;
    hide Apply;
    hide Inv;
    if run != [] {
      var front, step := run[..|run| - 1], run[|run| - 1];
      RunKeepsCount(cfg, r, front);
      var before := Exec(cfg, r, front);
      if before.Some? && Enabled(cfg, before.value, step) {
        RecordFollowsReports(cfg, r, front);
        LockKeepsOneCron(cfg, before.value, step);
        StepKeepsCount(cfg, r, before.value, step);
        hide OneCron;
        hide CountOk;
      }
    }
  }

  /**
   * If cron runs exclude each other and a mark raises the count it finds, then
   * however many replies the learner's own taps get, the cron repeats the
   * confirmation at most four times, plus once for every report that was lost.
   */
  lemma {:induction false} CronSendsAreBounded(cfg: Config, r: AttemptRecord, run: seq<Step>, s: State)
    requires JustConfirmed(r) && cfg.locked && !cfg.store.Rereading? && Exec(cfg, r, run) == Some(s)
    ensures s.sends <= MAX_NOTIFICATION_ATTEMPTS - 1 + s.lost
  {
    hide Exec;
    RunKeepsCount(cfg, r, run);
    EverySendIsAccounted(cfg, r, run);
    AtMostOneFlies(s);
    hide Flying;
  }

  // ----- a count that is read before it is written -------------------------------------------------

  /** The cron's reports since a tap's. */
  function SinceTap(reports: seq<Report>): nat {
    if reports == [] || reports[|reports| - 1].kind.Tap? then 0 else SinceTap(reports[..|reports| - 1]) + 1
  }

  /** A tap's mark may set the count back; between two of them the cron raises it each time. */
  ghost predicate StretchOk(s: State) {
    var n, taps, p := ReportsBy(s.reports, Cron), ReportsBy(s.reports, Tap), SinceTap(s.reports);
    && (s.reports != [] ==> taps >= 1 && p + 1 <= s.record.attempts && p <= 4 && n <= 4 * (taps - 1) + p)
    && (forall id :: id in s.threads && Busy(s.threads[id]) ==>
          && s.reports != [] && p <= 3 && n + 1 <= 4 * taps
          && (s.threads[id].pc.Writing? ==> s.threads[id].pc.read >= p + 1))
  }

  lemma {:induction false} WriteKeepsStretch(cfg: Config, s: State, id: nat)
    requires OneCron(s) && StretchOk(s) && cfg.store.Rereading? && id in s.threads && s.threads[id].pc.Writing?
    ensures StretchOk(StepLand(cfg, s, id))
  {
    var s' := StepLand(cfg, s, id);
    var report := s'.reports[|s.reports|];
    assert s'.reports[..|s.reports|] == s.reports;
    OneMoreReport(s.reports, report, Cron);
    OneMoreReport(s.reports, report, Tap);
    hide ReportsBy;
    if report.kind.Cron? {
      assert Busy(s.threads[id]);
    }
    assert ReportsBy(s.reports, Cron) == 0 || s.reports != [] by { NoReports(Cron); }
  }

  lemma {:induction false} NoReports(kind: Kind)
    ensures ReportsBy([], kind) == 0
  {
  }

  lemma {:induction false} StepKeepsStretch(cfg: Config, r: AttemptRecord, s: State, step: Step)
    requires JustConfirmed(r) && Inv(cfg, r, s) && OneCron(s) && StretchOk(s) && Enabled(cfg, s, step)
    requires cfg.store.Rereading?
    ensures StretchOk(Apply(cfg, s, step))
  {
    hide ReportsBy;
    hide SinceTap;
    if step.List? {
      FirstListingIsLate(cfg, r, s, step.id, step.now);
    }
    if step.Land? {
      WriteKeepsStretch(cfg, s, step.id);
    }
    hide Inv;
    hide CronFree;
    hide OneCron;
  }

  lemma {:induction false} RunKeepsStretch(cfg: Config, r: AttemptRecord, run: seq<Step>)
    requires JustConfirmed(r) && cfg.locked && cfg.store.Rereading?
    ensures Exec(cfg, r, run).Some? ==> OneCron(Exec(cfg, r, run).value) && StretchOk(Exec(cfg, r, run).value)
  {
    hide Enabled;
    hide Apply;
    hide Inv;
    if run != [] {
      var front, step := run[..|run| - 1], run[|run| - 1];
      RunKeepsStretch(cfg, r, front);
      var before := Exec(cfg, r, front);
      if before.Some? && Enabled(cfg, before.value, step) {
        RecordFollowsReports(cfg, r, front);
        LockKeepsOneCron(cfg, before.value, step);
        StepKeepsStretch(cfg, r, before.value, step);
        hide OneCron;
        hide StretchOk;
      }
    }
  }

  /**
   * If the count is read before it is written, an overlapping tap can set it back;
   * as long as cron runs exclude each other, the cron then repeats the message at
   * most four times for each report of a tap, plus once for every report lost.
   */
  lemma {:induction false} CronSendsAreBoundedByTaps(cfg: Config, r: AttemptRecord, run: seq<Step>, s: State)
    requires JustConfirmed(r) && cfg.locked && cfg.store.Rereading? && Exec(cfg, r, run) == Some(s)
    ensures s.sends <= 4 * ReportsBy(s.reports, Tap) + s.lost
  {
    hide Exec;
    RunKeepsStretch(cfg, r, run);
    EverySendIsAccounted(cfg, r, run);
    AtMostOneFlies(s);
    hide Flying;
  }

  // ----- and otherwise there is no bound --------------------------------------------------------------

  /** A tap's reply was not sent: the message is due from then on, but for the delay. */
  lemma {:induction false} FirstFailure(cfg: Config, r: AttemptRecord)
    returns (run: seq<Step>, s: State)
    requires JustConfirmed(r)
    ensures Exec(cfg, r, run) == Some(s) && s.threads.Keys == {0} && s.threads[0].pc.Done? && s.threads[0].kind.Tap?
    ensures s.record == Marked(r, Mark(Deferred, Some(NOTIFICATION_RETRY_MS)), 1)
    ensures s.sends == s.lost == 0
  {
    hide Exec;
    ExecNothing(cfg, r);
    run, s := Taps(cfg, r, [], Start(r), 0, NotSent, 0);
  }

  lemma {:induction false} ManyList(cfg: Config, r: AttemptRecord, n: nat)
    returns (run: seq<Step>, s: State)
    requires JustConfirmed(r) && !cfg.locked
    ensures Exec(cfg, r, run) == Some(s) && s.record.confirmed && s.sends == s.lost == 0
    ensures IsDue(s.record, NOTIFICATION_RETRY_MS)
    ensures forall i :: i in s.threads <==> 0 <= i <= n
    ensures forall i :: 1 <= i <= n ==> IsListed(s, i)
  {
    hide Exec;
    if n == 0 {
      run, s := FirstFailure(cfg, r);
      assert forall i :: i in s.threads.Keys <==> i == 0;
    } else {
      run, s := ManyList(cfg, r, n - 1);
      var before := s;
      run := Go(cfg, r, run, s, List(n, NOTIFICATION_RETRY_MS));
      s := Apply(cfg, s, List(n, NOTIFICATION_RETRY_MS));
      forall i | 1 <= i <= n
        ensures IsListed(s, i)
      {
        assert i < n ==> IsListed(before, i) && s.threads[i] == before.threads[i];
      }
    }
  }

  lemma {:induction false} ManySend(cfg: Config, r: AttemptRecord, n: nat, k: nat)
    returns (run: seq<Step>, s: State)
    requires JustConfirmed(r) && !cfg.locked && k <= n
    ensures Exec(cfg, r, run) == Some(s) && s.record.confirmed && s.sends == k && s.lost == 0
    ensures forall i :: k < i <= n ==> IsListed(s, i)
    decreases k
  {
    hide Exec;
    if k == 0 {
      run, s := ManyList(cfg, r, n);
    } else {
      run, s := ManySend(cfg, r, n, k - 1);
      var before := s;
      assert IsListed(s, k);
      run := Go(cfg, r, run, s, Deliver(k, WasSent));
      s := Apply(cfg, s, Deliver(k, WasSent));
      run := Reports(cfg, r, run, s, k);
      s := Reported(cfg, s, k);
      assert forall i :: k < i <= n ==> IsListed(before, i) && s.threads[i] == before.threads[i];
    }
  }

  /** Cron runs that overlap all list the message, and each sends it: any number of times, with no report lost. */
  lemma {:induction false} OverlappingCronsSendWithoutBound(cfg: Config, r: AttemptRecord, n: nat)
    returns (run: seq<Step>, s: State)
    requires JustConfirmed(r) && !cfg.locked
    ensures Exec(cfg, r, run) == Some(s) && s.sends == n && s.lost == 0
  {
    run, s := ManySend(cfg, r, n, n);
  }

  /** A tap that has read a count of one and is slow to write. */
  predicate IsSlow(s: State, i: nat) {
    && i in s.threads && s.threads[i].kind.Tap? && s.threads[i].now == 0 && s.threads[i].pc.Writing?
    && s.threads[i].pc.look.outcome.NotSent? && s.threads[i].pc.look.found == 1 && s.threads[i].pc.read == 1
  }

  lemma {:induction false} SlowTap(cfg: Config, r: AttemptRecord, run: seq<Step>, s: State, id: nat)
    returns (run': seq<Step>, s': State)
    requires Exec(cfg, r, run) == Some(s) && id !in s.threads && cfg.store.Rereading?
    requires s.record.confirmed && s.record.attempts == 1
    ensures Exec(cfg, r, run') == Some(s') && IsSlow(s', id) && s' == s.(threads := s.threads[id := s'.threads[id]])
  {
    hide Exec;
    run' := Go(cfg, r, run, s, Tapped(id, NotSent, 0));
    var s1 := Apply(cfg, s, Tapped(id, NotSent, 0));
    run' := Go(cfg, r, run', s1, Find(id));
    var s2 := Apply(cfg, s1, Find(id));
    run' := Go(cfg, r, run', s2, ReadCount(id));
    s' := Apply(cfg, s2, ReadCount(id));
    assert s'.threads == s.threads[id := s'.threads[id]];
  }

  lemma {:induction false} ManySlow(cfg: Config, r: AttemptRecord, n: nat)
    returns (run: seq<Step>, s: State)
    requires JustConfirmed(r) && cfg.store.Rereading?
    ensures Exec(cfg, r, run) == Some(s) && s.sends == s.lost == 0
    ensures s.record == Marked(r, Mark(Deferred, Some(NOTIFICATION_RETRY_MS)), 1)
    ensures forall i :: i in s.threads <==> 0 <= i <= n
    ensures forall i :: i in s.threads ==> s.threads[i].kind.Tap?
    ensures forall i :: 1 <= i <= n ==> IsSlow(s, i)
  {
    hide Exec;
    if n == 0 {
      run, s := FirstFailure(cfg, r);
    } else {
      run, s := ManySlow(cfg, r, n - 1);
      var before := s;
      run, s := SlowTap(cfg, r, run, s, n);
      assert forall i :: 1 <= i < n ==> IsSlow(before, i) && s.threads[i] == before.threads[i];
    }
  }

  /** The message is due, no cron is at work, and the taps from `k` on have yet to write. */
  ghost predicate Primed(s: State, n: nat, k: nat) {
    && s.record.confirmed && s.record.attempts <= 2 && IsDue(s.record, NOTIFICATION_RETRY_MS) && s.lost == 0
    && (forall i :: i in s.threads && s.threads[i].kind.Cron? ==> s.threads[i].pc.Done?)
    && (forall i :: i in s.threads <==> 0 <= i <= n + k)
    && (forall i :: k < i <= n ==> IsSlow(s, i))
  }

  lemma {:induction false} CronSendsOnce(cfg: Config, r: AttemptRecord, run: seq<Step>, s: State, id: nat)
    returns (run': seq<Step>, s': State)
    requires Exec(cfg, r, run) == Some(s) && id !in s.threads && s.record.confirmed
    requires IsDue(s.record, NOTIFICATION_RETRY_MS) && CronFree(cfg, s)
    ensures Exec(cfg, r, run') == Some(s') && s'.sends == s.sends + 1 && s'.lost == s.lost && s'.record.confirmed
    ensures id in s'.threads && s'.threads == s.threads[id := s'.threads[id]]
    ensures s'.threads[id].kind.Cron? && s'.threads[id].pc.Done?
  {
    hide Exec;
    hide CronFree;
    run' := Go(cfg, r, run, s, List(id, NOTIFICATION_RETRY_MS));
    var s1 := Apply(cfg, s, List(id, NOTIFICATION_RETRY_MS));
    run' := Go(cfg, r, run', s1, Deliver(id, NotSent));
    var s2 := Apply(cfg, s1, Deliver(id, NotSent));
    run' := Reports(cfg, r, run', s2, id);
    s' := Reported(cfg, s2, id);
    assert s'.threads == s.threads[id := s'.threads[id]];
  }

  lemma {:induction false} SlowTapWrites(cfg: Config, r: AttemptRecord, run: seq<Step>, s: State, id: nat)
    returns (run': seq<Step>, s': State)
    requires Exec(cfg, r, run) == Some(s) && IsSlow(s, id) && cfg.store.Rereading? && s.record.confirmed
    ensures Exec(cfg, r, run') == Some(s') && s'.sends == s.sends && s'.lost == s.lost && s'.record.confirmed
    ensures s'.record.attempts == 2 && IsDue(s'.record, NOTIFICATION_RETRY_MS)
    ensures id in s'.threads && s'.threads == s.threads[id := s'.threads[id]] && s'.threads[id].kind.Tap?
  {
    hide Exec;
    run' := Go(cfg, r, run, s, Land(id));
    s' := Apply(cfg, s, Land(id));
  }

  /** The cron sends, fails and reports; then a slow tap sets the count back. */
  lemma {:induction false} SendAndSetBack(cfg: Config, r: AttemptRecord, run: seq<Step>, s: State, n: nat, k: nat)
    returns (run': seq<Step>, s': State)
    requires cfg.store.Rereading? && Exec(cfg, r, run) == Some(s) && k < n && Primed(s, n, k)
    ensures Exec(cfg, r, run') == Some(s') && Primed(s', n, k + 1) && s'.sends == s.sends + 1
  {
    hide Exec;
    hide IsDue;
    var s1;
    run', s1 := CronSendsOnce(cfg, r, run, s, n + k + 1);
    assert IsSlow(s, k + 1) && s1.threads[k + 1] == s.threads[k + 1];
    run', s' := SlowTapWrites(cfg, r, run', s1, k + 1);
    forall i | k + 1 < i <= n
      ensures IsSlow(s', i)
    {
      assert IsSlow(s, i) && s'.threads[i] == s.threads[i];
    }
    hide IsSlow;
  }

  lemma {:induction false} ManySetBacks(cfg: Config, r: AttemptRecord, n: nat, k: nat)
    returns (run: seq<Step>, s: State)
    requires JustConfirmed(r) && cfg.store.Rereading? && k <= n
    ensures Exec(cfg, r, run) == Some(s) && Primed(s, n, k) && s.sends == k
    decreases k
  {
    hide Exec;
    if k == 0 {
      run, s := ManySlow(cfg, r, n);
    } else {
      run, s := ManySetBacks(cfg, r, n, k - 1);
      hide Primed;
      run, s := SendAndSetBack(cfg, r, run, s, n, k - 1);
    }
  }

  /** Slow taps undo the count: any number of sends, one cron run at a time and with no report lost. */
  lemma {:induction false} SlowTapsUndoTheCount(cfg: Config, r: AttemptRecord, n: nat)
    returns (run: seq<Step>, s: State)
    requires JustConfirmed(r) && cfg.store.Rereading?
    ensures Exec(cfg, r, run) == Some(s) && s.sends == n && s.lost == 0
  {
    run, s := ManySetBacks(cfg, r, n, n);
  }

  /** No cron is at work, the record has `attempts` attempts and is due at `at`. */
  ghost predicate Resting(s: State, attempts: nat, at: int, n: nat) {
    && s.record.confirmed && s.record.attempts == attempts
    && s.record.notification.Deferred? && s.record.nextAt == Some(at)
    && (forall i :: i in s.threads && s.threads[i].kind.Cron? ==> s.threads[i].pc.Done?)
    && (forall i :: i in s.threads <==> 0 <= i <= n)
  }

  /** The cron sends and its report is lost: nothing is counted. */
  lemma {:induction false} SendAndLose(cfg: Config, r: AttemptRecord, run: seq<Step>, s: State, at: int, n: nat)
    returns (run': seq<Step>, s': State)
    requires Exec(cfg, r, run) == Some(s) && Resting(s, 1, at, n)
    ensures Exec(cfg, r, run') == Some(s') && Resting(s', 1, at, n + 1)
    ensures s'.sends == s.sends + 1 && s'.lost == s.lost + 1
  {
    hide Exec;
    run' := Go(cfg, r, run, s, List(n + 1, at));
    var s1 := Apply(cfg, s, List(n + 1, at));
    run' := Go(cfg, r, run', s1, Deliver(n + 1, NotSent));
    var s2 := Apply(cfg, s1, Deliver(n + 1, NotSent));
    run' := Go(cfg, r, run', s2, Stop(n + 1));
    s' := Apply(cfg, s2, Stop(n + 1));
  }

  lemma {:induction false} ManyLost(cfg: Config, r: AttemptRecord, n: nat)
    returns (run: seq<Step>, s: State)
    requires JustConfirmed(r)
    ensures Exec(cfg, r, run) == Some(s) && Resting(s, 1, NOTIFICATION_RETRY_MS, n) && s.sends == s.lost == n
  {
    hide Exec;
    if n == 0 {
      run, s := FirstFailure(cfg, r);
      assert forall i :: i in s.threads.Keys <==> i == 0;
    } else {
      run, s := ManyLost(cfg, r, n - 1);
      hide Resting;
      run, s := SendAndLose(cfg, r, run, s, NOTIFICATION_RETRY_MS, n - 1);
    }
  }

  /** The cron sends, fails and says so: one attempt more, and a delay. */
  lemma {:induction false} SendAndFail(cfg: Config, r: AttemptRecord, run: seq<Step>, s: State, a: nat, at: int, n: nat)
    returns (run': seq<Step>, s': State)
    requires Exec(cfg, r, run) == Some(s) && Resting(s, a, at, n) && a < MAX_NOTIFICATION_ATTEMPTS
    ensures Exec(cfg, r, run') == Some(s') && Resting(s', a + 1, at + NOTIFICATION_RETRY_MS, n + 1)
    ensures s'.sends == s.sends + 1 && s'.lost == s.lost
  {
    hide Exec;
    run' := Go(cfg, r, run, s, List(n + 1, at));
    var s1 := Apply(cfg, s, List(n + 1, at));
    run' := Go(cfg, r, run', s1, Deliver(n + 1, NotSent));
    var s2 := Apply(cfg, s1, Deliver(n + 1, NotSent));
    run' := Reports(cfg, r, run', s2, n + 1);
    s' := Reported(cfg, s2, n + 1);
  }

  /** The bound is met: however many reports are lost, the cron may send four times more than that. */
  lemma {:induction false} BoundIsTight(cfg: Config, r: AttemptRecord, n: nat)
    returns (run: seq<Step>, s: State)
    requires JustConfirmed(r)
    ensures Exec(cfg, r, run) == Some(s) && s.sends == 4 + n && s.lost == n
  {
    hide Exec;
    hide Resting;
    var t := NOTIFICATION_RETRY_MS;
    run, s := ManyLost(cfg, r, n);
    run, s := SendAndFail(cfg, r, run, s, 1, t, n);
    run, s := SendAndFail(cfg, r, run, s, 2, t + t, n + 1);
    run, s := SendAndFail(cfg, r, run, s, 3, t + t + t, n + 2);
    run, s := SendAndFail(cfg, r, run, s, 4, t + t + t + t, n + 3);
  }

  ghost predicate Bounded(cfg: Config, r: AttemptRecord, run: seq<Step>) {
    var after := Exec(cfg, r, run);
    after.Some? ==> after.value.sends <= MAX_NOTIFICATION_ATTEMPTS - 1 + after.value.lost
  }

  /** The bound holds of every run exactly under both provisos. */
  lemma {:induction false} CronSendsAreBoundedIff(cfg: Config, r: AttemptRecord)
    requires JustConfirmed(r)
    ensures (forall run :: Bounded(cfg, r, run)) <==> cfg.locked && !cfg.store.Rereading?
  {
    hide Exec;
    if cfg.locked && !cfg.store.Rereading? {
      forall run
        ensures Bounded(cfg, r, run)
      {
        if Exec(cfg, r, run).Some? {
          CronSendsAreBounded(cfg, r, run, Exec(cfg, r, run).value);
        }
      }
    } else if cfg.locked {
      var run, s := SlowTapsUndoTheCount(cfg, r, 5);
      assert !Bounded(cfg, r, run);
    } else {
      var run, s := OverlappingCronsSendWithoutBound(cfg, r, 5);
      assert !Bounded(cfg, r, run);
    }
  }

  // ----- the cron alone ---------------------------------------------------------------------------------

  predicate CronOnly(run: seq<Step>) {
    forall k :: 0 <= k < |run| ==> !run[k].Tapped?
  }

  /** While a cron is at work, alone, the record stays as it was listed: with attempts to spare. */
  ghost predicate AloneOk(s: State) {
    && !s.record.notification.Abandoned?
    && (forall id :: id in s.threads ==> s.threads[id].kind.Cron?)
    && (forall id :: id in s.threads && Busy(s.threads[id]) ==>
          && s.record.attempts < MAX_NOTIFICATION_ATTEMPTS
          && (s.threads[id].pc.Marking? || s.threads[id].pc.Writing? ==>
                s.threads[id].pc.look.found < MAX_NOTIFICATION_ATTEMPTS))
  }

  lemma {:induction false} StepKeepsAlone(cfg: Config, s: State, step: Step)
    requires OneCron(s) && AloneOk(s) && Enabled(cfg, s, step) && !step.Tapped?
    ensures AloneOk(Apply(cfg, s, step))
  {
    hide CronFree;
    var s' := Apply(cfg, s, step);
    StepMovesOne(cfg, s, step);
    NobodyGetsBusy(cfg, s, step);
    if |s'.reports| > |s.reports| {
      AloneMarkIsOk(cfg, s, step);
    }
  }

  lemma {:induction false} AloneMarkIsOk(cfg: Config, s: State, step: Step)
    requires OneCron(s) && AloneOk(s) && Enabled(cfg, s, step) && (step.Find? || step.Land?)
    requires Apply(cfg, s, step).reports != s.reports
    ensures AloneOk(Apply(cfg, s, step))
  {
    assert Busy(s.threads[step.id]);
    forall id | id in s.threads && id != step.id
      ensures !Busy(s.threads[id])
    {
    }
  }

  /**
   * If cron runs exclude each other, the cron alone never abandons a record: its
   * last failure leaves the record deferred, with all attempts used up, and it is
   * never due again.
   */
  lemma {:induction false} CronNeverAbandons(cfg: Config, r: AttemptRecord, run: seq<Step>)
    requires cfg.locked && !r.notification.Abandoned? && CronOnly(run) && Exec(cfg, r, run).Some?
    ensures var s := Exec(cfg, r, run).value;
      && OneCron(s) && AloneOk(s) && !s.record.notification.Abandoned?
      && (s.record.attempts >= MAX_NOTIFICATION_ATTEMPTS ==> forall now :: !IsDue(s.record, now))
  {
    hide Apply;
    hide Enabled;
    if run != [] {
      var front, step := run[..|run| - 1], run[|run| - 1];
      var before := Exec(cfg, r, front).value;
      assert !step.Tapped?;
      CronNeverAbandons(cfg, r, front);
      LockKeepsOneCron(cfg, before, step);
      StepKeepsAlone(cfg, before, step);
    }
  }

  /** Of two overlapping cron runs the second finds the attempts used up by the first, and abandons. */
  lemma {:induction false} OverlappingCronsAbandon(cfg: Config, r: AttemptRecord)
    returns (run: seq<Step>, s: State)
    requires !cfg.locked && r.confirmed && r.attempts == MAX_NOTIFICATION_ATTEMPTS - 1 && IsDue(r, 0)
    ensures CronOnly(run) && Exec(cfg, r, run) == Some(s) && s.record.notification.Abandoned?
  {
    hide Exec;
    ExecNothing(cfg, r);
    run := Go(cfg, r, [], Start(r), List(0, 0));
    s := Apply(cfg, Start(r), List(0, 0));
    run := Go(cfg, r, run, s, List(1, 0));
    s := Apply(cfg, s, List(1, 0));
    run, s := SendAndReport(cfg, r, run, s, 0);
    run, s := SendAndReport(cfg, r, run, s, 1);
  }

  lemma {:induction false} SendAndReport(cfg: Config, r: AttemptRecord, run: seq<Step>, s: State, id: nat)
    returns (run': seq<Step>, s': State)
    requires Exec(cfg, r, run) == Some(s) && CronOnly(run) && IsListed(s, id) && s.record.confirmed
    ensures CronOnly(run') && Exec(cfg, r, run') == Some(s')
    ensures var mark := MarkFor(NotSent, s.record.attempts, s.threads[id].now);
      && s'.record == Marked(s.record, mark, NewCount(cfg.store, mark, s.record.attempts))
      && s'.threads == s.threads[id := s.threads[id].(pc := Done)]
  {
    hide Exec;
    run' := Go(cfg, r, run, s, Deliver(id, NotSent));
    var s1 := Apply(cfg, s, Deliver(id, NotSent));
    run' := Reports(cfg, r, run', s1, id);
    s' := Reported(cfg, s1, id);
  }

  ghost predicate NeverAbandons(cfg: Config, r: AttemptRecord) {
    forall run :: CronOnly(run) && Exec(cfg, r, run).Some? ==> !Exec(cfg, r, run).value.record.notification.Abandoned?
  }

  lemma {:induction false} CronNeverAbandonsIff(cfg: Config)
    ensures (forall r: AttemptRecord :: !r.notification.Abandoned? ==> NeverAbandons(cfg, r)) <==> cfg.locked
  {
    hide Exec;
    if cfg.locked {
      forall r: AttemptRecord | !r.notification.Abandoned?
        ensures NeverAbandons(cfg, r)
      {
        forall run | CronOnly(run) && Exec(cfg, r, run).Some?
          ensures !Exec(cfg, r, run).value.record.notification.Abandoned?
        {
          CronNeverAbandons(cfg, r, run);
        }
      }
    } else {
      var r := AttemptRecord(1, true, None, Deferred, MAX_NOTIFICATION_ATTEMPTS - 1, None);
      var run, s := OverlappingCronsAbandon(cfg, r);
      assert !NeverAbandons(cfg, r);
    }
  }
}
