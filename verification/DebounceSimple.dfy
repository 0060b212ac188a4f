/**
 * The debounce queue in its simplest form: all that arrived, how much of it has been
 * handed over or cleared, and whether a flush is under way. Over every run the
 * queue's entry is exactly what this form says.
 */
module DebounceSimple {
  import opened Prelude
  import opened DebounceQueue

  /** Messages from `start` on are neither handed over nor cleared. */
  datatype Simple = Simple(
    arrived: seq<Message>,
    start: nat,
    batches: seq<Batch>,
    deadlineAt: Option<int>,
    drops: nat,
    lastAt: int)

  const NOTHING := Simple([], 0, [], None, 0, 0)

  predicate Busy(t: Simple) {
    t.deadlineAt.Some?
  }

  predicate SimplePossible(t: Simple, e: Event) {
    match e
    case TimerFired(_) => !Busy(t) && t.start < |t.arrived|
    case FlushEnded => Busy(t)
    case _ => true
  }

  /** Everything since the last batch goes out, as far as the cap has room, under the last key given. */
  function HandOver(t: Simple, cap: nat, deadlineAt: int): Simple {
    if Busy(t) || t.start >= |t.arrived| then t
    else
      var section := t.arrived[t.start..];
      t.(start := |t.arrived|, deadlineAt := Some(deadlineAt),
         batches := t.batches + [Batch(Newest(section, cap), LastKey(section), t.start, |t.arrived|)])
  }

  /** A drop is a message more than the cap has room for. */
  function SimpleAfter(t: Simple, cap: nat, e: Event): Simple {
    match e
    case Arrived(m, now) =>
      t.(arrived := t.arrived + [m], lastAt := now, drops := t.drops + if |t.arrived| >= t.start + cap then 1 else 0)
    case TimerFired(deadlineAt) => HandOver(t, cap, deadlineAt)
    case FlushRequested(deadlineAt) => HandOver(t, cap, deadlineAt)
    case FlushEnded => t.(deadlineAt := None)
    case Cleared => t.(start := |t.arrived|)
    case DrainedIdle => t
    case Swept(_) => t
  }

  function SimpleRun(cap: nat, events: seq<Event>): Option<Simple>
    decreases |events|
  {
    if events == [] then Some(NOTHING)
    else
      var before := SimpleRun(cap, events[..|events| - 1]);
      var e := events[|events| - 1];
      if before.Some? && SimplePossible(before.value, e) then Some(SimpleAfter(before.value, cap, e)) else None
  }

  /** The entry the simple form stands for: none without text and flush. */
  function EntryOf(t: Simple, cap: nat): Option<QueueState>
    requires t.start <= |t.arrived|
  {
    var section := t.arrived[t.start..];
    var texts, key := TextsOf(Newest(section, cap)), LastKey(section);
    if Busy(t) then Some(QueueState([], None, false, true, t.deadlineAt, texts, key, t.lastAt))
    else if section != [] then Some(QueueState(texts, key, true, false, None, [], None, t.lastAt))
    else None
  }

  ghost predicate Mirrors(u: User, t: Simple, cap: nat) {
    && t.start <= |t.arrived| && u.state == EntryOf(t, cap)
    && u.log.accepted == t.arrived && u.log.start == t.start && u.log.batches == t.batches
    && u.log.reportedDrops == t.drops
  }

  lemma {:induction false} NewestIsAsLong(messages: seq<Message>, cap: nat)
    requires cap >= 1
    ensures |Newest(messages, cap)| == if |messages| > cap then cap else |messages|
  {
  }

  lemma {:induction false} ArrivalMirrors(u: User, t: Simple, cap: nat, m: Message, now: int)
    requires UserOk(cap, u) && Mirrors(u, t, cap)
    ensures Mirrors(EnqueueStep(u, cap, m, now), SimpleAfter(t, cap, Arrived(m, now)), cap)
  {
    hide Conserved;
    hide Strike;
    hide Flatten;
    hide LastKey;
    EnqueueKeepsState(u, cap, m, now);
    EnqueueKeepsSection(u, cap, m, now);
    SectionOn(t.arrived, t.start, m);
    NewestIsAsLong(t.arrived[t.start..], cap);
    hide Newest;
    hide TextsOf;
  }

  lemma {:induction false} FlushMirrors(u: User, t: Simple, cap: nat, deadlineAt: int)
    requires UserOk(cap, u) && Mirrors(u, t, cap)
    ensures Mirrors(FlushStep(u, deadlineAt), HandOver(t, cap, deadlineAt), cap)
  {
    hide Conserved;
    hide LastKey;
    NewestIsAsLong(t.arrived[t.start..], cap);
    hide Newest;
    NoKey();
    NoneNewest(cap);
    assert t.arrived[|t.arrived|..] == [];
  }

  lemma {:induction false} EndMirrors(u: User, t: Simple, cap: nat)
    requires UserOk(cap, u) && Mirrors(u, t, cap) && u.state.Some? && u.state.value.processing
    ensures Mirrors(SettleStep(u), SimpleAfter(t, cap, FlushEnded), cap)
  {
    hide Conserved;
    hide LastKey;
    NewestIsAsLong(t.arrived[t.start..], cap);
    hide Newest;
    NoKey();
    assert u.state.value.texts + u.state.value.pending == u.state.value.pending;
  }

  lemma {:induction false} ClearMirrors(u: User, t: Simple, cap: nat)
    requires UserOk(cap, u) && Mirrors(u, t, cap)
    ensures Mirrors(ClearStep(u), SimpleAfter(t, cap, Cleared), cap)
  {
    hide Conserved;
    hide LastKey;
    hide Strike;
    hide Flatten;
    NoKey();
    NoneNewest(cap);
    hide Newest;
    assert t.arrived[|t.arrived|..] == [];
  }

  lemma {:induction false} EventMirrors(u: User, t: Simple, cap: nat, e: Event)
    requires cap >= 1 && UserOk(cap, u) && Mirrors(u, t, cap)
    ensures Possible(u, e) <==> SimplePossible(t, e)
    ensures Possible(u, e) ==> Mirrors(After(u, cap, e), SimpleAfter(t, cap, e), cap)
  {
    hide UserOk;
    hide LastKey;
    hide EnqueueStep;
    hide FlushStep;
    hide FireStep;
    hide SettleStep;
    hide ClearStep;
    NewestIsAsLong(t.arrived[t.start..], cap);
    hide Newest;
    match e
    case Arrived(m, now) => ArrivalMirrors(u, t, cap, m, now);
    case TimerFired(deadlineAt) =>
      if u.state.Some? {
        FireIsFlush(u, cap, deadlineAt);
      }
      FlushMirrors(u, t, cap, deadlineAt);
    case FlushRequested(deadlineAt) =>
      if u.state.Some? {
        FireIsFlush(u, cap, deadlineAt);
      }
      FlushMirrors(u, t, cap, deadlineAt);
    case FlushEnded =>
      if Busy(t) {
        EndMirrors(u, t, cap);
      }
    case Cleared => ClearMirrors(u, t, cap);
    case DrainedIdle =>
    case Swept(_) =>
  }

  /**
   * Over every run: the same events are possible in both forms, and whatever they
   * are, the queue has accepted what arrived, in order; its entry is the one the
   * simple form stands for, to the last field; it has handed over the same batches
   * and reported the same number of drops.
   */
  lemma {:induction false} RunIsSimple(cap: nat, events: seq<Event>)
    requires cap >= 1
    ensures Run(cap, events).Some? <==> SimpleRun(cap, events).Some?
    ensures Run(cap, events).Some? ==> Mirrors(Run(cap, events).value, SimpleRun(cap, events).value, cap)
    decreases |events|
  {
    hide Mirrors;
    hide UserOk;
    hide Possible;
    hide After;
    hide SimplePossible;
    hide SimpleAfter;
    if events == [] {
      NothingMirrors(cap);
    } else {
      var front, e := events[..|events| - 1], events[|events| - 1];
      RunIsSimple(cap, front);
      RunKeepsOk(cap, front);
      if Run(cap, front).Some? {
        EventMirrors(Run(cap, front).value, SimpleRun(cap, front).value, cap, e);
      }
    }
  }

  lemma {:induction false} NothingMirrors(cap: nat)
    ensures Mirrors(User(None, NO_LOG), NOTHING, cap)
  {
  }

  /** An entry always has text or a flush under way, so the sweep for idle entries finds none. */
  lemma {:induction false} NoEntryIsIdle(cap: nat, events: seq<Event>, u: User, cutoff: int)
    requires cap >= 1 && Run(cap, events) == Some(u)
    ensures u.state.Some? ==> u.state.value.processing || u.state.value.texts != []
    ensures EvictStep(u, cutoff) == u
  {
    hide Run;
    RunIsSimple(cap, events);
    var t := SimpleRun(cap, events).value;
    NewestIsAsLong(t.arrived[t.start..], cap);
    hide SimpleRun;
    hide Newest;
    hide LastKey;
  }
}
