/**
 * The per-user debounce queue, one method per synchronous segment between awaits.
 *
 * `User` is one learner's queue entry together with what happened to it so far:
 * every text that was accepted, and its fate. The step functions are the
 * behaviour of the segments; `DebounceChatQueue` is the class that implements
 * them on its map of entries.
 */
module DebounceQueue {
  import opened Prelude
  import opened JsText

  datatype Message = Message(text: string, key: Option<string>)

  datatype QueueState = QueueState(
    texts: seq<string>,
    lastKey: Option<string>,
    armed: bool,
    processing: bool,
    deadlineAt: Option<int>,
    pending: seq<string>,
    lastPendingKey: Option<string>,
    lastActivityAt: int)

  /** A batch, its key, and which stretch of the accepted messages it stands for. */
  datatype Batch = Batch(messages: seq<Message>, key: Option<string>, from: nat, to: nat)

  /** An accepted message is kept until the cap drops it or `clear` discards it. */
  datatype Fate = Kept | Dropped | Discarded

  /** `start` is how many messages had been accepted at the last flush or `clear`. */
  datatype Log = Log(
    accepted: seq<Message>,
    start: nat,
    fates: seq<Fate>,
    batches: seq<Batch>,
    settled: nat,
    reportedDrops: nat,
    buffered: seq<Message>,
    waiting: seq<Message>)

  datatype User = User(state: Option<QueueState>, log: Log)

  const NO_LOG: Log := Log([], 0, [], [], 0, 0, [], [])

  function FreshState(now: int): QueueState {
    QueueState([], None, false, false, None, [], None, now)
  }

  function TextsOf(messages: seq<Message>): (r: seq<string>)
    ensures |r| == |messages|
    ensures forall i :: 0 <= i < |r| ==> r[i] == messages[i].text
  {
    seq(|messages|, i requires 0 <= i < |messages| => messages[i].text)
  }

  function Flatten(batches: seq<Batch>): seq<Message> {
    if batches == [] then [] else Flatten(batches[..|batches| - 1]) + batches[|batches| - 1].messages
  }

  /** The messages not lost, in arrival order. */
  function Survivors(accepted: seq<Message>, fates: seq<Fate>): seq<Message>
    requires |accepted| == |fates|
  {
    if accepted == [] then []
    else (if fates[0].Kept? then [accepted[0]] else []) + Survivors(accepted[1..], fates[1..])
  }

  function CountFate(fates: seq<Fate>, fate: Fate): nat {
    if fates == [] then 0 else (if fates[0] == fate then 1 else 0) + CountFate(fates[1..], fate)
  }

  /** Marks `n` kept messages as lost, after skipping the first `skip` kept ones. */
  function Strike(fates: seq<Fate>, skip: nat, n: nat, fate: Fate): (r: seq<Fate>)
    ensures |r| == |fates|
  {
    if fates == [] || n == 0 then fates
    else if !fates[0].Kept? then [fates[0]] + Strike(fates[1..], skip, n, fate)
    else if skip > 0 then [fates[0]] + Strike(fates[1..], skip - 1, n, fate)
    else [fate] + Strike(fates[1..], 0, n - 1, fate)
  }

  lemma {:induction false} SurvivorsStep(accepted: seq<Message>, fate: Fate, tail: seq<Fate>)
    requires accepted != [] && |accepted| == |tail| + 1
    ensures Survivors(accepted, [fate] + tail) == (if fate.Kept? then [accepted[0]] else []) + Survivors(accepted[1..], tail)
  {
    assert ([fate] + tail)[1..] == tail;
  }

  lemma {:induction false} PeelHead<T>(x: T, rest: seq<T>, a: seq<T>, b: seq<T>)
    requires [x] + rest == a + b && a != []
    ensures a[0] == x && rest == a[1..] + b && a == [x] + a[1..]
  {
    assert ([x] + rest)[1..] == rest;
    assert (a + b)[1..] == a[1..] + b;
    assert ([x] + rest)[0] == x;
  }

  /** Striking takes exactly the named stretch `b` out of the survivors. */
  lemma {:induction false} StrikeRemoves(accepted: seq<Message>, fates: seq<Fate>,
                                         a: seq<Message>, b: seq<Message>, c: seq<Message>, fate: Fate)
    requires |accepted| == |fates| && !fate.Kept?
    requires Survivors(accepted, fates) == a + (b + c)
    ensures Survivors(accepted, Strike(fates, |a|, |b|, fate)) == a + c
    decreases |fates|
  {
    if b == [] {
      assert b + c == c;
    } else if fates != [] {
      hide *;
      var ms, fs := accepted[1..], fates[1..];
      assert fates == [fates[0]] + fs;
      SurvivorsStep(accepted, fates[0], fs);
      StrikeStep(fates, |a|, |b|, fate);
      if !fates[0].Kept? {
        StrikeRemoves(ms, fs, a, b, c, fate);
        SurvivorsStep(accepted, fates[0], Strike(fs, |a|, |b|, fate));
      } else if a != [] {
        PeelHead(accepted[0], Survivors(ms, fs), a, b + c);
        StrikeRemoves(ms, fs, a[1..], b, c, fate);
        StrikePastHead(accepted, fates, a, b, c, fate);
      } else {
        PeelHead(accepted[0], Survivors(ms, fs), b, c);
        assert b[1..] + c == a + (b[1..] + c);
        StrikeRemoves(ms, fs, a, b[1..], c, fate);
        SurvivorsStep(accepted, fate, Strike(fs, 0, |b| - 1, fate));
      }
    }
  }

  /** One step of striking past a kept message at the head. */
  lemma {:induction false} StrikePastHead(accepted: seq<Message>, fates: seq<Fate>,
                       a: seq<Message>, b: seq<Message>, c: seq<Message>, fate: Fate)
    requires |accepted| == |fates| && fates != [] && fates[0].Kept? && b != []
    requires a != [] && a[0] == accepted[0]
    requires Survivors(accepted[1..], Strike(fates[1..], |a| - 1, |b|, fate)) == a[1..] + c
    ensures Survivors(accepted, Strike(fates, |a|, |b|, fate)) == a + c
  {
    hide *;
    StrikeStep(fates, |a|, |b|, fate);
    SurvivorsStep(accepted, fates[0], Strike(fates[1..], |a| - 1, |b|, fate));
    assert [a[0]] + (a[1..] + c) == a + c;
  }

  lemma {:induction false} StrikeStep(fates: seq<Fate>, skip: nat, n: nat, fate: Fate)
    requires fates != [] && n > 0
    ensures Strike(fates, skip, n, fate) ==
      if !fates[0].Kept? then [fates[0]] + Strike(fates[1..], skip, n, fate)
      else if skip > 0 then [fates[0]] + Strike(fates[1..], skip - 1, n, fate)
      else [fate] + Strike(fates[1..], 0, n - 1, fate)
  {
  }

  lemma {:induction false} StrikeCounts(accepted: seq<Message>, fates: seq<Fate>, skip: nat, n: nat, fate: Fate)
    requires |accepted| == |fates| && !fate.Kept?
    requires skip + n <= |Survivors(accepted, fates)|
    ensures forall other: Fate :: !other.Kept? ==>
      CountFate(Strike(fates, skip, n, fate), other) == CountFate(fates, other) + if other == fate then n else 0
  {
    if fates != [] && n != 0 {
      if !fates[0].Kept? {
        StrikeCounts(accepted[1..], fates[1..], skip, n, fate);
      } else if skip > 0 {
        StrikeCounts(accepted[1..], fates[1..], skip - 1, n, fate);
      } else {
        StrikeCounts(accepted[1..], fates[1..], 0, n - 1, fate);
      }
    }
  }

  lemma {:induction false} AcceptAppends(accepted: seq<Message>, fates: seq<Fate>, m: Message)
    requires |accepted| == |fates|
    ensures Survivors(accepted + [m], fates + [Kept]) == Survivors(accepted, fates) + [m]
    ensures forall fate: Fate :: !fate.Kept? ==> CountFate(fates + [Kept], fate) == CountFate(fates, fate)
  {
    if accepted != [] {
      assert (accepted + [m])[1..] == accepted[1..] + [m];
      assert (fates + [Kept])[1..] == fates[1..] + [Kept];
      AcceptAppends(accepted[1..], fates[1..], m);
    }
  }

  // ----- the segments ------------------------------------------------------------------

  function Excess<T>(s: seq<T>, cap: nat): nat {
    if |s| > cap then |s| - cap else 0
  }

  function NewKey(m: Message, before: Option<string>): Option<string> {
    if Given(m.key) then m.key else before
  }

  /** A non-empty trimmed text arrives before shutdown. */
  function EnqueueStep(u: User, cap: nat, m: Message, now: int): User {
    var q := (if u.state.Some? then u.state.value else FreshState(now)).(lastActivityAt := now);
    var log := u.log.(accepted := u.log.accepted + [m], fates := u.log.fates + [Kept]);
    if q.processing then
      var pending, waiting := q.pending + [m.text], log.waiting + [m];
      var excess := Excess(pending, cap);
      User(Some(q.(pending := pending[excess..], lastPendingKey := NewKey(m, q.lastPendingKey))),
           log.(waiting := waiting[Min(excess, |waiting|)..], reportedDrops := log.reportedDrops + excess,
                fates := Strike(log.fates, |Flatten(log.batches)| + |log.buffered|, excess, Dropped)))
    else
      var texts, buffered := q.texts + [m.text], log.buffered + [m];
      var excess := Excess(texts, cap);
      User(Some(q.(texts := texts[excess..], lastKey := NewKey(m, q.lastKey), armed := true)),
           log.(buffered := buffered[Min(excess, |buffered|)..], reportedDrops := log.reportedDrops + excess,
                fates := Strike(log.fates, |Flatten(log.batches)|, excess, Dropped)))
  }

  function Min(a: nat, b: nat): nat {
    if a <= b then a else b
  }

  function NextBatch(log: Log, key: Option<string>): Batch {
    Batch(log.buffered, key, log.start, |log.accepted|)
  }

  /** The synchronous head of `flush`: hand the buffered texts to the handler as one batch. */
  function FlushStep(u: User, deadlineAt: int): User {
    if u.state.None? || u.state.value.processing || u.state.value.texts == [] then u
    else
      var q := u.state.value;
      User(Some(q.(armed := false, processing := true, deadlineAt := Some(deadlineAt), texts := [], lastKey := None)),
           u.log.(batches := u.log.batches + [NextBatch(u.log, q.lastKey)], buffered := [], start := |u.log.accepted|))
  }

  /** The debounce timer fires. */
  function FireStep(u: User, deadlineAt: int): User
    requires u.state.Some?
  {
    FlushStep(u.(state := Some(u.state.value.(armed := false))), deadlineAt)
  }

  /** `flushNow`: drop the timer and flush at once, or wait while a batch is in flight. */
  function FlushNowStep(u: User, deadlineAt: int): User {
    if u.state.None? then u else FireStep(u, deadlineAt)
  }

  /** The `finally` of `flush`, whether the handler returned, threw, or lost the race to its deadline. */
  function SettleStep(u: User): User
    requires u.state.Some? && u.state.value.processing
  {
    var q := u.state.value.(processing := false, deadlineAt := None);
    var q1 :=
      if q.pending == [] then q
      else q.(texts := q.texts + q.pending, pending := [], lastKey := q.lastPendingKey, lastPendingKey := None);
    var log := u.log.(settled := u.log.settled + 1, buffered := u.log.buffered + u.log.waiting, waiting := []);
    if q1.texts != [] then User(Some(q1.(armed := true)), log)
    else if !q1.armed then User(None, log)
    else User(Some(q1), log)
  }

  /** Consent withdrawal or reset: everything not yet handed over is discarded. */
  function ClearStep(u: User): User {
    if u.state.None? then u
    else
      var q := u.state.value.(armed := false, texts := [], pending := [], lastKey := None, lastPendingKey := None);
      var log := u.log.(
        buffered := [], waiting := [], start := |u.log.accepted|,
        fates := Strike(u.log.fates, |Flatten(u.log.batches)|, |u.log.buffered| + |u.log.waiting|, Discarded));
      User(if q.processing then Some(q) else None, log)
  }

  /** `drain` disarms the timer of an entry with nothing buffered. */
  function DisarmStep(u: User): User {
    if u.state.None? || HasWork(u.state.value) then u
    else u.(state := Some(u.state.value.(armed := false)))
  }

  predicate HasWork(q: QueueState) {
    q.processing || q.texts != [] || q.pending != []
  }

  predicate Evictable(q: QueueState, cutoff: int) {
    !HasWork(q) && !q.armed && q.lastActivityAt < cutoff
  }

  function EvictStep(u: User, cutoff: int): User {
    if u.state.Some? && Evictable(u.state.value, cutoff) then u.(state := None) else u
  }

  // ----- what every segment keeps ----------------------------------------------------------

  /** Buffers mirror the log, a wake-up is never lost, and at most one flush is under way. */
  ghost predicate StateOk(cap: nat, u: User) {
    match u.state
    case None => u.log.buffered == [] && u.log.waiting == [] && |u.log.batches| == u.log.settled
    case Some(q) =>
      && q.texts == TextsOf(u.log.buffered) && q.pending == TextsOf(u.log.waiting)
      && |q.texts| <= cap && |q.pending| <= cap
      && (q.processing ==> q.texts == [] && !q.armed)
      && (!q.processing ==> q.pending == [])
      && (!q.processing ==> (q.armed <==> q.texts != []))
      && |u.log.batches| == u.log.settled + (if q.processing then 1 else 0)
  }

  /**
   * Conservation and order: the messages that were neither dropped nor
   * discarded are, in arrival order, the batches one after the other, then the
   * buffer, then what waits behind the batch in flight.
   */
  ghost predicate Conserved(u: User) {
    && |u.log.fates| == |u.log.accepted|
    && Survivors(u.log.accepted, u.log.fates) == Flatten(u.log.batches) + u.log.buffered + u.log.waiting
    && CountFate(u.log.fates, Dropped) == u.log.reportedDrops
  }

  /** The key of the last keyed message. */
  function LastKey(messages: seq<Message>): Option<string> {
    if messages == [] then None
    else NewKey(messages[|messages| - 1], LastKey(messages[..|messages| - 1]))
  }

  /** What the cap leaves of a stretch of messages. */
  function Newest(messages: seq<Message>, cap: nat): seq<Message> {
    messages[Excess(messages, cap)..]
  }

  /**
   * The messages accepted since the last flush or `clear` are the ones behind the
   * buffer, or behind the batch in flight: it holds the newest of them, under the
   * key of the last keyed one, dropped or not.
   */
  ghost predicate SectionOk(cap: nat, u: User) {
    && u.log.start <= |u.log.accepted|
    && var section := u.log.accepted[u.log.start..];
       match u.state
       case None => section == []
       case Some(q) =>
         if q.processing then
           && u.log.buffered == [] && q.lastKey == None
           && u.log.waiting == Newest(section, cap) && q.lastPendingKey == LastKey(section)
         else
           && u.log.waiting == [] && q.lastPendingKey == None
           && u.log.buffered == Newest(section, cap) && q.lastKey == LastKey(section)
  }

  /** A batch is the newest of its stretch of messages, under the key of the last keyed one. */
  ghost predicate BatchOk(cap: nat, accepted: seq<Message>, b: Batch) {
    && b.from < b.to <= |accepted|
    && b.messages == Newest(accepted[b.from..b.to], cap) && b.key == LastKey(accepted[b.from..b.to])
  }

  /** The batches' stretches follow one another. */
  ghost predicate BatchesOk(cap: nat, u: User) {
    && (forall b :: b in u.log.batches ==> BatchOk(cap, u.log.accepted, b) && b.to <= u.log.start)
    && (forall i, j :: 0 <= i < j < |u.log.batches| ==> u.log.batches[i].to <= u.log.batches[j].from)
  }

  ghost predicate Keyed(cap: nat, u: User) {
    SectionOk(cap, u) && BatchesOk(cap, u)
  }

  ghost predicate UserOk(cap: nat, u: User) {
    cap >= 1 && StateOk(cap, u) && Conserved(u) && Keyed(cap, u)
  }

  /** Accepting a message behind `section` and dropping the oldest of it leaves what comes before alone. */
  lemma {:induction false} AcceptAndDrop(
      accepted: seq<Message>, fates: seq<Fate>, pre: seq<Message>, section: seq<Message>, m: Message, n: nat)
    requires |accepted| == |fates| && Survivors(accepted, fates) == pre + section
    requires n <= |section| + 1
    ensures Survivors(accepted + [m], Strike(fates + [Kept], |pre|, n, Dropped)) == pre + (section + [m])[n..]
    ensures CountFate(Strike(fates + [Kept], |pre|, n, Dropped), Dropped) == CountFate(fates, Dropped) + n
  {
    hide *;
    AcceptAppends(accepted, fates, m);
    var all := section + [m];
    assert pre + section + [m] == pre + all;
    assert all == all[..n] + all[n..];
    StrikeRemoves(accepted + [m], fates + [Kept], pre, all[..n], all[n..], Dropped);
    StrikeCounts(accepted + [m], fates + [Kept], |pre|, n, Dropped);
  }

  lemma {:induction false} EnqueueKeepsConserved(u: User, cap: nat, m: Message, now: int)
    requires UserOk(cap, u)
    ensures Conserved(EnqueueStep(u, cap, m, now))
  {
    hide Keyed;
    hide Strike;
    hide Survivors;
    hide CountFate;
    hide Flatten;
    hide TextsOf;
    var log := u.log;
    var flat := Flatten(log.batches);
    if u.state.Some? && u.state.value.processing {
      var excess := Excess(u.state.value.pending + [m.text], cap);
      AcceptAndDrop(log.accepted, log.fates, flat + log.buffered, log.waiting, m, excess);
    } else {
      var texts := if u.state.Some? then u.state.value.texts else [];
      AcceptAndDrop(log.accepted, log.fates, flat, log.buffered, m, Excess(texts + [m.text], cap));
    }
  }

  lemma {:induction false} TextsOfPush(messages: seq<Message>, m: Message, n: nat)
    requires n <= |messages| + 1
    ensures TextsOf((messages + [m])[n..]) == (TextsOf(messages) + [m.text])[n..]
  {
  }

  lemma {:induction false} EnqueueKeepsState(u: User, cap: nat, m: Message, now: int)
    requires cap >= 1 && StateOk(cap, u)
    ensures StateOk(cap, EnqueueStep(u, cap, m, now))
  {
    hide Strike;
    hide Flatten;
    hide TextsOf;
    assert TextsOf([]) == [];
    if u.state.Some? && u.state.value.processing {
      TextsOfPush(u.log.waiting, m, Excess(u.state.value.pending + [m.text], cap));
    } else {
      TextsOfPush(u.log.buffered, m, Excess(TextsOf(u.log.buffered) + [m.text], cap));
    }
  }

  lemma {:induction false} LastKeyOn(messages: seq<Message>, m: Message)
    ensures LastKey(messages + [m]) == NewKey(m, LastKey(messages))
  {
    assert (messages + [m])[..|messages|] == messages;
  }

  lemma {:induction false} NewestOn(messages: seq<Message>, m: Message, cap: nat)
    requires cap >= 1
    ensures |Newest(messages, cap)| <= cap
    ensures Newest(messages + [m], cap) == (Newest(messages, cap) + [m])[Excess(Newest(messages, cap) + [m], cap)..]
  {
  }

  lemma {:induction false} SectionOn(accepted: seq<Message>, start: nat, m: Message)
    requires start <= |accepted|
    ensures (accepted + [m])[start..] == accepted[start..] + [m]
  {
  }

  lemma {:induction false} EnqueueKeepsSection(u: User, cap: nat, m: Message, now: int)
    requires cap >= 1 && StateOk(cap, u) && SectionOk(cap, u)
    ensures SectionOk(cap, EnqueueStep(u, cap, m, now))
  {
    hide Strike;
    hide Flatten;
    hide LastKey;
    hide Newest;
    hide TextsOf;
    var section := u.log.accepted[u.log.start..];
    SectionOn(u.log.accepted, u.log.start, m);
    LastKeyOn(section, m);
    NewestOn(section, m, cap);
    NoKey();
    NoneNewest(cap);
    if u.state.Some? {
      SameSize(u, cap);
    }
    hide StateOk;
  }

  /** The buffers are as long as the stretches of messages they mirror. */
  lemma {:induction false} SameSize(u: User, cap: nat)
    requires StateOk(cap, u) && u.state.Some?
    ensures |u.state.value.texts| == |u.log.buffered| && |u.state.value.pending| == |u.log.waiting|
  {
  }

  lemma {:induction false} NoneNewest(cap: nat)
    ensures Newest([], cap) == []
  {
  }

  lemma {:induction false} NoKey()
    ensures LastKey([]) == None
  {
  }

  lemma {:induction false} BatchesStay(cap: nat, u: User, u': User)
    requires BatchesOk(cap, u) && u'.log.batches == u.log.batches && u.log.start <= u'.log.start
    requires u.log.accepted <= u'.log.accepted
    ensures BatchesOk(cap, u')
  {
    forall b | b in u'.log.batches
      ensures BatchOk(cap, u'.log.accepted, b)
    {
      assert BatchOk(cap, u.log.accepted, b);
      assert u'.log.accepted[b.from..b.to] == u.log.accepted[b.from..b.to];
    }
  }

  lemma {:induction false} EnqueueKeepsKeyed(u: User, cap: nat, m: Message, now: int)
    requires cap >= 1 && StateOk(cap, u) && Keyed(cap, u)
    ensures Keyed(cap, EnqueueStep(u, cap, m, now))
  {
    EnqueueKeepsSection(u, cap, m, now);
    hide SectionOk;
    hide Strike;
    hide Flatten;
    BatchesStay(cap, u, EnqueueStep(u, cap, m, now));
    hide BatchesOk;
  }

  lemma {:induction false} FlushKeepsKeyed(u: User, cap: nat, deadlineAt: int)
    requires cap >= 1 && StateOk(cap, u) && Keyed(cap, u)
    ensures Keyed(cap, FlushStep(u, deadlineAt))
  {
    var u' := FlushStep(u, deadlineAt);
    if u.state.Some? && !u.state.value.processing && u.state.value.texts != [] {
      var log := u.log;
      var b := NextBatch(log, u.state.value.lastKey);
      assert log.accepted[log.start..] == log.accepted[b.from..b.to];
      assert u'.log.accepted[u'.log.start..] == [];
      NoKey();
      assert Newest([], cap) == [];
      assert BatchOk(cap, log.accepted, b) by {
        hide LastKey;
      }
      hide BatchOk;
      hide LastKey;
      hide Newest;
      assert forall i :: 0 <= i < |log.batches| ==> log.batches[i] in log.batches;
    }
  }

  lemma {:induction false} EnqueueKeepsOk(u: User, cap: nat, m: Message, now: int)
    requires UserOk(cap, u)
    ensures UserOk(cap, EnqueueStep(u, cap, m, now))
  {
    EnqueueKeepsConserved(u, cap, m, now);
    EnqueueKeepsState(u, cap, m, now);
    EnqueueKeepsKeyed(u, cap, m, now);
  }

  lemma {:induction false} FlattenAppend(batches: seq<Batch>, b: Batch)
    ensures Flatten(batches + [b]) == Flatten(batches) + b.messages
  {
    assert (batches + [b])[..|batches|] == batches;
  }

  lemma {:induction false} FlushKeepsOk(u: User, cap: nat, deadlineAt: int)
    requires cap >= 1 && Conserved(u) && Keyed(cap, u)
    requires StateOk(cap, u)
    ensures UserOk(cap, FlushStep(u, deadlineAt))
  {
    hide Keyed;
    hide Conserved;
    hide StateOk;
    hide FlushStep;
    FlushKeepsKeyed(u, cap, deadlineAt);
    FlushKeepsConserved(u, deadlineAt);
    FlushKeepsState(u, cap, deadlineAt);
  }

  lemma {:induction false} FlushKeepsState(u: User, cap: nat, deadlineAt: int)
    requires StateOk(cap, u)
    ensures StateOk(cap, FlushStep(u, deadlineAt))
  {
  }

  lemma {:induction false} FlushKeepsConserved(u: User, deadlineAt: int)
    requires Conserved(u)
    ensures Conserved(FlushStep(u, deadlineAt))
  {
    hide Survivors;
    hide CountFate;
    hide Flatten;
    if u.state.Some? && !u.state.value.processing && u.state.value.texts != [] {
      FlattenAppend(u.log.batches, NextBatch(u.log, u.state.value.lastKey));
      var flat := Flatten(u.log.batches);
      assert flat + u.log.buffered + u.log.waiting == (flat + u.log.buffered) + [] + u.log.waiting;
    }
  }

  lemma {:induction false} FlushEmptiesBuffer(u: User, cap: nat, deadlineAt: int)
    requires UserOk(cap, u)
    ensures var q := FlushStep(u, deadlineAt).state; q.Some? ==> q.value.texts == []
  {
  }

  /** Firing an entry's timer, or bypassing it, is the same as flushing it. */
  lemma {:induction false} FireIsFlush(u: User, cap: nat, deadlineAt: int)
    requires UserOk(cap, u) && u.state.Some?
    ensures FireStep(u, deadlineAt) == FlushStep(u, deadlineAt)
  {
  }

  lemma {:induction false} IdleIsUnarmed(u: User, cap: nat, deadlineAt: int)
    requires UserOk(cap, u) && u.state.Some? && (u.state.value.processing || u.state.value.texts == [])
    ensures u.state.value.(armed := false) == u.state.value && FlushStep(u, deadlineAt) == u
  {
  }

  lemma {:induction false} ArmedHasText(u: User, cap: nat)
    requires UserOk(cap, u) && u.state.Some? && u.state.value.armed
    ensures !u.state.value.processing && u.state.value.texts != []
  {
  }

  lemma {:induction false} SettleKeepsConserved(u: User, cap: nat)
    requires UserOk(cap, u) && u.state.Some? && u.state.value.processing
    ensures Conserved(SettleStep(u))
  {
    hide Survivors;
    hide Flatten;
    hide CountFate;
    hide TextsOf;
    hide Keyed;
    var flat := Flatten(u.log.batches);
    assert flat + (u.log.buffered + u.log.waiting) + [] == flat + u.log.buffered + u.log.waiting;
  }

  lemma {:induction false} SettleKeepsKeyed(u: User, cap: nat)
    requires cap >= 1 && StateOk(cap, u) && Keyed(cap, u) && u.state.Some? && u.state.value.processing
    ensures Keyed(cap, SettleStep(u))
  {
    BatchesStay(cap, u, SettleStep(u));
    hide BatchesOk;
    hide LastKey;
    NoKey();
    var section := u.log.accepted[u.log.start..];
    assert u.log.waiting == [] ==> section == [];
    assert [] + u.log.waiting == u.log.waiting;
    hide Newest;
  }

  lemma {:induction false} SettleKeepsState(u: User, cap: nat)
    requires StateOk(cap, u) && u.state.Some? && u.state.value.processing
    ensures StateOk(cap, SettleStep(u))
  {
    assert u.log.buffered == [] && u.state.value.texts == [];
    assert SettleStep(u).log.buffered == u.log.waiting;
    assert u.state.value.texts + u.state.value.pending == u.state.value.pending;
  }

  lemma {:induction false} SettleKeepsOk(u: User, cap: nat)
    requires UserOk(cap, u) && u.state.Some? && u.state.value.processing
    ensures UserOk(cap, SettleStep(u))
  {
    hide StateOk;
    hide Conserved;
    hide Keyed;
    hide SettleStep;
    SettleKeepsConserved(u, cap);
    SettleKeepsKeyed(u, cap);
    SettleKeepsState(u, cap);
  }

  lemma {:induction false} ClearKeepsConserved(u: User, cap: nat)
    requires UserOk(cap, u) && u.state.Some?
    ensures Conserved(ClearStep(u))
  {
    hide Strike;
    hide Survivors;
    hide Flatten;
    hide CountFate;
    hide TextsOf;
    hide Keyed;
    var flat := Flatten(u.log.batches);
    var open := u.log.buffered + u.log.waiting;
    assert flat + u.log.buffered + u.log.waiting == flat + (open + []);
    assert flat + [] + [] == flat + [];
    StrikeRemoves(u.log.accepted, u.log.fates, flat, open, [], Discarded);
    StrikeCounts(u.log.accepted, u.log.fates, |flat|, |open|, Discarded);
  }

  lemma {:induction false} ClearKeepsKeyed(u: User, cap: nat)
    requires cap >= 1 && Keyed(cap, u) && u.state.Some?
    ensures Keyed(cap, ClearStep(u))
  {
    hide Strike;
    hide Flatten;
    var u' := ClearStep(u);
    BatchesStay(cap, u, u');
    hide BatchesOk;
    NoKey();
    hide LastKey;
    assert u'.log.accepted[u'.log.start..] == [];
    assert Newest([], cap) == [];
  }

  lemma {:induction false} ClearKeepsState(u: User, cap: nat)
    requires StateOk(cap, u)
    ensures StateOk(cap, ClearStep(u))
  {
    hide Strike;
    hide Flatten;
  }

  lemma {:induction false} ClearKeepsOk(u: User, cap: nat)
    requires UserOk(cap, u)
    ensures UserOk(cap, ClearStep(u))
  {
    hide StateOk;
    hide Conserved;
    hide Keyed;
    ClearKeepsState(u, cap);
    if u.state.Some? {
      hide ClearStep;
      ClearKeepsConserved(u, cap);
      ClearKeepsKeyed(u, cap);
    }
  }

  lemma {:induction false} HousekeepingKeepsState(u: User, cap: nat, cutoff: int)
    requires StateOk(cap, u)
    ensures StateOk(cap, DisarmStep(u)) && StateOk(cap, EvictStep(u, cutoff))
  {
  }

  lemma {:induction false} HousekeepingKeepsKeyed(u: User, cap: nat, cutoff: int)
    requires cap >= 1 && StateOk(cap, u) && Keyed(cap, u)
    ensures Keyed(cap, DisarmStep(u)) && Keyed(cap, EvictStep(u, cutoff))
  {
    hide LastKey;
    hide BatchOk;
  }

  lemma {:induction false} HousekeepingKeepsOk(u: User, cap: nat, cutoff: int)
    requires UserOk(cap, u)
    ensures UserOk(cap, DisarmStep(u))
    ensures UserOk(cap, EvictStep(u, cutoff))
  {
    hide Survivors;
    hide CountFate;
    hide Flatten;
    HousekeepingKeepsState(u, cap, cutoff);
    HousekeepingKeepsKeyed(u, cap, cutoff);
    hide StateOk;
    hide Keyed;
  }

  // ----- every run ---------------------------------------------------------------------------

  /** What can happen to one learner's entry between two synchronous segments. */
  datatype Event =
    | Arrived(message: Message, now: int)
    | TimerFired(deadlineAt: int)
    | FlushRequested(deadlineAt: int)
    | FlushEnded
    | Cleared
    | DrainedIdle
    | Swept(cutoff: int)

  predicate Possible(u: User, e: Event) {
    match e
    case TimerFired(_) => u.state.Some? && u.state.value.armed
    case FlushEnded => u.state.Some? && u.state.value.processing
    case _ => true
  }

  function After(u: User, cap: nat, e: Event): User
    requires Possible(u, e)
  {
    match e
    case Arrived(m, now) => EnqueueStep(u, cap, m, now)
    case TimerFired(deadlineAt) => FireStep(u, deadlineAt)
    case FlushRequested(deadlineAt) => FlushNowStep(u, deadlineAt)
    case FlushEnded => SettleStep(u)
    case Cleared => ClearStep(u)
    case DrainedIdle => DisarmStep(u)
    case Swept(cutoff) => EvictStep(u, cutoff)
  }

  /** The entry after `events`, in order; none when one of them was not possible. */
  function Run(cap: nat, events: seq<Event>): Option<User>
    decreases |events|
  {
    if events == [] then Some(User(None, NO_LOG))
    else
      var before := Run(cap, events[..|events| - 1]);
      var e := events[|events| - 1];
      if before.Some? && Possible(before.value, e) then Some(After(before.value, cap, e)) else None
  }

  lemma {:induction false} StepKeepsOk(u: User, cap: nat, e: Event)
    requires UserOk(cap, u) && Possible(u, e)
    ensures UserOk(cap, After(u, cap, e))
  {
    match e
    case Arrived(m, now) => EnqueueKeepsOk(u, cap, m, now);
    case TimerFired(deadlineAt) =>
      FireIsFlush(u, cap, deadlineAt);
      FlushKeepsOk(u, cap, deadlineAt);
    case FlushRequested(deadlineAt) =>
      if u.state.Some? {
        FireIsFlush(u, cap, deadlineAt);
        FlushKeepsOk(u, cap, deadlineAt);
      }
    case FlushEnded => SettleKeepsOk(u, cap);
    case Cleared => ClearKeepsOk(u, cap);
    case DrainedIdle => HousekeepingKeepsOk(u, cap, 0);
    case Swept(cutoff) => HousekeepingKeepsOk(u, cap, cutoff);
  }

  lemma {:induction false} RunKeepsOk(cap: nat, events: seq<Event>)
    requires cap >= 1
    ensures Run(cap, events).Some? ==> UserOk(cap, Run(cap, events).value)
    decreases |events|
  {
    if events != [] {
      RunKeepsOk(cap, events[..|events| - 1]);
      var before := Run(cap, events[..|events| - 1]);
      if before.Some? && Possible(before.value, events[|events| - 1]) {
        StepKeepsOk(before.value, cap, events[|events| - 1]);
      }
    }
  }

  /**
   * Conservation and order over every run: nothing is duplicated, reordered or
   * silently lost. What was neither dropped by the cap nor discarded by `clear`
   * is, in arrival order, the batches, then the buffer, then the waiting texts,
   * and every loss to the cap was reported.
   */
  lemma {:induction false} RunConservesInOrder(cap: nat, events: seq<Event>, u: User)
    requires cap >= 1 && Run(cap, events) == Some(u)
    ensures |u.log.fates| == |u.log.accepted|
    ensures Survivors(u.log.accepted, u.log.fates) == Flatten(u.log.batches) + u.log.buffered + u.log.waiting
    ensures CountFate(u.log.fates, Dropped) == u.log.reportedDrops
    ensures |u.log.accepted| ==
      |Flatten(u.log.batches)| + |u.log.buffered| + |u.log.waiting| + u.log.reportedDrops + CountFate(u.log.fates, Discarded)
    ensures u.state.Some? ==>
      u.state.value.texts == TextsOf(u.log.buffered) && u.state.value.pending == TextsOf(u.log.waiting)
    ensures u.state.None? ==> u.log.buffered == [] && u.log.waiting == []
  {
    RunKeepsOk(cap, events);
    FatesPartition(u.log.accepted, u.log.fates);
  }

  lemma {:induction false} FatesPartition(accepted: seq<Message>, fates: seq<Fate>)
    requires |accepted| == |fates|
    ensures |accepted| == |Survivors(accepted, fates)| + CountFate(fates, Dropped) + CountFate(fates, Discarded)
  {
    if accepted != [] {
      FatesPartition(accepted[1..], fates[1..]);
    }
  }

  /** A buffered text always has something coming for it: its timer, or the batch in flight. */
  lemma {:induction false} RunNeverLosesWakeup(cap: nat, events: seq<Event>, u: User)
    requires cap >= 1 && Run(cap, events) == Some(u) && u.state.Some?
    ensures u.state.value.texts != [] ==> u.state.value.armed
    ensures u.state.value.pending != [] ==> u.state.value.processing
    ensures u.state.value.armed ==> !u.state.value.processing
    ensures u.state.value.processing ==> u.state.value.texts == []
    ensures |u.state.value.texts| <= cap && |u.state.value.pending| <= cap
  {
    RunKeepsOk(cap, events);
  }

  /** Of all flushes ever started for a learner, at most one has neither ended nor timed out. */
  lemma {:induction false} RunFlushesOneAtATime(cap: nat, events: seq<Event>, u: User)
    requires cap >= 1 && Run(cap, events) == Some(u)
    ensures u.log.settled <= |u.log.batches| <= u.log.settled + 1
    ensures |u.log.batches| == u.log.settled + 1 <==> u.state.Some? && u.state.value.processing
  {
    RunKeepsOk(cap, events);
  }

  /**
   * A batch's key over every run: it stands for a stretch of consecutively
   * accepted messages, holds the newest of them, and carries the key of the last
   * keyed message of the stretch, even if the cap dropped that message; the
   * stretches of different batches do not overlap.
   */
  lemma {:induction false} RunKeysBatches(cap: nat, events: seq<Event>, u: User, b: Batch)
    requires cap >= 1 && Run(cap, events) == Some(u) && b in u.log.batches
    ensures b.from < b.to <= |u.log.accepted|
    ensures b.messages == Newest(u.log.accepted[b.from..b.to], cap)
    ensures b.key == LastKey(u.log.accepted[b.from..b.to])
    ensures forall i, j :: 0 <= i < j < |u.log.batches| ==> u.log.batches[i].to <= u.log.batches[j].from
  {
    RunKeepsOk(cap, events);
    hide LastKey;
  }

  /** The last text's key, if it has one. */
  function OwnKey(m: Message): Option<string> {
    if Given(m.key) then m.key else None
  }

  lemma {:induction false} LastKeyIsOwnIff(messages: seq<Message>)
    requires messages != []
    ensures LastKey(messages) == None <==> forall k :: 0 <= k < |messages| ==> !Given(messages[k].key)
    ensures var last := messages[|messages| - 1];
      LastKey(messages) == OwnKey(last) <==>
        Given(last.key) || forall k :: 0 <= k < |messages| ==> !Given(messages[k].key)
  {
    var n := |messages| - 1;
    if n > 0 {
      LastKeyIsOwnIff(messages[..n]);
      assert forall k :: 0 <= k < n ==> messages[..n][k] == messages[k];
    }
  }

  /**
   * A batch carries its last text's key exactly when that text is keyed or no
   * message of its stretch was; if every message is keyed, always.
   */
  lemma {:induction false} RunKeysBatchesByLastText(cap: nat, events: seq<Event>, u: User, b: Batch)
    requires cap >= 1 && Run(cap, events) == Some(u) && b in u.log.batches
    ensures b.messages != [] && b.to <= |u.log.accepted|
    ensures var last := b.messages[|b.messages| - 1];
      b.key == OwnKey(last) <==>
        Given(last.key) || forall k :: b.from <= k < b.to ==> !Given(u.log.accepted[k].key)
  {
    RunKeysBatches(cap, events, u, b);
    var stretch := u.log.accepted[b.from..b.to];
    LastKeyIsOwnIff(stretch);
    hide LastKey;
    hide Run;
    assert b.messages[|b.messages| - 1] == stretch[|stretch| - 1];
    assert forall k :: 0 <= k < |stretch| ==> stretch[k] == u.log.accepted[b.from + k];
    assert forall k :: b.from <= k < b.to ==> u.log.accepted[k] == stretch[k - b.from];
  }

  /** With room for one text, a keyed one that is dropped lends its key to the unkeyed one behind it. */
  lemma {:induction false} DroppedTextLendsItsKey(first: Message, second: Message, now: int)
    requires Given(first.key) && !Given(second.key)
    ensures var after := Run(1, [Arrived(first, now), Arrived(second, now), TimerFired(now)]);
      && after.Some? && |after.value.log.batches| == 1
      && after.value.log.batches[0].messages == [second] && after.value.log.batches[0].key == first.key
  {
    hide Strike;
    hide Flatten;
    var u0 := User(None, NO_LOG);
    var u1 := EnqueueStep(u0, 1, first, now);
    assert u1.log.buffered == [first] && u1.state.value.texts == [first.text] && u1.state.value.lastKey == first.key;
    var u2 := EnqueueStep(u1, 1, second, now);
    assert u2.log.buffered == [second] && u2.state.value.texts == [second.text] && u2.state.value.lastKey == first.key;
    var events := [Arrived(first, now), Arrived(second, now), TimerFired(now)];
    assert events[..2] == [Arrived(first, now), Arrived(second, now)];
    assert events[..2][..1] == [Arrived(first, now)] && events[..2][..1][..0] == [];
    assert Run(1, []) == Some(u0);
    assert Run(1, events[..2][..1]) == Some(u1);
    assert Run(1, events[..2]) == Some(u2);
  }

  // ----- the queue --------------------------------------------------------------------------

  class DebounceChatQueue {
    const cap: nat
    const drainTimeoutMs: int
    const staleTtlMs: int
    var queues: map<string, QueueState>
    var shuttingDown: bool
    ghost var logs: map<string, Log>

    ghost function View(user: string): User
      reads this
    {
      User(if user in queues then Some(queues[user]) else None, if user in logs then logs[user] else NO_LOG)
    }

    ghost predicate Valid()
      reads this
    {
      cap >= 1 && forall user :: UserOk(cap, View(user))
    }

    constructor (maxPendingSize: Option<nat>, drainTimeoutMs: Option<nat>, staleTtlMs: int)
      ensures Valid() && queues == map[] && logs == map[] && !shuttingDown
      ensures cap == if maxPendingSize.Some? && maxPendingSize.value > 0 then maxPendingSize.value else 20
      ensures this.staleTtlMs == staleTtlMs
      ensures this.drainTimeoutMs
        == if drainTimeoutMs.Some? && drainTimeoutMs.value > 0 then drainTimeoutMs.value else 25000
    {
      cap := if maxPendingSize.Some? && maxPendingSize.value > 0 then maxPendingSize.value else 20;
      this.drainTimeoutMs := if drainTimeoutMs.Some? && drainTimeoutMs.value > 0 then drainTimeoutMs.value else 25000;
      this.staleTtlMs := staleTtlMs;
      queues, shuttingDown, logs := map[], false, map[];
    }

    /** Stores one learner's entry, or removes it, and leaves every other learner alone. */
    method Store(user: string, q: Option<QueueState>, ghost log: Log)
      requires cap >= 1 && forall other :: other != user ==> UserOk(cap, View(other))
      requires UserOk(cap, User(q, log))
      modifies this`queues, this`logs
      ensures Valid()
      ensures View(user) == User(q, log)
      ensures forall other :: other != user ==> View(other) == old(View(other))
      ensures q.Some? ==> queues == old(queues)[user := q.value]
      ensures q.None? ==> queues == old(queues) - {user}
    {
      queues := if q.Some? then queues[user := q.value] else queues - {user};
      logs := logs[user := log];
      forall u ensures UserOk(cap, View(u)) {
        assert u != user ==> View(u) == old(View(u));
      }
    }

    method Enqueue(user: string, input: string, key: Option<string>, now: int) returns (dropped: nat)
      requires Valid()
      modifies this`queues, this`logs
      ensures Valid()
      ensures forall other :: other != user ==> View(other) == old(View(other))
      ensures View(user) ==
        if Trim(input) == "" || shuttingDown then old(View(user))
        else EnqueueStep(old(View(user)), cap, Message(Trim(input), key), now)
      ensures View(user).log.reportedDrops == old(View(user)).log.reportedDrops + dropped
    {
      hide UserOk;
      hide Strike;
      hide Flatten;
      hide Trim;
      dropped := 0;
      var text := Trim(input);
      if text == "" || shuttingDown {
        return;
      }
      ghost var after := EnqueueStep(View(user), cap, Message(text, key), now);
      EnqueueKeepsOk(View(user), cap, Message(text, key), now);
      var q := if user in queues then queues[user] else FreshState(now);
      q := q.(lastActivityAt := now);
      if q.processing {
        q := q.(pending := q.pending + [text]);
        if Given(key) {
          q := q.(lastPendingKey := key);
        }
        dropped := Excess(q.pending, cap);
        q := q.(pending := q.pending[dropped..]);
      } else {
        q := q.(texts := q.texts + [text]);
        dropped := Excess(q.texts, cap);
        q := q.(texts := q.texts[dropped..]);
        if Given(key) {
          q := q.(lastKey := key);
        }
        q := q.(armed := true);
      }
      assert User(Some(q), after.log) == after;
      Store(user, Some(q), after.log);
    }

    /** The synchronous head of `flush`; returns what is handed to the handler. */
    method Flush(user: string, deadlineAt: int) returns (texts: seq<string>, key: Option<string>)
      requires Valid()
      modifies this`queues, this`logs
      ensures Valid()
      ensures forall other :: other != user ==> View(other) == old(View(other))
      ensures View(user) == FlushStep(old(View(user)), deadlineAt)
      ensures texts != [] ==> var n := |View(user).log.batches|;
        && n == |old(View(user)).log.batches| + 1
        && texts == TextsOf(View(user).log.batches[n - 1].messages)
        && key == View(user).log.batches[n - 1].key
      ensures texts == [] ==> View(user) == old(View(user))
      ensures texts == if user in old(queues) && !old(queues)[user].processing then old(queues)[user].texts else []
    {
      hide Conserved;
      hide Keyed;
      texts, key := [], None;
      ghost var after := FlushStep(View(user), deadlineAt);
      FlushKeepsOk(View(user), cap, deadlineAt);
      if user in queues && !queues[user].processing && queues[user].texts != [] {
        var q := queues[user];
        texts, key := q.texts, q.lastKey;
        q := q.(armed := false, processing := true, deadlineAt := Some(deadlineAt), texts := [], lastKey := None);
        Store(user, Some(q), after.log);
      }
    }

    /** The debounce timer of `user` fires; only an armed timer does. */
    method Fire(user: string, now: int) returns (texts: seq<string>, key: Option<string>)
      requires Valid() && user in queues && queues[user].armed
      modifies this`queues, this`logs
      ensures Valid()
      ensures forall other :: other != user ==> View(other) == old(View(other))
      ensures View(user) == FireStep(old(View(user)), now + drainTimeoutMs)
      ensures old(queues[user].texts) == texts != []
    {
      hide UserOk;
      hide FlushStep;
      hide FireStep;
      FireIsFlush(View(user), cap, now + drainTimeoutMs);
      ArmedHasText(View(user), cap);
      texts, key := Flush(user, now + drainTimeoutMs);
    }

    /** `flushNow`, up to its first await: with a batch in flight it only waits. */
    method FlushNow(user: string, now: int)
      requires Valid()
      modifies this`queues, this`logs
      ensures Valid()
      ensures forall other :: other != user ==> View(other) == old(View(other))
      ensures View(user) == FlushNowStep(old(View(user)), now + drainTimeoutMs)
    {
      hide UserOk;
      hide FlushStep;
      hide FireStep;
      if user in queues {
        var q := queues[user];
        FireIsFlush(View(user), cap, now + drainTimeoutMs);
        if q.processing || q.texts == [] {
          IdleIsUnarmed(View(user), cap, now + drainTimeoutMs);
          Store(user, Some(q.(armed := false)), View(user).log);
        } else {
          var _, _ := Flush(user, now + drainTimeoutMs);
        }
      }
    }

    /** The `finally` of `flush`. */
    method Settle(user: string)
      requires Valid() && user in queues && queues[user].processing
      modifies this`queues, this`logs
      ensures Valid()
      ensures forall other :: other != user ==> View(other) == old(View(other))
      ensures View(user) == SettleStep(old(View(user)))
    {
      ghost var after := SettleStep(View(user));
      SettleKeepsOk(View(user), cap);
      var q := queues[user].(processing := false, deadlineAt := None);
      if q.pending != [] {
        q := q.(texts := q.texts + q.pending, pending := [], lastKey := q.lastPendingKey, lastPendingKey := None);
      }
      Store(user, if q.texts != [] then Some(q.(armed := true)) else if !q.armed then None else Some(q), after.log);
    }

    method Clear(user: string)
      requires Valid()
      modifies this`queues, this`logs
      ensures Valid()
      ensures forall other :: other != user ==> View(other) == old(View(other))
      ensures View(user) == ClearStep(old(View(user)))
    {
      if user in queues {
        ghost var after := ClearStep(View(user));
        ClearKeepsOk(View(user), cap);
        var q := queues[user].(armed := false, texts := [], pending := [], lastKey := None, lastPendingKey := None);
        Store(user, if q.processing then Some(q) else None, after.log);
      }
    }

    /** One round of `drain`: start a flush for every learner that has none and has text. */
    method DrainSweep(deadlineAt: int)
      requires Valid()
      modifies this`queues, this`logs
      ensures Valid()
      ensures forall user :: View(user) == FlushStep(old(View(user)), deadlineAt)
      ensures forall user :: user in queues ==> queues[user].texts == []
    {
      hide UserOk;
      var rest := queues.Keys;
      while rest != {}
        invariant rest <= old(queues).Keys
        invariant Valid()
        invariant forall user ::
          View(user) == if user in rest then old(View(user)) else FlushStep(old(View(user)), deadlineAt)
      {
        var user :| user in rest;
        var _, _ := Flush(user, deadlineAt);
        rest := rest - {user};
      }
      forall user | user in queues ensures queues[user].texts == [] {
        assert View(user) == FlushStep(old(View(user)), deadlineAt);
        FlushEmptiesBuffer(old(View(user)), cap, deadlineAt);
      }
    }

    /**
     * The end of a `drain` round. Work is left exactly when some entry is in
     * flight or holds text; when none is, no timer is left armed either.
     */
    method DrainScan() returns (hasWork: bool)
      requires Valid()
      modifies this`queues, this`logs
      ensures Valid()
      ensures forall user :: View(user) == DisarmStep(old(View(user)))
      ensures hasWork <==> exists user ::
        && user in queues
        && (queues[user].processing || queues[user].texts != [] || queues[user].pending != [])
      ensures !hasWork ==> forall user :: user in queues ==> !queues[user].armed
    {
      hide UserOk;
      hasWork := false;
      var rest := queues.Keys;
      while rest != {}
        invariant rest <= old(queues).Keys && queues.Keys == old(queues).Keys
        invariant Valid()
        invariant forall user :: View(user) == if user in rest then old(View(user)) else DisarmStep(old(View(user)))
        invariant hasWork <==> exists user :: user in queues && user !in rest && HasWork(queues[user])
      {
        var user :| user in rest;
        var q := queues[user];
        if HasWork(q) {
          hasWork := true;
        } else {
          HousekeepingKeepsOk(View(user), cap, 0);
          Store(user, Some(q.(armed := false)), View(user).log);
        }
        rest := rest - {user};
      }
      forall user | user in queues && !hasWork ensures !queues[user].armed {
        assert View(user) == DisarmStep(old(View(user)));
      }
    }

    /** The periodic sweep forgets learners that are idle, unbuffered and untimed. */
    method EvictStale(now: int)
      requires Valid()
      modifies this`queues, this`logs
      ensures Valid()
      ensures forall user :: View(user) == EvictStep(old(View(user)), now - staleTtlMs)
      ensures forall user :: user in queues <==>
        && user in old(queues)
        && var q := old(queues)[user];
           q.processing || q.armed || q.texts != [] || q.pending != [] || now - q.lastActivityAt <= staleTtlMs
    {
      hide UserOk;
      var rest := queues.Keys;
      while rest != {}
        invariant rest <= old(queues).Keys
        invariant Valid()
        invariant forall user ::
          View(user) == if user in rest then old(View(user)) else EvictStep(old(View(user)), now - staleTtlMs)
      {
        var user :| user in rest;
        assert View(user) == old(View(user));
        if Evictable(queues[user], now - staleTtlMs) {
          HousekeepingKeepsOk(View(user), cap, now - staleTtlMs);
          Store(user, None, View(user).log);
        }
        rest := rest - {user};
      }
    }
  }
}
