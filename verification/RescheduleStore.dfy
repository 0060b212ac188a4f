/**
 * The pending-confirmation store: one slot per external id, claimed under a
 * lease while a confirmation runs.
 *
 * `Store` and its functions are the abstract store every confirmation step is
 * stated over; `MemoryRescheduleStore` is the per-instance implementation,
 * proved method by method against them. A JavaScript `Map` keeps insertion
 * order and eviction depends on it, so a store is an order of keys plus a map.
 */
module RescheduleStore {
  import opened Prelude

  const PENDING_TTL_MS: int := 10 * 60 * 1000
  const MAX_PENDING: int := 10000

  datatype Target = Target(schedulingMode: string, newLocalDate: Option<string>, newTime: Option<string>)

  datatype Pending = Pending(
    externalId: string,
    userId: int,
    calendarId: int,
    target: Target,
    sessionLabel: string,
    expiresAt: int,
    leaseToken: Option<string>,
    toolName: Option<string>,
    platform: Option<string>,
    mappingVersion: Option<string>,
    intentHash: Option<string>,
    argsHash: Option<string>,
    nonce: Option<string>)

  datatype Binding = Binding(
    platform: Option<string>,
    mappingVersion: Option<string>,
    intentHash: Option<string>,
    argsHash: Option<string>,
    nonce: Option<string>)

  datatype Row = Row(record: Pending, claimed: bool)

  datatype PendingState = StatePending | StateProcessing | StateExpired | StateNone

  datatype CancelOutcome = Cancelled | NoneToCancel | Processing

  datatype Store = Store(order: seq<string>, rows: map<string, Row>)

  /** Insertion order lists exactly the stored keys, and the cap is respected. */
  ghost predicate WellFormed(s: Store) {
    && Distinct(s.order)
    && (forall k :: k in s.order <==> k in s.rows)
    && |s.order| <= MAX_PENDING
  }

  // ----- operations -------------------------------------------------------

  function Empty(): Store {
    Store([], map[])
  }

  function Remove(s: Store, key: string): Store {
    Store(Without(s.order, key), s.rows - {key})
  }

  /** Map.set: an existing key keeps its place in the order. */
  function Put(s: Store, key: string, row: Row): Store {
    Store(if key in s.rows then s.order else s.order + [key], s.rows[key := row])
  }

  predicate Prunable(row: Row, now: int) {
    !row.claimed && row.record.expiresAt <= now
  }

  function Pruned(s: Store, now: int): Store {
    PrunedFrom(s, s.order, now)
  }

  /** Visits `keys` in turn and deletes the unclaimed expired ones. */
  function PrunedFrom(s: Store, keys: seq<string>, now: int): Store
    decreases keys
  {
    if keys == [] then s
    else if keys[0] in s.rows && Prunable(s.rows[keys[0]], now) then
      PrunedFrom(Remove(s, keys[0]), keys[1..], now)
    else PrunedFrom(s, keys[1..], now)
  }

  function FirstUnclaimed(rows: map<string, Row>, order: seq<string>): (r: Option<string>)
    ensures r.Some? ==> r.value in order && r.value in rows && !rows[r.value].claimed
    ensures r.None? ==> forall k :: k in order && k in rows ==> rows[k].claimed
  {
    if order == [] then None
    else if order[0] in rows && !rows[order[0]].claimed then Some(order[0])
    else FirstUnclaimed(rows, order[1..])
  }

  function Save(s: Store, p: Pending, now: int): (Store, bool) {
    var key := p.externalId;
    if key in s.rows then
      if s.rows[key].claimed then (s, false) else (Put(s, key, Row(p, false)), true)
    else
      var kept := Pruned(s, now);
      if |kept.order| < MAX_PENDING then (Put(kept, key, Row(p, false)), true)
      else
        match FirstUnclaimed(kept.rows, kept.order)
        case None => (kept, false)
        case Some(victim) => (Put(Remove(kept, victim), key, Row(p, false)), true)
  }

  predicate Rejects(want: Option<string>, have: Option<string>) {
    Given(want) && have != want
  }

  predicate BindingAccepts(b: Binding, p: Pending) {
    && !Rejects(b.platform, p.platform)
    && !Rejects(b.mappingVersion, p.mappingVersion)
    && !Rejects(b.intentHash, p.intentHash)
    && !Rejects(b.argsHash, p.argsHash)
    && !Rejects(b.nonce, p.nonce)
  }

  function TakeValid(s: Store, key: string, userId: Option<int>, b: Binding, now: int, lease: string)
    : (Store, Option<Pending>)
  {
    if key !in s.rows || s.rows[key].claimed then (s, None)
    else if s.rows[key].record.expiresAt <= now then (Remove(s, key), None)
    else if userId.Some? && s.rows[key].record.userId != userId.value then (s, None)
    else if !BindingAccepts(b, s.rows[key].record) then (s, None)
    else
      var p := s.rows[key].record.(leaseToken := Some(lease));
      (Put(s, key, Row(p, true)), Some(p))
  }

  predicate HeldBy(s: Store, key: string, lease: string) {
    key in s.rows && s.rows[key].claimed && s.rows[key].record.leaseToken == Some(lease)
  }

  function RevertToPending(s: Store, key: string, lease: string, now: int): Store {
    if HeldBy(s, key, lease) then
      Put(s, key, Row(s.rows[key].record.(expiresAt := now + PENDING_TTL_MS), false))
    else s
  }

  function CancelPending(s: Store, key: string, nonce: Option<string>, now: int): (Store, CancelOutcome) {
    if key !in s.rows then (s, NoneToCancel)
    else if s.rows[key].claimed then (s, Processing)
    else if nonce.Some? && s.rows[key].record.nonce != nonce then (s, NoneToCancel)
    else if s.rows[key].record.expiresAt <= now then (Remove(s, key), NoneToCancel)
    else (Remove(s, key), Cancelled)
  }

  function CancelClaimed(s: Store, key: string, lease: string): Store {
    if HeldBy(s, key, lease) then Remove(s, key) else s
  }

  function GetPendingState(s: Store, key: string, now: int): (Store, PendingState) {
    if key !in s.rows then (s, StateNone)
    else if s.rows[key].claimed then (s, StateProcessing)
    else if s.rows[key].record.expiresAt <= now then (Remove(s, key), StateExpired)
    else (s, StatePending)
  }

  // ----- fencing ----------------------------------------------------------

  /** Only unclaimed rows disappeared; every row left is the row that was there. */
  ghost predicate OnlyUnclaimedRemoved(before: Store, after: Store) {
    && (forall k :: k in after.rows ==> k in before.rows && after.rows[k] == before.rows[k])
    && (forall k :: k in before.rows && before.rows[k].claimed ==> k in after.rows)
  }

  lemma {:induction false} RemoveKeepsWellFormed(s: Store, key: string)
    requires WellFormed(s)
    ensures WellFormed(Remove(s, key))
    ensures key in s.rows ==> |Remove(s, key).order| == |s.order| - 1
  {
    WithoutKeepsDistinct(s.order, key);
  }

  lemma {:induction false} PutKeepsWellFormed(s: Store, key: string, row: Row)
    requires WellFormed(s)
    requires key in s.rows || |s.order| < MAX_PENDING
    ensures WellFormed(Put(s, key, row))
  {
  }

  /**
   * Pruning deletes exactly the unclaimed expired rows among those visited:
   * a claimed row never expires.
   */
  lemma {:induction false} PruneRemovesExactlyExpired(s: Store, keys: seq<string>, now: int)
    requires WellFormed(s)
    ensures WellFormed(PrunedFrom(s, keys, now))
    ensures OnlyUnclaimedRemoved(s, PrunedFrom(s, keys, now))
    ensures forall k :: k in s.rows ==>
      (k in PrunedFrom(s, keys, now).rows <==> !(k in keys && Prunable(s.rows[k], now)))
    decreases keys
  {
    if keys != [] {
      assert keys == [keys[0]] + keys[1..];
      if keys[0] in s.rows && Prunable(s.rows[keys[0]], now) {
        RemoveKeepsWellFormed(s, keys[0]);
        PruneRemovesExactlyExpired(Remove(s, keys[0]), keys[1..], now);
      } else {
        PruneRemovesExactlyExpired(s, keys[1..], now);
      }
    }
  }

  /**
   * Saving never touches a claimed row. It reports success exactly when the
   * slot now holds the new record unclaimed, refuses exactly when the slot is
   * claimed or the store is full of claimed rows, and stays within the cap.
   */
  lemma {:induction false} SaveIsFenced(s: Store, p: Pending, now: int)
    requires WellFormed(s)
    ensures var (after, ok) := Save(s, p, now);
      && WellFormed(after)
      && (ok ==> p.externalId in after.rows && after.rows[p.externalId] == Row(p, false))
      && (ok ==> !(p.externalId in s.rows && s.rows[p.externalId].claimed))
      && (forall k :: k in s.rows && s.rows[k].claimed ==> k in after.rows && after.rows[k] == s.rows[k])
      && (forall k :: k in after.rows && !(ok && k == p.externalId) ==> k in s.rows && after.rows[k] == s.rows[k])
    ensures !Save(s, p, now).1 <==>
      if p.externalId in s.rows then s.rows[p.externalId].claimed
      else |s.order| == MAX_PENDING && forall k :: k in s.rows ==> s.rows[k].claimed
  {
    var key := p.externalId;
    if key in s.rows {
      if !s.rows[key].claimed {
        PutKeepsWellFormed(s, key, Row(p, false));
      }
    } else {
      PruneRemovesExactlyExpired(s, s.order, now);
      var kept := Pruned(s, now);
      DistinctLength(s.order, s.rows.Keys);
      DistinctLength(kept.order, kept.rows.Keys);
      CardSubset(kept.rows.Keys, s.rows.Keys);
      if |kept.order| < MAX_PENDING {
        assert kept.rows.Keys != s.rows.Keys || |s.order| < MAX_PENDING;
        PutKeepsWellFormed(kept, key, Row(p, false));
      } else {
        match FirstUnclaimed(kept.rows, kept.order)
        case None =>
        case Some(victim) =>
          RemoveKeepsWellFormed(kept, victim);
          PutKeepsWellFormed(Remove(kept, victim), key, Row(p, false));
      }
    }
  }

  /** Whatever the caller passes, an operation without the lease leaves claimed rows alone. */
  lemma {:induction false} ReadersAndCancellersAreFenced(s: Store, key: string, nonce: Option<string>, now: int)
    requires WellFormed(s)
    ensures WellFormed(CancelPending(s, key, nonce, now).0)
    ensures OnlyUnclaimedRemoved(s, CancelPending(s, key, nonce, now).0)
    ensures CancelPending(s, key, nonce, now).1 == Cancelled ==>
      key in s.rows && !s.rows[key].claimed && key !in CancelPending(s, key, nonce, now).0.rows
    ensures CancelPending(s, key, nonce, now).1 == Processing <==> key in s.rows && s.rows[key].claimed
    ensures WellFormed(GetPendingState(s, key, now).0)
    ensures OnlyUnclaimedRemoved(s, GetPendingState(s, key, now).0)
    ensures GetPendingState(s, key, now).1 == StateNone <==> key !in s.rows
    ensures GetPendingState(s, key, now).1 == StateProcessing <==> key in s.rows && s.rows[key].claimed
    ensures GetPendingState(s, key, now).1 == StateExpired <==>
      key in s.rows && !s.rows[key].claimed && s.rows[key].record.expiresAt <= now
    ensures key in s.rows && key !in GetPendingState(s, key, now).0.rows <==>
      GetPendingState(s, key, now).1 == StateExpired
  {
    RemoveKeepsWellFormed(s, key);
  }

  /**
   * A claim takes an unclaimed, unexpired row whose approval binding matches and
   * changes nothing but its lease and its claimed flag.
   */
  lemma {:induction false} ClaimIsExclusive(s: Store, key: string, userId: Option<int>, b: Binding, now: int, lease: string)
    requires WellFormed(s)
    ensures var (after, got) := TakeValid(s, key, userId, b, now, lease);
      && WellFormed(after)
      && (got.None? ==> OnlyUnclaimedRemoved(s, after))
      && (got.Some? ==>
        && key in s.rows && !s.rows[key].claimed
        && s.rows[key].record.expiresAt > now
        && BindingAccepts(b, s.rows[key].record)
        && (userId.Some? ==> got.value.userId == userId.value)
        && got.value == s.rows[key].record.(leaseToken := Some(lease))
        && HeldBy(after, key, lease)
        && after.rows == s.rows[key := Row(got.value, true)])
  {
    RemoveKeepsWellFormed(s, key);
    if key in s.rows {
      PutKeepsWellFormed(s, key, Row(s.rows[key].record.(leaseToken := Some(lease)), true));
    }
  }

  /** A claimed row changes only under its own lease token. */
  lemma {:induction false} LeaseOperationsAreFenced(s: Store, key: string, lease: string, now: int)
    requires WellFormed(s)
    ensures WellFormed(RevertToPending(s, key, lease, now))
    ensures WellFormed(CancelClaimed(s, key, lease))
    ensures !HeldBy(s, key, lease) ==>
      RevertToPending(s, key, lease, now) == s && CancelClaimed(s, key, lease) == s
    ensures HeldBy(s, key, lease) ==>
      && RevertToPending(s, key, lease, now).rows ==
           s.rows[key := Row(s.rows[key].record.(expiresAt := now + PENDING_TTL_MS), false)]
      && CancelClaimed(s, key, lease).rows == s.rows - {key}
  {
    RemoveKeepsWellFormed(s, key);
    if key in s.rows {
      PutKeepsWellFormed(s, key, Row(s.rows[key].record.(expiresAt := now + PENDING_TTL_MS), false));
    }
  }

  // ----- exactly what each operation does -------------------------------------------

  /** A user's cancel goes through for exactly the pending, unexpired row it names; an expired one is cleared away too. */
  lemma {:induction false} CancelIsExact(s: Store, key: string, nonce: Option<string>, now: int)
    requires WellFormed(s)
    ensures var (after, outcome) := CancelPending(s, key, nonce, now);
      var named := key in s.rows && !s.rows[key].claimed && (nonce.Some? ==> s.rows[key].record.nonce == nonce);
      && (outcome == Cancelled <==> named && s.rows[key].record.expiresAt > now)
      && (outcome == Processing <==> key in s.rows && s.rows[key].claimed)
      && after.rows == (if named then s.rows - {key} else s.rows)
      && after.order == Listed(s.order, after.rows.Keys)
  {
    AllListed(s);
    WithoutIsListed(s, key);
  }

  /** The same for a query of the state. */
  lemma {:induction false} QueryIsExact(s: Store, key: string, now: int)
    requires WellFormed(s)
    ensures var (after, state) := GetPendingState(s, key, now);
      var expired := key in s.rows && !s.rows[key].claimed && s.rows[key].record.expiresAt <= now;
      && after.rows == (if expired then s.rows - {key} else s.rows)
      && after.order == Listed(s.order, after.rows.Keys)
      && (state == StatePending <==> key in s.rows && !s.rows[key].claimed && s.rows[key].record.expiresAt > now)
  {
    AllListed(s);
    WithoutIsListed(s, key);
  }

  /** What is asked for, if it is not empty, is what the record has. */
  predicate Matches(want: Option<string>, have: Option<string>) {
    want.Some? && want.value != "" ==> have.Some? && have.value == want.value
  }

  lemma {:induction false} BindingIsExact(b: Binding, p: Pending)
    ensures BindingAccepts(b, p) <==>
      && Matches(b.platform, p.platform) && Matches(b.mappingVersion, p.mappingVersion)
      && Matches(b.intentHash, p.intentHash) && Matches(b.argsHash, p.argsHash)
      && Matches(b.nonce, p.nonce)
  {
  }

  /** A claim goes through for exactly the pending, unexpired row of that user whose every binding asked for matches. */
  lemma {:induction false} ClaimIsExact(s: Store, key: string, userId: Option<int>, b: Binding, now: int, lease: string)
    requires WellFormed(s)
    ensures var (after, got) := TakeValid(s, key, userId, b, now, lease);
      && (got.Some? <==>
            && key in s.rows && !s.rows[key].claimed && s.rows[key].record.expiresAt > now
            && var p := s.rows[key].record;
               && (userId.Some? ==> p.userId == userId.value)
               && Matches(b.platform, p.platform) && Matches(b.mappingVersion, p.mappingVersion)
               && Matches(b.intentHash, p.intentHash) && Matches(b.argsHash, p.argsHash)
               && Matches(b.nonce, p.nonce))
      && (got.None? ==>
            after.rows == if key in s.rows && !s.rows[key].claimed && s.rows[key].record.expiresAt <= now
                          then s.rows - {key} else s.rows)
      && (got.Some? ==>
            && got.value == s.rows[key].record.(leaseToken := Some(lease))
            && after.rows == s.rows[key := Row(got.value, true)])
      && after.order == Listed(s.order, after.rows.Keys)
  {
    hide Listed;
    hide Matches;
    hide BindingAccepts;
    AllListed(s);
    WithoutIsListed(s, key);
    hide WellFormed;
    hide Without;
    if key in s.rows {
      BindingIsExact(b, s.rows[key].record);
      var p := s.rows[key].record.(leaseToken := Some(lease));
      assert s.rows[key := Row(p, true)].Keys == s.rows.Keys;
    }
  }

  /** The keys of a set, in the order they were inserted. */
  ghost function Listed(order: seq<string>, keys: set<string>): seq<string> {
    if order == [] then []
    else (if order[0] in keys then [order[0]] else []) + Listed(order[1..], keys)
  }

  lemma {:induction false} ListedAll(order: seq<string>, keys: set<string>)
    requires forall k :: k in order ==> k in keys
    ensures Listed(order, keys) == order
  {
    if order != [] {
      ListedAll(order[1..], keys);
    }
  }

  lemma {:induction false} AllListed(s: Store)
    requires WellFormed(s)
    ensures Listed(s.order, s.rows.Keys) == s.order
  {
    ListedAll(s.order, s.rows.Keys);
  }

  lemma {:induction false} WithoutListed(order: seq<string>, keys: set<string>, key: string)
    ensures Without(Listed(order, keys), key) == Listed(order, keys - {key})
  {
    if order != [] {
      WithoutListed(order[1..], keys, key);
      var rest := Listed(order[1..], keys);
      if order[0] in keys {
        assert ([order[0]] + rest)[1..] == rest;
      } else {
        assert [] + rest == rest;
      }
    }
  }

  lemma {:induction false} WithoutIsListed(s: Store, key: string)
    requires WellFormed(s)
    ensures Without(s.order, key) == Listed(s.order, (s.rows - {key}).Keys)
  {
    AllListed(s);
    WithoutListed(s.order, s.rows.Keys, key);
    assert (s.rows - {key}).Keys == s.rows.Keys - {key};
  }

  /** The rows that pruning leaves. */
  ghost function Unexpired(rows: map<string, Row>, now: int): map<string, Row> {
    map k | k in rows && (rows[k].claimed || rows[k].record.expiresAt > now) :: rows[k]
  }

  lemma {:induction false} PrunedOrder(s: Store, keys: seq<string>, order: seq<string>, now: int)
    requires s.order == Listed(order, s.rows.Keys)
    ensures PrunedFrom(s, keys, now).order == Listed(order, PrunedFrom(s, keys, now).rows.Keys)
    decreases keys
  {
    if keys != [] {
      if keys[0] in s.rows && Prunable(s.rows[keys[0]], now) {
        WithoutListed(order, s.rows.Keys, keys[0]);
        assert (s.rows - {keys[0]}).Keys == s.rows.Keys - {keys[0]};
        PrunedOrder(Remove(s, keys[0]), keys[1..], order, now);
      } else {
        PrunedOrder(s, keys[1..], order, now);
      }
    }
  }

  lemma {:induction false} PruneLeavesTheUnexpired(s: Store, now: int)
    requires WellFormed(s)
    ensures Pruned(s, now).rows == Unexpired(s.rows, now)
    ensures Pruned(s, now).order == Listed(s.order, Unexpired(s.rows, now).Keys)
  {
    PruneRemovesExactlyExpired(s, s.order, now);
    AllListed(s);
    PrunedOrder(s, s.order, s.order, now);
  }

  lemma {:induction false} FirstUnclaimedIsFirst(rows: map<string, Row>, order: seq<string>) returns (i: nat)
    requires FirstUnclaimed(rows, order).Some?
    ensures i < |order| && order[i] == FirstUnclaimed(rows, order).value
    ensures forall j :: 0 <= j < i && order[j] in rows ==> rows[order[j]].claimed
  {
    if order[0] in rows && !rows[order[0]].claimed {
      i := 0;
    } else {
      var k := FirstUnclaimedIsFirst(rows, order[1..]);
      i := k + 1;
    }
  }

  /** The slot was pending: it gets the new record, in its old place. */
  lemma {:induction false} SaveOverwrites(s: Store, p: Pending, now: int)
    requires p.externalId in s.rows
    ensures Save(s, p, now)
      == if s.rows[p.externalId].claimed then (s, false)
         else (Store(s.order, s.rows[p.externalId := Row(p, false)]), true)
  {
  }

  /** There is room once the expired are gone: they go, and the new row is the last. */
  lemma {:induction false} SaveAppends(s: Store, p: Pending, now: int)
    requires WellFormed(s) && p.externalId !in s.rows
    requires |s.order| < 10_000 || Unexpired(s.rows, now) != s.rows
    ensures var kept := Unexpired(s.rows, now);
      Save(s, p, now)
        == (Store(Listed(s.order, kept.Keys) + [p.externalId], kept[p.externalId := Row(p, false)]), true)
  {
    PruneLeavesTheUnexpired(s, now);
    PruneRemovesExactlyExpired(s, s.order, now);
    var kept := Pruned(s, now);
    DistinctLength(s.order, s.rows.Keys);
    DistinctLength(kept.order, kept.rows.Keys);
    CardSubset(kept.rows.Keys, s.rows.Keys);
    if kept.rows.Keys == s.rows.Keys {
      assert kept.rows == s.rows;
    }
  }

  /** There is none: the oldest unclaimed row makes way, and without one the save is refused. */
  lemma {:induction false} SaveEvictsTheOldest(s: Store, p: Pending, now: int) returns (i: nat)
    requires WellFormed(s) && p.externalId !in s.rows
    requires |s.order| == 10_000 && Unexpired(s.rows, now) == s.rows
    ensures (forall k :: k in s.rows ==> s.rows[k].claimed) ==> Save(s, p, now) == (s, false)
    ensures (exists k :: k in s.rows && !s.rows[k].claimed) ==>
      && i < |s.order| && s.order[i] in s.rows && !s.rows[s.order[i]].claimed
      && (forall j :: 0 <= j < i && s.order[j] in s.rows ==> s.rows[s.order[j]].claimed)
      && Save(s, p, now)
           == (Store(Listed(s.order, s.rows.Keys - {s.order[i]}) + [p.externalId],
                     (s.rows - {s.order[i]})[p.externalId := Row(p, false)]), true)
  {
    PruneLeavesTheUnexpired(s, now);
    AllListed(s);
    assert Pruned(s, now) == s;
    i := 0;
    if FirstUnclaimed(s.rows, s.order).Some? {
      i := FirstUnclaimedIsFirst(s.rows, s.order);
      WithoutIsListed(s, s.order[i]);
      assert (s.rows - {s.order[i]}).Keys == s.rows.Keys - {s.order[i]};
    }
  }

  // ----- the per-instance implementation ------------------------------------

  class MemoryRescheduleStore {
    var order: seq<string>
    var rows: map<string, Row>

    ghost function View(): Store
      reads this
    {
      Store(order, rows)
    }

    ghost predicate Valid()
      reads this
    {
      WellFormed(View())
    }

    constructor ()
      ensures Valid() && View() == Empty()
    {
      order, rows := [], map[];
    }

    method Delete(key: string)
      modifies this
      ensures View() == Remove(old(View()), key)
    {
      order, rows := Without(order, key), rows - {key};
    }

    method Set(key: string, row: Row)
      modifies this
      ensures View() == Put(old(View()), key, row)
    {
      if key !in rows {
        order := order + [key];
      }
      rows := rows[key := row];
    }

    method Prune(now: int)
      requires Valid()
      modifies this
      ensures Valid() && View() == Pruned(old(View()), now)
    {
      hide WellFormed;
      hide Remove;
      PruneRemovesExactlyExpired(View(), order, now);
      var keys := order;
      var i := 0;
      while i < |keys|
        invariant 0 <= i <= |keys|
        invariant PrunedFrom(View(), keys[i..], now) == PrunedFrom(old(View()), keys, now)
      {
        assert keys[i..][0] == keys[i] && keys[i..][1..] == keys[i + 1..];
        if keys[i] in rows && Prunable(rows[keys[i]], now) {
          Delete(keys[i]);
        }
        i := i + 1;
      }
    }

    method SavePending(p: Pending, now: int) returns (saved: bool)
      requires Valid()
      modifies this
      ensures Valid()
      ensures (View(), saved) == Save(old(View()), p, now)
    {
      SaveIsFenced(View(), p, now);
      var key := p.externalId;
      if key in rows && rows[key].claimed {
        return false;
      }
      if key !in rows {
        Prune(now);
        if |order| >= MAX_PENDING {
          var victim := FirstUnclaimed(rows, order);
          if victim.None? {
            return false;
          }
          Delete(victim.value);
        }
      }
      Set(key, Row(p, false));
      saved := true;
    }

    method Take(key: string, userId: Option<int>, b: Binding, now: int, lease: string) returns (got: Option<Pending>)
      requires Valid()
      modifies this
      ensures Valid()
      ensures (View(), got) == TakeValid(old(View()), key, userId, b, now, lease)
    {
      ClaimIsExclusive(View(), key, userId, b, now, lease);
      if key !in rows || rows[key].claimed {
        return None;
      }
      var p := rows[key].record;
      if p.expiresAt <= now {
        Delete(key);
        return None;
      }
      if (userId.Some? && p.userId != userId.value) || !BindingAccepts(b, p) {
        return None;
      }
      p := p.(leaseToken := Some(lease));
      Set(key, Row(p, true));
      got := Some(p);
    }

    method Revert(key: string, lease: string, now: int)
      requires Valid()
      modifies this
      ensures Valid() && View() == RevertToPending(old(View()), key, lease, now)
    {
      LeaseOperationsAreFenced(View(), key, lease, now);
      if HeldBy(Store(order, rows), key, lease) {
        Set(key, Row(rows[key].record.(expiresAt := now + PENDING_TTL_MS), false));
      }
    }

    method Cancel(key: string, nonce: Option<string>, now: int) returns (outcome: CancelOutcome)
      requires Valid()
      modifies this
      ensures Valid()
      ensures (View(), outcome) == CancelPending(old(View()), key, nonce, now)
    {
      ReadersAndCancellersAreFenced(View(), key, nonce, now);
      if key !in rows {
        return NoneToCancel;
      }
      if rows[key].claimed {
        return Processing;
      }
      if nonce.Some? && rows[key].record.nonce != nonce {
        return NoneToCancel;
      }
      var expired := rows[key].record.expiresAt <= now;
      Delete(key);
      outcome := if expired then NoneToCancel else Cancelled;
    }

    method ReleaseClaimed(key: string, lease: string)
      requires Valid()
      modifies this
      ensures Valid() && View() == CancelClaimed(old(View()), key, lease)
    {
      LeaseOperationsAreFenced(View(), key, lease, 0);
      if HeldBy(Store(order, rows), key, lease) {
        Delete(key);
      }
    }

    method PendingStateOf(key: string, now: int) returns (state: PendingState)
      requires Valid()
      modifies this
      ensures Valid()
      ensures (View(), state) == GetPendingState(old(View()), key, now)
    {
      ReadersAndCancellersAreFenced(View(), key, None, now);
      if key !in rows {
        return StateNone;
      }
      if rows[key].claimed {
        return StateProcessing;
      }
      if rows[key].record.expiresAt <= now {
        Delete(key);
        return StateExpired;
      }
      state := StatePending;
    }
  }
}
