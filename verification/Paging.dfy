/**
 * The bounded walk over platform mappings: pages of a keyset source, one after
 * the other, while rows come and go between the fetches.
 *
 * A snapshot of the source is the list of its row ids in order. Fetch `k` sees
 * snapshot `k`; once the snapshots are used up the source no longer changes.
 */
module Paging {
  import opened Prelude

  ghost predicate Rising(ids: seq<int>) {
    forall i, j :: 0 <= i < j < |ids| ==> ids[i] < ids[j]
  }

  /** The rows with an id beyond the cursor. */
  function Beyond(ids: seq<int>, cursor: Option<int>): seq<int> {
    if ids == [] || cursor.None? || ids[0] > cursor.value then ids else Beyond(ids[1..], cursor)
  }

  lemma {:induction false} BeyondIsSuffix(ids: seq<int>, cursor: Option<int>)
    requires Rising(ids)
    ensures |Beyond(ids, cursor)| <= |ids| && Beyond(ids, cursor) == ids[|ids| - |Beyond(ids, cursor)|..]
    ensures Rising(Beyond(ids, cursor))
    ensures forall id :: id in Beyond(ids, cursor) <==> id in ids && (cursor.Some? ==> id > cursor.value)
  {
    if ids != [] && cursor.Some? && ids[0] <= cursor.value {
      assert ids == [ids[0]] + ids[1..];
      BeyondIsSuffix(ids[1..], cursor);
    } else if ids != [] {
      assert forall i :: 0 <= i < |ids| ==> ids[0] <= ids[i];
    }
  }

  /** A page, or the error of asking an empty page for its last row. */
  datatype Page = Page(items: seq<int>, nextId: Option<int>) | PageThrows

  /** A short page declares no continuation; a full one does, and proves nothing. */
  function FullPageAsMappingPage(items: seq<int>, limit: nat): Page {
    if |items| != limit then Page(items, None)
    else if items == [] then PageThrows
    else Page(items, Some(items[|items| - 1]))
  }

  /** The keyset read: rows beyond the cursor, in order, at most `limit` of them. */
  function Fetch(ids: seq<int>, cursor: Option<int>, limit: nat): Page {
    var rows := Beyond(ids, cursor);
    FullPageAsMappingPage(if |rows| <= limit then rows else rows[..limit], limit)
  }

  /** Only a limit of zero throws; a page without continuation holds all that is left. */
  lemma {:induction false} FetchReads(ids: seq<int>, cursor: Option<int>, limit: nat)
    requires Rising(ids)
    ensures var page, rows := Fetch(ids, cursor, limit), Beyond(ids, cursor);
      && (page.PageThrows? <==> limit == 0)
      && (page.Page? ==>
            && page.items == (if |rows| < limit then rows else rows[..limit])
            && (page.nextId.None? <==> |rows| < limit)
            && (page.nextId.Some? ==>
                  && page.nextId.value == page.items[|page.items| - 1] && page.nextId.value in rows
                  && (cursor.Some? ==> cursor.value < page.nextId.value)))
  {
    BeyondIsSuffix(ids, cursor);
  }

  function SnapshotAt(snapshots: seq<seq<int>>, k: nat): seq<int>
    requires snapshots != []
  {
    if k < |snapshots| then snapshots[k] else snapshots[|snapshots| - 1]
  }

  /** The row is there at each of the first `n` fetches. */
  ghost predicate PresentThroughout(snapshots: seq<seq<int>>, n: nat, id: int)
    requires snapshots != []
  {
    forall k :: 0 <= k < n ==> id in SnapshotAt(snapshots, k)
  }

  ghost predicate SeenBy(snapshots: seq<seq<int>>, n: nat, id: int)
    requires snapshots != []
  {
    exists k :: 0 <= k < n && id in SnapshotAt(snapshots, k)
  }

  /** In id order, without repetition, and only rows that were there. */
  ghost predicate Sound(snapshots: seq<seq<int>>, n: nat, delivered: seq<int>)
    requires snapshots != []
  {
    Rising(delivered) && forall id :: id in delivered ==> SeenBy(snapshots, n, id)
  }

  /** All rows that were there throughout. */
  ghost predicate Complete(snapshots: seq<seq<int>>, n: nat, delivered: seq<int>)
    requires snapshots != []
  {
    forall id :: PresentThroughout(snapshots, n, id) ==> id in delivered
  }

  ghost predicate AllRising(snapshots: seq<seq<int>>) {
    forall k :: 0 <= k < |snapshots| ==> Rising(snapshots[k])
  }

  lemma {:induction false} SnapshotRises(snapshots: seq<seq<int>>, k: nat)
    requires snapshots != [] && AllRising(snapshots)
    ensures Rising(SnapshotAt(snapshots, k)) && Rising(snapshots[0]) && Rising(snapshots[|snapshots| - 1])
  {
  }

  datatype Ending = Exhausted | Stopped | Threw

  /** Everything at or before the cursor that was there all along has been delivered. */
  ghost predicate CaughtUp(snapshots: seq<seq<int>>, n: nat, delivered: seq<int>, cursor: Option<int>)
    requires snapshots != []
  {
    && Sound(snapshots, n, delivered)
    && (delivered == [] <==> cursor.None?)
    && (cursor.Some? ==> delivered[|delivered| - 1] == cursor.value)
    && (forall id :: cursor.Some? && id <= cursor.value && PresentThroughout(snapshots, n, id) ==> id in delivered)
  }

  lemma {:induction false} PageIsSound(
      snapshots: seq<seq<int>>, n: nat, delivered: seq<int>, cursor: Option<int>, page: seq<int>)
    requires snapshots != [] && Rising(SnapshotAt(snapshots, n)) && Sound(snapshots, n, delivered)
    requires delivered == [] <==> cursor.None?
    requires cursor.Some? ==> delivered[|delivered| - 1] == cursor.value
    requires page <= Beyond(SnapshotAt(snapshots, n), cursor)
    ensures Sound(snapshots, n + 1, delivered + page)
  {
    var ids := SnapshotAt(snapshots, n);
    BeyondIsSuffix(ids, cursor);
    assert forall id :: id in page ==> id in Beyond(ids, cursor);
    hide Beyond;
    JoinRises(delivered, page, cursor);
    forall id | id in delivered + page
      ensures SeenBy(snapshots, n + 1, id)
    {
      if id in page {
        assert id in SnapshotAt(snapshots, n);
      } else {
        assert SeenBy(snapshots, n, id);
      }
    }
  }

  /** One more page keeps the walk caught up. */
  lemma {:induction false} PageCatchesUp(
      snapshots: seq<seq<int>>, n: nat, delivered: seq<int>, cursor: Option<int>, page: seq<int>)
    requires snapshots != [] && Rising(SnapshotAt(snapshots, n)) && CaughtUp(snapshots, n, delivered, cursor)
    requires page != [] && page <= Beyond(SnapshotAt(snapshots, n), cursor)
    ensures CaughtUp(snapshots, n + 1, delivered + page, Some(page[|page| - 1]))
  {
    PageIsSound(snapshots, n, delivered, cursor, page);
    hide Sound;
    var ids := SnapshotAt(snapshots, n);
    var rows, last := Beyond(ids, cursor), page[|page| - 1];
    BeyondIsSuffix(ids, cursor);
    hide Beyond;
    forall id | id <= last && PresentThroughout(snapshots, n + 1, id)
      ensures id in delivered + page
    {
      assert PresentThroughout(snapshots, n, id) && id in ids;
      if cursor.None? || id > cursor.value {
        assert id in rows;
        PrefixHolds(rows, page, id);
      }
    }
  }

  lemma {:induction false} JoinRises(delivered: seq<int>, page: seq<int>, cursor: Option<int>)
    requires Rising(delivered) && Rising(page)
    requires delivered == [] <==> cursor.None?
    requires cursor.Some? ==> delivered[|delivered| - 1] == cursor.value && forall id :: id in page ==> id > cursor.value
    ensures Rising(delivered + page)
  {
    var all := delivered + page;
    forall i, j | 0 <= i < j < |all|
      ensures all[i] < all[j]
    {
      if i < |delivered| <= j {
        assert all[i] <= delivered[|delivered| - 1];
        assert all[j] in page;
      }
    }
  }

  lemma {:induction false} PrefixHolds(rows: seq<int>, page: seq<int>, id: int)
    requires Rising(rows) && page != [] && page <= rows && id in rows && id <= page[|page| - 1]
    ensures id in page
  {
    var k :| 0 <= k < |rows| && rows[k] == id;
    assert k < |page| by {
      assert page[|page| - 1] == rows[|page| - 1];
    }
    assert page[k] == id;
  }

  /** After a page that reaches the end, nothing that was there all along is missing. */
  lemma {:induction false} EndCatchesAll(
      snapshots: seq<seq<int>>, n: nat, delivered: seq<int>, cursor: Option<int>, page: seq<int>)
    requires snapshots != [] && Rising(SnapshotAt(snapshots, n)) && CaughtUp(snapshots, n, delivered, cursor)
    requires page == Beyond(SnapshotAt(snapshots, n), cursor)
    ensures Sound(snapshots, n + 1, delivered + page) && Complete(snapshots, n + 1, delivered + page)
  {
    BeyondIsSuffix(SnapshotAt(snapshots, n), cursor);
    if page != [] {
      PageCatchesUp(snapshots, n, delivered, cursor, page);
    } else {
      assert delivered + page == delivered;
      forall id | id in delivered
        ensures SeenBy(snapshots, n + 1, id)
      {
        var k :| 0 <= k < n && id in SnapshotAt(snapshots, k);
      }
    }
    forall id | PresentThroughout(snapshots, n + 1, id)
      ensures id in delivered + page
    {
      assert id in SnapshotAt(snapshots, n);
      if cursor.Some? && id <= cursor.value {
        assert PresentThroughout(snapshots, n, id);
      } else {
        assert id in page;
      }
    }
  }

  // ----- a source that does not change -----------------------------------------------------

  /** `n` full pages of a fixed source have been delivered. */
  ghost predicate FullPages(ids: seq<int>, limit: nat, n: nat, delivered: seq<int>) {
    |delivered| == n * limit <= |ids| && delivered == ids[..|delivered|]
  }

  /** How many fetches a walk over a fixed source takes. */
  function FetchCount(rows: nat, limit: nat): nat
    requires limit > 0
  {
    rows / limit + 1
  }

  lemma {:induction false} FixedFetch(ids: seq<int>, limit: nat, n: nat, delivered: seq<int>, cursor: Option<int>)
    requires Rising(ids) && limit > 0 && FullPages(ids, limit, n, delivered)
    requires delivered == [] <==> cursor.None?
    requires cursor.Some? ==> delivered[|delivered| - 1] == cursor.value
    ensures Beyond(ids, cursor) == ids[|delivered|..]
    ensures |Beyond(ids, cursor)| >= limit ==> FullPages(ids, limit, n + 1, delivered + Beyond(ids, cursor)[..limit])
    ensures |Beyond(ids, cursor)| < limit ==> FetchCount(|ids|, limit) == n + 1 && delivered + Beyond(ids, cursor) == ids
  {
    CursorCuts(ids, |delivered|, cursor);
    if |Beyond(ids, cursor)| >= limit {
      assert (n + 1) * limit == n * limit + limit;
    } else {
      Quotient(|ids|, limit, n);
    }
  }

  lemma {:induction false} Quotient(total: nat, limit: nat, n: nat)
    requires limit > 0 && n * limit <= total < n * limit + limit
    ensures total / limit == n
  {
    var q, r := total / limit, total % limit;
    assert total == q * limit + r && 0 <= r < limit;
    if q < n {
      Scales(q + 1, n, limit);
    } else if n < q {
      Scales(n + 1, q, limit);
    }
  }

  lemma {:induction false} Scales(a: nat, b: nat, limit: nat)
    requires a <= b
    ensures a * limit <= b * limit
  {
    assert (b - a) * limit >= 0;
  }

  lemma {:induction false} CursorCuts(ids: seq<int>, m: nat, cursor: Option<int>)
    requires Rising(ids) && m <= |ids|
    requires m == 0 <==> cursor.None?
    requires m > 0 ==> cursor == Some(ids[m - 1])
    ensures Beyond(ids, cursor) == ids[m..]
  {
    if m > 1 {
      CursorCuts(ids[1..], m - 1, cursor);
      assert ids[1..][m - 1..] == ids[m..];
    }
  }

  lemma {:induction false} NothingDelivered(snapshots: seq<seq<int>>, limit: nat)
    requires snapshots != []
    ensures CaughtUp(snapshots, 0, [], None) && Steady(snapshots, limit, 0, [])
  {
  }

  // ----- one turn of the walk ---------------------------------------------------------------

  /** On a fixed source only full pages have been delivered so far. */
  ghost predicate Steady(snapshots: seq<seq<int>>, limit: nat, n: nat, delivered: seq<int>)
    requires snapshots != []
  {
    |snapshots| == 1 && limit > 0 ==> FullPages(snapshots[0], limit, n, delivered)
  }

  /** Nothing is missing, and a fixed source was read once and in as few fetches as promised. */
  ghost predicate AllDelivered(snapshots: seq<seq<int>>, limit: nat, n: nat, delivered: seq<int>)
    requires snapshots != [] && limit > 0
  {
    && Sound(snapshots, n, delivered) && Complete(snapshots, n, delivered)
    && (|snapshots| == 1 ==> delivered == snapshots[0] && n == FetchCount(|snapshots[0]|, limit))
  }

  /** A page without continuation ends the walk. */
  lemma {:induction false} LastTurn(
      snapshots: seq<seq<int>>, limit: nat, n: nat, delivered: seq<int>, cursor: Option<int>)
    requires snapshots != [] && AllRising(snapshots) && limit > 0
    requires CaughtUp(snapshots, n, delivered, cursor) && Steady(snapshots, limit, n, delivered)
    requires Fetch(SnapshotAt(snapshots, n), cursor, limit).nextId.None?
    ensures AllDelivered(snapshots, limit, n + 1, delivered + Fetch(SnapshotAt(snapshots, n), cursor, limit).items)
  {
    hide Fetch;
    hide Beyond;
    hide Sound;
    hide Complete;
    hide Rising;
    hide AllRising;
    hide FullPages;
    hide FetchCount;
    hide PresentThroughout;
    SnapshotRises(snapshots, n);
    FetchReads(SnapshotAt(snapshots, n), cursor, limit);
    EndCatchesAll(snapshots, n, delivered, cursor, Beyond(SnapshotAt(snapshots, n), cursor));
    if |snapshots| == 1 {
      FixedFetch(snapshots[0], limit, n, delivered, cursor);
    }
  }

  /** A page with a continuation brings the walk forward. */
  lemma {:induction false} NextTurn(
      snapshots: seq<seq<int>>, limit: nat, n: nat, delivered: seq<int>, cursor: Option<int>)
    requires snapshots != [] && AllRising(snapshots) && limit > 0
    requires CaughtUp(snapshots, n, delivered, cursor) && Steady(snapshots, limit, n, delivered)
    requires Fetch(SnapshotAt(snapshots, n), cursor, limit).nextId.Some?
    ensures var page, end := Fetch(SnapshotAt(snapshots, n), cursor, limit), snapshots[|snapshots| - 1];
      && CaughtUp(snapshots, n + 1, delivered + page.items, page.nextId)
      && Steady(snapshots, limit, n + 1, delivered + page.items)
      && (n >= |snapshots| ==> |Beyond(end, page.nextId)| < |Beyond(end, cursor)|)
  {
    hide Fetch;
    hide Beyond;
    hide Sound;
    hide Complete;
    hide Rising;
    hide AllRising;
    hide FullPages;
    hide FetchCount;
    hide PresentThroughout;
    SnapshotRises(snapshots, n);
    FetchReads(SnapshotAt(snapshots, n), cursor, limit);
    var page := Fetch(SnapshotAt(snapshots, n), cursor, limit);
    PageCatchesUp(snapshots, n, delivered, cursor, page.items);
    FurtherIsShorter(snapshots[|snapshots| - 1], cursor, page.nextId);
    if |snapshots| == 1 {
      FixedFetch(snapshots[0], limit, n, delivered, cursor);
    }
  }

  /** Any page that is not empty leaves the walk caught up to its last row. */
  lemma {:induction false} AnyTurn(
      snapshots: seq<seq<int>>, limit: nat, n: nat, delivered: seq<int>, cursor: Option<int>)
    requires snapshots != [] && AllRising(snapshots) && CaughtUp(snapshots, n, delivered, cursor)
    ensures var page := Fetch(SnapshotAt(snapshots, n), cursor, limit);
      && (page.PageThrows? <==> limit == 0)
      && (page.Page? && page.items == [] ==> page.nextId.None?)
      && (page.Page? && page.items != [] ==>
            CaughtUp(snapshots, n + 1, delivered + page.items, Some(page.items[|page.items| - 1])))
  {
    hide Fetch;
    hide Beyond;
    hide Sound;
    hide Complete;
    hide Rising;
    hide AllRising;
    hide FullPages;
    hide FetchCount;
    hide PresentThroughout;
    SnapshotRises(snapshots, n);
    FetchReads(SnapshotAt(snapshots, n), cursor, limit);
    var page := Fetch(SnapshotAt(snapshots, n), cursor, limit);
    if page.Page? && page.items != [] {
      PageCatchesUp(snapshots, n, delivered, cursor, page.items);
    }
  }

  // ----- the walk -----------------------------------------------------------------------------

  /**
   * The pages delivered are in id order without repetition; every row that was
   * there throughout is among them, and every row among them was there at some
   * fetch. On a fixed source of `n` rows exactly those rows are delivered, in
   * `n / limit + 1` fetches. A handler that stops the walk has seen everything up
   * to its last row. A limit of zero throws at the first fetch.
   */
  method IterateMappingPages(snapshots: seq<seq<int>>, limit: nat, stopAt: Option<nat>)
    returns (ending: Ending, delivered: seq<int>, fetches: nat)
    requires snapshots != [] && AllRising(snapshots)
    ensures ending.Threw? <==> limit == 0
    ensures ending.Threw? ==> delivered == [] && fetches == 1
    ensures ending.Exhausted? ==> AllDelivered(snapshots, limit, fetches, delivered)
    ensures ending.Stopped? ==>
      && stopAt == Some(fetches - 1) && delivered != []
      && CaughtUp(snapshots, fetches, delivered, Some(delivered[|delivered| - 1]))
    ensures stopAt.None? && limit > 0 ==> ending.Exhausted?
  {
    hide Fetch;
    hide Beyond;
    hide CaughtUp;
    hide AllRising;
    hide Steady;
    hide AllDelivered;
    var cursor := None;
    delivered, fetches := [], 0;
    NothingDelivered(snapshots, limit);
    while true
      invariant CaughtUp(snapshots, fetches, delivered, cursor)
      invariant Steady(snapshots, limit, fetches, delivered)
      invariant limit == 0 ==> delivered == [] && fetches == 0
      decreases
        if fetches < |snapshots| then |snapshots| - fetches else 0,
        |Beyond(snapshots[|snapshots| - 1], cursor)|
    {
      var page := Fetch(SnapshotAt(snapshots, fetches), cursor, limit);
      AnyTurn(snapshots, limit, fetches, delivered, cursor);
      if page.PageThrows? {
        return Threw, delivered, fetches + 1;
      }
      if page.nextId.None? {
        LastTurn(snapshots, limit, fetches, delivered, cursor);
      } else {
        NextTurn(snapshots, limit, fetches, delivered, cursor);
      }
      fetches := fetches + 1;
      if page.items == [] {
        assert delivered + [] == delivered;
        return Exhausted, delivered, fetches;
      }
      delivered := delivered + page.items;
      if stopAt == Some(fetches - 1) {
        return Stopped, delivered, fetches;
      }
      if page.nextId.None? {
        return Exhausted, delivered, fetches;
      }
      cursor := page.nextId;
    }
  }

  /** Behind a later cursor there are no more rows, and fewer if the cursor is on a row. */
  lemma {:induction false} FurtherIsShorter(ids: seq<int>, cursor: Option<int>, further: Option<int>)
    requires Rising(ids) && further.Some? && (cursor.Some? ==> cursor.value < further.value)
    ensures |Beyond(ids, further)| <= |Beyond(ids, cursor)|
    ensures further.value in Beyond(ids, cursor) ==> |Beyond(ids, further)| < |Beyond(ids, cursor)|
  {
    if ids != [] {
      if cursor.Some? && ids[0] <= cursor.value {
        FurtherIsShorter(ids[1..], cursor, further);
      } else if ids[0] <= further.value {
        BeyondIsSuffix(ids[1..], further);
      }
    }
  }
}
