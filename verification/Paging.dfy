/** Cursors and pages of the explorer RPCs. */
module Paging {
  import opened Prelude

  // ---- block ranges ----------------------------------------------------------------------

  datatype Range = Range(start: nat, end: nat)

  /** Ranges newest first that tile `[first, last]` exactly. */
  ghost predicate Tiles(ranges: seq<Range>, first: nat, last: nat) {
    && ranges != [] && ranges[0].end == last && ranges[|ranges| - 1].start == first
    && (forall i :: 0 <= i < |ranges| ==> ranges[i].start <= ranges[i].end)
    && (forall i :: 0 < i < |ranges| ==> ranges[i].end + 1 == ranges[i - 1].start)
  }

  lemma TilesExtend(ranges: seq<Range>, last: nat, r: Range)
    requires r.start <= r.end && if ranges == [] then r.end == last else Tiles(ranges, r.end + 1, last)
    ensures Tiles(ranges + [r], r.start, last)
  {
    var more := ranges + [r];
    assert forall i :: 0 <= i < |ranges| ==> more[i] == ranges[i];
  }

  /** Split `[first, last]` into ranges of at most `maxBlocks` blocks, newest first. */
  method ReverseInclusiveBlockRanges(first: u64, last: u64, maxBlocks: u64) returns (ranges: seq<Range>)
    ensures ranges == [] <==> last < first || maxBlocks == 0
    ensures ranges != [] ==> Tiles(ranges, first, last)
    ensures forall i :: 0 <= i < |ranges| ==> ranges[i].end - ranges[i].start + 1 <= maxBlocks
    ensures forall i :: 0 <= i < |ranges| - 1 ==> ranges[i].end - ranges[i].start + 1 == maxBlocks
  {
    if last < first || maxBlocks == 0 {
      return [];
    }
    ranges := [];
    var end: nat := last;
    while true
      invariant first <= end <= last
      invariant if ranges == [] then end == last else Tiles(ranges, end + 1, last)
      invariant forall i :: 0 <= i < |ranges| ==> ranges[i].end - ranges[i].start + 1 == maxBlocks
      decreases end
    {
      hide Tiles;
      var start := if end < maxBlocks - 1 then 0 else end - (maxBlocks - 1);
      if start < first {
        start := first;
      }
      TilesExtend(ranges, last, Range(start, end));
      ranges := ranges + [Range(start, end)];
      if start == first {
        return;
      }
      end := start - 1;
    }
  }

  /** A tiling covers every block of the interval exactly once. */
  lemma {:induction false} TilesCoverOnce(ranges: seq<Range>, first: nat, last: nat, block: nat)
    requires Tiles(ranges, first, last)
    ensures first <= block <= last <==> exists i :: 0 <= i < |ranges| && ranges[i].start <= block <= ranges[i].end
    ensures forall i, j :: 0 <= i < j < |ranges| ==> ranges[j].end < ranges[i].start
  {
    var n := |ranges| - 1;
    if n > 0 {
      var rest := ranges[..n];
      assert rest[|rest| - 1].start == ranges[n].end + 1;
      TilesCoverOnce(rest, ranges[n].end + 1, last, block);
      if first <= block <= last {
        if block <= ranges[n].end {
          assert ranges[n].start <= block <= ranges[n].end;
        } else {
          var i :| 0 <= i < |rest| && rest[i].start <= block <= rest[i].end;
          assert ranges[i].start <= block <= ranges[i].end;
        }
      }
      if i :| 0 <= i < |ranges| && ranges[i].start <= block <= ranges[i].end {
        if i < n {
          assert rest[i].start <= block <= rest[i].end;
        }
      }
      forall i, j | 0 <= i < j < |ranges| ensures ranges[j].end < ranges[i].start {
        if j == n {
          assert rest[|rest| - 1] == ranges[n - 1];
          assert i == n - 1 || rest[n - 1].end < rest[i].start;
        } else {
          assert rest[j].end < rest[i].start;
        }
      }
    } else {
      assert ranges[0].start == first && ranges[0].end == last;
    }
  }

  // ---- batch pages -----------------------------------------------------------------------

  const LIST_BATCHES_DEFAULT_LIMIT: nat := 20
  const LIST_BATCHES_MAX_LIMIT: nat := 100

  /** One page: whether the pending batch leads it, the submitted batches, and the next cursor. */
  datatype BatchPage = BatchPage(pending: bool, batches: seq<nat>, next: Option<u64>)

  /** Batch numbers from `end` down to `start`. */
  function Down(end: nat, start: nat): seq<nat> {
    if end < start then [] else [end] + (if end == 0 then [] else Down(end - 1, start))
  }

  /** One page of at most `limit` batches; the cursor past a lone pending batch saturates at 64 bits. */
  function ListBatches(limit: nat, latest: u64, hasPending: bool, cursor: Option<u64>): BatchPage
    requires 0 < limit
  {
    var pending := cursor.None? && hasPending;
    var left := if pending then limit - 1 else limit;
    if latest == 0 || left == 0 then
      BatchPage(pending, [], if latest > 0 && left == 0 then Some(Min(latest + 1, U64_MAX)) else None)
    else if cursor == Some(0) then BatchPage(false, [], None)
    else
      var end := if cursor.Some? then Min(cursor.value - 1, latest) else latest;
      var start := if end < left then 1 else end - (left - 1);
      BatchPage(pending, Down(end, start), if start > 1 then Some(start) else None)
  }

  /** All submitted batches a client sees by following cursors. */
  function FollowBatches(limit: nat, latest: u64, hasPending: bool, cursor: u64): seq<nat>
    requires 0 < limit && 1 < cursor
    decreases cursor
  {
    var page := ListBatches(limit, latest, hasPending, Some(cursor));
    page.batches + if page.next.Some? && 1 < page.next.value < cursor
      then FollowBatches(limit, latest, hasPending, page.next.value) else []
  }

  lemma {:induction false} DownSplits(end: nat, mid: nat, start: nat)
    requires start <= mid <= end + 1
    ensures Down(end, mid) + (if mid == 0 then [] else Down(mid - 1, start)) == Down(end, start)
  {
    if mid <= end {
      if end > 0 {
        if mid < end + 1 {
          DownSplits(end - 1, mid, start);
        }
      }
    }
  }

  /** Following a cursor lists every older batch once, newest first, and then stops. */
  lemma {:induction false} FollowListsRest(limit: nat, latest: u64, hasPending: bool, cursor: u64)
    requires 0 < limit && 1 < cursor <= latest + 1
    ensures FollowBatches(limit, latest, hasPending, cursor) == Down(cursor - 1, 1)
    ensures var next := ListBatches(limit, latest, hasPending, Some(cursor)).next;
            next.Some? ==> 1 < next.value < cursor
    decreases cursor
  {
    var page := ListBatches(limit, latest, hasPending, Some(cursor));
    var end := cursor - 1;
    var start := if end < limit then 1 else end - (limit - 1);
    assert page == BatchPage(false, Down(end, start), if start > 1 then Some(start) else None);
    if start > 1 {
      FollowListsRest(limit, latest, hasPending, start);
      DownSplits(end, start, 1);
    }
  }

  /** Every submitted batch a client sees from the first page on. */
  function ListAll(limit: nat, latest: u64, hasPending: bool): seq<nat>
    requires 0 < limit
  {
    var first := ListBatches(limit, latest, hasPending, None);
    first.batches + if first.next.Some? && 1 < first.next.value
      then FollowBatches(limit, latest, hasPending, first.next.value) else []
  }

  /**
    From the first page on, a client sees the pending batch once and every batch once, newest
    first. The one exception is the largest 64-bit batch number behind a page that the pending
    batch fills alone.
   */
  lemma ListsEveryBatchOnceIff(requested: Option<nat>, latest: u64, hasPending: bool)
    ensures var limit := PageLimit(requested, LIST_BATCHES_DEFAULT_LIMIT, LIST_BATCHES_MAX_LIMIT);
            && ListBatches(limit, latest, hasPending, None).pending == hasPending
            && (ListAll(limit, latest, hasPending) == Down(latest, 1)
              <==> !(latest == U64_MAX && hasPending && limit == 1))
  {
    hide Down, FollowBatches;
    var limit := PageLimit(requested, LIST_BATCHES_DEFAULT_LIMIT, LIST_BATCHES_MAX_LIMIT);
    var first := ListBatches(limit, latest, hasPending, None);
    if latest == 0 {
      assert first.next.None?;
      DownIsEmpty();
    } else if hasPending && limit == 1 {
      assert first.batches == [] && first.next == Some(Min(latest + 1, U64_MAX));
      FollowListsRest(limit, latest, hasPending, first.next.value);
      if latest == U64_MAX {
        DownIsExact(latest, 1, 0);
        DownIsExact(latest - 1, 1, 0);
      }
    } else {
      var left := if hasPending then limit - 1 else limit;
      var start := if latest < left then 1 else latest - (left - 1);
      assert first.batches == Down(latest, start) && first.next == if start > 1 then Some(start) else None;
      if start > 1 {
        FollowListsRest(limit, latest, hasPending, start);
        DownSplits(latest, start, 1);
      }
    }
  }

  lemma DownIsEmpty()
    ensures Down(0, 1) == []
  {
  }

  lemma {:induction false} DownIsExact(end: nat, start: nat, i: nat)
    requires start <= end && i <= end - start
    ensures |Down(end, start)| == end - start + 1 && Down(end, start)[i] == end - i
  {
    if end > start {
      DownIsExact(end - 1, start, if i > 0 then i - 1 else 0);
    }
  }

  /** A page holds as many batches as it may, the pending one included, unless it reaches the oldest. */
  lemma BatchPageIsFull(limit: nat, latest: u64, hasPending: bool, cursor: Option<u64>)
    requires 0 < limit
    ensures var page := ListBatches(limit, latest, hasPending, cursor);
            var size := |page.batches| + (if page.pending then 1 else 0);
            && size <= limit && (page.pending <==> hasPending && cursor.None?)
            && (page.next.Some? ==> size == limit)
  {
    hide Down;
    var pending := cursor.None? && hasPending;
    var left := if pending then limit - 1 else limit;
    if latest != 0 && left != 0 && cursor != Some(0) {
      var end := if cursor.Some? then Min(cursor.value - 1, latest) else latest;
      var start := if end < left then 1 else end - (left - 1);
      if start <= end {
        DownIsExact(end, start, 0);
      } else {
        DownIsEmpty();
      }
    }
  }

  /** The newest batch a page may list: a cursor is exclusive. */
  function Newest(latest: nat, cursor: Option<nat>): nat {
    if cursor.None? then latest else if cursor.value == 0 then 0 else Min(cursor.value - 1, latest)
  }

  /**
    A page lists the batches from the newest below the cursor on, without a gap. It points on, to
    the oldest it lists, exactly when older ones are left. A pending batch that fills the page
    alone points to the latest one.
   */
  lemma BatchPageContents(limit: nat, latest: u64, hasPending: bool, cursor: Option<u64>)
    requires 0 < limit
    ensures var page, top := ListBatches(limit, latest, hasPending, cursor), Newest(latest, cursor);
            if hasPending && cursor.None? && limit == 1 then
              page.batches == [] && page.next == (if latest == 0 then None else Some(Min(latest + 1, U64_MAX)))
            else
              && |page.batches| <= top && (top > 0 ==> page.batches != [])
              && (forall i :: 0 <= i < |page.batches| ==> page.batches[i] == top - i)
              && page.next == (if |page.batches| < top then Some(top - |page.batches| + 1) else None)
  {
    hide Down;
    var left := if cursor.None? && hasPending then limit - 1 else limit;
    var end := Newest(latest, cursor);
    if end == 0 || left == 0 {
      DownIsEmpty();
    } else {
      var start := if end < left then 1 else end - (left - 1);
      assert ListBatches(limit, latest, hasPending, cursor).batches == Down(end, start);
      forall i | 0 <= i <= end - start ensures |Down(end, start)| == end - start + 1 && Down(end, start)[i] == end - i {
        DownIsExact(end, start, i);
      }
      DownIsExact(end, start, 0);
    }
  }
}
