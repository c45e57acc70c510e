/** Recovery after a gap or a reorg, while the engine keeps confirming blocks. */
module Backfill {
  import opened Prelude
  import opened Deposits
  import opened DepositQueue

  /** Consecutive, hash-linked blocks. */
  ghost predicate LinkedRun(cs: seq<L1Block>) {
    forall i :: 0 < i < |cs| ==> Follows(cs[i].header, cs[i - 1].header)
  }

  /** A block continues the window, or else the high-water mark, or else the floor. */
  predicate Attaches(q: Queue, b: L1Block) {
    if q.pending != [] then Follows(b.header, Tail(q).header)
    else if q.lastEnqueued.Some? then b.header.number == q.lastEnqueued.value.number + 1
      && b.header.parentHash == q.lastEnqueued.value.hash
    else if q.lastProcessed.Some? then b.header.number == q.lastProcessed.value.number + 1
    else true
  }

  lemma BeyondTail(q: Queue, number: nat)
    requires Contiguous(q) && q.pending != [] && Tail(q).header.number < number
    ensures Position(q.pending, number).None?
  {
    forall i | 0 <= i < |q.pending| ensures q.pending[i].block.header.number != number {
      Consecutive(q, i, |q.pending| - 1);
    }
  }

  lemma AttachedIsAccepted(h: ChainHash, q: Queue, b: L1Block)
    requires QueueOk(h, q) && Attaches(q, b)
    ensures TryEnqueue(h, q, b) == (Append(h, q, b), Accepted)
  {
    if q.pending != [] {
      BeyondTail(q, b.header.number);
    }
    hide Chained, Append;
  }

  // ---- feeding blocks --------------------------------------------------------------------

  function ConfirmEach(q: Queue, expected: seq<NumHash>): Queue
    decreases |expected|
  {
    if expected == [] then q else ConfirmEach(Confirm(q, expected[0]).0, expected[1..])
  }

  /**
    Deliver fetched blocks in order. Before each one the engine may have confirmed any number
    of blocks. The flag says whether a delivery asked for yet another backfill, which panics.
   */
  function Feed(h: ChainHash, q: Queue, cs: seq<L1Block>, between: seq<seq<NumHash>>): (Queue, bool)
    requires |between| == |cs|
    decreases |cs|
  {
    if cs == [] then (q, false)
    else
      var (q1, outcome) := TryEnqueue(h, ConfirmEach(q, between[0]), cs[0]);
      if outcome.NeedBackfill? then (q1, true) else Feed(h, q1, cs[1..], between[1..])
  }

  /** A block that the queue will take or, at or below the floor, ignore. */
  predicate Ready(q: Queue, b: L1Block) {
    || Attaches(q, b)
    || (q.pending == [] && q.lastEnqueued.None? && q.lastProcessed.Some?
      && b.header.number <= q.lastProcessed.value.number)
  }

  lemma ConfirmKeepsReady(h: ChainHash, q: Queue, e: NumHash, b: L1Block)
    requires QueueOk(h, q) && Ready(q, b)
    ensures Ready(Confirm(q, e).0, b)
  {
    hide Chained;
  }

  lemma {:induction false} ConfirmEachKeepsReady(h: ChainHash, q: Queue, es: seq<NumHash>, b: L1Block)
    requires QueueOk(h, q) && Ready(q, b)
    ensures QueueOk(h, ConfirmEach(q, es)) && Ready(ConfirmEach(q, es), b)
    decreases |es|
  {
    if es != [] {
      ConfirmOk(h, q, es[0]);
      ConfirmKeepsReady(h, q, es[0], b);
      hide QueueOk, Ready, Confirm;
      ConfirmEachKeepsReady(h, Confirm(q, es[0]).0, es[1..], b);
    }
  }

  /** Delivering a ready block never asks for more, and makes its successor ready. */
  lemma DeliverReady(h: ChainHash, q: Queue, b: L1Block)
    requires QueueOk(h, q) && Ready(q, b)
    ensures var (q1, outcome) := TryEnqueue(h, q, b);
            && QueueOk(h, q1) && !outcome.NeedBackfill?
            && (Attaches(q, b) ==> q1.pending != [] && Tail(q1) == b)
            && (forall c: L1Block :: Follows(c.header, b.header) ==> Ready(q1, c))
            && (q.lastProcessed.Some? && b.header.number == q.lastProcessed.value.number && !Attaches(q, b) ==>
                  forall c: L1Block :: Follows(c.header, b.header) ==> Attaches(q1, c))
  {
    TryEnqueueOk(h, q, b);
    if Attaches(q, b) {
      AttachedIsAccepted(h, q, b);
      assert Tail(Append(h, q, b)) == b;
      hide QueueOk, ChainOver, Position;
    } else {
      FloorRejects(h, q, b);
      hide QueueOk, TryEnqueue;
    }
  }

  lemma LinkedTail(cs: seq<L1Block>)
    requires LinkedRun(cs) && |cs| > 1
    ensures LinkedRun(cs[1..]) && Follows(cs[1].header, cs[0].header)
  {
  }

  lemma {:induction false} FeedReady(h: ChainHash, q: Queue, cs: seq<L1Block>, between: seq<seq<NumHash>>)
    requires QueueOk(h, q) && cs != [] && |between| == |cs| && LinkedRun(cs) && Ready(q, cs[0])
    requires q.lastProcessed.Some? && !Attaches(q, cs[0])
             ==> |cs| > 1 && cs[0].header.number == q.lastProcessed.value.number
    ensures var (q1, panics) := Feed(h, q, cs, between);
            !panics && QueueOk(h, q1) && q1.pending != [] && Tail(q1) == cs[|cs| - 1]
    decreases |cs|
  {
    hide QueueOk, TryEnqueue, LinkedRun, ConfirmEach, Attaches;
    var q0 := ConfirmEach(q, between[0]);
    ConfirmEachKeepsReady(h, q, between[0], cs[0]);
    UnattachedKept(h, q, between[0], cs[0]);
    DeliverReady(h, q0, cs[0]);
    var q1 := TryEnqueue(h, q0, cs[0]).0;
    if |cs| > 1 {
      LinkedTail(cs);
      NextAttaches(h, q0, cs[0], cs[1]);
      FeedReady(h, q1, cs[1..], between[1..]);
    }
  }

  /** With nothing pending and no mark, confirmations find nothing to take. */
  lemma {:induction false} UnattachedKept(h: ChainHash, q: Queue, es: seq<NumHash>, b: L1Block)
    requires QueueOk(h, q) && Ready(q, b)
    ensures !Attaches(q, b) ==> ConfirmEach(q, es) == q
    ensures Attaches(q, b) ==> Attaches(ConfirmEach(q, es), b)
    decreases |es|
  {
    if es != [] {
      ConfirmOk(h, q, es[0]);
      ConfirmKeepsReady(h, q, es[0], b);
      UnattachedKept(h, Confirm(q, es[0]).0, es[1..], b);
    }
  }

  lemma NextAttaches(h: ChainHash, q: Queue, b: L1Block, c: L1Block)
    requires QueueOk(h, q) && Ready(q, b) && Follows(c.header, b.header)
    requires q.lastProcessed.Some? && !Attaches(q, b) ==> b.header.number == q.lastProcessed.value.number
    ensures Attaches(TryEnqueue(h, q, b).0, c)
  {
    DeliverReady(h, q, b);
    if Attaches(q, b) {
      AttachedIsAccepted(h, q, b);
      assert Tail(Append(h, q, b)) == b;
    }
    hide QueueOk, TryEnqueue;
  }

  // ---- recovery --------------------------------------------------------------------------

  /** The first fetched block continues the window or, once it is drained, the high-water mark. */
  predicate FirstFits(q: Queue, first: L1Block) {
    && (q.pending != [] ==> first.header.parentHash == Tail(q).header.hash)
    && (q.pending == [] && q.lastEnqueued.Some? ==> first.header.parentHash == q.lastEnqueued.value.hash)
  }

  lemma OfferEmptyRange(h: ChainHash, q: Queue, b: L1Block, first: L1Block)
    requires QueueOk(h, q) && q.pending == [] && OfferEmpty(h, q, b).1.NeedBackfill?
    requires first.header.number == OfferEmpty(h, q, b).1.from && FirstFits(OfferEmpty(h, q, b).0, first)
    ensures var (q1, outcome) := OfferEmpty(h, q, b);
            && outcome.from <= outcome.to && outcome.to + 1 == b.header.number
            && Ready(q1, first)
            && (q1.lastProcessed.Some? && !Attaches(q1, first) ==> first.header.number == q1.lastProcessed.value.number)
  {
    hide Chained, Append;
  }

  lemma OfferWindowRange(h: ChainHash, q: Queue, b: L1Block, first: L1Block)
    requires QueueOk(h, q) && q.pending != [] && OfferWindow(h, q, b).1.NeedBackfill?
    requires first.header.number == OfferWindow(h, q, b).1.from && FirstFits(OfferWindow(h, q, b).0, first)
    ensures var (q1, outcome) := OfferWindow(h, q, b);
            outcome.from <= outcome.to && outcome.to + 1 == b.header.number && Attaches(q1, first)
  {
    hide QueueOk, Append, Position;
    TailOk(h, q);
    if |q.pending| > 1 {
      SecondLast(h, q);
    }
  }

  /** What a queue that asks for `from..=to` is ready for. */
  lemma BackfillRange(h: ChainHash, q: Queue, b: L1Block, first: L1Block)
    requires QueueOk(h, q) && TryEnqueue(h, q, b).1.NeedBackfill?
    requires first.header.number == TryEnqueue(h, q, b).1.from && FirstFits(TryEnqueue(h, q, b).0, first)
    ensures var (q1, outcome) := TryEnqueue(h, q, b);
            && outcome.from <= outcome.to && outcome.to + 1 == b.header.number
            && Ready(q1, first)
            && (q1.lastProcessed.Some? && !Attaches(q1, first) ==> first.header.number == q1.lastProcessed.value.number)
  {
    hide QueueOk, OfferEmpty, OfferWindow, PurgeFrom, FirstFits, Attaches;
    var at := Position(q.pending, b.header.number);
    var q0 := q;
    if at.Some? {
      PurgeOk(h, q, at.value);
      q0 := PurgeFrom(q, at.value);
    }
    if q0.pending == [] {
      OfferEmptyRange(h, q0, b, first);
    } else {
      OfferWindowRange(h, q0, b, first);
    }
  }

  /**
    Recovery: whenever a block makes the queue ask for `from..=to`, delivering any hash-linked
    run of the blocks `from..=to` and one more, whatever the engine confirms in between, never
    asks for backfill again and ends with the last block at the tail, provided the first
    fetched block fits.
   */
  lemma BackfillRecovers(h: ChainHash, q: Queue, b: L1Block, cs: seq<L1Block>, between: seq<seq<NumHash>>)
    requires QueueOk(h, q) && TryEnqueue(h, q, b).1.NeedBackfill?
    requires LinkedRun(cs) && |between| == |cs| && |cs| == b.header.number - TryEnqueue(h, q, b).1.from + 1
    requires cs != [] && cs[0].header.number == TryEnqueue(h, q, b).1.from && FirstFits(TryEnqueue(h, q, b).0, cs[0])
    ensures var (q1, panics) := Feed(h, TryEnqueue(h, q, b).0, cs, between);
            !panics && QueueOk(h, q1) && q1.pending != [] && Tail(q1) == cs[|cs| - 1]
  {
    hide QueueOk, TryEnqueue, LinkedRun, Feed;
    TryEnqueueOk(h, q, b);
    BackfillRange(h, q, b, cs[0]);
    FeedReady(h, TryEnqueue(h, q, b).0, cs, between);
  }

  lemma PurgedTailIsGone(q: Queue)
    requires Contiguous(q) && q.pending != []
    ensures Tail(q) !in Blocks(PurgeFrom(q, |q.pending| - 1).pending)
  {
    forall i | 0 <= i < |q.pending| - 1 ensures q.pending[i].block != Tail(q) {
      Consecutive(q, i, |q.pending| - 1);
    }
  }

  /**
    Without the fit, recovery fails: a window of two or more drops its tail and asks again,
    and a window of one is replaced by the misfit, losing the block it held.
   */
  lemma MisfitOutcome(h: ChainHash, q: Queue, first: L1Block)
    requires QueueOk(h, q) && q.pending != []
    requires first.header.number == Tail(q).header.number + 1 && first.header.parentHash != Tail(q).header.hash
    ensures var (q1, outcome) := TryEnqueue(h, q, first);
            if |q.pending| >= 2 then outcome == NeedBackfill(Tail(q).header.number, Tail(q).header.number)
              && Tail(q) !in Blocks(q1.pending)
            else outcome.Accepted? && Blocks(q1.pending) == [first]
  {
    BeyondTail(q, first.header.number);
    PurgedTailIsGone(q);
    hide QueueOk, Position;
    TailOk(h, q);
    if |q.pending| >= 2 {
      SecondLast(h, q);
    }
  }

  // ---- the outcome of every offer --------------------------------------------------------

  /** A block already in the window changes nothing. */
  lemma OfferKnown(h: ChainHash, q: Queue, i: nat, b: L1Block)
    requires QueueOk(h, q) && i < |q.pending| && NumHashOf(q.pending[i].block) == NumHashOf(b)
    ensures TryEnqueue(h, q, b) == (q, Duplicate)
  {
    PositionOf(q, b.header.number);
    Consecutive(q, 0, i);
  }

  /**
    A reorg inside the window: the orphaned block and all after it go. A block that descends
    from the one before takes its place; otherwise that one is orphaned too, and is asked for.
   */
  lemma OfferReorg(h: ChainHash, q: Queue, i: nat, b: L1Block)
    requires QueueOk(h, q) && i < |q.pending|
    requires NumberAt(q, i) == b.header.number && q.pending[i].block.header.hash != b.header.hash
    ensures var (q1, outcome) := TryEnqueue(h, q, b);
            var n, fits := b.header.number, i > 0 && b.header.parentHash == q.pending[i - 1].block.header.hash;
            && (fits ==> outcome.Accepted? && Blocks(q1.pending) == Blocks(q.pending[..i]) + [b])
            && (!fits && i > 1 ==>
                  outcome == NeedBackfill(n - 1, n - 1) && Blocks(q1.pending) == Blocks(q.pending[..i - 1]))
            && (!fits && i == 1 ==> outcome.Accepted? && Blocks(q1.pending) == [b])
            && (i == 0 && (q.lastProcessed.None? || q.lastProcessed.value.number + 1 == n) ==>
                  outcome.Accepted? && Blocks(q1.pending) == [b])
            && (i == 0 && q.lastProcessed.Some? && q.lastProcessed.value.number + 1 != n ==>
                  outcome == NeedBackfill(q.lastProcessed.value.number + 1, n - 1) && q1.pending == [])
  {
    PositionOf(q, b.header.number);
    Consecutive(q, 0, i);
    PurgeOk(h, q, i);
    var purged := PurgeFrom(q, i);
    hide Chained, ChainOver, Position;
    if i > 0 {
      Consecutive(q, i - 1, i);
      TailPosition(purged);
      if i > 1 {
        Consecutive(q, i - 2, i);
      }
    }
  }

  /** After a reorg the orphaned block is gone, whatever else happens. */
  lemma OrphanIsGone(h: ChainHash, q: Queue, i: nat, b: L1Block)
    requires QueueOk(h, q) && i < |q.pending|
    requires NumberAt(q, i) == b.header.number && q.pending[i].block.header.hash != b.header.hash
    ensures q.pending[i].block !in Blocks(TryEnqueue(h, q, b).0.pending)
  {
    OfferReorg(h, q, i, b);
    forall j | 0 <= j < i ensures q.pending[j].block != q.pending[i].block {
      Consecutive(q, j, i);
    }
    hide TryEnqueue, QueueOk;
  }

  /** Beyond the tail: append what descends from it, ask for a gap, and drop a tail that was reorged away. */
  lemma OfferBeyond(h: ChainHash, q: Queue, b: L1Block)
    requires QueueOk(h, q) && q.pending != [] && b.header.number > Tail(q).header.number
    ensures var (q1, outcome) := TryEnqueue(h, q, b);
            var n, tail, last := b.header.number, Tail(q).header, |q.pending| - 1;
            && (n > tail.number + 1 ==> q1 == q && outcome == NeedBackfill(tail.number + 1, n - 1))
            && (n == tail.number + 1 && b.header.parentHash == tail.hash ==>
                  outcome.Accepted? && Blocks(q1.pending) == Blocks(q.pending) + [b])
            && (n == tail.number + 1 && b.header.parentHash != tail.hash && last > 0 ==>
                  outcome == NeedBackfill(tail.number, tail.number) && Blocks(q1.pending) == Blocks(q.pending[..last]))
            && (n == tail.number + 1 && b.header.parentHash != tail.hash && last == 0 ==>
                  outcome.Accepted? && Blocks(q1.pending) == [b])
  {
    BeyondTail(q, b.header.number);
    TailPosition(q);
    var last := |q.pending| - 1;
    if last > 0 {
      Consecutive(q, last - 1, last);
    }
    hide Chained, ChainOver, Position;
  }

  /** An empty window goes by its high-water mark or, without one, by the consumed floor. */
  lemma OfferToDrained(h: ChainHash, q: Queue, b: L1Block)
    requires q.pending == []
    ensures var (q1, outcome) := TryEnqueue(h, q, b);
            var n := b.header.number;
            match (q.lastEnqueued, q.lastProcessed)
            case (Some(last), _) =>
              && (n <= last.number ==> q1 == q && outcome.Duplicate?)
              && (n > last.number + 1 ==> q1 == q && outcome == NeedBackfill(last.number + 1, n - 1))
              && (n == last.number + 1 && b.header.parentHash == last.hash ==>
                    outcome.Accepted? && Blocks(q1.pending) == [b])
              && (n == last.number + 1 && b.header.parentHash != last.hash ==>
                    outcome == NeedBackfill(last.number, last.number) && q1 == q.(lastEnqueued := None))
            case (None, Some(floor)) =>
              && (n <= floor.number ==> q1 == q && outcome.Duplicate?)
              && (n > floor.number + 1 ==> q1 == q && outcome == NeedBackfill(floor.number + 1, n - 1))
              && (n == floor.number + 1 ==> outcome.Accepted? && Blocks(q1.pending) == [b])
            case (None, None) => outcome.Accepted? && Blocks(q1.pending) == [b]
  {
    hide ChainOver;
  }

  // ---- the initial sync ------------------------------------------------------------------

  /** Where the initial sync starts: at the resolved block, but past everything already enqueued. */
  function SyncStart(q: Queue, resolved: nat): nat {
    if q.lastEnqueued.None? || q.lastEnqueued.value.number < resolved then resolved
    else q.lastEnqueued.value.number + 1
  }

  /** Feeding a hash-linked run never panics once its first block is ready, whatever is confirmed in between. */
  lemma {:induction false} FeedNeverPanics(h: ChainHash, q: Queue, cs: seq<L1Block>, between: seq<seq<NumHash>>)
    requires QueueOk(h, q) && |between| == |cs| && LinkedRun(cs) && (cs != [] ==> Ready(q, cs[0]))
    ensures !Feed(h, q, cs, between).1 && QueueOk(h, Feed(h, q, cs, between).0)
    decreases |cs|
  {
    if cs != [] {
      hide QueueOk, TryEnqueue, Ready, Attaches;
      ConfirmEachKeepsReady(h, q, between[0], cs[0]);
      var q0 := ConfirmEach(q, between[0]);
      DeliverReady(h, q0, cs[0]);
      if |cs| > 1 {
        LinkedTail(cs);
      }
      hide LinkedRun;
      FeedNeverPanics(h, TryEnqueue(h, q0, cs[0]).0, cs[1..], between[1..]);
    }
  }

  /** A feed during which the engine confirms nothing. */
  function Quiet(n: nat): (s: seq<seq<NumHash>>)
    ensures |s| == n && forall i :: 0 <= i < n ==> s[i] == []
  {
    seq(n, i => [])
  }

  /** The block follows a window of one in number, but not in hash. */
  predicate FollowsLoneTail(q: Queue, b: L1Block) {
    |q.pending| == 1 && b.header.number == NumberAt(q, 0) + 1
  }

  /** Beyond what was enqueued, a block that is not ready asks for a backfill, unless it follows a window of one. */
  lemma UnreadyOutcome(h: ChainHash, q: Queue, resolved: nat, b: L1Block)
    requires QueueOk(h, q) && b.header.number == SyncStart(q, resolved) && !Ready(q, b)
    ensures var (q1, outcome) := TryEnqueue(h, q, b);
            if FollowsLoneTail(q, b) then outcome.Accepted? && Blocks(q1.pending) == [b] else outcome.NeedBackfill?
  {
    if q.pending != [] {
      BeyondTail(q, b.header.number);
      if b.header.number == Tail(q).header.number + 1 {
        MisfitOutcome(h, q, b);
      }
    }
    hide Chained;
  }

  /**
    The initial sync panics exactly when its first block neither attaches to the queue nor is
    already consumed, and does not follow a window of one.
   */
  lemma {:induction false} SyncPanicsIff(h: ChainHash, q: Queue, resolved: nat, cs: seq<L1Block>)
    requires QueueOk(h, q) && LinkedRun(cs) && cs != [] && cs[0].header.number == SyncStart(q, resolved)
    ensures Feed(h, q, cs, Quiet(|cs|)).1 <==> !Ready(q, cs[0]) && !FollowsLoneTail(q, cs[0])
  {
    if Ready(q, cs[0]) {
      FeedNeverPanics(h, q, cs, Quiet(|cs|));
    } else {
      UnreadyOutcome(h, q, resolved, cs[0]);
      TryEnqueueOk(h, q, cs[0]);
      var q1 := TryEnqueue(h, q, cs[0]).0;
      hide QueueOk, TryEnqueue, Ready, Attaches;
      assert ConfirmEach(q, Quiet(|cs|)[0]) == q;
      if FollowsLoneTail(q, cs[0]) {
        FrontOfBlocks(q1, cs[0]);
        if |cs| > 1 {
          LinkedTail(cs);
          AttachesToTail(q1, cs[1]);
        }
        FeedNeverPanics(h, q1, cs[1..], Quiet(|cs|)[1..]);
      }
    }
  }

  lemma AttachesToTail(q: Queue, b: L1Block)
    requires q.pending != [] && Follows(b.header, Tail(q).header)
    ensures Ready(q, b)
  {
  }

  // ---- gaps below the window -------------------------------------------------------------

  /** The window continues the consumed floor without a gap. */
  predicate OnFloor(q: Queue) {
    q.pending != [] && q.lastProcessed.Some? ==> NumberAt(q, 0) == q.lastProcessed.value.number + 1
  }

  /** The offered block displaces a front block it does not descend from. */
  predicate Reanchors(q: Queue, b: L1Block) {
    && q.pending != [] && q.lastProcessed.Some?
    && b.header.number == NumberAt(q, 0) + 1 && b.header.parentHash != q.pending[0].block.header.hash
    && (|q.pending| == 1 || q.pending[1].block.header.hash != b.header.hash)
  }

  lemma SecondIsNext(q: Queue, number: nat)
    requires Contiguous(q) && q.pending != [] && number == NumberAt(q, 0) + 1
    ensures Position(q.pending, number) == if |q.pending| == 1 then None else Some(1)
  {
    if |q.pending| > 1 {
      Consecutive(q, 0, 1);
    }
  }

  lemma ReanchorLeavesGap(h: ChainHash, q: Queue, b: L1Block)
    requires QueueOk(h, q) && OnFloor(q) && Reanchors(q, b)
    ensures TryEnqueue(h, q, b).1.Accepted? && Blocks(TryEnqueue(h, q, b).0.pending) == [b]
    ensures !OnFloor(TryEnqueue(h, q, b).0)
  {
    SecondIsNext(q, b.header.number);
    var q0 := if |q.pending| == 1 then q else PurgeFrom(q, 1);
    assert Contiguous(q0) && |q0.pending| == 1 && q0.pending[0] == q.pending[0];
    TailPosition(q0);
    assert PurgeFrom(q0, 0).pending == [];
  }

  lemma WindowKeepsFront(h: ChainHash, q: Queue, b: L1Block)
    requires QueueOk(h, q) && OnFloor(q) && q.pending != []
    requires |q.pending| == 1 ==>
               b.header.number != NumberAt(q, 0) + 1 || b.header.parentHash == q.pending[0].block.header.hash
    ensures OnFloor(OfferWindow(h, q, b).0)
  {
    hide QueueOk, Position, ChainOver;
    TailOk(h, q);
  }

  lemma EmptyStartsOnFloor(h: ChainHash, q: Queue, b: L1Block)
    requires QueueOk(h, q) && q.pending == []
    ensures OnFloor(OfferEmpty(h, q, b).0)
  {
    hide Chained, ChainOver;
  }

  /**
    An offer keeps the window on the floor exactly when it does not displace a lone front block
    it does not descend from: then the queue takes it as a new anchor and leaves a gap.
   */
  lemma OnFloorIff(h: ChainHash, q: Queue, b: L1Block)
    requires QueueOk(h, q) && OnFloor(q)
    ensures OnFloor(TryEnqueue(h, q, b).0) <==> !Reanchors(q, b)
  {
    if Reanchors(q, b) {
      ReanchorLeavesGap(h, q, b);
    } else {
      hide QueueOk, OfferEmpty, OfferWindow;
      var at := Position(q.pending, b.header.number);
      var q0 := q;
      if at.Some? {
        if q.pending[at.value].block.header.hash == b.header.hash {
          return;
        }
        PurgeOk(h, q, at.value);
        q0 := PurgeFrom(q, at.value);
      }
      if q0.pending == [] {
        EmptyStartsOnFloor(h, q0, b);
      } else if q.lastProcessed.Some? {
        WindowKeepsFront(h, q0, b);
      } else {
        TryEnqueueKeepsConsumed(h, q, b);
      }
    }
  }

  /** A block missing below the window is answered as a duplicate: the gap cannot be filled. */
  lemma GapStaysOpen(h: ChainHash, q: Queue, b: L1Block)
    requires QueueOk(h, q) && q.pending != [] && b.header.number < NumberAt(q, 0)
    ensures TryEnqueue(h, q, b) == (q, Duplicate)
  {
    Consecutive(q, 0, |q.pending| - 1);
    forall i | 0 <= i < |q.pending| ensures q.pending[i].block.header.number != b.header.number {
      Consecutive(q, 0, i);
    }
    assert Position(q.pending, b.header.number).None?;
  }

  /** A run that leaves a gap: block 1 is consumed, block 2 waits, and a block 3 of another branch is offered. */
  lemma GapIsReachable(h: ChainHash)
    ensures exists steps :: !OnFloor(RunQueue(h, steps).queue)
  {
    var b1 := L1Block(Header(1, 101, 100), []);
    var b2 := L1Block(Header(2, 102, 101), []);
    var b3 := L1Block(Header(3, 203, 202), []);
    var s1 := [Offered(b1)];
    var s2 := s1 + [Confirmed(NumHash(1, 101))];
    var s3 := s2 + [Offered(b2)];
    var s4 := s3 + [Offered(b3)];
    var q := Queue(ZERO_HASH, ZERO_HASH, [], Some(NumHash(1, 101)), Some(NumHash(1, 101)));
    assert s1[..0] == [] && s2[..1] == s1 && s3[..2] == s2 && s4[..3] == s3;
    assert RunQueue(h, s1).queue == Append(h, EMPTY, b1);
    assert RunQueue(h, s2).queue == q;
    assert RunQueue(h, s3).queue == Append(h, q, b2);
    RunQueueOk(h, s3);
    ReanchorLeavesGap(h, RunQueue(h, s3).queue, b3);
    assert RunQueue(h, s4).queue == TryEnqueue(h, RunQueue(h, s3).queue, b3).0;
  }

  // ---- the front of the window -----------------------------------------------------------

  /** The front of the window is the named block. */
  predicate FrontIs(q: Queue, e: NumHash) {
    q.pending != [] && NumHashOf(q.pending[0].block) == e
  }

  /** A sibling of the front, or a child of a sibling that the window does not hold yet. */
  predicate Displaces(q: Queue, b: L1Block) {
    && q.pending != []
    && var front := q.pending[0].block.header;
       || (b.header.number == front.number && b.header.hash != front.hash)
       || (&& b.header.number == front.number + 1 && b.header.parentHash != front.hash
           && (|q.pending| == 1 || q.pending[1].block.header.hash != b.header.hash))
  }

  lemma PositionOf(q: Queue, number: nat)
    requires Contiguous(q) && q.pending != []
    ensures var front := NumberAt(q, 0);
            Position(q.pending, number)
            == if front <= number < front + |q.pending| then Some(number - front) else None
  {
    var at := Position(q.pending, number);
    var front := NumberAt(q, 0);
    if at.Some? {
      Consecutive(q, 0, at.value);
    } else if front <= number < front + |q.pending| {
      Consecutive(q, 0, number - front);
    }
  }

  /** Offering to a window keeps its front unless the front is the tail and the block does not descend from it. */
  lemma OfferKeepsFront(h: ChainHash, q: Queue, b: L1Block)
    requires Contiguous(q) && q.pending != []
    ensures var p, front := OfferWindow(h, q, b).0, q.pending[0].block;
            if |q.pending| == 1 && b.header.number == front.header.number + 1
              && b.header.parentHash != front.header.hash
            then Blocks(p.pending) == [b]
            else p.pending != [] && p.pending[0] == q.pending[0]
  {
    TailPosition(q);
    Consecutive(q, 0, |q.pending| - 1);
    if |q.pending| >= 2 {
      Consecutive(q, |q.pending| - 2, |q.pending| - 1);
    }
    hide Position, ChainOver, Contiguous;
  }

  /** An empty window takes the block or stays empty. */
  lemma OfferToEmpty(h: ChainHash, q: Queue, b: L1Block)
    requires q.pending == []
    ensures Blocks(OfferEmpty(h, q, b).0.pending) == [] || Blocks(OfferEmpty(h, q, b).0.pending) == [b]
  {
    hide ChainOver;
  }

  /** The front of the window survives an offer exactly when the offered block does not displace it. */
  lemma FrontKeptIff(h: ChainHash, q: Queue, b: L1Block)
    requires QueueOk(h, q) && q.pending != []
    ensures FrontIs(TryEnqueue(h, q, b).0, NumHashOf(q.pending[0].block)) <==> !Displaces(q, b)
    ensures !Displaces(q, b) ==> TryEnqueue(h, q, b).0.pending[0] == q.pending[0]
  {
    hide Chained, OfferWindow, OfferEmpty, Blocks, Position;
    PositionOf(q, b.header.number);
    var at := Position(q.pending, b.header.number);
    if at.None? {
      OfferKeepsFront(h, q, b);
      FrontOfBlocks(TryEnqueue(h, q, b).0, b);
    } else if q.pending[at.value].block.header.hash != b.header.hash {
      var purged := PurgeFrom(q, at.value);
      if at.value == 0 {
        OfferToEmpty(h, purged, b);
      } else {
        OfferKeepsFront(h, purged, b);
      }
      FrontOfBlocks(TryEnqueue(h, q, b).0, b);
    }
  }

  lemma FrontOfBlocks(q: Queue, b: L1Block)
    ensures Blocks(q.pending) == [] ==> q.pending == []
    ensures Blocks(q.pending) == [b] ==> |q.pending| == 1 && q.pending[0].block == b
  {
    assert |Blocks(q.pending)| == |q.pending|;
    if Blocks(q.pending) == [b] {
      assert Blocks(q.pending)[0] == q.pending[0].block;
    }
  }

  /** Offers in a row, none of which displaces the front it meets. */
  predicate NoneDisplaces(h: ChainHash, q: Queue, bs: seq<L1Block>)
    decreases |bs|
  {
    bs == [] || (!Displaces(q, bs[0]) && NoneDisplaces(h, TryEnqueue(h, q, bs[0]).0, bs[1..]))
  }

  // ---- runs without gaps -----------------------------------------------------------------

  /** Consumed blocks have consecutive numbers, and the window continues them. */
  ghost predicate NoGaps(s: History) {
    && (forall i :: 0 < i < |s.consumed| ==> s.consumed[i].header.number == s.consumed[i - 1].header.number + 1)
    && OnFloor(s.queue)
  }

  lemma ConfirmedNoGaps(h: ChainHash, s: History, expected: NumHash)
    requires HistoryOk(h, s) && NoGaps(s)
    ensures NoGaps(StepQueue(h, s, Confirmed(expected)))
  {
    hide Chained, ChainOver, AllDeposits, Ascending;
    ConfirmOk(h, s.queue, expected);
  }

  lemma DrainedNoGaps(h: ChainHash, s: History)
    requires HistoryOk(h, s) && NoGaps(s)
    ensures NoGaps(StepQueue(h, s, Drained))
  {
    hide Chained, ChainOver, AllDeposits, Ascending;
  }

  lemma StepNoGaps(h: ChainHash, s: History, step: QueueStep)
    requires HistoryOk(h, s) && NoGaps(s)
    ensures NoGaps(StepQueue(h, s, step)) <==> !(step.Offered? && Reanchors(s.queue, step.block))
  {
    match step
    case Offered(b) =>
      hide TryEnqueue, QueueOk, OnFloor, Reanchors;
      OnFloorIff(h, s.queue, b);
    case Confirmed(expected) => ConfirmedNoGaps(h, s, expected);
    case Drained => DrainedNoGaps(h, s);
  }

  /** Step `n` of a run offers a block that displaces a lone front it does not descend from. */
  ghost predicate ReanchorsAt(h: ChainHash, steps: seq<QueueStep>, n: nat)
    requires n < |steps|
  {
    steps[n].Offered? && Reanchors(RunQueue(h, steps[..n]).queue, steps[n].block)
  }

  lemma NextOfRun(h: ChainHash, steps: seq<QueueStep>, n: nat)
    requires n < |steps|
    ensures RunQueue(h, steps[..n + 1]) == StepQueue(h, RunQueue(h, steps[..n]), steps[n])
  {
    assert steps[..n + 1][..n] == steps[..n];
  }

  lemma {:induction false} NoGapsUpTo(h: ChainHash, steps: seq<QueueStep>, n: nat)
    requires n <= |steps| && forall i :: 0 <= i < n ==> !ReanchorsAt(h, steps, i)
    ensures NoGaps(RunQueue(h, steps[..n]))
  {
    if n > 0 {
      NoGapsUpTo(h, steps, n - 1);
      RunQueueOk(h, steps[..n - 1]);
      hide NoGaps, RunQueue, HistoryOk, StepQueue;
      StepNoGaps(h, RunQueue(h, steps[..n - 1]), steps[n - 1]);
      NextOfRun(h, steps, n - 1);
      assert !ReanchorsAt(h, steps, n - 1);
    }
  }

  /**
    A run never leaves a gap, neither in what it has consumed nor below its window, exactly
    when no offer of it re-anchors the window.
   */
  lemma NeverGapsIff(h: ChainHash, steps: seq<QueueStep>)
    ensures (forall n :: 0 <= n <= |steps| ==> NoGaps(RunQueue(h, steps[..n])))
            <==> (forall n :: 0 <= n < |steps| ==> !ReanchorsAt(h, steps, n))
  {
    hide NoGaps, RunQueue, HistoryOk, StepQueue, Reanchors;
    if forall n :: 0 <= n < |steps| ==> !ReanchorsAt(h, steps, n) {
      forall n | 0 <= n <= |steps| ensures NoGaps(RunQueue(h, steps[..n])) {
        NoGapsUpTo(h, steps, n);
      }
    }
    if forall n :: 0 <= n <= |steps| ==> NoGaps(RunQueue(h, steps[..n])) {
      forall n | 0 <= n < |steps| ensures !ReanchorsAt(h, steps, n) {
        assert NoGaps(RunQueue(h, steps[..n])) && NoGaps(RunQueue(h, steps[..n + 1]));
        RunQueueOk(h, steps[..n]);
        NextOfRun(h, steps, n);
        StepNoGaps(h, RunQueue(h, steps[..n]), steps[n]);
      }
    }
  }
}
