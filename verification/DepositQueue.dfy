/**
  The L1 deposit queue on values: a window of consecutive L1 blocks not yet processed by the
  zone, with the deposit hash chain running through it.
 */
module DepositQueue {
  import opened Prelude
  import opened Deposits

  datatype NumHash = NumHash(number: nat, hash: Hash)

  datatype Header = Header(number: nat, hash: Hash, parentHash: Hash)

  datatype L1Block = L1Block(header: Header, deposits: seq<L1Deposit>)

  /** A queued block with the chain values before and after its deposits. */
  datatype Pending = Pending(block: L1Block, before: Hash, after: Hash)

  datatype Queue = Queue(processedHead: Hash, enqueuedHead: Hash, pending: seq<Pending>,
                         lastEnqueued: Option<NumHash>, lastProcessed: Option<NumHash>)

  datatype EnqueueOutcome = Accepted | Duplicate | NeedBackfill(from: nat, to: nat)

  const EMPTY: Queue := Queue(ZERO_HASH, ZERO_HASH, [], None, None)

  function NumHashOf(b: L1Block): NumHash {
    NumHash(b.header.number, b.header.hash)
  }

  function NumberAt(q: Queue, i: nat): nat
    requires i < |q.pending|
  {
    q.pending[i].block.header.number
  }

  function Tail(q: Queue): L1Block
    requires q.pending != []
  {
    q.pending[|q.pending| - 1].block
  }

  // ---- transitions -----------------------------------------------------------------------

  /** Index of the first pending block with a number. */
  function Position(pending: seq<Pending>, number: nat): (r: Option<nat>)
    ensures r.Some? ==> r.value < |pending| && pending[r.value].block.header.number == number
    ensures r.Some? ==> forall i :: 0 <= i < r.value ==> pending[i].block.header.number != number
    ensures r.None? ==> forall i :: 0 <= i < |pending| ==> pending[i].block.header.number != number
  {
    if pending == [] then None
    else if pending[0].block.header.number == number then Some(0)
    else
      match Position(pending[1..], number)
      case None => None
      case Some(i) => Some(i + 1)
  }

  function Append(h: ChainHash, q: Queue, b: L1Block): Queue {
    var after := ChainOver(h, q.enqueuedHead, b.deposits);
    q.(enqueuedHead := after,
       lastEnqueued := Some(NumHashOf(b)),
       pending := q.pending + [Pending(b, q.enqueuedHead, after)])
  }

  function PurgeFrom(q: Queue, n: nat): Queue
    requires n < |q.pending|
  {
    var pending := q.pending[..n];
    q.(pending := pending,
       enqueuedHead := if n == 0 then q.processedHead else q.pending[n - 1].after,
       lastEnqueued := if n == 0 then None else Some(NumHashOf(q.pending[n - 1].block)))
  }

  /** Offering to an empty window: the high-water mark decides, or else the consumed floor. */
  function OfferEmpty(h: ChainHash, q: Queue, b: L1Block): (Queue, EnqueueOutcome) {
    var n := b.header.number;
    match q.lastEnqueued
    case Some(last) =>
      if n <= last.number then (q, Duplicate)
      else if n > last.number + 1 then (q, NeedBackfill(last.number + 1, n - 1))
      else if b.header.parentHash != last.hash then (q.(lastEnqueued := None), NeedBackfill(last.number, n - 1))
      else (Append(h, q, b), Accepted)
    case None =>
      match q.lastProcessed
      case Some(floor) =>
        if n <= floor.number then (q, Duplicate)
        else if n > floor.number + 1 then (q, NeedBackfill(floor.number + 1, n - 1))
        else (Append(h, q, b), Accepted)
      case None => (Append(h, q, b), Accepted)
  }

  /** Offering to a window with blocks: the tail decides, and is purged when it was reorged away. */
  function OfferWindow(h: ChainHash, q: Queue, b: L1Block): (Queue, EnqueueOutcome)
    requires q.pending != []
  {
    var n, tail := b.header.number, Tail(q).header;
    if n <= tail.number then (q, Duplicate)
    else if n > tail.number + 1 then (q, NeedBackfill(tail.number + 1, n - 1))
    else if b.header.parentHash == tail.hash then (Append(h, q, b), Accepted)
    else
      var purged := match Position(q.pending, tail.number) case Some(i) => PurgeFrom(q, i) case None => q;
      var expected := if purged.pending == [] then n else Tail(purged).header.number + 1;
      if expected < n then (purged, NeedBackfill(expected, n - 1)) else (Append(h, purged, b), Accepted)
  }

  function Offer(h: ChainHash, q: Queue, b: L1Block): (Queue, EnqueueOutcome) {
    if q.pending == [] then OfferEmpty(h, q, b) else OfferWindow(h, q, b)
  }

  function TryEnqueue(h: ChainHash, q: Queue, b: L1Block): (Queue, EnqueueOutcome) {
    match Position(q.pending, b.header.number)
    case Some(i) => if q.pending[i].block.header.hash == b.header.hash then (q, Duplicate)
      else Offer(h, PurgeFrom(q, i), b)
    case None => Offer(h, q, b)
  }

  /** The floor never goes back. */
  function Raise(floor: Option<NumHash>, to: NumHash): Option<NumHash> {
    if floor.None? || to.number > floor.value.number then Some(to) else floor
  }

  function Confirm(q: Queue, expected: NumHash): (Queue, Option<L1Block>) {
    if q.pending == [] || NumHashOf(q.pending[0].block) != expected then (q, None)
    else
      var front := q.pending[0];
      (q.(pending := q.pending[1..], processedHead := front.after, lastProcessed := Raise(q.lastProcessed, expected)),
        Some(front.block))
  }

  function Drain(q: Queue): (Queue, seq<L1Block>) {
    if q.pending == [] then (q, [])
    else
      var last := q.pending[|q.pending| - 1];
      (q.(pending := [], processedHead := last.after, lastProcessed := Raise(q.lastProcessed, NumHashOf(last.block))),
        Blocks(q.pending))
  }

  function Blocks(pending: seq<Pending>): seq<L1Block> {
    seq(|pending|, i requires 0 <= i < |pending| => pending[i].block)
  }

  // ---- invariants ------------------------------------------------------------------------

  predicate Follows(b: Header, a: Header) {
    b.number == a.number + 1 && b.parentHash == a.hash
  }

  /** Pending blocks are consecutive and hash-linked. */
  ghost predicate Contiguous(q: Queue) {
    forall i :: 0 < i < |q.pending| ==> Follows(q.pending[i].block.header, q.pending[i - 1].block.header)
  }

  /** Chain value before the deposits of position `i`. */
  function HeadBefore(q: Queue, i: nat): Hash
    requires i <= |q.pending|
  {
    if i == 0 then q.processedHead else q.pending[i - 1].after
  }

  /** The before and after values of position `i` are the chain's. */
  ghost predicate ChainedAt(h: ChainHash, q: Queue, i: nat)
    requires i < |q.pending|
  {
    var p := q.pending[i];
    p.before == HeadBefore(q, i) && p.after == ChainOver(h, p.before, p.block.deposits)
  }

  /** Before and after values are the exact prefix values of the chain from the processed head. */
  ghost predicate Chained(h: ChainHash, q: Queue) {
    && (forall i :: 0 <= i < |q.pending| ==> ChainedAt(h, q, i))
    && q.enqueuedHead == HeadBefore(q, |q.pending|)
  }

  /** The high-water mark is the tail, or else what the engine consumed last. */
  ghost predicate Marked(q: Queue) {
    && (q.pending != [] ==> q.lastEnqueued == Some(NumHashOf(Tail(q))))
    && (q.pending == [] && q.lastEnqueued.Some? ==> q.lastProcessed == q.lastEnqueued)
  }

  /** The window, being consecutive, is above the consumed floor when its front is. */
  ghost predicate AboveFloor(q: Queue) {
    q.lastProcessed.Some? && q.pending != [] ==> q.lastProcessed.value.number < NumberAt(q, 0)
  }

  ghost predicate QueueOk(h: ChainHash, q: Queue) {
    Contiguous(q) && Chained(h, q) && Marked(q) && AboveFloor(q)
  }

  lemma {:induction false} Consecutive(q: Queue, i: nat, j: nat)
    requires Contiguous(q) && i <= j < |q.pending|
    ensures NumberAt(q, j) == NumberAt(q, i) + (j - i)
    decreases j
  {
    if i < j {
      Consecutive(q, i, j - 1);
    }
  }

  lemma PurgeChained(h: ChainHash, q: Queue, n: nat)
    requires Chained(h, q) && n < |q.pending|
    ensures Chained(h, PurgeFrom(q, n))
  {
    var p := PurgeFrom(q, n);
    forall i | 0 <= i < n ensures ChainedAt(h, p, i) {
      assert ChainedAt(h, q, i);
    }
  }

  lemma PurgeOk(h: ChainHash, q: Queue, n: nat)
    requires QueueOk(h, q) && n < |q.pending|
    ensures QueueOk(h, PurgeFrom(q, n))
    ensures n == 0 ==> PurgeFrom(q, n).lastEnqueued == None
  {
    hide Chained;
    PurgeChained(h, q, n);
  }

  lemma AppendChained(h: ChainHash, q: Queue, b: L1Block)
    requires Chained(h, q)
    ensures Chained(h, Append(h, q, b))
  {
    var p := Append(h, q, b);
    forall i | 0 <= i < |p.pending| ensures ChainedAt(h, p, i) {
      assert i == |q.pending| || ChainedAt(h, q, i);
    }
  }

  lemma AppendOk(h: ChainHash, q: Queue, b: L1Block)
    requires QueueOk(h, q)
    requires q.pending != [] ==> Follows(b.header, Tail(q).header)
    requires q.pending == [] && q.lastProcessed.Some? ==> b.header.number > q.lastProcessed.value.number
    ensures QueueOk(h, Append(h, q, b))
  {
    hide Chained;
    AppendChained(h, q, b);
  }

  lemma TailPosition(q: Queue)
    requires Contiguous(q) && q.pending != []
    ensures Position(q.pending, Tail(q).header.number) == Some(|q.pending| - 1)
  {
    var p := Position(q.pending, Tail(q).header.number);
    Consecutive(q, p.value, |q.pending| - 1);
  }

  lemma OfferEmptyOk(h: ChainHash, q: Queue, b: L1Block)
    requires QueueOk(h, q) && q.pending == []
    ensures QueueOk(h, OfferEmpty(h, q, b).0)
  {
    if OfferEmpty(h, q, b).1.Accepted? {
      AppendOk(h, q, b);
    } else {
      assert Chained(h, q.(lastEnqueued := None));
    }
  }

  lemma OfferWindowOk(h: ChainHash, q: Queue, b: L1Block)
    requires QueueOk(h, q) && q.pending != []
    ensures QueueOk(h, OfferWindow(h, q, b).0)
  {
    hide QueueOk, Append, Position;
    var n, tail := b.header.number, Tail(q).header;
    if n == tail.number + 1 {
      if b.header.parentHash == tail.hash {
        AppendOk(h, q, b);
      } else {
        TailOk(h, q);
        PurgeOk(h, q, |q.pending| - 1);
        var purged := PurgeFrom(q, |q.pending| - 1);
        if |q.pending| == 1 {
          AppendOk(h, purged, b);
        } else {
          SecondLast(h, q);
        }
      }
    }
  }

  lemma TailOk(h: ChainHash, q: Queue)
    requires QueueOk(h, q) && q.pending != []
    ensures Position(q.pending, Tail(q).header.number) == Some(|q.pending| - 1)
    ensures q.lastProcessed.Some? ==> q.lastProcessed.value.number < Tail(q).header.number
  {
    TailPosition(q);
    Consecutive(q, 0, |q.pending| - 1);
  }

  lemma SecondLast(h: ChainHash, q: Queue)
    requires QueueOk(h, q) && |q.pending| >= 2
    ensures NumberAt(q, |q.pending| - 2) + 1 == Tail(q).header.number
  {
    Consecutive(q, |q.pending| - 2, |q.pending| - 1);
  }

  /** After a reorg purge the offered block is beyond what is left, so it is no duplicate. */
  lemma PurgedOffer(h: ChainHash, q: Queue, i: nat, b: L1Block)
    requires QueueOk(h, q) && i < |q.pending| && NumberAt(q, i) == b.header.number
    ensures !Offer(h, PurgeFrom(q, i), b).1.Duplicate?
  {
    Consecutive(q, 0, i);
    if i > 0 {
      Consecutive(q, i - 1, i);
    }
  }

  /** Whatever is offered, the queue stays in order, and a duplicate changes nothing. */
  lemma TryEnqueueOk(h: ChainHash, q: Queue, b: L1Block)
    requires QueueOk(h, q)
    ensures QueueOk(h, TryEnqueue(h, q, b).0)
    ensures TryEnqueue(h, q, b).1.Duplicate? ==> TryEnqueue(h, q, b).0 == q
  {
    hide QueueOk, PurgeFrom, Append;
    var p := Position(q.pending, b.header.number);
    var q1 := q;
    if p.Some? && q.pending[p.value].block.header.hash != b.header.hash {
      PurgeOk(h, q, p.value);
      PurgedOffer(h, q, p.value, b);
      q1 := PurgeFrom(q, p.value);
    }
    if q1.pending == [] {
      OfferEmptyOk(h, q1, b);
    } else {
      OfferWindowOk(h, q1, b);
    }
  }

  lemma ConfirmChained(h: ChainHash, q: Queue, expected: NumHash)
    requires Chained(h, q)
    ensures Chained(h, Confirm(q, expected).0)
  {
    var p := Confirm(q, expected).0;
    if p != q {
      forall i | 0 <= i < |p.pending| ensures ChainedAt(h, p, i) {
        assert ChainedAt(h, q, i + 1);
      }
    }
  }

  lemma ConfirmOk(h: ChainHash, q: Queue, expected: NumHash)
    requires QueueOk(h, q)
    ensures QueueOk(h, Confirm(q, expected).0)
    ensures var (p, r) := Confirm(q, expected);
            && (r.None? ==> p == q)
            && (r.Some? ==> NumHashOf(r.value) == expected && p.lastProcessed == Some(expected)
                            && (q.lastProcessed.Some? ==> q.lastProcessed.value.number < expected.number)
                            && p.processedHead == ChainOver(h, q.processedHead, r.value.deposits))
  {
    ConfirmChained(h, q, expected);
    if q.pending != [] {
      assert ChainedAt(h, q, 0);
    }
    hide Chained;
  }

  /** A confirmation takes the front off the window exactly when it names the front. */
  lemma ConfirmPops(q: Queue, expected: NumHash)
    ensures var (p, r) := Confirm(q, expected);
            && (r.Some? <==> q.pending != [] && NumHashOf(q.pending[0].block) == expected)
            && (r.Some? ==> p.pending == q.pending[1..] && r.value == q.pending[0].block)
            && p.lastEnqueued == q.lastEnqueued && p.enqueuedHead == q.enqueuedHead
  {
  }

  /** A block at or below the floor is a duplicate, even after the high-water mark was cleared. */
  lemma FloorRejects(h: ChainHash, q: Queue, b: L1Block)
    requires QueueOk(h, q) && q.lastProcessed.Some? && b.header.number <= q.lastProcessed.value.number
    ensures TryEnqueue(h, q, b) == (q, Duplicate)
  {
    if q.pending != [] {
      Consecutive(q, 0, |q.pending| - 1);
      forall i | 0 <= i < |q.pending| ensures q.pending[i].block.header.number != b.header.number {
        Consecutive(q, 0, i);
      }
      assert Position(q.pending, b.header.number).None?;
    }
  }

  lemma DrainOk(h: ChainHash, q: Queue)
    requires QueueOk(h, q)
    ensures QueueOk(h, Drain(q).0) && Drain(q).0.pending == []
    ensures |Drain(q).1| == |q.pending| && forall i :: 0 <= i < |q.pending| ==> Drain(q).1[i] == q.pending[i].block
    ensures q.pending != [] ==> Drain(q).0.lastProcessed == q.lastEnqueued && Drain(q).0.processedHead == q.enqueuedHead
  {
    if q.pending != [] {
      TailOk(h, q);
    }
  }

  // ---- whole runs ------------------------------------------------------------------------

  datatype QueueStep = Offered(block: L1Block) | Confirmed(expected: NumHash) | Drained

  /** The queue and every block the engine has taken from it. */
  datatype History = History(queue: Queue, consumed: seq<L1Block>)

  function StepQueue(h: ChainHash, s: History, step: QueueStep): History {
    match step
    case Offered(b) => s.(queue := TryEnqueue(h, s.queue, b).0)
    case Confirmed(expected) =>
      var (q, r) := Confirm(s.queue, expected);
      History(q, s.consumed + if r.Some? then [r.value] else [])
    case Drained =>
      var (q, bs) := Drain(s.queue);
      History(q, s.consumed + bs)
  }

  function RunQueue(h: ChainHash, steps: seq<QueueStep>): History {
    if steps == [] then History(EMPTY, []) else StepQueue(h, RunQueue(h, steps[..|steps| - 1]), steps[|steps| - 1])
  }

  function AllDeposits(bs: seq<L1Block>): seq<L1Deposit> {
    if bs == [] then [] else AllDeposits(bs[..|bs| - 1]) + bs[|bs| - 1].deposits
  }

  lemma AllDepositsAppend(bs: seq<L1Block>, b: L1Block)
    ensures AllDeposits(bs + [b]) == AllDeposits(bs) + b.deposits
  {
    assert (bs + [b])[..|bs|] == bs;
  }

  lemma {:induction false} AllDepositsConcat(a: seq<L1Block>, b: seq<L1Block>)
    ensures AllDeposits(a + b) == AllDeposits(a) + AllDeposits(b)
  {
    if b == [] {
      assert a + b == a;
    } else {
      assert (a + b)[..|a + b| - 1] == a + b[..|b| - 1];
      AllDepositsConcat(a, b[..|b| - 1]);
    }
  }

  ghost predicate Ascending(bs: seq<L1Block>) {
    forall i, j :: 0 <= i < j < |bs| ==> bs[i].header.number < bs[j].header.number
  }

  /** The queue is in order, and the processed head is the chain over everything consumed so far. */
  ghost predicate HistoryOk(h: ChainHash, s: History) {
    && QueueOk(h, s.queue)
    && s.queue.processedHead == ChainOver(h, ZERO_HASH, AllDeposits(s.consumed))
    && Ascending(s.consumed)
    && s.queue.lastProcessed == if s.consumed == [] then None else Some(NumHashOf(s.consumed[|s.consumed| - 1]))
  }

  /** The chain value at the end of the window continues the chain over the pending deposits. */
  lemma {:induction false} WindowChain(h: ChainHash, q: Queue, n: nat)
    requires Chained(h, q) && n <= |q.pending|
    ensures HeadBefore(q, n) == ChainOver(h, q.processedHead, AllDeposits(Blocks(q.pending[..n])))
  {
    if n > 0 {
      WindowChain(h, q, n - 1);
      assert ChainedAt(h, q, n - 1);
      var bs, b := Blocks(q.pending[..n - 1]), q.pending[n - 1].block;
      assert Blocks(q.pending[..n]) == bs + [b];
      AllDepositsAppend(bs, b);
      ChainOverConcat(h, q.processedHead, AllDeposits(bs), b.deposits);
      hide ChainOver, AllDeposits, Chained;
    }
  }

  /** Offers never touch what was consumed. */
  lemma TryEnqueueKeepsConsumed(h: ChainHash, q: Queue, b: L1Block)
    ensures TryEnqueue(h, q, b).0.processedHead == q.processedHead
            && TryEnqueue(h, q, b).0.lastProcessed == q.lastProcessed
  {
    hide Position, ChainOver;
  }

  lemma OfferedHistory(h: ChainHash, s: History, b: L1Block)
    requires HistoryOk(h, s)
    ensures HistoryOk(h, StepQueue(h, s, Offered(b)))
  {
    hide QueueOk, TryEnqueue, ChainOver, AllDeposits, Ascending;
    TryEnqueueOk(h, s.queue, b);
    TryEnqueueKeepsConsumed(h, s.queue, b);
  }

  lemma ConfirmedHistory(h: ChainHash, s: History, expected: NumHash)
    requires HistoryOk(h, s)
    ensures HistoryOk(h, StepQueue(h, s, Confirmed(expected)))
  {
    ConfirmOk(h, s.queue, expected);
    hide QueueOk, Raise;
    var r := Confirm(s.queue, expected).1;
    if r.Some? {
      AllDepositsAppend(s.consumed, r.value);
      ChainOverConcat(h, ZERO_HASH, AllDeposits(s.consumed), r.value.deposits);
      hide ChainOver, AllDeposits, Confirm;
    } else {
      assert s.consumed + [] == s.consumed;
    }
  }

  lemma WindowAscends(h: ChainHash, s: History)
    requires HistoryOk(h, s)
    ensures Ascending(s.consumed + Blocks(s.queue.pending))
  {
    hide Chained, ChainOver, AllDeposits;
    var n, all := |s.consumed|, s.consumed + Blocks(s.queue.pending);
    forall i, j | 0 <= i < j < |all| ensures all[i].header.number < all[j].header.number {
      if i >= n {
        Consecutive(s.queue, i - n, j - n);
      } else if j >= n {
        Consecutive(s.queue, 0, j - n);
        assert i == n - 1 || s.consumed[i].header.number < s.consumed[n - 1].header.number;
      }
    }
  }

  lemma DrainedHistory(h: ChainHash, s: History)
    requires HistoryOk(h, s)
    ensures HistoryOk(h, StepQueue(h, s, Drained))
  {
    DrainOk(h, s.queue);
    WindowAscends(h, s);
    EnqueuedChain(h, s);
    hide QueueOk, ChainOver, AllDeposits, Ascending, Raise;
    if s.queue.pending == [] {
      assert s.consumed + [] == s.consumed;
    } else {
      WindowMarked(h, s.queue);
    }
  }

  lemma WindowMarked(h: ChainHash, q: Queue)
    requires QueueOk(h, q) && q.pending != []
    ensures q.lastEnqueued == Some(NumHashOf(Tail(q)))
  {
  }

  lemma StepHistory(h: ChainHash, s: History, step: QueueStep)
    requires HistoryOk(h, s)
    ensures HistoryOk(h, StepQueue(h, s, step))
  {
    hide HistoryOk, StepQueue;
    match step
    case Offered(b) => OfferedHistory(h, s, b);
    case Confirmed(expected) => ConfirmedHistory(h, s, expected);
    case Drained => DrainedHistory(h, s);
  }

  /**
    Through any mix of offers, reorg purges, confirmations and drains: the window stays in
    order above the floor, consumed numbers strictly increase, and the processed head is the
    chain from zero over all consumed deposits.
   */
  lemma {:induction false} RunQueueOk(h: ChainHash, steps: seq<QueueStep>)
    ensures HistoryOk(h, RunQueue(h, steps))
  {
    if steps == [] {
      assert HistoryOk(h, History(EMPTY, []));
    } else {
      hide HistoryOk, StepQueue;
      RunQueueOk(h, steps[..|steps| - 1]);
      StepHistory(h, RunQueue(h, steps[..|steps| - 1]), steps[|steps| - 1]);
    }
  }

  /** After any run the window is a chain of consecutive blocks above all consumed ones, and the mark names its tail. */
  lemma AlwaysChained(h: ChainHash, steps: seq<QueueStep>, i: nat)
    requires i < |RunQueue(h, steps).queue.pending|
    ensures var s := RunQueue(h, steps);
            var b, last := s.queue.pending[i].block.header, s.queue.pending[|s.queue.pending| - 1].block.header;
            && (i > 0 ==>
                  && b.number == s.queue.pending[i - 1].block.header.number + 1
                  && b.parentHash == s.queue.pending[i - 1].block.header.hash)
            && (forall x :: x in s.consumed ==> x.header.number < b.number)
            && s.queue.lastEnqueued == Some(NumHash(last.number, last.hash))
  {
    RunQueueOk(h, steps);
    hide RunQueue, Chained, ChainOver, AllDeposits;
    var s := RunQueue(h, steps);
    Consecutive(s.queue, 0, i);
    if s.consumed != [] {
      var n := |s.consumed| - 1;
      forall j | 0 <= j < |s.consumed| ensures s.consumed[j].header.number < s.queue.pending[i].block.header.number {
        assert j == n || s.consumed[j].header.number < s.consumed[n].header.number;
      }
    }
  }

  /** The window continues the chain over consumed deposits to the enqueued head. */
  lemma EnqueuedChain(h: ChainHash, s: History)
    requires HistoryOk(h, s)
    ensures s.queue.enqueuedHead == ChainOver(h, ZERO_HASH, AllDeposits(s.consumed + Blocks(s.queue.pending)))
  {
    var q := s.queue;
    assert q.pending[..|q.pending|] == q.pending;
    WindowChain(h, q, |q.pending|);
    AllDepositsConcat(s.consumed, Blocks(q.pending));
    ChainOverConcat(h, ZERO_HASH, AllDeposits(s.consumed), AllDeposits(Blocks(q.pending)));
  }
}
