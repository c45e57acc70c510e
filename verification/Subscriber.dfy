/** The subscriber: live blocks wait for a child before they are queued, and gaps are backfilled. */
module Subscriber {
  import opened Prelude
  import opened Deposits
  import opened DepositQueue
  import opened PendingDepositsQueue
  import opened Backfill

  /**
    A fetch answers a request when it is the hash-linked run from the requested block to the tip,
    and fits the queue.
   */
  ghost predicate Answers(h: ChainHash, q: Queue, tip: L1Block, fetched: seq<L1Block>) {
    var (q1, outcome) := TryEnqueue(h, q, tip);
    && outcome.NeedBackfill? && LinkedRun(fetched)
    && |fetched| == tip.header.number - outcome.from + 1 && fetched != []
    && fetched[0].header.number == outcome.from && FirstFits(q1, fetched[0])
  }

  /** How a live header is dealt with: the run goes on, or ends. */
  datatype HeaderResult = Buffered | Panicked | FetchFailed

  class L1Subscriber {
    const queue: PendingDeposits
    var unconfirmedTip: Option<L1Block>

    constructor (queue: PendingDeposits)
      ensures this.queue == queue && unconfirmedTip == None
    {
      this.queue := queue;
      unconfirmedTip := None;
    }

    /** The engine's confirmations that reach the queue between two deliveries. */
    method Confirmations(expected: seq<NumHash>)
      requires queue.Valid()
      modifies queue`processedHead, queue`lastProcessed, queue`pending
      ensures queue.Valid() && queue.State() == ConfirmEach(old(queue.State()), expected)
    {
      hide QueueOk, Confirm;
      ghost var start := queue.State();
      for i := 0 to |expected|
        invariant queue.Valid() && ConfirmEach(start, expected) == ConfirmEach(queue.State(), expected[i..])
      {
        assert expected[i..][0] == expected[i] && expected[i..][1..] == expected[i + 1..];
        var _ := queue.ConfirmBlock(expected[i]);
      }
      assert expected[|expected|..] == [];
    }

    /**
      Queue fetched blocks in order; before each one the engine may confirm any blocks. Stops at
      the first delivery that panics.
     */
    method BackfillRange(fetched: seq<L1Block>, between: seq<seq<NumHash>>) returns (panicked: bool)
      requires queue.Valid() && |between| == |fetched|
      modifies queue`enqueuedHead, queue`lastEnqueued, queue`pending, queue`processedHead, queue`lastProcessed
      ensures queue.Valid() && (queue.State(), panicked) == Feed(queue.h, old(queue.State()), fetched, between)
    {
      hide QueueOk, TryEnqueue, ConfirmEach;
      ghost var start := queue.State();
      for i := 0 to |fetched|
        invariant queue.Valid()
        invariant Feed(queue.h, start, fetched, between) == Feed(queue.h, queue.State(), fetched[i..], between[i..])
      {
        assert fetched[i..][0] == fetched[i] && fetched[i..][1..] == fetched[i + 1..];
        assert between[i..][0] == between[i] && between[i..][1..] == between[i + 1..];
        Confirmations(between[i]);
        panicked := queue.EnqueueSealed(fetched[i]);
        if panicked {
          return;
        }
      }
      return false;
    }

    /** The range the initial sync fetches, if any: from the adjusted start to the L1 tip. */
    method SyncRange(resolved: Option<nat>, tip: nat) returns (from: Option<nat>)
      ensures from.Some? <==>
                resolved.Some? && resolved.value <= tip
                && (queue.lastEnqueued.Some? ==> queue.lastEnqueued.value.number < tip)
      ensures from.Some? ==>
                var after := if queue.lastEnqueued.Some? then queue.lastEnqueued.value.number + 1 else 0;
                && from.value == SyncStart(queue.State(), resolved.value)
                && resolved.value <= from.value <= tip && after <= from.value
                && (from.value == resolved.value || from.value == after)
    {
      if resolved.None? {
        return None;
      }
      var start := resolved.value;
      if queue.lastEnqueued.Some? {
        var adjusted := queue.lastEnqueued.value.number + 1;
        start := if adjusted > start then adjusted else start;
      }
      if start > tip {
        return None;
      }
      return Some(start);
    }

    /**
      A new live header confirms the buffered tip when it is its child, and otherwise discards
      it. A confirmed tip that leaves a gap is followed by the fetched blocks, whatever they
      are; `complete` says whether the fetch got to its end. Any complete fetch that answers the
      queue's request recovers, with confirmations in between. A panic or a failed fetch ends the
      run with nothing buffered.
     */
    method OnHeader(b: L1Block, fetched: seq<L1Block>, complete: bool, between: seq<seq<NumHash>>)
      returns (r: HeaderResult)
      requires queue.Valid() && |between| == |fetched|
      modifies this, queue`enqueuedHead, queue`lastEnqueued, queue`pending, queue`processedHead, queue`lastProcessed
      ensures queue.Valid() && unconfirmedTip == if r == Buffered then Some(b) else None
      ensures var tip := old(unconfirmedTip);
              if tip.None? || b.header.parentHash != tip.value.header.hash then
                r == Buffered && queue.State() == old(queue.State())
              else
                var (q1, outcome) := TryEnqueue(queue.h, old(queue.State()), tip.value);
                if !outcome.NeedBackfill? then r == Buffered && queue.State() == q1
                else
                  var (q2, panicked) := Feed(queue.h, q1, fetched, between);
                  && queue.State() == q2
                  && r == (if panicked then Panicked else if complete then Buffered else FetchFailed)
                  && (Answers(queue.h, old(queue.State()), tip.value, fetched) && complete ==>
                        r == Buffered && queue.pending != [] && Tail(queue.State()) == fetched[|fetched| - 1])
    {
      hide QueueOk, TryEnqueue, Feed;
      var tip := unconfirmedTip;
      unconfirmedTip := None;
      if tip.Some? && b.header.parentHash == tip.value.header.hash {
        ghost var before := queue.State();
        var outcome := queue.TryEnqueueBlock(tip.value);
        if outcome.NeedBackfill? {
          if Answers(queue.h, before, tip.value, fetched) {
            BackfillRecovers(queue.h, before, tip.value, fetched, between);
          }
          var panicked := BackfillRange(fetched, between);
          if panicked {
            return Panicked;
          }
          if !complete {
            return FetchFailed;
          }
        }
      }
      unconfirmedTip := Some(b);
      return Buffered;
    }
  }
}
