/** The queue object, updated in place by the subscriber and the engine under one lock. */
module PendingDepositsQueue {
  import opened Prelude
  import opened Deposits
  import opened DepositQueue

  class PendingDeposits {
    const h: ChainHash
    var processedHead: Hash
    var enqueuedHead: Hash
    var pending: seq<Pending>
    var lastEnqueued: Option<NumHash>
    var lastProcessed: Option<NumHash>

    constructor (h: ChainHash)
      ensures this.h == h && State() == EMPTY && Valid()
    {
      this.h := h;
      processedHead, enqueuedHead, pending, lastEnqueued, lastProcessed := ZERO_HASH, ZERO_HASH, [], None, None;
    }

    function State(): Queue
      reads this
    {
      Queue(processedHead, enqueuedHead, pending, lastEnqueued, lastProcessed)
    }

    ghost predicate Valid()
      reads this
    {
      QueueOk(h, State())
    }

    /** Linear search for a block number. */
    method FindNumber(number: nat) returns (r: Option<nat>)
      ensures r == Position(pending, number)
    {
      for i := 0 to |pending|
        invariant forall j :: 0 <= j < i ==> pending[j].block.header.number != number
      {
        if pending[i].block.header.number == number {
          return Some(i);
        }
      }
      return None;
    }

    /** Run the chain over the block's deposits, then push it. */
    method Push(b: L1Block)
      modifies this`enqueuedHead, this`lastEnqueued, this`pending
      ensures State() == Append(h, old(State()), b)
    {
      var before := enqueuedHead;
      for i := 0 to |b.deposits|
        invariant enqueuedHead == ChainOver(h, before, b.deposits[..i])
        invariant pending == old(pending) && lastEnqueued == old(lastEnqueued)
      {
        assert b.deposits[..i + 1][..i] == b.deposits[..i];
        enqueuedHead := HashChain(h, b.deposits[i], enqueuedHead);
      }
      assert b.deposits[..|b.deposits|] == b.deposits;
      lastEnqueued := Some(NumHashOf(b));
      pending := pending + [Pending(b, before, enqueuedHead)];
    }

    method Purge(n: nat)
      requires n < |pending|
      modifies this`enqueuedHead, this`lastEnqueued, this`pending
      ensures State() == PurgeFrom(old(State()), n)
    {
      if n == 0 {
        enqueuedHead := processedHead;
        pending := [];
      } else {
        enqueuedHead := pending[n - 1].after;
        pending := pending[..n];
      }
      lastEnqueued := if pending == [] then None else Some(NumHashOf(pending[|pending| - 1].block));
    }

    /** Append the block, ignore it, or say which blocks must be fetched before it. */
    method TryEnqueueBlock(b: L1Block) returns (outcome: EnqueueOutcome)
      requires Valid()
      modifies this`enqueuedHead, this`lastEnqueued, this`pending
      ensures (State(), outcome) == TryEnqueue(h, old(State()), b)
      ensures Valid()
      ensures outcome.Duplicate? ==> State() == old(State())
    {
      hide QueueOk, Append, PurgeFrom, Position;
      TryEnqueueOk(h, State(), b);
      var number := b.header.number;
      var at := FindNumber(number);
      if at.Some? {
        if pending[at.value].block.header.hash == b.header.hash {
          return Duplicate;
        }
        Purge(at.value);
      }
      if pending == [] {
        if lastEnqueued.Some? {
          var last := lastEnqueued.value;
          if number <= last.number {
            return Duplicate;
          }
          if number > last.number + 1 {
            return NeedBackfill(last.number + 1, number - 1);
          }
          if b.header.parentHash != last.hash {
            lastEnqueued := None;
            return NeedBackfill(last.number, number - 1);
          }
        } else if lastProcessed.Some? {
          var processed := lastProcessed.value;
          if number <= processed.number {
            return Duplicate;
          }
          if number > processed.number + 1 {
            return NeedBackfill(processed.number + 1, number - 1);
          }
        }
        Push(b);
        return Accepted;
      }
      var tail := pending[|pending| - 1].block.header;
      if number <= tail.number {
        return Duplicate;
      }
      var expected := tail.number + 1;
      if number > expected {
        return NeedBackfill(expected, number - 1);
      }
      if b.header.parentHash != tail.hash {
        var reorged := FindNumber(tail.number);
        if reorged.Some? {
          Purge(reorged.value);
        }
        var newExpected := if pending == [] then number else pending[|pending| - 1].block.header.number + 1;
        if newExpected < number {
          return NeedBackfill(newExpected, number - 1);
        }
      }
      Push(b);
      return Accepted;
    }

    /** Backfill blocks arrive in order; a further gap is a programming error and panics. */
    method EnqueueSealed(b: L1Block) returns (panics: bool)
      requires Valid()
      modifies this`enqueuedHead, this`lastEnqueued, this`pending
      ensures Valid() && State() == TryEnqueue(h, old(State()), b).0
      ensures panics <==> TryEnqueue(h, old(State()), b).1.NeedBackfill?
    {
      var outcome := TryEnqueueBlock(b);
      panics := outcome.NeedBackfill?;
    }

    method Peek() returns (r: Option<L1Block>)
      ensures r == if pending == [] then None else Some(pending[0].block)
    {
      r := if |pending| == 0 then None else Some(pending[0].block);
    }

    /** Remove the front block if it is still the expected one; the floor only rises. */
    method ConfirmBlock(expected: NumHash) returns (r: Option<L1Block>)
      requires Valid()
      modifies this`processedHead, this`pending, this`lastProcessed
      ensures (State(), r) == Confirm(old(State()), expected) && Valid()
    {
      hide QueueOk;
      ConfirmOk(h, State(), expected);
      if pending == [] || NumHashOf(pending[0].block) != expected {
        return None;
      }
      var front := pending[0];
      pending := pending[1..];
      processedHead := front.after;
      if lastProcessed.None? || expected.number > lastProcessed.value.number {
        lastProcessed := Some(expected);
      }
      return Some(front.block);
    }

    method DrainAll() returns (r: seq<Pending>)
      requires Valid()
      modifies this`processedHead, this`pending, this`lastProcessed
      ensures r == old(pending) && State() == Drain(old(State())).0 && Valid()
    {
      hide QueueOk;
      DrainOk(h, State());
      if pending != [] {
        var last := pending[|pending| - 1];
        processedHead := last.after;
        if lastProcessed.None? || NumHashOf(last.block).number > lastProcessed.value.number {
          lastProcessed := Some(NumHashOf(last.block));
        }
      }
      r := pending;
      pending := [];
    }
  }
}
