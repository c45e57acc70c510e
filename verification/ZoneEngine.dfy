/** The engine's loop over the shared queue, as a run of protocol steps. */
module ZoneEngineLoop {
  import opened Deposits
  import opened DepositQueue
  import opened PendingDepositsQueue
  import opened ZoneProtocol

  /**
    What happens around one build: blocks the subscriber offers before the peek, blocks it
    offers while the block is built, and whether the payload is accepted.
   */
  datatype Round = Round(before: seq<L1Block>, during: seq<L1Block>, accepted: bool)

  ghost function Offers(bs: seq<L1Block>): seq<ZoneStep> {
    if bs == [] then [] else Offers(bs[..|bs| - 1]) + [SubscriberOffers(bs[|bs| - 1])]
  }

  /** The steps of one round from the peek on. */
  ghost function RoundSteps(round: Round, ok: bool): seq<ZoneStep> {
    [PeekFront] + Offers(round.during) + if ok then [BuildSucceeds, ConfirmBuilt] else [BuildFails]
  }

  /** The steps of rounds that all succeed. */
  ghost function Script(rounds: seq<Round>): seq<ZoneStep> {
    if rounds == [] then []
    else
      var last := rounds[|rounds| - 1];
      Script(rounds[..|rounds| - 1]) + Offers(last.before) + RoundSteps(last, true)
  }

  lemma ScriptMore(rounds: seq<Round>, n: nat)
    requires n < |rounds|
    ensures Script(rounds[..n + 1]) == Script(rounds[..n]) + Offers(rounds[n].before) + RoundSteps(rounds[n], true)
  {
    hide Offers, RoundSteps;
    assert rounds[..n + 1][..n] == rounds[..n];
  }

  lemma NoRounds()
    ensures Script([]) == []
  {
  }

  lemma RunMore(h: ChainHash, anchor: NumHash, steps: seq<ZoneStep>, step: ZoneStep)
    ensures RunZone(h, anchor, steps + [step]) == StepZone(h, RunZone(h, anchor, steps), step)
  {
    assert (steps + [step])[..|steps|] == steps;
  }

  lemma ConfirmNothing(q: Queue, e: NumHash)
    ensures Confirm(q, e).1.None? ==> Confirm(q, e).0 == q
  {
  }

  class ZoneEngine {
    const queue: PendingDeposits
    const anchor: NumHash
    /** The zone head's record of the last L1 block. */
    var stored: NumHash
    ghost var history: seq<ZoneStep>

    constructor (queue: PendingDeposits, anchor: NumHash)
      requires queue.State() == EMPTY
      ensures this.queue == queue && this.anchor == anchor && stored == anchor && history == []
      ensures Valid()
    {
      this.queue := queue;
      this.anchor := anchor;
      stored := anchor;
      history := [];
    }

    ghost function Zone(): Zone
      reads this
    {
      RunZone(queue.h, anchor, history)
    }

    /** Engine and queue are where the protocol run says they are. */
    ghost predicate Agrees()
      reads this, queue
    {
      Zone().queue == queue.State() && Zone().stored == stored
    }

    ghost predicate Valid()
      reads this, queue
    {
      Agrees() && Zone().engine.Idle?
    }

    ghost method Step(step: ZoneStep)
      modifies this`history
      ensures history == old(history) + [step] && Zone() == StepZone(queue.h, old(Zone()), step)
    {
      RunMore(queue.h, anchor, history, step);
      history := history + [step];
    }

    /** The subscriber's offers reach the queue under its lock, between the engine's steps. */
    method Deliver(bs: seq<L1Block>)
      requires Agrees()
      modifies this`history, queue`enqueuedHead, queue`lastEnqueued, queue`pending
      ensures Agrees() && history == old(history) + Offers(bs)
      ensures Zone().engine == old(Zone().engine) && Zone().absorbed == old(Zone().absorbed)
    {
      for i := 0 to |bs|
        invariant Agrees() && history == old(history) + Offers(bs[..i])
        invariant Zone().engine == old(Zone().engine) && Zone().absorbed == old(Zone().absorbed)
      {
        hide RunZone, QueueOk;
        RunZoneOk(queue.h, anchor, history);
        var _ := queue.TryEnqueueBlock(bs[i]);
        Step(SubscriberOffers(bs[i]));
        assert bs[..i + 1][..i] == bs[..i];
      }
      assert bs[..|bs|] == bs;
    }

    /** The payload was accepted: take the block off the queue if it is still in front. */
    method ConfirmMade(b: L1Block)
      requires Zone().queue == queue.State() && Zone().engine == Built(b) && Zone().stored == NumHashOf(b)
      modifies this, queue`pending, queue`processedHead, queue`lastProcessed
      ensures Valid() && history == old(history) + [ConfirmBuilt] && stored == NumHashOf(b)
      ensures Zone().absorbed == old(Zone().absorbed)
    {
      hide RunZone, QueueOk, Confirm;
      RunZoneOk(queue.h, anchor, history);
      ConfirmNothing(queue.State(), NumHashOf(b));
      var _ := queue.ConfirmBlock(NumHashOf(b));
      Step(ConfirmBuilt);
      stored := NumHashOf(b);
    }

    /** Build one block on the peeked L1 block; only an accepted payload is confirmed. */
    method Advance(b: L1Block, round: Round) returns (ok: bool)
      requires Valid() && queue.pending != [] && b == queue.pending[0].block
      modifies this, queue`enqueuedHead, queue`lastEnqueued, queue`pending, queue`processedHead, queue`lastProcessed
      ensures Valid() && history == old(history) + RoundSteps(round, ok)
      ensures ok <==>
                round.accepted && b.header.number == old(stored).number + 1 && b.header.parentHash == old(stored).hash
      ensures stored == if ok then NumHashOf(b) else old(stored)
      ensures Zone().absorbed == old(Zone().absorbed) + if ok then [b] else []
    {
      hide RunZone, QueueOk, TryEnqueue, Confirm;
      Step(PeekFront);
      assert Zone().engine == Building(b);
      Deliver(round.during);
      if b.header.number != stored.number + 1 || b.header.parentHash != stored.hash || !round.accepted {
        Step(BuildFails);
        return false;
      }
      Step(BuildSucceeds);
      ConfirmMade(b);
      return true;
    }

    /**
      Work through the queue until it is empty or a build fails. `rounds` scripts what happens
      around each build, and `made` counts the blocks built: without a failure the loop stops
      only at an empty queue or at the end of the script.
     */
    method AdvanceAllAvailable(rounds: seq<Round>) returns (failed: bool, made: nat)
      requires Valid()
      modifies this, queue`enqueuedHead, queue`lastEnqueued, queue`pending, queue`processedHead, queue`lastProcessed
      ensures Valid() && ZoneOk(queue.h, anchor, Zone())
      ensures old(Zone().absorbed) <= Zone().absorbed && |Zone().absorbed| == |old(Zone().absorbed)| + made
      ensures made <= |rounds| && (!failed ==> queue.pending == [] || made == |rounds|)
      ensures failed ==> made < |rounds|
      ensures history == old(history) + Script(rounds[..made])
                         + (if made < |rounds| then Offers(rounds[made].before) else [])
                         + (if failed then RoundSteps(rounds[made], false) else [])
    {
      hide RunZone, QueueOk, ZoneOk, Continues, Offers, RoundSteps, Script;
      failed, made := false, 0;
      NoRounds();
      assert rounds[..0] == [];
      while made < |rounds|
        invariant made <= |rounds| && Valid() && history == old(history) + Script(rounds[..made])
        invariant old(Zone().absorbed) <= Zone().absorbed && |Zone().absorbed| == |old(Zone().absorbed)| + made
      {
        Deliver(rounds[made].before);
        var next := queue.Peek();
        if next.None? {
          break;
        }
        var ok := Advance(next.value, rounds[made]);
        if !ok {
          failed := true;
          break;
        }
        ScriptMore(rounds, made);
        made := made + 1;
      }
      RunZoneOk(queue.h, anchor, history);
    }
  }
}
