/**
  Subscriber, queue, engine and payload builder as one state machine. The subscriber may offer
  any block at any time; the engine peeks, builds and confirms in its own steps.
 */
module ZoneProtocol {
  import opened Prelude
  import opened Deposits
  import opened DepositQueue
  import opened Backfill

  /** Where the engine is with the block it peeked. */
  datatype Engine = Idle | Building(block: L1Block) | Built(made: L1Block)

  /**
    `absorbed` are the L1 blocks built into zone blocks, `confirmed` those the queue handed
    over, each with its place in `absorbed`, and `lost` counts confirmations that came too late.
   */
  datatype Zone = Zone(queue: Queue, engine: Engine, stored: NumHash, absorbed: seq<L1Block>,
                       confirmed: seq<L1Block>, places: seq<int>, lost: nat)

  datatype ZoneStep = SubscriberOffers(block: L1Block) | PeekFront | BuildFails | BuildSucceeds | ConfirmBuilt

  function Genesis(anchor: NumHash): Zone {
    Zone(EMPTY, Idle, anchor, [], [], [], 0)
  }

  /** The builder's continuity guard against the zone's own record of the last L1 block. */
  predicate Continues(stored: NumHash, b: L1Block) {
    b.header.number == stored.number + 1 && b.header.parentHash == stored.hash
  }

  function StepZone(h: ChainHash, z: Zone, step: ZoneStep): Zone {
    match step
    case SubscriberOffers(b) => z.(queue := TryEnqueue(h, z.queue, b).0)
    case PeekFront => if z.engine.Idle? && z.queue.pending != [] then z.(engine := Building(z.queue.pending[0].block))
      else z
    case BuildFails => if z.engine.Building? then z.(engine := Idle) else z
    case BuildSucceeds =>
      if z.engine.Building? && Continues(z.stored, z.engine.block) then
        z.(engine := Built(z.engine.block), stored := NumHashOf(z.engine.block), absorbed := z.absorbed
          + [z.engine.block])
      else z
    case ConfirmBuilt =>
      if !z.engine.Built? then z
      else
        var (q, r) := Confirm(z.queue, NumHashOf(z.engine.made));
        if r.None? then z.(engine := Idle, lost := z.lost + 1)
        else z.(queue := q, engine := Idle, confirmed := z.confirmed + [r.value], places := z.places
          + [|z.absorbed| - 1])
  }

  function RunZone(h: ChainHash, anchor: NumHash, steps: seq<ZoneStep>): Zone {
    if steps == [] then Genesis(anchor) else StepZone(h, RunZone(h, anchor, steps[..|steps| - 1]), steps[|steps| - 1])
  }

  // ---- safety ----------------------------------------------------------------------------

  function StoredBefore(anchor: NumHash, absorbed: seq<L1Block>, i: nat): NumHash
    requires i <= |absorbed|
  {
    if i == 0 then anchor else NumHashOf(absorbed[i - 1])
  }

  /** Absorbed blocks form one hash-linked chain of consecutive numbers from the anchor. */
  ghost predicate OneChain(anchor: NumHash, absorbed: seq<L1Block>) {
    forall i :: 0 <= i < |absorbed| ==> Continues(StoredBefore(anchor, absorbed, i), absorbed[i])
  }

  /** Confirmed blocks are absorbed ones, in order, none twice. */
  ghost predicate ConfirmedInOrder(z: Zone) {
    && |z.places| == |z.confirmed|
    && (forall i :: 0 <= i < |z.places| ==>
          0 <= z.places[i] < |z.absorbed| && NumHashOf(z.absorbed[z.places[i]]) == NumHashOf(z.confirmed[i]))
    && (forall i, j :: 0 <= i < j < |z.places| ==> z.places[i] < z.places[j])
    && (forall i :: 0 <= i < |z.places| && z.engine.Built? ==> z.places[i] < |z.absorbed| - 1)
  }

  ghost predicate ZoneOk(h: ChainHash, anchor: NumHash, z: Zone) {
    && QueueOk(h, z.queue)
    && OneChain(anchor, z.absorbed) && z.stored == StoredBefore(anchor, z.absorbed, |z.absorbed|)
    && (z.engine.Built? ==> z.absorbed != [] && z.engine.made == z.absorbed[|z.absorbed| - 1])
    && ConfirmedInOrder(z)
    && z.queue.processedHead == ChainOver(h, ZERO_HASH, AllDeposits(z.confirmed))
    && z.queue.lastProcessed == (if z.confirmed == [] then None else Some(NumHashOf(z.confirmed[|z.confirmed| - 1])))
    && |z.confirmed| + z.lost + (if z.engine.Built? then 1 else 0) == |z.absorbed|
  }

  lemma OfferKeepsZone(h: ChainHash, anchor: NumHash, z: Zone, b: L1Block)
    requires ZoneOk(h, anchor, z)
    ensures ZoneOk(h, anchor, StepZone(h, z, SubscriberOffers(b)))
  {
    hide QueueOk, TryEnqueue, ChainOver, AllDeposits, OneChain;
    TryEnqueueOk(h, z.queue, b);
    TryEnqueueKeepsConsumed(h, z.queue, b);
  }

  lemma ChainExtends(anchor: NumHash, absorbed: seq<L1Block>, b: L1Block)
    requires OneChain(anchor, absorbed) && Continues(StoredBefore(anchor, absorbed, |absorbed|), b)
    ensures OneChain(anchor, absorbed + [b])
  {
    var more := absorbed + [b];
    forall i | 0 <= i < |more| ensures Continues(StoredBefore(anchor, more, i), more[i]) {
      assert StoredBefore(anchor, more, i) == StoredBefore(anchor, absorbed, i);
    }
  }

  lemma BuildKeepsZone(h: ChainHash, anchor: NumHash, z: Zone)
    requires ZoneOk(h, anchor, z)
    ensures ZoneOk(h, anchor, StepZone(h, z, BuildSucceeds))
  {
    hide QueueOk, ChainOver, AllDeposits, OneChain;
    if z.engine.Building? && Continues(z.stored, z.engine.block) {
      ChainExtends(anchor, z.absorbed, z.engine.block);
    }
  }

  lemma ConfirmKeepsZone(h: ChainHash, anchor: NumHash, z: Zone)
    requires ZoneOk(h, anchor, z)
    ensures ZoneOk(h, anchor, StepZone(h, z, ConfirmBuilt))
  {
    hide QueueOk, ChainOver, AllDeposits, OneChain, Confirm;
    if z.engine.Built? {
      var expected := NumHashOf(z.engine.made);
      ConfirmOk(h, z.queue, expected);
      var r := Confirm(z.queue, expected).1;
      if r.Some? {
        ConsumeMore(h, z.confirmed, r.value);
      }
    }
  }

  lemma ConsumeMore(h: ChainHash, bs: seq<L1Block>, b: L1Block)
    ensures ChainOver(h, ZERO_HASH, AllDeposits(bs + [b]))
            == ChainOver(h, ChainOver(h, ZERO_HASH, AllDeposits(bs)), b.deposits)
  {
    assert (bs + [b])[..|bs|] == bs;
    ChainOverConcat(h, ZERO_HASH, AllDeposits(bs), b.deposits);
  }

  lemma PauseKeepsZone(h: ChainHash, anchor: NumHash, z: Zone, step: ZoneStep)
    requires ZoneOk(h, anchor, z) && (step.PeekFront? || step.BuildFails?)
    ensures ZoneOk(h, anchor, StepZone(h, z, step))
  {
    hide QueueOk, ChainOver, AllDeposits, OneChain, TryEnqueue, Confirm;
  }

  lemma StepKeepsZone(h: ChainHash, anchor: NumHash, z: Zone, step: ZoneStep)
    requires ZoneOk(h, anchor, z)
    ensures ZoneOk(h, anchor, StepZone(h, z, step))
  {
    hide ZoneOk, StepZone;
    match step
    case SubscriberOffers(b) => OfferKeepsZone(h, anchor, z, b);
    case PeekFront => PauseKeepsZone(h, anchor, z, step);
    case BuildFails => PauseKeepsZone(h, anchor, z, step);
    case BuildSucceeds => BuildKeepsZone(h, anchor, z);
    case ConfirmBuilt => ConfirmKeepsZone(h, anchor, z);
  }

  /** Under every interleaving the zone absorbs one hash-linked chain from its anchor. */
  lemma {:induction false} RunZoneOk(h: ChainHash, anchor: NumHash, steps: seq<ZoneStep>)
    ensures ZoneOk(h, anchor, RunZone(h, anchor, steps))
  {
    if steps == [] {
      assert ZoneOk(h, anchor, Genesis(anchor));
    } else {
      hide ZoneOk, StepZone;
      RunZoneOk(h, anchor, steps[..|steps| - 1]);
      StepKeepsZone(h, anchor, RunZone(h, anchor, steps[..|steps| - 1]), steps[|steps| - 1]);
    }
  }

  // ---- consequences ----------------------------------------------------------------------

  lemma {:induction false} ChainNumbers(anchor: NumHash, absorbed: seq<L1Block>, i: nat)
    requires OneChain(anchor, absorbed) && i < |absorbed|
    ensures absorbed[i].header.number == anchor.number + 1 + i
  {
    assert Continues(StoredBefore(anchor, absorbed, i), absorbed[i]);
    if i > 0 {
      ChainNumbers(anchor, absorbed, i - 1);
    }
  }

  /** No L1 block is skipped or absorbed twice, and the consumed floor is an absorbed block. */
  lemma AbsorbedOnce(h: ChainHash, anchor: NumHash, steps: seq<ZoneStep>, i: nat, j: nat)
    ensures var z := RunZone(h, anchor, steps);
            && (i < |z.absorbed| ==> z.absorbed[i].header.number == anchor.number + 1 + i)
            && (i < j < |z.absorbed| ==> z.absorbed[i] != z.absorbed[j])
            && (i < |z.absorbed| ==>
                  z.absorbed[i].header.parentHash == if i == 0 then anchor.hash else z.absorbed[i - 1].header.hash)
            && (z.queue.lastProcessed.Some? ==>
                  exists n :: 0 <= n < |z.absorbed| && NumHashOf(z.absorbed[n]) == z.queue.lastProcessed.value)
  {
    var z := RunZone(h, anchor, steps);
    RunZoneOk(h, anchor, steps);
    hide RunZone, QueueOk, ChainOver;
    if i < |z.absorbed| {
      ChainNumbers(anchor, z.absorbed, i);
      assert Continues(StoredBefore(anchor, z.absorbed, i), z.absorbed[i]);
    }
    if j < |z.absorbed| {
      ChainNumbers(anchor, z.absorbed, j);
    }
    if z.confirmed != [] {
      var last := |z.confirmed| - 1;
      assert NumHashOf(z.absorbed[z.places[last]]) == NumHashOf(z.confirmed[last]);
    }
  }

  // ---- deposits --------------------------------------------------------------------------

  /** A block's number and hash determine the block: headers are sealed and receipts are checked against them. */
  type L1Chain = NumHash -> L1Block

  ghost predicate Genuine(source: L1Chain, b: L1Block) {
    b == source(NumHashOf(b))
  }

  ghost predicate HonestOffers(source: L1Chain, steps: seq<ZoneStep>) {
    forall i :: 0 <= i < |steps| && steps[i].SubscriberOffers? ==> Genuine(source, steps[i].block)
  }

  ghost predicate AllGenuine(source: L1Chain, bs: seq<L1Block>) {
    forall i :: 0 <= i < |bs| ==> Genuine(source, bs[i])
  }

  ghost predicate QueueGenuine(source: L1Chain, q: Queue) {
    forall i :: 0 <= i < |q.pending| ==> Genuine(source, q.pending[i].block)
  }

  ghost predicate ZoneGenuine(source: L1Chain, z: Zone) {
    && QueueGenuine(source, z.queue) && AllGenuine(source, z.absorbed) && AllGenuine(source, z.confirmed)
    && (z.engine.Building? ==> Genuine(source, z.engine.block))
    && (z.engine.Built? ==> Genuine(source, z.engine.made))
  }

  lemma TryEnqueueGenuine(h: ChainHash, source: L1Chain, q: Queue, b: L1Block)
    requires QueueGenuine(source, q) && Genuine(source, b)
    ensures QueueGenuine(source, TryEnqueue(h, q, b).0)
  {
    hide Position, ChainOver, Genuine;
  }

  lemma StepGenuine(h: ChainHash, source: L1Chain, z: Zone, step: ZoneStep)
    requires ZoneGenuine(source, z) && (step.SubscriberOffers? ==> Genuine(source, step.block))
    ensures ZoneGenuine(source, StepZone(h, z, step))
  {
    if step.SubscriberOffers? {
      TryEnqueueGenuine(h, source, z.queue, step.block);
    }
    hide Genuine, TryEnqueue;
  }

  lemma {:induction false} RunGenuine(h: ChainHash, anchor: NumHash, source: L1Chain, steps: seq<ZoneStep>)
    requires HonestOffers(source, steps)
    ensures ZoneGenuine(source, RunZone(h, anchor, steps))
  {
    if steps != [] {
      RunGenuine(h, anchor, source, steps[..|steps| - 1]);
      StepGenuine(h, source, RunZone(h, anchor, steps[..|steps| - 1]), steps[|steps| - 1]);
    }
  }

  /** Increasing places that leave no room are the places in order. */
  lemma {:induction false} FullPlaces(places: seq<int>, i: nat)
    requires forall n :: 0 <= n < |places| ==> 0 <= places[n] < |places|
    requires forall n, m :: 0 <= n < m < |places| ==> places[n] < places[m]
    requires i < |places|
    ensures places[i] == i
  {
    AtLeast(places, i);
    AtMost(places, i);
  }

  lemma {:induction false} AtLeast(places: seq<int>, i: nat)
    requires forall n :: 0 <= n < |places| ==> 0 <= places[n]
    requires forall n, m :: 0 <= n < m < |places| ==> places[n] < places[m]
    requires i < |places|
    ensures places[i] >= i
  {
    if i > 0 {
      AtLeast(places, i - 1);
    }
  }

  lemma {:induction false} AtMost(places: seq<int>, i: nat)
    requires forall n :: 0 <= n < |places| ==> places[n] < |places|
    requires forall n, m :: 0 <= n < m < |places| ==> places[n] < places[m]
    requires i < |places|
    ensures places[i] <= i
    decreases |places| - i
  {
    if i + 1 < |places| {
      AtMost(places, i + 1);
    }
  }

  lemma ConfirmedAreAbsorbed(source: L1Chain, z: Zone)
    requires ConfirmedInOrder(z) && AllGenuine(source, z.absorbed) && AllGenuine(source, z.confirmed)
    requires |z.confirmed| == |z.absorbed|
    ensures z.confirmed == z.absorbed
  {
    forall i | 0 <= i < |z.absorbed| ensures z.confirmed[i] == z.absorbed[i] {
      FullPlaces(z.places, i);
      assert Genuine(source, z.confirmed[i]) && Genuine(source, z.absorbed[i]);
    }
  }

  /**
    Between builds, the queue has handed over exactly the absorbed blocks if and only if no
    confirmation came too late; and then its processed head is the chain over their deposits.
   */
  lemma DepositsProcessedOnceIff(h: ChainHash, anchor: NumHash, source: L1Chain, steps: seq<ZoneStep>)
    requires HonestOffers(source, steps)
    ensures var z := RunZone(h, anchor, steps);
            !z.engine.Built? ==>
              && (z.confirmed == z.absorbed <==> z.lost == 0)
              && (z.lost == 0 ==> z.queue.processedHead == ChainOver(h, ZERO_HASH, AllDeposits(z.absorbed)))
  {
    hide RunZone, QueueOk, ChainOver, AllDeposits, OneChain, ConfirmedInOrder, AllGenuine, QueueGenuine, HonestOffers;
    var z := RunZone(h, anchor, steps);
    RunZoneOk(h, anchor, steps);
    RunGenuine(h, anchor, source, steps);
    if z.lost == 0 && !z.engine.Built? {
      ConfirmedAreAbsorbed(source, z);
    }
  }

  // ---- lost confirmations ----------------------------------------------------------------

  /**
    An offer between the build and its confirmation makes the confirmation come too late
    exactly when the offered block displaces the front of the queue.
   */
  lemma ConfirmationLostIff(h: ChainHash, anchor: NumHash, z: Zone, b: L1Block)
    requires ZoneOk(h, anchor, z) && z.engine.Built? && FrontIs(z.queue, NumHashOf(z.engine.made))
    ensures var after := StepZone(h, StepZone(h, z, SubscriberOffers(b)), ConfirmBuilt);
            && (after.lost == z.lost + 1 <==> Displaces(z.queue, b))
            && (!Displaces(z.queue, b) ==> after.lost == z.lost && |after.confirmed| == |z.confirmed| + 1)
  {
    hide QueueOk, OneChain, ConfirmedInOrder, ChainOver, TryEnqueue, Displaces;
    FrontKeptIff(h, z.queue, b);
  }

  function OfferEach(h: ChainHash, z: Zone, bs: seq<L1Block>): Zone
    decreases |bs|
  {
    if bs == [] then z else OfferEach(h, StepZone(h, z, SubscriberOffers(bs[0])), bs[1..])
  }

  /** However many blocks are offered while the engine works: if none displaces the front, the confirmation counts. */
  lemma {:induction false} ConfirmationSurvives(h: ChainHash, anchor: NumHash, z: Zone, bs: seq<L1Block>)
    requires ZoneOk(h, anchor, z) && z.engine.Built? && FrontIs(z.queue, NumHashOf(z.engine.made))
    requires NoneDisplaces(h, z.queue, bs)
    ensures var after := StepZone(h, OfferEach(h, z, bs), ConfirmBuilt);
            after.lost == z.lost && |after.confirmed| == |z.confirmed| + 1
    decreases |bs|
  {
    if bs != [] {
      hide QueueOk, OneChain, ConfirmedInOrder, ChainOver, TryEnqueue, Displaces;
      FrontKeptIff(h, z.queue, bs[0]);
      OfferKeepsZone(h, anchor, z, bs[0]);
      hide ZoneOk;
      ConfirmationSurvives(h, anchor, StepZone(h, z, SubscriberOffers(bs[0])), bs[1..]);
    }
  }

  /** A sibling of block 1 arrives after block 1 was built: its confirmation is lost. */
  lemma ConfirmationCanBeLost(h: ChainHash)
    ensures exists steps :: RunZone(h, NumHash(0, 100), steps).lost > 0
  {
    var anchor := NumHash(0, 100);
    var b, sibling := L1Block(Header(1, 101, 100), []), L1Block(Header(1, 201, 100), []);
    var s1 := [SubscriberOffers(b)];
    var s2 := s1 + [PeekFront];
    var s3 := s2 + [BuildSucceeds];
    var s4 := s3 + [SubscriberOffers(sibling)];
    var s5 := s4 + [ConfirmBuilt];
    assert s1[..0] == [] && s2[..1] == s1 && s3[..2] == s2 && s4[..3] == s3 && s5[..4] == s4;
    assert RunZone(h, anchor, s1) == Genesis(anchor).(queue := Append(h, EMPTY, b));
    assert RunZone(h, anchor, s2) == Genesis(anchor).(queue := Append(h, EMPTY, b), engine := Building(b));
    var z := RunZone(h, anchor, s3);
    assert z.engine == Built(b) && z.queue == Append(h, EMPTY, b) && z.lost == 0;
    RunZoneOk(h, anchor, s3);
    hide ZoneOk, StepZone;
    ConfirmationLostIff(h, anchor, z, sibling);
    assert RunZone(h, anchor, s5).lost == 1;
  }
}
