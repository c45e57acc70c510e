/** The public batch statistics, against the money the order book really moved. */
module Aggregates {
  import opened Prelude
  import opened FixedPoint
  import opened OrderBook
  import opened BookSums
  import opened Safety
  import opened EventIndex
  import opened Guarantees

  const U256_MAX: nat := 0xFFFF_FFFF_FFFF_FFFF_FFFF_FFFF_FFFF_FFFF_FFFF_FFFF_FFFF_FFFF_FFFF_FFFF_FFFF_FFFF

  /** A darkpool log; one that is not yet in a block has no block number. */
  datatype LogEntry = LogEntry(block: Option<nat>, event: Event)

  datatype BatchAggregates = BatchAggregates(orderCount: nat, fillCount: nat, pairs: set<BookKey>,
                                             volume: map<Address, nat>)

  predicate InRange(l: LogEntry, from: nat, to: nat) {
    l.block.Some? && from <= l.block.value <= to
  }

  // ---- what the statistics mean ----------------------------------------------------------

  /** Pairs of the orders submitted up to a block. */
  function IndexUpTo(logs: seq<LogEntry>, to: nat): map<nat, BookKey> {
    if logs == [] then map[]
    else
      var idx, l := IndexUpTo(logs[..|logs| - 1], to), logs[|logs| - 1];
      if !l.event.OrderSubmitted? || !InRange(l, 0, to) then idx
      else idx[l.event.orderId := BookKey(l.event.base, l.event.quote)]
  }

  function SubmissionsIn(logs: seq<LogEntry>, from: nat, to: nat): nat {
    if logs == [] then 0
    else
      var l := logs[|logs| - 1];
      SubmissionsIn(logs[..|logs| - 1], from, to) + (if InRange(l, from, to) && l.event.OrderSubmitted? then 1 else 0)
  }

  function FillsIn(logs: seq<LogEntry>, from: nat, to: nat): nat {
    if logs == [] then 0
    else
      var l := logs[|logs| - 1];
      FillsIn(logs[..|logs| - 1], from, to) + (if InRange(l, from, to) && l.event.OrderFilled? then 1 else 0)
  }

  function VolumeIn(logs: seq<LogEntry>, idx: map<nat, BookKey>, from: nat, to: nat, token: Address): nat {
    if logs == [] then 0
    else
      var l := logs[|logs| - 1];
      VolumeIn(logs[..|logs| - 1], idx, from, to, token)
        + (if InRange(l, from, to) then FillVolume(idx, l.event, token) else 0)
  }

  /** Pairs with a submission or a fill in range. */
  function PairsIn(logs: seq<LogEntry>, idx: map<nat, BookKey>, from: nat, to: nat): set<BookKey> {
    if logs == [] then {}
    else
      var l := logs[|logs| - 1];
      PairsIn(logs[..|logs| - 1], idx, from, to)
      + (if !InRange(l, from, to) then {}
         else if l.event.OrderSubmitted? then {BookKey(l.event.base, l.event.quote)}
         else if l.event.OrderFilled? && l.event.makerOrderId in idx then {idx[l.event.makerOrderId]}
         else {})
  }

  // ---- the reducer -----------------------------------------------------------------------

  function VolumeOf(volume: map<Address, nat>, token: Address): nat {
    if token in volume then volume[token] else 0
  }

  function SaturatingAdd(a: nat, b: nat, max: nat): nat {
    Min(max, a + b)
  }

  /** The 256-bit product of a fill cannot saturate. */
  lemma ProductFits(amount: u128, price: u128)
    ensures Min(U256_MAX, amount * price) / PRICE_SCALE == QuoteFloor(amount, price)
  {
    assert amount * price <= U128_MAX * U128_MAX by {
      assert amount * price <= amount * U128_MAX by {
        assert amount * (U128_MAX - price) >= 0;
      }
      assert amount * U128_MAX <= U128_MAX * U128_MAX;
    }
    assert U128_MAX * U128_MAX <= U256_MAX;
  }

  method BuildIndex(logs: seq<LogEntry>, to: nat) returns (idx: map<nat, BookKey>)
    ensures idx == IndexUpTo(logs, to)
  {
    idx := map[];
    for i := 0 to |logs|
      invariant idx == IndexUpTo(logs[..i], to)
    {
      assert logs[..i + 1][..i] == logs[..i];
      var l := logs[i];
      if !l.event.OrderSubmitted? {
        continue;
      }
      if l.block.None? || l.block.value > to {
        continue;
      }
      idx := idx[l.event.orderId := BookKey(l.event.base, l.event.quote)];
    }
    assert logs[..|logs|] == logs;
  }

  method AddVolume(volume: map<Address, nat>, token: Address, amount: nat) returns (r: map<Address, nat>)
    requires amount <= U256_MAX
    ensures forall t :: VolumeOf(r, t) == if t == token then SaturatingAdd(VolumeOf(volume, t), amount, U256_MAX)
            else VolumeOf(volume, t)
    ensures r.Keys == volume.Keys + {token}
  {
    if token in volume {
      r := volume[token := SaturatingAdd(volume[token], amount, U256_MAX)];
    } else {
      r := volume[token := amount];
    }
  }

  /** Counts and volumes are those of the fills and submissions in range, clamped to their widths. */
  method AggregateBatchEvents(logs: seq<LogEntry>, from: nat, to: nat) returns (a: BatchAggregates)
    ensures to < from ==> a == BatchAggregates(0, 0, {}, map[])
    ensures from <= to ==>
              && a.orderCount == Min(U64_MAX, SubmissionsIn(logs, from, to))
              && a.fillCount == Min(U64_MAX, FillsIn(logs, from, to))
              && a.pairs == PairsIn(logs, IndexUpTo(logs, to), from, to)
              && forall t :: VolumeOf(a.volume, t) == Min(U256_MAX, VolumeIn(logs, IndexUpTo(logs, to), from, to, t))
  {
    if to < from {
      return BatchAggregates(0, 0, {}, map[]);
    }
    var idx := BuildIndex(logs, to);
    var orderCount, fillCount := 0, 0;
    var pairs: set<BookKey> := {};
    var volume: map<Address, nat> := map[];
    for i := 0 to |logs|
      invariant orderCount == Min(U64_MAX, SubmissionsIn(logs[..i], from, to))
      invariant fillCount == Min(U64_MAX, FillsIn(logs[..i], from, to))
      invariant pairs == PairsIn(logs[..i], idx, from, to)
      invariant forall t :: VolumeOf(volume, t) == Min(U256_MAX, VolumeIn(logs[..i], idx, from, to, t))
    {
      hide QuoteFloor, IndexUpTo;
      assert logs[..i + 1][..i] == logs[..i];
      var l := logs[i];
      if l.block.None? || l.block.value < from || l.block.value > to {
        continue;
      }
      if l.event.OrderSubmitted? {
        orderCount := SaturatingAdd(orderCount, 1, U64_MAX);
        pairs := pairs + {BookKey(l.event.base, l.event.quote)};
      } else if l.event.OrderFilled? {
        fillCount := SaturatingAdd(fillCount, 1, U64_MAX);
        if l.event.makerOrderId in idx {
          var k := idx[l.event.makerOrderId];
          pairs := pairs + {k};
          var quote := Min(U256_MAX, l.event.amountFilled * l.event.price) / PRICE_SCALE;
          ProductFits(l.event.amountFilled, l.event.price);
          volume := AddVolume(volume, k.base, l.event.amountFilled);
          volume := AddVolume(volume, k.quote, quote);
        }
      }
    }
    assert logs[..|logs|] == logs;
    return BatchAggregates(orderCount, fillCount, pairs, volume);
  }

  /** A log in range that belongs to a pair: its submission, or a fill of an order submitted to it. */
  predicate ForPair(l: LogEntry, idx: map<nat, BookKey>, from: nat, to: nat, k: BookKey) {
    && l.block.Some? && from <= l.block.value <= to
    && (|| (l.event.OrderSubmitted? && l.event.base == k.base && l.event.quote == k.quote)
        || (l.event.OrderFilled? && l.event.makerOrderId in idx && idx[l.event.makerOrderId] == k))
  }

  /** The pairs reported are exactly those with such a log. */
  lemma {:induction false} PairsInIff(logs: seq<LogEntry>, idx: map<nat, BookKey>, from: nat, to: nat, k: BookKey)
    ensures k in PairsIn(logs, idx, from, to) <==> exists i :: 0 <= i < |logs| && ForPair(logs[i], idx, from, to, k)
  {
    if logs != [] {
      var n := |logs| - 1;
      PairsInIff(logs[..n], idx, from, to, k);
      if i :| 0 <= i < |logs[..n]| && ForPair(logs[..n][i], idx, from, to, k) {
        assert ForPair(logs[i], idx, from, to, k);
      }
      if i :| 0 <= i < |logs| && ForPair(logs[i], idx, from, to, k) {
        assert i == n || ForPair(logs[..n][i], idx, from, to, k);
      }
      if ForPair(logs[n], idx, from, to, k) {
        assert k in PairsIn(logs, idx, from, to);
      }
    }
  }

  /** The logs of the blocks up to `to`. */
  function MinedBy(logs: seq<LogEntry>, to: nat): seq<LogEntry> {
    if logs == [] then []
    else
      var l := logs[|logs| - 1];
      MinedBy(logs[..|logs| - 1], to) + (if l.block.Some? && l.block.value <= to then [l] else [])
  }

  /** Logs without a block, or of later blocks, change no figure and no pair of an order. */
  lemma {:induction false} OnlyMinedCount(logs: seq<LogEntry>, idx: map<nat, BookKey>, from: nat, to: nat, t: Address)
    ensures var mined := MinedBy(logs, to);
            && IndexUpTo(logs, to) == IndexUpTo(mined, to)
            && SubmissionsIn(logs, from, to) == SubmissionsIn(mined, from, to)
            && FillsIn(logs, from, to) == FillsIn(mined, from, to)
            && VolumeIn(logs, idx, from, to, t) == VolumeIn(mined, idx, from, to, t)
            && PairsIn(logs, idx, from, to) == PairsIn(mined, idx, from, to)
  {
    if logs != [] {
      hide FillVolume;
      var init, l := logs[..|logs| - 1], logs[|logs| - 1];
      OnlyMinedCount(init, idx, from, to, t);
      var kept := MinedBy(init, to);
      if l.block.Some? && l.block.value <= to {
        assert MinedBy(logs, to) == kept + [l];
        assert (kept + [l])[..|kept + [l]| - 1] == kept;
      } else {
        assert MinedBy(logs, to) == kept;
      }
    }
  }

  // ---- agreement with a run --------------------------------------------------------------

  /** The darkpool logs of a run are its events, in order, each with a block. */
  ghost predicate LogsOf(logs: seq<LogEntry>, log: seq<Event>) {
    |logs| == |log| && forall i :: 0 <= i < |logs| ==> logs[i].event == log[i]
  }

  ghost predicate BatchIs(logs: seq<LogEntry>, first: nat, end: nat, from: nat, to: nat)
    requires first <= end <= |logs|
  {
    && (forall i :: 0 <= i < first ==> logs[i].block.Some? && logs[i].block.value < from)
    && (forall i :: first <= i < end ==> logs[i].block.Some? && from <= logs[i].block.value <= to)
    && (forall i :: end <= i < |logs| ==> logs[i].block.Some? && to < logs[i].block.value)
  }

  lemma {:induction false} IndexOfPrefix(logs: seq<LogEntry>, log: seq<Event>, end: nat, to: nat)
    requires LogsOf(logs, log) && end <= |logs|
    requires forall i :: 0 <= i < end ==> InRange(logs[i], 0, to)
    requires forall i :: end <= i < |logs| ==> !InRange(logs[i], 0, to)
    ensures IndexUpTo(logs, to) == PairIndex(log[..end])
  {
    if logs == [] {
      assert log[..end] == [];
    } else {
      var n := |logs| - 1;
      IndexOfPrefix(logs[..n], log[..n], Min(end, n), to);
      if end == |logs| {
        assert log[..end][..n] == log[..n] == log[..n][..n];
      } else {
        assert log[..n][..end] == log[..end];
      }
    }
  }

  lemma BatchOfPrefix(logs: seq<LogEntry>, first: nat, end: nat, from: nat, to: nat)
    requires first <= end <= |logs| && BatchIs(logs, first, end, from, to) && logs != []
    ensures var n := |logs| - 1;
            && BatchIs(logs[..n], Min(first, n), Min(end, n), from, to)
            && (InRange(logs[n], from, to) <==> first <= n < end)
  {
  }

  /** A slice of a log, with its last event split off when the slice ends there. */
  lemma SliceOfPrefix(log: seq<Event>, first: nat, end: nat)
    requires first <= end <= |log| && log != []
    ensures var n := |log| - 1;
            && log[..n][Min(first, n)..Min(end, n)] == log[Min(first, n)..Min(end, n)]
            && log[first..end] == log[Min(first, n)..Min(end, n)] + (if first <= n < end then [log[n]] else [])
  {
  }

  lemma {:induction false} VolumeOfBatch(logs: seq<LogEntry>, log: seq<Event>, first: nat, end: nat, from: nat, to: nat,
                                         idx: map<nat, BookKey>, t: Address)
    requires LogsOf(logs, log) && first <= end <= |logs| && BatchIs(logs, first, end, from, to)
    ensures VolumeIn(logs, idx, from, to, t) == LogSum(VolumeWeight(idx, t), log[first..end])
  {
    if logs == [] {
      assert log[first..end] == [];
    } else {
      var n := |logs| - 1;
      var first', end' := Min(first, n), Min(end, n);
      BatchOfPrefix(logs, first, end, from, to);
      hide BatchIs, InRange;
      VolumeOfBatch(logs[..n], log[..n], first', end', from, to, idx, t);
      SliceOfPrefix(log, first, end);
      if first <= n < end {
        LogSumAppend(VolumeWeight(idx, t), log[first'..end'], log[n]);
      }
    }
  }

  lemma {:induction false} SubmissionsOfBatch(logs: seq<LogEntry>, log: seq<Event>, first: nat, end: nat, from: nat,
                                              to: nat)
    requires LogsOf(logs, log) && first <= end <= |logs| && BatchIs(logs, first, end, from, to)
    ensures SubmissionsIn(logs, from, to) == LogSum(SubmissionWeight(), log[first..end])
  {
    if logs == [] {
      assert log[first..end] == [];
    } else {
      var n := |logs| - 1;
      var first', end' := Min(first, n), Min(end, n);
      BatchOfPrefix(logs, first, end, from, to);
      hide BatchIs, InRange;
      SubmissionsOfBatch(logs[..n], log[..n], first', end', from, to);
      SliceOfPrefix(log, first, end);
      if first <= n < end {
        LogSumAppend(SubmissionWeight(), log[first'..end'], log[n]);
      }
    }
  }

  lemma {:induction false} FillsOfBatch(logs: seq<LogEntry>, log: seq<Event>, first: nat, end: nat, from: nat, to: nat)
    requires LogsOf(logs, log) && first <= end <= |logs| && BatchIs(logs, first, end, from, to)
    ensures FillsIn(logs, from, to) == LogSum(FillWeight(), log[first..end])
  {
    if logs == [] {
      assert log[first..end] == [];
    } else {
      var n := |logs| - 1;
      var first', end' := Min(first, n), Min(end, n);
      BatchOfPrefix(logs, first, end, from, to);
      hide BatchIs, InRange;
      FillsOfBatch(logs[..n], log[..n], first', end', from, to);
      SliceOfPrefix(log, first, end);
      if first <= n < end {
        LogSumAppend(FillWeight(), log[first'..end'], log[n]);
      }
    }
  }

  lemma FillCountAgrees(a: seq<Step>, b: seq<Step>, c: seq<Step>, logs: seq<LogEntry>, from: nat, to: nat)
    requires from <= to && LogsOf(logs, Run(a + b + c).log)
    requires |Run(a).log| <= |Run(a + b).log| <= |logs| && BatchIs(logs, |Run(a).log|, |Run(a + b).log|, from, to)
    ensures FillsIn(logs, from, to) == RunFills(a + b) - RunFills(a)
  {
    hide Run, Grows, LogSum, FillsIn, RunFills, BatchIs;
    var before, after, final := Run(a), Run(a + b), Run(a + b + c);
    RunLogsFills(a);
    RunLogsFills(a + b);
    RunGrows(a, b);
    RunGrows(a + b, c);
    LogIsPrefix(before, after);
    LogIsPrefix(after, final);
    FillsOfBatch(logs, final.log, |before.log|, |after.log|, from, to);
    var batch := after.log[|before.log|..];
    assert final.log[|before.log|..|after.log|] == batch;
    assert before.log + batch == after.log;
    LogSumConcat(FillWeight(), before.log, batch);
  }

  /**
    On the logs of any run, a batch's volume of a token is exactly what its fills took from
    internal balances, its order count is the number of order ids handed out, and its fill
    count is the number of resting orders its calls took from.
   */
  lemma AggregatesAgreeWithSettlement(a: seq<Step>, b: seq<Step>, c: seq<Step>, logs: seq<LogEntry>, from: nat, to: nat,
                                      t: Address)
    requires from <= to && LogsOf(logs, Run(a + b + c).log)
    requires |Run(a).log| <= |Run(a + b).log| <= |logs| && BatchIs(logs, |Run(a).log|, |Run(a + b).log|, from, to)
    ensures VolumeIn(logs, IndexUpTo(logs, to), from, to, t)
            == SettledOf(Run(a + b).settled, t) - SettledOf(Run(a).settled, t)
    ensures SubmissionsIn(logs, from, to) == Run(a + b).nextId - Run(a).nextId
    ensures FillsIn(logs, from, to) == RunFills(a + b) - RunFills(a)
  {
    FillCountAgrees(a, b, c, logs, from, to);
    var before, after, final := Run(a), Run(a + b), Run(a + b + c);
    RunTracked(a);
    RunTracked(a + b);
    RunGrows(a, b);
    RunGrows(a + b, c);
    LogIsPrefix(after, final);
    hide Run, Tracked, Grows, PairIndex, LogSum, IndexUpTo, VolumeIn, SubmissionsIn, FillsIn, RunFills;
    IndexOfPrefix(logs, final.log, |after.log|, to);
    assert final.log[..|after.log|] == after.log;
    VolumeOfBatch(logs, final.log, |before.log|, |after.log|, from, to, PairIndex(after.log), t);
    SubmissionsOfBatch(logs, final.log, |before.log|, |after.log|, from, to);
    assert final.log[|before.log|..|after.log|] == after.log[|before.log|..];
    VolumeBetween(before, after, t);
    SubmissionsBetween(before, after);
  }

  lemma LogIsPrefix(m: Market, m': Market)
    requires Grows(m, m')
    ensures m.log <= m'.log
  {
  }

  /** On any logs, the counts over adjacent ranges add up to those over their union. */
  lemma {:induction false} CountsAdd(logs: seq<LogEntry>, from: nat, mid: nat, to: nat)
    requires from <= mid < to
    ensures SubmissionsIn(logs, from, mid) + SubmissionsIn(logs, mid + 1, to) == SubmissionsIn(logs, from, to)
    ensures FillsIn(logs, from, mid) + FillsIn(logs, mid + 1, to) == FillsIn(logs, from, to)
  {
    if logs != [] {
      CountsAdd(logs[..|logs| - 1], from, mid, to);
    }
  }

  /** The volumes of adjacent batches of a run add up to those of the batch that joins them, each with its own index. */
  lemma AdjacentBatchesAdd(a: seq<Step>, b: seq<Step>, c: seq<Step>, d: seq<Step>, logs: seq<LogEntry>, from: nat,
                           mid: nat, to: nat, t: Address)
    requires from <= mid < to && LogsOf(logs, Run(a + b + c + d).log)
    requires |Run(a).log| <= |Run(a + b).log| <= |Run(a + b + c).log| <= |logs|
    requires BatchIs(logs, |Run(a).log|, |Run(a + b).log|, from, mid)
             && BatchIs(logs, |Run(a + b).log|, |Run(a + b + c).log|, mid + 1, to)
    ensures VolumeIn(logs, IndexUpTo(logs, mid), from, mid, t) + VolumeIn(logs, IndexUpTo(logs, to), mid + 1, to, t)
         == VolumeIn(logs, IndexUpTo(logs, to), from, to, t)
  {
    hide Run, IndexUpTo, VolumeIn, SubmissionsIn;
    assert a + b + (c + d) == a + b + c + d;
    assert a + (b + c) == a + b + c;
    assert a + (b + c) + d == a + b + c + d;
    assert BatchIs(logs, |Run(a).log|, |Run(a + b + c).log|, from, to);
    AggregatesAgreeWithSettlement(a, b, c + d, logs, from, mid, t);
    AggregatesAgreeWithSettlement(a + b, c, d, logs, mid + 1, to, t);
    AggregatesAgreeWithSettlement(a, b + c, d, logs, from, to, t);
  }
}
