/** A user's orders rebuilt from the event log, against the book and the order ledger. */
module OrderHistory {
  import opened Prelude
  import opened OrderBook
  import opened BookSums
  import opened Soundness
  import opened Safety
  import opened EventIndex
  import opened Guarantees
  import opened Chronicle

  // ---- the reducer, one order at a time --------------------------------------------------

  datatype OrderStatus = StatusOpen | StatusPartiallyFilled | StatusFilled | StatusCancelled

  datatype OrderEntry = OrderEntry(isBid: bool, kind: OrderKind, timeInForce: nat, status: OrderStatus, base: Address,
                                   quote: Address, amount: u128, remaining: u128, filled: u128, priceLimit: u128,
                                   cancelled: u128, reason: Option<CancelReason>)

  function SaturatingAdd(a: u128, b: u128): u128 {
    Min(U128_MAX, a + b)
  }

  function SaturatingSub(a: u128, b: u128): u128 {
    if a < b then 0 else a - b
  }

  function NewEntry(isBid: bool, kind: OrderKind, tif: nat, base: Address, quote: Address, amount: u128,
                    limit: u128): OrderEntry
  {
    OrderEntry(isBid, kind, tif, StatusOpen, base, quote, amount, amount, 0, limit, 0, None)
  }

  function CancelledEntry(x: OrderEntry, amount: u128, reason: CancelReason): OrderEntry {
    x.(status := StatusCancelled, remaining := 0, cancelled := amount, reason := Some(reason))
  }

  /** The part of an order that crossed is known once the rest is placed. */
  function PlacedEntry(x: OrderEntry, residual: u128): OrderEntry {
    var amount := if x.amount < residual then residual else x.amount;
    var filled := SaturatingSub(amount, residual);
    x.(amount := amount, remaining := residual, filled := filled,
       status := if filled == 0 then StatusOpen else if residual > 0 then StatusPartiallyFilled else StatusFilled)
  }

  function FilledEntry(x: OrderEntry, amount: u128): OrderEntry {
    var filled := SaturatingAdd(x.filled, amount);
    var remaining := SaturatingSub(x.amount, filled);
    x.(filled := filled, remaining := remaining,
       status := if remaining == 0 then StatusFilled else StatusPartiallyFilled)
  }

  /** What one event makes of the entry of an order. */
  function Apply(entry: Option<OrderEntry>, id: nat, e: Event): Option<OrderEntry> {
    match e
    case OrderSubmitted(o, _, base, quote, amount, limit, isBid, kind, tif) =>
      if o != id || tif > TIME_IN_FORCE_FOK || entry.Some? then entry
      else Some(NewEntry(isBid, kind, tif, base, quote, amount, limit))
    case OrderPlaced(o, _, base, quote, amount, price, isBid) =>
      if o != id then entry
      else
        var x := if entry.Some? then entry.value
                 else NewEntry(isBid, Limit, TIME_IN_FORCE_GTC, base, quote, amount, price);
        Some(PlacedEntry(x, amount))
    case OrderFilled(maker, _, _, taker, amount, _) =>
      if entry.None? then None
      else
        var x := if maker == id then FilledEntry(entry.value, amount) else entry.value;
        Some(if taker == id then FilledEntry(x, amount) else x)
    case OrderCancelled(o, _, amount, reason) =>
      if o != id || entry.None? then entry
      else Some(CancelledEntry(entry.value, amount, reason))
  }

  function EntryOf(log: seq<Event>, id: nat): Option<OrderEntry> {
    if log == [] then None else Apply(EntryOf(log[..|log| - 1], id), id, log[|log| - 1])
  }

  // ---- sorting ---------------------------------------------------------------------------

  /** A log with its place in the chain; a log not yet in a block sorts first. */
  datatype OrderLog = OrderLog(block: Option<nat>, index: Option<nat>, event: Event)

  function OrZero(n: Option<nat>): nat {
    if n.Some? then n.value else 0
  }

  predicate Before(a: OrderLog, b: OrderLog) {
    || OrZero(a.block) < OrZero(b.block)
    || (OrZero(a.block) == OrZero(b.block) && OrZero(a.index) < OrZero(b.index))
  }

  function InsertLog(l: OrderLog, s: seq<OrderLog>): seq<OrderLog> {
    if s == [] || !Before(s[0], l) then [l] + s else [s[0]] + InsertLog(l, s[1..])
  }

  /** A stable sort by block and index. */
  function SortLogs(logs: seq<OrderLog>): seq<OrderLog> {
    if logs == [] then [] else InsertLog(logs[0], SortLogs(logs[1..]))
  }

  function EventsOf(logs: seq<OrderLog>): (es: seq<Event>)
    ensures |es| == |logs| && forall i :: 0 <= i < |es| ==> es[i] == logs[i].event
  {
    seq(|logs|, i requires 0 <= i < |logs| => logs[i].event)
  }

  ghost predicate Ordered(s: seq<OrderLog>) {
    forall i, j :: 0 <= i < j < |s| ==> !Before(s[j], s[i])
  }

  ghost predicate StrictlyOrdered(s: seq<OrderLog>) {
    forall i, j :: 0 <= i < j < |s| ==> Before(s[i], s[j])
  }

  lemma {:induction false} InsertLogSorts(l: OrderLog, s: seq<OrderLog>)
    requires Ordered(s)
    ensures Ordered(InsertLog(l, s)) && multiset(InsertLog(l, s)) == multiset(s) + multiset{l}
  {
    if s == [] || !Before(s[0], l) {
      var r := [l] + s;
      forall j | 0 < j < |r| ensures !Before(r[j], r[0]) {
        assert j == 1 || !Before(s[j - 1], s[0]);
      }
    } else {
      assert s == [s[0]] + s[1..];
      InsertLogSorts(l, s[1..]);
      var r := InsertLog(l, s[1..]);
      forall j | 0 <= j < |r| ensures !Before(r[j], s[0]) {
        assert r[j] in multiset(r);
        if r[j] != l {
          assert r[j] in multiset(s[1..]);
          assert r[j] in s[1..];
          var i :| 0 <= i < |s[1..]| && s[1..][i] == r[j];
          assert !Before(s[i + 1], s[0]);
        }
      }
    }
  }

  lemma {:induction false} SortLogsSorts(logs: seq<OrderLog>)
    ensures Ordered(SortLogs(logs)) && multiset(SortLogs(logs)) == multiset(logs)
  {
    if logs != [] {
      SortLogsSorts(logs[1..]);
      InsertLogSorts(logs[0], SortLogs(logs[1..]));
      assert logs == [logs[0]] + logs[1..];
    }
  }

  lemma PlaceOf(s: seq<OrderLog>, l: OrderLog) returns (i: nat)
    requires l in multiset(s)
    ensures i < |s| && s[i] == l
  {
    assert l in s;
    i :| 0 <= i < |s| && s[i] == l;
  }

  lemma SameFirst(a: seq<OrderLog>, b: seq<OrderLog>)
    requires Ordered(a) && StrictlyOrdered(b) && multiset(a) == multiset(b) && a != [] && b != []
    ensures a[0] == b[0]
  {
    var i := PlaceOf(b, a[0]);
    var j := PlaceOf(a, b[0]);
    assert i == 0 || Before(b[0], b[i]);
    assert j == 0 || !Before(a[j], a[0]);
  }

  lemma SameRest(a: seq<OrderLog>, b: seq<OrderLog>)
    requires multiset(a) == multiset(b) && a != [] && b != [] && a[0] == b[0]
    ensures multiset(a[1..]) == multiset(b[1..])
  {
    assert a == [a[0]] + a[1..] && b == [b[0]] + b[1..];
    assert multiset(a[1..]) == multiset(a) - multiset{a[0]};
    assert multiset(b[1..]) == multiset(b) - multiset{b[0]};
  }

  /** Only one ordering of distinct places is in order. */
  lemma {:induction false} OneOrder(a: seq<OrderLog>, b: seq<OrderLog>)
    requires Ordered(a) && StrictlyOrdered(b) && multiset(a) == multiset(b)
    ensures a == b
    decreases |a|
  {
    assert |multiset(a)| == |a| && |multiset(b)| == |b|;
    if a != [] {
      SameFirst(a, b);
      SameRest(a, b);
      hide Before;
      OneOrder(a[1..], b[1..]);
      assert a == [a[0]] + a[1..] && b == [b[0]] + b[1..];
    }
  }

  /** The places of the logs ascend: by block, and within a block by index. */
  ghost predicate PlacesAscend(run: seq<OrderLog>) {
    forall i, j :: 0 <= i < j < |run| ==>
      var b1 := if run[i].block.Some? then run[i].block.value else 0;
      var b2 := if run[j].block.Some? then run[j].block.value else 0;
      var n1 := if run[i].index.Some? then run[i].index.value else 0;
      var n2 := if run[j].index.Some? then run[j].index.value else 0;
      b1 < b2 || (b1 == b2 && n1 < n2)
  }

  /** In whatever order the logs of a run arrive, sorting restores the run's own. */
  lemma SortRestores(logs: seq<OrderLog>, run: seq<OrderLog>)
    requires multiset(logs) == multiset(run) && PlacesAscend(run)
    ensures SortLogs(logs) == run
  {
    assert StrictlyOrdered(run);
    SortLogsSorts(logs);
    OneOrder(SortLogs(logs), run);
  }

  // ---- the loop --------------------------------------------------------------------------

  function Lookup(byId: map<nat, OrderEntry>, id: nat): Option<OrderEntry> {
    if id in byId then Some(byId[id]) else None
  }

  /** Fill one of the two orders of a fill event, if it is known. */
  method FillOne(byId: map<nat, OrderEntry>, id: nat, amount: u128) returns (r: map<nat, OrderEntry>)
    ensures forall x ::
              Lookup(r, x) == if x == id && x in byId then Some(FilledEntry(byId[x], amount)) else Lookup(byId, x)
  {
    if id !in byId {
      return byId;
    }
    return byId[id := FilledEntry(byId[id], amount)];
  }

  /**
    Every order named in the logs, with the entry its own events give it. From the logs of a run
    of the order book, in whatever order, the entries tell the truth about its market.
   */
  method ReconstructOrders(logs: seq<OrderLog>, ghost run: seq<OrderLog>, ghost steps: seq<Step>)
    returns (byId: map<nat, OrderEntry>)
    ensures forall id: nat :: Lookup(byId, id) == EntryOf(EventsOf(SortLogs(logs)), id)
    ensures LogsOfRun(logs, run, steps) ==> forall id: nat :: TrueEntry(Run(steps), id, Lookup(byId, id))
  {
    var sorted := EventsOf(SortLogs(logs));
    byId := map[];
    for i := 0 to |sorted|
      invariant forall id: nat :: Lookup(byId, id) == EntryOf(sorted[..i], id)
    {
      assert sorted[..i + 1][..i] == sorted[..i];
      assert forall id: nat :: EntryOf(sorted[..i + 1], id) == Apply(EntryOf(sorted[..i], id), id, sorted[i]);
      hide EntryOf, FilledEntry, PlacedEntry, NewEntry, CancelledEntry;
      match sorted[i]
      case OrderSubmitted(o, _, base, quote, amount, limit, isBid, kind, tif) =>
        if tif > TIME_IN_FORCE_FOK {
          continue;
        }
        if o !in byId {
          byId := byId[o := NewEntry(isBid, kind, tif, base, quote, amount, limit)];
        }
      case OrderPlaced(o, _, base, quote, amount, price, isBid) =>
        if o !in byId {
          byId := byId[o := NewEntry(isBid, Limit, TIME_IN_FORCE_GTC, base, quote, amount, price)];
        }
        byId := byId[o := PlacedEntry(byId[o], amount)];
      case OrderFilled(maker, _, _, taker, amount, _) =>
        byId := FillOne(byId, maker, amount);
        byId := FillOne(byId, taker, amount);
      case OrderCancelled(o, _, amount, reason) =>
        if o in byId {
          byId := byId[o := CancelledEntry(byId[o], amount, reason)];
        }
    }
    assert sorted[..|sorted|] == sorted;
    hide LogsOfRun, TrueEntry, EntryOf, SortLogs;
    if LogsOfRun(logs, run, steps) {
      forall id: nat ensures TrueEntry(Run(steps), id, Lookup(byId, id)) {
        ReconstructedAreExact(logs, run, steps, id);
      }
    }
  }

  // ---- what the entries mean -------------------------------------------------------------

  /** The status that the ledger of an order implies. */
  function StatusFor(remaining: nat, filled: nat, cancelled: nat): OrderStatus {
    if cancelled > 0 then StatusCancelled
    else if remaining == 0 then StatusFilled
    else if filled == 0 then StatusOpen
    else StatusPartiallyFilled
  }

  /** An entry is the order's ledger: submitted, filled on either side, cancelled, and still open. */
  ghost predicate Exact(x: OrderEntry, log: seq<Event>, id: nat) {
    && x.amount == LogSum(Submitted(id), log)
    && x.filled == LogSum(FilledAsTaker(id), log) + LogSum(FilledAsMaker(id), log)
    && x.cancelled == LogSum(Cancelled(id), log)
    && x.remaining == Ledger(log, id)
    && x.status == StatusFor(x.remaining, x.filled, x.cancelled)
    && (x.cancelled > 0 ==> x.remaining == 0)
  }

  ghost predicate Unheard(log: seq<Event>, id: nat) {
    && LogSum(Submitted(id), log) == 0 && LogSum(FilledAsTaker(id), log) == 0
    && LogSum(FilledAsMaker(id), log) == 0 && LogSum(Cancelled(id), log) == 0
  }

  ghost predicate Recorded(log: seq<Event>, id: nat) {
    match EntryOf(log, id)
    case None => !Known(log, id) && Unheard(log, id)
    case Some(x) => Known(log, id) && Exact(x, log, id)
  }

  lemma SumsAppend(log: seq<Event>, e: Event, id: nat)
    ensures LogSum(Submitted(id), log + [e]) == LogSum(Submitted(id), log) + Submitted(id)(e)
    ensures LogSum(FilledAsTaker(id), log + [e]) == LogSum(FilledAsTaker(id), log) + FilledAsTaker(id)(e)
    ensures LogSum(FilledAsMaker(id), log + [e]) == LogSum(FilledAsMaker(id), log) + FilledAsMaker(id)(e)
    ensures LogSum(Cancelled(id), log + [e]) == LogSum(Cancelled(id), log) + Cancelled(id)(e)
    ensures Ledger(log + [e], id) == Ledger(log, id) + LedgerWeight(id)(e)
    ensures Ledger(log, id) == LogSum(Submitted(id), log) - LogSum(FilledAsTaker(id), log)
                               - LogSum(FilledAsMaker(id), log) - LogSum(Cancelled(id), log)
  {
    hide LogSum;
    LogSumAppend(Submitted(id), log, e);
    LogSumAppend(FilledAsTaker(id), log, e);
    LogSumAppend(FilledAsMaker(id), log, e);
    LogSumAppend(Cancelled(id), log, e);
    LedgerAppend(log, e, id);
    LedgerSplits(id, log);
  }

  lemma RecordedNext(log: seq<Event>, e: Event, id: nat)
    requires Recorded(log, id) && GoodNext(log, e)
    ensures Recorded(log + [e], id)
  {
    assert (log + [e])[..|log|] == log;
    assert EntryOf(log + [e], id) == Apply(EntryOf(log, id), id, e);
    SumsAppend(log, e, id);
    KnownAppend(log, e, id);
    hide EntryOf, LogSum, Ledger, Known;
  }

  /** On a consistent log every order is recorded exactly. */
  lemma {:induction false} AllRecorded(log: seq<Event>, id: nat)
    requires GoodLog(log)
    ensures Recorded(log, id)
  {
    if log != [] {
      var init, e := log[..|log| - 1], log[|log| - 1];
      AllRecorded(init, id);
      hide Recorded, GoodNext;
      RecordedNext(init, e, id);
      assert init + [e] == log;
    }
  }

  // ---- what was ordered ------------------------------------------------------------------

  /** The order's own submission, at position `i` of the log. */
  predicate SubmittedAs(x: OrderEntry, log: seq<Event>, id: nat, i: nat) {
    && i < |log| && log[i].OrderSubmitted? && log[i].orderId == id
    && x.isBid == log[i].isBid && x.kind == log[i].kind && x.timeInForce == log[i].timeInForce
    && x.base == log[i].base && x.quote == log[i].quote && x.priceLimit == log[i].priceLimit
    && x.amount == log[i].amount
  }

  /** The order's own cancellation, at position `i` of the log. */
  predicate CancelledAs(x: OrderEntry, log: seq<Event>, id: nat, i: nat) {
    && i < |log| && log[i].OrderCancelled? && log[i].orderId == id
    && x.cancelled == log[i].cancelledAmount && x.reason == Some(log[i].reason)
  }

  /**
    Side, kind, pair, limit and amount are those submitted; a reason is given exactly for a
    cancellation, and is its own.
   */
  ghost predicate Described(log: seq<Event>, id: nat) {
    var entry := EntryOf(log, id);
    entry.Some? ==>
      && (exists i: nat :: SubmittedAs(entry.value, log, id, i))
      && (entry.value.cancelled == 0 <==> entry.value.reason.None?)
      && (entry.value.cancelled > 0 ==> exists i: nat :: CancelledAs(entry.value, log, id, i))
  }

  lemma SubmittedStays(x: OrderEntry, y: OrderEntry, log: seq<Event>, e: Event, id: nat)
    requires exists i: nat :: SubmittedAs(x, log, id, i)
    requires y == x.(status := y.status, remaining := y.remaining, filled := y.filled, cancelled := y.cancelled,
                     reason := y.reason)
    ensures exists i: nat :: SubmittedAs(y, log + [e], id, i)
  {
    var i: nat :| SubmittedAs(x, log, id, i);
    assert SubmittedAs(y, log + [e], id, i);
  }

  lemma CancelledStays(x: OrderEntry, y: OrderEntry, log: seq<Event>, e: Event, id: nat)
    requires exists i: nat :: CancelledAs(x, log, id, i)
    requires y.cancelled == x.cancelled && y.reason == x.reason
    ensures exists i: nat :: CancelledAs(y, log + [e], id, i)
  {
    var i: nat :| CancelledAs(x, log, id, i);
    assert CancelledAs(y, log + [e], id, i);
  }

  /** An event changes nothing of what was ordered, and only a cancellation its reason. */
  lemma AppliedKeeps(log: seq<Event>, e: Event, id: nat, x: OrderEntry, y: OrderEntry)
    requires Recorded(log, id) && GoodNext(log, e) && EntryOf(log, id) == Some(x) && Apply(Some(x), id, e) == Some(y)
    ensures y == x.(status := y.status, remaining := y.remaining, filled := y.filled, cancelled := y.cancelled,
                    reason := y.reason)
    ensures if e.OrderCancelled? && e.orderId == id then
              y.cancelled == e.cancelledAmount > 0 && y.reason == Some(e.reason)
            else y.cancelled == x.cancelled && y.reason == x.reason
  {
    SumsAppend(log, e, id);
    hide EntryOf, LogSum, Known;
  }

  lemma DescribedNext(log: seq<Event>, e: Event, id: nat)
    requires Recorded(log, id) && Described(log, id) && GoodNext(log, e)
    ensures Described(log + [e], id)
  {
    assert (log + [e])[..|log|] == log;
    assert EntryOf(log + [e], id) == Apply(EntryOf(log, id), id, e);
    var before, after := EntryOf(log, id), EntryOf(log + [e], id);
    if before.Some? {
      var x, y := before.value, Apply(before, id, e).value;
      AppliedKeeps(log, e, id, x, y);
      hide EntryOf, Apply, GoodNext, Recorded;
      SubmittedStays(x, y, log, e, id);
      if e.OrderCancelled? && e.orderId == id {
        assert CancelledAs(y, log + [e], id, |log|);
      } else if x.cancelled > 0 {
        CancelledStays(x, y, log, e, id);
      }
    } else if after.Some? {
      hide EntryOf, LogSum;
      assert e.OrderSubmitted?;
      assert SubmittedAs(after.value, log + [e], id, |log|);
    }
  }

  lemma {:induction false} AllDescribed(log: seq<Event>, id: nat)
    requires GoodLog(log)
    ensures Described(log, id)
  {
    if log != [] {
      var init, e := log[..|log| - 1], log[|log| - 1];
      AllDescribed(init, id);
      AllRecorded(init, id);
      hide Recorded, GoodNext, Described;
      DescribedNext(init, e, id);
      assert init + [e] == log;
    }
  }

  // ---- whole runs ------------------------------------------------------------------------

  /**
    An entry tells the truth about an order of a market: what it submitted, filled, cancelled and
    still has resting on the book; a status that follows; and what was ordered.
   */
  ghost predicate Truthful(m: Market, id: nat, x: OrderEntry) {
    && x.remaining == RestingQty(m, id)
    && x.amount == LogSum(Submitted(id), m.log)
    && x.filled == LogSum(FilledAsTaker(id), m.log) + LogSum(FilledAsMaker(id), m.log)
    && x.cancelled == LogSum(Cancelled(id), m.log)
    && x.amount == x.filled + x.cancelled + x.remaining
    && (x.status == StatusCancelled <==> x.cancelled > 0)
    && (x.status == StatusFilled <==> x.cancelled == 0 && x.remaining == 0)
    && (x.status == StatusOpen <==> x.cancelled == 0 && x.remaining > 0 && x.filled == 0)
    && (x.status == StatusPartiallyFilled <==> x.cancelled == 0 && x.remaining > 0 && x.filled > 0)
    && (exists i: nat :: SubmittedAs(x, m.log, id, i))
    && (x.cancelled == 0 <==> x.reason.None?)
    && (x.cancelled > 0 ==> exists i: nat :: CancelledAs(x, m.log, id, i))
  }

  /** Exactly the orders handed out have an entry, and it tells the truth. */
  ghost predicate TrueEntry(m: Market, id: nat, entry: Option<OrderEntry>) {
    match entry
    case None => !(0 < id < m.nextId) && RestingQty(m, id) == 0
    case Some(x) => 0 < id < m.nextId && Truthful(m, id, x)
  }

  lemma EntriesAreExact(steps: seq<Step>, id: nat)
    ensures TrueEntry(Run(steps), id, EntryOf(Run(steps).log, id))
  {
    var m := Run(steps);
    RunChronicled(steps);
    AllRecorded(m.log, id);
    AllDescribed(m.log, id);
    OrderLedger(steps, id);
    RunSound(steps);
    assert Ledger(m.log, id) == RestingQty(m, id) + (if id == LANDED.id then LANDED.left else 0);
    hide Run, Sound, EntryOf, GoodLog, LogSum, RestingQty, NoTwins, SubmittedAs, CancelledAs;
  }

  /** The logs of a run, in whatever order. */
  ghost predicate LogsOfRun(logs: seq<OrderLog>, run: seq<OrderLog>, steps: seq<Step>) {
    multiset(logs) == multiset(run) && PlacesAscend(run) && EventsOf(run) == Run(steps).log
  }

  /** In whatever order the logs of a run arrive, every entry made from them tells the truth about its market. */
  lemma ReconstructedAreExact(logs: seq<OrderLog>, run: seq<OrderLog>, steps: seq<Step>, id: nat)
    requires LogsOfRun(logs, run, steps)
    ensures TrueEntry(Run(steps), id, EntryOf(EventsOf(SortLogs(logs)), id))
  {
    SortRestores(logs, run);
    EntriesAreExact(steps, id);
  }

  // ---- which events matter ---------------------------------------------------------------

  predicate Mentions(e: Event, id: nat) {
    match e
    case OrderFilled(maker, _, _, taker, _, _) => maker == id || taker == id
    case _ => e.orderId == id
  }

  function Only(log: seq<Event>, id: nat): seq<Event> {
    if log == [] then []
    else Only(log[..|log| - 1], id) + (if Mentions(log[|log| - 1], id) then [log[|log| - 1]] else [])
  }

  /** Only the events that name an order matter to its entry, so a query may leave out all others. */
  lemma {:induction false} OnlyMentionsMatter(log: seq<Event>, id: nat)
    ensures EntryOf(Only(log, id), id) == EntryOf(log, id)
  {
    if log != [] {
      var init, e := log[..|log| - 1], log[|log| - 1];
      OnlyMentionsMatter(init, id);
      if Mentions(e, id) {
        assert (Only(init, id) + [e])[..|Only(init, id)|] == Only(init, id);
      } else {
        assert Only(init, id) + [] == Only(init, id);
      }
    }
  }
}
