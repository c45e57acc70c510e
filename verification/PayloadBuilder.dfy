/** Building a zone block: pool transactions under the gas limit, then the withdrawal batch. */
module PayloadBuilder {
  import opened Prelude

  type Bytes = seq<bv8>

  datatype Withdrawal = Withdrawal(sender: nat, txHash: nat, amount: nat, revealTo: Bytes)

  /** What executing a pool transaction yields; a fatal error, like a cancelled build, leaves no block. */
  datatype TxOutcome = Executed(gasUsed: u64, requests: seq<Withdrawal>) | InvalidTx | TransientRpcError | FatalError

  datatype RawTx = RawTx(gasLimit: u64, outcome: TxOutcome)

  /** Execution uses no more than a transaction's own limit. */
  type PoolTx = tx: RawTx | tx.outcome.Executed? ==> tx.outcome.gasUsed <= tx.gasLimit witness RawTx(0, InvalidTx)

  // ---- gas -------------------------------------------------------------------------------

  /** The 64-bit sum the loop compares with the block limit. */
  function WrappingAdd(a: u64, b: u64): u64 {
    if a + b <= U64_MAX then a + b else a + b - U64_MAX - 1
  }

  predicate Admits(used: u64, gasLimit: u64, blockLimit: u64) {
    WrappingAdd(used, gasLimit) <= blockLimit
  }

  /** The loop lets a transaction through that does not fit the rest of the block exactly when the sum wraps. */
  lemma AdmittedUnfitIff(used: u64, gasLimit: u64, blockLimit: u64)
    requires used <= blockLimit
    ensures Admits(used, gasLimit, blockLimit) && gasLimit > blockLimit - used <==> used + gasLimit > U64_MAX
  {
  }

  // ---- the pool loop ---------------------------------------------------------------------

  /** The executor refuses, fatally for the build, a transaction larger than what is left of the block. */
  function Answer(used: u64, tx: PoolTx, blockLimit: u64): TxOutcome {
    if used + tx.gasLimit > blockLimit then FatalError else tx.outcome
  }

  predicate Runs(used: u64, tx: PoolTx, blockLimit: u64) {
    Admits(used, tx.gasLimit, blockLimit) && Answer(used, tx, blockLimit).Executed?
  }

  /** The gas of the transactions that ran. It never exceeds the block limit. */
  function PoolGas(txs: seq<PoolTx>, blockLimit: u64): (gas: nat)
    ensures gas <= blockLimit
  {
    if txs == [] then 0
    else
      var used, tx := PoolGas(txs[..|txs| - 1], blockLimit), txs[|txs| - 1];
      used + (if Runs(used, tx, blockLimit) then tx.outcome.gasUsed else 0)
  }

  /** Requests of the transactions that ran, in order. */
  function PoolRequests(txs: seq<PoolTx>, blockLimit: u64): seq<Withdrawal> {
    if txs == [] then []
    else
      var init, tx := txs[..|txs| - 1], txs[|txs| - 1];
      PoolRequests(init, blockLimit)
      + (if Runs(PoolGas(init, blockLimit), tx, blockLimit) then tx.outcome.requests else [])
  }

  predicate Kills(used: u64, tx: PoolTx, blockLimit: u64) {
    Admits(used, tx.gasLimit, blockLimit) && Answer(used, tx, blockLimit).FatalError?
  }

  /** An admitted transaction fails fatally. */
  predicate PoolFails(txs: seq<PoolTx>, blockLimit: u64) {
    if txs == [] then false
    else
      var init, tx := txs[..|txs| - 1], txs[|txs| - 1];
      PoolFails(init, blockLimit) || Kills(PoolGas(init, blockLimit), tx, blockLimit)
  }

  /** A transaction runs exactly when its limit fits what is left of the block and it executes. */
  lemma RunsIff(used: u64, tx: PoolTx, blockLimit: u64)
    requires used <= blockLimit
    ensures Runs(used, tx, blockLimit) <==> used + tx.gasLimit <= blockLimit && tx.outcome.Executed?
  {
  }

  /** It kills the build exactly when it fails fatally though it fits, or when the sum wraps. */
  lemma KillsIff(used: u64, tx: PoolTx, blockLimit: u64)
    requires used <= blockLimit
    ensures Kills(used, tx, blockLimit)
            <==> used + tx.gasLimit > U64_MAX || (used + tx.gasLimit <= blockLimit && tx.outcome.FatalError?)
  {
  }

  lemma {:induction false} RequestsGrow(txs: seq<PoolTx>, n: nat, blockLimit: u64)
    requires n <= |txs|
    ensures PoolRequests(txs[..n], blockLimit) <= PoolRequests(txs, blockLimit)
  {
    if n < |txs| {
      assert txs[..|txs| - 1][..n] == txs[..n];
      RequestsGrow(txs[..|txs| - 1], n, blockLimit);
    } else {
      assert txs[..n] == txs;
    }
  }

  /** The requests of each transaction that fits and executes are in the block, in pool order, and no others. */
  lemma {:induction false} RequestsAreThose(txs: seq<PoolTx>, blockLimit: u64, i: nat)
    requires i < |txs|
    ensures var used, at := PoolGas(txs[..i], blockLimit), |PoolRequests(txs[..i], blockLimit)|;
            var till, all := |PoolRequests(txs[..i + 1], blockLimit)|, PoolRequests(txs, blockLimit);
            && at <= till <= |all|
            && all[at..till] == if used + txs[i].gasLimit <= blockLimit && txs[i].outcome.Executed?
                                then txs[i].outcome.requests else []
  {
    RunsIff(PoolGas(txs[..i], blockLimit), txs[i], blockLimit);
    assert txs[..i] + [txs[i]] == txs[..i + 1];
    PoolAppend(txs[..i], txs[i], blockLimit);
    hide PoolRequests, PoolGas, Runs;
    RequestsGrow(txs, i + 1, blockLimit);
  }

  /** The counter starts at zero and grows by the gas of each transaction that fits and executes. */
  lemma GasIsThat(txs: seq<PoolTx>, blockLimit: u64, i: nat)
    requires i < |txs|
    ensures var used := PoolGas(txs[..i], blockLimit);
            && PoolGas([], blockLimit) == 0
            && PoolGas(txs[..i + 1], blockLimit)
               == used + if used + txs[i].gasLimit <= blockLimit && txs[i].outcome.Executed?
                         then txs[i].outcome.gasUsed else 0
  {
    RunsIff(PoolGas(txs[..i], blockLimit), txs[i], blockLimit);
    assert txs[..i] + [txs[i]] == txs[..i + 1];
    PoolAppend(txs[..i], txs[i], blockLimit);
    hide Runs;
  }

  /** Transaction `i` fails fatally though it fits, or wraps the sum. */
  ghost predicate FatalAt(txs: seq<PoolTx>, blockLimit: u64, i: nat)
    requires i < |txs|
  {
    var used, tx := PoolGas(txs[..i], blockLimit), txs[i];
    used + tx.gasLimit > U64_MAX || (used + tx.gasLimit <= blockLimit && tx.outcome.FatalError?)
  }

  lemma {:induction false} PoolFailsIff(txs: seq<PoolTx>, blockLimit: u64)
    ensures PoolFails(txs, blockLimit) <==> exists i :: 0 <= i < |txs| && FatalAt(txs, blockLimit, i)
  {
    if txs != [] {
      hide PoolGas, Kills;
      var n := |txs| - 1;
      var init := txs[..n];
      PoolFailsIff(init, blockLimit);
      KillsIff(PoolGas(init, blockLimit), txs[n], blockLimit);
      forall i | 0 <= i < n ensures FatalAt(init, blockLimit, i) <==> FatalAt(txs, blockLimit, i) {
        assert init[..i] == txs[..i];
      }
      assert FatalAt(txs, blockLimit, n) <==> Kills(PoolGas(init, blockLimit), txs[n], blockLimit);
    }
  }

  lemma {:induction false} FailsEarly(txs: seq<PoolTx>, n: nat, blockLimit: u64)
    requires n <= |txs| && PoolFails(txs[..n], blockLimit)
    ensures PoolFails(txs, blockLimit)
  {
    if n < |txs| {
      assert txs[..|txs| - 1][..n] == txs[..n];
      FailsEarly(txs[..|txs| - 1], n, blockLimit);
    } else {
      assert txs[..n] == txs;
    }
  }

  /** One more transaction. */
  lemma PoolAppend(txs: seq<PoolTx>, tx: PoolTx, blockLimit: u64)
    ensures var used := PoolGas(txs, blockLimit);
            && PoolGas(txs + [tx], blockLimit) == used + (if Runs(used, tx, blockLimit) then tx.outcome.gasUsed else 0)
            && PoolRequests(txs + [tx], blockLimit)
               == PoolRequests(txs, blockLimit) + (if Runs(used, tx, blockLimit) then tx.outcome.requests else [])
            && (PoolFails(txs + [tx], blockLimit) <==> PoolFails(txs, blockLimit) || Kills(used, tx, blockLimit))
  {
    hide Runs, Kills;
    assert (txs + [tx])[..|txs|] == txs;
  }

  /**
    Run the pool's best transactions: the requests end up in the outbox behind what is there,
    and the counter is the gas of what ran, within the block limit for every pool.
   */
  method RunPool(txs: seq<PoolTx>, blockLimit: u64, outbox: seq<Withdrawal>)
    returns (ok: bool, used: u64, after: seq<Withdrawal>)
    ensures ok <==> !PoolFails(txs, blockLimit)
    ensures ok ==> after == outbox + PoolRequests(txs, blockLimit)
    ensures ok ==> used == PoolGas(txs, blockLimit) <= blockLimit
  {
    used, after := 0, outbox;
    for i := 0 to |txs|
      invariant after == outbox + PoolRequests(txs[..i], blockLimit)
      invariant used == PoolGas(txs[..i], blockLimit)
      invariant !PoolFails(txs[..i], blockLimit)
    {
      hide PoolGas, PoolRequests, PoolFails;
      var tx := txs[i];
      assert txs[..i] + [tx] == txs[..i + 1];
      PoolAppend(txs[..i], tx, blockLimit);
      if WrappingAdd(used, tx.gasLimit) > blockLimit {
        continue;
      }
      match Answer(used, tx, blockLimit)
      case Executed(gasUsed, requests) =>
        used := WrappingAdd(used, gasUsed);
        after := after + requests;
      case InvalidTx =>
        continue;
      case TransientRpcError =>
        continue;
      case FatalError =>
        FailsEarly(txs, i + 1, blockLimit);
        return false, used, after;
    }
    assert txs[..|txs|] == txs;
    return true, used, after;
  }

  // ---- when gas fails a build ------------------------------------------------------------

  function Limits(txs: seq<PoolTx>): (ls: seq<u64>)
    ensures |ls| == |txs| && forall i :: 0 <= i < |ls| ==> ls[i] == txs[i].gasLimit
  {
    seq(|txs|, i requires 0 <= i < |txs| => txs[i].gasLimit)
  }

  /** The most gas that transactions with these limits can use. */
  function Reach(limits: seq<u64>, blockLimit: u64): (r: nat)
    ensures r <= blockLimit
  {
    if limits == [] then 0
    else
      var r, limit := Reach(limits[..|limits| - 1], blockLimit), limits[|limits| - 1];
      if limit <= blockLimit then Min(blockLimit, r + limit) else r
  }

  /** No sum the loop compares can leave 64 bits. */
  predicate NeverWraps(limits: seq<u64>, blockLimit: u64) {
    forall i :: 0 <= i < |limits| ==> FitsAfter(limits, blockLimit, i)
  }

  predicate FitsAfter(limits: seq<u64>, blockLimit: u64, i: nat)
    requires i < |limits|
  {
    Reach(limits[..i], blockLimit) + limits[i] <= U64_MAX
  }

  lemma NeverWrapsPrefix(limits: seq<u64>, blockLimit: u64)
    requires NeverWraps(limits, blockLimit) && limits != []
    ensures NeverWraps(limits[..|limits| - 1], blockLimit) && FitsAfter(limits, blockLimit, |limits| - 1)
  {
    var init := limits[..|limits| - 1];
    forall i | 0 <= i < |init| ensures FitsAfter(init, blockLimit, i) {
      assert init[..i] == limits[..i];
      assert FitsAfter(limits, blockLimit, i);
    }
  }

  lemma {:induction false} GasWithinReach(txs: seq<PoolTx>, blockLimit: u64)
    ensures PoolGas(txs, blockLimit) <= Reach(Limits(txs), blockLimit)
  {
    if txs != [] {
      var n := |txs| - 1;
      assert Limits(txs)[..n] == Limits(txs[..n]);
      GasWithinReach(txs[..n], blockLimit);
    }
  }

  /** How much must be used before a transaction for the total after it to be `target`. */
  function UsedBefore(reach: nat, limit: u64, target: nat): (r: nat)
    ensures r <= target
  {
    if target <= reach then target else if target < limit then 0 else target - limit
  }

  function Filler(reach: nat, limit: u64, target: nat): PoolTx
    requires target <= U64_MAX
  {
    var gas := target - UsedBefore(reach, limit, target);
    if target <= reach || gas > limit then RawTx(limit, InvalidTx) else RawTx(limit, Executed(gas, []))
  }

  /** Transactions with the given limits that use exactly `target` gas together. */
  function Using(limits: seq<u64>, blockLimit: u64, target: nat): (txs: seq<PoolTx>)
    requires target <= Reach(limits, blockLimit)
    ensures Limits(txs) == limits
  {
    if limits == [] then []
    else
      var init, limit := limits[..|limits| - 1], limits[|limits| - 1];
      var reach := Reach(init, blockLimit);
      Using(init, blockLimit, UsedBefore(reach, limit, target)) + [Filler(reach, limit, target)]
  }

  /** No transaction brings a fatal error of its own. */
  ghost predicate Healthy(txs: seq<PoolTx>) {
    forall i :: 0 <= i < |txs| ==> !txs[i].outcome.FatalError?
  }

  lemma HealthyAppend(txs: seq<PoolTx>, tx: PoolTx)
    requires Healthy(txs) && !tx.outcome.FatalError?
    ensures Healthy(txs + [tx])
  {
  }

  lemma FillerFills(reach: nat, limit: u64, blockLimit: u64, target: nat)
    requires reach <= blockLimit && target <= if limit <= blockLimit then Min(blockLimit, reach + limit) else reach
    ensures var used, tx := UsedBefore(reach, limit, target), Filler(reach, limit, target);
            && used <= reach && !tx.outcome.FatalError?
            && used + (if Runs(used, tx, blockLimit) then tx.outcome.gasUsed else 0) == target
  {
  }

  /** Everything within reach is used by some healthy pool. */
  lemma {:induction false} UsingIsExact(limits: seq<u64>, blockLimit: u64, target: nat)
    requires target <= Reach(limits, blockLimit)
    ensures Healthy(Using(limits, blockLimit, target))
    ensures PoolGas(Using(limits, blockLimit, target), blockLimit) == target
  {
    if limits != [] {
      var init, limit := limits[..|limits| - 1], limits[|limits| - 1];
      var reach := Reach(init, blockLimit);
      FillerFills(reach, limit, blockLimit, target);
      hide Runs, PoolGas, PoolRequests, PoolFails, UsedBefore, Filler, Healthy, Limits, Reach;
      var used, tx := UsedBefore(reach, limit, target), Filler(reach, limit, target);
      UsingIsExact(init, blockLimit, used);
      PoolAppend(Using(init, blockLimit, used), tx, blockLimit);
      HealthyAppend(Using(init, blockLimit, used), tx);
    }
  }

  /** A healthy pool with the given limits whose build fails all the same. */
  ghost predicate FailsForGas(txs: seq<PoolTx>, limits: seq<u64>, blockLimit: u64) {
    Limits(txs) == limits && Healthy(txs) && PoolFails(txs, blockLimit)
  }

  /** Where a sum can wrap, a pool that uses what is within reach and then goes on fails its build. */
  lemma WrapFails(limits: seq<u64>, blockLimit: u64, i: nat)
    requires i < |limits| && !FitsAfter(limits, blockLimit, i)
    ensures exists txs :: FailsForGas(txs, limits, blockLimit)
  {
    var reach := Reach(limits[..i], blockLimit);
    UsingIsExact(limits[..i], blockLimit, reach);
    var first, last := Using(limits[..i], blockLimit, reach), RawTx(limits[i], InvalidTx);
    var txs := first + Idle(limits[i..]);
    assert txs[..i + 1] == first + [last];
    AdmittedUnfitIff(reach, limits[i], blockLimit);
    hide Reach, Using, PoolGas, PoolRequests, PoolFails;
    PoolAppend(first, last, blockLimit);
    FailsEarly(txs, i + 1, blockLimit);
    LimitsAre(txs, limits);
    assert FailsForGas(txs, limits, blockLimit);
  }

  function Idle(limits: seq<u64>): (txs: seq<PoolTx>)
    ensures |txs| == |limits| && forall i :: 0 <= i < |txs| ==> txs[i] == RawTx(limits[i], InvalidTx)
  {
    seq(|limits|, i requires 0 <= i < |limits| => RawTx(limits[i], InvalidTx))
  }

  lemma LimitsAre(txs: seq<PoolTx>, limits: seq<u64>)
    requires |txs| == |limits| && forall i :: 0 <= i < |txs| ==> txs[i].gasLimit == limits[i]
    ensures Limits(txs) == limits
  {
  }

  lemma {:induction false} NoWrapNoFailure(txs: seq<PoolTx>, blockLimit: u64)
    requires NeverWraps(Limits(txs), blockLimit) && Healthy(txs)
    ensures !PoolFails(txs, blockLimit)
  {
    if txs != [] {
      hide NeverWraps, PoolGas, Reach;
      var n := |txs| - 1;
      assert Limits(txs)[..n] == Limits(txs[..n]);
      NeverWrapsPrefix(Limits(txs), blockLimit);
      NoWrapNoFailure(txs[..n], blockLimit);
      GasWithinReach(txs[..n], blockLimit);
    }
  }

  /**
    Gas alone never fails a build, whatever the transactions use, exactly when no sum of the
    loop can wrap. The condition speaks of the gas limits alone.
   */
  lemma GasNeverFailsIff(limits: seq<u64>, blockLimit: u64)
    ensures (forall txs :: !FailsForGas(txs, limits, blockLimit)) <==> NeverWraps(limits, blockLimit)
  {
    if NeverWraps(limits, blockLimit) {
      forall txs ensures !FailsForGas(txs, limits, blockLimit) {
        if Limits(txs) == limits && Healthy(txs) {
          NoWrapNoFailure(txs, blockLimit);
        }
      }
    } else {
      var i :| 0 <= i < |limits| && !FitsAfter(limits, blockLimit, i);
      WrapFails(limits, blockLimit, i);
    }
  }

  /** It is enough that the pool caps gas limits and the cap leaves room for the block limit. */
  lemma CappedPoolNeverFails(txs: seq<PoolTx>, cap: u64, blockLimit: u64)
    requires Healthy(txs) && cap + blockLimit <= U64_MAX
    requires forall i :: 0 <= i < |txs| ==> txs[i].gasLimit <= cap
    ensures !PoolFails(txs, blockLimit)
  {
    hide PoolFails;
    NoWrapNoFailure(txs, blockLimit);
  }

  // ---- the withdrawal batch --------------------------------------------------------------

  /** The sender seal of a request: nothing, or a ciphertext the encryptor produces. */
  type Encryptor = (Bytes, nat, nat) -> Option<Bytes>

  function SealSender(encryptor: Option<Encryptor>, w: Withdrawal): Option<Bytes> {
    if w.revealTo == [] then Some([])
    else if encryptor.None? then None
    else encryptor.value(w.revealTo, w.sender, w.txHash)
  }

  /** The seal of a request that reveals to nobody is empty; any other is what the encryptor makes of its sender. */
  predicate SealOf(encryptor: Option<Encryptor>, w: Withdrawal, seal: Bytes) {
    && (w.revealTo == [] ==> seal == [])
    && (w.revealTo != [] ==> encryptor.Some? && encryptor.value(w.revealTo, w.sender, w.txHash) == Some(seal))
  }

  /** A request cannot be sealed when it reveals to someone and there is no encryptor, or the encryptor fails. */
  predicate Unsealable(encryptor: Option<Encryptor>, w: Withdrawal) {
    w.revealTo != [] && (encryptor.None? || encryptor.value(w.revealTo, w.sender, w.txHash).None?)
  }

  lemma SealsAre(encryptor: Option<Encryptor>, w: Withdrawal)
    ensures SealSender(encryptor, w).None? <==> Unsealable(encryptor, w)
    ensures SealSender(encryptor, w).Some? ==> SealOf(encryptor, w, SealSender(encryptor, w).value)
  {
  }

  /** One seal per request, in order; a single failure fails them all. */
  method SealAll(encryptor: Option<Encryptor>, requests: seq<Withdrawal>) returns (r: Option<seq<Bytes>>)
    ensures r.None? <==> exists i :: 0 <= i < |requests| && Unsealable(encryptor, requests[i])
    ensures r.Some? ==>
              && |r.value| == |requests|
              && forall i :: 0 <= i < |requests| ==> SealOf(encryptor, requests[i], r.value[i])
  {
    var senders := [];
    for i := 0 to |requests|
      invariant |senders| == i && forall j :: 0 <= j < i ==> SealOf(encryptor, requests[j], senders[j])
      invariant forall j :: 0 <= j < i ==> !Unsealable(encryptor, requests[j])
    {
      SealsAre(encryptor, requests[i]);
      var seal := SealSender(encryptor, requests[i]);
      if seal.None? {
        return None;
      }
      senders := senders + [seal.value];
    }
    return Some(senders);
  }

  datatype Batch = Batch(requests: seq<Withdrawal>, senders: seq<Bytes>)

  /** `requested` are the withdrawals requested in this block: deposit bounce-backs, then pool requests. */
  datatype ZoneBlock = ZoneBlock(requested: seq<Withdrawal>, pending: seq<Withdrawal>, batch: Option<Batch>,
                                 gasUsed: u64)

  /**
    What a build finds: whether the two system transactions succeed, the withdrawals that
    advancing bounces back, and the pool.
   */
  datatype BuildInput = BuildInput(number: nat, blockLimit: u64, advances: bool, bounced: seq<Withdrawal>,
                                   txs: seq<PoolTx>, finalizes: bool)

  /** Only zero is a multiple of zero. */
  predicate IsMultipleOf(n: nat, d: nat) {
    if d == 0 then n == 0 else n % d == 0
  }

  predicate Finalizes(outbox: seq<Withdrawal>, number: nat, interval: nat) {
    outbox != [] || IsMultipleOf(number, interval)
  }

  /** A block finalizes when something was pending before it, or every `interval` blocks. */
  lemma FinalizesIff(outbox: seq<Withdrawal>, number: nat, interval: nat)
    ensures Finalizes(outbox, number, interval) <==> outbox != [] || exists n: nat :: number == n * interval
  {
    if IsMultipleOf(number, interval) {
      if interval == 0 {
        assert number == 0 * interval;
      } else {
        assert number == number / interval * interval;
      }
    }
    if n: nat :| number == n * interval {
      if interval > 0 {
        NoRemainder(n, interval);
      }
    }
  }

  lemma NoRemainder(n: nat, d: nat)
    requires d > 0
    ensures n * d % d == 0
  {
    var x := n * d;
    var q, r := x / d, x % d;
    assert x == q * d + r;
    Multiple(n - q, d, r);
  }

  /** A multiple of `d` below `d` is zero. */
  lemma Multiple(k: int, d: nat, r: nat)
    requires r < d && k * d == r
    ensures r == 0
  {
  }

  /** What a built block does to the outbox. */
  ghost predicate BuiltOn(encryptor: Option<Encryptor>, interval: nat, outbox: seq<Withdrawal>, input: BuildInput,
                          b: ZoneBlock) {
    && b.requested == input.bounced + PoolRequests(input.txs, input.blockLimit)
    && b.gasUsed == PoolGas(input.txs, input.blockLimit)
    && if Finalizes(outbox, input.number, interval) then
         && b.batch.Some? && b.pending == []
         && b.batch.value.requests == outbox + b.requested
         && |b.batch.value.senders| == |b.batch.value.requests|
         && forall i :: 0 <= i < |b.batch.value.requests| ==>
              SealOf(encryptor, b.batch.value.requests[i], b.batch.value.senders[i])
       else b.batch.None? && b.pending == b.requested
  }

  /** Build one block on an outbox; nothing is committed when it fails. */
  method TryBuild(encryptor: Option<Encryptor>, interval: nat, outbox: seq<Withdrawal>, input: BuildInput)
    returns (r: Option<ZoneBlock>)
    ensures r.Some? ==> BuiltOn(encryptor, interval, outbox, input, r.value)
    ensures var all := outbox + input.bounced + PoolRequests(input.txs, input.blockLimit);
            r.None? <==>
              || !input.advances
              || PoolFails(input.txs, input.blockLimit)
              || (&& Finalizes(outbox, input.number, interval)
                  && (!input.finalizes || exists i :: 0 <= i < |all| && Unsealable(encryptor, all[i])))
    ensures r.Some? ==> r.value.gasUsed <= input.blockLimit
  {
    var hasPrior := outbox != [];
    if !input.advances {
      return None;
    }
    var pending := outbox + input.bounced;
    var ok, used, after := RunPool(input.txs, input.blockLimit, pending);
    if !ok {
      return None;
    }
    var requested := after[|outbox|..];
    assert after == outbox + (input.bounced + PoolRequests(input.txs, input.blockLimit));
    if hasPrior || IsMultipleOf(input.number, interval) {
      var senders := SealAll(encryptor, after);
      if senders.None? || !input.finalizes {
        return None;
      }
      return Some(ZoneBlock(requested, [], Some(Batch(after, senders.value)), used));
    }
    return Some(ZoneBlock(requested, after, None, used));
  }

  // ---- runs of blocks --------------------------------------------------------------------

  function OutboxBefore(blocks: seq<ZoneBlock>, i: nat): seq<Withdrawal>
    requires i <= |blocks|
  {
    if i == 0 then [] else blocks[i - 1].pending
  }

  /** A run of built blocks, each on the outbox its predecessor left. */
  ghost predicate BlocksBuilt(encryptor: Option<Encryptor>, interval: nat, inputs: seq<BuildInput>,
                              blocks: seq<ZoneBlock>) {
    && |inputs| == |blocks|
    && forall i :: 0 <= i < |blocks| ==> BuiltOn(encryptor, interval, OutboxBefore(blocks, i), inputs[i], blocks[i])
  }

  /** What is pending after a block was requested in that very block, and the next block batches it. */
  lemma PendingIsFresh(encryptor: Option<Encryptor>, interval: nat, inputs: seq<BuildInput>, blocks: seq<ZoneBlock>,
                       i: nat)
    requires BlocksBuilt(encryptor, interval, inputs, blocks) && i < |blocks|
    ensures blocks[i].pending == [] || (blocks[i].pending == blocks[i].requested && blocks[i].batch.None?)
    ensures i + 1 < |blocks| && blocks[i].pending != [] ==>
              blocks[i + 1].batch.Some? && blocks[i].pending <= blocks[i + 1].batch.value.requests
  {
    assert BuiltOn(encryptor, interval, OutboxBefore(blocks, i), inputs[i], blocks[i]);
    if i + 1 < |blocks| {
      assert BuiltOn(encryptor, interval, OutboxBefore(blocks, i + 1), inputs[i + 1], blocks[i + 1]);
    }
  }

  /** Position `p` of a block's batch holds a request together with its own seal. */
  ghost predicate BatchedAt(encryptor: Option<Encryptor>, b: ZoneBlock, p: nat, w: Withdrawal) {
    && b.batch.Some? && p < |b.batch.value.requests| == |b.batch.value.senders|
    && b.batch.value.requests[p] == w && SealOf(encryptor, w, b.batch.value.senders[p])
  }

  /**
    Promptness: a request goes out, with its own sender seal, in the batch of its block or, if
    that block batches nothing, of the next.
   */
  lemma WithdrawalsArePrompt(encryptor: Option<Encryptor>, interval: nat, inputs: seq<BuildInput>,
                             blocks: seq<ZoneBlock>, i: nat, j: nat)
    requires BlocksBuilt(encryptor, interval, inputs, blocks) && i < |blocks| && j < |blocks[i].requested|
    ensures var w := blocks[i].requested[j];
            if blocks[i].batch.Some? then BatchedAt(encryptor, blocks[i], |OutboxBefore(blocks, i)| + j, w)
            else i + 1 < |blocks| ==> BatchedAt(encryptor, blocks[i + 1], j, w)
  {
    hide PoolRequests, PoolGas, SealOf;
    assert BuiltOn(encryptor, interval, OutboxBefore(blocks, i), inputs[i], blocks[i]);
    if blocks[i].batch.None? && i + 1 < |blocks| {
      assert BuiltOn(encryptor, interval, OutboxBefore(blocks, i + 1), inputs[i + 1], blocks[i + 1]);
    }
  }

  function Requested(blocks: seq<ZoneBlock>): seq<Withdrawal> {
    if blocks == [] then [] else Requested(blocks[..|blocks| - 1]) + blocks[|blocks| - 1].requested
  }

  function Batched(blocks: seq<ZoneBlock>): seq<Withdrawal> {
    if blocks == [] then []
    else Batched(blocks[..|blocks| - 1]) + BatchedBy(blocks[|blocks| - 1])
  }

  lemma BlocksPrefix(encryptor: Option<Encryptor>, interval: nat, inputs: seq<BuildInput>, blocks: seq<ZoneBlock>)
    requires BlocksBuilt(encryptor, interval, inputs, blocks) && blocks != []
    ensures BlocksBuilt(encryptor, interval, inputs[..|blocks| - 1], blocks[..|blocks| - 1])
  {
    hide BuiltOn;
    var n := |blocks| - 1;
    forall i | 0 <= i < n ensures BuiltOn(encryptor, interval, OutboxBefore(blocks[..n], i), inputs[..n][i],
      blocks[..n][i]) {
      assert OutboxBefore(blocks[..n], i) == OutboxBefore(blocks, i);
    }
  }

  function BatchedBy(b: ZoneBlock): seq<Withdrawal> {
    if b.batch.Some? then b.batch.value.requests else []
  }

  /** A block batches or keeps pending exactly what it found and what was requested in it. */
  lemma BlockPassesOn(encryptor: Option<Encryptor>, interval: nat, outbox: seq<Withdrawal>, input: BuildInput,
                      b: ZoneBlock)
    requires BuiltOn(encryptor, interval, outbox, input, b)
    ensures outbox + b.requested == BatchedBy(b) + b.pending
  {
    hide PoolRequests, SealOf;
  }

  /** Over any run every request is batched exactly once, in order, except those still pending. */
  lemma {:induction false} EveryRequestBatchedOnce(encryptor: Option<Encryptor>, interval: nat, inputs: seq<BuildInput>,
                                                   blocks: seq<ZoneBlock>)
    requires BlocksBuilt(encryptor, interval, inputs, blocks)
    ensures Requested(blocks) == Batched(blocks) + OutboxBefore(blocks, |blocks|)
  {
    if blocks != [] {
      hide BuiltOn, BatchedBy;
      var n := |blocks| - 1;
      BlocksPrefix(encryptor, interval, inputs, blocks);
      EveryRequestBatchedOnce(encryptor, interval, inputs[..n], blocks[..n]);
      var outbox := OutboxBefore(blocks, n);
      assert OutboxBefore(blocks[..n], n) == outbox;
      BlockPassesOn(encryptor, interval, outbox, inputs[n], blocks[n]);
      assert OutboxBefore(blocks, |blocks|) == blocks[n].pending;
      hide BlocksBuilt, OutboxBefore;
      Regroup(Batched(blocks[..n]), outbox, blocks[n].requested, BatchedBy(blocks[n]), blocks[n].pending);
    }
  }

  lemma Regroup(a: seq<Withdrawal>, b: seq<Withdrawal>, c: seq<Withdrawal>, d: seq<Withdrawal>, e: seq<Withdrawal>)
    requires b + c == d + e
    ensures a + b + c == a + d + e
  {
    assert a + b + c == a + (b + c);
    assert a + d + e == a + (d + e);
  }
}
