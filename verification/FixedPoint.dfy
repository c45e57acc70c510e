/** Six-decimal fixed-point prices: execution rounds down, bid escrow rounds up. */
module FixedPoint {
  import opened Prelude

  const PRICE_SCALE: nat := 1_000_000

  /** Exact quote value of a fill, rounded down. */
  function QuoteFloor(base: nat, price: nat): nat {
    base * price / PRICE_SCALE
  }

  /** Exact quote value of a resting bid, rounded up. */
  function Escrow(base: nat, price: nat): nat {
    (base * price + (PRICE_SCALE - 1)) / PRICE_SCALE
  }

  /**
    The executed quote amount. Both operands are 128-bit, so the 256-bit product cannot
    overflow; a quote of zero or beyond 128 bits is refused.
   */
  function QuoteAmount(base: u128, price: u128): (r: Option<u128>)
    ensures r.Some? ==> 0 < r.value && r.value * PRICE_SCALE <= base * price < (r.value + 1) * PRICE_SCALE
    ensures r.None? <==> base * price < PRICE_SCALE || base * price >= (U128_MAX + 1) * PRICE_SCALE
  {
    var quote := QuoteFloor(base, price);
    if quote == 0 || quote > U128_MAX then None else Some(quote)
  }

  /** The quote reserve of a resting bid. */
  function BidEscrow(base: u128, price: u128): (r: Option<u128>)
    ensures r.Some? ==> (r.value - 1) * PRICE_SCALE < base * price <= r.value * PRICE_SCALE
    ensures r.None? <==> base == 0 || price == 0 || base * price > U128_MAX * PRICE_SCALE
  {
    if base == 0 || price == 0 then
      assert base * price == 0;
      None
    else
      var escrow := Escrow(base, price);
      if escrow > U128_MAX then None else Some(escrow)
  }

  /** Rounded-down parts never exceed the rounded-down whole. */
  lemma FloorSuperadditive(a: nat, b: nat, price: nat)
    ensures QuoteFloor(a, price) + QuoteFloor(b, price) <= QuoteFloor(a + b, price)
  {
    assert (a + b) * price == a * price + b * price;
  }

  /** A better price never costs more for the same base amount. */
  lemma FloorMonotone(a: nat, price: nat, limit: nat)
    requires price <= limit
    ensures QuoteFloor(a, price) <= QuoteFloor(a, limit)
  {
    assert a * price <= a * limit by {
      assert a * (limit - price) >= 0;
      assert a * limit == a * price + a * (limit - price);
    }
  }

  /**
    The rounding law the book lives on: paying for a part at no more than the limit releases
    at least that payment from the escrow of the whole.
   */
  lemma EscrowCoversFill(whole: nat, part: nat, price: nat, limit: nat)
    requires part <= whole && price <= limit
    ensures QuoteFloor(part, price) + Escrow(whole - part, limit) <= Escrow(whole, limit)
  {
    FloorMonotone(part, price, limit);
    assert whole * limit == part * limit + (whole - part) * limit;
  }

  lemma EscrowMonotone(part: nat, whole: nat, price: nat)
    requires part <= whole
    ensures Escrow(part, price) <= Escrow(whole, price)
  {
    EscrowCoversFill(whole, whole - part, price, price);
  }
}
