/** Amounts in integer cents: the roundings and splits every other module shares. */
module Money {

  datatype Option<+T> = None | Some(value: T) {
    function GetOr(default: T): T {
      if Some? then value else default
    }
  }

  function Min(a: int, b: int): int { if a <= b then a else b }

  function Max(a: int, b: int): int { if a <= b then b else a }

  /** `Math.round(num / den)`: the nearest integer, halves towards plus infinity. */
  function RoundedQuotient(num: int, den: int): (r: int)
    requires den > 0
    ensures 2 * num - den < 2 * (den * r) <= 2 * num + den
  {
    var q := (2 * num + den) / (2 * den);
    assert 2 * num + den == (2 * den) * q + (2 * num + den) % (2 * den);
    assert (2 * den) * q == 2 * (den * q);
    q
  }

  /** Only one integer lies within half a unit (upper half closed) of the quotient. */
  lemma RoundedQuotientUnique(num: int, den: int, r: int)
    requires den > 0
    requires 2 * num - den < 2 * (den * r) <= 2 * num + den
    ensures r == RoundedQuotient(num, den)
  {
    var q := RoundedQuotient(num, den);
    if r < q {
      ScaleStep(den, r, q);
    } else if q < r {
      ScaleStep(den, q, r);
    }
  }

  lemma ScaleOrder(k: int, a: int, b: int)
    requires 0 <= k && a <= b
    ensures k * a <= k * b
  {
    assert k * b - k * a == k * (b - a);
  }

  lemma ScaleStep(k: int, a: int, b: int)
    requires 0 < k && a < b
    ensures k * a + k <= k * b
  {
    ScaleOrder(k, a + 1, b);
    assert k * (a + 1) == k * a + k;
  }

  /** Rounding cannot cross an integer that bounds the exact quotient. */
  lemma RoundedQuotientBounds(num: int, den: int, lo: int, hi: int)
    requires den > 0
    requires den * lo <= num <= den * hi
    ensures lo <= RoundedQuotient(num, den) <= hi
  {
    var r := RoundedQuotient(num, den);
    if r < lo {
      ScaleStep(den, r, lo);
    } else if hi < r {
      ScaleStep(den, hi, r);
    }
  }

  // ---------------------------------------------------------------------------------------------
  // Splitting a charge and a refund
  // ---------------------------------------------------------------------------------------------

  datatype PaymentSplit = PaymentSplit(total: int, fare: int, fee: int)

  /** `resolvePaymentSplit`: the fee is read off the price; a fee above the total is refused. */
  function ResolvePaymentSplit(total: int, fee: int): (split: Option<PaymentSplit>)
    ensures split.Some? <==> fee <= total
    ensures split.Some? ==>
      var s := split.value;
      s.total == total && s.fee == fee && 0 <= s.fare && s.fare + s.fee == s.total
  {
    if total - fee < 0 then None else Some(PaymentSplit(total, total - fee, fee))
  }

  datatype RefundSplit = RefundSplit(fare: int, fee: int)

  /** `resolveRefundSplit`: a refund divided pro rata on the original charge. */
  function ResolveRefundSplit(total: int, fare: int, refund: int): RefundSplit {
    if refund <= 0 then
      RefundSplit(0, 0)
    else if total <= 0 then
      RefundSplit(refund, 0)
    else
      var fareShare := RoundedQuotient(refund * fare, total);
      RefundSplit(fareShare, refund - fareShare)
  }

  /**
   * What the ledger relies on: for a charge made of a fare and a fee, both parts of any refund are
   * non-negative and add up to it exactly, even when the refund exceeds the charge.
   */
  lemma RefundSplitIsExact(total: int, fare: int, refund: int)
    requires 0 <= fare <= total
    ensures
      var s := ResolveRefundSplit(total, fare, refund);
      && 0 <= s.fare && 0 <= s.fee
      && s.fare + s.fee == Max(0, refund)
      && (total == 0 ==> s.fee == 0)
  {
    if refund > 0 && total > 0 {
      ScaleOrder(refund, 0, fare);
      ScaleOrder(refund, fare, total);
      assert refund * total == total * refund;
      RoundedQuotientBounds(refund * fare, total, 0, refund);
    }
  }

  /**
   * The driver funds their own share of a refund and no more: its fare part is the one whole number of
   * cents within half a cent of the fare's share of the charge.
   */
  lemma RefundSplitIsProRata(total: int, fare: int, refund: int, s: RefundSplit)
    requires 0 < total && 0 < refund
    ensures s == ResolveRefundSplit(total, fare, refund)
       <==> && s.fare + s.fee == refund
            && 2 * (refund * fare) - total < 2 * (total * s.fare) <= 2 * (refund * fare) + total
  {
    if 2 * (refund * fare) - total < 2 * (total * s.fare) <= 2 * (refund * fare) + total {
      RoundedQuotientUnique(refund * fare, total, s.fare);
    }
  }

  /** Half of a 10.20 charge, 10.00 of it fare, takes 5.00 from the driver and 0.10 from the platform. */
  lemma HalfRefundExample()
    ensures ResolveRefundSplit(1020, 1000, 510) == RefundSplit(500, 10)
  {
    RefundSplitIsProRata(1020, 1000, 510, RefundSplit(500, 10));
  }

  /** A refund within the charge takes no more than each side holds; a full one takes both whole. */
  lemma RefundSplitIsProportionate(total: int, fare: int, refund: int)
    requires 0 <= fare <= total
    requires refund <= total
    ensures
      var s := ResolveRefundSplit(total, fare, refund);
      && s.fare <= fare && s.fee <= total - fare
      && (refund == total ==> s == RefundSplit(fare, total - fare))
  {
    if refund > 0 {
      var share := RoundedQuotient(refund * fare, total);
      ScaleOrder(fare, refund, total);
      assert fare * refund == refund * fare && fare * total == total * fare;
      // The fee side: total * (refund + fare - total) <= refund * fare.
      assert refund * fare - total * (refund + fare - total) == (total - refund) * (total - fare) by {
        assert (total - refund) * (total - fare) == total * (total - fare) - refund * (total - fare);
        assert refund * (total - fare) == refund * total - refund * fare;
        assert total * (refund + fare - total) == total * refund - total * (total - fare);
        assert refund * total == total * refund;
      }
      ScaleOrder(total - refund, 0, total - fare);
      RoundedQuotientBounds(refund * fare, total, refund + fare - total, fare);
      if refund == total {
        assert share == fare;
      }
    }
  }

  // ---------------------------------------------------------------------------------------------
  // Percentages of a charge
  // ---------------------------------------------------------------------------------------------

  /** `round2((amount * percent) / 100)` for a non-negative amount, in cents. */
  function PercentOf(amount: int, percent: int): int {
    RoundedQuotient(amount * percent, 100)
  }

  lemma PercentOfBounds(amount: int, percent: int)
    requires 0 <= amount && 0 <= percent <= 100
    ensures 0 <= PercentOf(amount, percent) <= amount
    ensures PercentOf(amount, 100) == amount
  {
    ScaleOrder(amount, 0, percent);
    ScaleOrder(amount, percent, 100);
    RoundedQuotientBounds(amount * percent, 100, 0, amount);
    RoundedQuotientUnique(amount * 100, 100, amount);
  }

  /** It is the nearest whole number of cents, halves going up. */
  lemma PercentOfIsNearest(amount: int, percent: int, cents: int)
    ensures cents == PercentOf(amount, percent)
       <==> 2 * (amount * percent) - 100 < 200 * cents <= 2 * (amount * percent) + 100
  {
    if 2 * (amount * percent) - 100 < 200 * cents <= 2 * (amount * percent) + 100 {
      RoundedQuotientUnique(amount * percent, 100, cents);
    }
  }

  /** `clampRefundPercent`; None stands for a missing or non-finite number. */
  function ClampRefundPercent(value: Option<real>, fallback: int): (r: int)
    requires 0 <= fallback <= 100
    ensures 0 <= r <= 100
    ensures value.None? ==> r == fallback
    ensures value.Some? && value.value <= 0.0 ==> r == 0
    ensures value.Some? && value.value >= 100.0 ==> r == 100
    ensures value.Some? && 0.0 <= value.value <= 100.0 ==> r as real - 0.5 <= value.value < r as real + 0.5
  {
    match value
    case None => fallback
    case Some(x) => Min(100, Max(0, (x + 0.5).Floor))
  }
}
