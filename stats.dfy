/**
 * The per-raffle figures the API attaches to a raffle: tickets sold, progress
 * percentage and numbers still available.
 */
module Stats {
  import opened Common
  import opened Store

  /** `Math.round(n / d)` for d > 0: the nearest integer, halves rounded up. */
  function NearestInteger(n: int, d: int): (r: int)
    requires d > 0
    ensures 2 * d * r - d <= 2 * n < 2 * d * r + d
  {
    (2 * n + d) / (2 * d)
  }

  /** `raffle.tickets.length` for the PAID tickets included with a raffle. */
  function SoldTickets(s: Store, raffleId: nat): nat {
    PaidCount(s.tickets, raffleId)
  }

  /**
   * `Math.round((sold / total) * 100)`. A zero total divides by zero and
   * serialises as `null`; stored raffles always have at least one number.
   */
  function ProgressPercentage(sold: nat, total: int): (r: Option<int>)
    ensures r.None? <==> total == 0
    ensures total > 0 ==> 2 * total * r.value - total <= 200 * sold < 2 * total * r.value + total
  {
    if total == 0 then None
    else if total > 0 then Some(NearestInteger(100 * sold, total))
    else Some(NearestInteger(-100 * sold, -total))
  }

  lemma MulMonotone(t: int, x: int, y: int)
    requires t >= 0 && x <= y
    ensures t * x <= t * y
  {
    assert t * y - t * x == t * (y - x);
  }

  /** Progress is never negative, and is 0 when nothing is sold. */
  lemma ProgressNonNegative(sold: nat, total: int)
    requires total >= 1
    ensures ProgressPercentage(sold, total).value >= 0
    ensures sold == 0 ==> ProgressPercentage(sold, total).value == 0
  {
    var p := ProgressPercentage(sold, total).value;
    if p < 0 {
      MulMonotone(2 * total, p, -1);
    }
    if sold == 0 && p > 0 {
      MulMonotone(2 * total, 1, p);
    }
  }

  /** While no more numbers are sold than exist, progress is at most 100; it is 100 when all are sold. */
  lemma ProgressAtMostHundred(sold: nat, total: int)
    requires total >= 1 && sold <= total
    ensures ProgressPercentage(sold, total).value <= 100
    ensures sold == total ==> ProgressPercentage(sold, total).value == 100
  {
    var p := ProgressPercentage(sold, total).value;
    MulMonotone(200, sold, total);
    if p > 100 {
      MulMonotone(2 * total, 101, p);
    }
    if sold == total && p < 100 {
      MulMonotone(2 * total, p, 99);
    }
  }

  /** `totalNumeros - soldTickets`. */
  function AvailableNumbers(total: int, sold: nat): (r: int)
    ensures r + sold == total
  {
    total - sold
  }

  /** The numbers 1..total that appear nowhere in `paid`. */
  function FreeNumbers(total: int, paid: seq<int>): set<int> {
    set n | 1 <= n <= total && n !in paid
  }

  lemma NumberRangeSize(total: nat)
    ensures |FreeNumbers(total, [])| == total
  {
    if total > 0 {
      NumberRangeSize(total - 1);
      assert FreeNumbers(total, []) == FreeNumbers(total - 1, []) + {total};
    }
  }

  /**
   * When the sold numbers are distinct and each lies in 1..total, the
   * available count is the number of numbers in 1..total that nobody has
   * bought.
   */
  lemma {:induction false} AvailableCountsFreeNumbers(total: nat, paid: seq<int>)
    requires forall i, j :: 0 <= i < j < |paid| ==> paid[i] != paid[j]
    requires forall i :: 0 <= i < |paid| ==> 1 <= paid[i] <= total
    ensures AvailableNumbers(total, |paid|) == |FreeNumbers(total, paid)|
  {
    if paid == [] {
      NumberRangeSize(total);
    } else {
      var init, x := paid[..|paid| - 1], paid[|paid| - 1];
      assert paid == init + [x];
      AvailableCountsFreeNumbers(total, init);
      assert x !in init by {
        forall i | 0 <= i < |init| ensures init[i] != x {
          assert init[i] == paid[i];
        }
      }
      assert x in FreeNumbers(total, init);
      assert FreeNumbers(total, paid) == FreeNumbers(total, init) - {x};
    }
  }
}
