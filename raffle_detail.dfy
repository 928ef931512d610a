/**
 * The raffle detail page of the web client: picking numbers on the grid,
 * the reserve button, the purchase summary, the payment modal's countdown
 * and the grid's "sold" marking.
 */
module RaffleDetail {
  import opened Common
  import opened Store
  import Decimal
  import Payments
  import Api

  /** At most ten numbers can be picked, as many as one reservation accepts. */
  const MaxSelected: int := 10

  function OtherThan(n: int): int -> bool {
    (m: int) => m != n
  }

  /**
   * `handleNumberSelect`: only while the loaded raffle is ACTIVE (`status` is
   * `None` while it loads); a picked number is dropped, an unpicked one is
   * appended when fewer than ten are picked, otherwise nothing changes.
   */
  function Toggle(status: Option<RaffleStatus>, prev: seq<int>, n: int): (r: seq<int>)
    ensures status != Some(ACTIVE) ==> r == prev
    ensures status == Some(ACTIVE) && n in prev ==>
      n !in r && |r| < |prev| && forall m :: m != n ==> (m in r <==> m in prev)
    ensures status == Some(ACTIVE) && n !in prev && |prev| < MaxSelected ==> r == prev + [n]
    ensures status == Some(ACTIVE) && n !in prev && |prev| >= MaxSelected ==> r == prev
  {
    if status != Some(ACTIVE) then prev
    else if n in prev then
      var r := Filter(OtherThan(n), prev);
      assert |r| < |prev| by {
        var i :| 0 <= i < |prev| && prev[i] == n;
        assert prev == prev[..i] + [n] + prev[i + 1..];
        FilterConcat(OtherThan(n), prev[..i] + [n], prev[i + 1..]);
        FilterConcat(OtherThan(n), prev[..i], [n]);
        assert Filter(OtherThan(n), [n]) == [];
      }
      r
    else if |prev| < MaxSelected then prev + [n]
    else prev
  }

  /** A selection the page can hold: at most ten numbers, none twice. */
  predicate SelectionOk(selected: seq<int>) {
    |selected| <= MaxSelected && Distinct(selected)
  }

  /** Every toggle keeps the selection within ten distinct numbers. */
  lemma ToggleKeepsSelectionOk(status: Option<RaffleStatus>, prev: seq<int>, n: int)
    requires SelectionOk(prev)
    ensures SelectionOk(Toggle(status, prev, n))
  {
    if status == Some(ACTIVE) && n in prev {
      FilterKeepsDistinct(OtherThan(n), prev);
    }
  }

  /** Picking a new number while there is room and then clicking it again restores the selection. */
  lemma {:induction false} ToggleRoundTrip(prev: seq<int>, n: int)
    requires n !in prev && |prev| < MaxSelected
    ensures Toggle(Some(ACTIVE), Toggle(Some(ACTIVE), prev, n), n) == prev
  {
    FilterConcat(OtherThan(n), prev, [n]);
    FilterAll(OtherThan(n), prev);
    assert Filter(OtherThan(n), [n]) == [];
  }

  /** Numbers clicked on the grid lie in 1..total, and toggling keeps the selection there. */
  predicate OnGrid(selected: seq<int>, total: int) {
    forall i :: 0 <= i < |selected| ==> 1 <= selected[i] <= total
  }

  lemma ToggleStaysOnGrid(status: Option<RaffleStatus>, prev: seq<int>, n: int, total: int)
    requires OnGrid(prev, total) && 1 <= n <= total
    ensures OnGrid(Toggle(status, prev, n), total)
  {
    var r := Toggle(status, prev, n);
    forall i | 0 <= i < |r| ensures 1 <= r[i] <= total {
      assert r[i] in r;
      if status == Some(ACTIVE) && n in prev {
        assert r[i] in prev;
      }
    }
  }

  /** The page's selection state (`selectedNumbers`). */
  class NumberPicker {
    var selected: seq<int>

    ghost predicate Valid()
      reads this
    {
      SelectionOk(selected)
    }

    constructor ()
      ensures selected == [] && Valid()
    {
      selected := [];
    }

    /** A click on grid number `n` while the raffle has the given status. */
    method Select(status: Option<RaffleStatus>, n: int)
      requires Valid()
      modifies this
      ensures selected == Toggle(status, old(selected), n)
      ensures Valid()
    {
      if status != Some(ACTIVE) {
        return;
      }
      ToggleKeepsSelectionOk(status, selected, n);
      if n in selected {
        selected := Filter(OtherThan(n), selected);
      } else if |selected| < MaxSelected {
        selected := selected + [n];
      }
    }
  }

  datatype ReserveAction =
    | GoToLogin
    | AlertEmptySelection
    | SendReserve(request: Payments.ReserveRequest)

  /** `handleReserve`: to the login page when signed out, an alert for an empty selection, else the request. */
  function HandleReserve(isAuthenticated: bool, raffleId: nat, selected: seq<int>): (r: ReserveAction)
    ensures !isAuthenticated ==> r == GoToLogin
    ensures isAuthenticated && |selected| == 0 ==> r == AlertEmptySelection
    ensures r.SendReserve? <==> isAuthenticated && |selected| > 0
    ensures r.SendReserve? ==> r.request.raffleId == raffleId && r.request.numbers == selected
  {
    if !isAuthenticated then GoToLogin
    else if |selected| == 0 then AlertEmptySelection
    else SendReserve(Payments.ReserveRequest(raffleId, selected))
  }

  /** Whatever the page sends passes the reserve schema: one to ten numbers, each at least 1. */
  lemma SentRequestPassesSchema(isAuthenticated: bool, raffleId: nat, selected: seq<int>, total: int)
    requires SelectionOk(selected) && OnGrid(selected, total)
    requires HandleReserve(isAuthenticated, raffleId, selected).SendReserve?
    ensures Payments.ValidNumbers(HandleReserve(isAuthenticated, raffleId, selected).request.numbers)
  {
  }

  /** The purchase summary; the page computes the fees in floating point, here in exact reals. */
  datatype PurchaseSummary = PurchaseSummary(totalAmount: int, serviceFee: real, gatewayFee: real, finalAmount: real)

  function Summary(valorUnitario: int, count: nat): (r: PurchaseSummary)
    ensures r.totalAmount == valorUnitario * count
    ensures r.serviceFee * 100.0 == 5.0 * r.totalAmount as real && r.gatewayFee * 100.0 == r.totalAmount as real
    ensures r.finalAmount == r.totalAmount as real + r.serviceFee + r.gatewayFee
  {
    var total := valorUnitario * count;
    PurchaseSummary(total, total as real * 0.05, total as real * 0.01, total as real + total as real * 0.05 + total as real * 0.01)
  }

  /**
   * The summary's total is 106% of what the reservation charges: the PIX charge
   * is the plain amount, the fees being taken out of the creator's share.
   */
  lemma ModalTotalExceedsCharge(s: Store, user: Option<nat>, req: Payments.ReserveRequest, externalId: string, now: int)
    requires Payments.Reserve(s, user, req, externalId, now).1.Ok?
    ensures var charged := Payments.Reserve(s, user, req, externalId, now).1.value.amount;
      var shown := Summary(s.raffles[req.raffleId].valorUnitario, |req.numbers|);
      && shown.totalAmount == charged
      && shown.finalAmount * 100.0 == 106.0 * charged as real
      && (charged > 0 ==> shown.finalAmount > charged as real)
  {
    Payments.ReserveSucceeds(s, user, req, externalId, now);
  }

  /** The payment modal's countdown (`timeLeft`, in seconds). */
  class PaymentCountdown {
    var timeLeft: int

    constructor ()
      ensures timeLeft == ReservationTtlSeconds
    {
      timeLeft := ReservationTtlSeconds;
    }

    /** One second elapses: the countdown decreases until it reaches 0 and then stops. */
    method Tick()
      modifies this
      ensures timeLeft == if old(timeLeft) > 0 then old(timeLeft) - 1 else old(timeLeft)
    {
      if timeLeft > 0 {
        timeLeft := timeLeft - 1;
      }
    }
  }

  /** The countdown after `k` ticks from `t`. */
  function AfterTicks(t: int, k: nat): int {
    if k == 0 || t <= 0 then t else AfterTicks(t - 1, k - 1)
  }

  /** From a non-negative start the countdown after `k` ticks is `max(t - k, 0)`. */
  lemma {:induction false} AfterTicksValue(t: int, k: nat)
    requires t >= 0
    ensures AfterTicks(t, k) == if k >= t then 0 else t - k
  {
    if k > 0 && t > 0 {
      AfterTicksValue(t - 1, k - 1);
    }
  }

  /** The modal reaches 00:00 after exactly as many seconds as the reservation lasts. */
  lemma CountdownMatchesReservation(k: nat)
    ensures AfterTicks(ReservationTtlSeconds, k) == 0 <==> k >= ReservationTtlSeconds
  {
    AfterTicksValue(ReservationTtlSeconds, k);
  }

  /** `n.toString().padStart(2, '0')`. */
  function Pad2(n: nat): string {
    Decimal.PadStart(Decimal.NatToString(n), 2, '0')
  }

  /** `formatTime`: whole minutes and the remaining seconds, each padded to two digits. */
  function FormatTime(seconds: nat): string {
    Pad2(seconds / 60) + ":" + Pad2(seconds % 60)
  }

  /** A padded number is digits only, at least two of them, exactly two below 100, and reads back as the number. */
  lemma Pad2ReadsBack(n: nat)
    ensures Decimal.AllDigits(Pad2(n)) && Decimal.Value(Pad2(n)) == n
    ensures |Pad2(n)| >= 2 && (n < 100 ==> |Pad2(n)| == 2)
  {
    Decimal.TwoDigitPadReadsBack(n);
  }

  /**
   * The text reads back as the time: digits, a colon three places from the
   * end, two digits of seconds, and 60 * minutes + seconds is the input;
   * below 100 minutes it is exactly `mm:ss`.
   */
  lemma FormatTimeReadsBack(seconds: nat)
    ensures var t := FormatTime(seconds);
      && |t| >= 5 && t[|t| - 3] == ':'
      && Decimal.AllDigits(t[..|t| - 3]) && Decimal.AllDigits(t[|t| - 2..])
      && 60 * Decimal.Value(t[..|t| - 3]) + Decimal.Value(t[|t| - 2..]) == seconds
      && (seconds < 6000 ==> |t| == 5)
  {
    var m, sec := seconds / 60, seconds % 60;
    MinutesAndSeconds(seconds);
    Pad2ReadsBack(m);
    Pad2ReadsBack(sec);
    Decimal.SplitReadsBack(Pad2(m), ":", Pad2(sec));
    var t := FormatTime(seconds);
    assert t == Pad2(m) + ":" + Pad2(sec);
    assert Decimal.Value(t[..|t| - 3]) == m && Decimal.Value(t[|t| - 2..]) == sec;
    assert 60 * m + sec == seconds;
  }

  lemma MinutesAndSeconds(seconds: nat)
    ensures 60 * (seconds / 60) + seconds % 60 == seconds && seconds % 60 < 60
    ensures seconds < 6000 ==> seconds / 60 < 100
  {
  }

  /** `isSold`: the grid marks the first `soldTickets` numbers, not the numbers actually paid for. */
  function IsSold(soldTickets: int, number: int): (r: bool)
    ensures number >= 1 ==> (r <==> number <= soldTickets)
    ensures soldTickets <= 0 ==> !r
  {
    soldTickets > 0 && soldTickets >= number
  }

  /** A store with one ACTIVE raffle of ten numbers in which only number 5 has been paid for. */
  function PaidFiveStore(): Store {
    var raffle := Raffle("Rifa", Some("d"), 1000, 10, 0, Some("u"), ACTIVE, 0, None, None, 0);
    Store([User("a@b.c", "Ana", [CREATOR, BUYER])], [raffle], [Ticket(0, 5, Some(0), TicketStatus.PAID, None, 0)], [])
  }

  /**
   * With one PAID ticket bearing number 5, the grid greys out number 1, which
   * is free, and offers number 5, which the reservation then refuses.
   */
  lemma SoldMarkIsPositional()
    ensures var s := PaidFiveStore();
      var detail := Api.GetRaffle(s, 0).value;
      && IsSold(detail.soldTickets, 1) && 1 !in detail.soldNumbers
      && !IsSold(detail.soldTickets, 5) && 5 in detail.soldNumbers
      && Payments.CheckReserve(s, Some(0), Payments.ReserveRequest(0, [5])) == Err(Payments.NumbersUnavailable([5]))
  {
    var s := PaidFiveStore();
    assert PaidTickets(s.tickets, 0) == [s.tickets[0]];
    assert PaidNumbers(s.tickets, 0) == [5];
    assert [5][1..] == [];
    assert Payments.UnavailableNumbers([5], [5], 10) == [5];
  }

  /** The grid's sold mark as intended: a number is sold when a PAID ticket bears it. */
  function SoldMark(soldNumbers: seq<int>, number: int): bool {
    number in soldNumbers
  }

  /**
   * For a number on the grid of an ACTIVE raffle, the corrected mark holds
   * exactly when the reservation would refuse that number as unavailable.
   */
  lemma SoldMarkMatchesReserve(s: Store, raffleId: nat, user: nat, number: int)
    requires raffleId < |s.raffles| && s.raffles[raffleId].status.ACTIVE?
    requires 1 <= number <= s.raffles[raffleId].totalNumeros
    ensures var detail := Api.GetRaffle(s, raffleId).value;
      SoldMark(detail.soldNumbers, number) <==>
      Payments.CheckReserve(s, Some(user), Payments.ReserveRequest(raffleId, [number])) ==
        Err(Payments.NumbersUnavailable([number]))
  {
    var sold := PaidNumbers(s.tickets, raffleId);
    var total := s.raffles[raffleId].totalNumeros;
    if number in sold {
      assert [number][1..] == [];
      assert Payments.UnavailableNumbers([number], sold, total) == [number];
    }
  }
}
