/**
 * The "my tickets" page of the web client: the status filter, the counts on
 * the filter buttons, the status badge, the invested total and the ticket
 * number label. Statuses arrive as the text the API sends.
 */
module MyTickets {
  import opened Common
  import Decimal
  import Payments

  /** A ticket as the page receives it; `value` is in cents. */
  datatype ClientTicket = ClientTicket(number: int, status: string, value: int)

  /** The filter buttons (`filterStatus`). */
  datatype StatusFilter = ALL | PAID | RESERVED | EXPIRED

  function FilterName(f: StatusFilter): string
    requires f != ALL
  {
    match f
    case PAID => "PAID"
    case RESERVED => "RESERVED"
    case EXPIRED => "EXPIRED"
  }

  function HasStatus(status: string): ClientTicket -> bool {
    (t: ClientTicket) => t.status == status
  }

  /**
   * `filteredTickets`: every loaded ticket for ALL, otherwise the tickets
   * whose status text is the filter's, in their order; nothing while the
   * list has not loaded (`tickets` is `None`).
   */
  function FilteredTickets(tickets: Option<seq<ClientTicket>>, f: StatusFilter): (r: seq<ClientTicket>)
    ensures tickets.None? ==> r == []
    ensures tickets.Some? && f == ALL ==> r == tickets.value
    ensures tickets.Some? && f != ALL ==>
      forall t :: t in r <==> t in tickets.value && t.status == FilterName(f)
  {
    if tickets.None? then []
    else if f == ALL then tickets.value
    else Filter(HasStatus(FilterName(f)), tickets.value)
  }

  /** A filtered list keeps the loaded order. */
  lemma FilteredKeepsOrder(tickets: Option<seq<ClientTicket>>, f: StatusFilter)
    requires tickets.Some?
    ensures IsSubsequence(FilteredTickets(tickets, f), tickets.value)
  {
    if f == ALL {
      SubsequenceOfItself(tickets.value);
    } else {
      FilterIsSubsequence(HasStatus(FilterName(f)), tickets.value);
    }
  }

  lemma {:induction false} SubsequenceOfItself<T>(xs: seq<T>)
    ensures IsSubsequence(xs, xs)
  {
    if xs != [] {
      SubsequenceOfItself(xs[1..]);
    }
  }

  datatype StatusCounts = StatusCounts(all: nat, paid: nat, reserved: nat, expired: nat)

  /** `getStatusCounts`: all zero before the list loads. */
  function Counts(tickets: Option<seq<ClientTicket>>): StatusCounts {
    if tickets.None? then StatusCounts(0, 0, 0, 0)
    else
      var ts := tickets.value;
      StatusCounts(|ts|,
        |Filter(HasStatus("PAID"), ts)|,
        |Filter(HasStatus("RESERVED"), ts)|,
        |Filter(HasStatus("EXPIRED"), ts)|)
  }

  /**
   * Each button's count is the length of the list its filter shows, and the
   * three status counts together never exceed the count of ALL.
   */
  lemma CountsMatchFilters(tickets: Option<seq<ClientTicket>>)
    ensures var c := Counts(tickets);
      && c.all == |FilteredTickets(tickets, ALL)|
      && c.paid == |FilteredTickets(tickets, PAID)|
      && c.reserved == |FilteredTickets(tickets, RESERVED)|
      && c.expired == |FilteredTickets(tickets, EXPIRED)|
      && c.paid + c.reserved + c.expired <= c.all
  {
    if tickets.Some? {
      ThreeStatusesBound(tickets.value);
    }
  }

  lemma {:induction false} ThreeStatusesBound(ts: seq<ClientTicket>)
    ensures |Filter(HasStatus("PAID"), ts)| + |Filter(HasStatus("RESERVED"), ts)| + |Filter(HasStatus("EXPIRED"), ts)| <= |ts|
  {
    if ts != [] {
      ThreeStatusesBound(ts[1..]);
    }
  }

  datatype Badge = Badge(text: string, className: string)

  /**
   * `getStatusBadge`: the configured badge for PAID, RESERVED and EXPIRED (and
   * for the key CANCELLED); any other text gets the CANCELLED badge.
   */
  function StatusBadge(status: string): (r: Badge)
    ensures status !in {"PAID", "RESERVED", "EXPIRED"} ==> r.text == "Cancelado"
    ensures status == "PAID" ==> r.text == "Pago"
    ensures status == "RESERVED" ==> r.text == "Reservado"
    ensures status == "EXPIRED" ==> r.text == "Expirado"
  {
    if status == "PAID" then Badge("Pago", "bg-success-100 text-success-800")
    else if status == "RESERVED" then Badge("Reservado", "bg-warning-100 text-warning-800")
    else if status == "EXPIRED" then Badge("Expirado", "bg-danger-100 text-danger-800")
    else Badge("Cancelado", "bg-gray-100 text-gray-800")
  }

  /** The API's CANCELED (one L) misses the CANCELLED key and is shown by the fallback, which reads the same. */
  lemma CanceledUsesFallback()
    ensures StatusBadge("CANCELED") == StatusBadge("CANCELLED") == StatusBadge("anything else")
  {
  }

  /** The sum of `value` over a list of tickets. */
  function SumValues(ts: seq<ClientTicket>): int {
    if ts == [] then 0 else ts[0].value + SumValues(ts[1..])
  }

  /** "Total Investido": the value of the PAID tickets among those shown. */
  function TotalInvested(shown: seq<ClientTicket>): int {
    SumValues(Filter(HasStatus("PAID"), shown))
  }

  /**
   * The invested total is the same whether ALL or PAID is selected, and is
   * zero under RESERVED and EXPIRED.
   */
  lemma InvestedDependsOnPaidOnly(tickets: Option<seq<ClientTicket>>)
    ensures TotalInvested(FilteredTickets(tickets, PAID)) == TotalInvested(FilteredTickets(tickets, ALL))
    ensures TotalInvested(FilteredTickets(tickets, RESERVED)) == 0
    ensures TotalInvested(FilteredTickets(tickets, EXPIRED)) == 0
  {
    if tickets.Some? {
      var ts := tickets.value;
      FilterTwice(HasStatus("PAID"), ts);
      NoPaidAmong(ts, "RESERVED");
      NoPaidAmong(ts, "EXPIRED");
      assert FilteredTickets(tickets, RESERVED) == Filter(HasStatus("RESERVED"), ts);
      assert FilteredTickets(tickets, EXPIRED) == Filter(HasStatus("EXPIRED"), ts);
    }
  }

  /** Among the tickets of another status there is no PAID one. */
  lemma NoPaidAmong(ts: seq<ClientTicket>, status: string)
    requires status != "PAID"
    ensures Filter(HasStatus("PAID"), Filter(HasStatus(status), ts)) == []
  {
    var other := Filter(HasStatus(status), ts);
    assert forall k :: 0 <= k < |other| ==> other[k].status == status;
    FilterNone(HasStatus("PAID"), other);
  }

  lemma {:induction false} FilterTwice<T(!new)>(p: T -> bool, xs: seq<T>)
    ensures Filter(p, Filter(p, xs)) == Filter(p, xs)
  {
    FilterAll(p, Filter(p, xs));
  }

  /** With non-negative values the invested total is at most the value of everything shown. */
  lemma {:induction false} InvestedAtMostShown(shown: seq<ClientTicket>)
    requires forall i :: 0 <= i < |shown| ==> shown[i].value >= 0
    ensures 0 <= TotalInvested(shown) <= SumValues(shown)
  {
    if shown != [] {
      var rest := Filter(HasStatus("PAID"), shown[1..]);
      InvestedAtMostShown(shown[1..]);
      if shown[0].status == "PAID" {
        assert Filter(HasStatus("PAID"), shown) == [shown[0]] + rest;
        assert ([shown[0]] + rest)[1..] == rest;
      } else {
        assert Filter(HasStatus("PAID"), shown) == rest;
        assert shown[0].value >= 0;
      }
    }
  }

  /** "Tickets Pagos": the number of PAID tickets among those shown. */
  function PaidShown(shown: seq<ClientTicket>): nat {
    |Filter(HasStatus("PAID"), shown)|
  }

  /** The paid figure agrees with the PAID button's count under ALL and PAID, and is zero otherwise. */
  lemma PaidShownMatchesCount(tickets: Option<seq<ClientTicket>>)
    ensures PaidShown(FilteredTickets(tickets, ALL)) == Counts(tickets).paid
    ensures PaidShown(FilteredTickets(tickets, PAID)) == Counts(tickets).paid
    ensures PaidShown(FilteredTickets(tickets, RESERVED)) == 0
    ensures PaidShown(FilteredTickets(tickets, EXPIRED)) == 0
  {
    PaidShownUnder(tickets, ALL);
    PaidShownUnder(tickets, PAID);
    PaidShownUnder(tickets, RESERVED);
    PaidShownUnder(tickets, EXPIRED);
  }

  lemma PaidShownUnder(tickets: Option<seq<ClientTicket>>, f: StatusFilter)
    ensures PaidShown(FilteredTickets(tickets, f)) == if f == ALL || f == PAID then Counts(tickets).paid else 0
  {
    if tickets.Some? {
      var ts := tickets.value;
      match f
      case ALL =>
      case PAID =>
        FilterTwice(HasStatus("PAID"), ts);
      case RESERVED =>
        NoPaidAmong(ts, "RESERVED");
      case EXPIRED =>
        NoPaidAmong(ts, "EXPIRED");
    }
  }

  /**
   * "Chance de Ganhar": `(shown / 1000 * 100).toFixed(2)` followed by a percent
   * sign, or "0%" when nothing is shown; in hundredths of a percent the
   * figure is ten times the count.
   */
  function ChanceText(shown: nat): string {
    if shown > 0 then Payments.ToFixed2(shown * 10) + "%" else "0%"
  }

  /**
   * The chance shown reads back as the count over a fixed 1000 numbers,
   * whatever the size of the raffle.
   */
  lemma ChanceOverThousand(shown: nat)
    requires shown > 0
    ensures var t := ChanceText(shown);
      var p := t[..|t| - 1];
      && t[|t| - 1] == '%' && |p| >= 4 && p[|p| - 3] == '.'
      && Decimal.AllDigits(p[..|p| - 3]) && Decimal.AllDigits(p[|p| - 2..])
      && (Decimal.Value(p[..|p| - 3]) * 100 + Decimal.Value(p[|p| - 2..])) * 1000 == shown * 10000
  {
    Payments.Fixed2ReadsBack(shown * 10);
    var t := ChanceText(shown);
    assert t[..|t| - 1] == Payments.ToFixed2(shown * 10);
  }

  /** `ticket.number.toString().padStart(4, '0')`. */
  function NumberLabel(number: int): string {
    Decimal.PadStart(Decimal.IntToString(number), 4, '0')
  }

  /** The label of a ticket number is at least four digits, exactly four below 10000, and reads back as the number. */
  lemma NumberLabelReadsBack(number: nat)
    ensures var l := NumberLabel(number);
      && |l| >= 4 && Decimal.AllDigits(l) && Decimal.Value(l) == number
      && (number < 10000 ==> |l| == 4)
  {
    Decimal.PaddedNatValue(number, 4);
    if number < 10000 {
      assert Pow10(4) == 10000;
      ShortNumberLength(number, 4);
    }
  }

  function Pow10(k: nat): (r: nat)
    ensures r >= 1
  {
    if k == 0 then 1 else 10 * Pow10(k - 1)
  }

  /** A number below 10^k has at most k digits (k >= 1). */
  lemma {:induction false} ShortNumberLength(n: nat, k: nat)
    requires k >= 1 && n < Pow10(k)
    ensures |Decimal.NatToString(n)| <= k
  {
    if n >= 10 {
      ShortNumberLength(n / 10, k - 1);
    }
  }
}
