/**
 * The payment routes: fee calculation, number reservation (`POST
 * /payments/reserve`) and settlement by the gateway's webhook (`POST
 * /payments/webhook`). Each route is a pure function from the store before the
 * request to the store after it together with the response, and a handler
 * method on the ledger that performs the same updates in place, one
 * `$transaction` block per call.
 */
module Payments {
  import opened Common
  import opened Store
  import Decimal

  // ---------------------------------------------------------------------------
  // Fees
  // ---------------------------------------------------------------------------

  datatype Fees = Fees(serviceFee: int, gatewayFee: int, netValue: int)

  /** `Math.round(x * 100) / 100` for x = n / 10000 reais: n hundredths of a cent rounded to the cent. */
  function RoundToCent(n: int): (r: int)
    ensures -50 <= n - 100 * r < 50
  {
    (n + 50) / 100
  }

  /**
   * `calculateFees(amount)` on an amount in cents: a 5% service fee and a 1%
   * gateway fee, each rounded to the cent (halves up), and the net value
   * rounded from the amount minus both UNROUNDED fees.
   */
  function CalculateFees(amount: int): (r: Fees)
    ensures -50 <= 5 * amount - 100 * r.serviceFee < 50
    ensures -50 <= amount - 100 * r.gatewayFee < 50
    ensures -50 <= 94 * amount - 100 * r.netValue < 50
  {
    Fees(RoundToCent(5 * amount), RoundToCent(amount), RoundToCent(94 * amount))
  }

  /** The worked example: 30.00 gives 1.50 service fee, 0.30 gateway fee and 28.20 net. */
  lemma FeesOfThirtyReais()
    ensures CalculateFees(3000) == Fees(150, 30, 2820)
  {
  }

  /** The three rounded parts add up to the amount up to one cent either way. */
  lemma FeesSplitAmount(amount: int)
    ensures var f := CalculateFees(amount);
      amount - 1 <= f.serviceFee + f.gatewayFee + f.netValue <= amount + 1
  {
  }

  /** Fees are never negative and never exceed the amount. */
  lemma FeesBounded(amount: int)
    requires amount >= 0
    ensures var f := CalculateFees(amount);
      0 <= f.gatewayFee <= f.serviceFee <= amount && 0 <= f.netValue <= amount
  {
  }

  /**
   * Because the net value is rounded independently of the fees, the parts can
   * overshoot the amount: 1.50 splits into 0.08 + 0.02 + 1.41 = 1.51.
   */
  lemma FeesCanOvershoot()
    ensures var f := CalculateFees(150);
      f == Fees(8, 2, 141) && f.serviceFee + f.gatewayFee + f.netValue == 151
  {
  }

  // ---------------------------------------------------------------------------
  // PIX payment data
  // ---------------------------------------------------------------------------

  /** `amount.toFixed(2)` for an amount given in cents. */
  function ToFixed2(cents: int): string {
    if cents < 0 then "-" + Fixed2(-cents) else Fixed2(cents)
  }

  function Fixed2(cents: nat): string {
    Decimal.NatToString(cents / 100) + "." + Decimal.PadStart(Decimal.NatToString(cents % 100), 2, '0')
  }

  /** The text of `toFixed(2)` reads back as the same number of cents: digits, a point, two digits. */
  lemma Fixed2ReadsBack(cents: nat)
    ensures var s := ToFixed2(cents);
      && |s| >= 4 && s[|s| - 3] == '.'
      && Decimal.AllDigits(s[..|s| - 3]) && Decimal.AllDigits(s[|s| - 2..])
      && Decimal.Value(s[..|s| - 3]) * 100 + Decimal.Value(s[|s| - 2..]) == cents
  {
    var whole := Decimal.NatToString(cents / 100);
    var frac := Decimal.PadStart(Decimal.NatToString(cents % 100), 2, '0');
    CentsSplit(cents);
    Decimal.ValueOfNatToString(cents / 100);
    Decimal.TwoDigitPadReadsBack(cents % 100);
    Decimal.SplitReadsBack(whole, ".", frac);
    assert ToFixed2(cents) == whole + "." + frac;
  }

  lemma CentsSplit(cents: nat)
    ensures (cents / 100) * 100 + cents % 100 == cents && cents % 100 < 100
  {
  }

  const PixPrefix: string := "00020126580014br.gov.bcb.pix0136"
  const PixMiddle: string := "520400005303986540"
  const PixSuffix: string := "5802BR5913Rifaz System6009Sao Paulo62070503***6304"

  /** The simulated PIX copy-and-paste code for a charge. */
  function PixCode(externalId: string, amount: int): string {
    PixPrefix + externalId + PixMiddle + ToFixed2(amount) + PixSuffix
  }

  /** The code carries the charge's external id and amount at fixed positions. */
  lemma PixCodeLayout(externalId: string, amount: int)
    ensures var c := PixCode(externalId, amount);
      var start := |PixPrefix| + |externalId| + |PixMiddle|;
      && c[..|PixPrefix|] == PixPrefix
      && c[|PixPrefix|..|PixPrefix| + |externalId|] == externalId
      && c[start..start + |ToFixed2(amount)|] == ToFixed2(amount)
      && c[|c| - |PixSuffix|..] == PixSuffix
  {
    FiveParts(PixPrefix, externalId, PixMiddle, ToFixed2(amount), PixSuffix);
  }

  /** Each part of a concatenation of five can be cut back out of it. */
  lemma FiveParts<T>(a: seq<T>, b: seq<T>, m: seq<T>, x: seq<T>, z: seq<T>)
    ensures var c := a + b + m + x + z;
      var start := |a| + |b| + |m|;
      && c[..|a|] == a && c[|a|..|a| + |b|] == b
      && c[start..start + |x|] == x && c[|c| - |z|..] == z
  {
    var head := a + b;
    var middle := head + m;
    var body := middle + x;
    var c := body + z;
    assert c[..|body|] == body;
    assert body[..|middle|] == middle;
    assert middle[..|head|] == head;
    assert head[..|a|] == a;
    assert head[|a|..] == b;
    assert body[|middle|..] == x;
  }

  // ---------------------------------------------------------------------------
  // Reservation
  // ---------------------------------------------------------------------------

  /** At most ten numbers per reservation. */
  const MaxNumbersPerReservation: int := 10

  datatype ReserveRequest = ReserveRequest(raffleId: nat, numbers: seq<int>)

  datatype ReserveError =
    | Unauthenticated                       // 401
    | InvalidData                           // 400, the request schema rejects the body
    | RaffleNotFound                        // 404, no ACTIVE raffle with that id
    | NumbersUnavailable(numbers: seq<int>) // 400, with the offending numbers
    | NotEnoughNumbers                      // 400, capacity exceeded
    | ExternalIdTaken                       // 500, the unique external id is already stored

  datatype Reservation = Reservation(
    transactionId: nat,
    ticketIds: seq<nat>,
    amount: int,
    fees: Fees,
    pixCode: string,
    expiresAt: int,
    expiresIn: int)

  /** The request schema: one to ten numbers, each at least 1. */
  predicate ValidNumbers(numbers: seq<int>) {
    1 <= |numbers| <= MaxNumbersPerReservation && forall j :: 0 <= j < |numbers| ==> numbers[j] >= 1
  }

  /** Number `n` of raffle `raffleId` has been paid for. */
  ghost predicate Sold(s: Store, raffleId: nat, n: int) {
    exists t :: t in s.tickets && t.raffleId == raffleId && t.status.PAID? && t.number == n
  }

  function UnavailableIn(sold: seq<int>, total: int): int -> bool {
    n => n in sold || n < 1 || n > total
  }

  /** The requested numbers that are sold or outside `1..total`, in request order. */
  function UnavailableNumbers(numbers: seq<int>, sold: seq<int>, total: int): (r: seq<int>)
    ensures IsSubsequence(r, numbers)
    ensures forall n :: n in r <==> n in numbers && (n in sold || n < 1 || n > total)
  {
    FilterIsSubsequence(UnavailableIn(sold, total), numbers);
    Filter(UnavailableIn(sold, total), numbers)
  }

  /**
   * The checks of `/reserve` in the order the handler runs them; on success
   * the raffle to reserve in.
   */
  function CheckReserve(s: Store, user: Option<nat>, req: ReserveRequest): (r: Result<Raffle, ReserveError>)
    ensures r.Ok? <==>
      && user.Some? && ValidNumbers(req.numbers)
      && req.raffleId < |s.raffles| && s.raffles[req.raffleId].status.ACTIVE?
      && (forall j :: 0 <= j < |req.numbers| ==>
            1 <= req.numbers[j] <= s.raffles[req.raffleId].totalNumeros && !Sold(s, req.raffleId, req.numbers[j]))
      && PaidCount(s.tickets, req.raffleId) + |req.numbers| <= s.raffles[req.raffleId].totalNumeros
    ensures r.Ok? ==> r.value == s.raffles[req.raffleId]
    ensures user.None? ==> r == Err(Unauthenticated)
    ensures user.Some? && !ValidNumbers(req.numbers) ==> r == Err(InvalidData)
    ensures (user.Some? && ValidNumbers(req.numbers)
             && !(req.raffleId < |s.raffles| && s.raffles[req.raffleId].status.ACTIVE?)) ==> r == Err(RaffleNotFound)
    ensures r.Err? && r.error.NumbersUnavailable? ==>
      && req.raffleId < |s.raffles|
      && r.error.numbers != []
      && IsSubsequence(r.error.numbers, req.numbers)
      && forall n :: n in r.error.numbers <==>
           n in req.numbers && (Sold(s, req.raffleId, n) || n < 1 || n > s.raffles[req.raffleId].totalNumeros)
  {
    if user.None? then Err(Unauthenticated)
    else if !ValidNumbers(req.numbers) then Err(InvalidData)
    else if !(req.raffleId < |s.raffles| && s.raffles[req.raffleId].status.ACTIVE?) then Err(RaffleNotFound)
    else
      var raffle := s.raffles[req.raffleId];
      var sold := PaidNumbers(s.tickets, req.raffleId);
      var unavailable := UnavailableNumbers(req.numbers, sold, raffle.totalNumeros);
      if |unavailable| > 0 then
        Err(NumbersUnavailable(unavailable))
      else
        assert forall j :: 0 <= j < |req.numbers| ==> req.numbers[j] !in unavailable;
        if |sold| + |req.numbers| > raffle.totalNumeros then Err(NotEnoughNumbers)
        else Ok(raffle)
  }

  /** The ids `start, start + 1, ..., start + n - 1`. */
  function IdRange(start: nat, n: nat): (r: seq<nat>)
    ensures |r| == n && forall j :: 0 <= j < n ==> r[j] == start + j
  {
    seq(n, j requires 0 <= j < n => start + j)
  }

  /** One RESERVED ticket per requested number, in request order. */
  function NewTickets(raffleId: nat, numbers: seq<int>, buyer: nat, txId: nat, now: int): (r: seq<Ticket>)
    ensures |r| == |numbers|
    ensures forall j :: 0 <= j < |numbers| ==>
      r[j] == Ticket(raffleId, numbers[j], Some(buyer), RESERVED, Some(txId), now)
  {
    seq(|numbers|, j requires 0 <= j < |numbers| => Ticket(raffleId, numbers[j], Some(buyer), RESERVED, Some(txId), now))
  }

  /** The id of the transaction with a given external id. */
  function FindByExternalId(txs: seq<Transaction>, externalId: string): (r: Option<nat>)
    ensures r.Some? ==> r.value < |txs| && txs[r.value].externalId == externalId
    ensures r.None? <==> forall i :: 0 <= i < |txs| ==> txs[i].externalId != externalId
    ensures r.Some? ==> forall i :: 0 <= i < r.value ==> txs[i].externalId != externalId
    decreases |txs|
  {
    if txs == [] then None
    else
      match FindByExternalId(txs[..|txs| - 1], externalId)
      case Some(i) => Some(i)
      case None => if txs[|txs| - 1].externalId == externalId then Some(|txs| - 1) else None
  }

  /**
   * `POST /payments/reserve`. The transaction and the tickets are written in
   * one database transaction and the PIX data right after it; nothing in
   * between can fail, so the model writes the final records at once.
   * `externalId` is the new UUID the handler draws; `now` the clock.
   */
  function Reserve(s: Store, user: Option<nat>, req: ReserveRequest, externalId: string, now: int): (Store, Result<Reservation, ReserveError>) {
    match CheckReserve(s, user, req)
    case Err(e) => (s, Err(e))
    case Ok(raffle) =>
      if FindByExternalId(s.transactions, externalId).Some? then (s, Err(ExternalIdTaken))
      else
        var amount := raffle.valorUnitario * |req.numbers|;
        var fees := CalculateFees(amount);
        var txId := |s.transactions|;
        var ids := IdRange(|s.tickets|, |req.numbers|);
        var pix := PixCode(externalId, amount);
        var expiresAt := now + ReservationTtlMs;
        var tx := Transaction(ids, amount, fees.serviceFee, fees.gatewayFee, fees.netValue, externalId,
                              user.value, req.raffleId, TransactionStatus.PENDING, Some(pix), Some(expiresAt), now);
        (Store(s.users, s.raffles, s.tickets + NewTickets(req.raffleId, req.numbers, user.value, txId, now), s.transactions + [tx]),
         Ok(Reservation(txId, ids, amount, fees, pix, expiresAt, ReservationTtlSeconds)))
  }

  /** A rejected reservation changes nothing. */
  lemma ReserveRejectedChangesNothing(s: Store, user: Option<nat>, req: ReserveRequest, externalId: string, now: int)
    requires Reserve(s, user, req, externalId, now).1.Err?
    ensures Reserve(s, user, req, externalId, now).0 == s
  {
  }

  /**
   * A successful reservation adds exactly one PENDING transaction, priced at
   * the unit price times the count, and one RESERVED ticket per requested
   * number in order, linked to it; every earlier record is untouched.
   */
  lemma ReserveSucceeds(s: Store, user: Option<nat>, req: ReserveRequest, externalId: string, now: int)
    requires Reserve(s, user, req, externalId, now).1.Ok?
    ensures var (s2, res) := Reserve(s, user, req, externalId, now);
      var r := res.value;
      var n := |req.numbers|;
      && CheckReserve(s, user, req).Ok?
      && s2.users == s.users && s2.raffles == s.raffles
      && |s2.tickets| == |s.tickets| + n && s2.tickets[..|s.tickets|] == s.tickets
      && |s2.transactions| == |s.transactions| + 1 && s2.transactions[..|s.transactions|] == s.transactions
      && r.transactionId == |s.transactions|
      && (forall j :: 0 <= j < n ==>
            r.ticketIds[j] == |s.tickets| + j
            && s2.tickets[|s.tickets| + j] == Ticket(req.raffleId, req.numbers[j], user, RESERVED, Some(r.transactionId), now))
      && var tx := s2.transactions[r.transactionId];
         && tx.status == TransactionStatus.PENDING && tx.buyerId == user.value && tx.raffleId == req.raffleId
         && tx.ticketIds == r.ticketIds && |r.ticketIds| == n
         && tx.amount == r.amount == s.raffles[req.raffleId].valorUnitario * n
         && r.fees == CalculateFees(r.amount)
         && tx.serviceFee == r.fees.serviceFee && tx.gatewayFee == r.fees.gatewayFee && tx.netValue == r.fees.netValue
         && tx.externalId == externalId && tx.pixCode == Some(PixCode(externalId, r.amount))
         && tx.expiresAt == Some(now + 15 * 60 * 1000) && r.expiresAt == now + 15 * 60 * 1000 && r.expiresIn == 900
  {
    var s2 := Reserve(s, user, req, externalId, now).0;
    assert s2.tickets[..|s.tickets|] == s.tickets;
    assert s2.transactions[..|s.transactions|] == s.transactions;
  }

  /** The shape of a successful reservation: its tickets and one transaction are appended. */
  lemma ReserveAppends(s: Store, user: Option<nat>, req: ReserveRequest, externalId: string, now: int)
    requires Reserve(s, user, req, externalId, now).1.Ok?
    ensures var s2 := Reserve(s, user, req, externalId, now).0;
      && CheckReserve(s, user, req).Ok? && user.Some?
      && s2.raffles == s.raffles
      && s2.tickets == s.tickets + NewTickets(req.raffleId, req.numbers, user.value, |s.transactions|, now)
      && |s2.transactions| == |s.transactions| + 1 && s2.transactions[..|s.transactions|] == s.transactions
      && s2.transactions[|s.transactions|].raffleId == req.raffleId
      && s2.transactions[|s.transactions|].externalId == externalId
  {
    var s2 := Reserve(s, user, req, externalId, now).0;
    assert s2.transactions[..|s.transactions|] == s.transactions;
  }

  /** A reservation sells nothing: every raffle keeps its count of PAID tickets. */
  lemma ReserveKeepsPaidCounts(s: Store, user: Option<nat>, req: ReserveRequest, externalId: string, now: int, raffleId: nat)
    ensures PaidCount(Reserve(s, user, req, externalId, now).0.tickets, raffleId) == PaidCount(s.tickets, raffleId)
  {
    var (s2, res) := Reserve(s, user, req, externalId, now);
    if res.Ok? {
      var added := NewTickets(req.raffleId, req.numbers, user.value, |s.transactions|, now);
      assert s2.tickets == s.tickets + added;
      FilterConcat(PaidOf(raffleId), s.tickets, added);
      FilterNone(PaidOf(raffleId), added);
    }
  }

  /** A reservation by a registered user keeps the store's integrity constraints. */
  lemma ReservePreservesValid(s: Store, user: Option<nat>, req: ReserveRequest, externalId: string, now: int)
    requires Valid(s)
    requires user.Some? ==> user.value < |s.users|
    ensures Valid(Reserve(s, user, req, externalId, now).0)
  {
    var (s2, res) := Reserve(s, user, req, externalId, now);
    if res.Ok? {
      var added := NewTickets(req.raffleId, req.numbers, user.value, |s.transactions|, now);
      var tx := s2.transactions[|s.transactions|];
      ReserveAppends(s, user, req, externalId, now);
      assert s2.transactions == s.transactions + [tx];
      assert s2 == Store(s.users, s.raffles, s.tickets + added, s.transactions + [tx]);
      AppendKeepsValid(s, added, tx);
    }
  }

  /**
   * Appending tickets and the one transaction they belong to keeps a store
   * valid when they refer to stored records and the external id is new.
   */
  lemma AppendKeepsValid(s: Store, added: seq<Ticket>, tx: Transaction)
    requires Valid(s)
    requires forall j :: 0 <= j < |added| ==>
      && added[j].raffleId < |s.raffles| && added[j].transactionId == Some(|s.transactions|)
      && (added[j].buyerId.Some? ==> added[j].buyerId.value < |s.users|)
    requires tx.raffleId < |s.raffles| && tx.buyerId < |s.users|
    requires |tx.ticketIds| == |added| && forall j :: 0 <= j < |added| ==> tx.ticketIds[j] == |s.tickets| + j
    requires forall i :: 0 <= i < |s.transactions| ==> s.transactions[i].externalId != tx.externalId
    ensures Valid(Store(s.users, s.raffles, s.tickets + added, s.transactions + [tx]))
  {
    var s2 := Store(s.users, s.raffles, s.tickets + added, s.transactions + [tx]);
    var txId := |s.transactions|;
    forall k | 0 <= k < |s2.tickets| ensures TicketLinked(s2, s2.tickets[k]) {
      if k < |s.tickets| {
        assert TicketLinked(s, s.tickets[k]);
      } else {
        assert s2.tickets[k] == added[k - |s.tickets|];
      }
    }
    forall i | 0 <= i < |s2.transactions| ensures TransactionLinked(s2, i) {
      if i < txId {
        assert TransactionLinked(s, i);
        assert s2.transactions[i] == s.transactions[i];
      } else {
        forall k | k in tx.ticketIds ensures k < |s2.tickets| && s2.tickets[k].transactionId == Some(i) {
          var j :| 0 <= j < |tx.ticketIds| && tx.ticketIds[j] == k;
          assert s2.tickets[k] == added[j];
        }
      }
    }
    assert UniqueExternalIds(s2.transactions) by {
      forall i, j | 0 <= i < j < |s2.transactions| ensures s2.transactions[i].externalId != s2.transactions[j].externalId {
        if j < txId {
          assert s2.transactions[i] == s.transactions[i] && s2.transactions[j] == s.transactions[j];
        } else {
          assert s2.transactions[i] == s.transactions[i];
        }
      }
    }
  }

  /**
   * The handler of `POST /payments/reserve`: validates, creates the PENDING
   * transaction, creates the tickets one by one, records their ids in the
   * transaction, then stores the PIX data.
   */
  method ReserveHandler(db: Ledger, user: Option<nat>, req: ReserveRequest, externalId: string, now: int)
    returns (result: Result<Reservation, ReserveError>)
    modifies db
    ensures db.Snapshot() == Reserve(old(db.Snapshot()), user, req, externalId, now).0
    ensures result == Reserve(old(db.Snapshot()), user, req, externalId, now).1
  {
    var check := CheckReserve(db.Snapshot(), user, req);
    if check.Err? {
      return Err(check.error);
    }
    if FindByExternalId(db.transactions, externalId).Some? {
      return Err(ExternalIdTaken);
    }
    var buyer := user.value;
    var amount := check.value.valorUnitario * |req.numbers|;
    var fees := CalculateFees(amount);
    ghost var s0 := db.Snapshot();
    var txId := |db.transactions|;
    var ids, pix, expiresAt := WriteReservation(db, req, buyer, externalId, amount, fees, now);
    ReserveAccepted(s0, user, req, externalId, now);
    result := Ok(Reservation(txId, ids, amount, fees, pix, expiresAt, ReservationTtlSeconds));
  }

  /**
   * The writes of an accepted reservation: the `$transaction` block (the
   * transaction first, with no tickets yet, then its tickets, then their ids
   * on it), and after the block the PIX charge and its deadline.
   */
  method WriteReservation(db: Ledger, req: ReserveRequest, buyer: nat, externalId: string, amount: int, fees: Fees, now: int)
    returns (ids: seq<nat>, pix: string, expiresAt: int)
    modifies db
    ensures ids == IdRange(|old(db.tickets)|, |req.numbers|)
    ensures pix == PixCode(externalId, amount) && expiresAt == now + ReservationTtlMs
    ensures db.tickets == old(db.tickets) + NewTickets(req.raffleId, req.numbers, buyer, |old(db.transactions)|, now)
    ensures db.transactions == old(db.transactions) + [Transaction(ids, amount, fees.serviceFee, fees.gatewayFee, fees.netValue,
      externalId, buyer, req.raffleId, TransactionStatus.PENDING, Some(pix), Some(expiresAt), now)]
    ensures db.users == old(db.users) && db.raffles == old(db.raffles)
  {
    var txId := |db.transactions|;
    db.transactions := db.transactions + [Transaction([], amount, fees.serviceFee, fees.gatewayFee, fees.netValue,
                                                      externalId, buyer, req.raffleId, TransactionStatus.PENDING, None, None, now)];
    ids := CreateTickets(db, req.raffleId, req.numbers, buyer, txId, now);
    db.transactions := db.transactions[txId := db.transactions[txId].(ticketIds := ids)];
    pix := PixCode(externalId, amount);
    expiresAt := now + ReservationTtlMs;
    db.transactions := db.transactions[txId := db.transactions[txId].(pixCode := Some(pix), expiresAt := Some(expiresAt))];
    assert db.transactions == old(db.transactions) + [Transaction(ids, amount, fees.serviceFee, fees.gatewayFee, fees.netValue,
      externalId, buyer, req.raffleId, TransactionStatus.PENDING, Some(pix), Some(expiresAt), now)];
  }

  /** An accepted reservation: the records `Reserve` writes, spelled out. */
  lemma ReserveAccepted(s: Store, user: Option<nat>, req: ReserveRequest, externalId: string, now: int)
    requires CheckReserve(s, user, req).Ok? && FindByExternalId(s.transactions, externalId).None?
    ensures var amount := s.raffles[req.raffleId].valorUnitario * |req.numbers|;
      var fees := CalculateFees(amount);
      var ids := IdRange(|s.tickets|, |req.numbers|);
      var pix := PixCode(externalId, amount);
      var expiresAt := now + ReservationTtlMs;
      var tx := Transaction(ids, amount, fees.serviceFee, fees.gatewayFee, fees.netValue, externalId,
                            user.value, req.raffleId, TransactionStatus.PENDING, Some(pix), Some(expiresAt), now);
      Reserve(s, user, req, externalId, now) ==
        (Store(s.users, s.raffles, s.tickets + NewTickets(req.raffleId, req.numbers, user.value, |s.transactions|, now), s.transactions + [tx]),
         Ok(Reservation(|s.transactions|, ids, amount, fees, pix, expiresAt, ReservationTtlSeconds)))
  {
  }

  /**
   * The `for` loop of the `$transaction` block: one RESERVED ticket per
   * number, created in order, each linked to transaction `txId`; returns
   * their ids.
   */
  method CreateTickets(db: Ledger, raffleId: nat, numbers: seq<int>, buyer: nat, txId: nat, now: int)
    returns (ids: seq<nat>)
    modifies db
    ensures db.tickets == old(db.tickets) + NewTickets(raffleId, numbers, buyer, txId, now)
    ensures ids == IdRange(|old(db.tickets)|, |numbers|)
    ensures db.users == old(db.users) && db.raffles == old(db.raffles) && db.transactions == old(db.transactions)
  {
    ids := [];
    var i := 0;
    while i < |numbers|
      invariant 0 <= i <= |numbers|
      invariant db.tickets == old(db.tickets) + NewTickets(raffleId, numbers[..i], buyer, txId, now)
      invariant ids == IdRange(|old(db.tickets)|, i)
      invariant db.users == old(db.users) && db.raffles == old(db.raffles) && db.transactions == old(db.transactions)
    {
      var ticketId := |db.tickets|;
      db.tickets := db.tickets + [Ticket(raffleId, numbers[i], Some(buyer), RESERVED, Some(txId), now)];
      ids := ids + [ticketId];
      assert numbers[..i + 1] == numbers[..i] + [numbers[i]];
      i := i + 1;
    }
    assert numbers[..i] == numbers;
  }

  // ---------------------------------------------------------------------------
  // Webhook
  // ---------------------------------------------------------------------------

  datatype GatewayStatus = GatewayPaid | GatewayExpired | GatewayCanceled

  /** The webhook schema's `status` enum. */
  function ParseGatewayStatus(s: string): (r: Option<GatewayStatus>)
    ensures r == Some(GatewayPaid) <==> s == "PAID"
    ensures r == Some(GatewayExpired) <==> s == "EXPIRED"
    ensures r == Some(GatewayCanceled) <==> s == "CANCELED"
  {
    if s == "PAID" then Some(GatewayPaid)
    else if s == "EXPIRED" then Some(GatewayExpired)
    else if s == "CANCELED" then Some(GatewayCanceled)
    else None
  }

  datatype WebhookRequest = WebhookRequest(externalId: string, status: string)

  datatype WebhookReply = AlreadyProcessed | PaymentConfirmed | TransactionReleased

  datatype WebhookError =
    | InvalidSignature      // 401
    | InvalidPayload        // 400
    | TransactionNotFound   // 404
    | RaffleMissing         // 500, the transaction's raffle cannot be read

  /** JavaScript truthiness of an optional string: present and not empty. */
  predicate Truthy(o: Option<string>) {
    o.Some? && o.value != ""
  }

  /**
   * The PAID branch: the transaction and every ticket linked to it become
   * PAID; the raffle becomes PENDING_DRAW when its PAID tickets reach its
   * number count, whatever its status was.
   */
  function ConfirmPayment(s: Store, i: nat): Store
    requires i < |s.transactions| && s.transactions[i].raffleId < |s.raffles|
  {
    var tx := s.transactions[i];
    var tickets := SetTicketsOf(s.tickets, i, TicketStatus.PAID);
    var raffles :=
      if PaidCount(tickets, tx.raffleId) >= s.raffles[tx.raffleId].totalNumeros
      then s.raffles[tx.raffleId := s.raffles[tx.raffleId].(status := PENDING_DRAW)]
      else s.raffles;
    Store(s.users, raffles, tickets, s.transactions[i := tx.(status := TransactionStatus.PAID)])
  }

  /** The EXPIRED/CANCELED branch: the transaction becomes EXPIRED and its tickets CANCELED. */
  function ReleaseTickets(s: Store, i: nat): Store
    requires i < |s.transactions|
  {
    Store(s.users, s.raffles, SetTicketsOf(s.tickets, i, TicketStatus.CANCELED),
          s.transactions[i := s.transactions[i].(status := EXPIRED)])
  }

  /**
   * `POST /payments/webhook`. `secret` is the configured webhook secret and
   * `signature` the request's signature header; only their presence is
   * checked.
   */
  function Webhook(s: Store, secret: Option<string>, signature: Option<string>, req: WebhookRequest): (Store, Result<WebhookReply, WebhookError>) {
    if !Truthy(secret) || !Truthy(signature) then (s, Err(InvalidSignature))
    else
      match ParseGatewayStatus(req.status)
      case None => (s, Err(InvalidPayload))
      case Some(status) =>
        match FindByExternalId(s.transactions, req.externalId)
        case None => (s, Err(TransactionNotFound))
        case Some(i) =>
          if s.transactions[i].status.PAID? then (s, Ok(AlreadyProcessed))
          else if status.GatewayPaid? then
            if s.transactions[i].raffleId < |s.raffles| then (ConfirmPayment(s, i), Ok(PaymentConfirmed))
            else (s, Err(RaffleMissing))
          else (ReleaseTickets(s, i), Ok(TransactionReleased))
  }

  /** A webhook changes the store only when it succeeds with a confirmation or a release. */
  lemma WebhookFailsWithoutChange(s: Store, secret: Option<string>, signature: Option<string>, req: WebhookRequest)
    ensures var (s2, r) := Webhook(s, secret, signature, req);
      (r.Err? || r == Ok(AlreadyProcessed)) ==> s2 == s
    ensures FindByExternalId(s.transactions, req.externalId).None? ==>
      Webhook(s, secret, signature, req).1.Err?
    ensures Truthy(secret) && Truthy(signature) && ParseGatewayStatus(req.status).Some? &&
            FindByExternalId(s.transactions, req.externalId).None? ==>
      Webhook(s, secret, signature, req) == (s, Err(TransactionNotFound))
  {
  }

  /** A webhook for an already PAID transaction succeeds and changes nothing, whatever status it reports. */
  lemma WebhookOnPaidIsNoOp(s: Store, secret: Option<string>, signature: Option<string>, req: WebhookRequest, i: nat)
    requires Truthy(secret) && Truthy(signature) && ParseGatewayStatus(req.status).Some?
    requires i < |s.transactions| && s.transactions[i].externalId == req.externalId
    requires UniqueExternalIds(s.transactions)
    requires s.transactions[i].status.PAID?
    ensures Webhook(s, secret, signature, req) == (s, Ok(AlreadyProcessed))
  {
  }

  /**
   * The effect of confirming transaction `i`: it and its tickets become
   * PAID, nothing else changes except the raffle's status, which becomes
   * PENDING_DRAW exactly when its PAID count reaches its number count.
   */
  lemma ConfirmPaymentEffect(s: Store, i: nat)
    requires i < |s.transactions| && s.transactions[i].raffleId < |s.raffles|
    ensures var s2 := ConfirmPayment(s, i);
      var rid := s.transactions[i].raffleId;
      && s2.users == s.users
      && |s2.transactions| == |s.transactions|
      && s2.transactions[i] == s.transactions[i].(status := TransactionStatus.PAID)
      && (forall j :: 0 <= j < |s.transactions| && j != i ==> s2.transactions[j] == s.transactions[j])
      && |s2.tickets| == |s.tickets|
      && (forall k :: 0 <= k < |s.tickets| ==>
            if s.tickets[k].transactionId == Some(i) then s2.tickets[k] == s.tickets[k].(status := TicketStatus.PAID)
            else s2.tickets[k] == s.tickets[k])
      && |s2.raffles| == |s.raffles|
      && (forall r :: 0 <= r < |s.raffles| && r != rid ==> s2.raffles[r] == s.raffles[r])
      && (if PaidCount(s2.tickets, rid) >= s.raffles[rid].totalNumeros
          then s2.raffles[rid] == s.raffles[rid].(status := PENDING_DRAW)
          else s2.raffles[rid] == s.raffles[rid])
  {
  }

  /**
   * The effect of releasing transaction `i`: it becomes EXPIRED and exactly
   * its tickets become CANCELED; users and raffles are untouched.
   */
  lemma ReleaseTicketsEffect(s: Store, i: nat)
    requires i < |s.transactions|
    ensures var s2 := ReleaseTickets(s, i);
      && s2.users == s.users && s2.raffles == s.raffles
      && |s2.transactions| == |s.transactions|
      && s2.transactions[i] == s.transactions[i].(status := EXPIRED)
      && (forall j :: 0 <= j < |s.transactions| && j != i ==> s2.transactions[j] == s.transactions[j])
      && |s2.tickets| == |s.tickets|
      && (forall k :: 0 <= k < |s.tickets| ==>
            if s.tickets[k].transactionId == Some(i) then s2.tickets[k] == s.tickets[k].(status := TicketStatus.CANCELED)
            else s2.tickets[k] == s.tickets[k])
  {
  }

  /** Confirming a payment never lowers any raffle's count of PAID tickets. */
  lemma ConfirmPaymentSellsMore(s: Store, i: nat, raffleId: nat)
    requires i < |s.transactions| && s.transactions[i].raffleId < |s.raffles|
    ensures PaidCount(ConfirmPayment(s, i).tickets, raffleId) >= PaidCount(s.tickets, raffleId)
  {
    var t2 := ConfirmPayment(s, i).tickets;
    assert forall k :: 0 <= k < |s.tickets| ==> PaidOf(raffleId)(s.tickets[k]) ==> PaidOf(raffleId)(t2[k]);
    FilterLengthMonotone(PaidOf(raffleId), PaidOf(raffleId), s.tickets, t2);
  }

  /** Releasing a transaction never raises any raffle's count of PAID tickets. */
  lemma ReleaseTicketsSellsLess(s: Store, i: nat, raffleId: nat)
    requires i < |s.transactions|
    ensures PaidCount(ReleaseTickets(s, i).tickets, raffleId) <= PaidCount(s.tickets, raffleId)
  {
    var t2 := ReleaseTickets(s, i).tickets;
    assert forall k :: 0 <= k < |t2| ==> PaidOf(raffleId)(t2[k]) ==> PaidOf(raffleId)(s.tickets[k]);
    FilterLengthMonotone(PaidOf(raffleId), PaidOf(raffleId), t2, s.tickets);
  }

  /** Delivering the same webhook twice leaves the store as delivering it once. */
  lemma WebhookReplay(s: Store, secret: Option<string>, signature: Option<string>, req: WebhookRequest)
    ensures var s1 := Webhook(s, secret, signature, req).0;
      Webhook(s1, secret, signature, req).0 == s1
  {
    var s1 := Webhook(s, secret, signature, req).0;
    var found := FindByExternalId(s.transactions, req.externalId);
    if Truthy(secret) && Truthy(signature) && ParseGatewayStatus(req.status).Some? && found.Some? {
      var i := found.value;
      if !s.transactions[i].status.PAID? {
        assert |s1.transactions| == |s.transactions|;
        assert forall j :: 0 <= j < |s.transactions| ==> s1.transactions[j].externalId == s.transactions[j].externalId;
        assert FindByExternalId(s1.transactions, req.externalId) == found by {
          FindIsDeterminedByIds(s.transactions, s1.transactions, req.externalId);
        }
        if ParseGatewayStatus(req.status) == Some(GatewayPaid) {
        } else {
          var s2 := ReleaseTickets(s1, i);
          assert s2.tickets == s1.tickets;
          assert s2.transactions == s1.transactions;
        }
      }
    }
  }

  /** The lookup by external id depends on the external ids alone. */
  lemma {:induction false} FindIsDeterminedByIds(a: seq<Transaction>, b: seq<Transaction>, externalId: string)
    requires |a| == |b|
    requires forall j :: 0 <= j < |a| ==> a[j].externalId == b[j].externalId
    ensures FindByExternalId(a, externalId) == FindByExternalId(b, externalId)
    decreases |a|
  {
    if a != [] {
      FindIsDeterminedByIds(a[..|a| - 1], b[..|b| - 1], externalId);
    }
  }

  /**
   * Only PAID short-circuits the webhook: a transaction released as EXPIRED
   * is still confirmed by a later PAID notification, and its CANCELED
   * tickets become PAID again.
   */
  lemma LatePaymentRevivesTickets(s: Store, secret: Option<string>, signature: Option<string>, externalId: string, i: nat, k: nat)
    requires Truthy(secret) && Truthy(signature)
    requires i < |s.transactions| && s.transactions[i].externalId == externalId
    requires UniqueExternalIds(s.transactions)
    requires s.transactions[i].status == EXPIRED && s.transactions[i].raffleId < |s.raffles|
    requires k < |s.tickets| && s.tickets[k].transactionId == Some(i) && s.tickets[k].status.CANCELED?
    ensures var (s2, r) := Webhook(s, secret, signature, WebhookRequest(externalId, "PAID"));
      r == Ok(PaymentConfirmed) && s2.tickets[k].status.PAID? && s2.transactions[i].status.PAID?
  {
  }

  /** Settlement keeps the store's integrity constraints. */
  lemma WebhookPreservesValid(s: Store, secret: Option<string>, signature: Option<string>, req: WebhookRequest)
    requires Valid(s)
    ensures Valid(Webhook(s, secret, signature, req).0)
  {
    ValidTransfers(s, Webhook(s, secret, signature, req).0);
  }

  /**
   * The handler of `POST /payments/webhook`: the signature and payload checks,
   * the lookup, the PAID short-circuit, then the updates of the chosen branch.
   */
  method WebhookHandler(db: Ledger, secret: Option<string>, signature: Option<string>, req: WebhookRequest)
    returns (result: Result<WebhookReply, WebhookError>)
    modifies db
    ensures db.Snapshot() == Webhook(old(db.Snapshot()), secret, signature, req).0
    ensures result == Webhook(old(db.Snapshot()), secret, signature, req).1
  {
    if !Truthy(secret) || !Truthy(signature) {
      return Err(InvalidSignature);
    }
    var status := ParseGatewayStatus(req.status);
    if status.None? {
      return Err(InvalidPayload);
    }
    var found := FindByExternalId(db.transactions, req.externalId);
    if found.None? {
      return Err(TransactionNotFound);
    }
    var i := found.value;
    var tx := db.transactions[i];
    if tx.status.PAID? {
      return Ok(AlreadyProcessed);
    }
    if status.value.GatewayPaid? {
      if tx.raffleId >= |db.raffles| {
        return Err(RaffleMissing);
      }
      db.transactions := db.transactions[i := tx.(status := TransactionStatus.PAID)];
      db.tickets := SetTicketsOf(db.tickets, i, TicketStatus.PAID);
      if PaidCount(db.tickets, tx.raffleId) >= db.raffles[tx.raffleId].totalNumeros {
        db.raffles := db.raffles[tx.raffleId := db.raffles[tx.raffleId].(status := PENDING_DRAW)];
      }
      result := Ok(PaymentConfirmed);
    } else {
      db.transactions := db.transactions[i := tx.(status := EXPIRED)];
      db.tickets := SetTicketsOf(db.tickets, i, TicketStatus.CANCELED);
      result := Ok(TransactionReleased);
    }
  }
}
