/**
 * The background jobs: the reservation-expiry sweep, the deadline transition
 * ACTIVE -> PENDING_DRAW, the scheduling of pending draws and the draw itself
 * with its winning number and drawing hash. Queue delivery, scheduling and
 * e-mail are outside the model; each job is one call.
 */
module Worker {
  import opened Common
  import opened Store
  import Decimal
  import Base64

  // ---------------------------------------------------------------------------
  // Reservation expiry
  // ---------------------------------------------------------------------------

  /** A RESERVED ticket created more than 15 minutes before `now`. */
  predicate ExpiredReservation(t: Ticket, now: int) {
    t.status.RESERVED? && t.createdAt < now - ReservationTtlMs
  }

  function ExpiredAt(tickets: seq<Ticket>, now: int): nat -> bool {
    (k: nat) => k < |tickets| && ExpiredReservation(tickets[k], now)
  }

  /** The `findMany` of the sweep: the ids of the expired reservations (their order is immaterial). */
  function ExpiredTicketIds(tickets: seq<Ticket>, now: int): (r: seq<nat>)
    ensures forall k: nat :: k in r <==> k < |tickets| && ExpiredReservation(tickets[k], now)
    ensures forall i :: 0 <= i < |r| ==> r[i] < |tickets|
    ensures forall i, j :: 0 <= i < j < |r| ==> r[i] != r[j]
  {
    IdsNewestFirst(|tickets|, ExpiredAt(tickets, now))
  }

  /** Transaction `j` exists and some expired reservation is linked to it. */
  predicate LinkedToExpired(tickets: seq<Ticket>, txCount: nat, now: int, j: nat) {
    j < txCount && exists k :: 0 <= k < |tickets| && ExpiredReservation(tickets[k], now) && tickets[k].transactionId == Some(j)
  }

  datatype SweepReport = NothingExpired | Expired(count: nat)

  /**
   * The expire-reservations job: every expired reservation becomes CANCELED
   * and the transaction it belongs to, if any, becomes EXPIRED, whatever
   * status that transaction has.
   */
  function Sweep(s: Store, now: int): (Store, SweepReport) {
    var ids := ExpiredTicketIds(s.tickets, now);
    if |ids| == 0 then (s, NothingExpired)
    else
      var tickets := seq(|s.tickets|, k requires 0 <= k < |s.tickets| =>
        if ExpiredReservation(s.tickets[k], now) then s.tickets[k].(status := TicketStatus.CANCELED) else s.tickets[k]);
      var txs := seq(|s.transactions|, j requires 0 <= j < |s.transactions| =>
        if LinkedToExpired(s.tickets, |s.transactions|, now, j) then s.transactions[j].(status := EXPIRED) else s.transactions[j]);
      (Store(s.users, s.raffles, tickets, txs), Expired(|ids|))
  }

  /**
   * The sweep selects exactly the expired reservations: those become
   * CANCELED, every other ticket (all PAID ones included) is unchanged; a
   * transaction becomes EXPIRED exactly when a selected ticket belongs to it.
   * With nothing selected nothing changes; otherwise the report counts the
   * selected tickets.
   */
  lemma SweepSpec(s: Store, now: int)
    ensures var (s2, report) := Sweep(s, now);
      var ids := ExpiredTicketIds(s.tickets, now);
      && (report == NothingExpired <==> (forall k :: 0 <= k < |s.tickets| ==> !ExpiredReservation(s.tickets[k], now)))
      && (report == NothingExpired ==> s2 == s)
      && (report.Expired? ==> report.count == |ids| > 0)
      && s2.users == s.users && s2.raffles == s.raffles
      && |s2.tickets| == |s.tickets| && |s2.transactions| == |s.transactions|
      && (forall k :: 0 <= k < |s.tickets| ==>
            s2.tickets[k] == if ExpiredReservation(s.tickets[k], now) then s.tickets[k].(status := TicketStatus.CANCELED) else s.tickets[k])
      && (forall j :: 0 <= j < |s.transactions| ==>
            s2.transactions[j] == if LinkedToExpired(s.tickets, |s.transactions|, now, j) then s.transactions[j].(status := EXPIRED) else s.transactions[j])
  {
    var ids := ExpiredTicketIds(s.tickets, now);
    if |ids| > 0 {
      assert ids[0] in ids;
    }
  }

  /** Running the sweep again at the same instant finds nothing: no swept ticket is still RESERVED. */
  lemma SweepIdempotent(s: Store, now: int)
    ensures var s1 := Sweep(s, now).0;
      Sweep(s1, now) == (s1, NothingExpired)
  {
    var s1 := Sweep(s, now).0;
    SweepSpec(s, now);
    SweepSpec(s1, now);
    forall k | 0 <= k < |s1.tickets| ensures !ExpiredReservation(s1.tickets[k], now) {
    }
  }

  /** The sweep sells and unsells nothing: every raffle keeps its PAID count. */
  lemma SweepKeepsPaidCounts(s: Store, now: int, raffleId: nat)
    ensures PaidCount(Sweep(s, now).0.tickets, raffleId) == PaidCount(s.tickets, raffleId)
  {
    var t2 := Sweep(s, now).0.tickets;
    SweepSpec(s, now);
    assert forall k :: 0 <= k < |s.tickets| ==> (PaidOf(raffleId)(s.tickets[k]) <==> PaidOf(raffleId)(t2[k]));
    FilterLengthMonotone(PaidOf(raffleId), PaidOf(raffleId), s.tickets, t2);
    FilterLengthMonotone(PaidOf(raffleId), PaidOf(raffleId), t2, s.tickets);
  }

  lemma SweepPreservesValid(s: Store, now: int)
    requires Valid(s)
    ensures Valid(Sweep(s, now).0)
  {
    SweepSpec(s, now);
    ValidTransfers(s, Sweep(s, now).0);
  }

  /** The tickets at the listed ids cancelled. */
  function CancelAt(tickets: seq<Ticket>, ids: seq<nat>): seq<Ticket> {
    seq(|tickets|, k requires 0 <= k < |tickets| =>
      if k in ids then tickets[k].(status := TicketStatus.CANCELED) else tickets[k])
  }

  /** Some listed ticket belongs to transaction `j`. */
  predicate LinkedToAny(loaded: seq<Ticket>, ids: seq<nat>, j: nat) {
    exists e :: e in ids && e < |loaded| && loaded[e].transactionId == Some(j)
  }

  /** The transactions of the listed tickets expired. */
  function ExpireLinked(txs: seq<Transaction>, loaded: seq<Ticket>, ids: seq<nat>): seq<Transaction> {
    seq(|txs|, j requires 0 <= j < |txs| =>
      if LinkedToAny(loaded, ids, j) then txs[j].(status := EXPIRED) else txs[j])
  }

  /** One pass of the sweep loop: ticket `k` is cancelled and its transaction, if it exists, expired. */
  lemma SweepStep(txs: seq<Transaction>, loaded: seq<Ticket>, ids: seq<nat>, k: nat)
    requires k < |loaded|
    ensures var t := CancelAt(loaded, ids);
      CancelAt(loaded, ids + [k]) == t[k := t[k].(status := TicketStatus.CANCELED)]
    ensures var x := ExpireLinked(txs, loaded, ids);
      var link := loaded[k].transactionId;
      ExpireLinked(txs, loaded, ids + [k]) ==
        if link.Some? && link.value < |txs| then x[link.value := x[link.value].(status := EXPIRED)] else x
  {
    var link := loaded[k].transactionId;
    forall j | 0 <= j < |txs|
      ensures LinkedToAny(loaded, ids + [k], j) <==> LinkedToAny(loaded, ids, j) || link == Some(j)
    {
      if LinkedToAny(loaded, ids + [k], j) {
        var e :| e in ids + [k] && e < |loaded| && loaded[e].transactionId == Some(j);
        if e != k {
          assert e in ids;
        }
      }
      if LinkedToAny(loaded, ids, j) {
        var e :| e in ids && e < |loaded| && loaded[e].transactionId == Some(j);
        assert e in ids + [k];
      }
      if link == Some(j) {
        assert k in ids + [k];
      }
    }
  }

  /** Cancelling and expiring along the whole selection gives the sweep's new tables. */
  lemma SweepByLoop(s: Store, now: int)
    requires |ExpiredTicketIds(s.tickets, now)| > 0
    ensures var ids := ExpiredTicketIds(s.tickets, now);
      && CancelAt(s.tickets, ids) == Sweep(s, now).0.tickets
      && ExpireLinked(s.transactions, s.tickets, ids) == Sweep(s, now).0.transactions
  {
    var ids := ExpiredTicketIds(s.tickets, now);
    SweepSpec(s, now);
    forall j | 0 <= j < |s.transactions|
      ensures LinkedToAny(s.tickets, ids, j) <==> LinkedToExpired(s.tickets, |s.transactions|, now, j)
    {
      if LinkedToExpired(s.tickets, |s.transactions|, now, j) {
        var k :| 0 <= k < |s.tickets| && ExpiredReservation(s.tickets[k], now) && s.tickets[k].transactionId == Some(j);
        assert k in ids;
      }
    }
  }

  /**
   * The expire-reservations worker: looks the expired reservations up, then
   * in one transaction cancels each and expires its transaction.
   */
  method SweepHandler(db: Ledger, now: int) returns (report: SweepReport)
    modifies db
    ensures db.Snapshot() == Sweep(old(db.Snapshot()), now).0
    ensures report == Sweep(old(db.Snapshot()), now).1
  {
    var expired := ExpiredTicketIds(db.tickets, now);
    if |expired| == 0 {
      return NothingExpired;
    }
    CancelAndExpire(db, expired);
    SweepByLoop(old(db.Snapshot()), now);
    report := Expired(|expired|);
  }

  /**
   * The loop inside the sweep's database transaction: for each listed ticket,
   * cancel it, then expire the transaction it was loaded with.
   */
  method CancelAndExpire(db: Ledger, expired: seq<nat>)
    requires forall i :: 0 <= i < |expired| ==> expired[i] < |db.tickets|
    modifies db
    ensures db.tickets == CancelAt(old(db.tickets), expired)
    ensures db.transactions == ExpireLinked(old(db.transactions), old(db.tickets), expired)
    ensures db.users == old(db.users) && db.raffles == old(db.raffles)
  {
    // the tickets as loaded, with their transaction links
    var loaded := db.tickets;
    ghost var txs0 := db.transactions;
    var i := 0;
    while i < |expired|
      invariant 0 <= i <= |expired|
      invariant db.users == old(db.users) && db.raffles == old(db.raffles)
      invariant db.tickets == CancelAt(loaded, expired[..i])
      invariant db.transactions == ExpireLinked(txs0, loaded, expired[..i])
    {
      var k := expired[i];
      assert expired[..i + 1] == expired[..i] + [k];
      SweepStep(txs0, loaded, expired[..i], k);
      db.tickets := db.tickets[k := db.tickets[k].(status := TicketStatus.CANCELED)];
      var link := loaded[k].transactionId;
      if link.Some? && link.value < |db.transactions| {
        db.transactions := db.transactions[link.value := db.transactions[link.value].(status := EXPIRED)];
      }
      i := i + 1;
    }
    assert expired[..i] == expired;
  }

  // ---------------------------------------------------------------------------
  // Deadline transition
  // ---------------------------------------------------------------------------

  /** An ACTIVE raffle whose draw date lies before `now`. */
  predicate DeadlinePassed(r: Raffle, now: int) {
    r.status.ACTIVE? && r.dataSorteio < now
  }

  function DueAt(now: int): Raffle -> bool {
    (r: Raffle) => DeadlinePassed(r, now)
  }

  /** The transition job: every due raffle becomes PENDING_DRAW; the result is how many did. */
  function Transition(s: Store, now: int): (Store, nat) {
    var due := |Filter(DueAt(now), s.raffles)|;
    if due == 0 then (s, 0)
    else
      (s.(raffles := seq(|s.raffles|, k requires 0 <= k < |s.raffles| =>
         if DeadlinePassed(s.raffles[k], now) then s.raffles[k].(status := PENDING_DRAW) else s.raffles[k])), due)
  }

  /**
   * Exactly the ACTIVE raffles past their draw date become PENDING_DRAW, each
   * other raffle and every other table is unchanged, and the count reported is
   * the number of due raffles.
   */
  lemma TransitionSpec(s: Store, now: int)
    ensures var (s2, n) := Transition(s, now);
      && n == |Filter(DueAt(now), s.raffles)|
      && s2.users == s.users && s2.tickets == s.tickets && s2.transactions == s.transactions
      && |s2.raffles| == |s.raffles|
      && forall k :: 0 <= k < |s.raffles| ==>
           s2.raffles[k] == if DeadlinePassed(s.raffles[k], now) then s.raffles[k].(status := PENDING_DRAW) else s.raffles[k]
  {
    var due := Filter(DueAt(now), s.raffles);
    if |due| == 0 {
      forall k | 0 <= k < |s.raffles| ensures !DeadlinePassed(s.raffles[k], now) {
        assert s.raffles[k] in s.raffles;
      }
    }
  }

  /** Right after a transition, running it again at the same instant transitions nothing. */
  lemma TransitionAgainIsZero(s: Store, now: int)
    ensures var s1 := Transition(s, now).0;
      Transition(s1, now) == (s1, 0)
  {
    var s1 := Transition(s, now).0;
    TransitionSpec(s, now);
    forall k | 0 <= k < |s1.raffles| ensures !DueAt(now)(s1.raffles[k]) {
    }
    FilterNone(DueAt(now), s1.raffles);
  }

  lemma TransitionPreservesValid(s: Store, now: int)
    requires Valid(s)
    ensures Valid(Transition(s, now).0)
  {
    TransitionSpec(s, now);
    ValidTransfers(s, Transition(s, now).0);
  }

  /** The transition worker: finds the due raffles and moves them with one `updateMany`. */
  method TransitionHandler(db: Ledger, now: int) returns (transitioned: nat)
    modifies db
    ensures db.Snapshot() == Transition(old(db.Snapshot()), now).0
    ensures transitioned == Transition(old(db.Snapshot()), now).1
  {
    var due := Filter(DueAt(now), db.raffles);
    if |due| == 0 {
      return 0;
    }
    var raffles := db.raffles;
    db.raffles := seq(|raffles|, k requires 0 <= k < |raffles| =>
      if DeadlinePassed(raffles[k], now) then raffles[k].(status := PENDING_DRAW) else raffles[k]);
    transitioned := |due|;
  }

  // ---------------------------------------------------------------------------
  // Scheduling pending draws
  // ---------------------------------------------------------------------------

  /** A draw job, queued with a delay. */
  datatype DrawJob = DrawJob(raffleId: nat, delayMs: int)

  const DrawDelayMs: int := 1000

  function PendingDrawAt(raffles: seq<Raffle>): nat -> bool {
    (k: nat) => k < |raffles| && raffles[k].status.PENDING_DRAW?
  }

  /**
   * The process-pending-draws worker: one draw job, one second ahead, for
   * every raffle in PENDING_DRAW, and no other job; it reads the store only.
   */
  method ProcessPendingDraws(db: Ledger) returns (jobs: seq<DrawJob>)
    ensures forall k: nat :: (exists i :: 0 <= i < |jobs| && jobs[i].raffleId == k) <==>
      k < |db.raffles| && db.raffles[k].status.PENDING_DRAW?
    ensures forall i, j :: 0 <= i < j < |jobs| ==> jobs[i].raffleId != jobs[j].raffleId
    ensures forall i :: 0 <= i < |jobs| ==> jobs[i].delayMs == DrawDelayMs
  {
    var pending := IdsNewestFirst(|db.raffles|, PendingDrawAt(db.raffles));
    jobs := [];
    var i := 0;
    while i < |pending|
      invariant 0 <= i <= |pending|
      invariant |jobs| == i
      invariant forall j :: 0 <= j < i ==> jobs[j] == DrawJob(pending[j], DrawDelayMs)
    {
      jobs := jobs + [DrawJob(pending[i], DrawDelayMs)];
      i := i + 1;
    }
    forall k: nat ensures (exists i :: 0 <= i < |jobs| && jobs[i].raffleId == k) <==> k in pending {
      if k in pending {
        var i :| 0 <= i < |pending| && pending[i] == k;
        assert jobs[i].raffleId == k;
      }
      if exists i :: 0 <= i < |jobs| && jobs[i].raffleId == k {
        var i :| 0 <= i < |jobs| && jobs[i].raffleId == k;
        assert pending[i] == k;
      }
    }
    forall k: nat ensures k in pending <==> k < |db.raffles| && db.raffles[k].status.PENDING_DRAW? {
      assert k in pending <==> k < |db.raffles| && PendingDrawAt(db.raffles)(k);
    }
  }

  // ---------------------------------------------------------------------------
  // The draw
  // ---------------------------------------------------------------------------

  /** `Math.floor(random * length)` for `random` in [0, 1): always an index of the list. */
  function WinningIndex(length: nat, random: real): (i: nat)
    requires length > 0 && 0.0 <= random < 1.0
    ensures i < length
  {
    var x := random * length as real;
    assert 0.0 <= x < length as real by {
      assert (1.0 - random) * length as real > 0.0;
    }
    x.Floor
  }

  /**
   * `generateAuditableWinningNumber`: the number at the random index; the
   * seed the source computes is never used. An empty list yields
   * `undefined`, here `None`.
   */
  function WinningNumber(numbers: seq<int>, random: real): (r: Option<int>)
    requires 0.0 <= random < 1.0
    ensures r.Some? <==> |numbers| > 0
    ensures r.Some? ==> r.value in numbers
  {
    if |numbers| == 0 then None else Some(numbers[WinningIndex(|numbers|, random)])
  }

  /** Every listed number can win: the random value `i / length` picks index `i`. */
  lemma EveryNumberCanWin(numbers: seq<int>, i: nat)
    requires i < |numbers|
    ensures var random := i as real / |numbers| as real;
      0.0 <= random < 1.0 && WinningNumber(numbers, random) == Some(numbers[i])
  {
    var n := |numbers| as real;
    var random := i as real / n;
    assert random * n == i as real;
    assert random < 1.0 by {
      assert i as real < n;
    }
    assert (random * n).Floor == i;
  }

  predicate IsAscii(s: string) {
    forall i :: 0 <= i < |s| ==> s[i] as int < 128
  }

  /** A string of ASCII characters, such as `Date.prototype.toISOString` produces. */
  type AsciiString = s: string | IsAscii(s)

  lemma AsciiConcat(a: string, b: string)
    requires IsAscii(a) && IsAscii(b)
    ensures IsAscii(a + b)
  {
    forall i | 0 <= i < |a + b| ensures (a + b)[i] as int < 128 {
      if i >= |a| {
        assert (a + b)[i] == b[i - |a|];
      }
    }
  }

  lemma IntToStringAscii(w: int)
    ensures IsAscii(Decimal.IntToString(w))
  {
    var d := Decimal.NatToString(if w < 0 then -w else w);
    assert IsAscii(d) by {
      forall i | 0 <= i < |d| ensures d[i] as int < 128 {
        assert Decimal.IsDigit(d[i]);
      }
    }
    if w < 0 {
      AsciiConcat("-", d);
    }
  }

  /** `Buffer.from(s)`: the UTF-8 bytes, which for ASCII text are the character codes. */
  function AsciiBytes(s: AsciiString): (b: seq<Base64.Byte>)
    ensures |b| == |s| && forall i :: 0 <= i < |s| ==> b[i] == s[i] as int
  {
    seq(|s|, i requires 0 <= i < |s| => s[i] as int)
  }

  lemma AsciiBytesInjective(a: AsciiString, b: AsciiString)
    requires AsciiBytes(a) == AsciiBytes(b)
    ensures a == b
  {
    assert |a| == |b|;
    forall i | 0 <= i < |a| ensures a[i] == b[i] {
      assert AsciiBytes(a)[i] == AsciiBytes(b)[i];
    }
  }

  /** The hashed text: `${raffleId}-${winningNumber}-${timestamp}`. */
  function DrawingPayload(raffleId: nat, winningNumber: int, timestamp: AsciiString): AsciiString {
    var a := Decimal.IntToString(raffleId);
    var b := Decimal.IntToString(winningNumber);
    IntToStringAscii(raffleId);
    IntToStringAscii(winningNumber);
    AsciiConcat("-", timestamp);
    AsciiConcat(b, "-" + timestamp);
    AsciiConcat("-", b + ("-" + timestamp));
    AsciiConcat(a, "-" + (b + ("-" + timestamp)));
    a + ("-" + (b + ("-" + timestamp)))
  }

  /** `generateDrawingHash`: the base64 text of the payload. */
  function DrawingHash(raffleId: nat, winningNumber: int, timestamp: AsciiString): string {
    Base64.Encode(AsciiBytes(DrawingPayload(raffleId, winningNumber, timestamp)))
  }

  /** In `a + x` with `a` all digits and `x` starting with a non-digit, the first non-digit is at `|a|`. */
  lemma FirstNonDigit(a: string, x: string)
    requires Decimal.AllDigits(a) && |x| > 0 && !Decimal.IsDigit(x[0])
    ensures forall i :: 0 <= i < |a| ==> Decimal.IsDigit((a + x)[i])
    ensures !Decimal.IsDigit((a + x)[|a|])
  {
  }

  /** The digits of a number followed by a non-digit determine the number and what follows. */
  lemma ReadNat(m: nat, x: string, n: nat, y: string)
    requires |x| > 0 && |y| > 0 && !Decimal.IsDigit(x[0]) && !Decimal.IsDigit(y[0])
    requires Decimal.NatToString(m) + x == Decimal.NatToString(n) + y
    ensures m == n && x == y
  {
    var a, b := Decimal.NatToString(m), Decimal.NatToString(n);
    var t := a + x;
    FirstNonDigit(a, x);
    FirstNonDigit(b, y);
    assert |a| == |b|;
    assert a == t[..|a|] && b == t[..|b|];
    Decimal.NatToStringInjective(m, n);
    assert x == t[|a|..] && y == t[|b|..];
  }

  /** The text of an integer starts with '-' exactly when the integer is negative. */
  lemma SignOfText(w: int, u: string)
    ensures (Decimal.IntToString(w) + u)[0] == '-' <==> w < 0
  {
    var d := Decimal.NatToString(if w < 0 then -w else w);
    assert Decimal.IsDigit(d[0]);
    if w >= 0 {
      assert (Decimal.IntToString(w) + u)[0] == d[0];
    }
  }

  /** `IntToString(w)` followed by a dash determines `w` and what follows the dash. */
  lemma ReadInt(w1: int, r1: string, w2: int, r2: string)
    requires Decimal.IntToString(w1) + ("-" + r1) == Decimal.IntToString(w2) + ("-" + r2)
    ensures w1 == w2 && r1 == r2
  {
    var u1, u2 := "-" + r1, "-" + r2;
    SignOfText(w1, u1);
    SignOfText(w2, u2);
    if w1 >= 0 {
      ReadNat(w1, u1, w2, u2);
    } else {
      ReadNegative(-w1, u1, -w2, u2);
    }
    assert r1 == u1[1..] && r2 == u2[1..];
  }

  lemma ReadNegative(m: nat, u1: string, n: nat, u2: string)
    requires |u1| > 0 && |u2| > 0 && u1[0] == '-' && u2[0] == '-'
    requires "-" + Decimal.NatToString(m) + u1 == "-" + Decimal.NatToString(n) + u2
    ensures m == n && u1 == u2
  {
    DropDash(Decimal.NatToString(m), u1, Decimal.NatToString(n), u2);
    ReadNat(m, u1, n, u2);
  }

  lemma DropDash(d1: string, u1: string, d2: string, u2: string)
    requires "-" + d1 + u1 == "-" + d2 + u2
    ensures d1 + u1 == d2 + u2
  {
    assert ("-" + d1 + u1)[1..] == d1 + u1;
    assert ("-" + d2 + u2)[1..] == d2 + u2;
  }

  /** The drawing hash identifies the raffle, the winning number and the instant of the draw. */
  lemma DrawingHashInjective(id1: nat, w1: int, t1: AsciiString, id2: nat, w2: int, t2: AsciiString)
    requires DrawingHash(id1, w1, t1) == DrawingHash(id2, w2, t2)
    ensures id1 == id2 && w1 == w2 && t1 == t2
  {
    var p1 := DrawingPayload(id1, w1, t1);
    var p2 := DrawingPayload(id2, w2, t2);
    Base64.EncodeInjective(AsciiBytes(p1), AsciiBytes(p2));
    AsciiBytesInjective(p1, p2);
    var rest1 := Decimal.IntToString(w1) + ("-" + t1);
    var rest2 := Decimal.IntToString(w2) + ("-" + t2);
    ReadNat(id1, "-" + rest1, id2, "-" + rest2);
    assert rest1 == ("-" + rest1)[1..] && rest2 == ("-" + rest2)[1..];
    ReadInt(w1, t1, w2, t2);
  }

  datatype DrawError = NotReadyForDraw | NoTicketsSold

  datatype DrawResult = DrawResult(raffleId: nat, winningNumber: int, drawingHash: string)

  /**
   * The draw job for one raffle: `random` is the value of `Math.random()` and
   * `timestamp` the ISO text of the instant of the draw. A failing job throws
   * and writes nothing.
   */
  function Draw(s: Store, raffleId: nat, random: real, timestamp: AsciiString): (Store, Result<DrawResult, DrawError>)
    requires 0.0 <= random < 1.0
  {
    if !(raffleId < |s.raffles| && s.raffles[raffleId].status.PENDING_DRAW?) then (s, Err(NotReadyForDraw))
    else
      match WinningNumber(PaidNumbers(s.tickets, raffleId), random)
      case None => (s, Err(NoTicketsSold))
      case Some(w) =>
        var hash := DrawingHash(raffleId, w, timestamp);
        (s.(raffles := s.raffles[raffleId := s.raffles[raffleId].(status := FINISHED, winningNumber := Some(w), drawingHash := Some(hash))]),
         Ok(DrawResult(raffleId, w, hash)))
  }

  /**
   * A draw succeeds exactly for a PENDING_DRAW raffle with at least one PAID
   * ticket. The winning number is then the number of one of its PAID tickets,
   * the raffle becomes FINISHED with that number and the drawing hash of
   * `raffleId-number-timestamp`, and nothing else changes. A failed draw
   * changes nothing.
   */
  lemma DrawSpec(s: Store, raffleId: nat, random: real, timestamp: AsciiString)
    requires 0.0 <= random < 1.0
    ensures var (s2, r) := Draw(s, raffleId, random, timestamp);
      && (r.Ok? <==> raffleId < |s.raffles| && s.raffles[raffleId].status.PENDING_DRAW? && PaidCount(s.tickets, raffleId) > 0)
      && (r.Err? ==> s2 == s)
      && (r.Ok? ==>
            && (exists t :: t in s.tickets && t.raffleId == raffleId && t.status.PAID? && t.number == r.value.winningNumber)
            && r.value.drawingHash == DrawingHash(raffleId, r.value.winningNumber, timestamp)
            && s2 == s.(raffles := s.raffles[raffleId := s.raffles[raffleId].(
                 status := FINISHED, winningNumber := Some(r.value.winningNumber), drawingHash := Some(r.value.drawingHash))]))
  {
  }

  /** A raffle is drawn at most once: once drawn it is FINISHED and a second draw fails. */
  lemma DrawOnce(s: Store, raffleId: nat, r1: real, t1: AsciiString, r2: real, t2: AsciiString)
    requires 0.0 <= r1 < 1.0 && 0.0 <= r2 < 1.0
    requires Draw(s, raffleId, r1, t1).1.Ok?
    ensures Draw(Draw(s, raffleId, r1, t1).0, raffleId, r2, t2) == (Draw(s, raffleId, r1, t1).0, Err(NotReadyForDraw))
  {
  }

  lemma DrawPreservesValid(s: Store, raffleId: nat, random: real, timestamp: AsciiString)
    requires 0.0 <= random < 1.0 && Valid(s)
    ensures Valid(Draw(s, raffleId, random, timestamp).0)
  {
    ValidTransfers(s, Draw(s, raffleId, random, timestamp).0);
  }

  /** The draw-raffle worker. */
  method DrawHandler(db: Ledger, raffleId: nat, random: real, timestamp: AsciiString)
    returns (result: Result<DrawResult, DrawError>)
    requires 0.0 <= random < 1.0
    modifies db
    ensures db.Snapshot() == Draw(old(db.Snapshot()), raffleId, random, timestamp).0
    ensures result == Draw(old(db.Snapshot()), raffleId, random, timestamp).1
  {
    if !(raffleId < |db.raffles| && db.raffles[raffleId].status.PENDING_DRAW?) {
      return Err(NotReadyForDraw);
    }
    var numbers := PaidNumbers(db.tickets, raffleId);
    if |numbers| == 0 {
      return Err(NoTicketsSold);
    }
    var w := numbers[WinningIndex(|numbers|, random)];
    var hash := DrawingHash(raffleId, w, timestamp);
    db.raffles := db.raffles[raffleId := db.raffles[raffleId].(status := FINISHED, winningNumber := Some(w), drawingHash := Some(hash))];
    result := Ok(DrawResult(raffleId, w, hash));
  }
}
