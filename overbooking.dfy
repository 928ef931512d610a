/**
 * What the reservation check does not see. `/payments/reserve` treats a
 * number as taken only once a PAID ticket holds it, so a PENDING reservation
 * blocks nobody: a second buyer can reserve the same numbers, and when both
 * PIX charges are paid the number is sold twice.
 */
module Overbooking {
  import opened Common
  import opened Store
  import opened Payments

  /** A reservation leaves every raffle's PAID tickets as they were. */
  lemma ReserveKeepsPaidTickets(s: Store, user: Option<nat>, req: ReserveRequest, externalId: string, now: int, raffleId: nat)
    ensures PaidTickets(Reserve(s, user, req, externalId, now).0.tickets, raffleId) == PaidTickets(s.tickets, raffleId)
  {
    var (s2, res) := Reserve(s, user, req, externalId, now);
    if res.Ok? {
      var added := NewTickets(req.raffleId, req.numbers, user.value, |s.transactions|, now);
      assert s2.tickets == s.tickets + added;
      FilterConcat(PaidOf(raffleId), s.tickets, added);
      FilterNone(PaidOf(raffleId), added);
    }
  }

  /** A pending reservation changes the outcome of no later reservation check. */
  lemma PendingReservationBlocksNothing(s: Store, user: Option<nat>, req: ReserveRequest, externalId: string, now: int,
                                        user2: Option<nat>, req2: ReserveRequest)
    ensures CheckReserve(Reserve(s, user, req, externalId, now).0, user2, req2) == CheckReserve(s, user2, req2)
  {
    var s2 := Reserve(s, user, req, externalId, now).0;
    ReserveKeepsPaidTickets(s, user, req, externalId, now, req2.raffleId);
    assert s2.raffles == s.raffles;
    assert PaidNumbers(s2.tickets, req2.raffleId) == PaidNumbers(s.tickets, req2.raffleId);
  }

  /**
   * Once one buyer has reserved numbers, another buyer's request for the
   * very same numbers (under a new external id) succeeds as well.
   */
  lemma DoubleBooking(s: Store, user: Option<nat>, user2: Option<nat>, req: ReserveRequest,
                      externalId: string, externalId2: string, now: int, now2: int)
    requires Reserve(s, user, req, externalId, now).1.Ok?
    requires user2.Some?
    requires externalId2 != externalId
    requires forall i :: 0 <= i < |s.transactions| ==> s.transactions[i].externalId != externalId2
    ensures var s1 := Reserve(s, user, req, externalId, now).0;
      Reserve(s1, user2, req, externalId2, now2).1.Ok?
  {
    var s1 := Reserve(s, user, req, externalId, now).0;
    ReserveAppends(s, user, req, externalId, now);
    PendingReservationBlocksNothing(s, user, req, externalId, now, user2, req);
    StillUnused(s.transactions, s1.transactions, externalId2);
    assert FindByExternalId(s1.transactions, externalId2).None?;
  }

  /** An external id no transaction carries stays unused when a transaction with another id is appended. */
  lemma StillUnused(txs: seq<Transaction>, txs2: seq<Transaction>, e: string)
    requires |txs2| == |txs| + 1 && txs2[..|txs|] == txs && txs2[|txs|].externalId != e
    requires forall i :: 0 <= i < |txs| ==> txs[i].externalId != e
    ensures forall i :: 0 <= i < |txs2| ==> txs2[i].externalId != e
  {
    forall i | 0 <= i < |txs2| ensures txs2[i].externalId != e {
      if i < |txs| {
        assert txs2[i] == txs2[..|txs|][i];
      }
    }
  }

  /**
   * Confirming transaction `i1` and then `i2` leaves tickets `k1` and `k2`,
   * two different tickets, PAID, both for number `n` of raffle `raffleId`.
   */
  predicate BothSoldAfterConfirming(s: Store, i1: nat, i2: nat, k1: nat, k2: nat, raffleId: nat, n: int) {
    && i1 < |s.transactions| && s.transactions[i1].raffleId < |s.raffles|
    && var sa := ConfirmPayment(s, i1);
    && i2 < |sa.transactions| && sa.transactions[i2].raffleId < |sa.raffles|
    && var s3 := ConfirmPayment(sa, i2);
    && k1 != k2 && k1 < |s3.tickets| && k2 < |s3.tickets|
    && s3.tickets[k1].status.PAID? && s3.tickets[k1].raffleId == raffleId && s3.tickets[k1].number == n
    && s3.tickets[k2].status.PAID? && s3.tickets[k2].raffleId == raffleId && s3.tickets[k2].number == n
  }

  /**
   * The double booking carried through: after both reservations, confirming
   * both transactions leaves two PAID tickets of the same raffle with the
   * same number.
   */
  lemma SameNumberSoldTwice(s: Store, user: Option<nat>, user2: Option<nat>, req: ReserveRequest,
                            externalId: string, externalId2: string, now: int)
    requires Reserve(s, user, req, externalId, now).1.Ok?
    requires user2.Some?
    requires externalId2 != externalId
    requires forall i :: 0 <= i < |s.transactions| ==> s.transactions[i].externalId != externalId2
    ensures var s1 := Reserve(s, user, req, externalId, now).0;
      var s2 := Reserve(s1, user2, req, externalId2, now).0;
      && |req.numbers| >= 1
      && BothSoldAfterConfirming(s2, |s.transactions|, |s.transactions| + 1,
                                 |s.tickets|, |s.tickets| + |req.numbers|, req.raffleId, req.numbers[0])
  {
    var s1 := Reserve(s, user, req, externalId, now).0;
    var s2 := Reserve(s1, user2, req, externalId2, now).0;
    TwoReservations(s, user, user2, req, externalId, externalId2, now);
    ConfirmPair(s2, |s.transactions|, |s.tickets|, |req.numbers|, req.raffleId, req.numbers[0]);
  }

  /**
   * Transactions `i1` and `i1 + 1` are both for raffle `raffleId`; ticket `k1`
   * belongs to the first and ticket `k1 + m` to the second, and both are for
   * number `n` of that raffle.
   */
  predicate PairReserved(s: Store, i1: nat, k1: nat, m: nat, raffleId: nat, n: int) {
    && m >= 1 && i1 + 1 < |s.transactions| && k1 + m < |s.tickets| && raffleId < |s.raffles|
    && s.transactions[i1].raffleId == raffleId && s.transactions[i1 + 1].raffleId == raffleId
    && s.tickets[k1].transactionId == Some(i1) && s.tickets[k1 + m].transactionId == Some(i1 + 1)
    && s.tickets[k1].raffleId == raffleId && s.tickets[k1 + m].raffleId == raffleId
    && s.tickets[k1].number == n && s.tickets[k1 + m].number == n
  }

  /** The two reservations of `SameNumberSoldTwice` leave a reserved pair for the first requested number. */
  lemma TwoReservations(s: Store, user: Option<nat>, user2: Option<nat>, req: ReserveRequest,
                        externalId: string, externalId2: string, now: int)
    requires Reserve(s, user, req, externalId, now).1.Ok?
    requires user2.Some?
    requires externalId2 != externalId
    requires forall i :: 0 <= i < |s.transactions| ==> s.transactions[i].externalId != externalId2
    ensures var s1 := Reserve(s, user, req, externalId, now).0;
      var s2 := Reserve(s1, user2, req, externalId2, now).0;
      && |req.numbers| >= 1
      && PairReserved(s2, |s.transactions|, |s.tickets|, |req.numbers|, req.raffleId, req.numbers[0])
  {
    var s1 := Reserve(s, user, req, externalId, now).0;
    DoubleBooking(s, user, user2, req, externalId, externalId2, now, now);
    ReserveAppends(s, user, req, externalId, now);
    ReserveAppends(s1, user2, req, externalId2, now);
    var s2 := Reserve(s1, user2, req, externalId2, now).0;
    assert s2.transactions[|s.transactions|] == s2.transactions[..|s1.transactions|][|s.transactions|];
  }

  /** Confirming both transactions of a reserved pair sells its number twice. */
  lemma ConfirmPair(s: Store, i1: nat, k1: nat, m: nat, raffleId: nat, n: int)
    requires PairReserved(s, i1, k1, m, raffleId, n)
    ensures BothSoldAfterConfirming(s, i1, i1 + 1, k1, k1 + m, raffleId, n)
  {
    var s1 := ConfirmPayment(s, i1);
    ConfirmPaymentEffect(s, i1);
    ConfirmPaymentEffect(s1, i1 + 1);
  }

  /**
   * The request schema does not ask for distinct numbers: a request naming
   * one number twice passes it, and when the reservation succeeds it stores
   * two RESERVED tickets with that number in one transaction.
   */
  lemma RepeatedNumberReservedTwice(s: Store, user: Option<nat>, raffleId: nat, n: int, externalId: string, now: int)
    requires n >= 1
    ensures ValidNumbers([n, n])
    ensures var (s2, r) := Reserve(s, user, ReserveRequest(raffleId, [n, n]), externalId, now);
      r.Ok? ==>
        var k := |s.tickets|;
        && k + 1 < |s2.tickets|
        && s2.tickets[k] == s2.tickets[k + 1]
        && s2.tickets[k].number == n && s2.tickets[k].status == RESERVED
  {
    var req := ReserveRequest(raffleId, [n, n]);
    if Reserve(s, user, req, externalId, now).1.Ok? {
      ReserveSucceeds(s, user, req, externalId, now);
    }
  }
}
