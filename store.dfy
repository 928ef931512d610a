/**
 * The records the backend keeps in its relational database (users, raffles,
 * tickets, transactions) and the in-memory ledger that stands in for the
 * database client. Every table is a sequence and a record's id is its index.
 * Amounts of money are integer cents; instants are integer milliseconds.
 */
module Store {
  import opened Common

  datatype Role = ADMIN | CREATOR | BUYER

  datatype RaffleStatus = DRAFT | ACTIVE | PENDING_DRAW | FINISHED | CANCELED

  datatype TicketStatus = RESERVED | PAID | CANCELED

  datatype TransactionStatus = PENDING | PAID | EXPIRED | CANCELED

  /** A reservation is held for 15 minutes. */
  const ReservationTtlMs: int := 15 * 60 * 1000
  const ReservationTtlSeconds: int := 15 * 60

  /** A draw date may lie at most 90 days ahead. */
  const MaxDrawHorizonMs: int := 90 * 24 * 60 * 60 * 1000

  datatype User = User(email: string, name: string, roles: seq<Role>)

  /** The authenticated user a request carries (`ctx.user`): its id and the roles it was loaded with. */
  datatype Caller = Caller(id: nat, roles: seq<Role>)

  datatype Raffle = Raffle(
    titulo: string,
    descricao: Option<string>,
    valorUnitario: int,        // price of one number, in cents
    totalNumeros: int,
    dataSorteio: int,          // draw deadline, ms
    imageUrl: Option<string>,
    status: RaffleStatus,
    creatorId: nat,
    winningNumber: Option<int>,
    drawingHash: Option<string>,
    createdAt: int)

  datatype Ticket = Ticket(
    raffleId: nat,
    number: int,
    buyerId: Option<nat>,
    status: TicketStatus,
    transactionId: Option<nat>,
    createdAt: int)

  datatype Transaction = Transaction(
    ticketIds: seq<nat>,
    amount: int,
    serviceFee: int,
    gatewayFee: int,
    netValue: int,
    externalId: string,
    buyerId: nat,
    raffleId: nat,
    status: TransactionStatus,
    pixCode: Option<string>,
    expiresAt: Option<int>,
    createdAt: int)

  datatype Store = Store(
    users: seq<User>,
    raffles: seq<Raffle>,
    tickets: seq<Ticket>,
    transactions: seq<Transaction>)

  /** The predicate `where: { raffleId, status: 'PAID' }` on tickets. */
  function PaidOf(raffleId: nat): Ticket -> bool {
    (t: Ticket) => t.raffleId == raffleId && t.status.PAID?
  }

  /** The PAID tickets of a raffle, in table order. */
  function PaidTickets(tickets: seq<Ticket>, raffleId: nat): seq<Ticket> {
    Filter(PaidOf(raffleId), tickets)
  }

  /** `raffle.tickets.map(t => t.number)` for the PAID tickets: the sold numbers. */
  function PaidNumbers(tickets: seq<Ticket>, raffleId: nat): (r: seq<int>)
    ensures |r| == |PaidTickets(tickets, raffleId)|
    ensures forall n :: n in r <==> exists t :: t in tickets && t.raffleId == raffleId && t.status.PAID? && t.number == n
  {
    var paid := PaidTickets(tickets, raffleId);
    var r := seq(|paid|, i requires 0 <= i < |paid| => paid[i].number);
    assert forall n :: n in r ==> exists t :: t in tickets && t.raffleId == raffleId && t.status.PAID? && t.number == n by {
      forall n | n in r ensures exists t :: t in tickets && t.raffleId == raffleId && t.status.PAID? && t.number == n {
        var i :| 0 <= i < |paid| && r[i] == n;
        assert paid[i] in paid;
      }
    }
    assert forall n :: (exists t :: t in tickets && t.raffleId == raffleId && t.status.PAID? && t.number == n) ==> n in r by {
      forall n | exists t :: t in tickets && t.raffleId == raffleId && t.status.PAID? && t.number == n ensures n in r {
        var t :| t in tickets && t.raffleId == raffleId && t.status.PAID? && t.number == n;
        assert t in paid;
        var i :| 0 <= i < |paid| && paid[i] == t;
        assert r[i] == n;
      }
    }
    r
  }

  /** `tx.ticket.count({ where: { raffleId, status: 'PAID' } })`. */
  function PaidCount(tickets: seq<Ticket>, raffleId: nat): nat {
    |PaidTickets(tickets, raffleId)|
  }

  /** `ticket.updateMany({ where: { transactionId }, data: { status } })`. */
  function SetTicketsOf(tickets: seq<Ticket>, txId: nat, status: TicketStatus): (r: seq<Ticket>)
    ensures |r| == |tickets|
    ensures forall k :: 0 <= k < |r| ==>
      r[k] == if tickets[k].transactionId == Some(txId) then tickets[k].(status := status) else tickets[k]
  {
    seq(|tickets|, k requires 0 <= k < |tickets| =>
      if tickets[k].transactionId == Some(txId) then tickets[k].(status := status) else tickets[k])
  }

  predicate HasRole(u: User, role: Role) {
    role in u.roles
  }

  /** References between records point at existing rows. */
  ghost predicate TicketLinked(s: Store, t: Ticket) {
    && t.raffleId < |s.raffles|
    && (t.buyerId.Some? ==> t.buyerId.value < |s.users|)
    && (t.transactionId.Some? ==> t.transactionId.value < |s.transactions|)
  }

  ghost predicate TransactionLinked(s: Store, i: nat)
    requires i < |s.transactions|
  {
    var tx := s.transactions[i];
    && tx.raffleId < |s.raffles|
    && tx.buyerId < |s.users|
    && (forall k :: k in tx.ticketIds ==> k < |s.tickets| && s.tickets[k].transactionId == Some(i))
  }

  ghost predicate UniqueExternalIds(txs: seq<Transaction>) {
    forall i, j :: 0 <= i < j < |txs| ==> txs[i].externalId != txs[j].externalId
  }

  /**
   * The database's integrity constraints: foreign keys resolve, externalId is
   * unique, and every stored raffle passed the create/update schema
   * (at least one number, a price of at least 1.00).
   */
  ghost predicate Valid(s: Store) {
    && (forall r :: 0 <= r < |s.raffles| ==>
          s.raffles[r].creatorId < |s.users| && s.raffles[r].totalNumeros >= 1 && s.raffles[r].valorUnitario >= 100)
    && (forall k :: 0 <= k < |s.tickets| ==> TicketLinked(s, s.tickets[k]))
    && (forall i :: 0 <= i < |s.transactions| ==> TransactionLinked(s, i))
    && UniqueExternalIds(s.transactions)
  }

  /** `s2` differs from `s1` at most in fields that no reference depends on. */
  ghost predicate SameLinks(s1: Store, s2: Store) {
    && |s1.users| == |s2.users|
    && |s1.raffles| == |s2.raffles|
    && |s1.tickets| == |s2.tickets|
    && |s1.transactions| == |s2.transactions|
    && (forall r :: 0 <= r < |s1.raffles| ==>
          s1.raffles[r].creatorId == s2.raffles[r].creatorId
          && s1.raffles[r].totalNumeros == s2.raffles[r].totalNumeros
          && s1.raffles[r].valorUnitario == s2.raffles[r].valorUnitario)
    && (forall k :: 0 <= k < |s1.tickets| ==>
          s1.tickets[k].raffleId == s2.tickets[k].raffleId
          && s1.tickets[k].buyerId == s2.tickets[k].buyerId
          && s1.tickets[k].transactionId == s2.tickets[k].transactionId)
    && (forall i :: 0 <= i < |s1.transactions| ==>
          s1.transactions[i].raffleId == s2.transactions[i].raffleId
          && s1.transactions[i].buyerId == s2.transactions[i].buyerId
          && s1.transactions[i].ticketIds == s2.transactions[i].ticketIds
          && s1.transactions[i].externalId == s2.transactions[i].externalId)
  }

  /** Status-only updates keep the integrity constraints. */
  lemma ValidTransfers(s1: Store, s2: Store)
    requires Valid(s1) && SameLinks(s1, s2)
    ensures Valid(s2)
  {
    forall i | 0 <= i < |s2.transactions| ensures TransactionLinked(s2, i) {
      assert TransactionLinked(s1, i);
    }
    forall k | 0 <= k < |s2.tickets| ensures TicketLinked(s2, s2.tickets[k]) {
      assert TicketLinked(s1, s1.tickets[k]);
    }
  }

  /**
   * The database: one mutable table per entity. Route handlers and workers
   * take a `Ledger` and state their effect on `Snapshot()`.
   */
  class Ledger {
    var users: seq<User>
    var raffles: seq<Raffle>
    var tickets: seq<Ticket>
    var transactions: seq<Transaction>

    function Snapshot(): Store
      reads this
    {
      Store(users, raffles, tickets, transactions)
    }

    constructor ()
      ensures Snapshot() == Store([], [], [], [])
    {
      users, raffles, tickets, transactions := [], [], [], [];
    }
  }
}
