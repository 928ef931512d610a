/**
 * The creator routes under `/raffles`: create, activate, update, cancel, the
 * creator dashboard and the creator's raffle list. Every route first requires
 * the CREATOR role; the mutating routes then look the raffle up by id, owner
 * and status, so a raffle that is PENDING_DRAW, FINISHED or CANCELED is never
 * changed here.
 */
module Raffles {
  import opened Common
  import opened Store
  import opened Stats
  import Payments

  /** `requireCreator`: the request carries a user whose roles include CREATOR. */
  predicate RequireCreator(caller: Option<Caller>) {
    caller.Some? && CREATOR in caller.value.roles
  }

  datatype RaffleField = Titulo | Descricao | ValorUnitario | TotalNumeros | DataSorteio | ImageUrl

  datatype RaffleError =
    | Forbidden                                   // 403, no CREATOR role
    | InvalidData                                 // 400, the schema rejects the body
    | DateNotFuture                               // 400
    | DateTooFar                                  // 400, more than 90 days ahead
    | NotFound                                    // 404, no owned raffle in an allowed status
    | FieldsMissing(fields: seq<RaffleField>)     // 400, activation without required fields

  // ---------------------------------------------------------------------------
  // Create
  // ---------------------------------------------------------------------------

  /** A create request after parsing; the price is in cents and the date in ms. */
  datatype RaffleInput = RaffleInput(
    titulo: string,
    descricao: Option<string>,
    valorUnitario: int,
    totalNumeros: int,
    dataSorteio: int,
    imageUrl: Option<string>)

  /** `z.string().min(3).max(100)`: zod measures the JavaScript length. */
  predicate TituloOk(t: string) { 3 <= JsLength(t) <= 100 }
  predicate PriceOk(cents: int) { cents >= 100 }
  predicate CountOk(n: int) { 1 <= n <= 10000 }

  /** `createRaffleSchema`: title of 3 to 100 UTF-16 units, price at least 1.00, 1 to 10000 numbers. */
  predicate CreateSchemaOk(input: RaffleInput) {
    TituloOk(input.titulo) && PriceOk(input.valorUnitario) && CountOk(input.totalNumeros)
  }

  /** A title of two emoji is four UTF-16 units long and passes the schema, while one emoji does not. */
  lemma EmojiTitleLength()
    ensures TituloOk("\U{1F600}\U{1F600}")
    ensures !TituloOk("\U{1F600}")
  {
    assert "\U{1F600}\U{1F600}"[1..] == "\U{1F600}";
    assert "\U{1F600}"[1..] == "";
  }

  /** The draw date is after `now` and at most 90 days after it. */
  predicate DrawDateOk(date: int, now: int) {
    now < date <= now + MaxDrawHorizonMs
  }

  /** `POST /raffles`: checks, then stores a DRAFT raffle owned by the caller; the result is its id. */
  function Create(s: Store, caller: Option<Caller>, input: RaffleInput, now: int): (Store, Result<nat, RaffleError>) {
    if !RequireCreator(caller) then (s, Err(Forbidden))
    else if !CreateSchemaOk(input) then (s, Err(InvalidData))
    else if input.dataSorteio <= now then (s, Err(DateNotFuture))
    else if input.dataSorteio > now + MaxDrawHorizonMs then (s, Err(DateTooFar))
    else
      var raffle := Raffle(input.titulo, input.descricao, input.valorUnitario, input.totalNumeros, input.dataSorteio,
                           input.imageUrl, DRAFT, caller.value.id, None, None, now);
      (s.(raffles := s.raffles + [raffle]), Ok(|s.raffles|))
  }

  /**
   * Create succeeds exactly for a creator with a valid body and a draw date
   * in `(now, now + 90 days]`; it then appends one DRAFT raffle owned by the
   * caller and carrying the input, and changes nothing else. A failure changes
   * nothing.
   */
  lemma CreateSpec(s: Store, caller: Option<Caller>, input: RaffleInput, now: int)
    ensures var (s2, r) := Create(s, caller, input, now);
      && (r.Ok? <==> RequireCreator(caller) && CreateSchemaOk(input) && DrawDateOk(input.dataSorteio, now))
      && (r.Err? ==> s2 == s)
      && (r.Ok? ==>
            && r.value == |s.raffles|
            && s2.users == s.users && s2.tickets == s.tickets && s2.transactions == s.transactions
            && |s2.raffles| == |s.raffles| + 1 && s2.raffles[..|s.raffles|] == s.raffles
            && var created := s2.raffles[r.value];
               && created.status == DRAFT && created.creatorId == caller.value.id
               && created.titulo == input.titulo && created.descricao == input.descricao
               && created.valorUnitario == input.valorUnitario && created.totalNumeros == input.totalNumeros
               && created.dataSorteio == input.dataSorteio && created.imageUrl == input.imageUrl
               && created.winningNumber.None? && created.drawingHash.None? && created.createdAt == now)
  {
    var (s2, r) := Create(s, caller, input, now);
    if r.Ok? {
      assert s2.raffles[..|s.raffles|] == s.raffles;
    }
  }

  /** A raffle stored by Create satisfies the integrity constraints when its caller is a stored user. */
  lemma CreatePreservesValid(s: Store, caller: Option<Caller>, input: RaffleInput, now: int)
    requires Valid(s)
    requires caller.Some? ==> caller.value.id < |s.users|
    ensures Valid(Create(s, caller, input, now).0)
  {
    var s2 := Create(s, caller, input, now).0;
    forall k | 0 <= k < |s2.tickets| ensures TicketLinked(s2, s2.tickets[k]) {
      assert TicketLinked(s, s.tickets[k]);
    }
    forall i | 0 <= i < |s2.transactions| ensures TransactionLinked(s2, i) {
      assert TransactionLinked(s, i);
    }
  }

  method CreateHandler(db: Ledger, caller: Option<Caller>, input: RaffleInput, now: int)
    returns (result: Result<nat, RaffleError>)
    modifies db
    ensures db.Snapshot() == Create(old(db.Snapshot()), caller, input, now).0
    ensures result == Create(old(db.Snapshot()), caller, input, now).1
  {
    if !RequireCreator(caller) {
      return Err(Forbidden);
    }
    if !CreateSchemaOk(input) {
      return Err(InvalidData);
    }
    if input.dataSorteio <= now {
      return Err(DateNotFuture);
    }
    if input.dataSorteio > now + MaxDrawHorizonMs {
      return Err(DateTooFar);
    }
    result := Ok(|db.raffles|);
    db.raffles := db.raffles + [Raffle(input.titulo, input.descricao, input.valorUnitario, input.totalNumeros,
                                       input.dataSorteio, input.imageUrl, DRAFT, caller.value.id, None, None, now)];
  }

  // ---------------------------------------------------------------------------
  // Activation
  // ---------------------------------------------------------------------------

  const RequiredFields: seq<RaffleField> := [Titulo, Descricao, ValorUnitario, TotalNumeros, DataSorteio, ImageUrl]

  /** JavaScript truthiness of a stored field; a date object is always truthy. */
  predicate Present(r: Raffle, f: RaffleField) {
    match f
    case Titulo => r.titulo != ""
    case Descricao => r.descricao.Some? && r.descricao.value != ""
    case ValorUnitario => r.valorUnitario != 0
    case TotalNumeros => r.totalNumeros != 0
    case DataSorteio => true
    case ImageUrl => r.imageUrl.Some? && r.imageUrl.value != ""
  }

  function MissingIn(r: Raffle): RaffleField -> bool {
    f => !Present(r, f)
  }

  /** The required fields that are falsy, in the order of the required-field list. */
  lemma EveryFieldRequired(f: RaffleField)
    ensures f in RequiredFields
  {
    match f
    case Titulo => assert RequiredFields[0] == f;
    case Descricao => assert RequiredFields[1] == f;
    case ValorUnitario => assert RequiredFields[2] == f;
    case TotalNumeros => assert RequiredFields[3] == f;
    case DataSorteio => assert RequiredFields[4] == f;
    case ImageUrl => assert RequiredFields[5] == f;
  }

  function MissingFields(r: Raffle): (m: seq<RaffleField>)
    ensures forall f :: f in m <==> !Present(r, f)
    ensures IsSubsequence(m, RequiredFields)
  {
    FilterIsSubsequence(MissingIn(r), RequiredFields);
    forall f ensures f in RequiredFields { EveryFieldRequired(f); }
    Filter(MissingIn(r), RequiredFields)
  }

  /**
   * `canActivateRaffle`: `None` when the raffle may be activated, otherwise
   * the first failing check, in the order fields, date in the past, date too far.
   */
  function CanActivate(r: Raffle, now: int): (e: Option<RaffleError>)
    ensures e.None? <==> (forall f :: Present(r, f)) && DrawDateOk(r.dataSorteio, now)
    ensures (exists f :: !Present(r, f)) ==> e == Some(FieldsMissing(MissingFields(r)))
    ensures (forall f :: Present(r, f)) && r.dataSorteio <= now ==> e == Some(DateNotFuture)
    ensures (forall f :: Present(r, f)) && r.dataSorteio > now + MaxDrawHorizonMs ==> e == Some(DateTooFar)
  {
    var missing := MissingFields(r);
    if |missing| > 0 then Some(FieldsMissing(missing))
    else
      if r.dataSorteio <= now then Some(DateNotFuture)
      else if r.dataSorteio > now + MaxDrawHorizonMs then Some(DateTooFar)
      else None
  }

  /** The raffle `id` exists, belongs to `owner` and is in one of `statuses`. */
  predicate OwnedIn(s: Store, owner: nat, id: nat, statuses: set<RaffleStatus>) {
    id < |s.raffles| && s.raffles[id].creatorId == owner && s.raffles[id].status in statuses
  }

  /**
   * The promotion in the activate transaction: the caller's roles, as the
   * request carried them, with CREATOR appended.
   */
  function PromoteToCreator(users: seq<User>, c: Caller): (r: seq<User>)
    ensures |r| == |users|
    ensures forall k :: 0 <= k < |users| && k != c.id ==> r[k] == users[k]
    ensures c.id < |users| ==> r[c.id] == users[c.id].(roles := c.roles + [CREATOR])
  {
    if c.id < |users| then users[c.id := users[c.id].(roles := c.roles + [CREATOR])] else users
  }

  /** Promotion keeps the existing roles in order and, when CREATOR was absent, holds it exactly once. */
  lemma PromotionAddsCreatorOnce(users: seq<User>, c: Caller)
    requires c.id < |users| && CREATOR !in c.roles
    ensures var roles := PromoteToCreator(users, c)[c.id].roles;
      roles[..|c.roles|] == c.roles && multiset(roles)[CREATOR] == 1
  {
    var roles := PromoteToCreator(users, c)[c.id].roles;
    assert roles == c.roles + [CREATOR];
    assert roles[..|c.roles|] == c.roles;
    assert multiset(roles) == multiset(c.roles) + multiset{CREATOR};
  }

  /** `PATCH /raffles/:id/activate`. */
  function Activate(s: Store, caller: Option<Caller>, id: nat, now: int): (Store, Result<nat, RaffleError>) {
    if !RequireCreator(caller) then (s, Err(Forbidden))
    else
      var c := caller.value;
      if !OwnedIn(s, c.id, id, {DRAFT}) then (s, Err(NotFound))
      else
        match CanActivate(s.raffles[id], now)
        case Some(e) => (s, Err(e))
        case None =>
          var users := if CREATOR in c.roles then s.users else PromoteToCreator(s.users, c);
          (Store(users, s.raffles[id := s.raffles[id].(status := ACTIVE)], s.tickets, s.transactions), Ok(id))
  }

  /**
   * Activation succeeds exactly for a creator's own DRAFT raffle that passes
   * `canActivateRaffle`, and then changes only that raffle's status, to
   * ACTIVE. The role promotion never runs: the CREATOR check has already
   * passed, so the users are unchanged.
   */
  lemma ActivateSpec(s: Store, caller: Option<Caller>, id: nat, now: int)
    ensures var (s2, r) := Activate(s, caller, id, now);
      && (r.Ok? <==> RequireCreator(caller) && OwnedIn(s, caller.value.id, id, {DRAFT}) && CanActivate(s.raffles[id], now).None?)
      && (r.Err? ==> s2 == s)
      && (r.Ok? ==> s2 == s.(raffles := s.raffles[id := s.raffles[id].(status := ACTIVE)]))
  {
  }

  method ActivateHandler(db: Ledger, caller: Option<Caller>, id: nat, now: int)
    returns (result: Result<nat, RaffleError>)
    modifies db
    ensures db.Snapshot() == Activate(old(db.Snapshot()), caller, id, now).0
    ensures result == Activate(old(db.Snapshot()), caller, id, now).1
  {
    if !RequireCreator(caller) {
      return Err(Forbidden);
    }
    var c := caller.value;
    if !OwnedIn(db.Snapshot(), c.id, id, {DRAFT}) {
      return Err(NotFound);
    }
    var users := db.users;
    var blocked := CanActivate(db.raffles[id], now);
    if blocked.Some? {
      return Err(blocked.value);
    }
    db.raffles := db.raffles[id := db.raffles[id].(status := ACTIVE)];
    // the promotion inside the same transaction; dead, since the caller holds CREATOR
    db.users := if CREATOR in c.roles then users else PromoteToCreator(users, c);
    result := Ok(id);
  }

  // ---------------------------------------------------------------------------
  // Update
  // ---------------------------------------------------------------------------

  /** `updateRaffleSchema`: every field optional; a field that is present obeys the create schema. */
  datatype RafflePatch = RafflePatch(
    titulo: Option<string>,
    descricao: Option<string>,
    valorUnitario: Option<int>,
    totalNumeros: Option<int>,
    dataSorteio: Option<int>,
    imageUrl: Option<string>)

  predicate PatchOk(p: RafflePatch) {
    && (p.titulo.Some? ==> TituloOk(p.titulo.value))
    && (p.valorUnitario.Some? ==> PriceOk(p.valorUnitario.value))
    && (p.totalNumeros.Some? ==> CountOk(p.totalNumeros.value))
  }

  /** Overwrites the fields the patch carries; absent fields are left as they are. */
  function ApplyPatch(r: Raffle, p: RafflePatch): Raffle {
    r.(titulo := p.titulo.GetOr(r.titulo),
       descricao := if p.descricao.Some? then p.descricao else r.descricao,
       valorUnitario := p.valorUnitario.GetOr(r.valorUnitario),
       totalNumeros := p.totalNumeros.GetOr(r.totalNumeros),
       dataSorteio := p.dataSorteio.GetOr(r.dataSorteio),
       imageUrl := if p.imageUrl.Some? then p.imageUrl else r.imageUrl)
  }

  /** `PATCH /raffles/:id`. The draw date is not checked here; activation checks it. */
  function Update(s: Store, caller: Option<Caller>, id: nat, patch: RafflePatch): (Store, Result<nat, RaffleError>) {
    if !RequireCreator(caller) then (s, Err(Forbidden))
    else if !PatchOk(patch) then (s, Err(InvalidData))
    else if !OwnedIn(s, caller.value.id, id, {DRAFT}) then (s, Err(NotFound))
    else (s.(raffles := s.raffles[id := ApplyPatch(s.raffles[id], patch)]), Ok(id))
  }

  /**
   * Update succeeds exactly for a creator's own DRAFT raffle with a valid
   * patch. Each patched field takes the new value, every other field keeps
   * its value, the raffle stays DRAFT, and nothing else changes.
   */
  lemma UpdateSpec(s: Store, caller: Option<Caller>, id: nat, patch: RafflePatch)
    ensures var (s2, r) := Update(s, caller, id, patch);
      && (r.Ok? <==> RequireCreator(caller) && PatchOk(patch) && OwnedIn(s, caller.value.id, id, {DRAFT}))
      && (r.Err? ==> s2 == s)
      && (r.Ok? ==>
            && s2.users == s.users && s2.tickets == s.tickets && s2.transactions == s.transactions
            && |s2.raffles| == |s.raffles|
            && (forall k :: 0 <= k < |s.raffles| && k != id ==> s2.raffles[k] == s.raffles[k])
            && var before, after := s.raffles[id], s2.raffles[id];
               && after.titulo == (if patch.titulo.Some? then patch.titulo.value else before.titulo)
               && after.descricao == (if patch.descricao.Some? then patch.descricao else before.descricao)
               && after.valorUnitario == (if patch.valorUnitario.Some? then patch.valorUnitario.value else before.valorUnitario)
               && after.totalNumeros == (if patch.totalNumeros.Some? then patch.totalNumeros.value else before.totalNumeros)
               && after.dataSorteio == (if patch.dataSorteio.Some? then patch.dataSorteio.value else before.dataSorteio)
               && after.imageUrl == (if patch.imageUrl.Some? then patch.imageUrl else before.imageUrl)
               && after.status == DRAFT && after.creatorId == before.creatorId
               && after.winningNumber == before.winningNumber && after.drawingHash == before.drawingHash
               && after.createdAt == before.createdAt)
  {
  }

  /** An update keeps the integrity constraints: the patched price and count obey the schema. */
  lemma UpdatePreservesValid(s: Store, caller: Option<Caller>, id: nat, patch: RafflePatch)
    requires Valid(s)
    ensures Valid(Update(s, caller, id, patch).0)
  {
    var s2 := Update(s, caller, id, patch).0;
    forall k | 0 <= k < |s2.tickets| ensures TicketLinked(s2, s2.tickets[k]) {
      assert TicketLinked(s, s.tickets[k]);
    }
    forall i | 0 <= i < |s2.transactions| ensures TransactionLinked(s2, i) {
      assert TransactionLinked(s, i);
    }
  }

  method UpdateHandler(db: Ledger, caller: Option<Caller>, id: nat, patch: RafflePatch)
    returns (result: Result<nat, RaffleError>)
    modifies db
    ensures db.Snapshot() == Update(old(db.Snapshot()), caller, id, patch).0
    ensures result == Update(old(db.Snapshot()), caller, id, patch).1
  {
    if !RequireCreator(caller) {
      return Err(Forbidden);
    }
    if !PatchOk(patch) {
      return Err(InvalidData);
    }
    if !OwnedIn(db.Snapshot(), caller.value.id, id, {DRAFT}) {
      return Err(NotFound);
    }
    db.raffles := db.raffles[id := ApplyPatch(db.raffles[id], patch)];
    result := Ok(id);
  }

  // ---------------------------------------------------------------------------
  // Cancel
  // ---------------------------------------------------------------------------

  /** `PATCH /raffles/:id/cancel`. */
  function Cancel(s: Store, caller: Option<Caller>, id: nat): (Store, Result<nat, RaffleError>) {
    if !RequireCreator(caller) then (s, Err(Forbidden))
    else if !OwnedIn(s, caller.value.id, id, {DRAFT, ACTIVE}) then (s, Err(NotFound))
    else (s.(raffles := s.raffles[id := s.raffles[id].(status := RaffleStatus.CANCELED)]), Ok(id))
  }

  /**
   * Cancel succeeds exactly for a creator's own DRAFT or ACTIVE raffle and
   * changes only its status. It does not cascade: every ticket and every
   * transaction of the raffle, RESERVED, PAID or PENDING, is left as it was.
   */
  lemma CancelSpec(s: Store, caller: Option<Caller>, id: nat)
    ensures var (s2, r) := Cancel(s, caller, id);
      && (r.Ok? <==> RequireCreator(caller) && OwnedIn(s, caller.value.id, id, {DRAFT, ACTIVE}))
      && (r.Err? ==> s2 == s)
      && (r.Ok? ==> s2 == s.(raffles := s.raffles[id := s.raffles[id].(status := RaffleStatus.CANCELED)]))
      && s2.tickets == s.tickets && s2.transactions == s.transactions
  {
  }

  method CancelHandler(db: Ledger, caller: Option<Caller>, id: nat)
    returns (result: Result<nat, RaffleError>)
    modifies db
    ensures db.Snapshot() == Cancel(old(db.Snapshot()), caller, id).0
    ensures result == Cancel(old(db.Snapshot()), caller, id).1
  {
    if !RequireCreator(caller) {
      return Err(Forbidden);
    }
    if !OwnedIn(db.Snapshot(), caller.value.id, id, {DRAFT, ACTIVE}) {
      return Err(NotFound);
    }
    db.raffles := db.raffles[id := db.raffles[id].(status := RaffleStatus.CANCELED)];
    result := Ok(id);
  }

  // ---------------------------------------------------------------------------
  // The three mutating routes together
  // ---------------------------------------------------------------------------

  datatype RaffleCommand = ActivateCmd(id: nat) | UpdateCmd(id: nat, patch: RafflePatch) | CancelCmd(id: nat)

  function Apply(s: Store, caller: Option<Caller>, cmd: RaffleCommand, now: int): (Store, Result<nat, RaffleError>) {
    match cmd
    case ActivateCmd(id) => Activate(s, caller, id, now)
    case UpdateCmd(id, patch) => Update(s, caller, id, patch)
    case CancelCmd(id) => Cancel(s, caller, id)
  }

  /** The statuses each route may start from, and the status it leaves behind. */
  function SourceStatuses(cmd: RaffleCommand): set<RaffleStatus> {
    match cmd
    case ActivateCmd(_) => {DRAFT}
    case UpdateCmd(_, _) => {DRAFT}
    case CancelCmd(_) => {DRAFT, ACTIVE}
  }

  function TargetStatus(cmd: RaffleCommand): RaffleStatus {
    match cmd
    case ActivateCmd(_) => ACTIVE
    case UpdateCmd(_, _) => DRAFT
    case CancelCmd(_) => RaffleStatus.CANCELED
  }

  /**
   * Whatever the route, caller or id: a caller without the CREATOR role
   * changes nothing; only the named raffle can change, only when the caller
   * owns it and it is in one of the route's source statuses, and its new
   * status is the route's target. In particular a PENDING_DRAW, FINISHED or
   * CANCELED raffle is never changed, and no route here touches users,
   * tickets or transactions.
   */
  lemma RaffleRoutesRespectLifecycle(s: Store, caller: Option<Caller>, cmd: RaffleCommand, now: int, k: nat)
    requires k < |s.raffles|
    ensures var s2 := Apply(s, caller, cmd, now).0;
      && (!RequireCreator(caller) ==> s2 == s)
      && s2.users == s.users && s2.tickets == s.tickets && s2.transactions == s.transactions
      && |s2.raffles| == |s.raffles|
      && (s2.raffles[k] != s.raffles[k] ==>
            k == cmd.id && caller.Some? && s.raffles[k].creatorId == caller.value.id
            && s.raffles[k].status in SourceStatuses(cmd) && s2.raffles[k].status == TargetStatus(cmd))
      && (s.raffles[k].status in {PENDING_DRAW, FINISHED, RaffleStatus.CANCELED} ==> s2.raffles[k] == s.raffles[k])
  {
    match cmd
    case ActivateCmd(id) => ActivateSpec(s, caller, id, now);
    case UpdateCmd(id, patch) => UpdateSpec(s, caller, id, patch);
    case CancelCmd(id) => CancelSpec(s, caller, id);
  }

  // ---------------------------------------------------------------------------
  // Dashboard and raffle list
  // ---------------------------------------------------------------------------

  function OwnedBy(raffles: seq<Raffle>, creator: nat): nat -> bool {
    (k: nat) => k < |raffles| && raffles[k].creatorId == creator
  }

  /** The ids of a creator's raffles, newest first. */
  function CreatorRaffleIds(raffles: seq<Raffle>, creator: nat): (r: seq<nat>)
    ensures forall k: nat :: k in r <==> k < |raffles| && raffles[k].creatorId == creator
    ensures forall i, j :: 0 <= i < j < |r| ==> r[i] > r[j]
    ensures forall i :: 0 <= i < |r| ==> r[i] < |raffles|
  {
    IdsNewestFirst(|raffles|, OwnedBy(raffles, creator))
  }

  function ByCreator(creator: nat, status: Option<RaffleStatus>): Raffle -> bool {
    (r: Raffle) => r.creatorId == creator && (status.Some? ==> r.status == status.value)
  }

  /** `raffle.count({ where: { creatorId, status? } })`. */
  function CountRaffles(raffles: seq<Raffle>, creator: nat, status: Option<RaffleStatus>): nat {
    |Filter(ByCreator(creator, status), raffles)|
  }

  /** The sum of `f` over a list of transactions (`_sum` / `reduce`). */
  function SumOf(txs: seq<Transaction>, f: Transaction -> int): int {
    if txs == [] then 0 else f(txs[0]) + SumOf(txs[1..], f)
  }

  lemma {:induction false} SumOfConcat(a: seq<Transaction>, b: seq<Transaction>, f: Transaction -> int)
    ensures SumOf(a + b, f) == SumOf(a, f) + SumOf(b, f)
  {
    if a == [] {
      assert a + b == b;
    } else {
      assert (a + b)[1..] == a[1..] + b;
      SumOfConcat(a[1..], b, f);
    }
  }

  function NetValueOf(tx: Transaction): int { tx.netValue }
  function ServiceFeeOf(tx: Transaction): int { tx.serviceFee }
  function GatewayFeeOf(tx: Transaction): int { tx.gatewayFee }
  function AmountOf(tx: Transaction): int { tx.amount }

  /** `transaction.aggregate({ where: { buyerId, status: 'PAID' } })`: what the dashboard totals select. */
  function PaidBuyerTransaction(buyer: nat): Transaction -> bool {
    (tx: Transaction) => tx.buyerId == buyer && tx.status.PAID?
  }

  /** `raffle.transactions` filtered to PAID: the paid sales of one raffle. */
  function PaidSaleOf(raffleId: nat): Transaction -> bool {
    (tx: Transaction) => tx.raffleId == raffleId && tx.status.PAID?
  }

  datatype Metrics = Metrics(
    totalRaffles: nat,
    activeRaffles: nat,
    finishedRaffles: nat,
    totalRevenue: int,
    totalServiceFees: int,
    totalGatewayFees: int,
    netProfit: int)

  /** One raffle in the creator's lists, with its figures. */
  datatype RaffleSummary = RaffleSummary(
    id: nat,
    raffle: Raffle,
    soldTickets: nat,
    progressPercentage: Option<int>,
    totalRevenue: int)

  datatype DashboardView = DashboardView(metrics: Metrics, raffles: seq<RaffleSummary>)

  function Summary(s: Store, id: nat): RaffleSummary
    requires id < |s.raffles|
  {
    var sold := SoldTickets(s, id);
    RaffleSummary(id, s.raffles[id], sold, ProgressPercentage(sold, s.raffles[id].totalNumeros),
                  SumOf(Filter(PaidSaleOf(id), s.transactions), NetValueOf))
  }

  function Summaries(s: Store, ids: seq<nat>): (r: seq<RaffleSummary>)
    requires forall i :: 0 <= i < |ids| ==> ids[i] < |s.raffles|
    ensures |r| == |ids| && forall i :: 0 <= i < |ids| ==> r[i] == Summary(s, ids[i])
  {
    seq(|ids|, i requires 0 <= i < |ids| => Summary(s, ids[i]))
  }

  /** The totals from a selection of PAID transactions; `netProfit` is revenue minus both fee totals. */
  function MetricsOf(s: Store, creator: nat, paid: seq<Transaction>): Metrics {
    var revenue := SumOf(paid, NetValueOf);
    var service := SumOf(paid, ServiceFeeOf);
    var gateway := SumOf(paid, GatewayFeeOf);
    Metrics(CountRaffles(s.raffles, creator, None), CountRaffles(s.raffles, creator, Some(ACTIVE)),
            CountRaffles(s.raffles, creator, Some(FINISHED)), revenue, service, gateway, revenue - service - gateway)
  }

  /**
   * `GET /raffles/dashboard` as written: the money totals are aggregated over
   * the PAID transactions whose BUYER is the creator, while each raffle's
   * revenue sums the PAID transactions of that raffle.
   */
  function Dashboard(s: Store, caller: Option<Caller>): (r: Result<DashboardView, RaffleError>)
    ensures r.Err? <==> !RequireCreator(caller)
    ensures r.Ok? ==>
      && r.value.metrics == MetricsOf(s, caller.value.id, Filter(PaidBuyerTransaction(caller.value.id), s.transactions))
      && var ids := CreatorRaffleIds(s.raffles, caller.value.id);
      && |r.value.raffles| == |ids|
      && forall i :: 0 <= i < |r.value.raffles| ==>
           var e := r.value.raffles[i];
           && e.id == ids[i] && e.id < |s.raffles| && e.raffle == s.raffles[ids[i]]
           && s.raffles[e.id].creatorId == caller.value.id
           && e.soldTickets == PaidCount(s.tickets, e.id)
           && e.progressPercentage == ProgressPercentage(e.soldTickets, s.raffles[e.id].totalNumeros)
           && e.totalRevenue == SumOf(Filter(PaidSaleOf(e.id), s.transactions), NetValueOf)
  {
    if !RequireCreator(caller) then Err(Forbidden)
    else
      var c := caller.value.id;
      var ids := CreatorRaffleIds(s.raffles, c);
      Ok(DashboardView(MetricsOf(s, c, Filter(PaidBuyerTransaction(c), s.transactions)), Summaries(s, ids)))
  }

  /** One raffle in the creator's raffle list, with its sold count and progress. */
  datatype RaffleProgress = RaffleProgress(id: nat, raffle: Raffle, soldTickets: nat, progressPercentage: Option<int>)

  /**
   * `GET /raffles/my-raffles`: exactly the creator's raffles (see
   * `CreatorRaffleIds`), newest first, each with its sold count and progress.
   */
  function MyRaffles(s: Store, caller: Option<Caller>): (r: Result<seq<RaffleProgress>, RaffleError>)
    ensures r.Err? <==> !RequireCreator(caller)
    ensures r.Ok? ==>
      var ids := CreatorRaffleIds(s.raffles, caller.value.id);
      && |r.value| == |ids|
      && forall i :: 0 <= i < |ids| ==>
           && r.value[i].id == ids[i] && ids[i] < |s.raffles|
           && r.value[i].raffle == s.raffles[ids[i]]
           && r.value[i].soldTickets == PaidCount(s.tickets, ids[i])
           && r.value[i].progressPercentage == ProgressPercentage(PaidCount(s.tickets, ids[i]), s.raffles[ids[i]].totalNumeros)
  {
    if !RequireCreator(caller) then Err(Forbidden)
    else
      var ids := CreatorRaffleIds(s.raffles, caller.value.id);
      Ok(seq(|ids|, i requires 0 <= i < |ids| =>
        RaffleProgress(ids[i], s.raffles[ids[i]], SoldTickets(s, ids[i]),
                       ProgressPercentage(SoldTickets(s, ids[i]), s.raffles[ids[i]].totalNumeros))))
  }
  // ---------------------------------------------------------------------------
  // Dashboard totals: as written and corrected
  // ---------------------------------------------------------------------------

  /**
   * A creator (user 0) whose raffle sold one number for 30.00 to another
   * user (user 1): as written, the dashboard's revenue metric is 0, because it
   * sums the creator's own purchases, while the raffle's line shows 28.20.
   */
  lemma DashboardCountsPurchasesNotSales()
    ensures var s := Store(
        [User("creator@x", "Creator", [CREATOR]), User("buyer@x", "Buyer", [BUYER])],
        [Raffle("Rifa", Some("desc"), 1000, 100, 0, Some("img"), ACTIVE, 0, None, None, 0)],
        [Ticket(0, 1, Some(1), TicketStatus.PAID, Some(0), 0)],
        [Transaction([0], 3000, 150, 30, 2820, "ext", 1, 0, TransactionStatus.PAID, None, None, 0)]);
      var d := Dashboard(s, Some(Caller(0, [CREATOR])));
      && d.Ok? && d.value.metrics.totalRevenue == 0 && d.value.metrics.netProfit == 0
      && |d.value.raffles| == 1 && d.value.raffles[0].totalRevenue == 2820
  {
    var tx := Transaction([0], 3000, 150, 30, 2820, "ext", 1, 0, TransactionStatus.PAID, None, None, 0);
    var s := Store(
        [User("creator@x", "Creator", [CREATOR]), User("buyer@x", "Buyer", [BUYER])],
        [Raffle("Rifa", Some("desc"), 1000, 100, 0, Some("img"), ACTIVE, 0, None, None, 0)],
        [Ticket(0, 1, Some(1), TicketStatus.PAID, Some(0), 0)],
        [tx]);
    assert s.transactions[1..] == [];
    assert Filter(PaidBuyerTransaction(0), s.transactions) == [];
    assert Filter(PaidSaleOf(0), s.transactions) == [tx];
    assert CreatorRaffleIds(s.raffles, 0) == [0] by {
      assert 0 in CreatorRaffleIds(s.raffles, 0);
    }
  }

  /**
   * As written, `netProfit` subtracts the fees from the net values, which
   * already exclude them: one 30.00 sale nets the creator 28.20 but reports a
   * profit of 26.40.
   */
  lemma NetProfitDeductsFeesTwice()
    ensures var tx := Transaction([0], 3000, 150, 30, 2820, "ext", 1, 0, TransactionStatus.PAID, None, None, 0);
      var m := MetricsOf(Store([], [], [], [tx]), 0, [tx]);
      m.totalRevenue == 2820 && m.netProfit == 2640
  {
    var tx := Transaction([0], 3000, 150, 30, 2820, "ext", 1, 0, TransactionStatus.PAID, None, None, 0);
    assert [tx][1..] == [];
  }

  /** A PAID transaction of one of the creator's raffles: a sale, whoever bought. */
  function SaleOfCreator(raffles: seq<Raffle>, creator: nat): Transaction -> bool {
    (tx: Transaction) => tx.raffleId < |raffles| && raffles[tx.raffleId].creatorId == creator && tx.status.PAID?
  }

  /**
   * The dashboard totals as intended: over the PAID transactions of the
   * creator's raffles, with the profit taken as gross amount minus both fees.
   */
  function CorrectedMetrics(s: Store, creator: nat): Metrics {
    var sales := Filter(SaleOfCreator(s.raffles, creator), s.transactions);
    var service := SumOf(sales, ServiceFeeOf);
    var gateway := SumOf(sales, GatewayFeeOf);
    Metrics(CountRaffles(s.raffles, creator, None), CountRaffles(s.raffles, creator, Some(ACTIVE)),
            CountRaffles(s.raffles, creator, Some(FINISHED)), SumOf(sales, NetValueOf), service, gateway,
            SumOf(sales, AmountOf) - service - gateway)
  }

  /** The creator dashboard with the corrected totals and the same per-raffle lines. */
  function CorrectedDashboard(s: Store, caller: Option<Caller>): (r: Result<DashboardView, RaffleError>)
    ensures r.Err? <==> !RequireCreator(caller)
    ensures r.Ok? ==> r.value.metrics == CorrectedMetrics(s, caller.value.id)
    ensures r.Ok? ==> r.value.raffles == Dashboard(s, caller).value.raffles
  {
    if !RequireCreator(caller) then Err(Forbidden)
    else
      var c := caller.value.id;
      Ok(DashboardView(CorrectedMetrics(s, c), Summaries(s, CreatorRaffleIds(s.raffles, c))))
  }

  /**
   * Recording one more transaction raises the corrected revenue by its net
   * value when it is a paid sale of the creator's raffle, and leaves it
   * unchanged otherwise, in particular for the creator's own purchases in
   * other creators' raffles.
   */
  lemma CorrectedRevenueCountsSales(s: Store, creator: nat, tx: Transaction)
    ensures var after := CorrectedMetrics(s.(transactions := s.transactions + [tx]), creator).totalRevenue;
      var before := CorrectedMetrics(s, creator).totalRevenue;
      after == if SaleOfCreator(s.raffles, creator)(tx) then before + tx.netValue else before
  {
    var p := SaleOfCreator(s.raffles, creator);
    FilterConcat(p, s.transactions, [tx]);
    var sales := Filter(p, s.transactions);
    var extra := Filter(p, [tx]);
    assert [tx][1..] == [];
    SumOfConcat(sales, extra, NetValueOf);
    if p(tx) {
      assert extra == [tx];
      assert extra[1..] == [];
    } else {
      assert extra == [];
    }
  }

  /** Every transaction in the list carries the fees `calculateFees` gives for its amount. */
  predicate FeesAsCalculated(txs: seq<Transaction>) {
    forall i :: 0 <= i < |txs| ==>
      Payments.CalculateFees(txs[i].amount) == Payments.Fees(txs[i].serviceFee, txs[i].gatewayFee, txs[i].netValue)
  }

  /** Over transactions priced by `calculateFees`, gross minus fees and the net total differ by at most a cent each. */
  lemma {:induction false} GrossMinusFeesNearNet(txs: seq<Transaction>)
    requires FeesAsCalculated(txs)
    ensures var profit := SumOf(txs, AmountOf) - SumOf(txs, ServiceFeeOf) - SumOf(txs, GatewayFeeOf);
      SumOf(txs, NetValueOf) - |txs| <= profit <= SumOf(txs, NetValueOf) + |txs|
  {
    if txs != [] {
      assert FeesAsCalculated(txs[1..]) by {
        forall i | 0 <= i < |txs[1..]| ensures
          Payments.CalculateFees(txs[1..][i].amount) == Payments.Fees(txs[1..][i].serviceFee, txs[1..][i].gatewayFee, txs[1..][i].netValue)
        {
          assert txs[1..][i] == txs[i + 1];
        }
      }
      GrossMinusFeesNearNet(txs[1..]);
      assert Payments.CalculateFees(txs[0].amount) == Payments.Fees(txs[0].serviceFee, txs[0].gatewayFee, txs[0].netValue);
      Payments.FeesSplitAmount(txs[0].amount);
    }
  }

  /**
   * With every sale priced by `calculateFees`, the corrected profit agrees with
   * the creator's net revenue up to one cent per sale.
   */
  lemma CorrectedProfitMatchesRevenue(s: Store, creator: nat)
    requires FeesAsCalculated(Filter(SaleOfCreator(s.raffles, creator), s.transactions))
    ensures var m := CorrectedMetrics(s, creator);
      var n := |Filter(SaleOfCreator(s.raffles, creator), s.transactions)|;
      m.totalRevenue - n <= m.netProfit <= m.totalRevenue + n
  {
    GrossMinusFeesNearNet(Filter(SaleOfCreator(s.raffles, creator), s.transactions));
  }
}
