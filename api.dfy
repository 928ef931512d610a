/**
 * The routes of the application entry point: the public raffle list with its
 * query parsing and pagination, the raffle detail with its statistics, the
 * `authorize` role check and user registration.
 */
module Api {
  import opened Common
  import opened Store
  import Stats
  import Decimal

  // ---------------------------------------------------------------------------
  // Query parameters
  // ---------------------------------------------------------------------------

  /**
   * The characters `parseInt` skips before the number: ECMAScript's white
   * space (tab, vertical tab, form feed, the byte order mark and every
   * space separator) and its line terminators.
   */
  predicate IsSpace(c: char) {
    || c == '\t' || c == '\U{B}' || c == '\U{C}' || c == '\U{FEFF}'
    || c == ' ' || c == '\U{A0}' || c == '\U{1680}' || '\U{2000}' <= c <= '\U{200A}'
    || c == '\U{202F}' || c == '\U{205F}' || c == '\U{3000}'
    || c == '\n' || c == '\r' || c == '\U{2028}' || c == '\U{2029}'
  }

  /** The text without its leading white space. */
  function TrimStart(s: string): (r: string)
    ensures |r| <= |s| && r == s[|s| - |r|..]
    ensures r == [] || !IsSpace(r[0])
    ensures forall i :: 0 <= i < |s| - |r| ==> IsSpace(s[i])
  {
    if |s| > 0 && IsSpace(s[0]) then TrimStart(s[1..]) else s
  }

  /** The longest prefix made of decimal digits. */
  function DigitPrefix(s: string): (r: string)
    ensures |r| <= |s| && r == s[..|r|]
    ensures Decimal.AllDigits(r)
    ensures |r| < |s| ==> !Decimal.IsDigit(s[|r|])
  {
    if |s| > 0 && Decimal.IsDigit(s[0]) then [s[0]] + DigitPrefix(s[1..]) else []
  }

  /**
   * `parseInt(s)` in base ten: leading white space, an optional sign, then
   * the longest run of digits; `None` (NaN) when there is no digit.
   */
  function ParseInt(s: string): (r: Option<int>)
    ensures r.None? <==> DigitPrefix(SignFree(TrimStart(s))) == []
  {
    var t := TrimStart(s);
    var digits := DigitPrefix(SignFree(t));
    if |digits| == 0 then None
    else
      var v: int := Decimal.Value(digits);
      if |t| > 0 && t[0] == '-' then Some(-v) else Some(v)
  }

  /** The text after an optional leading sign. */
  function SignFree(t: string): string {
    if |t| > 0 && (t[0] == '-' || t[0] == '+') then t[1..] else t
  }

  lemma {:induction false} DigitPrefixOfDigits(d: string, x: string)
    requires Decimal.AllDigits(d)
    requires x == [] || !Decimal.IsDigit(x[0])
    ensures DigitPrefix(d + x) == d
    decreases |d|
  {
    if |d| > 0 {
      assert (d + x)[1..] == d[1..] + x;
      DigitPrefixOfDigits(d[1..], x);
      assert d == [d[0]] + d[1..];
    } else {
      assert d + x == x;
    }
  }

  /** A text starting with a digit or a sign parses as its sign and digit prefix. */
  lemma ParseDigitsAfterSign(sign: string, n: nat, x: string)
    requires sign == "" || sign == "-"
    requires x == [] || !Decimal.IsDigit(x[0])
    ensures var v: int := n;
      ParseInt(sign + (Decimal.NatToString(n) + x)) == Some(if sign == "-" then -v else v)
  {
    var d := Decimal.NatToString(n);
    var dx := d + x;
    Decimal.ValueOfNatToString(n);
    DigitPrefixOfDigits(d, x);
    assert dx[0] == d[0];
    var t := sign + dx;
    if sign == "" {
      assert t == dx;
      UnsignedTextKept(dx);
    } else {
      SignedTextKept(dx);
    }
    assert TrimStart(t) == t && SignFree(t) == dx;
    assert DigitPrefix(SignFree(TrimStart(t))) == d;
  }

  lemma UnsignedTextKept(t: string)
    requires |t| > 0 && Decimal.IsDigit(t[0])
    ensures TrimStart(t) == t && SignFree(t) == t
  {
    assert !IsSpace(t[0]) && t[0] != '-' && t[0] != '+';
  }

  lemma SignedTextKept(t: string)
    ensures TrimStart("-" + t) == "-" + t && SignFree("-" + t) == t
  {
    assert ("-" + t)[1..] == t;
  }

  /** `parseInt("\f2")` skips the form feed and reads 2. */
  lemma FormFeedSkipped()
    ensures ParseInt("\U{C}2") == Some(2)
  {
    var s, two := "\U{C}2", "2";
    assert IsSpace(s[0]) && s[1..] == two;
    assert !IsSpace(two[0]) && Decimal.IsDigit(two[0]) && two[1..] == [];
    assert TrimStart(two) == two;
    assert TrimStart(s) == two;
    assert SignFree(two) == two;
    assert DigitPrefix(two) == two;
    assert Decimal.Value(two) == 2 by {
      assert two[..0] == [];
    }
  }

  /** The text of an integer, followed by anything that does not start with a digit, parses back to it. */
  lemma ParseIntReadsBack(i: int, x: string)
    requires x == [] || !Decimal.IsDigit(x[0])
    ensures ParseInt(Decimal.IntToString(i) + x) == Some(i)
  {
    var n: nat := if i < 0 then -i else i;
    var sign := if i < 0 then "-" else "";
    var d := Decimal.NatToString(n);
    assert Decimal.IntToString(i) == sign + d;
    assert (sign + d) + x == sign + (d + x);
    ParseDigitsAfterSign(sign, n, x);
  }

  /** `parseInt(q) || fallback`: NaN, a missing value and 0 are falsy and give the fallback. */
  function QueryNumber(q: Option<string>, fallback: int): (r: int)
    ensures fallback != 0 ==> r != 0
    ensures q.None? ==> r == fallback
    ensures q.Some? && ParseInt(q.value).Some? && ParseInt(q.value).value != 0 ==> r == ParseInt(q.value).value
    ensures q.Some? && (ParseInt(q.value).None? || ParseInt(q.value).value == 0) ==> r == fallback
  {
    if q.None? then fallback
    else match ParseInt(q.value)
      case None => fallback
      case Some(v) => if v == 0 then fallback else v
  }

  /** The text of a status as the query string carries it. */
  function StatusName(st: RaffleStatus): string {
    match st
    case DRAFT => "DRAFT"
    case ACTIVE => "ACTIVE"
    case PENDING_DRAW => "PENDING_DRAW"
    case FINISHED => "FINISHED"
    case CANCELED => "CANCELED"
  }

  datatype ListError = InvalidStatus | InvalidPaging

  /**
   * `status ? { status } : {}`: a missing or empty value lists every raffle; any
   * other text must name a status, or the database rejects the query.
   */
  function StatusFilter(q: Option<string>): (r: Result<Option<RaffleStatus>, ListError>)
    ensures r == Ok(None) <==> q.None? || q.value == ""
    ensures r.Ok? && r.value.Some? ==> q == Some(StatusName(r.value.value))
    ensures r.Err? <==> q.Some? && q.value != "" && forall st :: StatusName(st) != q.value
  {
    if q.None? || q.value == "" then Ok(None)
    else if q.value == "DRAFT" then Ok(Some(DRAFT))
    else if q.value == "ACTIVE" then Ok(Some(ACTIVE))
    else if q.value == "PENDING_DRAW" then Ok(Some(PENDING_DRAW))
    else if q.value == "FINISHED" then Ok(Some(FINISHED))
    else if q.value == "CANCELED" then Ok(Some(RaffleStatus.CANCELED))
    else Err(InvalidStatus)
  }

  // ---------------------------------------------------------------------------
  // GET /raffles
  // ---------------------------------------------------------------------------

  /** `Math.ceil(total / limit)` for a positive limit. */
  function CeilDiv(total: nat, limit: int): (r: nat)
    requires limit > 0
    ensures total == 0 <==> r == 0
    ensures total > 0 ==> (r - 1) * limit < total <= r * limit
  {
    (total + limit - 1) / limit
  }

  function MatchesFilter(filter: Option<RaffleStatus>, raffles: seq<Raffle>): nat -> bool {
    (k: nat) => k < |raffles| && (filter.None? || raffles[k].status == filter.value)
  }

  /** The ids of the raffles the filter selects, newest first (`orderBy: { createdAt: 'desc' }`). */
  function Matching(s: Store, filter: Option<RaffleStatus>): (r: seq<nat>)
    ensures forall k: nat :: k in r <==> k < |s.raffles| && (filter.None? || s.raffles[k].status == filter.value)
    ensures forall i, j :: 0 <= i < j < |r| ==> r[i] > r[j]
    ensures forall i :: 0 <= i < |r| ==> r[i] < |s.raffles|
  {
    IdsNewestFirst(|s.raffles|, MatchesFilter(filter, s.raffles))
  }

  /** `skip` then `take`: the rows at positions skip, skip + 1, ... while fewer than `take` and rows remain. */
  function Window(ids: seq<nat>, skip: nat, take: nat): (r: seq<nat>)
    ensures |r| == if skip >= |ids| then 0 else if |ids| - skip < take then |ids| - skip else take
    ensures forall i :: 0 <= i < |r| ==> r[i] == ids[skip + i]
  {
    if skip >= |ids| then [] else if |ids| - skip < take then ids[skip..] else ids[skip..skip + take]
  }

  datatype ListItem = ListItem(id: nat, raffle: Raffle, soldTickets: nat, progressPercentage: Option<int>)

  datatype Pagination = Pagination(page: int, limit: int, total: nat, totalPages: nat)

  datatype ListPage = ListPage(raffles: seq<ListItem>, pagination: Pagination)

  /** One raffle with its PAID count and progress, as the list shows it. */
  function Item(s: Store, id: nat): (r: ListItem)
    requires id < |s.raffles|
    ensures r.id == id && r.raffle == s.raffles[id]
    ensures r.soldTickets == PaidCount(s.tickets, id)
    ensures r.progressPercentage.None? <==> s.raffles[id].totalNumeros == 0
    ensures s.raffles[id].totalNumeros > 0 ==>
      var total := s.raffles[id].totalNumeros;
      2 * total * r.progressPercentage.value - total <= 200 * r.soldTickets < 2 * total * r.progressPercentage.value + total
  {
    var sold := PaidCount(s.tickets, id);
    ListItem(id, s.raffles[id], sold, Stats.ProgressPercentage(sold, s.raffles[id].totalNumeros))
  }

  /** `skip: (page - 1) * limit`, the number of rows before the page. */
  function Skip(page: int, limit: int): nat
    requires page >= 1 && limit >= 1
  {
    (page - 1) * limit
  }

  /** One page of the listing for a page number and limit that are both at least 1. */
  function PageOf(s: Store, filter: Option<RaffleStatus>, page: int, limit: int): ListPage
    requires page >= 1 && limit >= 1
  {
    var ids := Matching(s, filter);
    var shown := Window(ids, Skip(page, limit), limit);
    ListPage(Rows(s, shown), Pagination(page, limit, |ids|, CeilDiv(|ids|, limit)))
  }

  /** The listed raffles, one row per id, in the order of the ids. */
  function Rows(s: Store, shown: seq<nat>): (r: seq<ListItem>)
    requires forall i :: 0 <= i < |shown| ==> shown[i] < |s.raffles|
    ensures |r| == |shown|
    ensures forall i :: 0 <= i < |shown| ==> r[i] == Item(s, shown[i])
  {
    seq(|shown|, i requires 0 <= i < |shown| => Item(s, shown[i]))
  }

  datatype Query = Query(page: Option<string>, limit: Option<string>, status: Option<string>)

  /**
   * GET /raffles. A page number below 1 makes `skip` negative and the
   * database rejects the query; a negative limit is reported the same way.
   */
  function ListRaffles(s: Store, q: Query): (r: Result<ListPage, ListError>)
    ensures r.Err? <==> StatusFilter(q.status).Err? || QueryNumber(q.page, 1) < 1 || QueryNumber(q.limit, 10) < 1
    ensures r.Ok? ==> r.value == PageOf(s, StatusFilter(q.status).value, QueryNumber(q.page, 1), QueryNumber(q.limit, 10))
  {
    var page := QueryNumber(q.page, 1);
    var limit := QueryNumber(q.limit, 10);
    match StatusFilter(q.status)
    case Err(e) => Err(e)
    case Ok(filter) =>
      if page < 1 || limit < 1 then Err(InvalidPaging)
      else Ok(PageOf(s, filter, page, limit))
  }

  /**
   * A page holds the raffles at positions `(page - 1) * limit` onwards of the
   * whole listing, at most `limit` of them, each selected by the filter, newest
   * first, each shown as its `Item`. The total
   * counts every raffle the filter selects and `totalPages` is the least number
   * of pages that holds them.
   */
  lemma PageSpec(s: Store, filter: Option<RaffleStatus>, page: int, limit: int)
    requires page >= 1 && limit >= 1
    ensures var p := PageOf(s, filter, page, limit);
      var ids := Matching(s, filter);
      var skip := Skip(page, limit);
      && |p.raffles| == (if skip >= |ids| then 0 else if |ids| - skip < limit then |ids| - skip else limit)
      && p.pagination == Pagination(page, limit, |ids|, CeilDiv(|ids|, limit))
      && (forall i :: 0 <= i < |p.raffles| ==>
            && skip + i < |ids| && p.raffles[i].id == ids[skip + i]
            && p.raffles[i].id < |s.raffles|
            && p.raffles[i] == Item(s, p.raffles[i].id)
            && (filter.None? || s.raffles[p.raffles[i].id].status == filter.value))
      && (forall i, j :: 0 <= i < j < |p.raffles| ==> p.raffles[i].id > p.raffles[j].id)
  {
    PageRows(s, filter, page, limit);
    PageOrder(s, filter, page, limit);
  }

  lemma PageRows(s: Store, filter: Option<RaffleStatus>, page: int, limit: int)
    requires page >= 1 && limit >= 1
    ensures var p := PageOf(s, filter, page, limit);
      var ids := Matching(s, filter);
      var skip := Skip(page, limit);
      forall i :: 0 <= i < |p.raffles| ==>
        && skip + i < |ids| && p.raffles[i] == Item(s, ids[skip + i])
        && (filter.None? || s.raffles[ids[skip + i]].status == filter.value)
  {
    var ids := Matching(s, filter);
    var skip := Skip(page, limit);
    WindowRows(s, ids, skip, limit);
    assert forall i :: 0 <= i < |ids| ==> ids[i] in ids;
  }

  /** The rows of a window are the items of the ids at the window's positions. */
  lemma WindowRows(s: Store, ids: seq<nat>, skip: nat, take: nat)
    requires forall i :: 0 <= i < |ids| ==> ids[i] < |s.raffles|
    ensures var r := Rows(s, Window(ids, skip, take));
      forall i :: 0 <= i < |r| ==> skip + i < |ids| && r[i] == Item(s, ids[skip + i])
  {
  }

  lemma PageOrder(s: Store, filter: Option<RaffleStatus>, page: int, limit: int)
    requires page >= 1 && limit >= 1
    ensures var p := PageOf(s, filter, page, limit);
      forall i, j :: 0 <= i < j < |p.raffles| ==> p.raffles[i].id > p.raffles[j].id
  {
    var ids := Matching(s, filter);
    var shown := Window(ids, Skip(page, limit), limit);
    WindowDescending(ids, Skip(page, limit), limit);
    RowIds(s, shown);
  }

  lemma WindowDescending(ids: seq<nat>, skip: nat, take: nat)
    requires forall i, j :: 0 <= i < j < |ids| ==> ids[i] > ids[j]
    ensures var w := Window(ids, skip, take);
      forall i, j :: 0 <= i < j < |w| ==> w[i] > w[j]
  {
    var w := Window(ids, skip, take);
    forall i, j | 0 <= i < j < |w| ensures w[i] > w[j] {
      assert w[i] == ids[skip + i] && w[j] == ids[skip + j];
    }
  }

  lemma RowIds(s: Store, shown: seq<nat>)
    requires forall i :: 0 <= i < |shown| ==> shown[i] < |s.raffles|
    ensures var r := Rows(s, shown);
      |r| == |shown| && forall i :: 0 <= i < |r| ==> r[i].id == shown[i]
  {
  }

  /** The page that holds a position: `position / limit + 1`. */
  function PageAt(position: nat, limit: int): (page: int)
    requires limit >= 1
    ensures page >= 1
  {
    position / limit + 1
  }

  /** The slot of a position on its page: `position % limit`. */
  function SlotAt(position: nat, limit: int): nat
    requires limit >= 1
  {
    position % limit
  }

  /** Every selected raffle appears on exactly the page its position gives, at the matching offset. */
  lemma EveryRaffleOnItsPage(s: Store, filter: Option<RaffleStatus>, limit: int, position: nat)
    requires limit >= 1 && position < |Matching(s, filter)|
    ensures var page := PageAt(position, limit);
      var p := PageOf(s, filter, page, limit);
      && SlotAt(position, limit) < |p.raffles|
      && p.raffles[SlotAt(position, limit)].id == Matching(s, filter)[position]
      && page <= p.pagination.totalPages
  {
    var page := PageAt(position, limit);
    PositionOnPage(position, limit);
    PageSpec(s, filter, page, limit);
    PageOfPosition(|Matching(s, filter)|, limit, position);
  }

  /** The rows before a position's page, plus its slot, are the position. */
  lemma PositionOnPage(position: nat, limit: int)
    requires limit >= 1
    ensures Skip(PageAt(position, limit), limit) + SlotAt(position, limit) == position
    ensures SlotAt(position, limit) < limit
  {
    DivModSplit(position, limit);
    assert Skip(PageAt(position, limit), limit) == (position / limit) * limit;
  }

  lemma DivModSplit(n: nat, d: int)
    requires d >= 1
    ensures (n / d) * d + n % d == n && 0 <= n % d < d
  {
  }

  /** A position before `total` lies on one of the `CeilDiv(total, limit)` pages. */
  lemma PageOfPosition(total: nat, limit: int, position: nat)
    requires limit >= 1 && position < total
    ensures PageAt(position, limit) <= CeilDiv(total, limit)
  {
    var q := position / limit;
    var pages := CeilDiv(total, limit);
    DivModSplit(position, limit);
    if pages < q + 1 {
      Stats.MulMonotone(limit, pages, q);
    }
  }

  /** Without a filter the total is the number of raffles. */
  lemma UnfilteredTotal(s: Store)
    ensures |Matching(s, None)| == |s.raffles|
  {
    AllIdsNewestFirst(|s.raffles|, MatchesFilter(None, s.raffles));
  }

  lemma {:induction false} AllIdsNewestFirst(n: nat, p: nat -> bool)
    requires forall k: nat :: k < n ==> p(k)
    ensures |IdsNewestFirst(n, p)| == n
  {
    if n > 0 {
      AllIdsNewestFirst(n - 1, p);
    }
  }

  // ---------------------------------------------------------------------------
  // GET /raffles/:id
  // ---------------------------------------------------------------------------

  datatype NotFound = NotFound

  datatype RaffleDetail = RaffleDetail(
    raffle: Raffle,
    soldNumbers: seq<int>,
    soldTickets: nat,
    progressPercentage: Option<int>,
    availableNumbers: int)

  /** GET /raffles/:id: the raffle with the numbers of its PAID tickets and its statistics; 404 for an unknown id. */
  function GetRaffle(s: Store, id: nat): (r: Result<RaffleDetail, NotFound>)
    ensures r.Err? <==> id >= |s.raffles|
    ensures r.Ok? ==>
      && r.value.raffle == s.raffles[id]
      && |r.value.soldNumbers| == r.value.soldTickets == PaidCount(s.tickets, id)
      && (forall n :: n in r.value.soldNumbers <==> exists t :: t in s.tickets && t.raffleId == id && t.status.PAID? && t.number == n)
      && r.value.availableNumbers + r.value.soldTickets == s.raffles[id].totalNumeros
      && (s.raffles[id].totalNumeros > 0 ==>
            var total := s.raffles[id].totalNumeros;
            && r.value.progressPercentage.Some?
            && var pct := r.value.progressPercentage.value;
               2 * total * pct - total <= 200 * r.value.soldTickets < 2 * total * pct + total)
  {
    if id >= |s.raffles| then Err(NotFound)
    else
      var sold := PaidCount(s.tickets, id);
      Ok(RaffleDetail(
        s.raffles[id],
        PaidNumbers(s.tickets, id),
        sold,
        Stats.ProgressPercentage(sold, s.raffles[id].totalNumeros),
        Stats.AvailableNumbers(s.raffles[id].totalNumeros, sold)))
  }

  /**
   * While no number is paid twice and every paid number is on the raffle's
   * grid, the detail's `availableNumbers` counts exactly the numbers of
   * 1..totalNumeros that no PAID ticket bears.
   */
  lemma AvailableAreUnsold(s: Store, id: nat)
    requires Valid(s) && id < |s.raffles|
    requires var sold := PaidNumbers(s.tickets, id);
      && (forall i, j :: 0 <= i < j < |sold| ==> sold[i] != sold[j])
      && (forall i :: 0 <= i < |sold| ==> 1 <= sold[i] <= s.raffles[id].totalNumeros)
    ensures var d := GetRaffle(s, id).value;
      d.availableNumbers == |Stats.FreeNumbers(d.raffle.totalNumeros, d.soldNumbers)|
  {
    Stats.AvailableCountsFreeNumbers(s.raffles[id].totalNumeros, PaidNumbers(s.tickets, id));
  }

  /** The list and the detail agree on a raffle's PAID count and progress. */
  lemma ListAndDetailAgree(s: Store, filter: Option<RaffleStatus>, page: int, limit: int, i: nat)
    requires page >= 1 && limit >= 1
    requires i < |PageOf(s, filter, page, limit).raffles|
    ensures var item := PageOf(s, filter, page, limit).raffles[i];
      var detail := GetRaffle(s, item.id);
      detail.Ok? && detail.value.soldTickets == item.soldTickets && detail.value.progressPercentage == item.progressPercentage
  {
    PageSpec(s, filter, page, limit);
  }

  // ---------------------------------------------------------------------------
  // authorize
  // ---------------------------------------------------------------------------

  /** `pat` occurs in `s` starting at position `j`. */
  predicate OccursAt(s: string, pat: string, j: nat) {
    j + |pat| <= |s| && s[j..j + |pat|] == pat
  }

  lemma OccursAtTail(s: string, pat: string, j: nat)
    requires |s| > 0 && j >= 1
    ensures OccursAt(s, pat, j) <==> OccursAt(s[1..], pat, j - 1)
  {
    if j + |pat| <= |s| {
      var a, b := s[j..j + |pat|], s[1..][j - 1..j - 1 + |pat|];
      forall k | 0 <= k < |pat| ensures a[k] == b[k] {
        assert a[k] == s[j + k];
        assert b[k] == s[1..][j - 1 + k];
      }
      assert a == b;
    }
  }

  /** The first position at which `pat` occurs in `s`. */
  function IndexOf(s: string, pat: string): (r: Option<nat>)
    ensures r.Some? ==> OccursAt(s, pat, r.value)
    ensures r.Some? ==> forall j: nat :: j < r.value ==> !OccursAt(s, pat, j)
    ensures r.None? ==> forall j: nat :: !OccursAt(s, pat, j)
    decreases |s|
  {
    if |s| < |pat| then None
    else if s[..|pat|] == pat then Some(0)
    else
      var rest := IndexOf(s[1..], pat);
      assert forall j: nat :: j >= 1 ==> (OccursAt(s, pat, j) <==> OccursAt(s[1..], pat, j - 1)) by {
        forall j: nat | j >= 1 ensures OccursAt(s, pat, j) <==> OccursAt(s[1..], pat, j - 1) {
          OccursAtTail(s, pat, j);
        }
      }
      assert !OccursAt(s, pat, 0);
      match rest
      case None => None
      case Some(i) => Some(i + 1)
  }

  /** `String.prototype.replace` with a string pattern: only the first occurrence is replaced. */
  function ReplaceFirst(s: string, pat: string, replacement: string): string {
    match IndexOf(s, pat)
    case None => s
    case Some(i) => s[..i] + replacement + s[i + |pat|..]
  }

  /** A header of the form `Bearer <token>` yields the token. */
  lemma BearerHeaderYieldsToken(token: string)
    ensures ReplaceFirst("Bearer " + token, "Bearer ", "") == token
  {
    var h := "Bearer " + token;
    assert h[..7] == "Bearer ";
    assert h[7..] == token;
  }

  /** `roles.some(role => user.roles.includes(role))`. */
  function AnyRoleIn(allowed: seq<Role>, held: seq<Role>): (r: bool)
    ensures r <==> exists role :: role in allowed && role in held
  {
    if |allowed| == 0 then false
    else if allowed[0] in held then true
    else
      assert forall role :: role in allowed <==> role == allowed[0] || role in allowed[1..];
      AnyRoleIn(allowed[1..], held)
  }

  datatype AuthError = MissingToken | InvalidToken | UserNotFound | AccessDenied

  /**
   * The `authorize(roles)` guard. `verify` stands for the JWT signature check
   * and yields the user id the token carries; the user is then read from the
   * store and must hold one of the allowed roles.
   */
  function Authorize(users: seq<User>, header: Option<string>, verify: string -> Option<nat>, allowed: seq<Role>): (r: Result<Caller, AuthError>) {
    var token := if header.None? then "" else ReplaceFirst(header.value, "Bearer ", "");
    if token == "" then Err(MissingToken)
    else match verify(token)
      case None => Err(InvalidToken)
      case Some(id) =>
        if id >= |users| then Err(UserNotFound)
        else if !AnyRoleIn(allowed, users[id].roles) then Err(AccessDenied)
        else Ok(Caller(id, users[id].roles))
  }

  /**
   * `authorize` fails without a token and lets a request through exactly when
   * the token verifies to an existing user holding one of the allowed roles;
   * the caller it attaches is that user with the roles from the store.
   */
  lemma AuthorizeSpec(users: seq<User>, header: Option<string>, verify: string -> Option<nat>, allowed: seq<Role>)
    ensures var r := Authorize(users, header, verify, allowed);
      var token := if header.None? then "" else ReplaceFirst(header.value, "Bearer ", "");
      && (header.None? ==> r == Err(MissingToken))
      && (r.Ok? <==> token != "" && verify(token).Some? && verify(token).value < |users|
                     && exists role :: role in allowed && role in users[verify(token).value].roles)
      && (r.Ok? ==> r.value.id == verify(token).value && r.value.roles == users[r.value.id].roles)
  {
  }

  /** With `Authorization: Bearer <token>` the token handed to the verifier is exactly `<token>`. */
  lemma AuthorizeBearer(users: seq<User>, token: string, verify: string -> Option<nat>, allowed: seq<Role>)
    requires token != "" && verify(token).Some? && verify(token).value < |users|
    requires exists role :: role in allowed && role in users[verify(token).value].roles
    ensures Authorize(users, Some("Bearer " + token), verify, allowed) == Ok(Caller(verify(token).value, users[verify(token).value].roles))
  {
    BearerHeaderYieldsToken(token);
  }

  // ---------------------------------------------------------------------------
  // POST /auth/register
  // ---------------------------------------------------------------------------

  datatype RegisterRequest = RegisterRequest(email: string, password: string, name: string)

  datatype RegisterError = InvalidData | EmailTaken

  /** `registerSchema`: a password of at least 6 and a name of at least 2 UTF-16 units. */
  predicate RegisterSchemaOk(req: RegisterRequest) {
    JsLength(req.password) >= 6 && JsLength(req.name) >= 2
  }

  function EmailIn(users: seq<User>, email: string): bool {
    exists i :: 0 <= i < |users| && users[i].email == email
  }

  /** The name "😀" is two UTF-16 units long, enough for the schema. */
  lemma EmojiNameLength(email: string)
    ensures RegisterSchemaOk(RegisterRequest(email, "secret", "\U{1F600}"))
  {
    assert "\U{1F600}"[1..] == "";
  }

  /** POST /auth/register: a new user with the role BUYER only; the result is the new id. */
  function Register(s: Store, req: RegisterRequest): (Store, Result<nat, RegisterError>) {
    if !RegisterSchemaOk(req) then (s, Err(InvalidData))
    else if EmailIn(s.users, req.email) then (s, Err(EmailTaken))
    else (s.(users := s.users + [User(req.email, req.name, [BUYER])]), Ok(|s.users|))
  }

  ghost predicate UniqueEmails(users: seq<User>) {
    forall i, j :: 0 <= i < j < |users| ==> users[i].email != users[j].email
  }

  /**
   * Registration fails without change on invalid data or a known e-mail;
   * otherwise it appends exactly one user, whose roles are exactly [BUYER].
   */
  lemma RegisterSpec(s: Store, req: RegisterRequest)
    ensures var (s2, r) := Register(s, req);
      && (r.Err? ==> s2 == s)
      && (r == Err(InvalidData) <==> !RegisterSchemaOk(req))
      && (r == Err(EmailTaken) <==> RegisterSchemaOk(req) && exists i :: 0 <= i < |s.users| && s.users[i].email == req.email)
      && (r.Ok? ==> r.value == |s.users| && s2 == s.(users := s.users + [User(req.email, req.name, [BUYER])]))
  {
  }

  /** E-mail addresses stay unique. */
  lemma RegisterKeepsEmailsUnique(s: Store, req: RegisterRequest)
    requires UniqueEmails(s.users)
    ensures UniqueEmails(Register(s, req).0.users)
  {
  }

  lemma RegisterPreservesValid(s: Store, req: RegisterRequest)
    requires Valid(s)
    ensures Valid(Register(s, req).0)
  {
    var s2 := Register(s, req).0;
    forall i | 0 <= i < |s2.transactions| ensures TransactionLinked(s2, i) {
      assert TransactionLinked(s, i);
    }
    forall k | 0 <= k < |s2.tickets| ensures TicketLinked(s2, s2.tickets[k]) {
      assert TicketLinked(s, s.tickets[k]);
    }
  }

  method RegisterHandler(db: Ledger, req: RegisterRequest) returns (result: Result<nat, RegisterError>)
    modifies db
    ensures db.Snapshot() == Register(old(db.Snapshot()), req).0
    ensures result == Register(old(db.Snapshot()), req).1
  {
    if !RegisterSchemaOk(req) {
      return Err(InvalidData);
    }
    if EmailIn(db.users, req.email) {
      return Err(EmailTaken);
    }
    result := Ok(|db.users|);
    db.users := db.users + [User(req.email, req.name, [BUYER])];
  }
}
