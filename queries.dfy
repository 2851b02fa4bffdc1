/** The two listing queries over the ledger: `getTicketService`
    (service/ticket.service.ts) and `getTransactionService`
    (service/transaction.service.ts). Both filter, order by `created_at`
    newest first and return one window of rows together with the exact count
    of matching rows. */
module LedgerQueries {
  import opened Common
  import Ledger

  /** One page of a listing and the number of rows that matched in total. */
  datatype Page<T> = Page(rows: seq<T>, count: nat)

  /** ASCII case folding, which stands for the case-insensitive comparison of `ilike`. */
  function LowerChar(c: char): char {
    if 'A' <= c <= 'Z' then (c - 'A' + 'a') as char else c
  }

  function Lower(s: string): (r: string)
    ensures |r| == |s|
    ensures forall i :: 0 <= i < |s| ==> r[i] == LowerChar(s[i])
  {
    if s == [] then [] else [LowerChar(s[0])] + Lower(s[1..])
  }

  /** `column ilike '%pattern%'`. */
  predicate ILikeContains(s: string, pattern: string) {
    Contains(Lower(s), Lower(pattern))
  }

  /** A nullable column never matches a pattern. */
  predicate OptILikeContains(s: Option<string>, pattern: string) {
    s.Some? && ILikeContains(s.value, pattern)
  }

  /** The empty search matches every name. */
  lemma EmptySearchMatchesAll(s: string)
    ensures ILikeContains(s, "")
  {
    assert [] <= Lower(s)[0..];
  }

  /** Orders newest first. */
  function NewestFirst<T>(s: seq<T>, createdAt: T -> int): (r: seq<T>)
    ensures |r| == |s|
  {
    SortByRank(s, (x: T) => -createdAt(x))
  }

  lemma {:induction false} NewestFirstCorrect<T>(s: seq<T>, createdAt: T -> int)
    ensures multiset(NewestFirst(s, createdAt)) == multiset(s)
    ensures forall i, j :: 0 <= i < j < |s| ==> createdAt(NewestFirst(s, createdAt)[i]) >= createdAt(NewestFirst(s, createdAt)[j])
  {
    SortByRankCorrect(s, (x: T) => -createdAt(x));
  }

  /** Filter, order newest first, and cut one window: the shape both listings share. */
  function Matching<T>(rows: seq<T>, keep: T -> bool, createdAt: T -> int): seq<T> {
    NewestFirst(Filter(rows, keep), createdAt)
  }

  function Listing<T>(rows: seq<T>, keep: T -> bool, createdAt: T -> int, offset: nat, limit: nat): Page<T> {
    var matching := Matching(rows, keep, createdAt);
    Page(Window(matching, offset, limit), |matching|)
  }

  /** A listing holds at most `limit` rows, each a selected row of the input,
      newest first, and exactly as many as remain after `offset` when fewer;
      `count` is the number of selected rows. */
  lemma {:induction false} ListingCorrect<T>(rows: seq<T>, keep: T -> bool, createdAt: T -> int, offset: nat, limit: nat)
    ensures var p := Listing(rows, keep, createdAt, offset, limit);
            && |p.rows| <= limit
            && |p.rows| == Min(limit, Max(0, p.count - offset))
            && (forall r :: r in p.rows ==> r in rows && keep(r))
            && (forall i, j :: 0 <= i < j < |p.rows| ==> createdAt(p.rows[i]) >= createdAt(p.rows[j]))
            && p.count == |Filter(rows, keep)|
            && (offset == 0 && p.count <= limit ==> multiset(p.rows) == multiset(Filter(rows, keep)))
  {
    var filtered := Filter(rows, keep);
    NewestFirstCorrect(filtered, createdAt);
    WindowOfNewestFirst(filtered, createdAt, offset, limit);
    WindowLength(NewestFirst(filtered, createdAt), offset, limit);
    var matching := Matching(rows, keep, createdAt);
    if offset == 0 && |matching| <= limit {
      assert Window(matching, offset, limit) == matching[0..];
      assert matching[0..] == matching;
    }
  }

  /** A window of a newest-first order holds rows of the input, newest first. */
  lemma {:induction false} WindowOfNewestFirst<T>(s: seq<T>, createdAt: T -> int, offset: nat, limit: nat)
    ensures var p := Window(NewestFirst(s, createdAt), offset, limit);
            && (forall r :: r in p ==> r in s)
            && (forall i, j :: 0 <= i < j < |p| ==> createdAt(p[i]) >= createdAt(p[j]))
  {
    var sorted := NewestFirst(s, createdAt);
    NewestFirstCorrect(s, createdAt);
    var p := Window(sorted, offset, limit);
    forall r | r in p
      ensures r in s
    {
      var i :| 0 <= i < |p| && p[i] == r;
      assert r == sorted[offset + i];
      assert r in multiset(sorted);
    }
    forall i, j | 0 <= i < j < |p|
      ensures createdAt(p[i]) >= createdAt(p[j])
    {
      assert p[i] == sorted[offset + i] && p[j] == sorted[offset + j];
    }
  }

  /** Reading pages one after another, for as many pages as the count needs,
      yields every selected row exactly once. */
  lemma {:induction false} PagesCoverMatches<T>(rows: seq<T>, keep: T -> bool, createdAt: T -> int, limit: nat, k: nat)
    requires k * limit >= |Filter(rows, keep)|
    ensures multiset(Pages(Matching(rows, keep, createdAt), limit, k)) == multiset(Filter(rows, keep))
  {
    var matching := Matching(rows, keep, createdAt);
    PagesArePrefix(matching, limit, k);
    assert matching[..Min(|matching|, k * limit)] == matching;
    NewestFirstCorrect(Filter(rows, keep), createdAt);
  }

  // ---------------------------------------------------------------------------
  // getTicketService

  /** A `ticket` row together with its id. */
  datatype TicketRecord = TicketRecord(id: Ledger.Id, ticket: Ledger.Ticket)

  predicate TicketSelected(r: TicketRecord, eventId: Ledger.Id, search: string) {
    r.ticket.eventId == eventId && ILikeContains(r.ticket.name, search)
  }

  function TicketFilter(eventId: Ledger.Id, search: string): TicketRecord -> bool {
    (r: TicketRecord) => TicketSelected(r, eventId, search)
  }

  function TicketCreatedAt(r: TicketRecord): int { r.ticket.createdAt }

  /** The ticket types of one event whose name contains `search` (any case),
      newest first, `limit` of them from `offset`. */
  function ListTickets(rows: seq<TicketRecord>, eventId: Ledger.Id, search: string, limit: nat, offset: nat): Page<TicketRecord> {
    Listing(rows, TicketFilter(eventId, search), TicketCreatedAt, offset, limit)
  }

  /** Every listed ticket belongs to the event and matches the search; at most
      `limit` are listed, newest first; `count` is the number of matches. */
  lemma {:induction false} ListTicketsCorrect(rows: seq<TicketRecord>, eventId: Ledger.Id, search: string, limit: nat, offset: nat)
    ensures var p := ListTickets(rows, eventId, search, limit, offset);
            && |p.rows| <= limit
            && (forall r :: r in p.rows ==> r in rows && r.ticket.eventId == eventId && ILikeContains(r.ticket.name, search))
            && (forall i, j :: 0 <= i < j < |p.rows| ==> p.rows[i].ticket.createdAt >= p.rows[j].ticket.createdAt)
            && p.count == |Filter(rows, TicketFilter(eventId, search))|
  {
    ListingCorrect(rows, TicketFilter(eventId, search), TicketCreatedAt, offset, limit);
  }

  /** With an empty search every ticket of the event is counted. */
  lemma {:induction false} EmptySearchCountsEventTickets(rows: seq<TicketRecord>, eventId: Ledger.Id, limit: nat, offset: nat)
    requires forall i :: 0 <= i < |rows| ==> rows[i].ticket.eventId == eventId
    ensures ListTickets(rows, eventId, "", limit, offset).count == |rows|
  {
    forall i | 0 <= i < |rows|
      ensures TicketFilter(eventId, "")(rows[i])
    {
      EmptySearchMatchesAll(rows[i].ticket.name);
    }
    FilterKeepsAll(rows, TicketFilter(eventId, ""));
  }

  // ---------------------------------------------------------------------------
  // getTransactionService

  /** A row of `transaction_search_view`. */
  datatype TransactionRow = TransactionRow(
    id: Ledger.Id,
    orderCode: string,
    eventTitle: Option<string>,
    ticketName: Option<string>,
    userName: Option<string>,
    userId: Ledger.Id,
    paymentStatus: Option<string>,
    totalPrice: int,
    createdAt: int)

  /** The optional parameters of the transaction listing. */
  datatype TransactionQuery = TransactionQuery(
    search: string,
    limit: nat,
    offset: nat,
    role: Option<string>,
    userId: Option<string>,
    paymentStatus: Option<string>)

  /** The default parameters: no search, 10 rows from offset 0, no filter. */
  const DefaultQuery := TransactionQuery("", 10, 0, None, None, None)

  /** A non-empty search matches the order code, event title, ticket name or user name. */
  predicate MatchesSearch(row: TransactionRow, search: string) {
    search == ""
    || ILikeContains(row.orderCode, search)
    || OptILikeContains(row.eventTitle, search)
    || OptILikeContains(row.ticketName, search)
    || OptILikeContains(row.userName, search)
  }

  /** Staff and customers with a user id see only their own transactions. */
  predicate RestrictsToUser(q: TransactionQuery) {
    (q.role == Some("staff") || q.role == Some("customer")) && q.userId.Some? && q.userId.value != ""
  }

  /** A status filter other than "all" (and not empty) is applied as given. */
  predicate FiltersStatus(q: TransactionQuery) {
    q.paymentStatus.Some? && q.paymentStatus.value != "" && q.paymentStatus.value != "all"
  }

  predicate TransactionSelected(row: TransactionRow, q: TransactionQuery) {
    && MatchesSearch(row, q.search)
    && (RestrictsToUser(q) ==> row.userId == q.userId.value)
    && (FiltersStatus(q) ==> row.paymentStatus == q.paymentStatus)
  }

  function TransactionFilter(q: TransactionQuery): TransactionRow -> bool {
    (r: TransactionRow) => TransactionSelected(r, q)
  }

  function RowCreatedAt(r: TransactionRow): int { r.createdAt }

  function QueryTransactions(rows: seq<TransactionRow>, q: TransactionQuery): Page<TransactionRow> {
    Listing(rows, TransactionFilter(q), RowCreatedAt, q.offset, q.limit)
  }

  /** The listed rows are selected rows of the view, at most `limit` of them,
      newest first, and `count` is the number of selected rows. */
  lemma {:induction false} QueryTransactionsCorrect(rows: seq<TransactionRow>, q: TransactionQuery)
    ensures var p := QueryTransactions(rows, q);
            && |p.rows| <= q.limit
            && (forall r :: r in p.rows ==> r in rows && TransactionSelected(r, q))
            && (forall i, j :: 0 <= i < j < |p.rows| ==> p.rows[i].createdAt >= p.rows[j].createdAt)
            && p.count == |Filter(rows, TransactionFilter(q))|
  {
    ListingCorrect(rows, TransactionFilter(q), RowCreatedAt, q.offset, q.limit);
  }

  /** A staff member or customer with a user id is shown only their own transactions. */
  lemma {:induction false} OwnTransactionsOnly(rows: seq<TransactionRow>, q: TransactionQuery)
    requires q.role in {Some("staff"), Some("customer")} && q.userId.Some? && q.userId.value != ""
    ensures forall r :: r in QueryTransactions(rows, q).rows ==> r.userId == q.userId.value
  {
    QueryTransactionsCorrect(rows, q);
  }

  /** The status "all" selects the same rows as no status at all. */
  lemma {:induction false} AllStatusIsNoFilter(rows: seq<TransactionRow>, q: TransactionQuery)
    requires q.paymentStatus == Some("all")
    ensures QueryTransactions(rows, q) == QueryTransactions(rows, q.(paymentStatus := None))
  {
    FilterCongruent(rows, TransactionFilter(q), TransactionFilter(q.(paymentStatus := None)));
  }

  /** Without search, role or status, the count is the size of the view. */
  lemma {:induction false} UnfilteredCountsEverything(rows: seq<TransactionRow>, limit: nat, offset: nat)
    ensures QueryTransactions(rows, TransactionQuery("", limit, offset, None, None, None)).count == |rows|
  {
    FilterKeepsAll(rows, TransactionFilter(TransactionQuery("", limit, offset, None, None, None)));
  }
}
