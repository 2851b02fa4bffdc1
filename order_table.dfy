/** The customer's order list (components/transaction/order-table.tsx): page
    count, fetch offset and status parameter, row mapping, status labels, the
    five-button page window, the "showing x - y of n" label, the prev/next
    targets, and `fetchOrders`, which updates the list state step by step. */
module OrderTable {
  import opened Common
  import LedgerQueries

  lemma MulMono(a: int, b: int, n: int)
    requires a <= b && n >= 0
    ensures a * n <= b * n
  {
    var d := b - a;
    assert b * n == a * n + d * n;
  }

  /** `Math.ceil(total / limit)`. */
  function TotalPages(total: nat, limit: nat): (r: nat)
    requires limit > 0
    ensures r * limit >= total
    ensures r > 0 ==> (r - 1) * limit < total
    ensures r == 0 <==> total == 0
  {
    var q := (total + limit - 1) / limit;
    var m := (total + limit - 1) % limit;
    assert total + limit - 1 == q * limit + m;
    assert (q - 1) * limit == q * limit - limit;
    q
  }

  /** `(page - 1) * limit`, the offset fetched for a page. */
  function Offset(page: int, limit: nat): (r: int)
    ensures page >= 1 ==> r >= 0
    ensures r + limit == page * limit
  {
    assert page * limit == (page - 1) * limit + limit;
    (page - 1) * limit
  }

  /** Every page from 1 to the page count starts inside the list. */
  lemma {:induction false} PagesInRangeStartInside(total: nat, limit: nat, page: int)
    requires limit > 0 && 1 <= page <= TotalPages(total, limit)
    ensures 0 <= Offset(page, limit) < total
  {
    MulMono(page - 1, TotalPages(total, limit) - 1, limit);
  }

  /** A page that shows at least one row is within the page count. */
  lemma {:induction false} NonEmptyPageIsCounted<T>(s: seq<T>, limit: nat, page: int)
    requires limit > 0 && page >= 1
    requires Window(s, Offset(page, limit), limit) != []
    ensures page <= TotalPages(|s|, limit)
  {
    var r := TotalPages(|s|, limit);
    if page > r {
      MulMono(r, page - 1, limit);
    }
  }

  /** `statusFilter === "all" ? undefined : statusFilter`. */
  function StatusParam(statusFilter: string): (r: Option<string>)
    ensures r.None? <==> statusFilter == "all"
    ensures r.Some? ==> r.value == statusFilter
  {
    if statusFilter == "all" then None else Some(statusFilter)
  }

  /** The query `fetchOrders` sends: the signed-in customer's own orders. */
  function FetchQuery(userId: string, search: string, statusFilter: string, page: int, limit: nat): LedgerQueries.TransactionQuery
    requires page >= 1
  {
    LedgerQueries.TransactionQuery(search, limit, Offset(page, limit) as nat, Some("customer"), Some(userId), StatusParam(statusFilter))
  }

  /** The list filters by status exactly when the filter is not "all". */
  lemma StatusParamFilters(userId: string, search: string, statusFilter: string, page: int, limit: nat)
    requires page >= 1 && statusFilter != ""
    ensures LedgerQueries.FiltersStatus(FetchQuery(userId, search, statusFilter, page, limit)) <==> statusFilter != "all"
  {
  }

  /** Every order the backend answers with belongs to the signed-in user. */
  lemma {:induction false} FetchedOrdersAreOwn(rows: seq<LedgerQueries.TransactionRow>, userId: string, search: string, statusFilter: string, page: int, limit: nat)
    requires page >= 1 && userId != ""
    ensures forall r :: r in LedgerQueries.QueryTransactions(rows, FetchQuery(userId, search, statusFilter, page, limit)).rows ==> r.userId == userId
  {
    LedgerQueries.OwnTransactionsOnly(rows, FetchQuery(userId, search, statusFilter, page, limit));
  }

  /** A card of the order list. */
  datatype Order = Order(
    id: string,
    orderCode: string,
    status: string,
    createdAt: int,
    totalAmount: int,
    eventTitle: Option<string>)

  function MapRow(row: LedgerQueries.TransactionRow): Order {
    Order(row.id, row.orderCode, row.paymentStatus.GetOr("pending"), row.createdAt, row.totalPrice, row.eventTitle)
  }

  function MapRows(rows: seq<LedgerQueries.TransactionRow>): (r: seq<Order>)
    ensures |r| == |rows|
    ensures forall i :: 0 <= i < |rows| ==> r[i] == MapRow(rows[i])
  {
    if rows == [] then [] else [MapRow(rows[0])] + MapRows(rows[1..])
  }

  /** Each card keeps its row's id, code and amount, and shows "pending"
      for a row whose status is null. */
  lemma MapRowsKeepsRows(rows: seq<LedgerQueries.TransactionRow>, i: int)
    requires 0 <= i < |rows|
    ensures var o := MapRows(rows)[i];
            && o.id == rows[i].id && o.orderCode == rows[i].orderCode && o.totalAmount == rows[i].totalPrice
            && (rows[i].paymentStatus.Some? ==> o.status == rows[i].paymentStatus.value)
            && (rows[i].paymentStatus.None? ==> o.status == "pending")
  {
  }

  /** `getStatusText`: the five order statuses get Indonesian labels, any
      other text is shown as it is. */
  function StatusText(status: string): string {
    match status
    case "pending" => "Menunggu Konfirmasi"
    case "processing" => "Sedang Diproses"
    case "shipped" => "Dalam Pengiriman"
    case "completed" => "Selesai"
    case "cancelled" => "Dibatalkan"
    case _ => status
  }

  predicate KnownStatus(status: string) {
    status in {"pending", "processing", "shipped", "completed", "cancelled"}
  }

  /** Known statuses get a label different from every status; unknown text
      passes through; so labelling twice is labelling once. */
  lemma StatusTextLabels(status: string)
    ensures KnownStatus(status) ==> !KnownStatus(StatusText(status)) && StatusText(status) != status
    ensures !KnownStatus(status) ==> StatusText(status) == status
    ensures StatusText(StatusText(status)) == StatusText(status)
  {
  }

  /** The known statuses get pairwise different labels. */
  lemma StatusTextDistinguishesKnown(a: string, b: string)
    requires KnownStatus(a) && KnownStatus(b) && a != b
    ensures StatusText(a) != StatusText(b)
  {
  }

  /** The i-th button of the page window. */
  function PageNumber(page: int, totalPages: nat, i: int): int {
    if totalPages <= 5 then i + 1
    else if page <= 3 then i + 1
    else if page >= totalPages - 2 then totalPages - 4 + i
    else page - 2 + i
  }

  /** The page buttons: `min(5, totalPages)` of them. */
  function PageWindow(page: int, totalPages: nat): (w: seq<int>)
    ensures |w| == Min(5, totalPages)
  {
    seq(Min(5, totalPages), i => PageNumber(page, totalPages, i))
  }

  /** For a page within the page count the window is a run of consecutive
      page numbers inside [1, totalPages] that includes the current page. */
  lemma PageWindowCorrect(page: int, totalPages: nat)
    requires 1 <= page <= totalPages
    ensures var w := PageWindow(page, totalPages);
            && (forall i :: 0 <= i < |w| ==> w[i] == w[0] + i)
            && (forall i :: 0 <= i < |w| ==> 1 <= w[i] <= totalPages)
            && page in w
  {
    var w := PageWindow(page, totalPages);
    var k := page - w[0];
    assert 0 <= k < |w| && w[k] == page;
  }

  /** "Menampilkan from - to dari total": the first and last row numbers of a page. */
  datatype RowRange = RowRange(from: int, to: int)

  function RangeLabel(page: int, limit: nat, total: nat): RowRange
  {
    RowRange((page - 1) * limit + 1, Min(page * limit, total))
  }

  /** For a page within the page count, the label's numbers lie in
      [1, total] and span exactly the rows that page fetches. */
  lemma {:induction false} RangeLabelMatchesWindow<T>(s: seq<T>, page: int, limit: nat)
    requires limit > 0 && 1 <= page <= TotalPages(|s|, limit)
    ensures var range := RangeLabel(page, limit, |s|);
            && 1 <= range.from <= range.to <= |s|
            && range.from == Offset(page, limit) + 1
            && range.to - range.from + 1 == |Window(s, Offset(page, limit), limit)|
  {
    PagesInRangeStartInside(|s|, limit, page);
  }

  /** The page "Sebelumnya" asks for. */
  function PrevTarget(page: int): int { Max(1, page - 1) }

  predicate PrevDisabled(page: int) { page == 1 }

  /** The page "Selanjutnya" asks for. */
  function NextTarget(page: int, totalPages: nat): int { Min(totalPages, page + 1) }

  predicate NextDisabled(page: int, totalPages: nat) { page == totalPages }

  /** Within the page count, an enabled button moves exactly one page and
      every target stays inside [1, totalPages]. */
  lemma PrevNextTargets(page: int, totalPages: nat)
    requires 1 <= page <= totalPages
    ensures 1 <= PrevTarget(page) <= totalPages && 1 <= NextTarget(page, totalPages) <= totalPages
    ensures !PrevDisabled(page) ==> PrevTarget(page) == page - 1
    ensures !NextDisabled(page, totalPages) ==> NextTarget(page, totalPages) == page + 1
    ensures PrevDisabled(page) <==> PrevTarget(page) == page
    ensures NextDisabled(page, totalPages) <==> NextTarget(page, totalPages) == page
  {
    if page == 1 {
      assert PrevTarget(page) == 1;
    } else {
      assert PrevTarget(page) == page - 1;
    }
    if page == totalPages {
      assert NextTarget(page, totalPages) == page;
    } else {
      assert NextTarget(page, totalPages) == page + 1;
    }
  }

  /** What the transaction service answers: the rows and the exact count
      (which may be null). `None` is an error or missing data. */
  datatype FetchResponse = FetchResponse(rows: seq<LedgerQueries.TransactionRow>, count: Option<nat>)

  /** The state of the order list. */
  class OrderListView {
    var orders: seq<Order>
    var total: nat
    var isLoading: bool

    constructor ()
      ensures orders == [] && total == 0 && isLoading
    {
      orders, total, isLoading := [], 0, true;
    }

    /** `fetchOrders`: does nothing without a user id; otherwise sends the
        customer query and shows what comes back, or an empty list. */
    method FetchOrders(userId: string, search: string, statusFilter: string, page: int, limit: nat, response: Option<FetchResponse>)
      returns (sent: Option<LedgerQueries.TransactionQuery>)
      requires page >= 1
      modifies this
      ensures userId == "" ==> sent.None? && orders == old(orders) && total == old(total) && isLoading == old(isLoading)
      ensures userId != "" ==> sent == Some(FetchQuery(userId, search, statusFilter, page, limit)) && !isLoading
      ensures userId != "" && response.Some? ==>
                orders == MapRows(response.value.rows) && total == response.value.count.GetOr(|response.value.rows|)
      ensures userId != "" && response.None? ==> orders == [] && total == 0
    {
      if userId == "" {
        return None;
      }
      isLoading := true;
      var offset := (page - 1) * limit;
      var statusParam := if statusFilter == "all" then None else Some(statusFilter);
      sent := Some(LedgerQueries.TransactionQuery(search, limit, offset, Some("customer"), Some(userId), statusParam));
      if response.Some? {
        var mapped := MapRows(response.value.rows);
        orders := mapped;
        total := if response.value.count.Some? then response.value.count.value else |mapped|;
      } else {
        orders := [];
        total := 0;
      }
      isLoading := false;
    }
  }
}
