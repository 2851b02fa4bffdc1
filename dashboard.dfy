/** The dashboard figures (service/dashboard.service.ts): sums over fetched
    rows with nulls counted as 0, counts defaulted to 0, and the five most
    recent transactions. */
module Dashboard {
  import opened Common
  import Ledger
  import LedgerQueries

  /** `xs.reduce((sum, x) => sum + (x ?? 0), acc)`, a left fold. */
  function Reduce(acc: int, xs: seq<Option<int>>): int
    decreases |xs|
  {
    if xs == [] then acc else Reduce(acc + OrZero(xs[0]), xs[1..])
  }

  /** The fold equals the plain sum with nulls as 0, started from `acc`. */
  lemma {:induction false} ReduceIsSum(acc: int, xs: seq<Option<int>>)
    ensures Reduce(acc, xs) == acc + SumOrZero(xs)
    decreases |xs|
  {
    if xs != [] {
      ReduceIsSum(acc + OrZero(xs[0]), xs[1..]);
    }
  }

  /** `(data ?? []).reduce(…, 0)`: a failed fetch sums to 0. */
  function SumFetched(data: Option<seq<Option<int>>>): int {
    Reduce(0, data.GetOr([]))
  }

  /** Sums of values that are never negative are never negative. */
  lemma {:induction false} SumOrZeroNonNegative(xs: seq<Option<int>>)
    requires forall i :: 0 <= i < |xs| ==> OrZero(xs[i]) >= 0
    ensures SumOrZero(xs) >= 0
  {
    if xs != [] {
      SumOrZeroNonNegative(xs[1..]);
    }
  }

  /** A transaction as the dashboard queries see it. */
  datatype TxRow = TxRow(userId: string, paymentStatus: Option<string>, totalPrice: Option<int>, quantity: Option<int>)

  /** The dashboard view of a ledger transaction row. */
  function RowOf(t: Ledger.Transaction): TxRow {
    TxRow(t.userId, Some(t.paymentStatus), Some(t.totalPrice), Some(t.quantity))
  }

  function Prices(rows: seq<TxRow>): (r: seq<Option<int>>)
    ensures |r| == |rows|
  {
    seq(|rows|, i requires 0 <= i < |rows| => rows[i].totalPrice)
  }

  function Quantities(rows: seq<TxRow>): (r: seq<Option<int>>)
    ensures |r| == |rows|
  {
    seq(|rows|, i requires 0 <= i < |rows| => rows[i].quantity)
  }

  function IsCompleted(): TxRow -> bool {
    (r: TxRow) => r.paymentStatus == Some("completed")
  }

  function IsCompletedOf(userId: string): TxRow -> bool {
    (r: TxRow) => r.userId == userId && r.paymentStatus == Some("completed")
  }

  /** `ticketsSold`: the sum of `sold` over the fetched ticket rows. */
  function TicketsSold(sold: Option<seq<Option<int>>>): int {
    SumFetched(sold)
  }

  /** `revenue`: the sum of `total_price` over completed transactions. */
  function Revenue(rows: seq<TxRow>): int {
    SumFetched(Some(Prices(Filter(rows, IsCompleted()))))
  }

  /** `ticketsOwned`: the sum of `quantity` over the user's completed transactions. */
  function TicketsOwned(rows: seq<TxRow>, userId: string): int {
    SumFetched(Some(Quantities(Filter(rows, IsCompletedOf(userId)))))
  }

  /** `count || 0`. */
  function CountOrZero(count: Option<int>): (r: int)
    ensures count.None? || count.value == 0 ==> r == 0
    ensures count.Some? ==> r == count.value
  {
    if count.Some? && count.value != 0 then count.value else 0
  }

  /** No data gives 0, and null entries add nothing. */
  lemma {:induction false} NullsCountAsZero(xs: seq<Option<int>>)
    ensures SumFetched(None) == 0
    ensures SumFetched(Some(xs)) == SumOrZero(xs)
    ensures SumFetched(Some(xs + [None])) == SumFetched(Some(xs))
  {
    ReduceIsSum(0, xs);
    ReduceIsSum(0, xs + [None]);
    SumOrZeroAppend(xs, [None]);
  }

  lemma {:induction false} PricesAppend(a: seq<TxRow>, b: seq<TxRow>)
    ensures Prices(a + b) == Prices(a) + Prices(b)
  {
  }

  lemma {:induction false} QuantitiesAppend(a: seq<TxRow>, b: seq<TxRow>)
    ensures Quantities(a + b) == Quantities(a) + Quantities(b)
  {
  }

  /** Revenue adds up over any split of the transactions. */
  lemma {:induction false} RevenueAppend(a: seq<TxRow>, b: seq<TxRow>)
    ensures Revenue(a + b) == Revenue(a) + Revenue(b)
  {
    FilterAppend(a, b, IsCompleted());
    PricesAppend(Filter(a, IsCompleted()), Filter(b, IsCompleted()));
    SumOrZeroAppend(Prices(Filter(a, IsCompleted())), Prices(Filter(b, IsCompleted())));
    ReduceIsSum(0, Prices(Filter(a + b, IsCompleted())));
    ReduceIsSum(0, Prices(Filter(a, IsCompleted())));
    ReduceIsSum(0, Prices(Filter(b, IsCompleted())));
  }

  lemma {:induction false} TicketsOwnedAppend(a: seq<TxRow>, b: seq<TxRow>, userId: string)
    ensures TicketsOwned(a + b, userId) == TicketsOwned(a, userId) + TicketsOwned(b, userId)
  {
    var keep := IsCompletedOf(userId);
    FilterAppend(a, b, keep);
    QuantitiesAppend(Filter(a, keep), Filter(b, keep));
    SumOrZeroAppend(Quantities(Filter(a, keep)), Quantities(Filter(b, keep)));
    ReduceIsSum(0, Quantities(Filter(a + b, keep)));
    ReduceIsSum(0, Quantities(Filter(a, keep)));
    ReduceIsSum(0, Quantities(Filter(b, keep)));
  }

  /** The transaction row an online purchase inserts raises the revenue by
      its total price and the buyer's tickets owned by its quantity; a desk
      purchase without a chosen status (stored "pending") raises neither. */
  lemma {:induction false} PurchaseRowEffect(rows: seq<TxRow>, req: Ledger.PurchaseRequest, user: Ledger.User, now: int)
    ensures var online := RowOf(Ledger.NewTransaction(Ledger.Online, req, user, now));
            && Revenue(rows + [online]) == Revenue(rows) + req.totalPrice
            && TicketsOwned(rows + [online], user.id) == TicketsOwned(rows, user.id) + req.quantity
    ensures var desk := RowOf(Ledger.NewTransaction(Ledger.Desk, req.(paymentStatus := None), user, now));
            && Revenue(rows + [desk]) == Revenue(rows)
            && TicketsOwned(rows + [desk], user.id) == TicketsOwned(rows, user.id)
  {
    var online := RowOf(Ledger.NewTransaction(Ledger.Online, req, user, now));
    var desk := RowOf(Ledger.NewTransaction(Ledger.Desk, req.(paymentStatus := None), user, now));
    RevenueAppend(rows, [online]);
    TicketsOwnedAppend(rows, [online], user.id);
    RevenueAppend(rows, [desk]);
    TicketsOwnedAppend(rows, [desk], user.id);
    assert Filter([online], IsCompleted()) == [online];
    assert Filter([online], IsCompletedOf(user.id)) == [online];
    assert Filter([desk], IsCompleted()) == [];
    assert Filter([desk], IsCompletedOf(user.id)) == [];
    ReduceIsSum(0, Prices([online]));
    ReduceIsSum(0, Quantities([online]));
  }

  /** Raising one ticket's `sold` from `s` to `(s ?? 0) + q`, as a purchase
      does, raises `ticketsSold` by exactly `q`. */
  lemma {:induction false} SoldUpdateRaisesTicketsSold(sold: seq<Option<int>>, i: nat, q: int)
    requires i < |sold|
    ensures TicketsSold(Some(sold[i := Some(OrZero(sold[i]) + q)])) == TicketsSold(Some(sold)) + q
  {
    var after := sold[i := Some(OrZero(sold[i]) + q)];
    assert sold == sold[..i] + [sold[i]] + sold[i + 1..];
    assert after == sold[..i] + [Some(OrZero(sold[i]) + q)] + sold[i + 1..];
    SumOrZeroAppend(sold[..i] + [sold[i]], sold[i + 1..]);
    SumOrZeroAppend(sold[..i], [sold[i]]);
    SumOrZeroAppend(sold[..i] + [Some(OrZero(sold[i]) + q)], sold[i + 1..]);
    SumOrZeroAppend(sold[..i], [Some(OrZero(sold[i]) + q)]);
    ReduceIsSum(0, sold);
    ReduceIsSum(0, after);
  }

  /** A recent transaction as the recent lists fetch it. */
  datatype RecentRow = RecentRow(id: string, userId: string, createdAt: int)

  function RecentCreatedAt(r: RecentRow): int { r.createdAt }

  function AnyRow(): RecentRow -> bool { (r: RecentRow) => true }

  function OwnRow(userId: string): RecentRow -> bool { (r: RecentRow) => r.userId == userId }

  /** `order("created_at", { ascending: false }).limit(5)`, over all
      transactions (admin, staff) or one user's (customer). */
  function Recent(rows: seq<RecentRow>, userId: Option<string>): seq<RecentRow> {
    LedgerQueries.Listing(rows, if userId.Some? then OwnRow(userId.value) else AnyRow(), RecentCreatedAt, 0, 5).rows
  }

  /** The recent lists hold the five newest of the rows they select, or all
      of them when fewer: newest first, each a fetched row, and the
      customer's only their own. */
  lemma {:induction false} RecentCorrect(rows: seq<RecentRow>, userId: Option<string>)
    ensures var r := Recent(rows, userId);
            && |r| <= 5
            && (forall i, j :: 0 <= i < j < |r| ==> r[i].createdAt >= r[j].createdAt)
            && (forall x :: x in r ==> x in rows)
            && (userId.Some? ==> forall x :: x in r ==> x.userId == userId.value)
            && |r| == Min(5, |Filter(rows, if userId.Some? then OwnRow(userId.value) else AnyRow())|)
            && (|rows| >= 5 && userId.None? ==> |r| == 5)
  {
    var keep := if userId.Some? then OwnRow(userId.value) else AnyRow();
    LedgerQueries.ListingCorrect(rows, keep, RecentCreatedAt, 0, 5);
    if userId.None? {
      FilterKeepsAll(rows, keep);
    }
  }
}
