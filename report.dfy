/** The transaction report (app/transaction/report/page.tsx): up to 1000
    transactions of every status are fetched, narrowed to a date range,
    labelled with the range, counted, and each status is given a colour.

    Dates are integer timestamps. The end-of-day of a date (local 23:59:59.999)
    and the "dd MMM yyyy" formatting are passed in as functions. */
module TransactionReport {
  import opened Common
  import Ledger
  import LedgerQueries

  type Row = LedgerQueries.TransactionRow

  /** The parameters `loadData` sends: no search, 1000 rows from 0, status "all". */
  const ReportQuery := LedgerQueries.TransactionQuery("", 1000, 0, None, None, Some("all"))

  /** The report asks for every transaction, newest first: all are counted,
      at most 1000 arrive, and when there are no more than 1000 all of them do. */
  lemma {:induction false} ReportFetchesEverything(rows: seq<Row>)
    ensures var p := LedgerQueries.QueryTransactions(rows, ReportQuery);
            && p.count == |rows|
            && |p.rows| <= 1000
            && (forall r :: r in p.rows ==> r in rows)
            && (|rows| <= 1000 ==> multiset(p.rows) == multiset(rows))
  {
    var q := ReportQuery;
    var q' := q.(paymentStatus := None);
    LedgerQueries.AllStatusIsNoFilter(rows, q);
    LedgerQueries.UnfilteredCountsEverything(rows, 1000, 0);
    LedgerQueries.ListingCorrect(rows, LedgerQueries.TransactionFilter(q'), LedgerQueries.RowCreatedAt, 0, 1000);
    FilterKeepsAll(rows, LedgerQueries.TransactionFilter(q'));
  }

  /** The row test of `loadData`: not before the start, not after the end of the end day. */
  predicate InRange(created: int, startDate: Option<int>, endDate: Option<int>, endOfDay: int -> int) {
    && !(startDate.Some? && created < startDate.value)
    && !(endDate.Some? && created > endOfDay(endDate.value))
  }

  function RangeFilter(startDate: Option<int>, endDate: Option<int>, endOfDay: int -> int): Row -> bool {
    (r: Row) => InRange(r.createdAt, startDate, endDate, endOfDay)
  }

  /** The rows `loadData` keeps: all of them without dates, else those in range. */
  function FilterByDate(rows: seq<Row>, startDate: Option<int>, endDate: Option<int>, endOfDay: int -> int): seq<Row> {
    if startDate.Some? || endDate.Some? then Filter(rows, RangeFilter(startDate, endDate, endOfDay)) else rows
  }

  /** Without dates nothing is dropped; otherwise a row is kept exactly when
      it is in range, and the kept rows keep their order. */
  lemma {:induction false} FilterByDateCorrect(rows: seq<Row>, startDate: Option<int>, endDate: Option<int>, endOfDay: int -> int)
    ensures var kept := FilterByDate(rows, startDate, endDate, endOfDay);
            && (startDate.None? && endDate.None? ==> kept == rows)
            && (forall r :: r in kept ==> r in rows && InRange(r.createdAt, startDate, endDate, endOfDay))
            && (forall r :: r in rows && InRange(r.createdAt, startDate, endDate, endOfDay) ==> r in kept)
            && IsSubsequence(kept, rows)
  {
    if startDate.Some? || endDate.Some? {
      FilterIsSubsequence(rows, RangeFilter(startDate, endDate, endOfDay));
    } else {
      FilterKeepsAll(rows, RangeFilter(startDate, endDate, endOfDay));
      FilterIsSubsequence(rows, RangeFilter(startDate, endDate, endOfDay));
    }
  }

  /** `formatDateRangeLabel`. */
  function RangeLabel(startDate: Option<int>, endDate: Option<int>, format: int -> string): string {
    if startDate.None? && endDate.None? then "Semua Tanggal"
    else
      (if startDate.Some? then format(startDate.value) else "-") + " - " +
      (if endDate.Some? then format(endDate.value) else "-")
  }

  /** "Semua Tanggal" appears exactly when no date is set; otherwise the
      label is the two formatted dates around " - ", with "-" for a missing
      side. */
  lemma RangeLabelCorrect(startDate: Option<int>, endDate: Option<int>, format: int -> string)
    ensures startDate.None? && endDate.None? ==> RangeLabel(startDate, endDate, format) == "Semua Tanggal"
    ensures startDate.Some? && endDate.Some? ==> RangeLabel(startDate, endDate, format) == format(startDate.value) + " - " + format(endDate.value)
    ensures startDate.Some? && endDate.None? ==> RangeLabel(startDate, endDate, format) == format(startDate.value) + " - -"
    ensures startDate.None? && endDate.Some? ==> RangeLabel(startDate, endDate, format) == "- - " + format(endDate.value)
    ensures startDate.Some? || endDate.Some? ==> RangeLabel(startDate, endDate, format) != "Semua Tanggal"
  {
    if startDate.Some? || endDate.Some? {
      var left := if startDate.Some? then format(startDate.value) else "-";
      var text := RangeLabel(startDate, endDate, format);
      assert text[|left| + 1] == '-';
      assert forall i :: 0 <= i < |"Semua Tanggal"| ==> "Semua Tanggal"[i] != '-';
    }
  }

  datatype Colour = Green | Yellow | Grey

  /** The status badge colour as the report computes it: "paid" or
      "success" green, "pending" yellow, anything else (null too) grey. */
  function StatusColour(status: Option<string>): Colour {
    if status == Some("paid") || status == Some("success") then Green
    else if status == Some("pending") then Yellow
    else Grey
  }

  /** The badge text: `payment_status || "pending"`. */
  function StatusShown(status: Option<string>): (shown: string)
    ensures status.Some? && status.value != "" ==> shown == status.value
    ensures status.None? || status.value == "" ==> shown == "pending"
  {
    if status.Some? && status.value != "" then status.value else "pending"
  }

  /** As written, a completed transaction (what an online purchase stores and
      what the dashboard counts as revenue) gets a grey badge, and a row
      without status reads "pending" but is grey, not yellow. */
  lemma StatusColourMismatch()
    ensures StatusColour(Some(Ledger.StoredStatus(Ledger.Online, None))) == Grey
    ensures StatusShown(Some("completed")) == "completed" && StatusColour(Some("completed")) == Grey
    ensures StatusShown(None) == "pending" && StatusColour(None) == Grey && StatusColour(Some("pending")) == Yellow
  {
  }

  /** The colour of a status text the ledger uses. */
  function ColourOf(shown: string): Colour {
    if shown in {"completed", "paid", "success"} then Green
    else if shown == "pending" then Yellow
    else Grey
  }

  /** The badge colour taken from the text the badge shows, with "completed" green. */
  function StatusColourCorrected(status: Option<string>): Colour {
    ColourOf(StatusShown(status))
  }

  /** With the colour taken from the shown text, a badge reading "pending" is
      always yellow, a completed transaction is green, and the two statuses
      the old code already coloured keep their colour. */
  lemma StatusColourCorrectedAgrees(status: Option<string>)
    ensures StatusShown(status) == "pending" ==> StatusColourCorrected(status) == Yellow
    ensures StatusShown(status) == "completed" ==> StatusColourCorrected(status) == Green
    ensures StatusColourCorrected(Some(Ledger.StoredStatus(Ledger.Online, None))) == Green
    ensures StatusColour(status) != Grey ==> StatusColourCorrected(status) == StatusColour(status)
  {
  }

  /** The report's state. */
  class ReportView {
    var data: seq<Row>
    var isLoading: bool

    constructor ()
      ensures data == [] && !isLoading
    {
      data, isLoading := [], false;
    }

    /** `loadData`: sends the report query and keeps the rows in range, or
        shows nothing when the fetch fails. The count shown is `|data|`. */
    method LoadData(fetched: Option<seq<Row>>, startDate: Option<int>, endDate: Option<int>, endOfDay: int -> int)
      returns (sent: LedgerQueries.TransactionQuery)
      modifies this
      ensures sent == ReportQuery
      ensures fetched.Some? ==> data == FilterByDate(fetched.value, startDate, endDate, endOfDay)
      ensures fetched.None? ==> data == []
      ensures !isLoading
    {
      isLoading := true;
      sent := LedgerQueries.TransactionQuery("", 1000, 0, None, None, Some("all"));
      if fetched.Some? {
        var rows := fetched.value;
        if startDate.Some? || endDate.Some? {
          rows := Filter(rows, RangeFilter(startDate, endDate, endOfDay));
        }
        data := rows;
      } else {
        data := [];
      }
      isLoading := false;
    }
  }
}
