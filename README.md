# Eventify ticket ledger — a Dafny model

Eventify sells tickets for events. Each event has ticket types, rows of the
`ticket` table with a `quota` and a `sold` count. A purchase goes through
the same steps whether it comes from the management dialog at the desk
(`createTransaction`) or from the customer checkout
(`createOnlineTransaction`):

1. look the ticket type up;
2. refuse the purchase when the quantity exceeds `quota - sold`;
3. insert a `transaction` row;
4. mint one `ticket_pass` row per ticket, each with its own QR code;
5. raise `sold` by the quantity.

The steps are not wrapped in a database transaction. A later failure leaves
the earlier writes in place.

The model covers that ledger and the code that reads it or feeds it:

- **Service layer.** The ticket and transaction services, the dashboard
  figures and the profile server actions.
- **Client side.** The order list with its pager, the generic pager, the
  explore page, the event detail page, the event-card description, the
  desk order dialog, the transaction report, the profile settings form and
  the storage upload helper.
- **Navigation.** The sign-in hook, the navbar hook, and the two
  active-link rules of the dashboard tabs and the sidebar.

## Layout

Each module follows one source file, or a small group of them.

| file | module | models |
|---|---|---|
| `common.dfy` | `Common` | JavaScript value helpers: `??`, `\|\|`, `slice`, `replace`, decimal text, stable sort, `range` windows, `filter`, sums |
| `text.dfy` | `Text` | `split` and `join` on a one-character separator |
| `ledger.dfy` | `Ledger` | `service/transaction.service.ts` and `service/ticket.service.ts`. The tables are values: purchases, updates and deletes are functions on them, and the class `Store` runs the same steps one assignment at a time |
| `queries.dfy` | `LedgerQueries` | the two listing queries: filter, newest first, one `range` window, exact count |
| `order_table.dfy` | `OrderTable` | `components/transaction/order-table.tsx` |
| `pagination.dfy` | `Pagination` | `components/ui/pagination.tsx` |
| `explore.dfy` | `Explore` | `hooks/use-explore.tsx` |
| `event_detail.dfy` | `EventDetail` | `hooks/use-event-detail.tsx` |
| `event_card.dfy` | `EventCard` | `components/common/event-card.tsx` |
| `create_dialog.dfy` | `CreateOrderDialog` | `components/management/transaction/dialog/create-dialog.tsx` |
| `report.dfy` | `TransactionReport` | `app/transaction/report/page.tsx` |
| `dashboard.dfy` | `Dashboard` | `service/dashboard.service.ts` |
| `upload.dfy` | `UploadFile` | `lib/helper/upload-file.tsx` |
| `profile_service.dfy` | `ProfileService` | `service/profile.service.ts` |
| `profile_settings.dfy` | `ProfileSettings` | `components/settings/profile-settings.tsx` |
| `auth_flow.dfy` | `AuthFlow` | `hooks/use-auth.tsx` |
| `navbar.dfy` | `Navbar` | `hooks/use-navbar.tsx` |
| `active_link.dfy` | `ActiveLink` | `components/dashboard/dashboard-nav.tsx`, `layout/dashboard/sidebar-layout/index.tsx`, `constant/dashboard.constant.tsx` |

Each backend call's outcome is an input to the model: whether it succeeded,
the id it assigned, or the rows it returned. The same holds for the signed-in
user, the clock, the random QR-code suffix and the date helpers. React state
setters are field assignments of a class, one class per component or hook.

## Model

| member | source | states |
|---|---|---|
| Common.FindIndex | hooks/use-event-detail.tsx:71 | `find` stops at the first element that satisfies the test, or finds none when no element does; the event page's selected ticket and first ticket with stock, and the order dialog's ticket, are all this search |
| Common.IndexOf | lib/helper/upload-file.tsx:15-18 | the first position where the pattern occurs, or none when it occurs nowhere |
| Common.RemoveFirstCorrect | lib/helper/upload-file.tsx:15-18 | `replace(pattern, "")` cuts the pattern off a string that starts with it, leaves a string without it unchanged, and otherwise removes exactly its length |
| Common.JsSlice | components/management/transaction/dialog/create-dialog.tsx:71 | `slice` agrees with plain slicing for in-range indices, clamps an end past the length, and is empty when the end is not after the start |
| Common.SliceIndex | components/management/transaction/dialog/create-dialog.tsx:71 | a negative `slice` index counts from the end, and the index is clamped to the length |
| Common.SortByRankCorrect | hooks/use-explore.tsx:69-81 | the sort is a permutation of its input, in non-decreasing rank |
| Common.Window | service/transaction.service.ts:38 | `range(offset, offset + limit - 1)` returns at most `limit` consecutive rows from `offset`, fewer at the end, none past it |
| Common.WindowLength | service/transaction.service.ts:38 | `range` returns `limit` rows, or every row after the offset when fewer remain |
| Common.PagesArePrefix | service/transaction.service.ts:38 | reading pages 1 to `k` in turn yields exactly the first `k * limit` rows, nothing skipped or repeated |
| Common.DecimalRoundTrip | components/management/transaction/dialog/create-dialog.tsx:71 | the digits of `toString()` denote the number |
| Ledger.StoredStatus | service/transaction.service.ts:158 | an online purchase stores "completed"; a desk purchase stores the given status, or "pending" when none is given |
| Ledger.NewTransaction | service/transaction.service.ts:151-170 | the inserted row carries the request's ticket and quantity, the buyer's id, and the stored status |
| Ledger.PurchaseRejectsOversell | service/transaction.service.ts:140-146 | a quantity above `(quota \|\| 0) - (sold \|\| 0)` fails with the not-enough-stock error naming that number, and no table changes |
| Ledger.EarlyFailureWritesNothing | service/transaction.service.ts:104-170 | a failure before the passes are inserted (no user, failed lookup, oversell, failed insert) leaves all three tables unchanged |
| Ledger.MintedPassesAreTagged | service/transaction.service.ts:171-180 | there are exactly `quantity` minted passes; each carries the transaction id and the ticket id, and its QR code starts with the transaction id and "-" |
| Ledger.FullSuccessTables | service/transaction.service.ts:151-200 | after a full success the new row is stored, the minted passes are appended, `sold` is raised by the quantity, and nothing else changes |
| Ledger.PurchaseMintsExactlyQuantity | service/transaction.service.ts:171-187 | a successful purchase appends exactly `quantity` passes after the old ones, and keeps the old ones in place |
| Ledger.NewTransactionHasQuantityPasses | service/transaction.service.ts:171-187 | when every old pass references a stored transaction, the new transaction owns exactly `quantity` passes |
| Ledger.PurchaseKeepsPassesReferenced | service/transaction.service.ts:171-187 | a purchase, whatever its outcome, never leaves a pass whose transaction is not stored |
| Ledger.NonPositiveQuantityOnlyInsertsRow | service/transaction.service.ts:171-200 | a zero or negative quantity that passes the check inserts the row and reports success, but mints no pass and leaves every `sold` alone |
| Ledger.PartialFailureIsNotRolledBack | service/transaction.service.ts:180-200 | a failed pass insert keeps the transaction row; a failed `sold` update keeps the row and its `quantity` passes; in both cases no `sold` changes |
| Ledger.PurchaseKeepsWithinQuota | service/transaction.service.ts:140-146 | a purchase changes no quota, a ticket whose `sold` changes ends with `sold <= quota`, and `sold <= quota` on every ticket is preserved |
| Ledger.RunKeepsWithinQuota | service/transaction.service.ts:218-327 | any sequence of purchases through either entry point keeps `sold <= quota` on every ticket |
| Ledger.RunSoldAccounting | service/transaction.service.ts:189-200 | after a sequence of purchases, a ticket's `sold` is its old value plus the quantities of the purchases that succeeded on it, so its availability drops by exactly that |
| Ledger.UpdateTransactionChangesOnlyStatus | service/transaction.service.ts:330-377 | only a signed-in admin or staff member changes a row; then only its status and timestamp change, and the ticket and pass tables are untouched |
| Ledger.DeleteTransactionKeepsStock | service/transaction.service.ts:380-403 | deleting a transaction never gives stock back (`sold` is unchanged); its passes are gone, and the others are kept in order |
| Ledger.DeleteTransactionKeepsPassesReferenced | service/transaction.service.ts:382-384 | when both deletes succeed, no pass is left without its transaction |
| Ledger.OrphanedPassesAfterSilentFailure | service/transaction.service.ts:382-384 | an ignored failure of the pass delete, followed by a successful row delete, leaves a pass whose transaction is gone |
| Ledger.CreateTicketStartsUnsold | service/ticket.service.ts:34-64 | a new ticket type is stored with `sold = 0` and the given fields; other rows and tables are untouched; `sold <= quota` is kept when the quota is not negative |
| Ledger.UpdateTicketKeepsSold | service/ticket.service.ts:67-99 | the result is the backend's answer; a successful edit of a stored ticket sets its name, price, quota and description to the edit's, `updated_at` to now and keeps `created_at`; a failure or a missing id changes nothing; `sold` and the event of every ticket are kept, other tickets and the other tables are untouched |
| Ledger.QuotaEditCanBreakWithinQuota | service/ticket.service.ts:69-80 | nothing stops a quota edit from dropping below `sold` (quota 10, sold 8, new quota 5) |
| Ledger.DeleteTicketRemovesOnlyThatRow | service/ticket.service.ts:102-123 | a successful delete removes exactly that ticket row and leaves transactions and passes alone |
| Ledger.Store.constructor | service/transaction.service.ts:104-106 | the store starts from the given tables |
| Ledger.Store.RunPurchase | service/transaction.service.ts:104-215 | running the steps one at a time gives the same tables and outcome as `Purchase` |
| Ledger.Store.CreateTransaction | service/transaction.service.ts:104-215 | `createTransaction`: it agrees with `Purchase` on the desk channel, and a created row has the given status, or "pending" |
| Ledger.Store.CreateOnlineTransaction | service/transaction.service.ts:218-327 | `createOnlineTransaction`: it agrees with `Purchase` online, and a created row is "completed" |
| Ledger.Store.UpdateTransactionStatus | service/transaction.service.ts:330-377 | the new state and the result agree with `UpdateTransaction` |
| Ledger.Store.RemoveTransaction | service/transaction.service.ts:380-403 | the new state and the result agree with `DeleteTransaction` |
| Ledger.Store.AddTicket | service/ticket.service.ts:34-64 | the new state and the result agree with `CreateTicket` |
| Ledger.Store.EditTicket | service/ticket.service.ts:67-99 | the new state and the result agree with `UpdateTicket` |
| Ledger.Store.RemoveTicket | service/ticket.service.ts:102-123 | the new state and the result agree with `DeleteTicket` |
| LedgerQueries.Lower | service/ticket.service.ts:14 | the case folding behind `ilike` keeps the length and folds each character |
| LedgerQueries.EmptySearchMatchesAll | service/ticket.service.ts:14 | `ilike '%%'` matches every name |
| LedgerQueries.NewestFirst | service/transaction.service.ts:37 | ordering by `created_at` descending keeps the number of rows |
| LedgerQueries.NewestFirstCorrect | service/transaction.service.ts:37 | the order is a permutation of the rows, newest first |
| LedgerQueries.ListingCorrect | service/transaction.service.ts:37-38 | a listing holds at most `limit` rows, exactly as many as remain after the offset when fewer, each a selected input row, newest first; the count is every selected row; from offset 0 with no more matches than `limit`, the page is every selected row |
| LedgerQueries.WindowOfNewestFirst | service/transaction.service.ts:37-38 | a window of the newest-first order holds input rows, still newest first |
| LedgerQueries.PagesCoverMatches | service/ticket.service.ts:15-16 | reading pages one after another, as many as the count needs, yields every selected row exactly once |
| LedgerQueries.ListTicketsCorrect | service/ticket.service.ts:5-31 | every listed ticket belongs to the event and contains the search in any case; at most `limit` are listed, newest first |
| LedgerQueries.EmptySearchCountsEventTickets | service/ticket.service.ts:13-16 | with an empty search every ticket of the event is counted |
| LedgerQueries.QueryTransactionsCorrect | service/transaction.service.ts:6-55 | the listed transactions are selected rows of the view, at most `limit` of them, newest first, and the count is all selected rows |
| LedgerQueries.OwnTransactionsOnly | service/transaction.service.ts:28-30 | staff and customers with a user id see only their own transactions |
| LedgerQueries.AllStatusIsNoFilter | service/transaction.service.ts:32-34 | the status "all" selects the same rows as no status |
| LedgerQueries.UnfilteredCountsEverything | service/transaction.service.ts:6-55 | without search, role or status the count is the size of the view |
| OrderTable.TotalPages | components/transaction/order-table.tsx:59 | `ceil(total / limit)`: the smallest page count whose pages hold every row; 0 exactly for no rows |
| OrderTable.Offset | components/transaction/order-table.tsx:90 | the offset of page `p` is `(p - 1) * limit`, never negative from page 1 on |
| OrderTable.PagesInRangeStartInside | components/transaction/order-table.tsx:59-90 | every page from 1 to the page count starts inside the list |
| OrderTable.NonEmptyPageIsCounted | components/transaction/order-table.tsx:59-90 | a page that shows a row is within the page count |
| OrderTable.StatusParam | components/transaction/order-table.tsx:91-92 | the filter "all" sends no status; any other filter is sent as given |
| OrderTable.StatusParamFilters | components/transaction/order-table.tsx:91-101 | the list is filtered by status exactly when the filter is not "all" |
| OrderTable.FetchedOrdersAreOwn | components/transaction/order-table.tsx:94-101 | every order fetched belongs to the signed-in customer |
| OrderTable.MapRows | components/transaction/order-table.tsx:106-114 | one card per row, in order |
| OrderTable.MapRowsKeepsRows | components/transaction/order-table.tsx:106-114 | each card keeps its row's id, code and amount, and shows "pending" for a null status |
| OrderTable.StatusTextLabels | components/transaction/order-table.tsx:168-183 | the five known statuses get a label that is not itself a status; other text is shown as is; labelling twice changes nothing more |
| OrderTable.StatusTextDistinguishesKnown | components/transaction/order-table.tsx:168-183 | different known statuses get different labels |
| OrderTable.PageWindow | components/transaction/order-table.tsx:337 | the pager shows `min(5, totalPages)` buttons |
| OrderTable.PageWindowCorrect | components/transaction/order-table.tsx:337-347 | the buttons are consecutive pages within 1 to `totalPages`, and include the current page |
| OrderTable.RangeLabelMatchesWindow | components/transaction/order-table.tsx:325-326 | "from - to of total" are the first and last row numbers of the rows the page shows |
| OrderTable.PrevNextTargets | components/transaction/order-table.tsx:330-366 | within the page count, the targets stay in range; an enabled button moves exactly one page; a disabled one targets the current page |
| OrderTable.OrderListView.constructor | components/transaction/order-table.tsx:54-56 | no orders, total 0, loading |
| OrderTable.OrderListView.FetchOrders | components/transaction/order-table.tsx:85-124 | without a user nothing happens; otherwise the customer query is sent, and the cards and total come from the answer, or are cleared on failure |
| Pagination.NumberOr | components/ui/pagination.tsx:17 | `x \|\| fallback`: absent and 0 fall through to the fallback |
| Pagination.ActivePage | components/ui/pagination.tsx:17 | `currentPage \|\| page \|\| 1`, never 0 |
| Pagination.SafeTotal | components/ui/pagination.tsx:18 | `totalPages \|\| 1`, never 0 |
| Pagination.ZeroTotalBranchesAreDead | components/ui/pagination.tsx:23-39 | the `safeTotal === 0` guards never fire: the label shows the active page and total, and the buttons depend on the page alone |
| Pagination.RequestsStayInRange | components/ui/pagination.tsx:29-39 | with the active page in range, an enabled button asks for a page in range |
| Pagination.NoPagesShowsOneOfOne | components/ui/pagination.tsx:17-39 | with no pages the pager reads "1 of 1" and both buttons are disabled |
| Explore.FilterByCategoryCorrect | hooks/use-explore.tsx:62-66 | a category keeps exactly its events, in order; no category keeps all |
| Explore.SortEventsCorrect | hooks/use-explore.tsx:69-81 | sorting is a permutation, newest or oldest first; any other choice leaves the order alone |
| Explore.PageOf | hooks/use-explore.tsx:86-89 | a page holds no more events than the list |
| Explore.PageOfIsWindow | hooks/use-explore.tsx:86-89 | from page 1 on, a page is the five events at offset `(page - 1) * 5` |
| Explore.TotalPagesCorrect | hooks/use-explore.tsx:98-102 | the count is 0 exactly for no events, equals `ceil(n / 5)`, and its pages hold every event |
| Explore.ExploreView.constructor | hooks/use-explore.tsx:36 | no events, loading |
| Explore.ExploreView.FetchEvents | hooks/use-explore.tsx:49-95 | a successful fetch stores the filtered and sorted list and the current page of it; a failed one keeps both |
| Explore.ArrangeKeepsCategory | hooks/use-explore.tsx:62-84 | every event of a category view was fetched and belongs to the category |
| Explore.PageEventsMatchCategory | hooks/use-explore.tsx:62-89 | every event on a page of a category view was fetched and belongs to the category |
| EventDetail.FirstAvailable | hooks/use-event-detail.tsx:52-54 | the first ticket with stock, or none when no ticket has stock |
| EventDetail.TotalPrice | hooks/use-event-detail.tsx:71-74 | the selected ticket's price times the quantity, or 0 when no ticket is selected |
| EventDetail.EventDetailView.constructor | hooks/use-event-detail.tsx:32-35 | no tickets, no selection, quantity 1, loading |
| EventDetail.EventDetailView.OnTicketsFetched | hooks/use-event-detail.tsx:49-65 | the tickets are stored; the first with stock is selected with quantity 1; with none in stock the selection clears and the quantity becomes 0 |
| EventDetail.PreselectedPrice | hooks/use-event-detail.tsx:51-74 | right after tickets with stock arrive, and with distinct ticket ids, the total shown is the price of one ticket of the first type with stock |
| EventCard.TruncateCorrect | components/common/event-card.tsx:24-30 | a missing or empty description reads "No description"; up to 20 words are shown as is; longer ones show their first 20 words and "..." |
| EventCard.TwoWords | components/common/event-card.tsx:27 | two space-free words joined by a space split into two pieces |
| EventCard.CutHasMaxWords | components/common/event-card.tsx:28 | a cut description has exactly 20 pieces |
| EventCard.TruncateIdempotent | components/common/event-card.tsx:26-30 | truncating a truncated description changes nothing |
| CreateOrderDialog.OrderCodeShape | components/management/transaction/dialog/create-dialog.tsx:70-72 | the code is "ORD" followed by the last seven digits of the timestamp (all of them when there are fewer); those digits denote the timestamp mod 10^7, and the code has ten characters from 10^6 ms on |
| CreateOrderDialog.OrderCodesDifferWithinWindow | components/management/transaction/dialog/create-dialog.tsx:70-72 | openings less than 10^7 ms apart get different codes |
| CreateOrderDialog.FindTicket | components/management/transaction/dialog/create-dialog.tsx:82 | the ticket found is the first in the list with the id; none is found only when no ticket has the id |
| CreateOrderDialog.OrderForm.constructor | components/management/transaction/dialog/create-dialog.tsx:60-68 | every field is empty and the ticket list is empty |
| CreateOrderDialog.OrderForm.OnOpenChanged | components/management/transaction/dialog/create-dialog.tsx:74-78 | opening sets a fresh order code from the clock; the dialog's own effect changes nothing on close |
| CreateOrderDialog.OrderForm.RecomputeTotal | components/management/transaction/dialog/create-dialog.tsx:80-88 | with a ticket, a non-zero quantity and the ticket in the list, the total is price times quantity; otherwise the total is kept |
| CreateOrderDialog.OrderForm.ChooseEvent | components/management/transaction/dialog/create-dialog.tsx:133-136 | choosing an event clears the chosen ticket |
| CreateOrderDialog.OrderForm.OnTicketsFetched | components/management/transaction/dialog/create-dialog.tsx:57-68 | with an event chosen and rows returned, the ticket list becomes those rows; otherwise it is kept; nothing else changes |
| CreateOrderDialog.OrderForm.SetQuantity | components/management/transaction/dialog/create-dialog.tsx:177 | the quantity input sets the quantity, and nothing else changes |
| CreateOrderDialog.OrderForm.ChooseTicket | components/management/transaction/dialog/create-dialog.tsx:156 | the chosen ticket is recorded, and nothing else changes |
| CreateOrderDialog.OrderForm.ChooseStatus | components/management/transaction/dialog/create-dialog.tsx:203-215 | the chosen status is one of the three options offered |
| CreateOrderDialog.StoredStatusIsShownStatus | components/management/transaction/dialog/create-dialog.tsx:203-215 | the stored status is the one the select shows, "pending" by default, and is always one of the three options |
| TransactionReport.ReportFetchesEverything | app/transaction/report/page.tsx:56-61 | the report counts every transaction, receives at most 1000, and receives all of them when there are at most 1000 |
| TransactionReport.FilterByDateCorrect | app/transaction/report/page.tsx:66-76 | without dates nothing is dropped; otherwise a row is kept exactly when it is not before the start nor after the end day, and order is kept |
| TransactionReport.RangeLabelCorrect | app/transaction/report/page.tsx:110-118 | "Semua Tanggal" exactly when no date is set; with both dates `format(start) + " - " + format(end)`, and "-" in place of a missing side |
| TransactionReport.StatusShown | app/transaction/report/page.tsx:374 | the badge shows the status, or "pending" when it is null or empty |
| TransactionReport.StatusColourMismatch | app/transaction/report/page.tsx:366-375 | as written, "completed" is grey, and a badge reading "pending" for a null status is grey while "pending" itself is yellow |
| TransactionReport.StatusColourCorrectedAgrees | app/transaction/report/page.tsx:366-375 | with the colour taken from the shown text, "pending" is always yellow, "completed" green, and the other statuses keep their colours |
| TransactionReport.ReportView.constructor | app/transaction/report/page.tsx:50-51 | no rows, not loading |
| TransactionReport.ReportView.LoadData | app/transaction/report/page.tsx:50-83 | sends the report query, then keeps the rows in range, or none when the fetch fails; the count shown is the number kept |
| Dashboard.ReduceIsSum | service/dashboard.service.ts:94-97 | the `reduce` with nulls as 0 equals the plain sum |
| Dashboard.SumOrZeroNonNegative | service/dashboard.service.ts:76-78 | sums of non-negative values are non-negative |
| Dashboard.Prices | service/dashboard.service.ts:88-97 | one price per row |
| Dashboard.Quantities | service/dashboard.service.ts:170-180 | one quantity per row |
| Dashboard.CountOrZero | service/dashboard.service.ts:99-106 | `count \|\| 0`: a missing count reads 0 |
| Dashboard.NullsCountAsZero | service/dashboard.service.ts:76-78 | a failed fetch sums to 0, and null entries add nothing |
| Dashboard.PricesAppend | service/dashboard.service.ts:88-97 | prices distribute over concatenation |
| Dashboard.QuantitiesAppend | service/dashboard.service.ts:170-180 | quantities distribute over concatenation |
| Dashboard.RevenueAppend | service/dashboard.service.ts:88-97 | revenue adds up over any split of the transactions |
| Dashboard.TicketsOwnedAppend | service/dashboard.service.ts:170-180 | tickets owned add up over any split of the transactions |
| Dashboard.PurchaseRowEffect | service/dashboard.service.ts:88-97 | an online purchase row raises revenue by its total price, and the buyer's tickets owned by its quantity; a desk row with no chosen status raises neither |
| Dashboard.SoldUpdateRaisesTicketsSold | service/dashboard.service.ts:124-126 | raising one ticket's `sold` by `q`, as a purchase does, raises tickets sold by exactly `q` |
| Dashboard.RecentCorrect | service/dashboard.service.ts:109-208 | each recent list holds the five newest rows it selects, or all of them when fewer (all transactions for admin and staff, the user's own for a customer), newest first, each a fetched row; a failed fetch (`data ?? []`) is modelled as no rows |
| Text.Split | lib/helper/upload-file.tsx:9 | a split has at least one piece |
| Text.SplitPiecesAreFree | lib/helper/upload-file.tsx:9 | no piece of a split holds the separator |
| Text.JoinSplit | components/common/event-card.tsx:28 | joining the pieces of a split gives the text back |
| Text.SplitAppend | lib/helper/upload-file.tsx:9 | splitting at a separator splits each side on its own |
| Text.SplitJoin | components/common/event-card.tsx:28 | splitting a join of separator-free pieces gives the pieces back |
| UploadFile.FileExtCorrect | lib/helper/upload-file.tsx:9 | the extension holds no "."; it is the whole name when the name has no "."; otherwise it is the text after the last "." |
| UploadFile.FilePathKeepsExt | lib/helper/upload-file.tsx:10-11 | the stored path lies under `images/<path>/` and keeps the file's extension |
| UploadFile.OldPathOfPublicUrl | lib/helper/upload-file.tsx:15-18 | stripping a public URL gives back the stored path; text without the URL prefix is left as it is |
| UploadFile.Storage.constructor | lib/helper/upload-file.tsx:22-24 | the bucket starts with the given objects and no calls |
| UploadFile.Storage.Remove | lib/helper/upload-file.tsx:19 | a successful removal drops the path, a failed one changes nothing; the call is recorded |
| UploadFile.Storage.Upload | lib/helper/upload-file.tsx:22-24 | a successful upload stores the file at the path, replacing what was there; the call is recorded |
| UploadFile.UploadFile | lib/helper/upload-file.tsx:4-33 | the old image's path is removed first, then the file is uploaded under a fresh path; the public URL is returned, or none when the upload fails |
| ProfileService.UpdateRecord | service/profile.service.ts:73-80 | the record holds `updated_at` and exactly the defined fields, with their values |
| ProfileService.WritesProfileRowIff | service/profile.service.ts:82 | the row is written exactly when at least one of the four fields is defined |
| ProfileService.AvatarOf | service/profile.service.ts:175 | an avatar is removed exactly when the row holds a non-empty one |
| ProfileService.Accounts.constructor | service/profile.service.ts:58 | the accounts start from the given tables and session |
| ProfileService.Accounts.CurrentUser | service/profile.service.ts:64 | the signed-in user is a known auth user |
| ProfileService.Accounts.UpdateProfile | service/profile.service.ts:58-114 | it fails without a user; otherwise it writes the row when a field is defined, then changes the auth email when it is new; the first failure ends the call, and earlier writes stay |
| ProfileService.Accounts.UpdatePassword | service/profile.service.ts:116-147 | it fails without a user; otherwise the password is set exactly when the backend accepts it |
| ProfileService.Accounts.DeleteAccount | service/profile.service.ts:149-212 | in order: the avatar file is removed (whatever the outcome), the row deleted, the auth user deleted, then sign-out; each failure ends the call and keeps what was already deleted |
| ProfileService.DeleteRemovesUploadedAvatar | service/profile.service.ts:175-180 | an avatar uploaded to the "eventify" bucket is the very file `deleteAccount` removes |
| ProfileSettings.AvatarCheck | components/settings/profile-settings.tsx:68-85 | a file is accepted exactly when it is an image of at most 5 MiB; each rejection names its reason |
| ProfileSettings.AvatarUrl | components/settings/profile-settings.tsx:96-111 | the avatar sent is the upload's URL when a file was picked, otherwise the shown avatar, otherwise the saved one |
| ProfileSettings.SettingsForm.constructor | components/settings/profile-settings.tsx:57-66 | each field starts from its initial value, or "" when null |
| ProfileSettings.SettingsForm.HandleAvatarChange | components/settings/profile-settings.tsx:68-85 | an accepted file is previewed and kept for upload; a rejected one changes nothing |
| ProfileSettings.SettingsForm.HandleResetAvatar | components/settings/profile-settings.tsx:87-92 | the form goes back to the saved avatar, with no file picked |
| ProfileSettings.SettingsForm.HandleSaveProfile | components/settings/profile-settings.tsx:94-126 | a picked file is uploaded after removing the saved avatar's file; a failed upload stops before the update; after a save the stored row's avatar is the one shown |
| ProfileSettings.SettingsForm.HandleChangePassword | components/settings/profile-settings.tsx:128-146 | an empty or unconfirmed password is refused without a call; a change is made only for the signed-in user, and clears both fields |
| ProfileSettings.SettingsForm.HandleDeleteAccount | components/settings/profile-settings.tsx:148-162 | after a successful deletion the dialog closes, the user is signed out, and the page goes to "/" |
| AuthFlow.LoginRoute | hooks/use-auth.tsx:85-96 | admins go to "/admin", staff to "/staff", everyone else to "/" |
| AuthFlow.AuthHook.constructor | hooks/use-auth.tsx:71 | neither request is pending, and there is no navigation |
| AuthFlow.AuthHook.HandleLogin | hooks/use-auth.tsx:71-107 | only an accepted login with a readable role navigates, to that role's route |
| AuthFlow.AuthHook.HandleRegister | hooks/use-auth.tsx:109-137 | the service is called exactly when the passwords match; only a successful registration navigates to "/auth/success" |
| AuthFlow.AuthHook.HandleLogout | hooks/use-auth.tsx:139-156 | whatever the service does, the page goes to "/auth/login" |
| Navbar.SafeUser | hooks/use-navbar.tsx:13 | a missing user reads as a guest without id |
| Navbar.DashboardUrl | hooks/use-navbar.tsx:23-29 | "/admin" for admins, "/staff" for staff, "/customer" for everyone else |
| Navbar.DashboardAgreesWithLogin | hooks/use-navbar.tsx:23-29 | admins and staff land on the same dashboard after login and from the navbar; others get "/customer" here and "/" after login |
| Navbar.NavbarHook.constructor | hooks/use-navbar.tsx:8-9 | both menus are closed |
| Navbar.NavbarHook.ToggleMobileMenu | hooks/use-navbar.tsx:15-17 | flips the mobile menu only |
| Navbar.NavbarHook.ToggleProfileDropdown | hooks/use-navbar.tsx:19-21 | flips the profile dropdown only |
| Navbar.NavbarHook.HandleDashboardClick | hooks/use-navbar.tsx:23-34 | goes to the user's dashboard and closes both menus |
| Navbar.NavbarHook.HandleLogoutClick | hooks/use-navbar.tsx:36-40 | logs out through the sign-in hook, which goes to "/auth/login", and closes both menus |
| ActiveLink.AtMostOneTab | components/dashboard/dashboard-nav.tsx:43-45 | under the tabs' rule at most one of a root and its branches is active |
| ActiveLink.DashboardTabsExclusive | components/dashboard/dashboard-nav.tsx:14-45 | the three dashboard tabs are never active together, and "Dashboard" is active only on "/dashboard" itself |
| ActiveLink.CustomerItemsBranch | constant/dashboard.constant.tsx:11-30 | the customer items all hang below "/customer/", each on its own first letter |
| ActiveLink.CustomerSidebarExclusive | layout/dashboard/sidebar-layout/index.tsx:27 | the customer sidebar has no dashboard item, so even the raw prefix rule lights at most one of its items |
| ActiveLink.AdminItemsBranch | constant/dashboard.constant.tsx:59-102 | the admin items all hang below "/admin/", each on its own first letter |
| ActiveLink.StaffItemsBranch | constant/dashboard.constant.tsx:32-57 | the staff items all hang below "/staff/", each on its own first letter |
| ActiveLink.SidebarOverlaps | layout/dashboard/sidebar-layout/index.tsx:27 | as written, "/admin/event" lights both "/admin" and "/admin/event", and "/staff/events" lights "/staff/event" |
| ActiveLink.SidebarCorrectedExclusive | constant/dashboard.constant.tsx:32-102 | with the root matched exactly, at most one admin or staff sidebar item is active, the admin and staff dashboard items only on "/admin" and "/staff" themselves, and every other item keeps its prefix rule |

## Left out

- The check-then-write race. Two purchases that run at the same time can
  both pass the stock check. The model runs purchases one after another, so
  `Ledger.RunKeepsWithinQuota` holds only for sequential calls.
- `ilike` is modelled as a case-insensitive substring test with ASCII case
  folding. Its `%` and `_` wildcards inside the search text and locale-aware
  case folding are not modelled.
- `range` with a negative offset or a non-positive limit is not modelled:
  offsets and limits are natural numbers.
- The explore page fetches at most 100 published events. The model takes the
  fetched list as given and leaves the search query to the event service,
  which is not part of this model.
- `Explore.SortEvents` is a stable sort over values. The in-place
  `Array.prototype.sort` of the source is modelled by its result, not by its
  steps.
- The random QR-code suffix is the input function `qrSuffix`. Its uniqueness
  is not modelled.
- The clock, local end-of-day, `date-fns` formatting and `toISOString` are
  inputs of the model.
- The backend's order of rows with equal `created_at` is not modelled. The
  model orders ties stably by input position.
- A `NaN` quantity in the desk dialog is not modelled: the quantity is an
  optional integer.
- The dashboard's count queries are left to the backend; only their `count || 0`
  default is modelled (`Dashboard.CountOrZero`).
- Toasts, console output, loading spinners and error messages are left out.
  Failures are the `false`/`None` results.
- `getPublicUrl` is taken to be `<url>/storage/v1/object/public/<bucket>/<path>`.
- The joins that the transaction listing selects (event, ticket and user
  fields) are plain fields of the row.
- `getTransactionDetail`, `getTicketPassByTransaction`, `getCurrentProfile`
  and the profile lookup are read-only fetches. They are not modelled.
- `isLoading` and `isPending` are modelled only where a method finishes; the
  states in between are not.
- The object URL of a picked avatar is an input of
  `ProfileSettings.SettingsForm.HandleAvatarChange`.
- The customer sidebar has no root item, so `ActiveLink.SidebarCorrectedExclusive`
  speaks about the admin and staff items only; `ActiveLink.CustomerSidebarExclusive`
  covers the customer items under the rule as written.
- `Navbar.NavbarHook.HandleLogoutClick` takes `handleLogout` from an auth
  context (hooks/auth-context), which is not part of this model. The model
  takes it to be `handleLogout` of hooks/use-auth.tsx:139-156, which goes to
  "/auth/login" whatever the service answers.
- Ledger.OrphanedPassesAfterSilentFailure: the orphan pass exists only if
  `ticket_pass.transaction_id` has no foreign key that cascades or restricts
  the delete. The database schema is not part of this model; the ledger
  assumes no such constraint.
- ProfileService.DeleteRemovesUploadedAvatar: `uploadFile` stores avatars in
  the configured bucket (lib/helper/upload-file.tsx:12), while `deleteAccount`
  always strips and removes from "eventify" (service/profile.service.ts:175-180).
  The lemma speaks of the "eventify" bucket only; with another configured
  bucket the uploaded avatar is not the file removed.
- `CreateOrderDialog.OrderForm.OnOpenChanged` is the dialog's own effect,
  which keeps the form's values on close. The dialog's owner resets the whole
  form when it closes (hooks/use-transaction.tsx:43-49); that owner is not
  part of this model, so the kept values are not what the app shows after a
  close.
- Dashboard.TicketsSold, Dashboard.Revenue, Dashboard.TicketsOwned: sums are
  over unbounded integers. JavaScript number precision above 2^53 is not
  modelled.

## Findings

| source | as written | input that shows it | evidently intended | confidence | as-written member | corrected member |
|---|---|---|---|---|---|---|
| app/transaction/report/page.tsx:366-375 | the badge is green only for "paid" or "success", yellow for "pending", and grey otherwise; the text shows `payment_status \|\| "pending"` | a completed transaction (what every online purchase stores) gets a grey badge; a null status reads "pending" but is grey | "completed" green, and the colour of the text shown ("pending" always yellow) | not executed | TransactionReport.StatusColourMismatch | TransactionReport.StatusColourCorrectedAgrees |
| layout/dashboard/sidebar-layout/index.tsx:27 | a sidebar item is active when the path starts with its href | "/admin/event" lights both "Dashboard" (`/admin`) and "Event" (`/admin/event`); "/staff/transaction" lights both `/staff` and `/staff/transaction` | the dashboard tabs' rule: an exact match for the role's root, a prefix match otherwise, so one item is active at a time | not executed | ActiveLink.SidebarOverlaps | ActiveLink.SidebarCorrectedExclusive |
