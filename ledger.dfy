/** The ticket-inventory and purchase ledger of service/transaction.service.ts
    and service/ticket.service.ts: three tables (`ticket`, `transaction`,
    `ticket_pass`) and the operations that change them.

    Every backend round trip is an input: whether it succeeded, the id the
    database gives a new row, the clock and the random part of a QR code.
    Each operation is first given as a function from the old tables to the
    new ones (the specification that the lemmas below reason about), and the
    class `Store` at the end performs the same steps one at a time, with early
    returns, and is proved to agree with it. */
module Ledger {
  import opened Common

  type Id = string

  /** A row of the `ticket` table. `quota` and `sold` are nullable columns. */
  datatype Ticket = Ticket(
    eventId: Id,
    name: string,
    price: int,
    quota: Option<int>,
    sold: Option<int>,
    description: Option<string>,
    createdAt: int,
    updatedAt: int)

  /** A row of the `transaction` table. */
  datatype Transaction = Transaction(
    orderCode: string,
    userId: Id,
    eventId: Id,
    ticketId: Id,
    quantity: int,
    totalPrice: int,
    paymentStatus: string,
    customerName: Option<string>,
    updatedAt: int)

  /** A row of the `ticket_pass` table. */
  datatype Pass = Pass(transactionId: Id, ticketId: Id, qrCode: string)

  /** The three tables. `ticket_pass` rows are kept in insertion order; their
      own ids are chosen by the database and never read by this code. */
  datatype Db = Db(tickets: map<Id, Ticket>, transactions: map<Id, Transaction>, passes: seq<Pass>)

  /** The signed-in user as the user service reports it: the auth id and the
      profile's name and role. */
  datatype User = User(id: Id, name: Option<string>, role: Option<string>)

  /** The two entry points: `createTransaction` (the management dialog) and
      `createOnlineTransaction` (the customer checkout). */
  datatype Channel = Desk | Online

  /** The payload of a purchase. */
  datatype PurchaseRequest = PurchaseRequest(
    orderCode: string,
    eventId: Id,
    ticketId: Id,
    quantity: int,
    totalPrice: int,
    paymentStatus: Option<string>,
    customerName: Option<string>)

  /** What the backend answers at each step of a purchase. `qrSuffix(i)` is
      the random text drawn for the i-th pass. */
  datatype Backend = Backend(
    user: Option<User>,
    ticketLookupOk: bool,
    newTransactionId: Id,
    transactionInsertOk: bool,
    passInsertOk: bool,
    soldUpdateOk: bool,
    qrSuffix: int -> string,
    now: int)

  datatype PurchaseError =
    | NotSignedIn
    | TicketNotFound
    | NotEnoughTickets(available: int)
    | TransactionInsertFailed
    | PassInsertFailed
    | SoldUpdateFailed

  datatype Outcome = Created(transactionId: Id) | Failed(error: PurchaseError)

  datatype PurchaseResult = PurchaseResult(db: Db, outcome: Outcome)

  /** `(quota || 0) - (sold || 0)`. */
  function Available(t: Ticket): int {
    OrZero(t.quota) - OrZero(t.sold)
  }

  /** No ticket type has sold more than its quota (nulls read as 0). */
  ghost predicate WithinQuota(db: Db) {
    forall id :: id in db.tickets ==> OrZero(db.tickets[id].sold) <= OrZero(db.tickets[id].quota)
  }

  /** Every pass belongs to a stored transaction. */
  ghost predicate PassesReferenceTransactions(db: Db) {
    forall p :: p in db.passes ==> p.transactionId in db.transactions
  }

  /** The passes of one transaction, in table order. */
  function PassesOf(passes: seq<Pass>, transactionId: Id): seq<Pass> {
    Filter(passes, (p: Pass) => p.transactionId == transactionId)
  }

  /** The payment status written into a new transaction row:
      `payment_status ?? "pending"` at the desk, always "completed" online. */
  function StoredStatus(channel: Channel, paymentStatus: Option<string>): (s: string)
    ensures channel.Online? ==> s == "completed"
    ensures channel.Desk? && paymentStatus.Some? ==> s == paymentStatus.value
    ensures channel.Desk? && paymentStatus.None? ==> s == "pending"
  {
    match channel
    case Desk => paymentStatus.GetOr("pending")
    case Online => "completed"
  }

  /** The transaction row that a purchase inserts. Online, the customer name
      is the signed-in profile's name; at the desk it is the payload's. */
  function NewTransaction(channel: Channel, req: PurchaseRequest, user: User, now: int): (t: Transaction)
    ensures t.ticketId == req.ticketId && t.quantity == req.quantity && t.userId == user.id
    ensures t.paymentStatus == StoredStatus(channel, req.paymentStatus)
  {
    Transaction(
      req.orderCode, user.id, req.eventId, req.ticketId, req.quantity, req.totalPrice,
      StoredStatus(channel, req.paymentStatus),
      if channel.Online? then user.name else req.customerName,
      now)
  }

  /** The pass rows built for a transaction: `quantity` rows, each carrying the
      transaction id, the ticket id and a QR code `"<transaction id>-<random>"`. */
  function MintPasses(transactionId: Id, ticketId: Id, quantity: nat, qrSuffix: int -> string): seq<Pass> {
    seq(quantity, i => Pass(transactionId, ticketId, transactionId + "-" + qrSuffix(i)))
  }

  /** One purchase, run to its first failing step. Nothing already written is
      undone when a later step fails. */
  function Purchase(db: Db, channel: Channel, req: PurchaseRequest, env: Backend): PurchaseResult {
    if env.user.None? then PurchaseResult(db, Failed(NotSignedIn))
    else if !env.ticketLookupOk || req.ticketId !in db.tickets then PurchaseResult(db, Failed(TicketNotFound))
    else
      var ticketRow := db.tickets[req.ticketId];
      var available := Available(ticketRow);
      if req.quantity > available then PurchaseResult(db, Failed(NotEnoughTickets(available)))
      else if !env.transactionInsertOk || env.newTransactionId in db.transactions then
        PurchaseResult(db, Failed(TransactionInsertFailed))
      else
        var id := env.newTransactionId;
        var db1 := db.(transactions := db.transactions[id := NewTransaction(channel, req, env.user.value, env.now)]);
        if req.quantity <= 0 then PurchaseResult(db1, Created(id))
        else if !env.passInsertOk then PurchaseResult(db1, Failed(PassInsertFailed))
        else
          var db2 := db1.(passes := db1.passes + MintPasses(id, req.ticketId, req.quantity, env.qrSuffix));
          if !env.soldUpdateOk then PurchaseResult(db2, Failed(SoldUpdateFailed))
          else
            var newSold := OrZero(ticketRow.sold) + req.quantity;
            PurchaseResult(
              db2.(tickets := db2.tickets[req.ticketId := ticketRow.(sold := Some(newSold), updatedAt := env.now)]),
              Created(id))
  }

  // ---------------------------------------------------------------------------
  // Properties of one purchase

  /** A request for more than `(quota || 0) - (sold || 0)` is refused with that
      number and writes no transaction, no pass and no `sold`. */
  lemma PurchaseRejectsOversell(db: Db, channel: Channel, req: PurchaseRequest, env: Backend)
    requires env.user.Some? && env.ticketLookupOk && req.ticketId in db.tickets
    requires req.quantity > Available(db.tickets[req.ticketId])
    ensures Purchase(db, channel, req, env) ==
            PurchaseResult(db, Failed(NotEnoughTickets(Available(db.tickets[req.ticketId]))))
  {
  }

  /** Every failure up to and including the transaction insert leaves all three tables as they were. */
  lemma EarlyFailureWritesNothing(db: Db, channel: Channel, req: PurchaseRequest, env: Backend)
    requires Purchase(db, channel, req, env).outcome.Failed?
    requires Purchase(db, channel, req, env).outcome.error !in {PassInsertFailed, SoldUpdateFailed}
    ensures Purchase(db, channel, req, env).db == db
  {
  }

  /** Every minted pass carries the transaction id, the ticket id and a QR
      code that starts with the transaction id and a dash. */
  lemma {:induction false} MintedPassesAreTagged(transactionId: Id, ticketId: Id, quantity: nat, qrSuffix: int -> string)
    ensures var m := MintPasses(transactionId, ticketId, quantity, qrSuffix);
            && |m| == quantity
            && (forall i :: 0 <= i < |m| ==>
                 m[i].transactionId == transactionId && m[i].ticketId == ticketId
                 && StartsWith(m[i].qrCode, transactionId + "-"))
            && PassesOf(m, transactionId) == m
  {
    var m := MintPasses(transactionId, ticketId, quantity, qrSuffix);
    forall i | 0 <= i < |m|
      ensures StartsWith(m[i].qrCode, transactionId + "-")
    {
      assert m[i].qrCode == (transactionId + "-") + qrSuffix(i);
    }
    FilterKeepsAll(m, (p: Pass) => p.transactionId == transactionId);
  }

  /** The tables after a full success with a positive quantity. */
  lemma FullSuccessTables(db: Db, channel: Channel, req: PurchaseRequest, env: Backend)
    requires req.quantity > 0
    requires Purchase(db, channel, req, env).outcome.Created?
    ensures env.user.Some? && req.ticketId in db.tickets && env.newTransactionId !in db.transactions
    ensures Purchase(db, channel, req, env).db ==
            Db(db.tickets[req.ticketId := db.tickets[req.ticketId].(sold := Some(OrZero(db.tickets[req.ticketId].sold) + req.quantity), updatedAt := env.now)],
               db.transactions[env.newTransactionId := NewTransaction(channel, req, env.user.value, env.now)],
               db.passes + MintPasses(env.newTransactionId, req.ticketId, req.quantity, env.qrSuffix))
  {
  }

  /** A full success with a positive quantity adds exactly `quantity` pass rows
      after the existing ones, each with the new transaction id, the ticket id
      and a QR code that starts with the transaction id and a dash; and it sets
      `sold` to the old value (null as 0) plus `quantity`. */
  lemma {:induction false} PurchaseMintsExactlyQuantity(db: Db, channel: Channel, req: PurchaseRequest, env: Backend)
    requires req.quantity > 0
    requires Purchase(db, channel, req, env).outcome.Created?
    ensures var after := Purchase(db, channel, req, env).db;
            var id := env.newTransactionId;
            && id !in db.transactions && id in after.transactions
            && |after.passes| == |db.passes| + req.quantity
            && after.passes[..|db.passes|] == db.passes
            && (forall i :: |db.passes| <= i < |after.passes| ==>
                 after.passes[i].transactionId == id && after.passes[i].ticketId == req.ticketId
                 && StartsWith(after.passes[i].qrCode, id + "-"))
            && |PassesOf(after.passes, id)| == |PassesOf(db.passes, id)| + req.quantity
            && req.ticketId in after.tickets
            && after.tickets[req.ticketId].sold == Some(OrZero(db.tickets[req.ticketId].sold) + req.quantity)
  {
    var id := env.newTransactionId;
    var minted := MintPasses(id, req.ticketId, req.quantity, env.qrSuffix);
    FullSuccessTables(db, channel, req, env);
    var after := Purchase(db, channel, req, env).db;
    assert after.passes == db.passes + minted;
    MintedPassesAreTagged(id, req.ticketId, req.quantity, env.qrSuffix);
    forall i | |db.passes| <= i < |after.passes|
      ensures after.passes[i] == minted[i - |db.passes|]
    {
    }
    FilterAppend(db.passes, minted, (p: Pass) => p.transactionId == id);
  }

  /** When every pass belongs to a stored transaction, the new transaction has
      exactly `quantity` passes after a full success. */
  lemma {:induction false} NewTransactionHasQuantityPasses(db: Db, channel: Channel, req: PurchaseRequest, env: Backend)
    requires PassesReferenceTransactions(db)
    requires req.quantity > 0
    requires Purchase(db, channel, req, env).outcome.Created?
    ensures |PassesOf(Purchase(db, channel, req, env).db.passes, env.newTransactionId)| == req.quantity
  {
    var id := env.newTransactionId;
    PurchaseMintsExactlyQuantity(db, channel, req, env);
    forall i | 0 <= i < |db.passes|
      ensures db.passes[i].transactionId != id
    {
      assert db.passes[i] in db.passes;
    }
    FilterDropsAll(db.passes, (p: Pass) => p.transactionId == id);
  }

  /** A purchase never leaves a dangling pass. */
  lemma {:induction false} PurchaseKeepsPassesReferenced(db: Db, channel: Channel, req: PurchaseRequest, env: Backend)
    requires PassesReferenceTransactions(db)
    ensures PassesReferenceTransactions(Purchase(db, channel, req, env).db)
  {
    var after := Purchase(db, channel, req, env).db;
    forall p | p in after.passes
      ensures p.transactionId in after.transactions
    {
      if p !in db.passes {
        var id := env.newTransactionId;
        var minted := MintPasses(id, req.ticketId, req.quantity, env.qrSuffix);
        assert after.passes == db.passes + minted;
        var i :| 0 <= i < |after.passes| && after.passes[i] == p;
        assert i >= |db.passes|;
      }
    }
  }

  /** A purchase with `quantity <= 0` that gets past the checks still inserts
      the transaction row, but creates no pass and leaves every `sold` alone. */
  lemma NonPositiveQuantityOnlyInsertsRow(db: Db, channel: Channel, req: PurchaseRequest, env: Backend)
    requires req.quantity <= 0
    requires env.user.Some? && env.ticketLookupOk && req.ticketId in db.tickets
    requires req.quantity <= Available(db.tickets[req.ticketId])
    requires env.transactionInsertOk && env.newTransactionId !in db.transactions
    ensures var r := Purchase(db, channel, req, env);
            && r.outcome == Created(env.newTransactionId)
            && r.db.passes == db.passes && r.db.tickets == db.tickets
            && r.db.transactions.Keys == db.transactions.Keys + {env.newTransactionId}
  {
  }

  /** Partial failures are not compensated: when the pass insert fails the
      transaction row stays; when the `sold` update fails the transaction row
      and all its passes stay. In both cases no `sold` changes. */
  lemma PartialFailureIsNotRolledBack(db: Db, channel: Channel, req: PurchaseRequest, env: Backend)
    requires Purchase(db, channel, req, env).outcome in {Failed(PassInsertFailed), Failed(SoldUpdateFailed)}
    ensures var r := Purchase(db, channel, req, env);
            && env.newTransactionId !in db.transactions
            && env.newTransactionId in r.db.transactions
            && r.db.tickets == db.tickets
            && (r.outcome == Failed(PassInsertFailed) ==> r.db.passes == db.passes)
            && (r.outcome == Failed(SoldUpdateFailed) ==>
                  req.quantity > 0 && |r.db.passes| == |db.passes| + req.quantity)
  {
  }

  /** Run sequentially, a purchase never pushes `sold` past `quota`: a ticket
      whose `sold` changes ends with `sold <= quota`, and the invariant
      `WithinQuota` is preserved. */
  lemma {:induction false} PurchaseKeepsWithinQuota(db: Db, channel: Channel, req: PurchaseRequest, env: Backend)
    ensures var after := Purchase(db, channel, req, env).db;
            after.tickets.Keys == db.tickets.Keys
            && (forall id :: id in db.tickets ==>
                 after.tickets[id].quota == db.tickets[id].quota
                 && (after.tickets[id].sold != db.tickets[id].sold ==>
                       OrZero(after.tickets[id].sold) <= OrZero(after.tickets[id].quota)))
    ensures WithinQuota(db) ==> WithinQuota(Purchase(db, channel, req, env).db)
  {
  }

  // ---------------------------------------------------------------------------
  // Purchases run one after another

  datatype PurchaseCall = PurchaseCall(channel: Channel, req: PurchaseRequest, env: Backend)

  /** The tables after running `calls` in order. */
  function RunPurchases(db: Db, calls: seq<PurchaseCall>): Db
    decreases |calls|
  {
    if calls == [] then db
    else RunPurchases(Purchase(db, calls[0].channel, calls[0].req, calls[0].env).db, calls[1..])
  }

  /** The total quantity of the calls in `calls` that reported success for
      ticket `ticketId` with a positive quantity. */
  function SucceededQuantity(db: Db, calls: seq<PurchaseCall>, ticketId: Id): int
    decreases |calls|
  {
    if calls == [] then 0
    else
      var c := calls[0];
      var r := Purchase(db, c.channel, c.req, c.env);
      (if r.outcome.Created? && c.req.ticketId == ticketId && c.req.quantity > 0 then c.req.quantity else 0)
      + SucceededQuantity(r.db, calls[1..], ticketId)
  }

  /** Any sequence of purchases keeps `sold <= quota` for every ticket type. */
  lemma {:induction false} RunKeepsWithinQuota(db: Db, calls: seq<PurchaseCall>)
    requires WithinQuota(db)
    ensures WithinQuota(RunPurchases(db, calls))
    decreases |calls|
  {
    if calls != [] {
      PurchaseKeepsWithinQuota(db, calls[0].channel, calls[0].req, calls[0].env);
      RunKeepsWithinQuota(Purchase(db, calls[0].channel, calls[0].req, calls[0].env).db, calls[1..]);
    }
  }

  /** After a sequence of purchases, a ticket's `sold` is its old value plus the
      quantities of exactly the calls that reported success for it; its quota is
      unchanged. So the remaining availability is the old one minus those
      quantities. */
  lemma {:induction false} RunSoldAccounting(db: Db, calls: seq<PurchaseCall>, ticketId: Id)
    requires ticketId in db.tickets
    ensures var after := RunPurchases(db, calls);
            && ticketId in after.tickets
            && after.tickets[ticketId].quota == db.tickets[ticketId].quota
            && OrZero(after.tickets[ticketId].sold) == OrZero(db.tickets[ticketId].sold) + SucceededQuantity(db, calls, ticketId)
            && Available(after.tickets[ticketId]) == Available(db.tickets[ticketId]) - SucceededQuantity(db, calls, ticketId)
    decreases |calls|
  {
    if calls != [] {
      var c := calls[0];
      var r := Purchase(db, c.channel, c.req, c.env);
      PurchaseKeepsWithinQuota(db, c.channel, c.req, c.env);
      if r.outcome.Created? && c.req.ticketId == ticketId && c.req.quantity > 0 {
        PurchaseMintsExactlyQuantity(db, c.channel, c.req, c.env);
      }
      RunSoldAccounting(r.db, calls[1..], ticketId);
    }
  }

  // ---------------------------------------------------------------------------
  // updateTransaction and deleteTransaction

  datatype UpdateResult = UpdateResult(db: Db, ok: bool)

  /** Only a signed-in admin or staff member may change a transaction's
      status; the update touches `payment_status` and `updated_at` only. An id
      that matches no row changes nothing and still reports success. */
  function UpdateTransaction(db: Db, id: Id, paymentStatus: string, user: Option<User>, updateOk: bool, now: int): UpdateResult {
    if user.None? || user.value.role.None? || user.value.role.value == "" then UpdateResult(db, false)
    else if user.value.role.value != "admin" && user.value.role.value != "staff" then UpdateResult(db, false)
    else if !updateOk then UpdateResult(db, false)
    else if id !in db.transactions then UpdateResult(db, true)
    else UpdateResult(db.(transactions := db.transactions[id := db.transactions[id].(paymentStatus := paymentStatus, updatedAt := now)]), true)
  }

  lemma UpdateTransactionChangesOnlyStatus(db: Db, id: Id, paymentStatus: string, user: Option<User>, updateOk: bool, now: int)
    ensures var r := UpdateTransaction(db, id, paymentStatus, user, updateOk, now);
            && (r.ok <==> updateOk && user.Some? && user.value.role in {Some("admin"), Some("staff")})
            && r.db.tickets == db.tickets && r.db.passes == db.passes
            && r.db.transactions.Keys == db.transactions.Keys
            && (forall k :: k in db.transactions && k != id ==> r.db.transactions[k] == db.transactions[k])
            && (id in db.transactions ==>
                  r.db.transactions[id] ==
                    if r.ok then db.transactions[id].(paymentStatus := paymentStatus, updatedAt := now)
                    else db.transactions[id])
  {
  }

  /** Deletes the transaction's passes (an error there is ignored), then the
      transaction row. Stock is never given back. */
  function DeleteTransaction(db: Db, id: Id, passDeleteOk: bool, transactionDeleteOk: bool): UpdateResult {
    var db1 := if passDeleteOk then db.(passes := Filter(db.passes, (p: Pass) => p.transactionId != id)) else db;
    if !transactionDeleteOk then UpdateResult(db1, false)
    else UpdateResult(db1.(transactions := db1.transactions - {id}), true)
  }

  lemma {:induction false} DeleteTransactionKeepsStock(db: Db, id: Id, passDeleteOk: bool, transactionDeleteOk: bool)
    ensures var r := DeleteTransaction(db, id, passDeleteOk, transactionDeleteOk);
            && r.db.tickets == db.tickets
            && (r.ok <==> transactionDeleteOk)
            && (r.ok ==> id !in r.db.transactions)
            && r.db.transactions - {id} == db.transactions - {id}
            && (passDeleteOk ==> PassesOf(r.db.passes, id) == [])
            && (passDeleteOk ==> forall p :: p in db.passes && p.transactionId != id ==> p in r.db.passes)
            && (!passDeleteOk ==> r.db.passes == db.passes)
  {
    if passDeleteOk {
      var kept := Filter(db.passes, (p: Pass) => p.transactionId != id);
      forall i | 0 <= i < |kept|
        ensures kept[i].transactionId != id
      {
        assert kept[i] in kept;
      }
      FilterDropsAll(kept, (p: Pass) => p.transactionId == id);
    }
  }

  /** Deleting with both steps succeeding keeps every pass attached to a stored transaction. */
  lemma {:induction false} DeleteTransactionKeepsPassesReferenced(db: Db, id: Id)
    requires PassesReferenceTransactions(db)
    ensures PassesReferenceTransactions(DeleteTransaction(db, id, true, true).db)
  {
  }

  /** If the pass delete fails silently and the row delete succeeds, passes are
      left pointing at a transaction that no longer exists. */
  lemma OrphanedPassesAfterSilentFailure()
    ensures var p := Pass("t1", "k1", "t1-abc");
            var tx := Transaction("ORD0000001", "u1", "e1", "k1", 1, 10, "pending", None, 0);
            var db := Db(map[], map["t1" := tx], [p]);
            PassesReferenceTransactions(db)
            && !PassesReferenceTransactions(DeleteTransaction(db, "t1", false, true).db)
  {
    var p := Pass("t1", "k1", "t1-abc");
    var tx := Transaction("ORD0000001", "u1", "e1", "k1", 1, 10, "pending", None, 0);
    var db := Db(map[], map["t1" := tx], [p]);
    var after := DeleteTransaction(db, "t1", false, true).db;
    assert p in after.passes && "t1" !in after.transactions;
  }

  // ---------------------------------------------------------------------------
  // Ticket rows: createTicket, updateTicket, deleteTicket

  datatype TicketInput = TicketInput(eventId: Id, name: string, price: int, quota: Option<int>, description: Option<string>)

  /** Inserts a new ticket row with `sold = 0`. */
  function CreateTicket(db: Db, input: TicketInput, newId: Id, insertOk: bool, now: int): UpdateResult {
    if !insertOk || newId in db.tickets then UpdateResult(db, false)
    else UpdateResult(db.(tickets := db.tickets[newId := Ticket(input.eventId, input.name, input.price, input.quota, Some(0), input.description, now, now)]), true)
  }

  lemma CreateTicketStartsUnsold(db: Db, input: TicketInput, newId: Id, insertOk: bool, now: int)
    ensures var r := CreateTicket(db, input, newId, insertOk, now);
            && (r.ok <==> insertOk && newId !in db.tickets)
            && (r.ok ==> (newId in r.db.tickets && r.db.tickets[newId].sold == Some(0)
                          && r.db.tickets[newId].name == input.name && r.db.tickets[newId].price == input.price
                          && r.db.tickets[newId].quota == input.quota && r.db.tickets[newId].description == input.description
                          && r.db.tickets[newId].eventId == input.eventId))
            && r.db.tickets - {newId} == db.tickets - {newId}
            && r.db.transactions == db.transactions && r.db.passes == db.passes
            && (WithinQuota(db) && (input.quota.None? || input.quota.value >= 0) ==> WithinQuota(r.db))
  {
  }

  datatype TicketEdit = TicketEdit(name: string, price: int, quota: Option<int>, description: Option<string>)

  /** Overwrites name, price, quota and description; `sold` and `event_id`
      are not touched and the new quota is not compared with `sold`. */
  function UpdateTicket(db: Db, id: Id, edit: TicketEdit, updateOk: bool, now: int): UpdateResult {
    if !updateOk then UpdateResult(db, false)
    else if id !in db.tickets then UpdateResult(db, true)
    else
      var t := db.tickets[id];
      UpdateResult(db.(tickets := db.tickets[id := t.(name := edit.name, price := edit.price, quota := edit.quota,
                                                    description := edit.description, updatedAt := now)]), true)
  }

  lemma UpdateTicketKeepsSold(db: Db, id: Id, edit: TicketEdit, updateOk: bool, now: int)
    ensures var r := UpdateTicket(db, id, edit, updateOk, now);
            && r.ok == updateOk
            && r.db.tickets.Keys == db.tickets.Keys
            && (forall k :: k in db.tickets ==>
                  r.db.tickets[k].sold == db.tickets[k].sold && r.db.tickets[k].eventId == db.tickets[k].eventId)
            && (forall k :: k in db.tickets && k != id ==> r.db.tickets[k] == db.tickets[k])
            && (r.ok && id in db.tickets ==>
                  && r.db.tickets[id].name == edit.name && r.db.tickets[id].price == edit.price
                  && r.db.tickets[id].quota == edit.quota && r.db.tickets[id].description == edit.description
                  && r.db.tickets[id].updatedAt == now && r.db.tickets[id].createdAt == db.tickets[id].createdAt)
            && (!r.ok || id !in db.tickets ==> r.db == db)
            && r.db.transactions == db.transactions && r.db.passes == db.passes
  {
  }

  /** A quota edit can break `sold <= quota`: a ticket with quota 10 and 8 sold
      edited down to quota 5. */
  lemma QuotaEditCanBreakWithinQuota()
    ensures var t := Ticket("e1", "Regular", 50000, Some(10), Some(8), None, 0, 0);
            var db := Db(map["k1" := t], map[], []);
            var r := UpdateTicket(db, "k1", TicketEdit("Regular", 50000, Some(5), None), true, 1);
            WithinQuota(db) && r.ok && !WithinQuota(r.db)
  {
    var t := Ticket("e1", "Regular", 50000, Some(10), Some(8), None, 0, 0);
    var db := Db(map["k1" := t], map[], []);
    var r := UpdateTicket(db, "k1", TicketEdit("Regular", 50000, Some(5), None), true, 1);
    assert r.db.tickets["k1"].sold == Some(8) && r.db.tickets["k1"].quota == Some(5);
  }

  /** Removes the one row with the given id. */
  function DeleteTicket(db: Db, id: Id, deleteOk: bool): UpdateResult {
    if !deleteOk then UpdateResult(db, false)
    else UpdateResult(db.(tickets := db.tickets - {id}), true)
  }

  lemma DeleteTicketRemovesOnlyThatRow(db: Db, id: Id, deleteOk: bool)
    ensures var r := DeleteTicket(db, id, deleteOk);
            && r.ok == deleteOk
            && (r.ok ==> r.db.tickets.Keys == db.tickets.Keys - {id})
            && (forall k :: k in db.tickets && k != id ==> k in r.db.tickets && r.db.tickets[k] == db.tickets[k])
            && r.db.transactions == db.transactions && r.db.passes == db.passes
  {
  }

  // ---------------------------------------------------------------------------
  // The tables as the service layer updates them in place

  class Store {
    var tickets: map<Id, Ticket>
    var transactions: map<Id, Transaction>
    var passes: seq<Pass>

    function Snapshot(): Db
      reads this
    {
      Db(tickets, transactions, passes)
    }

    constructor (initial: Db)
      ensures Snapshot() == initial
    {
      tickets, transactions, passes := initial.tickets, initial.transactions, initial.passes;
    }

    /** The common body of both purchase entry points. */
    method RunPurchase(channel: Channel, req: PurchaseRequest, env: Backend) returns (outcome: Outcome)
      modifies this
      ensures PurchaseResult(Snapshot(), outcome) == Purchase(old(Snapshot()), channel, req, env)
    {
      if env.user.None? {
        return Failed(NotSignedIn);
      }
      var user := env.user.value;
      if !env.ticketLookupOk || req.ticketId !in tickets {
        return Failed(TicketNotFound);
      }
      var ticketRow := tickets[req.ticketId];
      var available := OrZero(ticketRow.quota) - OrZero(ticketRow.sold);
      if req.quantity > available {
        return Failed(NotEnoughTickets(available));
      }
      if !env.transactionInsertOk || env.newTransactionId in transactions {
        return Failed(TransactionInsertFailed);
      }
      var id := env.newTransactionId;
      transactions := transactions[id := NewTransaction(channel, req, user, env.now)];
      if req.quantity > 0 {
        var minted := MintPasses(id, req.ticketId, req.quantity, env.qrSuffix);
        if !env.passInsertOk {
          return Failed(PassInsertFailed);
        }
        passes := passes + minted;
        var newSold := OrZero(ticketRow.sold) + req.quantity;
        if !env.soldUpdateOk {
          return Failed(SoldUpdateFailed);
        }
        tickets := tickets[req.ticketId := ticketRow.(sold := Some(newSold), updatedAt := env.now)];
      }
      return Created(id);
    }

    /** `createTransaction`: payment status from the payload, "pending" if absent. */
    method CreateTransaction(req: PurchaseRequest, env: Backend) returns (outcome: Outcome)
      modifies this
      ensures PurchaseResult(Snapshot(), outcome) == Purchase(old(Snapshot()), Desk, req, env)
      ensures outcome.Created? ==> transactions[outcome.transactionId].paymentStatus == req.paymentStatus.GetOr("pending")
    {
      outcome := RunPurchase(Desk, req, env);
    }

    /** `createOnlineTransaction`: always stored as "completed". */
    method CreateOnlineTransaction(req: PurchaseRequest, env: Backend) returns (outcome: Outcome)
      modifies this
      ensures PurchaseResult(Snapshot(), outcome) == Purchase(old(Snapshot()), Online, req, env)
      ensures outcome.Created? ==> transactions[outcome.transactionId].paymentStatus == "completed"
    {
      outcome := RunPurchase(Online, req, env);
    }

    method UpdateTransactionStatus(id: Id, paymentStatus: string, user: Option<User>, updateOk: bool, now: int) returns (ok: bool)
      modifies this
      ensures UpdateResult(Snapshot(), ok) == UpdateTransaction(old(Snapshot()), id, paymentStatus, user, updateOk, now)
    {
      if user.None? || user.value.role.None? || user.value.role.value == "" {
        return false;
      }
      var role := user.value.role.value;
      if role != "admin" && role != "staff" {
        return false;
      }
      if !updateOk {
        return false;
      }
      if id in transactions {
        transactions := transactions[id := transactions[id].(paymentStatus := paymentStatus, updatedAt := now)];
      }
      return true;
    }

    method RemoveTransaction(id: Id, passDeleteOk: bool, transactionDeleteOk: bool) returns (ok: bool)
      modifies this
      ensures UpdateResult(Snapshot(), ok) == DeleteTransaction(old(Snapshot()), id, passDeleteOk, transactionDeleteOk)
    {
      if passDeleteOk {
        passes := Filter(passes, (p: Pass) => p.transactionId != id);
      }
      if !transactionDeleteOk {
        return false;
      }
      transactions := transactions - {id};
      return true;
    }

    method AddTicket(input: TicketInput, newId: Id, insertOk: bool, now: int) returns (ok: bool)
      modifies this
      ensures UpdateResult(Snapshot(), ok) == CreateTicket(old(Snapshot()), input, newId, insertOk, now)
    {
      if !insertOk || newId in tickets {
        return false;
      }
      tickets := tickets[newId := Ticket(input.eventId, input.name, input.price, input.quota, Some(0), input.description, now, now)];
      return true;
    }

    method EditTicket(id: Id, edit: TicketEdit, updateOk: bool, now: int) returns (ok: bool)
      modifies this
      ensures UpdateResult(Snapshot(), ok) == UpdateTicket(old(Snapshot()), id, edit, updateOk, now)
    {
      if !updateOk {
        return false;
      }
      if id in tickets {
        tickets := tickets[id := tickets[id].(name := edit.name, price := edit.price, quota := edit.quota,
                                              description := edit.description, updatedAt := now)];
      }
      return true;
    }

    method RemoveTicket(id: Id, deleteOk: bool) returns (ok: bool)
      modifies this
      ensures UpdateResult(Snapshot(), ok) == DeleteTicket(old(Snapshot()), id, deleteOk)
    {
      if !deleteOk {
        return false;
      }
      tickets := tickets - {id};
      return true;
    }
  }
}
