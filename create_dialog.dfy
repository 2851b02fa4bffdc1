/** The management dialog that creates a transaction at the desk
    (components/management/transaction/dialog/create-dialog.tsx): a fresh
    order code on every opening, the total recomputed from the chosen ticket
    and quantity, the ticket cleared when the event changes, and a payment
    status chosen from three options. */
module CreateOrderDialog {
  import opened Common
  import Ledger

  /** `"ORD" + Date.now().toString().slice(-7)`. */
  function OrderCode(now: nat): string {
    var digits := Decimal(now);
    "ORD" + JsSlice(digits, -7, |digits|)
  }

  /** The order code is "ORD" followed by the last seven digits of the
      timestamp (all of them when there are fewer): ten characters from
      10^6 ms on, and its digits denote `now mod 10^7`. */
  lemma {:induction false} OrderCodeShape(now: nat)
    ensures var code := OrderCode(now);
            && StartsWith(code, "ORD")
            && |code| == 3 + Min(7, |Decimal(now)|)
            && (forall i :: 3 <= i < |code| ==> '0' <= code[i] <= '9')
            && DecimalValue(code[3..]) == now % Pow10(7)
            && (now >= Pow10(6) ==> |code| == 10)
  {
    var digits := Decimal(now);
    var code := OrderCode(now);
    DecimalRoundTrip(now);
    DecimalLength(now);
    assert code[..3] == "ORD";
    if |digits| >= 7 {
      assert code[3..] == digits[|digits| - 7..];
      DecimalSuffixValue(digits, 7);
    } else {
      assert code[3..] == digits;
      Pow10Mono(|digits|, 7);
      ModUnique(now, 0, Pow10(7), now);
      if now >= Pow10(6) {
        Pow10Mono(|digits|, 6);
      }
    }
  }

  /** Two openings whose timestamps differ by less than 10^7 ms get different codes. */
  lemma {:induction false} OrderCodesDifferWithinWindow(a: nat, b: nat)
    requires a < b < a + Pow10(7)
    ensures OrderCode(a) != OrderCode(b)
  {
    OrderCodeShape(a);
    OrderCodeShape(b);
    ModDistinct(a, b, Pow10(7));
  }

  /** The payment statuses the dialog offers. */
  const StatusOptions: set<string> := {"pending", "completed", "cancelled"}

  /** The ticket choices of the selected event. */
  datatype TicketChoice = TicketChoice(id: string, name: string, price: int)

  /** `t => t.id === id`. */
  function ChoiceHasId(id: string): TicketChoice -> bool {
    (t: TicketChoice) => t.id == id
  }

  /** `tickets.find((t) => t.id === id)`: the first ticket with the id. */
  function FindTicket(tickets: seq<TicketChoice>, id: string): (r: Option<TicketChoice>)
    ensures r.Some? ==> exists k :: 0 <= k < |tickets| && tickets[k] == r.value && r.value.id == id
                                    && forall j :: 0 <= j < k ==> tickets[j].id != id
    ensures r.None? ==> forall t :: t in tickets ==> t.id != id
  {
    match FindIndex(tickets, ChoiceHasId(id))
    case None => None
    case Some(k) => Some(tickets[k])
  }

  /** The form's values. The form has no default values, so the payment
      status is unset until one is chosen. `quantity` holds the number
      input's value, `None` when empty. */
  class OrderForm {
    var orderCode: string
    var eventId: string
    var ticketId: string
    var quantity: Option<int>
    var totalPrice: Option<int>
    var paymentStatus: Option<string>
    var tickets: seq<TicketChoice>

    /** The status is unset or one of the offered options. */
    predicate Valid()
      reads this
    {
      paymentStatus.None? || paymentStatus.value in StatusOptions
    }

    constructor ()
      ensures Valid()
      ensures orderCode == "" && eventId == "" && ticketId == "" && quantity.None? && totalPrice.None? && paymentStatus.None?
      ensures tickets == []
    {
      orderCode, eventId, ticketId := "", "", "";
      quantity, totalPrice, paymentStatus := None, None, None;
      tickets := [];
    }

    /** The effect on `open`: each opening sets a fresh order code. */
    method OnOpenChanged(open: bool, now: nat)
      modifies this
      ensures open ==> orderCode == OrderCode(now)
      ensures !open ==> orderCode == old(orderCode)
      ensures eventId == old(eventId) && ticketId == old(ticketId) && quantity == old(quantity)
      ensures totalPrice == old(totalPrice) && paymentStatus == old(paymentStatus) && tickets == old(tickets)
    {
      if open {
        orderCode := "ORD" + JsSlice(Decimal(now), -7, |Decimal(now)|);
      }
    }

    /** The effect on ticket, quantity and ticket list: with a ticket chosen
        and a non-zero quantity, and the ticket found, the total becomes
        price times quantity; otherwise it is left as it was. */
    method RecomputeTotal()
      modifies this
      ensures ticketId != "" && quantity.Some? && quantity.value != 0 && FindTicket(tickets, ticketId).Some? ==>
                totalPrice == Some(FindTicket(tickets, ticketId).value.price * quantity.value)
      ensures !(ticketId != "" && quantity.Some? && quantity.value != 0 && FindTicket(tickets, ticketId).Some?) ==>
                totalPrice == old(totalPrice)
      ensures orderCode == old(orderCode) && eventId == old(eventId) && ticketId == old(ticketId)
      ensures quantity == old(quantity) && paymentStatus == old(paymentStatus) && tickets == old(tickets)
    {
      if ticketId != "" && quantity.Some? && quantity.value != 0 {
        var selected := FindTicket(tickets, ticketId);
        if selected.Some? {
          totalPrice := Some(selected.value.price * quantity.value);
        }
      }
    }

    /** Choosing an event clears the chosen ticket. */
    method ChooseEvent(id: string)
      modifies this
      ensures eventId == id && ticketId == ""
      ensures orderCode == old(orderCode) && quantity == old(quantity) && totalPrice == old(totalPrice)
      ensures paymentStatus == old(paymentStatus) && tickets == old(tickets)
    {
      eventId := id;
      ticketId := "";
    }

    method ChooseTicket(id: string)
      modifies this
      ensures ticketId == id
      ensures orderCode == old(orderCode) && eventId == old(eventId) && quantity == old(quantity)
      ensures totalPrice == old(totalPrice) && paymentStatus == old(paymentStatus) && tickets == old(tickets)
    {
      ticketId := id;
    }

    /** The ticket-list effect: with an event chosen and rows returned, the
        list becomes the event's ticket types; otherwise it is kept. */
    method OnTicketsFetched(data: Option<seq<TicketChoice>>)
      modifies this
      ensures eventId != "" && data.Some? ==> tickets == data.value
      ensures !(eventId != "" && data.Some?) ==> tickets == old(tickets)
      ensures orderCode == old(orderCode) && eventId == old(eventId) && ticketId == old(ticketId)
      ensures quantity == old(quantity) && totalPrice == old(totalPrice) && paymentStatus == old(paymentStatus)
    {
      if eventId != "" && data.Some? {
        tickets := data.value;
      }
    }

    /** Typing in the quantity input; an empty input is `None`. */
    method SetQuantity(q: Option<int>)
      modifies this
      ensures quantity == q
      ensures orderCode == old(orderCode) && eventId == old(eventId) && ticketId == old(ticketId)
      ensures totalPrice == old(totalPrice) && paymentStatus == old(paymentStatus) && tickets == old(tickets)
    {
      quantity := q;
    }

    /** Choosing a status from the select; the select offers only the three options. */
    method ChooseStatus(status: string)
      requires Valid() && status in StatusOptions
      modifies this
      ensures Valid() && paymentStatus == Some(status)
      ensures orderCode == old(orderCode) && eventId == old(eventId) && ticketId == old(ticketId)
      ensures quantity == old(quantity) && totalPrice == old(totalPrice) && tickets == old(tickets)
    {
      paymentStatus := Some(status);
    }
  }

  /** The status the select shows (its default is "pending") is the status
      the ledger stores for the submitted form, and it is one of the options. */
  lemma StoredStatusIsShownStatus(paymentStatus: Option<string>)
    requires paymentStatus.None? || paymentStatus.value in StatusOptions
    ensures Ledger.StoredStatus(Ledger.Desk, paymentStatus) == paymentStatus.GetOr("pending")
    ensures Ledger.StoredStatus(Ledger.Desk, paymentStatus) in StatusOptions
  {
  }
}
