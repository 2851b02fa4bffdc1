/** The event detail page (hooks/use-event-detail.tsx): once the event's
    ticket types arrive, the first one with stock left is preselected with
    quantity 1, and the price shown is the selected type's price times the
    quantity. */
module EventDetail {
  import opened Common
  import Ledger
  import LedgerQueries

  type TicketRecord = LedgerQueries.TicketRecord

  /** `(t.quota || 0) - (t.sold || 0) > 0`. */
  predicate HasStock(t: TicketRecord) {
    Ledger.Available(t.ticket) > 0
  }

  /** The position `tickets.find(hasStock)` stops at. */
  function FirstAvailable(tickets: seq<TicketRecord>): (r: Option<nat>)
    ensures r.Some? ==> r.value < |tickets| && HasStock(tickets[r.value])
                        && forall j :: 0 <= j < r.value ==> !HasStock(tickets[j])
    ensures r.None? ==> forall j :: 0 <= j < |tickets| ==> !HasStock(tickets[j])
  {
    FindIndex(tickets, HasStock)
  }

  /** `t => t.id === id`. */
  function HasId(id: string): TicketRecord -> bool {
    (t: TicketRecord) => t.id == id
  }

  /** `selectedTicketData ? selectedTicketData.price * quantity : 0`. */
  function TotalPrice(tickets: seq<TicketRecord>, selectedTicket: string, quantity: int): (r: int)
    ensures (forall j :: 0 <= j < |tickets| ==> tickets[j].id != selectedTicket) ==> r == 0
    ensures forall j :: 0 <= j < |tickets| && tickets[j].id == selectedTicket
                        && (forall k :: 0 <= k < j ==> tickets[k].id != selectedTicket) ==>
                          r == tickets[j].ticket.price * quantity
  {
    match FindIndex(tickets, HasId(selectedTicket))
    case None => 0
    case Some(i) => tickets[i].ticket.price * quantity
  }

  /** The page's state. */
  class EventDetailView {
    var tickets: seq<TicketRecord>
    var selectedTicket: string
    var quantity: int
    var isLoading: bool

    constructor ()
      ensures tickets == [] && selectedTicket == "" && quantity == 1 && isLoading
    {
      tickets, selectedTicket, quantity, isLoading := [], "", 1, true;
    }

    /** The fetch effect, from the ticket query on. `data` is `None` when
        the query returned no data. */
    method OnTicketsFetched(data: Option<seq<TicketRecord>>)
      modifies this
      ensures !isLoading
      ensures data.None? ==> tickets == old(tickets) && selectedTicket == old(selectedTicket) && quantity == old(quantity)
      ensures data.Some? ==> tickets == data.value
      ensures data.Some? && data.value == [] ==> selectedTicket == old(selectedTicket) && quantity == old(quantity)
      ensures data.Some? && FirstAvailable(data.value).Some? ==>
                selectedTicket == data.value[FirstAvailable(data.value).value].id && quantity == 1
      ensures data.Some? && data.value != [] && FirstAvailable(data.value).None? ==>
                selectedTicket == "" && quantity == 0
    {
      if data.Some? {
        tickets := data.value;
        if |data.value| > 0 {
          var firstAvailable := FirstAvailable(data.value);
          if firstAvailable.Some? {
            selectedTicket := data.value[firstAvailable.value].id;
            quantity := 1;
          } else {
            selectedTicket := "";
            quantity := 0;
          }
        }
      }
      isLoading := false;
    }
  }

  /** Right after tickets with stock arrive, the price shown is one ticket of
      the first type with stock, provided ticket ids are distinct. */
  lemma {:induction false} PreselectedPrice(tickets: seq<TicketRecord>)
    requires FirstAvailable(tickets).Some?
    requires forall a, b :: 0 <= a < b < |tickets| ==> tickets[a].id != tickets[b].id
    ensures var i := FirstAvailable(tickets).value;
            TotalPrice(tickets, tickets[i].id, 1) == tickets[i].ticket.price
  {
    var i := FirstAvailable(tickets).value;
    assert forall k :: 0 <= k < i ==> tickets[k].id != tickets[i].id;
  }
}
