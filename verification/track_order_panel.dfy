/** The client's "Current Orders" panel: which orders get a card, what each
    card's status field says, when the Track Order and View OTP buttons show,
    and what View OTP reports. */
module TrackOrderPanel {
  import opened Common
  import opened Text
  import opened OrderStore
  import ClientPortal

  /** The status text of a card and the visibility of its two buttons. */
  datatype CardState = CardState(statusText: string, trackVisible: bool, otpVisible: bool)

  /** The state a card is built in: text "Pending", both buttons hidden. */
  const InitialCard := CardState("Pending", false, false)

  /** The statuses for which the card offers tracking and the OTP. */
  const TrackableStatuses: set<string> := {"assigned", "accepted", "in_transit"}

  /** updateStatusBasedOnOrderStatus applied to a card; a status with no case
      leaves the card as it was, and a status with a case decides the whole
      card whatever it showed before. */
  function UpdateStatusBasedOnOrderStatus(card: CardState, status: string): (r: CardState)
    ensures status !in {"pending", "rejected"} + TrackableStatuses ==> r == card
    ensures status in {"pending", "rejected"} + TrackableStatuses ==>
              && r.trackVisible == r.otpVisible
              && (r.trackVisible <==> status in TrackableStatuses)
              && (r.statusText == "Rejected" <==> status == "rejected")
  {
    if status == "pending" then CardState("Pending", false, false)
    else if status == "assigned" || status == "accepted" then CardState("Accepted", true, true)
    else if status == "in_transit" then CardState("In Transit", true, true)
    else if status == "rejected" then CardState("Rejected", false, false)
    else card
  }

  /** A status with a case overwrites every part of the card: the card it was
      applied to makes no difference. */
  lemma CasedStatusIgnoresPreviousCard(a: CardState, b: CardState, status: string)
    requires status in {"pending", "rejected"} + TrackableStatuses
    ensures UpdateStatusBasedOnOrderStatus(a, status) == UpdateStatusBasedOnOrderStatus(b, status)
  {
  }

  /** The state of a freshly built tracking card for an order in `status`. The
      two buttons always agree, and they show exactly for the trackable
      statuses; an unknown status reads as "Pending". */
  function TrackingCard(status: string): (r: CardState)
    ensures r.trackVisible == r.otpVisible
    ensures r.trackVisible <==> status in TrackableStatuses
    ensures r.statusText == "Pending" <==> status != "rejected" && status !in TrackableStatuses
    ensures r.statusText == "Rejected" <==> status == "rejected"
    ensures r.statusText == "In Transit" <==> status == "in_transit"
  {
    UpdateStatusBasedOnOrderStatus(InitialCard, status)
  }

  /** The case table, one status at a time. */
  lemma TrackingCardTable()
    ensures TrackingCard("pending") == CardState("Pending", false, false)
    ensures TrackingCard("assigned") == CardState("Accepted", true, true)
    ensures TrackingCard("accepted") == CardState("Accepted", true, true)
    ensures TrackingCard("in_transit") == CardState("In Transit", true, true)
    ensures TrackingCard("rejected") == CardState("Rejected", false, false)
    ensures TrackingCard("delivered") == InitialCard
  {
  }

  /** A card's status text and buttons: View Bill for a completed order, whose
      text keeps the "Pending" it was built with, otherwise the tracking
      buttons in the state the order's status gives them. */
  datatype OrderCard = BillCard(statusText: string) | TrackCard(state: CardState)

  function BuildOrderCard(status: string, isCompleted: bool): (c: OrderCard)
    ensures c.BillCard? <==> isCompleted
    ensures c.BillCard? ==> c.statusText == InitialCard.statusText
    ensures c.TrackCard? ==>
              && c.state.trackVisible == c.state.otpVisible
              && (c.state.trackVisible <==> status in TrackableStatuses)
              && (c.state.statusText == "Rejected" <==> status == "rejected")
              && (c.state.statusText == "Pending" <==> status != "rejected" && status !in TrackableStatuses)
  {
    if isCompleted then BillCard(InitialCard.statusText) else TrackCard(TrackingCard(status))
  }

  /** loadCurrentOrders: one card per order of the client whose status is
      active, each built as not completed. */
  function LoadCurrentOrders(st: Store, clientId: int): (cards: map<int, OrderCard>)
    ensures forall id :: id in cards <==>
              id in st.orders && st.orders[id].clientId == clientId
              && st.orders[id].status in ClientPortal.ActiveStatuses
    ensures forall id :: id in cards ==>
              && cards[id].TrackCard?
              && cards[id].state.statusText != "Rejected"
              && (cards[id].state.trackVisible <==> st.orders[id].status != "pending")
  {
    map id | id in st.orders && st.orders[id].clientId == clientId
             && st.orders[id].status in ClientPortal.ActiveStatuses
      :: BuildOrderCard(st.orders[id].status, false)
  }

  /** The panel shows a card for exactly the orders getActiveOrders lists. */
  lemma LoadedCardsAreActiveOrders(st: Store, clientId: int)
    requires clientId > 0
    ensures LoadCurrentOrders(st, clientId).Keys == ClientPortal.GetActiveOrders(st, clientId).value
  {
  }

  /** What View OTP reports. `lookupFails` stands for the query raising SQLException. */
  datatype OtpView = LookupFailed | OrderNotFound | NoOtp(status: string) | ShowOtp(otp: string, status: string)

  /** handleViewOtp: reports the stored OTP, or that none exists when it is null
      or blank after trim. */
  function ViewOtp(st: Store, orderId: int, lookupFails: bool): (r: OtpView)
    ensures r == LookupFailed <==> lookupFails
    ensures r == OrderNotFound <==> !lookupFails && orderId !in st.orders
    ensures r.NoOtp? <==>
              && !lookupFails && orderId in st.orders
              && (st.orders[orderId].deliveryOtp.None? || IsBlank(st.orders[orderId].deliveryOtp.value))
    ensures r.NoOtp? ==> r.status == st.orders[orderId].status
    ensures r.ShowOtp? ==>
              && st.orders[orderId].deliveryOtp == Some(r.otp)
              && !IsBlank(r.otp)
              && r.status == st.orders[orderId].status
  {
    if lookupFails then LookupFailed
    else if orderId !in st.orders then OrderNotFound
    else
      var o := st.orders[orderId];
      ClientPortal.HasTextIsNotNullOrBlank(o.deliveryOtp);
      if IsNullOrBlank(o.deliveryOtp) then NoOtp(o.status) else ShowOtp(o.deliveryOtp.value, o.status)
  }
}
