/** The client's "Order History" panel: one card per delivered order, each with
    a Pay or View Bill action chosen from a single panel-wide `isPaid` flag, and
    the payment dialog that flips it. The payment itself is simulated in the
    panel and never reaches the store. */
module OrderHistoryPanel {
  import opened Common
  import opened OrderStore
  import opened StatusFormat
  import ClientPortal

  /** The action button a card carries. */
  datatype Action = Pay | ViewBill | TrackOrder

  /** The button chosen when a card is built. */
  function ChooseAction(isCompleted: bool, isPaid: bool): (a: Action)
    ensures a == TrackOrder <==> !isCompleted
    ensures a == Pay <==> isCompleted && !isPaid
    ensures a == ViewBill <==> isCompleted && isPaid
  {
    if isCompleted && !isPaid then Pay
    else if isCompleted && isPaid then ViewBill
    else TrackOrder
  }

  /** A card: its order, the formatted status it displays and its action. */
  datatype Card = Card(orderId: int, statusText: string, action: Action)

  /** The panel's state: the shared `isPaid` flag, the cards in build order, and
      the panel field `actionButton`, the index of the card whose Pay or View
      Bill button was built last. */
  datatype Panel = Panel(isPaid: bool, cards: seq<Card>, actionButton: Option<nat>)

  /** A panel before any card is built. */
  const InitialPanel := Panel(false, [], None)

  /** A row of the history query: an order id with its status. */
  datatype Row = Row(orderId: int, status: string)

  /** The query of loadOrderHistory: the client's orders whose status is
      "delivered", each once. Its ORDER BY on the delivery time is not modelled. */
  ghost predicate IsHistoryQueryResult(st: Store, clientId: int, rows: seq<Row>) {
    && (forall i, j :: 0 <= i < j < |rows| ==> rows[i].orderId != rows[j].orderId)
    && (forall i :: 0 <= i < |rows| ==>
          rows[i].orderId in st.orders && rows[i].status == st.orders[rows[i].orderId].status)
    && (forall id :: id in st.orders && st.orders[id].clientId == clientId && st.orders[id].status == "delivered"
          <==> exists i :: 0 <= i < |rows| && rows[i].orderId == id)
    && (forall i :: 0 <= i < |rows| ==> rows[i].status == "delivered")
  }

  /** The rows of the history query are the client's delivered orders, as
      getOrderHistory lists them restricted to status "delivered". */
  lemma HistoryQueryIsDeliveredHistory(st: Store, clientId: int, rows: seq<Row>)
    requires clientId > 0
    requires IsHistoryQueryResult(st, clientId, rows)
    ensures (set i | 0 <= i < |rows| :: rows[i].orderId)
            == (set id | id in ClientPortal.GetOrderHistory(st, clientId).value && st.orders[id].status == "delivered")
  {
    var listed := set i | 0 <= i < |rows| :: rows[i].orderId;
    var history := ClientPortal.GetOrderHistory(st, clientId).value;
    forall id | id in listed
      ensures id in history && st.orders[id].status == "delivered"
    {
      var i :| 0 <= i < |rows| && rows[i].orderId == id;
      assert st.orders[id].clientId == clientId;
    }
    forall id | id in history && st.orders[id].status == "delivered"
      ensures id in listed
    {
      var i :| 0 <= i < |rows| && rows[i].orderId == id;
    }
  }

  /** Building one card: its action follows the panel's current `isPaid`, and a
      Pay or View Bill button becomes the panel's `actionButton`. */
  function AddCard(p: Panel, orderId: int, status: string, isCompleted: bool): (q: Panel)
    requires |status| >= 1
    ensures q.isPaid == p.isPaid
    ensures |q.cards| == |p.cards| + 1 && q.cards[..|p.cards|] == p.cards
    ensures q.cards[|p.cards|].orderId == orderId && q.cards[|p.cards|].statusText == FormatStatus(status)
    ensures q.cards[|p.cards|].action == TrackOrder <==> !isCompleted
    ensures q.cards[|p.cards|].action == ViewBill <==> isCompleted && p.isPaid
    ensures isCompleted ==> q.actionButton == Some(|q.cards| - 1)
    ensures !isCompleted ==> q.actionButton == p.actionButton
  {
    var card := Card(orderId, FormatStatus(status), ChooseAction(isCompleted, p.isPaid));
    Panel(p.isPaid, p.cards + [card], if isCompleted then Some(|p.cards|) else p.actionButton)
  }

  /** Builds a completed card for each row in turn. */
  function AddCompletedCards(p: Panel, rows: seq<Row>): (q: Panel)
    requires forall i :: 0 <= i < |rows| ==> |rows[i].status| >= 1
    ensures q.isPaid == p.isPaid
    ensures |q.cards| == |p.cards| + |rows|
    ensures q.cards[..|p.cards|] == p.cards
    ensures forall i :: 0 <= i < |rows| ==>
              q.cards[|p.cards| + i] == Card(rows[i].orderId, FormatStatus(rows[i].status),
                                             if p.isPaid then ViewBill else Pay)
    ensures q.actionButton == if |rows| == 0 then p.actionButton else Some(|q.cards| - 1)
    decreases |rows|
  {
    if |rows| == 0 then p
    else
      var q := AddCompletedCards(AddCard(p, rows[0].orderId, rows[0].status, true), rows[1..]);
      assert forall i :: 1 <= i < |rows| ==> rows[i] == rows[1..][i - 1];
      q
  }

  /** loadOrderHistory: clears the cards and builds one completed card per row.
      The `actionButton` field is not cleared. */
  function LoadOrderHistory(p: Panel, rows: seq<Row>): (q: Panel)
    requires forall i :: 0 <= i < |rows| ==> |rows[i].status| >= 1
    ensures q.isPaid == p.isPaid
    ensures |q.cards| == |rows|
    ensures forall i :: 0 <= i < |rows| ==> q.cards[i].orderId == rows[i].orderId
  {
    var q := AddCompletedCards(p.(cards := []), rows);
    assert forall i :: 0 <= i < |rows| ==> q.cards[0 + i] == q.cards[i];
    q
  }

  /** Every loaded card is completed, so "Track Order" never appears, and every
      card carries the same action, decided by the shared flag. */
  lemma {:induction false} LoadedCardsShareOneAction(p: Panel, st: Store, clientId: int, rows: seq<Row>)
    requires IsHistoryQueryResult(st, clientId, rows)
    ensures forall i :: 0 <= i < |rows| ==> |rows[i].status| >= 1
    ensures var q := LoadOrderHistory(p, rows);
            forall i :: 0 <= i < |q.cards| ==>
              && q.cards[i].action != TrackOrder
              && (q.cards[i].action == ViewBill <==> p.isPaid)
              && q.cards[i].statusText == "Delivered"
  {
    FormatDelivered();
    var q := LoadOrderHistory(p, rows);
    forall i | 0 <= i < |q.cards|
      ensures q.cards[i] == Card(rows[i].orderId, "Delivered", if p.isPaid then ViewBill else Pay)
    {
      assert rows[i].status == "delivered";
    }
  }

  /** A freshly opened panel offers Pay on every card. */
  lemma OpenedPanelOffersPay(rows: seq<Row>)
    requires forall i :: 0 <= i < |rows| ==> |rows[i].status| >= 1
    ensures forall i :: 0 <= i < |rows| ==> LoadOrderHistory(InitialPanel, rows).cards[i].action == Pay
  {
    var q := LoadOrderHistory(InitialPanel, rows);
    assert forall i :: 0 <= i < |rows| ==> q.cards[0 + i] == q.cards[i];
  }

  /** The two buttons of the payment dialog. */
  datatype DialogChoice = ConfirmPay | Cancel

  /** The payment dialog as written: confirming sets the shared flag and
      relabels the button held in `actionButton`, which is the last card built
      and not necessarily the card whose Pay was clicked. */
  function HandlePaymentDialog(p: Panel, clicked: nat, choice: DialogChoice): (q: Panel)
    ensures choice == Cancel ==> q == p
    ensures choice == ConfirmPay ==> q.isPaid
    ensures |q.cards| == |p.cards|
    ensures forall i :: 0 <= i < |p.cards| && Some(i) != p.actionButton ==> q.cards[i] == p.cards[i]
    ensures choice == ConfirmPay && p.actionButton.Some? && p.actionButton.value < |p.cards| ==>
              q.cards[p.actionButton.value] == p.cards[p.actionButton.value].(action := ViewBill)
  {
    match choice
    case Cancel => p
    case ConfirmPay =>
      var cards :=
        if p.actionButton.Some? && p.actionButton.value < |p.cards| then
          p.cards[p.actionButton.value := p.cards[p.actionButton.value].(action := ViewBill)]
        else p.cards;
      Panel(true, cards, p.actionButton)
  }

  /** Paying for the first of two delivered orders leaves that card on "Pay"
      and switches the second card to "View Bill". */
  lemma PayRelabelsWrongCard()
    ensures var p := LoadOrderHistory(InitialPanel, [Row(1, "delivered"), Row(2, "delivered")]);
            var q := HandlePaymentDialog(p, 0, ConfirmPay);
            && p.cards[0].action == Pay && p.cards[1].action == Pay
            && q.cards[0].action == Pay
            && q.cards[1].action == ViewBill
  {
    var p := LoadOrderHistory(InitialPanel, [Row(1, "delivered"), Row(2, "delivered")]);
    assert p.actionButton == Some(1);
  }

  /** The payment dialog with the relabelling applied to the card whose Pay was
      clicked. Confirming sets the shared flag and turns that card to View Bill;
      cancelling changes nothing. */
  function HandlePaymentDialogForCard(p: Panel, clicked: nat, choice: DialogChoice): (q: Panel)
    ensures choice == Cancel ==> q == p
    ensures choice == ConfirmPay ==> q.isPaid
    ensures |q.cards| == |p.cards|
    ensures choice == ConfirmPay && clicked < |p.cards| ==>
              q.cards[clicked] == p.cards[clicked].(action := ViewBill)
    ensures forall i :: 0 <= i < |p.cards| && i != clicked ==> q.cards[i] == p.cards[i]
  {
    match choice
    case Cancel => p
    case ConfirmPay =>
      var cards :=
        if clicked < |p.cards| then p.cards[clicked := p.cards[clicked].(action := ViewBill)] else p.cards;
      Panel(true, cards, p.actionButton)
  }

  /** While the flag is set, every card built shows View Bill. */
  lemma PaidPanelBuildsViewBill(p: Panel, rows: seq<Row>)
    requires p.isPaid
    requires forall i :: 0 <= i < |rows| ==> |rows[i].status| >= 1
    ensures var q := LoadOrderHistory(p, rows);
            forall i :: 0 <= i < |rows| ==> q.cards[i].action == ViewBill
  {
    var q := LoadOrderHistory(p, rows);
    assert forall i :: 0 <= i < |rows| ==> q.cards[0 + i] == q.cards[i];
  }

  /** The flag is never reset: no dialog outcome takes a paid panel back. */
  lemma PaidStaysPaid(p: Panel, clicked: nat, choice: DialogChoice)
    requires p.isPaid
    ensures HandlePaymentDialogForCard(p, clicked, choice).isPaid
    ensures HandlePaymentDialog(p, clicked, choice).isPaid
  {
  }
}
