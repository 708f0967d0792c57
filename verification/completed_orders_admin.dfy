/** The admin "Completed Orders" panel: which orders are listed, how the
    payment status is styled, when "Generate Bill" is offered, and what saving
    a bill writes. The bill text itself is a parameter. */
module CompletedOrdersAdmin {
  import opened Common
  import opened Text
  import opened OrderStore

  /** The orders the panel lists: those whose status is "delivered". */
  function ListedOrders(st: Store): (ids: set<int>)
    ensures forall id :: id in ids <==> id in st.orders && st.orders[id].status == "delivered"
  {
    set id | id in st.orders && st.orders[id].status == "delivered"
  }

  /** checkBillGenerationStatus: the order's bill_generated flag; false when the
      row is missing or, with `lookupFails`, when the query raised SQLException. */
  function CheckBillGenerationStatus(st: Store, orderId: int, lookupFails: bool): (generated: bool)
    ensures generated ==> orderId in st.orders && st.orders[orderId].billGenerated
    ensures lookupFails || orderId !in st.orders ==> !generated
    ensures !lookupFails && orderId in st.orders ==> generated == st.orders[orderId].billGenerated
  {
    !lookupFails && orderId in st.orders && st.orders[orderId].billGenerated
  }

  /** equalsIgnoreCase against a fixed upper-case word is upper-casing and comparing. */
  lemma MatchesWordIgnoringCase(s: string, word: string)
    requires UpperString(word) == word
    ensures EqualsIgnoreCase(s, word) <==> UpperString(s) == word
  {
    EqualsIgnoreCaseIsUpperEquality(s, word);
  }

  /** What the card of a listed order shows: whether the payment status is
      styled as pending, and whether "Generate Bill" is offered. */
  datatype AdminCard = AdminCard(paymentPending: bool, offersGenerateBill: bool)

  /** The card for an order, with `lookupFails` standing for the bill-status query failing. */
  function BuildAdminCard(st: Store, orderId: int, lookupFails: bool): (c: AdminCard)
    requires orderId in st.orders
    ensures c.paymentPending <==> UpperString(st.orders[orderId].paymentStatus) == "PENDING"
    ensures c.offersGenerateBill <==>
              UpperString(st.orders[orderId].paymentStatus) == "COMPLETED"
              && !CheckBillGenerationStatus(st, orderId, lookupFails)
    ensures !(c.paymentPending && c.offersGenerateBill)
  {
    var ps := st.orders[orderId].paymentStatus;
    assert UpperString("PENDING") == "PENDING";
    assert UpperString("COMPLETED") == "COMPLETED";
    MatchesWordIgnoringCase(ps, "PENDING");
    MatchesWordIgnoringCase(ps, "COMPLETED");
    var completed := EqualsIgnoreCase(ps, "COMPLETED");
    AdminCard(EqualsIgnoreCase(ps, "PENDING"), completed && !CheckBillGenerationStatus(st, orderId, lookupFails))
  }

  /** loadCurrentOrders: the cards of the panel, keyed by order id. With
      `queryFails` the listing query raises SQLException and the cleared panel
      stays empty; an order in `failedRows` is skipped because reading its row
      raised SQLException; an order in `failedLookups` has its bill-status
      query fail. */
  function LoadCompletedOrders(st: Store, queryFails: bool, failedRows: set<int>, failedLookups: set<int>)
    : (cards: map<int, AdminCard>)
    ensures queryFails ==> cards == map[]
    ensures !queryFails ==> cards.Keys == ListedOrders(st) - failedRows
    ensures forall id :: id in cards ==>
              (cards[id].paymentPending <==> UpperString(st.orders[id].paymentStatus) == "PENDING")
    ensures forall id :: id in cards && cards[id].offersGenerateBill <==>
              && !queryFails && id !in failedRows
              && id in st.orders && st.orders[id].status == "delivered"
              && UpperString(st.orders[id].paymentStatus) == "COMPLETED"
              && (id in failedLookups || !st.orders[id].billGenerated)
  {
    if queryFails then map[]
    else map id | id in ListedOrders(st) - failedRows :: BuildAdminCard(st, id, id in failedLookups)
  }

  /** saveBillToDatabase: sets bill_generated and bill_data on that order's
      row; no row is touched when the id has none, or when the UPDATE raises
      SQLException (`fails`). */
  function SaveBillToDatabase(st: Store, orderId: int, billContent: string, fails: bool): (r: Store)
    ensures r.bills == st.bills && r.nextOrderId == st.nextOrderId && r.nextBillId == st.nextBillId
    ensures r.orders.Keys == st.orders.Keys
    ensures forall id :: id in st.orders && id != orderId ==> r.orders[id] == st.orders[id]
    ensures !fails && orderId in st.orders ==>
              && r.orders[orderId].billGenerated
              && r.orders[orderId].billData == Some(billContent)
              && r.orders[orderId].(billGenerated := st.orders[orderId].billGenerated,
                                    billData := st.orders[orderId].billData) == st.orders[orderId]
    ensures fails || orderId !in st.orders ==> r == st
  {
    if !fails && orderId in st.orders then
      st.(orders := st.orders[orderId := st.orders[orderId].(billGenerated := true, billData := Some(billContent))])
    else
      st
  }

  lemma SaveBillPreservesValid(st: Store, orderId: int, billContent: string, fails: bool)
    requires Valid(st)
    ensures Valid(SaveBillToDatabase(st, orderId, billContent, fails))
  {
    RepricingFreeUpdateKeepsValid(st, SaveBillToDatabase(st, orderId, billContent, fails));
  }

  /** Saving a second bill for an order only replaces the bill text: the
      result is as if the first save had never happened. */
  lemma SecondSaveOnlyRewritesBillData(st: Store, orderId: int, first: string, second: string)
    ensures SaveBillToDatabase(SaveBillToDatabase(st, orderId, first, false), orderId, second, false)
            == SaveBillToDatabase(st, orderId, second, false)
  {
    if orderId in st.orders {
      var o := st.orders[orderId];
      var once := SaveBillToDatabase(st, orderId, first, false);
      assert once.orders[orderId].(billGenerated := true, billData := Some(second))
             == o.(billGenerated := true, billData := Some(second));
      assert once.orders[orderId := o.(billGenerated := true, billData := Some(second))]
             == st.orders[orderId := o.(billGenerated := true, billData := Some(second))];
    }
  }

  /** A card built after a successful save (on load or Refresh) no longer
      offers "Generate Bill" while the bill-status lookup succeeds. */
  lemma CardBuiltAfterSaveOmitsGenerateBill(st: Store, orderId: int, billContent: string)
    requires orderId in st.orders
    ensures !BuildAdminCard(SaveBillToDatabase(st, orderId, billContent, false), orderId, false).offersGenerateBill
  {
  }

  /** A card built before the save offers "Generate Bill" for a completed
      order without a bill, and a card built after a successful save does not. */
  lemma GenerateBillGate(st: Store, orderId: int, billContent: string)
    requires orderId in st.orders
    requires UpperString(st.orders[orderId].paymentStatus) == "COMPLETED"
    requires !st.orders[orderId].billGenerated
    ensures BuildAdminCard(st, orderId, false).offersGenerateBill
    ensures !BuildAdminCard(SaveBillToDatabase(st, orderId, billContent, false), orderId, false).offersGenerateBill
  {
  }

  /** A failing bill-status lookup reads as "no bill yet": a completed order is
      offered "Generate Bill" again even after its bill was saved. */
  lemma FailedLookupReoffersGenerateBill(st: Store, orderId: int, billContent: string, fails: bool)
    requires orderId in st.orders
    requires UpperString(st.orders[orderId].paymentStatus) == "COMPLETED"
    ensures BuildAdminCard(SaveBillToDatabase(st, orderId, billContent, fails), orderId, true).offersGenerateBill
  {
  }

  /** Saving a bill for one order leaves the other listed cards as they were. */
  lemma SaveBillLeavesOtherCards(st: Store, orderId: int, billContent: string, fails: bool,
                                 other: int, lookupFails: bool)
    requires other in st.orders && other != orderId
    ensures BuildAdminCard(SaveBillToDatabase(st, orderId, billContent, fails), other, lookupFails)
            == BuildAdminCard(st, other, lookupFails)
  {
  }

  /** The panel as shown: the store and the cards built at the last load. */
  datatype AdminView = AdminView(st: Store, cards: map<int, AdminCard>)

  /** The dialog generateBill shows. */
  datatype BillDialog = BillSaved | SaveFailed

  datatype Generated = Generated(dialog: BillDialog, view: AdminView)

  /** generateBill: saves the bill and reports success unless the UPDATE
      raised SQLException. The success report does not depend on a row having
      been updated, and the panel is only repainted: no card is rebuilt. */
  function GenerateBill(v: AdminView, orderId: int, billContent: string, fails: bool): (r: Generated)
    ensures r.dialog == BillSaved <==> !fails
    ensures r.view.cards == v.cards
    ensures fails ==> r.view == v
    ensures r.view.st.orders.Keys == v.st.orders.Keys
    ensures !fails && orderId in v.st.orders ==>
              && r.view.st.orders[orderId].billGenerated
              && r.view.st.orders[orderId].billData == Some(billContent)
    ensures orderId !in v.st.orders ==> r.view.st == v.st
  {
    Generated(if fails then SaveFailed else BillSaved,
              AdminView(SaveBillToDatabase(v.st, orderId, billContent, fails), v.cards))
  }

  /** The Refresh button: the cards are rebuilt from the store. */
  function Refresh(v: AdminView, queryFails: bool, failedRows: set<int>, failedLookups: set<int>): (r: AdminView)
    ensures r.st == v.st
    ensures !queryFails ==> r.cards.Keys == ListedOrders(v.st) - failedRows
  {
    AdminView(v.st, LoadCompletedOrders(v.st, queryFails, failedRows, failedLookups))
  }

  /** After a successful generateBill the card on screen still offers
      "Generate Bill", so a second click saves again; only a Refresh whose
      lookups succeed withdraws it. */
  lemma GenerateBillStaysOfferedUntilRefresh(v: AdminView, orderId: int, billContent: string,
                                             failedRows: set<int>)
    requires orderId in v.cards && v.cards[orderId].offersGenerateBill
    requires orderId in v.st.orders
    ensures var g := GenerateBill(v, orderId, billContent, false);
            && g.dialog == BillSaved
            && g.view.cards[orderId].offersGenerateBill
            && var r := Refresh(g.view, false, failedRows, {});
               orderId !in r.cards || !r.cards[orderId].offersGenerateBill
  {
    var g := GenerateBill(v, orderId, billContent, false);
    assert g.view.st.orders[orderId].billGenerated;
  }

  /** A successful report is shown even for an id with no row, where nothing
      was saved. */
  lemma SuccessReportedWithoutRow(v: AdminView, orderId: int, billContent: string)
    requires orderId !in v.st.orders
    ensures GenerateBill(v, orderId, billContent, false) == Generated(BillSaved, v)
  {
  }
}
