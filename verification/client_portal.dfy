/** The client-facing order service: input validation, order creation with its
    bill, status updates and the order/bill queries, each SQL statement read as
    a function from one store to the next. */
module ClientPortal {
  import opened Common
  import opened Text
  import opened OrderStore

  /** A nullable string that is present and not blank after trim, stated
      without reference to trim. */
  predicate HasText(s: Option<string>) {
    s.Some? && !IsBlank(s.value)
  }

  lemma HasTextIsNotNullOrBlank(s: Option<string>)
    ensures HasText(s) <==> !IsNullOrBlank(s)
  {
    if s.Some? {
      TrimEmptyIffBlank(s.value);
    }
  }

  /** The check of validateOrderInput that threw, in the order they are made. */
  datatype InputError = InvalidClientId | EmptyPickup | EmptyDelivery | EmptyItemType | NonPositiveQuantity

  /** validateOrderInput: None when every check passes, otherwise the first one
      that fails. */
  function ValidateOrderInput(clientId: int, pickup: Option<string>, delivery: Option<string>,
                              itemType: Option<string>, quantity: real): (r: Option<InputError>)
    ensures r == None <==>
              clientId > 0 && HasText(pickup) && HasText(delivery) && HasText(itemType) && quantity > 0.0
    ensures r == Some(InvalidClientId) <==> clientId <= 0
    ensures r == Some(EmptyPickup) <==> clientId > 0 && !HasText(pickup)
    ensures r == Some(EmptyDelivery) <==> clientId > 0 && HasText(pickup) && !HasText(delivery)
    ensures r == Some(EmptyItemType) <==>
              clientId > 0 && HasText(pickup) && HasText(delivery) && !HasText(itemType)
    ensures r == Some(NonPositiveQuantity) <==>
              clientId > 0 && HasText(pickup) && HasText(delivery) && HasText(itemType) && quantity <= 0.0
  {
    HasTextIsNotNullOrBlank(pickup);
    HasTextIsNotNullOrBlank(delivery);
    HasTextIsNotNullOrBlank(itemType);
    if clientId <= 0 then Some(InvalidClientId)
    else if IsNullOrBlank(pickup) then Some(EmptyPickup)
    else if IsNullOrBlank(delivery) then Some(EmptyDelivery)
    else if IsNullOrBlank(itemType) then Some(EmptyItemType)
    else if quantity <= 0.0 then Some(NonPositiveQuantity)
    else None
  }

  /** The status every new order is inserted with. */
  const NewOrderStatus := "pending"
  /** Assumed column defaults of a fresh `orders` row; the schema is not part of this model. */
  const DefaultPaymentStatus := "PENDING"

  /** The result of a statement that reports success as a boolean. */
  datatype Outcome = Outcome(ok: bool, store: Store)

  /** generateBill: inserts one `bills` row priced from the order row, provided
      the id is positive and the order exists. `fails` stands for the INSERT
      raising SQLException, which is caught and reported as false. */
  function GenerateBill(st: Store, orderId: int, fails: bool): (r: Outcome)
    ensures r.ok <==> orderId > 0 && orderId in st.orders && !fails
    ensures !r.ok ==> r.store == st
    ensures r.ok ==>
              && r.store.orders == st.orders
              && r.store.nextOrderId == st.nextOrderId
              && r.store.nextBillId == st.nextBillId + 1
              && |r.store.bills| == |st.bills| + 1
              && r.store.bills[..|st.bills|] == st.bills
              && var b := r.store.bills[|st.bills|];
                 var o := st.orders[orderId];
                 && b.billId == st.nextBillId
                 && b.orderId == orderId
                 && b.amount == 100.0 * o.quantity
                 && b.vipCharges == (if o.isVip then 500.0 else 0.0)
                 && b.totalAmount == b.amount + b.vipCharges
  {
    if orderId <= 0 || orderId !in st.orders || fails then
      Outcome(false, st)
    else
      var c := ChargesFor(st.orders[orderId]);
      var b := Bill(st.nextBillId, orderId, c.base, c.vipCharges, c.total);
      Outcome(true, st.(bills := st.bills + [b], nextBillId := st.nextBillId + 1))
  }

  /** The order id createOrder returns (-1 on failure) and the store after it. */
  datatype Created = Created(orderId: int, store: Store)

  /** The row createOrder inserts: arguments verbatim, status "pending". */
  function NewOrder(clientId: int, pickup: string, delivery: string, itemType: string,
                    quantity: real, isVip: bool): Order
  {
    Order(clientId, pickup, delivery, itemType, quantity, isVip,
          NewOrderStatus, DefaultPaymentStatus, false, None, None)
  }

  /** createOrder: validates, inserts the order under the next auto-increment id,
      then tries to insert its bill. `insertFails` stands for the order INSERT
      affecting no row or raising SQLException; `billFails` for the bill INSERT
      raising SQLException, which createOrder only logs. */
  function CreateOrder(st: Store, clientId: int, pickup: Option<string>, delivery: Option<string>,
                       itemType: Option<string>, quantity: real, isVip: bool,
                       insertFails: bool, billFails: bool): (r: Created)
    ensures ValidateOrderInput(clientId, pickup, delivery, itemType, quantity).Some? || insertFails
            ==> r == Created(-1, st)
    ensures ValidateOrderInput(clientId, pickup, delivery, itemType, quantity).None? && !insertFails ==>
              && r.orderId == st.nextOrderId
              && r.store.nextOrderId == st.nextOrderId + 1
              && r.store.orders.Keys == st.orders.Keys + {r.orderId}
              && r.store.orders[r.orderId]
                 == Order(clientId, pickup.value, delivery.value, itemType.value, quantity, isVip,
                          "pending", DefaultPaymentStatus, false, None, None)
              && (forall id :: id in st.orders && id != r.orderId ==> r.store.orders[id] == st.orders[id])
              && (billFails || r.orderId <= 0 ==> r.store.bills == st.bills)
              && (!billFails && r.orderId > 0 ==>
                    && |r.store.bills| == |st.bills| + 1
                    && r.store.bills[..|st.bills|] == st.bills
                    && r.store.bills[|st.bills|].orderId == r.orderId)
  {
    if ValidateOrderInput(clientId, pickup, delivery, itemType, quantity).Some? || insertFails then
      Created(-1, st)
    else
      InsertOrder(st, NewOrder(clientId, pickup.value, delivery.value, itemType.value, quantity, isVip), billFails)
  }

  /** The accepted path of createOrder: the order INSERT under the next key,
      followed by generateBill for that key. */
  function InsertOrder(st: Store, o: Order, billFails: bool): (r: Created)
    ensures r.orderId == st.nextOrderId
    ensures r.store.nextOrderId == st.nextOrderId + 1
    ensures r.store.orders == st.orders[r.orderId := o]
    ensures billFails || r.orderId <= 0 ==> r.store.bills == st.bills
    ensures !billFails && r.orderId > 0 ==>
              && |r.store.bills| == |st.bills| + 1
              && r.store.bills[..|st.bills|] == st.bills
              && r.store.bills[|st.bills|].orderId == r.orderId
              && BillMatches(r.store.bills[|st.bills|], ChargesFor(o))
              && r.store.bills[|st.bills|].billId == st.nextBillId
              && r.store.nextBillId == st.nextBillId + 1
    ensures billFails || r.orderId <= 0 ==> r.store.nextBillId == st.nextBillId
  {
    var id := st.nextOrderId;
    var inserted := st.(orders := st.orders[id := o], nextOrderId := id + 1);
    assert id in inserted.orders;
    Created(id, GenerateBill(inserted, id, billFails).store)
  }

  /** The accepted path of createOrder keeps a valid store valid. */
  lemma InsertOrderPreservesValid(st: Store, o: Order, billFails: bool)
    requires Valid(st)
    ensures Valid(InsertOrder(st, o, billFails).store)
    ensures InsertOrder(st, o, billFails).orderId > 0
    ensures InsertOrder(st, o, billFails).orderId !in st.orders
  {
  }

  /** In a valid store an accepted order gets a fresh positive id and the store
      stays valid, whether or not the bill could be inserted. */
  lemma CreateOrderPreservesValid(st: Store, clientId: int, pickup: Option<string>, delivery: Option<string>,
                                  itemType: Option<string>, quantity: real, isVip: bool,
                                  insertFails: bool, billFails: bool)
    requires Valid(st)
    ensures var r := CreateOrder(st, clientId, pickup, delivery, itemType, quantity, isVip, insertFails, billFails);
            && Valid(r.store)
            && (r.orderId == -1 || (r.orderId > 0 && r.orderId !in st.orders))
  {
    if ValidateOrderInput(clientId, pickup, delivery, itemType, quantity).None? && !insertFails {
      InsertOrderPreservesValid(st, NewOrder(clientId, pickup.value, delivery.value, itemType.value, quantity, isVip),
                                billFails);
    }
  }

  /** createOrder returns the new id whether or not its bill was inserted; the
      bill failure shows only in the bills table. */
  lemma CreateOrderIdIgnoresBillFailure(st: Store, clientId: int, pickup: Option<string>, delivery: Option<string>,
                                        itemType: Option<string>, quantity: real, isVip: bool)
    requires Valid(st)
    requires ValidateOrderInput(clientId, pickup, delivery, itemType, quantity).None?
    ensures var ok := CreateOrder(st, clientId, pickup, delivery, itemType, quantity, isVip, false, false);
            var failed := CreateOrder(st, clientId, pickup, delivery, itemType, quantity, isVip, false, true);
            && failed.orderId == ok.orderId > 0
            && failed.store.orders == ok.store.orders
            && failed.store.bills == st.bills
            && |ok.store.bills| == |st.bills| + 1
  {
  }

  /** updateOrderStatus: rejects a non-positive id, a null or blank status, an
      id with no row and an UPDATE that raises SQLException (`fails`);
      otherwise overwrites that order's status with the given string, whatever
      the current status is. */
  function UpdateOrderStatus(st: Store, orderId: int, status: Option<string>, fails: bool): (r: Outcome)
    ensures r.ok <==> orderId > 0 && HasText(status) && orderId in st.orders && !fails
    ensures !r.ok ==> r.store == st
    ensures r.ok ==>
              && r.store.bills == st.bills
              && r.store.nextOrderId == st.nextOrderId
              && r.store.nextBillId == st.nextBillId
              && r.store.orders.Keys == st.orders.Keys
              && r.store.orders[orderId] == st.orders[orderId].(status := status.value)
              && (forall id :: id in st.orders && id != orderId ==> r.store.orders[id] == st.orders[id])
  {
    HasTextIsNotNullOrBlank(status);
    if orderId <= 0 || IsNullOrBlank(status) then
      Outcome(false, st)
    else if fails || orderId !in st.orders then
      Outcome(false, st)
    else
      Outcome(true, st.(orders := st.orders[orderId := st.orders[orderId].(status := status.value)]))
  }

  lemma UpdateOrderStatusPreservesValid(st: Store, orderId: int, status: Option<string>, fails: bool)
    requires Valid(st)
    ensures Valid(UpdateOrderStatus(st, orderId, status, fails).store)
  {
    var r := UpdateOrderStatus(st, orderId, status, fails);
    if r.ok {
      RepricingFreeUpdateKeepsValid(st, r.store);
    }
  }

  /** There is no transition check: a delivered order can be sent back to
      "pending", or to any non-blank string at all. */
  lemma UpdateOrderStatusHasNoTransitionCheck(st: Store, orderId: int, status: string)
    requires orderId > 0 && orderId in st.orders
    requires st.orders[orderId].status == "delivered"
    requires !IsBlank(status)
    ensures UpdateOrderStatus(st, orderId, Some(status), false).ok
    ensures UpdateOrderStatus(st, orderId, Some(status), false).store.orders[orderId].status == status
  {
  }

  /** Setting an order's status to the one it already has leaves the store as it is. */
  lemma UpdateToCurrentStatusChangesNothing(st: Store, orderId: int, status: string, fails: bool)
    requires orderId in st.orders && st.orders[orderId].status == status
    ensures UpdateOrderStatus(st, orderId, Some(status), fails).store == st
  {
    var r := UpdateOrderStatus(st, orderId, Some(status), fails);
    if r.ok {
      var o := st.orders[orderId];
      assert r.store == st.(orders := st.orders[orderId := o.(status := status)]);
      assert o.(status := status) == o;
      assert st.orders[orderId := o] == st.orders;
    }
  }

  /** Repeating a status update whose UPDATE went through changes nothing
      further, whether the repeated UPDATE fails or not. */
  lemma UpdateOrderStatusIdempotent(st: Store, orderId: int, status: Option<string>, fails: bool)
    ensures var once := UpdateOrderStatus(st, orderId, status, false).store;
            UpdateOrderStatus(once, orderId, status, fails).store == once
  {
    var r := UpdateOrderStatus(st, orderId, status, false);
    if r.ok {
      UpdateToCurrentStatusChangesNothing(r.store, orderId, status.value, fails);
    }
  }

  /** The statuses getActiveOrders lists. */
  const ActiveStatuses: set<string> := {"pending", "assigned", "in_transit"}

  /** getActiveOrders: the ids of the client's orders whose status is active;
      a non-positive client id throws. */
  function GetActiveOrders(st: Store, clientId: int): (r: Result<set<int>>)
    ensures r.IllegalArgument? <==> clientId <= 0
    ensures r.Ok? ==> forall id :: id in r.value <==>
              id in st.orders && st.orders[id].clientId == clientId && st.orders[id].status in ActiveStatuses
  {
    if clientId <= 0 then IllegalArgument("Invalid client ID")
    else Ok(set id | id in st.orders && st.orders[id].clientId == clientId
                     && st.orders[id].status in ActiveStatuses)
  }

  /** getOrderHistory: the ids of all the client's orders; a non-positive client
      id throws. */
  function GetOrderHistory(st: Store, clientId: int): (r: Result<set<int>>)
    ensures r.IllegalArgument? <==> clientId <= 0
    ensures r.Ok? ==> forall id :: id in r.value <==> id in st.orders && st.orders[id].clientId == clientId
  {
    if clientId <= 0 then IllegalArgument("Invalid client ID")
    else Ok(set id | id in st.orders && st.orders[id].clientId == clientId)
  }

  /** Every active order of a client is in that client's history, and the
      history adds exactly the orders in other statuses. */
  lemma ActiveOrdersWithinHistory(st: Store, clientId: int)
    requires clientId > 0
    ensures GetActiveOrders(st, clientId).value <= GetOrderHistory(st, clientId).value
    ensures forall id :: id in GetOrderHistory(st, clientId).value - GetActiveOrders(st, clientId).value
              ==> st.orders[id].status !in ActiveStatuses
  {
  }

  /** A freshly created order is listed among its client's active orders. */
  lemma CreatedOrderIsActive(st: Store, clientId: int, pickup: Option<string>, delivery: Option<string>,
                             itemType: Option<string>, quantity: real, isVip: bool, billFails: bool)
    requires ValidateOrderInput(clientId, pickup, delivery, itemType, quantity).None?
    ensures var r := CreateOrder(st, clientId, pickup, delivery, itemType, quantity, isVip, false, billFails);
            r.orderId in GetActiveOrders(r.store, clientId).value
  {
  }

  /** Marking an order delivered removes it from the active list and keeps it
      in the history. */
  lemma DeliveredOrderLeavesActive(st: Store, orderId: int)
    requires orderId > 0 && orderId in st.orders && st.orders[orderId].clientId > 0
    ensures var c := st.orders[orderId].clientId;
            var st' := UpdateOrderStatus(st, orderId, Some("delivered"), false).store;
            && orderId !in GetActiveOrders(st', c).value
            && orderId in GetOrderHistory(st', c).value
  {
    assert !IsTrimmable("delivered"[0]);
  }

  /** The bill row joined with its order row, as getBillDetails returns it. */
  datatype BillDetails = BillDetails(bill: Bill, order: Order)

  /** The first bill row for an order, in insertion order. */
  function FirstBill(bills: seq<Bill>, orderId: int): (r: Option<Bill>)
    ensures r.None? <==> forall i :: 0 <= i < |bills| ==> bills[i].orderId != orderId
    ensures r.Some? ==> exists i :: 0 <= i < |bills| && bills[i] == r.value
    ensures r.Some? ==> r.value.orderId == orderId
  {
    if |bills| == 0 then None
    else if bills[0].orderId == orderId then Some(bills[0])
    else
      var r := FirstBill(bills[1..], orderId);
      assert forall i :: 1 <= i < |bills| ==> bills[i] == bills[1..][i - 1];
      r
  }

  /** getBillDetails: a non-positive id throws; otherwise the order's bill joined
      with its order row, or null when there is none. */
  function GetBillDetails(st: Store, orderId: int): (r: Result<Option<BillDetails>>)
    ensures r.IllegalArgument? <==> orderId <= 0
    ensures r.Ok? ==> (r.value.None? <==>
              orderId !in st.orders || forall i :: 0 <= i < |st.bills| ==> st.bills[i].orderId != orderId)
    ensures r.Ok? && r.value.Some? ==>
              && r.value.value.bill in st.bills
              && r.value.value.bill.orderId == orderId
              && orderId in st.orders
              && r.value.value.order == st.orders[orderId]
  {
    if orderId <= 0 then IllegalArgument("Invalid order ID")
    else if orderId !in st.orders then Ok(None)
    else match FirstBill(st.bills, orderId)
      case None => Ok(None)
      case Some(b) => Ok(Some(BillDetails(b, st.orders[orderId])))
  }

  /** In a valid store the bill getBillDetails finds is priced at 100 per unit
      plus 500 for a VIP order. */
  lemma BillDetailsArePriced(st: Store, orderId: int)
    requires Valid(st)
    requires GetBillDetails(st, orderId).Ok? && GetBillDetails(st, orderId).value.Some?
    ensures var d := GetBillDetails(st, orderId).value.value;
            && d.bill.amount == 100.0 * d.order.quantity
            && d.bill.vipCharges == (if d.order.isVip then 500.0 else 0.0)
            && d.bill.totalAmount == d.bill.amount + d.bill.vipCharges
  {
    var d := GetBillDetails(st, orderId).value.value;
    var i :| 0 <= i < |st.bills| && st.bills[i] == d.bill;
    assert BillMatches(st.bills[i], ChargesFor(st.orders[st.bills[i].orderId]));
  }

  /** After a successful createOrder the new order's bill is found, priced from
      the arguments; when the bill INSERT failed there is none. */
  lemma CreatedOrderBill(st: Store, clientId: int, pickup: Option<string>, delivery: Option<string>,
                         itemType: Option<string>, quantity: real, isVip: bool, billFails: bool)
    requires Valid(st)
    requires ValidateOrderInput(clientId, pickup, delivery, itemType, quantity).None?
    ensures var r := CreateOrder(st, clientId, pickup, delivery, itemType, quantity, isVip, false, billFails);
            var d := GetBillDetails(r.store, r.orderId);
            && d.Ok?
            && (billFails <==> d.value.None?)
            && (d.value.Some? ==>
                  && d.value.value.bill.totalAmount == 100.0 * quantity + (if isVip then 500.0 else 0.0)
                  && d.value.value.order.status == "pending")
  {
    var r := CreateOrder(st, clientId, pickup, delivery, itemType, quantity, isVip, false, billFails);
    CreateOrderPreservesValid(st, clientId, pickup, delivery, itemType, quantity, isVip, false, billFails);
    var id := r.orderId;
    assert forall i :: 0 <= i < |st.bills| ==> st.bills[i].orderId != id;
    if !billFails {
      assert r.store.bills[|st.bills|].orderId == id;
      BillDetailsArePriced(r.store, id);
    }
  }

  /** The two worked examples of the charge formula. */
  lemma ChargeExamples(o: Order)
    ensures o.quantity == 2.0 && o.isVip ==> ChargesFor(o) == Charges(200.0, 500.0, 700.0)
    ensures o.quantity == 1.0 && !o.isVip ==> ChargesFor(o) == Charges(100.0, 0.0, 100.0)
  {
  }
}
