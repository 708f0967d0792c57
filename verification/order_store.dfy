/** The rows of the `orders` and `bills` tables that the dashboard reads and
    writes, held as an in-memory store. Each SQL statement of the panels is
    modelled as a pure function from one store to the next. */
module OrderStore {
  import opened Common

  /** An `orders` row, restricted to the columns the modelled code touches. */
  datatype Order = Order(
    clientId: int,
    pickup: string,
    delivery: string,
    itemType: string,
    quantity: real,
    isVip: bool,
    status: string,
    paymentStatus: string,
    billGenerated: bool,
    billData: Option<string>,
    deliveryOtp: Option<string>)

  /** A `bills` row: base amount, VIP charges and total for one order. */
  datatype Bill = Bill(billId: int, orderId: int, amount: real, vipCharges: real, totalAmount: real)

  /** Both tables, with the next values of their auto-increment keys. Bills are
      kept in insertion order, as rows of a table with no uniqueness check on
      `order_id` beyond what the callers ensure. */
  datatype Store = Store(orders: map<int, Order>, bills: seq<Bill>, nextOrderId: int, nextBillId: int)

  /** Charge per unit of quantity. */
  const RatePerUnit: real := 100.0
  /** Flat surcharge for a VIP order. */
  const VipSurcharge: real := 500.0

  /** The amounts the bill INSERT computes for an order row. */
  datatype Charges = Charges(base: real, vipCharges: real, total: real)

  function ChargesFor(o: Order): (c: Charges)
    ensures c.total == c.base + c.vipCharges
    ensures c.vipCharges == 0.0 || c.vipCharges == VipSurcharge
    ensures c.vipCharges > 0.0 <==> o.isVip
    ensures c.total - c.vipCharges == RatePerUnit * o.quantity
    ensures o.quantity > 0.0 ==> c.total > c.vipCharges
  {
    var base := RatePerUnit * o.quantity;
    var vip := if o.isVip then VipSurcharge else 0.0;
    Charges(base, vip, base + vip)
  }

  predicate BillMatches(b: Bill, c: Charges) {
    b.amount == c.base && b.vipCharges == c.vipCharges && b.totalAmount == c.total
  }

  /** The store's standing invariant: auto-increment counters above every key in
      use, every bill attached to an existing order, at most one bill per order,
      and every bill's amounts those of its order. */
  ghost predicate Valid(st: Store) {
    && st.nextOrderId >= 1
    && st.nextBillId >= 1
    && (forall id :: id in st.orders ==> 1 <= id < st.nextOrderId)
    && (forall i :: 0 <= i < |st.bills| ==> 1 <= st.bills[i].billId < st.nextBillId)
    && (forall i :: 0 <= i < |st.bills| ==> st.bills[i].orderId in st.orders)
    && (forall i, j :: 0 <= i < j < |st.bills| ==>
          st.bills[i].orderId != st.bills[j].orderId && st.bills[i].billId != st.bills[j].billId)
    && (forall i :: 0 <= i < |st.bills| ==>
          BillMatches(st.bills[i], ChargesFor(st.orders[st.bills[i].orderId])))
  }

  /** The empty database. */
  const EmptyStore := Store(map[], [], 1, 1)

  /** Two stores that agree on every order's quantity and VIP flag, so every
      bill priced for one is priced for the other. */
  ghost predicate SamePricing(st: Store, st': Store) {
    && st'.orders.Keys == st.orders.Keys
    && forall id :: id in st.orders ==>
         st'.orders[id].quantity == st.orders[id].quantity && st'.orders[id].isVip == st.orders[id].isVip
  }

  /** Rewriting order columns other than quantity and VIP keeps the store valid. */
  lemma RepricingFreeUpdateKeepsValid(st: Store, st': Store)
    requires Valid(st)
    requires SamePricing(st, st')
    requires st'.bills == st.bills && st'.nextOrderId == st.nextOrderId && st'.nextBillId == st.nextBillId
    ensures Valid(st')
  {
    forall i | 0 <= i < |st'.bills|
      ensures BillMatches(st'.bills[i], ChargesFor(st'.orders[st'.bills[i].orderId]))
    {
      var id := st.bills[i].orderId;
      assert ChargesFor(st'.orders[id]) == ChargesFor(st.orders[id]);
    }
  }
}
