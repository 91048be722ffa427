/**
 * The order-history query of the web shop: the request handler that answers
 * "my orders" for a signed-in buyer. The persisted order store is given as a
 * sequence of orders (in the order the store yields them); the handler keeps
 * the orders of the requested buyer, projects each to a summary and totals its
 * line items.
 */
module MyOrders {

  /** A point in time with its offset from UTC, copied through unchanged. */
  datatype DateTimeOffset = DateTimeOffset(ticks: int, offsetMinutes: int)

  /**
   * One line of an order. `unitPrice` is an exact decimal amount; C# `decimal`
   * is base-10 and exact, so it is modelled by `real` (without its range limit).
   */
  datatype OrderItem = OrderItem(units: int, unitPrice: real)

  /** A persisted order as the store holds it, with its line items included. */
  datatype Order = Order(id: int, orderDate: DateTimeOffset, buyerId: string, items: seq<OrderItem>)

  /** The status every summary reports: a fixed placeholder, not derived from the order. */
  const DefaultStatus: string := "Pending"

  /** The view model of one order in the buyer's history. */
  datatype OrderSummary = OrderSummary(orderNumber: int, orderDate: DateTimeOffset, total: real) {
    /** A computed property with a constant value, whatever the summary holds. */
    function Status(): (status: string)
      ensures status == "Pending"
    {
      DefaultStatus
    }
  }

  /** The request: the user name of the signed-in buyer. */
  datatype GetMyOrders = GetMyOrders(userName: string)

  /** The handler's answer: the summaries of the buyer's orders. */
  datatype MyOrdersViewModel = MyOrdersViewModel(orders: seq<OrderSummary>)

  /** What one line contributes to the total: its units times its unit price. */
  function LineTotal(item: OrderItem): real {
    item.units as real * item.unitPrice
  }

  /**
   * The sum of the line totals, taken left to right as a sequence sum would:
   * 0 for no items, otherwise the total of all but the last plus the last.
   */
  function OrderTotal(items: seq<OrderItem>): (t: real)
    ensures (forall i :: 0 <= i < |items| ==> items[i].units >= 0 && items[i].unitPrice >= 0.0) ==> t >= 0.0
    decreases |items|
  {
    if |items| == 0 then 0.0
    else OrderTotal(items[..|items| - 1]) + LineTotal(items[|items| - 1])
  }

  /** An order of one line totals to that line's units times its unit price. */
  lemma OrderTotalSingle(item: OrderItem)
    ensures OrderTotal([item]) == item.units as real * item.unitPrice
  {
    assert [item][..0] == [];
  }

  /** The positions of the store that hold an order of `buyer`. */
  ghost function MatchingIndices(store: seq<Order>, buyer: string): set<nat> {
    set j: nat | j < |store| && store[j].buyerId == buyer
  }

  /**
   * The filter step: the orders whose buyer id equals `buyer`, in store order.
   * It keeps exactly those orders: nothing of another buyer, every one of this
   * buyer, and no store entry more often than the store holds it.
   */
  function OrdersOfBuyer(store: seq<Order>, buyer: string): (r: seq<Order>)
    ensures forall o :: o in r ==> o in store && o.buyerId == buyer
    ensures forall j :: 0 <= j < |store| && store[j].buyerId == buyer ==> store[j] in r
    ensures multiset(r) <= multiset(store)
    decreases |store|
  {
    if |store| == 0 then []
    else
      var n := |store| - 1;
      var last := store[n];
      assert store == store[..n] + [last];
      OrdersOfBuyer(store[..n], buyer) + (if last.buyerId == buyer then [last] else [])
  }

  /** The filter keeps one order per store position that holds an order of `buyer`. */
  lemma {:induction false} OrdersOfBuyerCount(store: seq<Order>, buyer: string)
    ensures |OrdersOfBuyer(store, buyer)| == |MatchingIndices(store, buyer)|
    decreases |store|
  {
    if |store| != 0 {
      var n := |store| - 1;
      assert MatchingIndices(store, buyer)
          == MatchingIndices(store[..n], buyer) + (if store[n].buyerId == buyer then {n} else {});
      OrdersOfBuyerCount(store[..n], buyer);
    }
  }

  /**
   * The projection of one order to its summary: it projects the order, and it is
   * the only summary that does.
   */
  function Summarize(o: Order): (s: OrderSummary)
    ensures Projects(s, o)
    ensures forall t :: Projects(t, o) <==> t == s
  {
    OrderSummary(o.id, o.orderDate, OrderTotal(o.items))
  }

  /**
   * The projection step: one summary per order, in the same order, carrying the
   * order's id as its number, the order's date, and the total of its items.
   */
  function Summaries(orders: seq<Order>): (r: seq<OrderSummary>)
    ensures |r| == |orders|
    ensures forall i :: 0 <= i < |r| ==>
              && r[i].orderNumber == orders[i].id
              && r[i].orderDate == orders[i].orderDate
              && r[i].total == OrderTotal(orders[i].items)
    decreases |orders|
  {
    if |orders| == 0 then []
    else Summaries(orders[..|orders| - 1]) + [Summarize(orders[|orders| - 1])]
  }

  /** Whether `s` is the projection of order `o`: same number, same date, the items' total. */
  predicate Projects(s: OrderSummary, o: Order) {
    s.orderNumber == o.id && s.orderDate == o.orderDate && s.total == OrderTotal(o.items)
  }

  /** The store positions holding an order of `buyer` whose projection is `s`. */
  ghost function ProducingIndices(store: seq<Order>, buyer: string, s: OrderSummary): set<nat> {
    set j: nat | j < |store| && store[j].buyerId == buyer && Projects(s, store[j])
  }

  /** Extending the store at its end adds at most its last position to the producing positions. */
  lemma ProducingIndicesSnoc(init: seq<Order>, last: Order, buyer: string, s: OrderSummary)
    ensures |ProducingIndices(init + [last], buyer, s)|
         == |ProducingIndices(init, buyer, s)| + (if last.buyerId == buyer && Projects(s, last) then 1 else 0)
  {
    var store := init + [last];
    var before := ProducingIndices(init, buyer, s);
    var added: set<nat> := if last.buyerId == buyer && Projects(s, last) then {|init|} else {};
    forall j: nat | j < |init| ensures store[j] == init[j] { }
    assert ProducingIndices(store, buyer, s) == before + added;
    assert |init| !in before;
  }

  /** Projecting a list with one more order at its end appends that order's summary. */
  lemma SummariesSnoc(orders: seq<Order>, o: Order)
    ensures Summaries(orders + [o]) == Summaries(orders) + [Summarize(o)]
  {
    assert (orders + [o])[..|orders|] == orders;
  }

  /**
   * Each summary occurs in the projected filter result exactly as often as the
   * store has positions holding an order of `buyer` that projects to it.
   */
  lemma {:induction false} SummariesOfBuyerMultiplicity(store: seq<Order>, buyer: string, s: OrderSummary)
    ensures multiset(Summaries(OrdersOfBuyer(store, buyer)))[s] == |ProducingIndices(store, buyer, s)|
    decreases |store|
  {
    if |store| != 0 {
      var n := |store| - 1;
      var init, last := store[..n], store[n];
      assert store == init + [last];
      var kept := OrdersOfBuyer(init, buyer);
      SummariesOfBuyerMultiplicity(init, buyer, s);
      ProducingIndicesSnoc(init, last, buyer, s);
      if last.buyerId == buyer {
        assert OrdersOfBuyer(store, buyer) == kept + [last];
        SummariesSnoc(kept, last);
        assert Projects(s, last) <==> s == Summarize(last);
      } else {
        assert OrdersOfBuyer(store, buyer) == kept;
      }
    }
  }

  /** Every projected summary stems from one of the orders, and every order has its summary. */
  lemma SummariesCorrespond(orders: seq<Order>)
    ensures forall s :: s in Summaries(orders) ==> exists o :: o in orders && Projects(s, o)
    ensures forall o :: o in orders ==> exists s :: s in Summaries(orders) && Projects(s, o)
  {
    var r := Summaries(orders);
    forall s | s in r ensures exists o :: o in orders && Projects(s, o) {
      var i :| 0 <= i < |r| && r[i] == s;
      assert Projects(s, orders[i]);
    }
    forall o | o in orders ensures exists s :: s in r && Projects(s, o) {
      var i :| 0 <= i < |orders| && orders[i] == o;
      assert Projects(r[i], o);
    }
  }

  /**
   * The handler: the summaries of the requesting buyer's orders. There is one
   * summary per store order of that buyer, each one is the projection of such
   * an order, no other buyer's order contributes, and every status is "Pending".
   * A buyer without orders gets the empty sequence; no input is an error.
   */
  function Handle(request: GetMyOrders, store: seq<Order>): (result: MyOrdersViewModel)
    ensures |result.orders| == |MatchingIndices(store, request.userName)|
    ensures forall s :: s in result.orders ==>
              exists o :: o in store && o.buyerId == request.userName && Projects(s, o)
    ensures forall o :: o in store && o.buyerId == request.userName ==>
              exists s :: s in result.orders && Projects(s, o)
    ensures forall s :: multiset(result.orders)[s] == |ProducingIndices(store, request.userName, s)|
    ensures forall s :: s in result.orders ==> s.Status() == "Pending"
  {
    var kept := OrdersOfBuyer(store, request.userName);
    OrdersOfBuyerCount(store, request.userName);
    SummariesCorrespond(kept);
    forall s ensures multiset(Summaries(kept))[s] == |ProducingIndices(store, request.userName, s)| {
      SummariesOfBuyerMultiplicity(store, request.userName, s);
    }
    MyOrdersViewModel(Summaries(kept))
  }
}
