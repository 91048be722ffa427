/**
 * Properties of the order-history query that relate several calls: how totals
 * and results compose over concatenated inputs, that item order does not affect
 * a total, and what a buyer without orders receives.
 */
module MyOrdersProperties {
  import opened MyOrders

  /** The total of two item lists put together is the sum of their totals. */
  lemma {:induction false} OrderTotalAppend(a: seq<OrderItem>, b: seq<OrderItem>)
    ensures OrderTotal(a + b) == OrderTotal(a) + OrderTotal(b)
    decreases |b|
  {
    if |b| == 0 {
      assert a + b == a;
    } else {
      var n := |b| - 1;
      assert (a + b)[..|a + b| - 1] == a + b[..n];
      assert (a + b)[|a + b| - 1] == b[n];
      OrderTotalAppend(a, b[..n]);
    }
  }

  /**
   * The total does not depend on the order in which the store yields an
   * order's items: any rearrangement of the items has the same total.
   */
  lemma {:induction false} OrderTotalPermutation(a: seq<OrderItem>, b: seq<OrderItem>)
    requires multiset(a) == multiset(b)
    ensures OrderTotal(a) == OrderTotal(b)
    decreases |a|
  {
    if |a| == 0 {
      assert |b| == |multiset(b)| == 0;
    } else {
      var n := |a| - 1;
      var x := a[n];
      assert a == a[..n] + [x];
      assert x in multiset(b);
      var k :| 0 <= k < |b| && b[k] == x;
      var rest := b[..k] + b[k + 1..];
      assert b == b[..k] + [x] + b[k + 1..];
      assert multiset(a) == multiset(a[..n]) + multiset{x};
      assert multiset(b) == multiset(b[..k]) + multiset{x} + multiset(b[k + 1..]);
      assert multiset(rest) == multiset(b[..k]) + multiset(b[k + 1..]);
      assert multiset(a[..n]) == multiset(a) - multiset{x};
      assert multiset(rest) == multiset(b) - multiset{x};
      OrderTotalPermutation(a[..n], rest);
      OrderTotalAppend(b[..k] + [x], b[k + 1..]);
      OrderTotalAppend(b[..k], [x]);
      OrderTotalAppend(b[..k], b[k + 1..]);
      assert OrderTotal([x]) == LineTotal(x) by {
        assert [x][..0] == [];
      }
    }
  }

  /** Filtering a store with one more order at its end filters the rest and then that order. */
  lemma OrdersOfBuyerSnoc(store: seq<Order>, o: Order, buyer: string)
    ensures OrdersOfBuyer(store + [o], buyer)
         == OrdersOfBuyer(store, buyer) + (if o.buyerId == buyer then [o] else [])
  {
    assert (store + [o])[..|store|] == store;
  }

  /** Filtering a concatenated store filters each part and keeps their order. */
  lemma {:induction false} OrdersOfBuyerAppend(a: seq<Order>, b: seq<Order>, buyer: string)
    ensures OrdersOfBuyer(a + b, buyer) == OrdersOfBuyer(a, buyer) + OrdersOfBuyer(b, buyer)
    decreases |b|
  {
    if |b| == 0 {
      assert a + b == a;
    } else {
      var n := |b| - 1;
      var init, last := b[..n], b[n];
      assert b == init + [last];
      assert a + b == (a + init) + [last];
      var tail := if last.buyerId == buyer then [last] else [];
      calc {
        OrdersOfBuyer((a + init) + [last], buyer);
        { OrdersOfBuyerSnoc(a + init, last, buyer); }
        OrdersOfBuyer(a + init, buyer) + tail;
        { OrdersOfBuyerAppend(a, init, buyer); }
        OrdersOfBuyer(a, buyer) + (OrdersOfBuyer(init, buyer) + tail);
        { OrdersOfBuyerSnoc(init, last, buyer); }
        OrdersOfBuyer(a, buyer) + OrdersOfBuyer(init + [last], buyer);
      }
    }
  }

  /** Projecting a concatenation projects each part. */
  lemma {:induction false} SummariesAppend(a: seq<Order>, b: seq<Order>)
    ensures Summaries(a + b) == Summaries(a) + Summaries(b)
    decreases |b|
  {
    if |b| == 0 {
      assert a + b == a;
    } else {
      var n := |b| - 1;
      assert (a + b)[..|a + b| - 1] == a + b[..n];
      assert (a + b)[|a + b| - 1] == b[n];
      SummariesAppend(a, b[..n]);
    }
  }

  /**
   * The query treats each stored order on its own: the answer for a store made
   * of two parts is the answer for the first part followed by that for the second.
   */
  lemma HandleAppend(request: GetMyOrders, a: seq<Order>, b: seq<Order>)
    ensures Handle(request, a + b).orders == Handle(request, a).orders + Handle(request, b).orders
  {
    OrdersOfBuyerAppend(a, b, request.userName);
    SummariesAppend(OrdersOfBuyer(a, request.userName), OrdersOfBuyer(b, request.userName));
  }

  /**
   * Orders of other buyers, wherever they stand in the store, change nothing in
   * the answer.
   */
  lemma OtherBuyersIgnored(request: GetMyOrders, a: seq<Order>, others: seq<Order>, b: seq<Order>)
    requires forall o :: o in others ==> o.buyerId != request.userName
    ensures Handle(request, a + others + b) == Handle(request, a + b)
  {
    assert Handle(request, others).orders == [] by {
      NoOrdersGiveEmptyAnswer(request, others);
    }
    HandleAppend(request, a + others, b);
    HandleAppend(request, a, others);
    HandleAppend(request, a, b);
  }

  /**
   * The answer is empty exactly when the store holds no order of the requesting
   * buyer; in particular a buyer with no orders gets an empty collection.
   */
  lemma NoOrdersGiveEmptyAnswer(request: GetMyOrders, store: seq<Order>)
    ensures (forall o :: o in store ==> o.buyerId != request.userName) <==> Handle(request, store).orders == []
  {
    if forall o :: o in store ==> o.buyerId != request.userName {
      assert MatchingIndices(store, request.userName) == {};
    }
  }

  /** An order without items is reported with total 0, as an empty sum is 0. */
  lemma NoItemsTotalZero(request: GetMyOrders, store: seq<Order>, o: Order)
    requires o in store && o.buyerId == request.userName && o.items == []
    ensures exists s :: s in Handle(request, store).orders && Projects(s, o) && s.total == 0.0
  {
    assert OrderTotal(o.items) == 0.0;
    var r := Handle(request, store);
    assert exists s :: s in r.orders && s.orderNumber == o.id && s.orderDate == o.orderDate && s.total == OrderTotal(o.items);
  }

  /**
   * A store with one order of two lines, 2 units at 10.00 and 1 unit at 5.00:
   * the buyer sees exactly one summary, with total 25.00 and status "Pending".
   */
  lemma TwoLineOrderExample(id: int, date: DateTimeOffset, buyer: string)
    ensures var order := Order(id, date, buyer, [OrderItem(2, 10.00), OrderItem(1, 5.00)]);
            Handle(GetMyOrders(buyer), [order]).orders == [OrderSummary(id, date, 25.00)]
            && Handle(GetMyOrders(buyer), [order]).orders[0].Status() == "Pending"
  {
    var items := [OrderItem(2, 10.00), OrderItem(1, 5.00)];
    assert items[..1][..0] == [];
    assert OrderTotal(items) == 25.00;
  }
}
