/** The priority list of resting orders (`orderList` in package backtest).

    The Go list is a chain of orders hanging off a sentinel `head`, linked by `next`.
    The model keeps the chain after the sentinel as a sequence: `orders[0]` is
    `head.next`, `orders[i + 1]` is `orders[i].next`, and the last order's `next` is
    nil.  Since each order has one `next` link, no order appears twice.
 */
module OrderLists {
  import opened Panics
  import opened Orders

  /** No order of the chain is strictly ahead of one placed before it.  Tied orders
      may stand in either order. */
  ghost predicate Sorted(s: seq<Order>)
  {
    forall i, j :: 0 <= i < j < |s| ==> !Precedes(s[j], s[i])
  }

  /** All orders of the chain can be compared with each other: one side, supported
      types.  (A chain of one order holds anything.) */
  ghost predicate OneBook(s: seq<Order>)
  {
    forall i, j :: 0 <= i < j < |s| ==> Comparable(s[i], s[j])
  }

  /** Each order is chained at most once: an order has a single `next` link. */
  ghost predicate Distinct(s: seq<Order>)
  {
    forall i, j :: 0 <= i < j < |s| ==> s[i] != s[j]
  }

  /** Splicing in an order that is not yet chained keeps every order chained once. */
  lemma SpliceDistinct(s: seq<Order>, k: nat, o: Order)
    requires k <= |s| && Distinct(s) && o !in s
    ensures Distinct(s[..k] + [o] + s[k..])
  {
    var t := s[..k] + [o] + s[k..];
    forall i, j | 0 <= i < j < |t|
      ensures t[i] != t[j]
    {
      if j < k {
        assert t[i] == s[i] && t[j] == s[j];
      } else if j == k {
        assert t[i] == s[i];
      } else if i == k {
        assert t[j] == s[j - 1];
      } else if i < k {
        assert t[i] == s[i] && t[j] == s[j - 1];
      } else {
        assert t[i] == s[i - 1] && t[j] == s[j - 1];
      }
    }
  }

  /** Where `push` splices `o` in: right before the first order that is not ahead of it. */
  function InsertionPoint(s: seq<Order>, o: Order): (k: nat)
    ensures k <= |s|
    ensures forall j :: 0 <= j < k ==> Precedes(s[j], o)
    ensures k < |s| ==> !Precedes(s[k], o)
    decreases |s|
  {
    if s == [] || !Precedes(s[0], o) then 0 else 1 + InsertionPoint(s[1..], o)
  }

  /** Splicing an order into a sorted chain at its insertion point keeps the chain
      sorted and of one book, provided the order belongs to the book. */
  lemma InsertKeepsChain(s: seq<Order>, o: Order)
    requires Sorted(s) && OneBook(s)
    requires s != [] ==> Comparable(s[0], o)
    ensures Sorted(s[..InsertionPoint(s, o)] + [o] + s[InsertionPoint(s, o)..])
    ensures OneBook(s[..InsertionPoint(s, o)] + [o] + s[InsertionPoint(s, o)..])
  {
    var k := InsertionPoint(s, o);
    var t := s[..k] + [o] + s[k..];
    assert |t| == |s| + 1;
    assert forall i :: 0 <= i < k ==> t[i] == s[i];
    assert t[k] == o;
    assert forall i :: k < i < |t| ==> t[i] == s[i - 1];
    forall i | 0 <= i < |s|
      ensures Comparable(s[i], o)
    {
      if i > 0 {
        assert Comparable(s[0], s[i]);
      }
    }
    forall x, y | 0 <= x < y < |t|
      ensures !Precedes(t[y], t[x]) && Comparable(t[x], t[y])
    {
      if y < k {
        assert t[x] == s[x] && t[y] == s[y];
      } else if y == k {
        PrecedesAsymmetric(s[x], o);
      } else if x == k {
        if y - 1 > k {
          NotPrecedesTransitive(s[y - 1], s[k], o);
        }
      } else if x < k {
        assert t[x] == s[x] && t[y] == s[y - 1];
      } else {
        assert t[x] == s[x - 1] && t[y] == s[y - 1];
      }
    }
  }

  /** The insertion point is where the new order's tie run begins: no order from it on
      is ahead of the new order, and every order tied with the new one (same priority
      key) stays behind it, so tied orders are chained newest first. */
  lemma {:induction false} InsertionPointTies(s: seq<Order>, o: Order)
    requires Sorted(s) && OneBook(s)
    requires s != [] ==> Comparable(s[0], o)
    ensures forall j :: InsertionPoint(s, o) <= j < |s| ==> !Precedes(s[j], o)
    ensures forall j :: 0 <= j < |s| && Comparable(s[j], o) && PriorityOf(s[j]) == PriorityOf(o) ==>
              InsertionPoint(s, o) <= j
  {
    var k := InsertionPoint(s, o);
    forall j | k < j < |s|
      ensures !Precedes(s[j], o)
    {
      assert Comparable(s[k], s[j]) && !Precedes(s[j], s[k]);
      if k > 0 {
        assert Comparable(s[0], s[k]);
      }
      NotPrecedesTransitive(s[j], s[k], o);
    }
  }

  /** The price gate of the best order decides for the whole chain: some order of a
      sorted chain of one book trades at `price` exactly when its first order does. */
  lemma HeadGates(s: seq<Order>, price: real)
    requires Sorted(s) && OneBook(s) && s != []
    ensures CanMatch(s[0], price) == Ok(true) <==> exists i :: 0 <= i < |s| && CanMatch(s[i], price) == Ok(true)
  {
    if i :| 0 <= i < |s| && CanMatch(s[i], price) == Ok(true) {
      if i > 0 {
        assert Comparable(s[0], s[i]) && !Precedes(s[i], s[0]);
        CanMatchFollowsPriority(s[0], s[i], price);
      }
    }
  }

  class OrderList {
    /** The chain after the sentinel head, best order first. */
    var orders: seq<Order>

    ghost predicate Valid()
      reads this
    {
      Sorted(orders) && OneBook(orders) && Distinct(orders)
    }

    /** `newOrderList()`: a sentinel with nothing after it. */
    constructor ()
      ensures Valid() && orders == []
    {
      orders := [];
    }

    /** Scans from the head and splices `o` in before the first order that is not
        ahead of it; `o` must not be chained already.  A comparison that aborts (an
        order of the other side or of an unsupported type) aborts the push before
        anything is spliced. */
    method Push(o: Order) returns (outcome: Outcome)
      requires Valid() && o !in orders
      modifies this
      ensures Valid()
      ensures outcome.Fail? <==> old(orders) != [] && !Comparable(old(orders)[0], o)
      ensures outcome.Fail? ==> orders == old(orders)
      ensures outcome.Pass? ==>
                orders == old(orders)[..InsertionPoint(old(orders), o)] + [o] + old(orders)[InsertionPoint(old(orders), o)..]
    {
      var i := 0;
      while i < |orders|
        invariant 0 <= i <= |orders|
        invariant forall j :: 0 <= j < i ==> Precedes(orders[j], o)
      {
        var less := IsLessThan(orders[i], o);
        if less.Panicked? {
          if i > 0 {
            // orders[0] is ahead of o, so o belongs to the book of orders[i] too
            assert false;
          }
          return Fail(less.reason);
        }
        if !less.value {
          break;
        }
        i := i + 1;
      }
      assert orders != [] ==> Comparable(orders[0], o) by {
        if orders != [] && i == 0 {
          assert IsLessThan(orders[0], o).Ok?;
        }
      }
      assert i == InsertionPoint(orders, o);
      InsertKeepsChain(orders, o);
      SpliceDistinct(orders, i, o);
      orders := orders[..i] + [o] + orders[i..];
      return Pass;
    }

    /** Unlinks and returns the order right after the head, or nil when there is none. */
    method Pop() returns (o: Order?)
      requires Valid()
      modifies this
      ensures Valid()
      ensures old(orders) == [] ==> o == null && orders == []
      ensures old(orders) != [] ==> o == old(orders)[0] && orders == old(orders)[1..]
    {
      if orders == [] {
        return null;
      }
      o := orders[0];
      orders := orders[1..];
    }

    /** `ol.canMatch(price)`: whether the list trades at a tick of this price; it
        does exactly when one of its orders does. */
    function CanMatch(price: real): (r: Result<bool>)
      reads this
      requires Valid()
      ensures orders == [] ==> r == Ok(false)
      ensures r == Ok(true) <==> exists i :: 0 <= i < |orders| && Orders.CanMatch(orders[i], price) == Ok(true)
      ensures r.Panicked? <==> orders != [] && !Supported(orders[0].orderType)
      ensures r.Panicked? ==> |orders| == 1 && r.reason == UnsupportedOrderType
    {
      if orders == [] then Ok(false)
      else
        HeadGates(orders, price);
        assert |orders| > 1 ==> Comparable(orders[0], orders[1]);
        Orders.CanMatch(orders[0], price)
    }
  }

  /** Where each order of the push test goes: in front of the LIMIT order, behind the
      first MARKET order, and last. */
  lemma PushScenarioPoints(lb1: Order, mb1: Order, mb2: Order, lb2: Order)
    requires lb1.side == mb1.side == mb2.side == lb2.side == BUY
    requires mb1.orderType == MARKET && mb2.orderType == MARKET && mb1.id < mb2.id
    requires lb1.orderType == LIMIT && lb2.orderType == LIMIT && lb1.assetPrice > lb2.assetPrice
    ensures Comparable(lb1, mb1) && Comparable(mb1, mb2) && Comparable(mb1, lb2)
    ensures var s := [lb1]; var k := InsertionPoint(s, mb1); s[..k] + [mb1] + s[k..] == [mb1, lb1]
    ensures var s := [mb1, lb1]; var k := InsertionPoint(s, mb2); s[..k] + [mb2] + s[k..] == [mb1, mb2, lb1]
    ensures var s := [mb1, mb2, lb1]; var k := InsertionPoint(s, lb2); s[..k] + [lb2] + s[k..] == [mb1, mb2, lb1, lb2]
  {
    assert InsertionPoint([lb1], mb1) == 0;
    assert InsertionPoint([lb1], mb2) == 0;
    assert InsertionPoint([mb2, lb1], mb2) == 0;
    assert InsertionPoint([mb1, lb1], mb2) == 1;
    assert InsertionPoint([lb1], lb2) == 1;
    assert InsertionPoint([mb2, lb1], lb2) == 2;
    assert InsertionPoint([mb1, mb2, lb1], lb2) == 3;
  }

  /** The first half of the push test: the LIMIT BUY at 100000, then the first MARKET
      BUY, are chained MARKET first. */
  method PushScenarioFirstHalf() returns (ol: OrderList, lb1: Order, mb1: Order, mb2: Order, lb2: Order)
    ensures fresh(ol) && ol.Valid()
    ensures ol.orders == [mb1, lb1] && mb2 != mb1 && mb2 != lb1 && lb2 != mb1 && lb2 != lb1 && lb2 != mb2
    ensures lb1.side == mb1.side == mb2.side == lb2.side == BUY
    ensures mb1.orderType == MARKET && mb2.orderType == MARKET && mb1.id < mb2.id
    ensures lb1.orderType == LIMIT && lb1.assetPrice == 100000.0
    ensures lb2.orderType == LIMIT && lb2.assetPrice == 90000.0
  {
    lb1 := new Order(1, "BTC", "USDT", BUY, LIMIT, 100.0, 100000.0, 0.0);
    mb1 := new Order(1, "BTC", "USDT", BUY, MARKET, 0.0, 0.0, 100000.0);
    mb2 := new Order(2, "BTC", "USDT", BUY, MARKET, 0.0, 0.0, 100000.0);
    lb2 := new Order(1, "BTC", "USDT", BUY, LIMIT, 100.0, 90000.0, 0.0);
    PushScenarioPoints(lb1, mb1, mb2, lb2);
    ol := new OrderList();
    var outcome := ol.Push(lb1);
    assert ol.orders == [lb1];
    outcome := ol.Push(mb1);
  }

  /** The push test: a LIMIT BUY at 100000, two MARKET BUYs (the second with the next
      id) and a LIMIT BUY at 90000, pushed in that order, are chained as MARKET,
      MARKET, LIMIT at 100000, LIMIT at 90000, and the last one's `next` is nil. */
  method PushScenario() returns (ol: OrderList, lb1: Order, mb1: Order, mb2: Order, lb2: Order)
    ensures fresh(ol) && ol.Valid()
    ensures ol.orders == [mb1, mb2, lb1, lb2]
    ensures mb1.orderType == MARKET && mb2.orderType == MARKET && mb1.id < mb2.id
    ensures lb1.orderType == LIMIT && lb1.assetPrice == 100000.0
    ensures lb2.orderType == LIMIT && lb2.assetPrice == 90000.0
  {
    ol, lb1, mb1, mb2, lb2 := PushScenarioFirstHalf();
    PushScenarioPoints(lb1, mb1, mb2, lb2);
    var outcome := ol.Push(mb2);
    assert ol.orders == [mb1, mb2, lb1];
    outcome := ol.Push(lb2);
  }

  /** The pop test: the chain of PushScenario pops in priority order, then nil, and nil
      again. */
  method PushPopScenario() returns (chain: seq<Order>, popped: seq<Order?>)
    ensures |chain| == 4
    ensures chain[0].orderType.MARKET? && chain[1].orderType.MARKET? && chain[0].id < chain[1].id
    ensures chain[2].orderType.LIMIT? && chain[2].assetPrice == 100000.0
    ensures chain[3].orderType.LIMIT? && chain[3].assetPrice == 90000.0
    ensures popped == [chain[0], chain[1], chain[2], chain[3], null, null]
  {
    var ol, lb1, mb1, mb2, lb2 := PushScenario();
    chain := ol.orders;
    var o1 := ol.Pop();
    var o2 := ol.Pop();
    var o3 := ol.Pop();
    var o4 := ol.Pop();
    var o5 := ol.Pop();
    var o6 := ol.Pop();
    popped := [o1, o2, o3, o4, o5, o6];
  }
}
