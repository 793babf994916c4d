/** Orders and ticks of the backtester, their priority comparison, the price gate and
    the market fill (package backtest; behaviour as fixed by backtest/orderList_test.go).

    An order's identity and priority fields never change once it is placed, so they are
    `const`; the remaining quantities are decremented in place by a fill, so they are
    `var`.  The `next` link of the Go order belongs to the list and is modelled there.
 */
module Orders {
  import opened Panics
  import opened Balances

  datatype Side = BUY | SELL

  /** MARKET and LIMIT are the types the backtester matches; STOPloss and the codes
      not used yet are `Reserved`. */
  datatype OrderType = MARKET | LIMIT | Reserved(code: int)

  predicate Supported(t: OrderType)
  {
    t.MARKET? || t.LIMIT?
  }

  class Order {
    const id: int
    const assetName: string
    const capitalName: string
    const side: Side
    const orderType: OrderType
    const assetPrice: real
    var assetQuantity: real
    var capitalQuantity: real

    constructor (id: int, assetName: string, capitalName: string, side: Side, orderType: OrderType,
                 assetQuantity: real, assetPrice: real, capitalQuantity: real)
      ensures this.id == id && this.assetName == assetName && this.capitalName == capitalName
      ensures this.side == side && this.orderType == orderType && this.assetPrice == assetPrice
      ensures this.assetQuantity == assetQuantity && this.capitalQuantity == capitalQuantity
    {
      this.id := id;
      this.assetName := assetName;
      this.capitalName := capitalName;
      this.side := side;
      this.orderType := orderType;
      this.assetPrice := assetPrice;
      this.assetQuantity := assetQuantity;
      this.capitalQuantity := capitalQuantity;
    }
  }

  /** A market observation: `volume` is the liquidity still available at `price`, and
      is used up by the fills made against it. */
  class Tick {
    const id: int
    const date: int
    const price: real
    var volume: real

    constructor (id: int, date: int, price: real, volume: real)
      ensures this.id == id && this.date == date && this.price == price && this.volume == volume
    {
      this.id := id;
      this.date := date;
      this.price := price;
      this.volume := volume;
    }
  }

  // ---------------------------------------------------------------------------
  // Priority

  /** A reference definition of priority: a sort key compared lexicographically.
      MARKET orders form the first tier, ranked by id; LIMIT orders the second, ranked
      by price, highest first for BUY and lowest first for SELL. */
  datatype Priority = Priority(tier: int, rank: real)

  function PriorityOf(o: Order): Priority
    requires Supported(o.orderType)
  {
    if o.orderType.MARKET? then Priority(0, o.id as real)
    else if o.side == BUY then Priority(1, -o.assetPrice)
    else Priority(1, o.assetPrice)
  }

  predicate Higher(p: Priority, q: Priority)
  {
    p.tier < q.tier || (p.tier == q.tier && p.rank < q.rank)
  }

  /** Two orders `isLessThan` can compare: same side, both of a supported type. */
  predicate Comparable(a: Order, b: Order)
  {
    a.side == b.side && Supported(a.orderType) && Supported(b.orderType)
  }

  /** `a.isLessThan(b)`: whether `a` is matched before `b`.  A nil receiver is never
      less; orders of different sides, or of a type other than MARKET and LIMIT, are
      not comparable and abort.  A nil argument is dereferenced and aborts. */
  function IsLessThan(a: Order?, b: Order?): (r: Result<bool>)
    ensures a == null ==> r == Ok(false)
    ensures a != null && b == null ==> r == Panicked(NilDereference)
    ensures a != null && b != null && a.side != b.side ==> r == Panicked(DifferentSides)
    ensures a != null && b != null ==> (r.Ok? <==> Comparable(a, b))
    ensures a != null && b != null && Comparable(a, b) ==> r == Ok(Higher(PriorityOf(a), PriorityOf(b)))
  {
    if a == null then Ok(false)
    else if b == null then Panicked(NilDereference)
    else if a.side != b.side then Panicked(DifferentSides)
    else if !Supported(a.orderType) || !Supported(b.orderType) then Panicked(UnsupportedOrderType)
    else if a.orderType.MARKET? && b.orderType.MARKET? then Ok(a.id < b.id)
    else if a.orderType.MARKET? then Ok(true)
    else if b.orderType.MARKET? then Ok(false)
    else if a.side == BUY then Ok(a.assetPrice > b.assetPrice)
    else Ok(a.assetPrice < b.assetPrice)
  }

  /** `a` is strictly ahead of `b`. */
  predicate Precedes(a: Order?, b: Order?)
  {
    IsLessThan(a, b) == Ok(true)
  }

  /** The rules of priority within one side, one per case. */
  lemma PriorityRules(a: Order, b: Order)
    requires Comparable(a, b)
    ensures a.orderType.MARKET? && b.orderType.LIMIT? ==> Precedes(a, b) && !Precedes(b, a)
    ensures a.orderType.MARKET? && b.orderType.MARKET? ==> (Precedes(a, b) <==> a.id < b.id)
    ensures a.orderType.LIMIT? && b.orderType.LIMIT? && a.side == BUY ==> (Precedes(a, b) <==> a.assetPrice > b.assetPrice)
    ensures a.orderType.LIMIT? && b.orderType.LIMIT? && a.side == SELL ==> (Precedes(a, b) <==> a.assetPrice < b.assetPrice)
  {
  }

  /** Priority is strict: never both ways, and never an order before itself. */
  lemma PrecedesAsymmetric(a: Order?, b: Order?)
    ensures Precedes(a, b) ==> !Precedes(b, a)
    ensures !Precedes(a, a)
  {
  }

  lemma PrecedesTransitive(a: Order, b: Order, c: Order)
    requires Precedes(a, b) && Precedes(b, c)
    ensures Precedes(a, c)
  {
  }

  /** Being tied or behind is transitive too, so priority is a strict weak order. */
  lemma NotPrecedesTransitive(a: Order, b: Order, c: Order)
    requires Comparable(a, b) && Comparable(b, c)
    requires !Precedes(a, b) && !Precedes(b, c)
    ensures !Precedes(a, c)
  {
  }

  /** Two comparable orders are either ordered one way, or the other, or tied on their
      key (same-price LIMIT orders, MARKET orders sharing an id). */
  lemma PrecedesTrichotomy(a: Order, b: Order)
    requires Comparable(a, b)
    ensures Precedes(a, b) || Precedes(b, a) || PriorityOf(a) == PriorityOf(b)
  {
  }

  // ---------------------------------------------------------------------------
  // Price gate

  /** `o.canMatch(price)`: whether the order trades at a tick of this price. */
  function CanMatch(o: Order?, price: real): (r: Result<bool>)
    ensures o == null ==> r == Ok(false)
    ensures o != null && o.orderType.MARKET? ==> r == Ok(true)
    ensures o != null && o.orderType.LIMIT? && o.side == BUY ==> r == Ok(price <= o.assetPrice)
    ensures o != null && o.orderType.LIMIT? && o.side == SELL ==> r == Ok(price >= o.assetPrice)
    ensures o != null && !Supported(o.orderType) ==> r == Panicked(UnsupportedOrderType)
  {
    if o == null then Ok(false)
    else match o.orderType
      case MARKET => Ok(true)
      case LIMIT => if o.side == BUY then Ok(price <= o.assetPrice) else Ok(price >= o.assetPrice)
      case Reserved(_) => Panicked(UnsupportedOrderType)
  }

  /** An order that the other does not precede trades at any price the other trades
      at: the gate agrees with priority, so when the best order of a book does not
      trade, no other order of the book does. */
  lemma CanMatchFollowsPriority(a: Order, b: Order, price: real)
    requires Comparable(a, b) && !Precedes(b, a)
    requires CanMatch(b, price) == Ok(true)
    ensures CanMatch(a, price) == Ok(true)
  {
  }

  // ---------------------------------------------------------------------------
  // Market fill

  /** The amounts of one fill: what was traded and what is left of the order and of
      the tick. */
  datatype Fill = Fill(traded: real, quantityLeft: real, volumeLeft: real)

  /** A SELL order for `quantity` against a tick with `volume` available: trades as
      much as both allow and exhausts at least one of them. */
  function SellFill(quantity: real, volume: real): (f: Fill)
    ensures f.traded <= quantity && f.traded <= volume
    ensures f.traded == quantity || f.traded == volume
    ensures f.quantityLeft + f.traded == quantity && f.volumeLeft + f.traded == volume
    ensures f.quantityLeft == 0.0 || f.volumeLeft == 0.0
    ensures quantity >= 0.0 && volume >= 0.0 ==> f.traded >= 0.0 && f.quantityLeft >= 0.0 && f.volumeLeft >= 0.0
  {
    var traded := if quantity < volume then quantity else volume;
    Fill(traded, quantity - traded, volume - traded)
  }

  /** The matchMarket cases asserted by the tests: 100 to sell against 75, 100 and 125
      available at 1000. */
  lemma SellFillExamples()
    ensures SellFill(100.0, 75.0) == Fill(75.0, 25.0, 0.0)
    ensures SellFill(100.0, 100.0) == Fill(100.0, 0.0, 0.0)
    ensures SellFill(100.0, 125.0) == Fill(100.0, 0.0, 25.0)
  {
  }

  /** The deltas of a SELL fill: the sold asset loses `traded` from its locked part,
      the capital gains `price * traded` in its free part. */
  function SellDeltas(assetName: string, capitalName: string, price: real, traded: real): (ds: seq<Asset>)
    ensures |ds| == 2 && ds[0].name == assetName && ds[1].name == capitalName
    ensures ds[0].free == 0.0 && ds[1].locked == 0.0
    ensures ds[0].Total() == -traded && ds[1].Total() == price * traded
  {
    [Asset(assetName, 0.0, -traded), Asset(capitalName, price * traded, 0.0)]
  }

  /** Worth bookkeeping of a SELL fill: the asset loses `traded` units worth `price`
      each, and the capital, valued at 1, gains `price * traded`. */
  lemma SellWorthSteps(m: map<string, Asset>, prices: map<string, real>, assetName: string,
                       capitalName: string, price: real, traded: real, a: Asset, c: Asset)
    requires m.Keys <= prices.Keys && assetName in m && capitalName in m && assetName != capitalName
    requires prices[assetName] == price && prices[capitalName] == 1.0
    requires a.Total() == m[assetName].Total() - traded
    requires c.Total() == m[capitalName].Total() + price * traded
    ensures Worth(m[assetName := a][capitalName := c], prices) == Worth(m, prices)
  {
    var m1 := m[assetName := a];
    WorthUpdate(m, prices, assetName, a);
    WorthUpdate(m1, prices, capitalName, c);
    assert m1[capitalName] == m[capitalName];
    assert a.Total() * price == m[assetName].Total() * price - traded * price;
  }

  /** A SELL fill at the tick price keeps a balance's mark-to-market value when the
      asset is valued at that price and the capital at 1: it only moves value from the
      locked asset to free capital. */
  lemma SellDeltasKeepWorth(m: map<string, Asset>, prices: map<string, real>,
                            assetName: string, capitalName: string, price: real, traded: real)
    requires WellKeyed(m) && assetName in m && capitalName in m && assetName != capitalName
    requires m.Keys <= prices.Keys && prices[assetName] == price && prices[capitalName] == 1.0
    ensures ApplyDeltas(m, SellDeltas(assetName, capitalName, price, traded)).outcome.Pass?
    ensures ApplyDeltas(m, SellDeltas(assetName, capitalName, price, traded)).assets.Keys <= prices.Keys
    ensures Worth(ApplyDeltas(m, SellDeltas(assetName, capitalName, price, traded)).assets, prices) == Worth(m, prices)
  {
    var ds := SellDeltas(assetName, capitalName, price, traded);
    var a := m[assetName].Change(ds[0]).value;
    var m1 := m[assetName := a];
    var c := m1[capitalName].Change(ds[1]).value;
    var m2 := m1[capitalName := c];
    ApplyDeltasHead(m, ds);
    assert ApplyDeltas(m, ds) == ApplyDeltas(m1, ds[1..]);
    ApplyDeltasHead(m1, ds[1..]);
    assert ds[1..][0] == ds[1] && ds[1..][1..] == [];
    assert ApplyDeltas(m1, ds[1..]) == Applied(m2, Pass);
    SellWorthSteps(m, prices, assetName, capitalName, price, traded, a, c);
  }

  /** `matchMarket(od, tk)` for a SELL order: trades min(remaining quantity, tick
      volume) at the tick price, decrements both in place, and returns the asset delta
      and the capital delta, in that order.  A non-MARKET order aborts before anything
      is touched. */
  method MatchMarket(od: Order, tk: Tick?) returns (r: Result<seq<Asset>>)
    requires od.orderType.MARKET? ==> od.side == SELL
    modifies od, tk
    ensures !od.orderType.MARKET? ==> r == Panicked(NotMarketOrder) && unchanged(od)
    ensures !od.orderType.MARKET? && tk != null ==> unchanged(tk)
    ensures od.orderType.MARKET? && tk == null ==> r == Panicked(NilDereference) && unchanged(od)
    ensures od.orderType.MARKET? && tk != null ==>
              var f := SellFill(old(od.assetQuantity), old(tk.volume));
              && od.assetQuantity == f.quantityLeft
              && tk.volume == f.volumeLeft
              && od.capitalQuantity == old(od.capitalQuantity)
              && r == Ok(SellDeltas(od.assetName, od.capitalName, tk.price, f.traded))
  {
    if !od.orderType.MARKET? {
      return Panicked(NotMarketOrder);
    }
    if tk == null {
      return Panicked(NilDereference);
    }
    var f := SellFill(od.assetQuantity, tk.volume);
    od.assetQuantity := f.quantityLeft;
    tk.volume := f.volumeLeft;
    return Ok(SellDeltas(od.assetName, od.capitalName, tk.price, f.traded));
  }
}
