/** The simulated exchange: orders filled against the live best levels and the public trades. */
module Paper {
  import opened Basics
  import opened Ladders
  import opened Positions

  datatype Kind = Market | Limit | StopMarket

  datatype Status = New | PartiallyFilled | Filled | Canceled | Expired | Rejected

  /** `price` is the limit price or the stop price. */
  datatype Order = Order(id: string, side: Side, kind: Kind, qty: real, price: real, reduceOnly: bool,
                         status: Status, filled: real, avg: real, placedTs: int)

  /** The best levels, best first; the market view never answers with an empty side. */
  datatype Depth = Depth(bids: seq<Level>, asks: seq<Level>)

  type Levels = d: Depth | d.bids != [] && d.asks != [] witness Depth([Level(1.0, 1.0)], [Level(2.0, 1.0)])

  /** A public trade. */
  datatype Print = Print(ts: int, agg: int, price: real)

  datatype Exchange = Exchange(orders: seq<Order>, fills: seq<Fill>, pos: Pos, touched: map<string, int>,
                               lastAgg: Option<int>, lastTs: Option<int>)

  const EMPTY_EXCHANGE := Exchange([], [], FLAT, map[], None, None)

  predicate IsOpen(o: Order) {
    o.status == New || o.status == PartiallyFilled
  }

  function Remaining(o: Order): real {
    o.qty - o.filled
  }

  /** Orders are filled whole or not at all, ids are distinct, the position is that of the fills. */
  ghost predicate Good(x: Exchange) {
    && (forall i :: 0 <= i < |x.orders| ==> WholeOrder(x.orders[i]))
    && (forall i, j :: 0 <= i < j < |x.orders| ==> x.orders[i].id != x.orders[j].id)
    && RealFills(x.fills) && x.pos == PositionOf(x.fills)
  }

  predicate WholeOrder(o: Order) {
    && o.qty > 0.0 && o.status != PartiallyFilled
    && o.filled == (if o.status == Filled then o.qty else 0.0)
  }

  // ---- lookups --------------------------------------------------------------

  function IndexOf(orders: seq<Order>, id: string): (r: Option<nat>)
    ensures r.Some? ==> r.value < |orders| && orders[r.value].id == id
    ensures r.None? ==> forall i :: 0 <= i < |orders| ==> orders[i].id != id
  {
    if orders == [] then None
    else if orders[|orders| - 1].id == id then Some(|orders| - 1)
    else IndexOf(orders[..|orders| - 1], id)
  }

  function OpenCount(orders: seq<Order>): (n: nat)
    ensures n == 0 <==> forall i :: 0 <= i < |orders| ==> !IsOpen(orders[i])
  {
    if orders == [] then 0 else OpenCount(orders[..|orders| - 1]) + if IsOpen(orders[|orders| - 1]) then 1 else 0
  }

  // ---- the book walk --------------------------------------------------------

  /** Cost of `left` taken level by level; what the levels do not hold is paid at the last price. */
  function WalkCost(levels: seq<Level>, left: real): real
    requires levels != []
  {
    var take := Min(left, levels[0].qty);
    take * levels[0].price
    + if left - take <= 0.0 then 0.0
      else if |levels| == 1 then (left - take) * levels[0].price
      else WalkCost(levels[1..], left - take)
  }

  function SideOf(d: Levels, side: Side): (r: seq<Level>)
    ensures r != []
  {
    if side == Buy then d.asks else d.bids
  }

  // ---- what happens to one order --------------------------------------------

  /** A reduce-only order must be against the position and no larger than it. */
  predicate ReduceOk(held: real, o: Order) {
    !o.reduceOnly || Reduces(held, o.side, Remaining(o))
  }

  predicate Reduces(held: real, side: Side, qty: real) {
    held != 0.0 && (held > 0.0) != (side == Buy) && qty <= Abs(held)
  }

  function Closed(x: Exchange, i: nat, status: Status): (r: Exchange)
    requires Good(x) && i < |x.orders| && IsOpen(x.orders[i])
             && (status == Canceled || status == Expired || status == Rejected)
    ensures Good(r)
  {
    x.(orders := x.orders[i := x.orders[i].(status := status)])
  }

  function Notional(qty: real, price: real): real {
    qty * price
  }

  /** The whole remaining quantity is filled. */
  function Executed(x: Exchange, i: nat, price: real, liq: Liquidity, ts: int, fees: Fees): (r: Exchange)
    requires Good(x) && i < |x.orders| && IsOpen(x.orders[i])
    ensures Good(r)
  {
    var o := x.orders[i];
    var qty := Remaining(o);
    var fee := FeeOf(fees, Notional(qty, price), liq);
    var f := Fill(o.id, ts, o.side, qty, price, fee, liq);
    assert (x.fills + [f])[..|x.fills|] == x.fills;
    x.(orders := x.orders[i := o.(status := Filled, filled := o.qty, avg := price)],
       fills := x.fills + [f], pos := Applied(x.pos, o.side, qty, price, fee))
  }

  function MarketPrice(o: Order, d: Levels): real
    requires Remaining(o) > 0.0
  {
    WalkCost(SideOf(d, o.side), Remaining(o)) / Remaining(o)
  }

  // ---- placing and cancelling -----------------------------------------------

  datatype Reply = Got(order: Order) | Refused

  function Registered(x: Exchange, o: Order): (r: Exchange)
    requires Good(x) && IndexOf(x.orders, o.id).None? && WholeOrder(o)
    ensures Good(r)
  {
    x.(orders := x.orders + [o])
  }

  function NewOrder(id: string, side: Side, kind: Kind, qty: real, price: real, reduceOnly: bool, now: int): Order {
    Order(id, side, kind, qty, price, reduceOnly, New, 0.0, 0.0, now)
  }

  /** The first resting order moves the reading position to its own time. */
  function CursorFor(x: Exchange, o: Order): (r: Exchange)
    requires Good(x)
    ensures Good(r)
  {
    if OpenCount(x.orders) == 1 then x.(lastAgg := None, lastTs := Some(o.placedTs)) else x
  }

  function MarketPlaced(x: Exchange, side: Side, qty: real, id: string, reduceOnly: bool, d: Levels, now: int,
                        fees: Fees): (r: Exchange)
    requires Good(x)
    ensures Good(r)
  {
    if IndexOf(x.orders, id).Some? || qty <= 0.0 then x
    else
      var o, n := NewOrder(id, side, Market, qty, 0.0, reduceOnly, now), |x.orders|;
      var y := Registered(x, o);
      if !ReduceOk(x.pos.qty, o) then Closed(y, n, Expired) else Executed(y, n, MarketPrice(o, d), Taker, now, fees)
  }

  predicate Crosses(side: Side, price: real, d: Levels) {
    if side == Buy then price >= d.asks[0].price else price <= d.bids[0].price
  }

  function GtxPlaced(x: Exchange, side: Side, qty: real, price: real, id: string, reduceOnly: bool, d: Levels,
                     now: int): (r: Exchange)
    requires Good(x)
    ensures Good(r)
  {
    if IndexOf(x.orders, id).Some? || qty <= 0.0 then x
    else
      var o, n := NewOrder(id, side, Limit, qty, price, reduceOnly, now), |x.orders|;
      var y := Registered(x, o);
      if !ReduceOk(x.pos.qty, o) || Crosses(side, price, d) then Closed(y, n, Expired) else CursorFor(y, o)
  }

  function StopPlaced(x: Exchange, side: Side, qty: real, stop: real, id: string, last: real, now: int): (r: Exchange)
    requires Good(x)
    ensures Good(r)
  {
    if IndexOf(x.orders, id).Some? || qty <= 0.0 then x
    else
      var o, n := NewOrder(id, side, StopMarket, qty, stop, true, now), |x.orders|;
      var y := Registered(x, o);
      if Hit(o, last) then Closed(y, n, Rejected) else CursorFor(y, o)
  }

  /** What the caller of a placing operation gets: the order under that id, new or old. */
  function ReplyTo(x: Exchange, id: string): Reply {
    match IndexOf(x.orders, id)
    case None => Refused
    case Some(i) => Got(x.orders[i])
  }

  function CancelDone(x: Exchange, id: string): (r: Exchange)
    requires Good(x)
    ensures Good(r)
  {
    match IndexOf(x.orders, id)
    case None => x
    case Some(i) => if IsOpen(x.orders[i]) then Closed(x, i, Canceled) else x
  }

  function AllCanceled(x: Exchange, i: nat): (r: Exchange)
    requires Good(x) && i <= |x.orders|
    ensures Good(r)
    decreases |x.orders| - i
  {
    if i == |x.orders| then x
    else if IsOpen(x.orders[i]) then AllCanceled(Closed(x, i, Canceled), i + 1)
    else AllCanceled(x, i + 1)
  }

  // ---- a public trade -------------------------------------------------------

  predicate Through(o: Order, t: Print) {
    if o.side == Buy then t.price < o.price else t.price > o.price
  }

  predicate Hit(o: Order, price: real) {
    if o.side == Sell then price <= o.price else price >= o.price
  }

  function Touched(x: Exchange, o: Order, t: Print): (r: Exchange)
    requires Good(x)
    ensures Good(r)
  {
    if o.kind == Limit && t.price == o.price && o.id !in x.touched then x.(touched := x.touched[o.id := t.ts]) else x
  }

  /** One order meets one trade; `d` and `now` are the book and the clock when the trade is read. */
  function Met(x: Exchange, i: nat, t: Print, d: Levels, now: int, fees: Fees): (r: Exchange)
    requires Good(x) && i < |x.orders|
    ensures Good(r) && |r.orders| == |x.orders|
    ensures r.lastAgg == x.lastAgg && r.lastTs == x.lastTs
    ensures forall k :: 0 <= k < |x.orders| && k != i ==> r.orders[k] == x.orders[k]
  {
    var o := x.orders[i];
    var y := Touched(x, o, t);
    if !IsOpen(o) || o.placedTs >= t.ts || o.kind == Market then x
    else if !(if o.kind == Limit then Through(o, t) else Hit(o, t.price)) then y
    else if !ReduceOk(x.pos.qty, o) then Closed(y, i, Expired)
    else if o.kind == Limit then Executed(y, i, o.price, Maker, t.ts, fees)
    else Executed(y, i, MarketPrice(o, d), Taker, now, fees)
  }

  /** The first `i` orders meet the trade, in the order they were placed. */
  function MetUpTo(x: Exchange, i: nat, t: Print, d: Levels, now: int, fees: Fees): (r: Exchange)
    requires Good(x) && i <= |x.orders|
    ensures Good(r) && |r.orders| == |x.orders|
    ensures r.lastAgg == x.lastAgg && r.lastTs == x.lastTs
    ensures forall k :: i <= k < |x.orders| ==> r.orders[k] == x.orders[k]
  {
    if i == 0 then x else Met(MetUpTo(x, i - 1, t, d, now, fees), i - 1, t, d, now, fees)
  }

  function Saw(x: Exchange, t: Print, d: Levels, now: int, fees: Fees): (r: Exchange)
    requires Good(x)
    ensures Good(r) && |r.orders| == |x.orders|
  {
    MetUpTo(x.(lastAgg := Some(t.agg), lastTs := Some(t.ts)), |x.orders|, t, d, now, fees)
  }

  function SawAll(x: Exchange, ts: seq<Print>, d: Levels, now: int, fees: Fees): (r: Exchange)
    requires Good(x)
    ensures Good(r) && |r.orders| == |x.orders|
  {
    if ts == [] then x else Saw(SawAll(x, ts[..|ts| - 1], d, now, fees), ts[|ts| - 1], d, now, fees)
  }

  /** The market view's query: trades after the reading position. */
  predicate Unread(agg: Option<int>, since: int, t: Print) {
    match agg
    case None => t.ts > since
    case Some(a) => t.ts >= since && t.agg > a
  }

  function TradesAfter(tape: seq<Print>, agg: Option<int>, since: int): seq<Print> {
    if tape == [] then []
    else
      var before, t := TradesAfter(tape[..|tape| - 1], agg, since), tape[|tape| - 1];
      if Unread(agg, since, t) then before + [t] else before
  }

  function Earliest(orders: seq<Order>): int
    requires OpenCount(orders) > 0
  {
    var n := |orders| - 1;
    if IsOpen(orders[n]) then
      if OpenCount(orders[..n]) == 0 then orders[n].placedTs else MinInt(Earliest(orders[..n]), orders[n].placedTs)
    else Earliest(orders[..n])
  }

  function Since(x: Exchange): int
    requires OpenCount(x.orders) > 0
  {
    if x.lastTs.Some? then x.lastTs.value else Earliest(x.orders)
  }

  function Polled(x: Exchange, tape: seq<Print>, d: Levels, now: int, fees: Fees): (r: Exchange)
    requires Good(x)
    ensures Good(r)
  {
    if OpenCount(x.orders) == 0 then x else SawAll(x, TradesAfter(tape, x.lastAgg, Since(x)), d, now, fees)
  }

  // ---- the exchange as it runs ----------------------------------------------

  class PaperExchange {
    const fees: Fees
    const pos: Position
    var orders: seq<Order>
    var fills: seq<Fill>
    var touched: map<string, int>
    var lastAgg: Option<int>
    var lastTs: Option<int>

    function View(): Exchange
      reads this, pos
    {
      Exchange(orders, fills, pos.View(), touched, lastAgg, lastTs)
    }

    ghost predicate Valid()
      reads this, pos
    {
      Good(View())
    }

    constructor (fees: Fees)
      ensures Valid() && fresh(pos) && this.fees == fees && View() == EMPTY_EXCHANGE
    {
      this.fees := fees;
      pos := new Position();
      orders, fills, touched, lastAgg, lastTs := [], [], map[], None, None;
    }

    method Register(id: string, side: Side, kind: Kind, qty: real, price: real, reduceOnly: bool, now: int)
        returns (i: nat)
      requires Valid() && IndexOf(orders, id).None? && qty > 0.0
      modifies `orders
      ensures Valid() && i == |old(orders)|
              && View() == Registered(old(View()), NewOrder(id, side, kind, qty, price, reduceOnly, now))
    {
      i := |orders|;
      ghost var r := Registered(View(), NewOrder(id, side, kind, qty, price, reduceOnly, now));
      orders := orders + [NewOrder(id, side, kind, qty, price, reduceOnly, now)];
    }

    method Close(i: nat, status: Status)
      requires Valid() && i < |orders| && IsOpen(orders[i])
               && (status == Canceled || status == Expired || status == Rejected)
      modifies `orders
      ensures Valid() && View() == Closed(old(View()), i, status)
    {
      ghost var r := Closed(View(), i, status);
      orders := orders[i := orders[i].(status := status)];
    }

    method RecordFill(i: nat, qty: real, price: real, liq: Liquidity, ts: int)
      requires Valid() && i < |orders| && IsOpen(orders[i]) && qty == Remaining(orders[i])
      modifies this, pos
      ensures Valid() && View() == Executed(old(View()), i, price, liq, ts, fees)
    {
      hide RealFills;
      hide PositionOf;
      hide Applied;
      ghost var r := Executed(View(), i, price, liq, ts, fees);
      hide FeeOf;
      hide Notional;
      var o := orders[i];
      assert WholeOrder(View().orders[i]);
      var fee := FeeOf(fees, Notional(qty, price), liq);
      var _ := pos.Apply(o.side, qty, price, fee);
      fills := fills + [Fill(o.id, ts, o.side, qty, price, fee, liq)];
      var filled := o.filled + qty;
      var avg := AverageFill(o.avg, o.filled, price, qty);
      FirstFill(o.avg, price, qty);
      var left := o.qty - filled;
      var status := if left <= 0.0 then Filled else PartiallyFilled;
      orders := orders[i := o.(status := status, filled := filled, avg := avg)];
    }

    method FillMarket(i: nat, d: Levels, now: int)
      requires Valid() && i < |orders| && IsOpen(orders[i])
      modifies this, pos
      ensures Valid() && View() == Executed(old(View()), i, MarketPrice(old(orders[i]), d), Taker, now, fees)
    {
      assert WholeOrder(View().orders[i]);
      var qty := Remaining(orders[i]);
      var cost := Walk(SideOf(d, orders[i].side), qty);
      RecordFill(i, qty, cost / qty, Taker, now);
    }

    // ---- orders -------------------------------------------------------------

    /** Placing twice under one id places once. */
    method PlaceMarket(side: Side, qty: real, id: string, reduceOnly: bool, d: Levels, now: int) returns (r: Reply)
      requires Valid()
      modifies this, pos
      ensures Valid() && View() == MarketPlaced(old(View()), side, qty, id, reduceOnly, d, now, fees)
      ensures r == ReplyTo(View(), id)
    {
      hide Good;
      hide IndexOf;
      hide MarketPrice;
      var old_ := IndexOf(orders, id);
      if old_.Some? {
        return Got(orders[old_.value]);
      }
      if qty <= 0.0 {
        return Refused;
      }
      var i := Register(id, side, Market, qty, 0.0, reduceOnly, now);
      NewestIndex(orders, i);
      if !ReduceOk(pos.qty, orders[i]) {
        Close(i, Expired);
      } else {
        FillMarket(i, d, now);
      }
      NewestIndex(orders, i);
      return Got(orders[i]);
    }

    method PlaceLimitGtx(side: Side, qty: real, price: real, id: string, reduceOnly: bool, d: Levels, now: int)
        returns (r: Reply)
      requires Valid()
      modifies this, pos
      ensures Valid() && View() == GtxPlaced(old(View()), side, qty, price, id, reduceOnly, d, now)
      ensures r == ReplyTo(View(), id)
    {
      hide Good;
      hide IndexOf;
      var old_ := IndexOf(orders, id);
      if old_.Some? {
        return Got(orders[old_.value]);
      }
      if qty <= 0.0 {
        return Refused;
      }
      var i := Register(id, side, Limit, qty, price, reduceOnly, now);
      NewestIndex(orders, i);
      if !ReduceOk(pos.qty, orders[i]) {
        Close(i, Expired);
      } else if if side == Buy then price >= d.asks[0].price else price <= d.bids[0].price {
        Close(i, Expired);
      } else {
        ResetCursor(i);
      }
      NewestIndex(orders, i);
      return Got(orders[i]);
    }

    method PlaceStopMarket(side: Side, qty: real, stop: real, id: string, last: real, now: int) returns (r: Reply)
      requires Valid()
      modifies this, pos
      ensures Valid() && View() == StopPlaced(old(View()), side, qty, stop, id, last, now)
      ensures r == ReplyTo(View(), id)
    {
      hide Good;
      hide IndexOf;
      var old_ := IndexOf(orders, id);
      if old_.Some? {
        return Got(orders[old_.value]);
      }
      if qty <= 0.0 {
        return Refused;
      }
      var i := Register(id, side, StopMarket, qty, stop, true, now);
      NewestIndex(orders, i);
      if (side == Sell && last <= stop) || (side == Buy && last >= stop) {
        Close(i, Rejected);
      } else {
        ResetCursor(i);
      }
      NewestIndex(orders, i);
      return Got(orders[i]);
    }

    method ResetCursor(i: nat)
      requires Valid() && i < |orders|
      modifies `lastAgg, `lastTs
      ensures Valid() && View() == CursorFor(old(View()), orders[i])
    {
      ghost var r := CursorFor(View(), orders[i]);
      if OpenCount(orders) == 1 {
        lastAgg, lastTs := None, Some(orders[i].placedTs);
      }
    }

    /** Refused when the order is unknown or no longer open. */
    method Cancel(id: string) returns (r: Reply)
      requires Valid()
      modifies `orders
      ensures Valid() && View() == CancelDone(old(View()), id)
      ensures var o := ReplyTo(old(View()), id);
              r == if o.Got? && IsOpen(o.order) then Got(o.order.(status := Canceled)) else Refused
    {
      hide Good;
      var found := IndexOf(orders, id);
      if found.None? {
        return Refused;
      }
      var i := found.value;
      if !IsOpen(orders[i]) {
        return Refused;
      }
      Close(i, Canceled);
      return Got(orders[i]);
    }

    method CancelAll()
      requires Valid()
      modifies `orders
      ensures Valid() && View() == AllCanceled(old(View()), 0)
    {
      hide Good;
      var i := 0;
      while i < |orders|
        invariant i <= |orders| && Valid() && AllCanceled(old(View()), 0) == AllCanceled(View(), i)
        decreases |orders| - i
      {
        if IsOpen(orders[i]) {
          Close(i, Canceled);
        }
        i := i + 1;
      }
    }

    // ---- progress -----------------------------------------------------------

    method MeetLimit(i: nat, t: Print)
      requires Valid() && i < |orders| && IsOpen(orders[i]) && orders[i].kind == Limit && orders[i].placedTs < t.ts
      modifies this, pos
      ensures Valid() && forall d, now :: View() == Met(old(View()), i, t, d, now, fees)
    {
      hide Executed;
      hide Closed;
      var o := orders[i];
      if t.price == o.price && o.id !in touched {
        touched := touched[o.id := t.ts];
      }
      if !Through(o, t) {
        return;
      }
      if !ReduceOk(pos.qty, o) {
        Close(i, Expired);
        return;
      }
      RecordFill(i, Remaining(o), o.price, Maker, t.ts);
    }

    method MeetStop(i: nat, t: Print, d: Levels, now: int)
      requires Valid() && i < |orders| && IsOpen(orders[i]) && orders[i].kind == StopMarket && orders[i].placedTs < t.ts
      modifies this, pos
      ensures Valid() && View() == Met(old(View()), i, t, d, now, fees)
    {
      hide Executed;
      hide Closed;
      hide MarketPrice;
      var o := orders[i];
      if !Hit(o, t.price) {
        return;
      }
      if !ReduceOk(pos.qty, o) {
        Close(i, Expired);
        return;
      }
      FillMarket(i, d, now);
    }

    /** Read the new trades and let every resting order meet each of them. */
    method Poll(tape: seq<Print>, d: Levels, now: int)
      requires Valid()
      modifies this, pos
      ensures Valid() && View() == Polled(old(View()), tape, d, now, fees)
    {
      hide Good;
      hide Saw;
      hide TradesAfter;
      if OpenCount(orders) == 0 {
        return;
      }
      var news := TradesAfter(tape, lastAgg, Since(View()));
      var n := 0;
      assert news[..0] == [];
      while n < |news|
        invariant n <= |news| && Valid() && View() == SawAll(old(View()), news[..n], d, now, fees)
      {
        assert news[..n + 1][..n] == news[..n];
        MeetAll(news[n], d, now);
        n := n + 1;
      }
      assert news[..n] == news;
    }

    method MeetAll(t: Print, d: Levels, now: int)
      requires Valid()
      modifies this, pos
      ensures Valid() && View() == Saw(old(View()), t, d, now, fees)
    {
      hide Met;
      ghost var x := MoveCursor(t);
      hide Good;
      hide PaperExchange.Valid;
      var i := 0;
      while i < |orders|
        invariant Valid() && Good(x) && i <= |orders| == |x.orders|
        invariant View() == MetUpTo(x, i, t, d, now, fees)
      {
        MeetOne(i, t, d, now);
        i := i + 1;
      }
    }

    method MoveCursor(t: Print) returns (ghost x: Exchange)
      requires Valid()
      modifies `lastAgg, `lastTs
      ensures Valid() && Good(x) && x == View() == old(View()).(lastAgg := Some(t.agg), lastTs := Some(t.ts))
      ensures orders == old(orders)
    {
      lastAgg, lastTs := Some(t.agg), Some(t.ts);
      x := View();
    }

    method MeetOne(i: nat, t: Print, d: Levels, now: int)
      requires Valid() && i < |orders|
      modifies this, pos
      ensures Valid() && View() == Met(old(View()), i, t, d, now, fees)
    {
      hide Executed;
      hide Closed;
      hide MarketPrice;
      if IsOpen(orders[i]) && orders[i].placedTs < t.ts {
        if orders[i].kind == Limit {
          MeetLimit(i, t);
        } else if orders[i].kind == StopMarket {
          MeetStop(i, t, d, now);
        }
      }
    }
  }

  lemma NewestIndex(orders: seq<Order>, i: nat)
    requires |orders| == i + 1
    ensures IndexOf(orders, orders[i].id) == Some(i)
  {
  }

  function AverageFill(avg: real, filled: real, price: real, qty: real): real
    requires filled + qty != 0.0
  {
    (avg * filled + price * qty) / (filled + qty)
  }

  lemma FirstFill(avg: real, price: real, qty: real)
    requires qty > 0.0
    ensures AverageFill(avg, 0.0, price, qty) == price
  {
    assert avg * 0.0 == 0.0;
    assert price * qty / qty == price;
  }

  /** Take from the levels one after the other. */
  method Walk(levels: seq<Level>, qty: real) returns (cost: real)
    requires levels != [] && qty > 0.0
    ensures cost == WalkCost(levels, qty)
  {
    var left := qty;
    cost := 0.0;
    var k := 0;
    while k < |levels|
      invariant k <= |levels| && left > 0.0
      invariant WalkCost(levels, qty)
             == cost + if k < |levels| then WalkCost(levels[k..], left) else left * levels[|levels| - 1].price
    {
      var take := Min(left, levels[k].qty);
      assert levels[k..][0] == levels[k] && levels[k..][1..] == levels[k + 1..];
      cost := cost + take * levels[k].price;
      left := left - take;
      if left <= 0.0 {
        return;
      }
      k := k + 1;
    }
    cost := cost + left * levels[|levels| - 1].price;
  }
}
