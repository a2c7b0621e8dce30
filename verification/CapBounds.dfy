/** The position limit with orders of every kind on both sides: how far the position can still be taken
    once a guard stops all new entries, and exactly which entries keep that within the limit. */
module CapBounds {
  import opened Basics
  import opened Ladders
  import opened Positions
  import opened Paper
  import opened Polling
  import opened RiskGuards

  // ---- how far the position can be taken ------------------------------------

  /** What an open entry on side `s` can add to a position on that side. */
  function EntryQty(o: Order, s: Side): real {
    if IsOpen(o) && !o.reduceOnly && o.side == s then Remaining(o) else 0.0
  }

  /** Quantity of the entries resting on side `s`. */
  function EntriesOn(orders: seq<Order>, s: Side): real {
    if orders == [] then 0.0 else EntriesOn(orders[..|orders| - 1], s) + EntryQty(orders[|orders| - 1], s)
  }

  /** What is held on side `s`; nothing if the position is on the other side. */
  function Held(held: real, s: Side): real {
    if Signed(s, held) > 0.0 then Signed(s, held) else 0.0
  }

  /** A position against side `s` may be closed first, by reduce-only orders; then every entry on `s` is filled. */
  function Reach(x: Exchange, s: Side): real {
    Held(x.pos.qty, s) + EntriesOn(x.orders, s)
  }

  function Other(s: Side): Side {
    if s == Buy then Sell else Buy
  }

  lemma {:induction false} EntriesOnUpdate(orders: seq<Order>, i: nat, o: Order, s: Side)
    requires i < |orders|
    ensures EntriesOn(orders[i := o], s) == EntriesOn(orders, s) - EntryQty(orders[i], s) + EntryQty(o, s)
  {
    hide EntryQty;
    var n := |orders| - 1;
    if i < n {
      EntriesOnUpdate(orders[..n], i, o, s);
      assert orders[i := o][..n] == orders[..n][i := o];
    } else {
      assert orders[i := o][..n] == orders[..n];
    }
  }

  lemma EntriesOnOne(orders: seq<Order>, o: Order, s: Side)
    ensures EntriesOn(orders + [o], s) == EntriesOn(orders, s) + EntryQty(o, s)
  {
    assert (orders + [o])[..|orders|] == orders;
  }

  lemma {:induction false} EntriesOnPositive(orders: seq<Order>, s: Side)
    requires forall i :: 0 <= i < |orders| ==> WholeOrder(orders[i])
    ensures EntriesOn(orders, s) >= 0.0
  {
    if orders != [] {
      EntriesOnPositive(orders[..|orders| - 1], s);
    } else {
      assert EntriesOn(orders, s) == 0.0;
    }
  }

  // ---- nothing but an entry takes it further --------------------------------

  ghost predicate NoFurther(x: Exchange, y: Exchange, s: Side) {
    Reach(y, s) <= Reach(x, s)
  }

  lemma CloseNoFurther(x: Exchange, i: nat, status: Status, s: Side)
    requires Good(x) && i < |x.orders| && IsOpen(x.orders[i])
    requires status == Canceled || status == Expired || status == Rejected
    ensures NoFurther(x, Closed(x, i, status), s)
  {
    assert WholeOrder(x.orders[i]);
    hide Good;
    hide EntriesOn;
    EntriesOnUpdate(x.orders, i, x.orders[i].(status := status), s);
  }

  /** An entry that is filled moves from resting to held; a reduce-only fill only reduces. */
  lemma FillNoFurther(x: Exchange, i: nat, price: real, liq: Liquidity, ts: int, fees: Fees, s: Side)
    requires Good(x) && i < |x.orders| && IsOpen(x.orders[i]) && ReduceOk(x.pos.qty, x.orders[i])
    ensures NoFurther(x, Executed(x, i, price, liq, ts, fees), s)
  {
    assert WholeOrder(x.orders[i]);
    hide Good;
    hide EntriesOn;
    hide FeeOf;
    hide Notional;
    var o := x.orders[i];
    EntriesOnUpdate(x.orders, i, o.(status := Filled, filled := o.qty, avg := price), s);
    ApplyBooks(x.pos, o.side, Remaining(o), price, FeeOf(fees, Notional(Remaining(o), price), liq));
    hide Applied;
  }

  lemma MetNoFurther(x: Exchange, i: nat, t: Print, d: Levels, now: int, fees: Fees, s: Side)
    requires Good(x) && i < |x.orders|
    ensures NoFurther(x, Met(x, i, t, d, now, fees), s)
  {
    assert WholeOrder(x.orders[i]);
    hide Good;
    hide Executed;
    hide Closed;
    hide EntriesOn;
    hide MarketPrice;
    hide Held;
    var o := x.orders[i];
    var y := Touched(x, o, t);
    assert y.orders == x.orders && y.pos == x.pos;
    if IsOpen(o) && o.placedTs < t.ts && o.kind != Market
      && (if o.kind == Limit then Through(o, t) else Hit(o, t.price)) {
      if !ReduceOk(x.pos.qty, o) {
        CloseNoFurther(y, i, Expired, s);
      } else if o.kind == Limit {
        FillNoFurther(y, i, o.price, Maker, t.ts, fees, s);
      } else {
        FillNoFurther(y, i, MarketPrice(o, d), Taker, now, fees, s);
      }
    }
  }

  lemma {:induction false} MetUpToNoFurther(x: Exchange, i: nat, t: Print, d: Levels, now: int, fees: Fees, s: Side)
    requires Good(x) && i <= |x.orders|
    ensures NoFurther(x, MetUpTo(x, i, t, d, now, fees), s)
  {
    hide Good;
    hide Reach;
    hide Met;
    if i == 0 {
    } else {
      MetUpToNoFurther(x, i - 1, t, d, now, fees, s);
      MetNoFurther(MetUpTo(x, i - 1, t, d, now, fees), i - 1, t, d, now, fees, s);
    }
  }

  lemma {:induction false} SawAllNoFurther(x: Exchange, ts: seq<Print>, d: Levels, now: int, fees: Fees, s: Side)
    requires Good(x)
    ensures NoFurther(x, SawAll(x, ts, d, now, fees), s)
  {
    hide MetUpTo;
    if ts == [] {
    } else {
      var t := ts[|ts| - 1];
      SawAllNoFurther(x, ts[..|ts| - 1], d, now, fees, s);
      var y := SawAll(x, ts[..|ts| - 1], d, now, fees).(lastAgg := Some(t.agg), lastTs := Some(t.ts));
      assert Good(y);
      MetUpToNoFurther(y, |y.orders|, t, d, now, fees, s);
    }
  }

  lemma {:induction false} CancelEveryNoFurther(x: Exchange, i: nat, s: Side)
    requires Good(x) && i <= |x.orders|
    ensures NoFurther(x, AllCanceled(x, i), s)
    decreases |x.orders| - i
  {
    hide Good;
    hide Reach;
    if i == |x.orders| {
    } else {
      if IsOpen(x.orders[i]) {
        CloseNoFurther(x, i, Canceled, s);
        CancelEveryNoFurther(Closed(x, i, Canceled), i + 1, s);
      } else {
        CancelEveryNoFurther(x, i + 1, s);
      }
    }
  }

  lemma PassNoFurther(x: Exchange, step: Step, tape: seq<Print>, fees: Fees, s: Side)
    requires Good(x) && !Placing(step)
    ensures NoFurther(x, Next(x, step, tape, fees), s)
  {
    hide Good;
    hide Reach;
    match step {
      case Cancel(id) =>
        var i := IndexOf(x.orders, id);
        if i.Some? && IsOpen(x.orders[i.value]) {
          CloseNoFurther(x, i.value, Canceled, s);
        }
      case CancelEvery => CancelEveryNoFurther(x, 0, s);
      case Poll(n, d, now) =>
        if OpenCount(x.orders) > 0 {
          var news := TradesAfter(tape[..if n < |tape| then n else |tape|], x.lastAgg, Since(x));
          SawAllNoFurther(x, news, d, now, fees, s);
        }
    }
  }

  // ---- what placing an order does to it -------------------------------------

  /** A plain order: it may add to the position. */
  predicate Enters(step: Step)
    requires Placing(step)
  {
    !step.PlaceStop? && !step.reduceOnly
  }

  /** A limit or stop order: an entry that comes to rest adds its quantity on its side, nothing else adds any. */
  lemma RestReach(x: Exchange, step: Step, s: Side, tape: seq<Print>, fees: Fees)
    requires Good(x) && (step.PlaceGtx? || step.PlaceStop?)
    ensures Reach(Next(x, step, tape, fees), s)
         == Reach(x, s) + if Enters(step) && WillRest(x, step) && step.side == s then step.qty else 0.0
  {
    if step.PlaceGtx? {
      GtxAdds(x, step, tape, fees);
    } else {
      StopAdds(x, step, tape, fees);
    }
    AddsReach(x, Next(x, step, tape, fees), step, s);
    hide *;
  }

  lemma AddsReach(x: Exchange, y: Exchange, step: Step, s: Side)
    requires (step.PlaceGtx? || step.PlaceStop?) && Polling.Adds(x, y, step)
    ensures Reach(y, s)
         == Reach(x, s) + if Enters(step) && WillRest(x, step) && step.side == s then step.qty else 0.0
  {
    hide WillRest;
    hide EntriesOn;
    hide OpenCount;
    hide Held;
    if y != x {
      var o := y.orders[|x.orders|];
      var z := x.(orders := x.orders + [o]);
      hide Good;
      assert y.pos == x.pos;
      EntriesOnOne(x.orders, o, s);
    }
  }

  /** The exchange will rest the order or fill it. */
  predicate Joins(x: Exchange, step: Step) {
    WillRest(x, step) || (step.PlaceMarket? && IndexOf(x.orders, step.id).None? && step.qty > 0.0)
  }

  /** An order at market: an entry is held at once, a reduce-only one takes neither side further. */
  lemma MarketReach(x: Exchange, step: Step, s: Side, tape: seq<Print>, fees: Fees)
    requires Good(x) && step.PlaceMarket?
    ensures var y := Next(x, step, tape, fees);
            if Enters(step) && Joins(x, step) && s == step.side
            then Reach(y, s) == Held(x.pos.qty + Signed(s, step.qty), s) + EntriesOn(x.orders, s)
            else NoFurther(x, y, s)
    ensures !Joins(x, step) ==> Next(x, step, tape, fees) == x
  {
    hide Good;
    hide FeeOf;
    hide IndexOf;
    hide MarketPrice;
    hide EntriesOn;
    var y := Next(x, step, tape, fees);
    if Joins(x, step) {
      var o := NewOrder(step.id, step.side, Market, step.qty, 0.0, step.reduceOnly, step.now);
      var done := y.orders[|x.orders|];
      assert y.orders == x.orders + [done];
      EntriesOnOne(x.orders, done, s);
      var px := MarketPrice(o, step.d);
      ApplyBooks(x.pos, step.side, step.qty, px, FeeOf(fees, Notional(step.qty, px), Taker));
    }
    hide Applied;
  }

  // ---- what the guard can no longer prevent ---------------------------------

  /** Anything but a plain order: cancelling, polling, changes of status, reduce-only orders and stops. */
  predicate Harmless(a: Act) {
    a.Place? && Placing(a.order) ==> !Enters(a.order)
  }

  lemma HarmlessNoFurther(l: Limits, g: Guarded, a: Act, tape: seq<Print>, fees: Fees, s: Side)
    requires Good(g.x) && Harmless(a)
    ensures NoFurther(g.x, NextGuarded(l, g, a, tape, fees).x, s)
  {
    hide Good;
    hide Next;
    hide Lets;
    hide Reach;
    if a.Place? && Placing(a.order) {
      if a.order.PlaceMarket? {
        MarketReach(g.x, a.order, s, tape, fees);
      } else {
        RestReach(g.x, a.order, s, tape, fees);
      }
    } else if a.Pass? && !Placing(a.step) {
      PassNoFurther(g.x, a.step, tape, fees, s);
    }
  }

  /** A run that goes on from `g`. */
  ghost function RunFrom(l: Limits, g: Guarded, acts: seq<Act>, tape: seq<Print>, fees: Fees): (r: Guarded)
    requires Good(g.x)
    ensures Good(r.x)
  {
    if acts == [] then g
    else NextGuarded(l, RunFrom(l, g, acts[..|acts| - 1], tape, fees), acts[|acts| - 1], tape, fees)
  }

  lemma FromOneMore(l: Limits, g: Guarded, acts: seq<Act>, a: Act, tape: seq<Print>, fees: Fees)
    requires Good(g.x)
    ensures RunFrom(l, g, acts + [a], tape, fees) == NextGuarded(l, RunFrom(l, g, acts, tape, fees), a, tape, fees)
  {
    hide NextGuarded;
    assert (acts + [a])[..|acts|] == acts;
  }

  lemma {:induction false} RunNoFurther(l: Limits, g: Guarded, acts: seq<Act>, tape: seq<Print>, fees: Fees, s: Side)
    requires Good(g.x) && forall a :: a in acts ==> Harmless(a)
    ensures NoFurther(g.x, RunFrom(l, g, acts, tape, fees).x, s)
  {
    hide NextGuarded;
    hide Harmless;
    hide Reach;
    if acts == [] {
    } else {
      var n := |acts| - 1;
      RunNoFurther(l, g, acts[..n], tape, fees, s);
      HarmlessNoFurther(l, RunFrom(l, g, acts[..n], tape, fees), acts[n], tape, fees, s);
    }
  }

  /** A harmless run that ends beyond `cap` on side `s`. */
  ghost predicate Exceeds(l: Limits, g: Guarded, acts: seq<Act>, tape: seq<Print>, fees: Fees, s: Side, cap: real)
    requires Good(g.x)
  {
    && OnTape(tape) && (forall a :: a in acts ==> Harmless(a))
    && Signed(s, RunFrom(l, g, acts, tape, fees).x.pos.qty) > cap
  }

  /** Whatever the status of the guard, some trades and harmless steps take the position beyond `cap`. */
  ghost predicate CanExceed(l: Limits, g: Guarded, fees: Fees, s: Side, cap: real)
    requires Good(g.x)
  {
    exists acts, tape :: Exceeds(l, g, acts, tape, fees, s, cap)
  }

  // ---- and how it comes true ------------------------------------------------

  /** Entries are limit orders. */
  ghost predicate Shaped(x: Exchange) {
    forall i :: 0 <= i < |x.orders| && IsOpen(x.orders[i]) && !x.orders[i].reduceOnly ==> x.orders[i].kind == Limit
  }

  /** Everything that rests is an entry. */
  ghost predicate OnlyEntries(x: Exchange) {
    forall i :: 0 <= i < |x.orders| && IsOpen(x.orders[i]) ==> x.orders[i].kind == Limit && !x.orders[i].reduceOnly
  }

  predicate Reducing(o: Order) {
    IsOpen(o) && o.reduceOnly
  }

  /** First every reduce-only order is cancelled. */
  function Clearing(orders: seq<Order>): seq<Act> {
    if orders == [] then []
    else
      var o := orders[|orders| - 1];
      Clearing(orders[..|orders| - 1]) + if Reducing(o) then [Pass(Cancel(o.id))] else []
  }

  lemma {:induction false} ClearingHarmless(orders: seq<Order>)
    ensures forall a :: a in Clearing(orders) ==> Harmless(a) && !(a.Pass? && a.step.Poll?)
  {
    if orders != [] {
      ClearingHarmless(orders[..|orders| - 1]);
    } else {
      assert Clearing(orders) == [];
    }
  }

  /** The first `i` orders have been cleared, the others are as before. */
  ghost predicate ClearedTo(x: Exchange, y: Exchange, i: nat) {
    && Good(y) && i <= |x.orders| == |y.orders| && y.pos == x.pos
    && (forall s: Side :: EntriesOn(y.orders, s) == EntriesOn(x.orders, s))
    && (forall k :: 0 <= k < i ==> !Reducing(y.orders[k]) && (IsOpen(y.orders[k]) ==> y.orders[k] == x.orders[k]))
    && (forall k :: i <= k < |x.orders| ==> y.orders[k] == x.orders[k])
  }

  lemma ClearOne(x: Exchange, y: Exchange, i: nat, tape: seq<Print>, fees: Fees)
    requires ClearedTo(x, y, i) && i < |x.orders|
    ensures if Reducing(x.orders[i]) then ClearedTo(x, Next(y, Cancel(x.orders[i].id), tape, fees), i + 1)
            else ClearedTo(x, y, i + 1)
  {
    if Reducing(x.orders[i]) {
      assert y.orders[i] == x.orders[i];
      IndexFound(y, i);
      hide Good;
      hide IndexOf;
      var o := y.orders[i].(status := Canceled);
      assert Next(y, Cancel(x.orders[i].id), tape, fees) == Closed(y, i, Canceled);
      forall s: Side ensures EntriesOn(y.orders[i := o], s) == EntriesOn(y.orders, s) {
        EntriesOnUpdate(y.orders, i, o, s);
      }
      hide EntriesOn;
    }
  }

  lemma IndexFound(x: Exchange, i: nat)
    requires Good(x) && i < |x.orders|
    ensures IndexOf(x.orders, x.orders[i].id) == Some(i)
  {
    hide IndexOf;
  }

  lemma PassIs(l: Limits, g: Guarded, step: Step, tape: seq<Print>, fees: Fees)
    requires Good(g.x) && !Placing(step)
    ensures NextGuarded(l, g, Pass(step), tape, fees).x == Next(g.x, step, tape, fees)
  {
    hide Good;
    hide Next;
  }

  lemma FromNone(l: Limits, g: Guarded, tape: seq<Print>, fees: Fees)
    requires Good(g.x)
    ensures RunFrom(l, g, [], tape, fees) == g
  {
    hide Good;
  }

  lemma {:induction false} Cleared(l: Limits, g: Guarded, i: nat, tape: seq<Print>, fees: Fees)
    requires Good(g.x) && i <= |g.x.orders|
    ensures ClearedTo(g.x, RunFrom(l, g, Clearing(g.x.orders[..i]), tape, fees).x, i)
  {
    if i > 0 {
      Cleared(l, g, i - 1, tape, fees);
      var o, before := g.x.orders[i - 1], Clearing(g.x.orders[..i - 1]);
      assert g.x.orders[..i][..i - 1] == g.x.orders[..i - 1];
      var h := RunFrom(l, g, before, tape, fees);
      ClearOne(g.x, h.x, i - 1, tape, fees);
      FromOneMore(l, g, before, Pass(Cancel(o.id)), tape, fees);
      PassIs(l, h, Cancel(o.id), tape, fees);
      assert before + [] == before;
    } else {
      FromNone(l, g, tape, fees);
      assert Clearing(g.x.orders[..0]) == [];
    }
    hide RunFrom;
    hide NextGuarded;
    hide Next;
    hide Good;
  }

  /** A trade that fires every resting order on side `s` and no other. */
  ghost predicate Sweeps(x: Exchange, t: Print, s: Side) {
    forall i :: 0 <= i < |x.orders| && IsOpen(x.orders[i]) ==>
      x.orders[i].placedTs < t.ts && (Through(x.orders[i], t) <==> x.orders[i].side == s)
  }

  /** A price below, or above, all of these; positive if they are. */
  function Beyond(orders: seq<Order>, s: Side): real {
    if orders == [] then 1.0
    else
      var p, q := Beyond(orders[..|orders| - 1], s), orders[|orders| - 1].price;
      if s == Buy then Min(p, if q > 0.0 then q / 2.0 else q - 1.0) else if p > q + 1.0 then p else q + 1.0
  }

  function Late(orders: seq<Order>): int {
    if orders == [] then 0 else MaxInt(Late(orders[..|orders| - 1]), orders[|orders| - 1].placedTs + 1)
  }

  lemma {:induction false} BeyondAll(orders: seq<Order>, s: Side, i: nat)
    requires i < |orders|
    ensures if s == Buy then Beyond(orders, s) < orders[i].price else Beyond(orders, s) > orders[i].price
    ensures orders[i].placedTs < Late(orders)
  {
    var n := |orders| - 1;
    if i == n {
    } else {
      BeyondAll(orders[..n], s, i);
    }
  }

  /** The trade to fear. */
  function Sweep(x: Exchange, s: Side): Print {
    Print(if x.lastTs.Some? then MaxInt(Late(x.orders), x.lastTs.value + 1) else Late(x.orders),
          if x.lastAgg.Some? then x.lastAgg.value + 1 else 0, Beyond(x.orders, s))
  }

  lemma SweepSweeps(x: Exchange, s: Side)
    ensures Sweeps(x, Sweep(x, s), s)
    ensures OpenCount(x.orders) > 0 ==> TradesAfter([Sweep(x, s)], x.lastAgg, Since(x)) == [Sweep(x, s)]
  {
    var t := Sweep(x, s);
    forall i | 0 <= i < |x.orders| && IsOpen(x.orders[i])
      ensures x.orders[i].placedTs < t.ts && (Through(x.orders[i], t) <==> x.orders[i].side == s)
    {
      BeyondAll(x.orders, s, i);
    }
    if OpenCount(x.orders) > 0 {
      if x.lastTs.None? {
        EarliestBefore(x.orders, s);
      }
      assert [t][..0] == [];
    }
  }

  lemma {:induction false} EarliestBefore(orders: seq<Order>, s: Side)
    requires OpenCount(orders) > 0
    ensures Earliest(orders) < Late(orders)
  {
    var n := |orders| - 1;
    if OpenCount(orders[..n]) == 0 {
    } else {
      EarliestBefore(orders[..n], s);
    }
  }

  /** An entry that is filled. */
  lemma FillMoves(x: Exchange, i: nat, price: real, liq: Liquidity, ts: int, fees: Fees)
    requires Good(x) && OnlyEntries(x) && i < |x.orders| && IsOpen(x.orders[i])
    ensures var y, o := Executed(x, i, price, liq, ts, fees), x.orders[i];
            OnlyEntries(y) && y.pos.qty == x.pos.qty + Signed(o.side, o.qty)
  {
    assert WholeOrder(x.orders[i]);
    hide Good;
    hide FeeOf;
    hide Notional;
    var o := x.orders[i];
    ApplyBooks(x.pos, o.side, Remaining(o), price, FeeOf(fees, Notional(Remaining(o), price), liq));
    hide Applied;
  }

  /** The first `i` orders have met it. */
  lemma {:induction false} SweptUpTo(x: Exchange, i: nat, t: Print, d: Levels, now: int, fees: Fees, s: Side)
    requires Good(x) && OnlyEntries(x) && i <= |x.orders| && Sweeps(x, t, s)
    ensures var y := MetUpTo(x, i, t, d, now, fees);
            OnlyEntries(y) && y.pos.qty == x.pos.qty + Signed(s, EntriesOn(x.orders[..i], s))
  {
    hide Good;
    hide Met;
    hide OnlyEntries;
    hide EntryQty;
    hide Through;
    if i == 0 {
    } else {
      SweptUpTo(x, i - 1, t, d, now, fees, s);
      var y := MetUpTo(x, i - 1, t, d, now, fees);
      assert y.orders[i - 1] == x.orders[i - 1];
      SweptOne(y, i - 1, t, d, now, fees, s);
      assert x.orders[..i] == x.orders[..i - 1] + [x.orders[i - 1]];
      EntriesOnOne(x.orders[..i - 1], x.orders[i - 1], s);
    }
  }

  lemma SweptOne(x: Exchange, i: nat, t: Print, d: Levels, now: int, fees: Fees, s: Side)
    requires Good(x) && OnlyEntries(x) && i < |x.orders|
    requires IsOpen(x.orders[i]) ==> x.orders[i].placedTs < t.ts && (Through(x.orders[i], t) <==> x.orders[i].side == s)
    ensures var y := Met(x, i, t, d, now, fees);
            OnlyEntries(y) && y.pos.qty == x.pos.qty + Signed(s, EntryQty(x.orders[i], s))
  {
    assert WholeOrder(x.orders[i]);
    hide Good;
    hide Executed;
    hide Closed;
    var o := x.orders[i];
    var y := Touched(x, o, t);
    assert OnlyEntries(y);
    if IsOpen(o) && o.side == s {
      FillMoves(y, i, o.price, Maker, t.ts, fees);
    }
    hide Through;
  }

  /** An id longer than all of these. */
  function FreshId(orders: seq<Order>): string {
    if orders == [] then "x" else FreshId(orders[..|orders| - 1]) + orders[|orders| - 1].id + "x"
  }

  lemma {:induction false} FreshIsLonger(orders: seq<Order>, i: nat)
    requires i < |orders|
    ensures |orders[i].id| < |FreshId(orders)|
  {
    if i < |orders| - 1 {
      FreshIsLonger(orders[..|orders| - 1], i);
    } else {
      assert |FreshId(orders)| == |FreshId(orders[..|orders| - 1])| + |orders[i].id| + 1;
    }
  }

  lemma FreshIsNew(orders: seq<Order>)
    ensures IndexOf(orders, FreshId(orders)).None?
  {
    var r := IndexOf(orders, FreshId(orders));
    if r.Some? {
      FreshIsLonger(orders, r.value);
    }
    hide IndexOf;
    hide FreshId;
  }

  const CALM: Levels := Depth([Level(100.0, 10.0)], [Level(101.0, 10.0)])

  /** Then a position against side `s` is closed at market. */
  function Flattening(x: Exchange, s: Side): seq<Act> {
    if Signed(s, x.pos.qty) < 0.0
    then [Place(PlaceMarket(s, -Signed(s, x.pos.qty), FreshId(x.orders), true, CALM, 0), false)] else []
  }

  /** No guard holds a reduce-only order back. */
  lemma ReducingPasses(l: Limits, g: Guarded, a: Act, tape: seq<Print>, fees: Fees)
    requires Good(g.x) && a.Place? && a.order.PlaceMarket? && a.order.reduceOnly
    ensures NextGuarded(l, g, a, tape, fees).x == Next(g.x, a.order, tape, fees)
  {
    hide Good;
    hide Next;
    hide Judged;
    hide Killed;
    hide ReplyTo;
  }

  lemma Flattened(l: Limits, g: Guarded, s: Side, tape: seq<Print>, fees: Fees)
    requires Good(g.x) && OnlyEntries(g.x)
    ensures var y := RunFrom(l, g, Flattening(g.x, s), tape, fees).x;
            && OnlyEntries(y) && Signed(s, y.pos.qty) == Held(g.x.pos.qty, s)
            && EntriesOn(y.orders, s) == EntriesOn(g.x.orders, s)
  {
    if Signed(s, g.x.pos.qty) < 0.0 {
      var a := Flattening(g.x, s)[0];
      assert [] + [a] == Flattening(g.x, s);
      FromOneMore(l, g, [], a, tape, fees);
      FromNone(l, g, tape, fees);
      ReducingPasses(l, g, a, tape, fees);
      FreshIsNew(g.x.orders);
      ClosedOut(g.x, s, a.order, tape, fees);
    } else {
      FromNone(l, g, tape, fees);
    }
    hide RunFrom;
    hide NextGuarded;
    hide Next;
    hide Good;
    hide EntriesOn;
    hide FreshId;
    hide IndexOf;
  }

  lemma ClosedOut(x: Exchange, s: Side, step: Step, tape: seq<Print>, fees: Fees)
    requires Good(x) && OnlyEntries(x) && Signed(s, x.pos.qty) < 0.0 && step.PlaceMarket?
    requires step.side == s && step.qty == -Signed(s, x.pos.qty) && IndexOf(x.orders, step.id).None?
    ensures var y := Next(x, step, tape, fees);
            OnlyEntries(y) && y.pos.qty == 0.0 && EntriesOn(y.orders, s) == EntriesOn(x.orders, s)
  {
    hide Good;
    hide FeeOf;
    hide IndexOf;
    hide MarketPrice;
    hide EntriesOn;
    var y := Next(x, step, tape, fees);
    var o := NewOrder(step.id, step.side, Market, step.qty, 0.0, step.reduceOnly, step.now);
    var done := y.orders[|x.orders|];
    assert y.orders == x.orders + [done];
    EntriesOnOne(x.orders, done, s);
    var px := MarketPrice(o, step.d);
    ApplyBooks(x.pos, step.side, step.qty, px, FeeOf(fees, Notional(step.qty, px), Taker));
    hide Applied;
  }

  /** Last, that trade is read. */
  lemma SweptBy(x: Exchange, t: Print, s: Side, d: Levels, now: int, fees: Fees)
    requires Good(x) && OnlyEntries(x) && Sweeps(x, t, s)
    requires OpenCount(x.orders) > 0 ==> TradesAfter([t], x.lastAgg, Since(x)) == [t]
    ensures Polled(x, [t], d, now, fees).pos.qty == x.pos.qty + Signed(s, EntriesOn(x.orders, s))
  {
    if OpenCount(x.orders) > 0 {
      var z := x.(lastAgg := Some(t.agg), lastTs := Some(t.ts));
      assert Good(z);
      assert [t][..0] == [];
      SweptUpTo(z, |z.orders|, t, d, now, fees, s);
      assert z.orders[..|z.orders|] == x.orders;
      assert SawAll(x, [], d, now, fees) == x;
      assert SawAll(x, [t], d, now, fees) == MetUpTo(z, |z.orders|, t, d, now, fees);
    } else {
      NothingRests(x.orders, s);
    }
    hide Good;
    hide MetUpTo;
  }

  lemma {:induction false} NothingRests(orders: seq<Order>, s: Side)
    requires OpenCount(orders) == 0
    ensures EntriesOn(orders, s) == 0.0
  {
    if orders != [] {
      NothingRests(orders[..|orders| - 1], s);
    } else {
      assert EntriesOn(orders, s) == 0.0;
    }
  }

  lemma {:induction false} FromInParts(l: Limits, g: Guarded, a: seq<Act>, b: seq<Act>, tape: seq<Print>, fees: Fees)
    requires Good(g.x)
    ensures RunFrom(l, g, a + b, tape, fees) == RunFrom(l, RunFrom(l, g, a, tape, fees), b, tape, fees)
  {
    hide NextGuarded;
    if b == [] {
      assert a + b == a;
    } else {
      var n := |b| - 1;
      FromInParts(l, g, a, b[..n], tape, fees);
      assert (a + b)[..|a + b| - 1] == a + b[..n];
    }
  }

  /** Before anything is polled the trades to come do not matter. */
  lemma {:induction false} TapeFree(l: Limits, g: Guarded, acts: seq<Act>, tape: seq<Print>, other: seq<Print>,
                                    fees: Fees)
    requires Good(g.x) && forall a :: a in acts ==> !(a.Pass? && a.step.Poll?)
    ensures RunFrom(l, g, acts, tape, fees) == RunFrom(l, g, acts, other, fees)
  {
    hide Lets;
    hide Judged;
    hide Good;
    if acts == [] {
    } else {
      var n := |acts| - 1;
      TapeFree(l, g, acts[..n], tape, other, fees);
      assert acts[n] in acts;
    }
  }

  /** Cancel what only reduces, close what is held against side `s`, let one trade fill the rest. */
  lemma Reached(l: Limits, g: Guarded, s: Side, fees: Fees) returns (acts: seq<Act>, tape: seq<Print>)
    requires Good(g.x) && Shaped(g.x)
    ensures OnTape(tape) && forall a :: a in acts ==> Harmless(a)
    ensures Signed(s, RunFrom(l, g, acts, tape, fees).x.pos.qty) == Reach(g.x, s)
  {
    hide *;
    var a := Clearing(g.x.orders);
    var h := RunFrom(l, g, a, [], fees);
    assert g.x.orders[..|g.x.orders|] == g.x.orders;
    Cleared(l, g, |g.x.orders|, [], fees);
    AllCleared(g.x, h.x);
    var b := Flattening(h.x, s);
    Flattened(l, h, s, [], fees);
    FromInParts(l, g, a, b, [], fees);
    var z := RunFrom(l, g, a + b, [], fees).x;
    OpeningHarmless(g.x.orders, h.x, s);
    var poll := Pass(Poll(1, CALM, 0));
    acts, tape := a + b + [poll], [Sweep(z, s)];
    TapeFree(l, g, a + b, [], tape, fees);
    FromOneMore(l, g, a + b, poll, tape, fees);
    SweepSweeps(z, s);
    SweptBy(z, Sweep(z, s), s, CALM, 0, fees);
    PollIs(l, RunFrom(l, g, a + b, tape, fees), Sweep(z, s), tape, fees);
    FilledUp(g.x, z, s);
    OneTrade(Sweep(z, s));
  }

  lemma OneTrade(t: Print)
    ensures OnTape([t])
  {
  }

  lemma AllCleared(x: Exchange, y: Exchange)
    requires Shaped(x) && ClearedTo(x, y, |x.orders|)
    ensures OnlyEntries(y) && y.pos == x.pos && forall s: Side :: EntriesOn(y.orders, s) == EntriesOn(x.orders, s)
  {
    hide Good;
    hide EntriesOn;
  }

  lemma OpeningHarmless(orders: seq<Order>, x: Exchange, s: Side)
    ensures forall a :: a in Clearing(orders) + Flattening(x, s) + [Pass(Poll(1, CALM, 0))] ==> Harmless(a)
    ensures forall a :: a in Clearing(orders) + Flattening(x, s) ==> !(a.Pass? && a.step.Poll?)
  {
    ClearingHarmless(orders);
    hide Clearing;
  }

  lemma PollIs(l: Limits, g: Guarded, t: Print, tape: seq<Print>, fees: Fees)
    requires Good(g.x) && tape == [t]
    ensures NextGuarded(l, g, Pass(Poll(1, CALM, 0)), tape, fees).x == Polled(g.x, [t], CALM, 0, fees)
  {
    hide Good;
    hide Polled;
    assert tape[..1] == tape;
  }

  lemma FilledUp(x: Exchange, z: Exchange, s: Side)
    requires Signed(s, z.pos.qty) == Held(x.pos.qty, s) && EntriesOn(z.orders, s) == EntriesOn(x.orders, s)
    ensures Signed(s, z.pos.qty + Signed(s, EntriesOn(z.orders, s))) == Reach(x, s)
  {
    hide EntriesOn;
  }

  /** In any status of the guard: harmless steps and trades can take the position beyond `cap` on side `s` if and
      only if what is held there and the entries resting there exceed it together. */
  lemma ReachIsExact(l: Limits, g: Guarded, fees: Fees, s: Side, cap: real)
    requires Good(g.x) && Shaped(g.x)
    ensures CanExceed(l, g, fees, s, cap) <==> Reach(g.x, s) > cap
  {
    var acts, tape := Reached(l, g, s, fees);
    if Reach(g.x, s) > cap {
      assert Exceeds(l, g, acts, tape, fees, s, cap);
    }
    forall acts, tape | Exceeds(l, g, acts, tape, fees, s, cap) ensures Reach(g.x, s) > cap {
      RunNoFurther(l, g, acts, tape, fees, s);
      AtLeastHeld(RunFrom(l, g, acts, tape, fees).x, s);
    }
    hide RunFrom;
    hide Reach;
    hide Good;
    hide Harmless;
  }

  lemma AtLeastHeld(x: Exchange, s: Side)
    requires Good(x)
    ensures Signed(s, x.pos.qty) <= Reach(x, s)
  {
    EntriesOnPositive(x.orders, s);
    hide EntriesOn;
  }

  // ---- which entries keep it within the limit -------------------------------

  ghost predicate BothWithin(x: Exchange, cap: real) {
    Reach(x, Buy) <= cap && Reach(x, Sell) <= cap
  }

  /** An entry joins when the guard lets it through and the exchange rests or fills it. */
  predicate Accepted(l: Limits, g: Guarded, a: Act) {
    && a.Place? && Placing(a.order) && Enters(a.order)
    && Lets(l, Killed(g.risk, a.killed), g.x, a.order) && Joins(g.x, a.order)
  }

  /** How far its side can be taken with it; told before it is placed. */
  function ReachWith(x: Exchange, step: Step): real
    requires Placing(step)
  {
    if step.PlaceMarket? then Held(x.pos.qty + Signed(step.side, step.qty), step.side) + EntriesOn(x.orders, step.side)
    else Reach(x, step.side) + step.qty
  }

  ghost predicate Roomy(l: Limits, g: Guarded, a: Act) {
    Accepted(l, g, a) ==> ReachWith(g.x, a.order) <= l.maxAbsPosition
  }

  lemma PlacedIsRoomy(l: Limits, g: Guarded, a: Act, tape: seq<Print>, fees: Fees)
    requires Good(g.x) && BothWithin(g.x, l.maxAbsPosition) && a.Place? && Placing(a.order) && Enters(a.order)
    ensures BothWithin(NextGuarded(l, g, a, tape, fees).x, l.maxAbsPosition) <==> Roomy(l, g, a)
  {
    hide Good;
    hide Held;
    hide EntriesOn;
    hide Next;
    hide Lets;
    hide IndexOf;
    hide ReduceOk;
    hide Crosses;
    if Lets(l, Killed(g.risk, a.killed), g.x, a.order) {
      if a.order.PlaceGtx? {
        RestReach(g.x, a.order, Buy, tape, fees);
        RestReach(g.x, a.order, Sell, tape, fees);
      } else {
        MarketReach(g.x, a.order, Buy, tape, fees);
        MarketReach(g.x, a.order, Sell, tape, fees);
      }
    }
  }

  /** One step of any kind: the limit stays out of reach exactly if an entry that joins leaves it so. */
  lemma RoomIsExact(l: Limits, g: Guarded, a: Act, tape: seq<Print>, fees: Fees)
    requires Good(g.x) && BothWithin(g.x, l.maxAbsPosition)
    ensures BothWithin(NextGuarded(l, g, a, tape, fees).x, l.maxAbsPosition) <==> Roomy(l, g, a)
  {
    if Harmless(a) {
      HarmlessNoFurther(l, g, a, tape, fees, Buy);
      HarmlessNoFurther(l, g, a, tape, fees, Sell);
    } else {
      PlacedIsRoomy(l, g, a, tape, fees);
    }
    hide Good;
    hide Reach;
    hide NextGuarded;
    hide ReachWith;
    hide Lets;
    hide Joins;
  }

  ghost predicate AlwaysRoomy(l: Limits, acts: seq<Act>, tape: seq<Print>, fees: Fees) {
    forall n :: 0 <= n < |acts| ==> Roomy(l, RunGuarded(l, acts[..n], tape, fees), acts[n])
  }

  ghost predicate WithinAt(l: Limits, acts: seq<Act>, tape: seq<Print>, fees: Fees, n: nat)
    requires n <= |acts|
  {
    BothWithin(RunGuarded(l, acts[..n], tape, fees).x, l.maxAbsPosition)
  }

  lemma {:induction false} RoomyRun(l: Limits, acts: seq<Act>, tape: seq<Print>, fees: Fees, n: nat)
    requires l.maxAbsPosition >= 0.0 && n <= |acts|
    requires forall m :: 0 <= m < n ==> Roomy(l, RunGuarded(l, acts[..m], tape, fees), acts[m])
    ensures WithinAt(l, acts, tape, fees, n)
  {
    if n == 0 {
      assert acts[..0] == [];
    } else {
      RoomyRun(l, acts, tape, fees, n - 1);
      RunStep(l, acts, tape, fees, n - 1);
      RoomIsExact(l, RunGuarded(l, acts[..n - 1], tape, fees), acts[n - 1], tape, fees);
    }
    hide RunGuarded;
    hide Roomy;
    hide NextGuarded;
  }

  lemma RoomyEverywhere(l: Limits, acts: seq<Act>, tape: seq<Print>, fees: Fees)
    requires l.maxAbsPosition >= 0.0
    ensures (forall n :: 0 <= n <= |acts| ==> WithinAt(l, acts, tape, fees, n)) <==> AlwaysRoomy(l, acts, tape, fees)
  {
    hide BothWithin;
    hide Roomy;
    hide RunGuarded;
    hide NextGuarded;
    if AlwaysRoomy(l, acts, tape, fees) {
      forall n | 0 <= n <= |acts| ensures WithinAt(l, acts, tape, fees, n) {
        RoomyRun(l, acts, tape, fees, n);
      }
    } else {
      var n :| 0 <= n < |acts| && !Roomy(l, RunGuarded(l, acts[..n], tape, fees), acts[n]);
      RunStep(l, acts, tape, fees, n);
      if WithinAt(l, acts, tape, fees, n) {
        RoomIsExact(l, RunGuarded(l, acts[..n], tape, fees), acts[n], tape, fees);
        assert !WithinAt(l, acts, tape, fees, n + 1);
      }
    }
  }

  // ---- entries are limit orders in every run --------------------------------

  lemma PollShaped(x: Exchange, n: nat, d: Levels, now: int, tape: seq<Print>, fees: Fees)
    requires Good(x) && Shaped(x) && n <= |tape|
    ensures Shaped(Polled(x, tape[..n], d, now, fees))
  {
    hide Good;
    hide SawAll;
    hide TradesAfter;
    hide Counts;
    if OpenCount(x.orders) > 0 {
      SawAllOpen(x, TradesAfter(tape[..n], x.lastAgg, Since(x)), d, now, fees);
    }
    hide OpenCount;
  }

  lemma {:induction false} CancelShaped(x: Exchange, i: nat)
    requires Good(x) && Shaped(x) && i <= |x.orders|
    ensures Shaped(AllCanceled(x, i))
    decreases |x.orders| - i
  {
    hide Good;
    if i == |x.orders| {
    } else {
      CancelShaped(if IsOpen(x.orders[i]) then Closed(x, i, Canceled) else x, i + 1);
    }
  }

  lemma NextShaped(x: Exchange, step: Step, tape: seq<Print>, fees: Fees)
    requires Good(x) && Shaped(x)
    ensures Shaped(Next(x, step, tape, fees))
  {
    hide Good;
    hide MarketPrice;
    hide FeeOf;
    match step {
      case CancelEvery => CancelShaped(x, 0);
      case Poll(n, d, now) => PollShaped(x, if n < |tape| then n else |tape|, d, now, tape, fees);
      case _ =>
    }
    hide Polled;
    hide AllCanceled;
    hide Applied;
  }

  lemma {:induction false} RunShaped(l: Limits, acts: seq<Act>, tape: seq<Print>, fees: Fees)
    ensures Shaped(RunGuarded(l, acts, tape, fees).x)
  {
    hide Good;
    hide Next;
    hide Lets;
    if acts == [] {
    } else {
      var n := |acts| - 1;
      RunShaped(l, acts[..n], tape, fees);
      var g := RunGuarded(l, acts[..n], tape, fees);
      if acts[n].Place? {
        NextShaped(g.x, acts[n].order, tape, fees);
      } else if acts[n].Pass? {
        NextShaped(g.x, acts[n].step, tape, fees);
      }
      hide Shaped;
    }
  }

  /** The limit is safe on both sides from whatever follows without a new entry. */
  ghost predicate CapHolds(l: Limits, acts: seq<Act>, tape: seq<Print>, fees: Fees, n: nat)
    requires n <= |acts|
  {
    var g := RunGuarded(l, acts[..n], tape, fees);
    !CanExceed(l, g, fees, Buy, l.maxAbsPosition) && !CanExceed(l, g, fees, Sell, l.maxAbsPosition)
  }

  /** Over runs of every kind of guarded order, on both sides: after no step can harmless steps and trades take
      the position beyond the limit, if and only if every entry that joined left room for that on its own side. */
  lemma RoomIsExactForRuns(l: Limits, acts: seq<Act>, tape: seq<Print>, fees: Fees)
    requires l.maxAbsPosition >= 0.0
    ensures (forall n :: 0 <= n <= |acts| ==> CapHolds(l, acts, tape, fees, n)) <==> AlwaysRoomy(l, acts, tape, fees)
  {
    RoomyEverywhere(l, acts, tape, fees);
    forall n | 0 <= n <= |acts| ensures CapHolds(l, acts, tape, fees, n) <==> WithinAt(l, acts, tape, fees, n) {
      var g := RunGuarded(l, acts[..n], tape, fees);
      RunShaped(l, acts[..n], tape, fees);
      ReachIsExact(l, g, fees, Buy, l.maxAbsPosition);
      ReachIsExact(l, g, fees, Sell, l.maxAbsPosition);
    }
    hide CanExceed;
    hide Reach;
    hide RunGuarded;
    hide AlwaysRoomy;
  }

  /** The guard nets the sides: its test sees how far side `s` can be taken with the order, less how far the
      other side can. */
  lemma GuardNets(x: Exchange, s: Side, qty: real)
    requires Shaped(x)
    ensures Signed(s, x.pos.qty + Pending(x.orders) + Signed(s, qty)) == Reach(x, s) + qty - Reach(x, Other(s))
  {
    PendingNets(x.orders, s);
    hide Pending;
    hide EntriesOn;
  }

  lemma {:induction false} PendingNets(orders: seq<Order>, s: Side)
    requires forall i :: 0 <= i < |orders| && IsOpen(orders[i]) && !orders[i].reduceOnly ==> orders[i].kind == Limit
    ensures Signed(s, Pending(orders)) == EntriesOn(orders, s) - EntriesOn(orders, Other(s))
  {
    if orders != [] {
      PendingNets(orders[..|orders| - 1], s);
    } else {
      assert Pending(orders) == EntriesOn(orders, s) == EntriesOn(orders, Other(s)) == 0.0;
    }
  }

  // ---- two runs that break it -----------------------------------------------

  const ONE := Limits(1.0, -1000.0, 3, 500.0, 10.0, 5)

  /** Buy one, offer it back above the market, buy another. */
  const MIXED := [
    Place(PlaceMarket(Buy, 1.0, "a", false, CALM, 1), false),
    Place(PlaceGtx(Sell, 1.0, 102.0, "b", false, CALM, 2), false),
    Place(PlaceMarket(Buy, 1.0, "c", false, CALM, 3), false)]

  /** Sell one, bid for it twice below the market, buy it back reduce-only, and let a trade fall below the bids. */
  const REDUCED := [
    Place(PlaceMarket(Sell, 1.0, "a", false, CALM, 1), false),
    Place(PlaceGtx(Buy, 1.0, 99.0, "b", false, CALM, 2), false),
    Place(PlaceGtx(Buy, 1.0, 99.0, "c", false, CALM, 3), false),
    Place(PlaceMarket(Buy, 1.0, "d", true, CALM, 4), false),
    Pass(Poll(1, CALM, 6))]

  const FALL := [Print(5, 1, 98.0)]

  /** A fresh guard; what rests are entries on side `s` at one price, placed before time 5. */
  ghost predicate Stage(g: Guarded, s: Side, price: real, held: real, resting: real, ids: set<string>) {
    && Good(g.x) && g.risk == FRESH_RISK && g.x.pos.qty == held && EntriesOn(g.x.orders, s) == resting
    && g.x.lastAgg.None? && (g.x.lastTs.Some? ==> g.x.lastTs.value < 5)
    && forall i :: 0 <= i < |g.x.orders| ==> StageOrder(g.x.orders[i], s, price, ids)
  }

  predicate StageOrder(o: Order, s: Side, price: real, ids: set<string>) {
    o.id in ids && (IsOpen(o) ==> o.kind == Limit && !o.reduceOnly && o.side == s && o.price == price && o.placedTs < 5)
  }

  lemma {:induction false} NoneAgainst(orders: seq<Order>, s: Side, price: real, ids: set<string>)
    requires forall i :: 0 <= i < |orders| ==> StageOrder(orders[i], s, price, ids)
    ensures Pending(orders) == Signed(s, EntriesOn(orders, s))
  {
    if orders != [] {
      NoneAgainst(orders[..|orders| - 1], s, price, ids);
    } else {
      assert Pending(orders) == EntriesOn(orders, s) == 0.0;
    }
  }

  lemma StageLets(l: Limits, g: Guarded, a: Act, s: Side, price: real, held: real, resting: real, ids: set<string>)
    requires Stage(g, s, price, held, resting, ids) && a.Place? && Placing(a.order) && !a.order.PlaceStop?
    requires a.order.reduceOnly || Reduces(held, a.order.side, a.order.qty)
             || Abs(held + Signed(s, resting) + Signed(a.order.side, a.order.qty)) <= l.maxAbsPosition
    ensures Lets(l, FRESH_RISK, g.x, a.order)
  {
    NoneAgainst(g.x.orders, s, price, ids);
    hide Good;
    hide Pending;
    hide EntriesOn;
  }

  /** The guard passes the order, the exchange takes it, and the guard stays as it was. */
  lemma StageTaken(l: Limits, g: Guarded, a: Act, tape: seq<Print>, fees: Fees, o: Order)
    requires Good(g.x) && g.risk == FRESH_RISK && a.Place? && Placing(a.order) && !a.killed
    requires Lets(l, FRESH_RISK, g.x, a.order)
    requires Next(g.x, a.order, tape, fees).orders == g.x.orders + [o] && o.id == a.order.id && o.status != Rejected
    ensures NextGuarded(l, g, a, tape, fees) == Guarded(FRESH_RISK, Next(g.x, a.order, tape, fees))
  {
    NewestIndex(g.x.orders + [o], |g.x.orders|);
    hide Good;
    hide Next;
    hide Lets;
    hide IndexOf;
  }

  lemma StageUnknown(orders: seq<Order>, s: Side, price: real, ids: set<string>, id: string)
    requires (forall i :: 0 <= i < |orders| ==> StageOrder(orders[i], s, price, ids)) && id !in ids
    ensures IndexOf(orders, id).None?
  {
    hide IndexOf;
  }

  lemma StageMarket(l: Limits, g: Guarded, a: Act, tape: seq<Print>, fees: Fees,
                    s: Side, price: real, held: real, resting: real, ids: set<string>)
    requires Stage(g, s, price, held, resting, ids) && a.Place? && a.order.PlaceMarket? && !a.killed
    requires a.order.id !in ids && a.order.qty > 0.0 && Lets(l, FRESH_RISK, g.x, a.order)
    requires a.order.reduceOnly ==> Reduces(held, a.order.side, a.order.qty)
    ensures Stage(NextGuarded(l, g, a, tape, fees), s, price, held + Signed(a.order.side, a.order.qty), resting,
                  ids + {a.order.id})
  {
    hide Good;
    hide Lets;
    hide Next;
    hide Reduces;
    hide NextGuarded;
    hide EntriesOn;
    hide IndexOf;
    StageUnknown(g.x.orders, s, price, ids, a.order.id);
    var y := Next(g.x, a.order, tape, fees);
    FilledAtOnce(g.x, a.order, tape, fees);
    StageTaken(l, g, a, tape, fees, y.orders[|g.x.orders|]);
    EntriesOnOne(g.x.orders, y.orders[|g.x.orders|], s);
  }

  lemma FilledAtOnce(x: Exchange, step: Step, tape: seq<Print>, fees: Fees)
    requires Good(x) && step.PlaceMarket? && IndexOf(x.orders, step.id).None? && step.qty > 0.0
    requires step.reduceOnly ==> Reduces(x.pos.qty, step.side, step.qty)
    ensures var y := Next(x, step, tape, fees);
            && |y.orders| == |x.orders| + 1 && y.orders == x.orders + [y.orders[|x.orders|]]
            && y.orders[|x.orders|].id == step.id && y.orders[|x.orders|].status == Filled
            && y.pos.qty == x.pos.qty + Signed(step.side, step.qty) && y.lastAgg == x.lastAgg && y.lastTs == x.lastTs
  {
    hide Good;
    hide FeeOf;
    hide IndexOf;
    hide MarketPrice;
    var px := MarketPrice(NewOrder(step.id, step.side, Market, step.qty, 0.0, step.reduceOnly, step.now), step.d);
    ApplyBooks(x.pos, step.side, step.qty, px, FeeOf(fees, Notional(step.qty, px), Taker));
    hide Applied;
  }

  lemma StageRest(l: Limits, g: Guarded, a: Act, tape: seq<Print>, fees: Fees,
                  s: Side, price: real, held: real, resting: real, ids: set<string>)
    requires Stage(g, s, price, held, resting, ids) && a.Place? && a.order.PlaceGtx? && !a.killed
    requires a.order.id !in ids && a.order.qty > 0.0 && Lets(l, FRESH_RISK, g.x, a.order)
    requires a.order.side == s && a.order.price == price && !a.order.reduceOnly && a.order.now < 5
    requires !Crosses(s, price, a.order.d)
    ensures Stage(NextGuarded(l, g, a, tape, fees), s, price, held, resting + a.order.qty, ids + {a.order.id})
  {
    hide Good;
    hide Lets;
    hide Next;
    hide Crosses;
    hide NextGuarded;
    hide EntriesOn;
    hide IndexOf;
    hide OpenCount;
    StageUnknown(g.x.orders, s, price, ids, a.order.id);
    var y, o := Next(g.x, a.order, tape, fees), Resting(a.order);
    GtxAdds(g.x, a.order, tape, fees);
    assert WillRest(g.x, a.order);
    hide WillRest;
    assert y.orders == g.x.orders + [o];
    StageTaken(l, g, a, tape, fees, o);
    EntriesOnOne(g.x.orders, o, s);
  }

  lemma StageStarts(l: Limits, acts: seq<Act>, tape: seq<Print>, fees: Fees, s: Side, price: real)
    ensures Stage(RunGuarded(l, acts[..0], tape, fees), s, price, 0.0, 0.0, {})
  {
  }

  /** Step `n` of a run is an order at market. */
  lemma RunsMarket(l: Limits, acts: seq<Act>, n: nat, tape: seq<Print>, fees: Fees,
                   s: Side, price: real, held: real, resting: real, ids: set<string>)
    requires n < |acts| && Stage(RunGuarded(l, acts[..n], tape, fees), s, price, held, resting, ids)
    requires var a := acts[n];
             && a.Place? && a.order.PlaceMarket? && !a.killed && a.order.id !in ids && a.order.qty > 0.0
             && if a.order.reduceOnly then Reduces(held, a.order.side, a.order.qty)
                else Abs(held + Signed(s, resting) + Signed(a.order.side, a.order.qty)) <= l.maxAbsPosition
    ensures Stage(RunGuarded(l, acts[..n + 1], tape, fees), s, price,
                  held + Signed(acts[n].order.side, acts[n].order.qty), resting, ids + {acts[n].order.id})
  {
    hide RunGuarded;
    hide NextGuarded;
    hide Stage;
    hide Lets;
    hide Crosses;
    hide Reduces;
    RunStep(l, acts, tape, fees, n);
    StageLets(l, RunGuarded(l, acts[..n], tape, fees), acts[n], s, price, held, resting, ids);
    StageMarket(l, RunGuarded(l, acts[..n], tape, fees), acts[n], tape, fees, s, price, held, resting, ids);
  }

  /** It is an entry that the guard lets through because it reduces, and that rests. */
  lemma RunsRest(l: Limits, acts: seq<Act>, n: nat, tape: seq<Print>, fees: Fees,
                 s: Side, price: real, held: real, resting: real, ids: set<string>)
    requires n < |acts| && Stage(RunGuarded(l, acts[..n], tape, fees), s, price, held, resting, ids)
    requires var a := acts[n];
             && a.Place? && a.order.PlaceGtx? && !a.killed && a.order.id !in ids && a.order.qty > 0.0
             && a.order.side == s && a.order.price == price && !a.order.reduceOnly && a.order.now < 5
             && Reduces(held, s, a.order.qty) && !Crosses(s, price, a.order.d)
    ensures Stage(RunGuarded(l, acts[..n + 1], tape, fees), s, price, held, resting + acts[n].order.qty,
                  ids + {acts[n].order.id})
  {
    hide RunGuarded;
    hide NextGuarded;
    hide Stage;
    hide Lets;
    hide Crosses;
    hide Reduces;
    RunStep(l, acts, tape, fees, n);
    StageLets(l, RunGuarded(l, acts[..n], tape, fees), acts[n], s, price, held, resting, ids);
    StageRest(l, RunGuarded(l, acts[..n], tape, fees), acts[n], tape, fees, s, price, held, resting, ids);
  }

  lemma SideFacts()
    ensures Signed(Buy, 1.0) == 1.0 && Signed(Sell, 1.0) == -1.0 && Signed(Buy, 0.0) == Signed(Sell, 0.0) == 0.0
    ensures Reduces(1.0, Sell, 1.0) && Reduces(-1.0, Buy, 1.0) && Abs(0.0) == 0.0 && Abs(1.0) == Abs(-1.0) == 1.0
    ensures !Crosses(Sell, 102.0, CALM) && !Crosses(Buy, 99.0, CALM) && ONE.maxAbsPosition == 1.0
  {
  }

  lemma MixedIs()
    ensures |MIXED| == 3 && MIXED[..3] == MIXED
    ensures MIXED[0] == Place(PlaceMarket(Buy, 1.0, "a", false, CALM, 1), false)
    ensures MIXED[1] == Place(PlaceGtx(Sell, 1.0, 102.0, "b", false, CALM, 2), false)
    ensures MIXED[2] == Place(PlaceMarket(Buy, 1.0, "c", false, CALM, 3), false)
  {
  }

  lemma ReducedIs()
    ensures |REDUCED| == 5 && REDUCED[..5] == REDUCED
    ensures REDUCED[0] == Place(PlaceMarket(Sell, 1.0, "a", false, CALM, 1), false)
    ensures REDUCED[1] == Place(PlaceGtx(Buy, 1.0, 99.0, "b", false, CALM, 2), false)
    ensures REDUCED[2] == Place(PlaceGtx(Buy, 1.0, 99.0, "c", false, CALM, 3), false)
    ensures REDUCED[3] == Place(PlaceMarket(Buy, 1.0, "d", true, CALM, 4), false)
    ensures REDUCED[4] == Pass(Poll(1, CALM, 6))
  {
  }

  /** Every order passes the guard, and the position ends at twice the limit. */
  lemma MixedRun(fees: Fees)
    ensures RunGuarded(ONE, MIXED, [], fees).x.pos.qty == 2.0 * ONE.maxAbsPosition
  {
    hide *;
    MixedIs();
    SideFacts();
    StageStarts(ONE, MIXED, [], fees, Sell, 102.0);
    RunsMarket(ONE, MIXED, 0, [], fees, Sell, 102.0, 0.0, 0.0, {});
    RunsRest(ONE, MIXED, 1, [], fees, Sell, 102.0, 1.0, 0.0, {} + {"a"});
    RunsMarket(ONE, MIXED, 2, [], fees, Sell, 102.0, 1.0, 1.0, {} + {"a"} + {"b"});
    StageHolds(RunGuarded(ONE, MIXED[..3], [], fees), Sell, 102.0, 2.0, 1.0, {} + {"a"} + {"b"} + {"c"});
  }

  lemma StageHolds(g: Guarded, s: Side, price: real, held: real, resting: real, ids: set<string>)
    requires Stage(g, s, price, held, resting, ids)
    ensures g.x.pos.qty == held
  {
    hide Good;
    hide StageOrder;
  }

  /** The two bids rest, each passed by the guard as one that reduces, and nothing is held any more. */
  lemma BoughtBack(fees: Fees)
    ensures Stage(RunGuarded(ONE, REDUCED[..4], FALL, fees), Buy, 99.0, 0.0, 2.0, {} + {"a"} + {"b"} + {"c"} + {"d"})
  {
    hide *;
    ReducedIs();
    SideFacts();
    StageStarts(ONE, REDUCED, FALL, fees, Buy, 99.0);
    RunsMarket(ONE, REDUCED, 0, FALL, fees, Buy, 99.0, 0.0, 0.0, {});
    RunsRest(ONE, REDUCED, 1, FALL, fees, Buy, 99.0, -1.0, 0.0, {} + {"a"});
    RunsRest(ONE, REDUCED, 2, FALL, fees, Buy, 99.0, -1.0, 1.0, {} + {"a"} + {"b"});
    RunsMarket(ONE, REDUCED, 3, FALL, fees, Buy, 99.0, -1.0, 2.0, {} + {"a"} + {"b"} + {"c"});
  }

  lemma StageSwept(l: Limits, g: Guarded, fees: Fees, held: real, resting: real, ids: set<string>)
    requires Stage(g, Buy, 99.0, held, resting, ids)
    ensures NextGuarded(l, g, Pass(Poll(1, CALM, 6)), FALL, fees).x.pos.qty == held + resting
  {
    hide Good;
    hide Polled;
    hide EntriesOn;
    hide OpenCount;
    hide Earliest;
    var t := FALL[0];
    assert FALL[..1] == [t] && FALL == [t];
    assert forall i :: 0 <= i < |g.x.orders| ==> StageOrder(g.x.orders[i], Buy, 99.0, ids);
    if OpenCount(g.x.orders) > 0 {
      if g.x.lastTs.None? {
        EarlyEnough(g.x.orders, 99.0, ids);
      }
      OneUnread([t], t, Since(g.x));
    }
    SweptBy(g.x, t, Buy, CALM, 6, fees);
  }

  lemma {:induction false} EarlyEnough(orders: seq<Order>, price: real, ids: set<string>)
    requires OpenCount(orders) > 0
    requires forall i :: 0 <= i < |orders| ==> StageOrder(orders[i], Buy, price, ids)
    ensures Earliest(orders) < 5
  {
    var n := |orders| - 1;
    if OpenCount(orders[..n]) == 0 {
    } else {
      EarlyEnough(orders[..n], price, ids);
    }
  }

  /** The reduce-only order that closes a position leaves the entries against it: they fill, and the position ends
      at twice the limit on the other side. */
  lemma ReducedRun(fees: Fees)
    ensures RunGuarded(ONE, REDUCED, FALL, fees).x.pos.qty == 2.0 * ONE.maxAbsPosition
  {
    hide *;
    BoughtBack(fees);
    ReducedIs();
    SideFacts();
    RunStep(ONE, REDUCED, FALL, fees, 4);
    StageSwept(ONE, RunGuarded(ONE, REDUCED[..4], FALL, fees), fees, 0.0, 2.0, {} + {"a"} + {"b"} + {"c"} + {"d"});
  }
}
