/** The guard every order has to pass: status machine, position limit, and what they keep over runs. */
module RiskGuards {
  import opened Basics
  import opened Positions
  import opened Paper
  import opened Polling

  datatype RiskStatus = Active | Paused | Halted

  datatype Limits = Limits(maxAbsPosition: real, testStop: real, pauseAfter: int, maxClockOffset: real,
                           maxStale: real, maxRejects: int)

  datatype Risk = Risk(status: RiskStatus, reason: string, cumulative: real, losses: nat, rejects: nat)

  const FRESH_RISK := Risk(Active, "", 0.0, 0, 0)

  // ---- status ---------------------------------------------------------------

  function SetTo(r: Risk, status: RiskStatus, reason: string): Risk {
    if r.status == Halted && status != Halted then r else r.(status := status, reason := reason)
  }

  function Killed(r: Risk, killed: bool): Risk {
    if killed then SetTo(r, Halted, "kill switch") else r
  }

  function HealthChecked(l: Limits, r: Risk, killed: bool, offset: Option<real>, age: Option<real>): Risk {
    var a := Killed(r, killed);
    var b := if offset.Some? && Abs(offset.value) > l.maxClockOffset then SetTo(a, Halted, "clock offset") else a;
    if age.Some? && age.value > l.maxStale then SetTo(b, Halted, "stale data") else b
  }

  function NightRecorded(l: Limits, r: Risk, pnl: real): Risk {
    var s := r.(cumulative := r.cumulative + pnl, losses := if pnl < 0.0 then r.losses + 1 else 0);
    if s.cumulative <= l.testStop then SetTo(s, Halted, "cumulative loss")
    else if s.losses >= l.pauseAfter then SetTo(s, Paused, "losing streak")
    else s
  }

  /** One more refusal; too many in a row stop everything. */
  function Refusal(l: Limits, r: Risk): Risk {
    var s := r.(rejects := r.rejects + 1);
    if s.rejects >= l.maxRejects then SetTo(s, Halted, "rejections") else s
  }

  /** After an order went through to the exchange. */
  function Judged(l: Limits, r: Risk, reply: Reply): Risk {
    match reply
    case Refused => Refusal(l, r)
    case Got(o) => if o.status == Rejected then Refusal(l, r) else r.(rejects := 0)
  }

  // ---- the check before an order --------------------------------------------

  /** Signed quantity that a resting order may still add to the position. */
  function Share(o: Order): real {
    if IsOpen(o) && !o.reduceOnly && o.kind != StopMarket then Signed(o.side, Remaining(o)) else 0.0
  }

  function Pending(orders: seq<Order>): real {
    if orders == [] then 0.0 else Pending(orders[..|orders| - 1]) + Share(orders[|orders| - 1])
  }

  lemma {:induction false} OnlyReducing(orders: seq<Order>)
    requires forall o :: o in orders && IsOpen(o) ==> o.reduceOnly
    ensures Pending(orders) == 0.0
  {
    if orders == [] {
    } else {
      assert orders[|orders| - 1] in orders;
      OnlyReducing(orders[..|orders| - 1]);
    }
  }

  predicate Allowed(l: Limits, r: Risk, x: Exchange, side: Side, qty: real, reduceOnly: bool) {
    || reduceOnly
    || Reduces(x.pos.qty, side, qty)
    || (r.status == Active && Abs(x.pos.qty + Pending(x.orders) + Signed(side, qty)) <= l.maxAbsPosition)
  }

  /** Against the position held and no larger: what any status lets through. */
  predicate Against(held: real, side: Side, qty: real) {
    if side == Buy then held < 0.0 && qty <= -held else held > 0.0 && qty <= held
  }

  // ---- guarded steps --------------------------------------------------------

  datatype Act =
    | Place(order: Step, killed: bool)
    | Pass(step: Step)
    | Halt(reason: string)
    | ResetHalt(killed: bool)
    | Resume
    | Health(killed: bool, offset: Option<real>, age: Option<real>)
    | CheckPosition(expected: real)
    | Night(pnl: real)

  datatype Guarded = Guarded(risk: Risk, x: Exchange)

  predicate Placing(step: Step) {
    step.PlaceMarket? || step.PlaceGtx? || step.PlaceStop?
  }

  predicate Lets(l: Limits, r: Risk, x: Exchange, step: Step)
    requires Placing(step)
  {
    if step.PlaceStop? then Reduces(x.pos.qty, step.side, step.qty)
    else Allowed(l, r, x, step.side, step.qty, step.reduceOnly)
  }

  /** What the guard passes, in any status: stops and plain orders that are against the position, and every order
      marked reduce-only.  Anything else needs an active guard and room for position, resting entries and itself. */
  lemma LetsIs(l: Limits, r: Risk, x: Exchange, step: Step)
    requires Placing(step)
    ensures step.PlaceStop? ==> (Lets(l, r, x, step) <==> Against(x.pos.qty, step.side, step.qty))
    ensures !step.PlaceStop? ==>
              (Lets(l, r, x, step)
               <==> step.reduceOnly || Against(x.pos.qty, step.side, step.qty)
                    || (r.status == Active
                        && var more := if step.side == Buy then step.qty else -step.qty;
                           -l.maxAbsPosition <= x.pos.qty + Pending(x.orders) + more <= l.maxAbsPosition))
  {
    hide Pending;
  }

  function Placed(l: Limits, g: Guarded, step: Step, killed: bool, tape: seq<Print>, fees: Fees): (r: Guarded)
    requires Good(g.x) && Placing(step)
    ensures Good(r.x)
  {
    var r := Killed(g.risk, killed);
    if !Lets(l, r, g.x, step) then Guarded(r, g.x)
    else
      var y := Next(g.x, step, tape, fees);
      Guarded(Judged(l, r, ReplyTo(y, step.id)), y)
  }

  function NextGuarded(l: Limits, g: Guarded, a: Act, tape: seq<Print>, fees: Fees): (r: Guarded)
    requires Good(g.x)
    ensures Good(r.x)
  {
    match a
    case Place(step, killed) => if Placing(step) then Placed(l, g, step, killed, tape, fees) else g
    case Pass(step) => if Placing(step) then g else g.(x := Next(g.x, step, tape, fees))
    case Halt(reason) => g.(risk := SetTo(g.risk, Halted, reason))
    case ResetHalt(killed) =>
      if killed then g else g.(risk := g.risk.(status := Active, reason := "reset", rejects := 0))
    case Resume =>
      if g.risk.status == Paused then g.(risk := g.risk.(status := Active, reason := "resumed", losses := 0)) else g
    case Health(killed, offset, age) => g.(risk := HealthChecked(l, g.risk, killed, offset, age))
    case CheckPosition(expected) =>
      if g.x.pos.qty != expected then g.(risk := SetTo(g.risk, Halted, "position mismatch")) else g
    case Night(pnl) => g.(risk := NightRecorded(l, g.risk, pnl))
  }

  ghost function RunGuarded(l: Limits, acts: seq<Act>, tape: seq<Print>, fees: Fees): (r: Guarded)
    ensures Good(r.x)
  {
    if acts == [] then Guarded(FRESH_RISK, EMPTY_EXCHANGE)
    else NextGuarded(l, RunGuarded(l, acts[..|acts| - 1], tape, fees), acts[|acts| - 1], tape, fees)
  }

  lemma RunStep(l: Limits, acts: seq<Act>, tape: seq<Print>, fees: Fees, n: nat)
    requires n < |acts|
    ensures RunGuarded(l, acts[..n + 1], tape, fees)
         == NextGuarded(l, RunGuarded(l, acts[..n], tape, fees), acts[n], tape, fees)
  {
    assert acts[..n + 1][..n] == acts[..n];
    hide NextGuarded;
  }

  // ---- halted is left only by hand ------------------------------------------

  lemma HaltedStays(l: Limits, g: Guarded, a: Act, tape: seq<Print>, fees: Fees)
    requires Good(g.x) && g.risk.status == Halted && (a.ResetHalt? ==> a.killed)
    ensures NextGuarded(l, g, a, tape, fees).risk.status == Halted
  {
    hide Good;
    hide Next;
    hide Lets;
  }

  /** A run that stands halted stays so for as long as nobody resets it with the kill switch off. */
  lemma {:induction false} HaltedToTheEnd(l: Limits, before: seq<Act>, after: seq<Act>, tape: seq<Print>, fees: Fees)
    requires RunGuarded(l, before, tape, fees).risk.status == Halted
    requires forall a :: a in after && a.ResetHalt? ==> a.killed
    ensures RunGuarded(l, before + after, tape, fees).risk.status == Halted
  {
    hide Good;
    hide NextGuarded;
    if after == [] {
      assert before + after == before;
    } else {
      var n := |after| - 1;
      HaltedToTheEnd(l, before, after[..n], tape, fees);
      assert (before + after)[..|before + after| - 1] == before + after[..n];
      assert after[n] in after;
      HaltedStays(l, RunGuarded(l, before + after[..n], tape, fees), after[n], tape, fees);
    }
  }

  // ---- a reduce-only fill only reduces --------------------------------------

  /** Not larger than before and not on the other side. */
  predicate Shrunk(was: real, now: real) {
    (was >= 0.0 && 0.0 <= now <= was) || (was <= 0.0 && was <= now <= 0.0)
  }

  lemma ReducingFill(held: real, side: Side, qty: real)
    requires Reduces(held, side, qty) && qty > 0.0
    ensures Shrunk(held, held + Signed(side, qty)) && held + Signed(side, qty) != held
  {
  }

  lemma ReduceOnlyMeets(x: Exchange, i: nat, t: Print, d: Levels, now: int, fees: Fees)
    requires Good(x) && i < |x.orders| && x.orders[i].reduceOnly
    ensures Shrunk(x.pos.qty, Met(x, i, t, d, now, fees).pos.qty)
  {
    assert WholeOrder(x.orders[i]);
    hide Good;
    hide FeeOf;
    hide MarketPrice;
    var o := x.orders[i];
    var y := Met(x, i, t, d, now, fees);
    if y.pos != x.pos {
      ReducingFill(x.pos.qty, o.side, Remaining(o));
    }
  }

  lemma ReduceOnlyMarket(x: Exchange, side: Side, qty: real, id: string, d: Levels, now: int, fees: Fees)
    requires Good(x)
    ensures Shrunk(x.pos.qty, MarketPlaced(x, side, qty, id, true, d, now, fees).pos.qty)
  {
    hide Good;
    hide FeeOf;
    hide MarketPrice;
    if MarketPlaced(x, side, qty, id, true, d, now, fees).pos != x.pos {
      ReducingFill(x.pos.qty, side, qty);
    }
  }

  // ---- the position limit ---------------------------------------------------

  lemma PendingOne(orders: seq<Order>, o: Order)
    ensures Pending(orders + [o]) == Pending(orders) + Share(o)
  {
    assert (orders + [o])[..|orders|] == orders;
  }

  lemma {:induction false} PendingUpdate(orders: seq<Order>, i: nat, o: Order)
    requires i < |orders|
    ensures Pending(orders[i := o]) == Pending(orders) - Share(orders[i]) + Share(o)
  {
    hide Share;
    var n := |orders| - 1;
    if i < n {
      PendingUpdate(orders[..n], i, o);
      assert orders[i := o][..n] == orders[..n][i := o];
    } else {
      assert orders[i := o][..n] == orders[..n];
    }
  }

  /** What the position can become if every resting entry is filled. */
  function Exposure(x: Exchange): real {
    x.pos.qty + Pending(x.orders)
  }

  /** Every order that may add to the position is on side `s`. */
  predicate OnSide(o: Order, s: Side) {
    (o.kind == StopMarket ==> o.reduceOnly) && (o.reduceOnly || o.side == s)
  }

  ghost predicate InCap(x: Exchange, s: Side, cap: real) {
    && (forall i :: 0 <= i < |x.orders| ==> OnSide(x.orders[i], s))
    && 0.0 <= Signed(s, x.pos.qty)
    && Signed(s, Exposure(x)) <= cap
  }

  /** Between two states: the exposure on side `s` did not grow, and no order changed sides. */
  ghost predicate NoMore(x: Exchange, y: Exchange, s: Side) {
    && (forall i :: 0 <= i < |y.orders| ==> OnSide(y.orders[i], s))
    && 0.0 <= Signed(s, y.pos.qty)
    && Signed(s, Exposure(y)) <= Signed(s, Exposure(x))
  }

  lemma NoMoreKeepsCap(x: Exchange, y: Exchange, s: Side, cap: real)
    requires InCap(x, s, cap) && NoMore(x, y, s)
    ensures InCap(y, s, cap)
  {
  }

  /** Closing an order never raises the exposure. */
  lemma CloseNoMore(x: Exchange, i: nat, status: Status, s: Side)
    requires Good(x) && i < |x.orders| && IsOpen(x.orders[i])
             && (status == Canceled || status == Expired || status == Rejected)
    requires forall k :: 0 <= k < |x.orders| ==> OnSide(x.orders[k], s)
    requires 0.0 <= Signed(s, x.pos.qty)
    ensures NoMore(x, Closed(x, i, status), s)
  {
    assert WholeOrder(x.orders[i]);
    hide Good;
    hide Pending;
    var o := x.orders[i];
    PendingUpdate(x.orders, i, o.(status := status));
    assert OnSide(o, s) && OnSide(o.(status := status), s);
    hide OnSide;
  }

  lemma MovedOver(held: real, pending: real, side: Side, s: Side, qty: real, reduceOnly: bool)
    requires qty > 0.0 && 0.0 <= Signed(s, held)
    requires if reduceOnly then Reduces(held, side, qty) else side == s
    ensures 0.0 <= Signed(s, held + Signed(side, qty))
    ensures Signed(s, held + Signed(side, qty) + (pending - if reduceOnly then 0.0 else Signed(side, qty)))
         <= Signed(s, held + pending)
  {
  }

  lemma ShareOf(o: Order, done: Order)
    requires IsOpen(o) && !IsOpen(done) && (o.kind == StopMarket ==> o.reduceOnly)
    ensures Share(o) == (if o.reduceOnly then 0.0 else Signed(o.side, Remaining(o))) && Share(done) == 0.0
  {
  }

  /** Filling an entry moves it from pending to the position; filling a reduce-only order shrinks the position. */
  lemma FillNoMore(x: Exchange, i: nat, price: real, liq: Liquidity, ts: int, fees: Fees, s: Side)
    requires Good(x) && i < |x.orders| && IsOpen(x.orders[i]) && ReduceOk(x.pos.qty, x.orders[i])
    requires forall k :: 0 <= k < |x.orders| ==> OnSide(x.orders[k], s)
    requires 0.0 <= Signed(s, x.pos.qty)
    ensures NoMore(x, Executed(x, i, price, liq, ts, fees), s)
  {
    assert WholeOrder(x.orders[i]);
    hide Good;
    hide Pending;
    hide FeeOf;
    hide Notional;
    var o := x.orders[i];
    var done := o.(status := Filled, filled := o.qty, avg := price);
    assert OnSide(o, s);
    PendingUpdate(x.orders, i, done);
    ApplyBooks(x.pos, o.side, Remaining(o), price, FeeOf(fees, Notional(Remaining(o), price), liq));
    ShareOf(o, done);
    MovedOver(x.pos.qty, Pending(x.orders), o.side, s, Remaining(o), o.reduceOnly);
    hide Applied;
    hide Signed;
    hide Share;
    hide Reduces;
    var y := Executed(x, i, price, liq, ts, fees);
    assert y.orders == x.orders[i := done] && y.pos.qty == x.pos.qty + Signed(o.side, Remaining(o));
    hide Executed;
    assert OnSide(done, s);
    hide OnSide;
  }

  lemma MetNoMore(x: Exchange, i: nat, t: Print, d: Levels, now: int, fees: Fees, s: Side)
    requires Good(x) && i < |x.orders|
    requires forall k :: 0 <= k < |x.orders| ==> OnSide(x.orders[k], s)
    requires 0.0 <= Signed(s, x.pos.qty)
    ensures NoMore(x, Met(x, i, t, d, now, fees), s)
  {
    assert WholeOrder(x.orders[i]);
    hide Good;
    hide Pending;
    hide Executed;
    hide Closed;
    hide MarketPrice;
    hide Signed;
    hide OnSide;
    var o := x.orders[i];
    var y := Touched(x, o, t);
    assert y.orders == x.orders && y.pos == x.pos;
    if IsOpen(o) && o.placedTs < t.ts && o.kind != Market
      && (if o.kind == Limit then Through(o, t) else Hit(o, t.price)) {
      if !ReduceOk(x.pos.qty, o) {
        CloseNoMore(y, i, Expired, s);
      } else if o.kind == Limit {
        FillNoMore(y, i, o.price, Maker, t.ts, fees, s);
      } else {
        assert Met(x, i, t, d, now, fees) == Executed(x, i, MarketPrice(o, d), Taker, now, fees);
        FillNoMore(x, i, MarketPrice(o, d), Taker, now, fees, s);
      }
    }
  }

  ghost predicate Sided(x: Exchange, s: Side) {
    (forall i :: 0 <= i < |x.orders| ==> OnSide(x.orders[i], s)) && 0.0 <= Signed(s, x.pos.qty)
  }

  lemma {:induction false} MetUpToNoMore(x: Exchange, i: nat, t: Print, d: Levels, now: int, fees: Fees, s: Side)
    requires Good(x) && i <= |x.orders| && Sided(x, s)
    ensures NoMore(x, MetUpTo(x, i, t, d, now, fees), s)
  {
    hide Good;
    hide Met;
    hide Exposure;
    hide OnSide;
    if i == 0 {
    } else {
      MetUpToNoMore(x, i - 1, t, d, now, fees, s);
      MetNoMore(MetUpTo(x, i - 1, t, d, now, fees), i - 1, t, d, now, fees, s);
    }
  }

  lemma {:induction false} SawAllNoMore(x: Exchange, ts: seq<Print>, d: Levels, now: int, fees: Fees, s: Side)
    requires Good(x) && Sided(x, s)
    ensures NoMore(x, SawAll(x, ts, d, now, fees), s)
  {
    hide MetUpTo;
    hide OnSide;
    if ts == [] {
    } else {
      var t := ts[|ts| - 1];
      SawAllNoMore(x, ts[..|ts| - 1], d, now, fees, s);
      var y := SawAll(x, ts[..|ts| - 1], d, now, fees).(lastAgg := Some(t.agg), lastTs := Some(t.ts));
      assert Good(y);
      MetUpToNoMore(y, |y.orders|, t, d, now, fees, s);
    }
  }

  lemma {:induction false} CancelEveryNoMore(x: Exchange, i: nat, s: Side)
    requires Good(x) && i <= |x.orders| && Sided(x, s)
    ensures NoMore(x, AllCanceled(x, i), s)
    decreases |x.orders| - i
  {
    hide Good;
    hide OnSide;
    hide Exposure;
    if i == |x.orders| {
    } else {
      if IsOpen(x.orders[i]) {
        CloseNoMore(x, i, Canceled, s);
        CancelEveryNoMore(Closed(x, i, Canceled), i + 1, s);
      } else {
        CancelEveryNoMore(x, i + 1, s);
      }
    }
  }

  /** Cancelling and polling never raise the exposure. */
  lemma PassNoMore(x: Exchange, step: Step, tape: seq<Print>, fees: Fees, s: Side)
    requires Good(x) && Sided(x, s) && !Placing(step)
    ensures NoMore(x, Next(x, step, tape, fees), s)
  {
    hide Good;
    hide OnSide;
    hide Exposure;
    match step {
      case Cancel(id) =>
        var i := IndexOf(x.orders, id);
        if i.Some? && IsOpen(x.orders[i.value]) {
          CloseNoMore(x, i.value, Canceled, s);
        }
      case CancelEvery => CancelEveryNoMore(x, 0, s);
      case Poll(n, d, now) =>
        if OpenCount(x.orders) > 0 {
          SawAllNoMore(x, TradesAfter(tape[..if n < |tape| then n else |tape|], x.lastAgg, Since(x)), d, now, fees, s);
        }
    }
  }

  /** The new order of a placing step is on side `s` if it may add to the position. */
  predicate Entering(step: Step, s: Side)
    requires Placing(step)
  {
    step.PlaceStop? || step.reduceOnly || step.side == s
  }

  /** What placing an order does to the exposure: a reduce-only order adds none, an entry at most its size. */
  ghost predicate AtMost(x: Exchange, y: Exchange, s: Side, more: real) {
    Sided(y, s) && Signed(s, Exposure(y)) <= Signed(s, Exposure(x)) + more
  }

  function SizeOf(step: Step): real
    requires Placing(step)
  {
    if step.PlaceStop? || step.reduceOnly then 0.0 else step.qty
  }

  lemma RegisteredMore(x: Exchange, y: Exchange, o: Order, s: Side)
    requires Sided(x, s) && OnSide(o, s) && o.status == New && o.filled == 0.0
    requires y.orders == x.orders + [o] && y.pos == x.pos
    ensures AtMost(x, y, s, if o.reduceOnly then 0.0 else o.qty)
  {
    PendingOne(x.orders, o);
    hide Pending;
  }

  lemma ThenNoMore(x: Exchange, y: Exchange, z: Exchange, s: Side, more: real)
    requires AtMost(x, y, s, more) && NoMore(y, z, s)
    ensures AtMost(x, z, s, more)
  {
  }

  lemma MarketMore(x: Exchange, step: Step, tape: seq<Print>, fees: Fees, s: Side)
    requires Good(x) && Sided(x, s) && step.PlaceMarket? && Entering(step, s)
    ensures Next(x, step, tape, fees) == x || AtMost(x, Next(x, step, tape, fees), s, SizeOf(step))
  {
    var z := Next(x, step, tape, fees);
    if z != x {
      var o, n := NewOrder(step.id, step.side, Market, step.qty, 0.0, step.reduceOnly, step.now), |x.orders|;
      var y := Registered(x, o);
      hide Good;
      RegisteredMore(x, y, o, s);
      hide Exposure;
      hide OnSide;
      hide Closed;
      hide Executed;
      hide MarketPrice;
      assert y.orders[n] == o;
      if ReduceOk(x.pos.qty, o) {
        FillNoMore(y, n, MarketPrice(o, step.d), Taker, step.now, fees, s);
      } else {
        CloseNoMore(y, n, Expired, s);
      }
      ThenNoMore(x, y, z, s, SizeOf(step));
    }
  }

  lemma RestingMore(x: Exchange, y: Exchange, o: Order, s: Side)
    requires Good(y) && Sided(x, s) && OnSide(o, s) && o.status == New && o.filled == 0.0
    requires y.orders == x.orders + [o] && y.pos == x.pos
    ensures AtMost(x, CursorFor(y, o), s, if o.reduceOnly then 0.0 else o.qty)
    ensures AtMost(x, Closed(y, |x.orders|, Expired), s, if o.reduceOnly then 0.0 else o.qty)
    ensures AtMost(x, Closed(y, |x.orders|, Rejected), s, if o.reduceOnly then 0.0 else o.qty)
  {
    hide Good;
    RegisteredMore(x, y, o, s);
    RegisteredMore(x, CursorFor(y, o), o, s);
    var n := |x.orders|;
    CloseNoMore(y, n, Expired, s);
    CloseNoMore(y, n, Rejected, s);
    hide Exposure;
    hide OnSide;
    hide Closed;
    ThenNoMore(x, y, Closed(y, n, Expired), s, if o.reduceOnly then 0.0 else o.qty);
    ThenNoMore(x, y, Closed(y, n, Rejected), s, if o.reduceOnly then 0.0 else o.qty);
  }

  lemma PlaceMore(x: Exchange, step: Step, tape: seq<Print>, fees: Fees, s: Side)
    requires Good(x) && Sided(x, s) && Placing(step) && Entering(step, s)
    ensures Next(x, step, tape, fees) == x || AtMost(x, Next(x, step, tape, fees), s, SizeOf(step))
  {
    hide Exposure;
    hide Sided;
    hide Closed;
    hide CursorFor;
    if step.PlaceMarket? {
      MarketMore(x, step, tape, fees, s);
    } else if Next(x, step, tape, fees) != x {
      var o := if step.PlaceGtx?
               then NewOrder(step.id, step.side, Limit, step.qty, step.price, step.reduceOnly, step.now)
               else NewOrder(step.id, step.side, StopMarket, step.qty, step.price, true, step.now);
      RestingMore(x, Registered(x, o), o, s);
    }
  }

  // ---- whole guarded runs ---------------------------------------------------

  /** Entries are all on side `s`. */
  predicate OneWay(a: Act, s: Side) {
    a.Place? && Placing(a.order) ==> Entering(a.order, s)
  }

  lemma EntryFits(l: Limits, r: Risk, x: Exchange, step: Step, s: Side)
    requires Sided(x, s) && Placing(step) && Entering(step, s) && SizeOf(step) > 0.0 && Lets(l, r, x, step)
    ensures r.status == Active && Signed(s, Exposure(x)) + SizeOf(step) <= l.maxAbsPosition
  {
    hide Pending;
  }

  lemma PlacedKeepsCap(l: Limits, g: Guarded, step: Step, killed: bool, tape: seq<Print>, fees: Fees, s: Side)
    requires Good(g.x) && Placing(step) && Entering(step, s) && InCap(g.x, s, l.maxAbsPosition)
    ensures InCap(Placed(l, g, step, killed, tape, fees).x, s, l.maxAbsPosition)
    ensures Killed(g.risk, killed).status != Active ==>
              Signed(s, Exposure(Placed(l, g, step, killed, tape, fees).x)) <= Signed(s, Exposure(g.x))
  {
    hide Good;
    hide Next;
    hide Exposure;
    var r, y := Killed(g.risk, killed), Next(g.x, step, tape, fees);
    if Lets(l, r, g.x, step) {
      PlaceMore(g.x, step, tape, fees, s);
      if SizeOf(step) > 0.0 {
        EntryFits(l, r, g.x, step, s);
      }
    }
  }

  /** One guarded step: the limit holds after it if it held before, and unless trading is active the
      exposure does not grow. */
  lemma StepKeepsCap(l: Limits, g: Guarded, a: Act, tape: seq<Print>, fees: Fees, s: Side)
    requires Good(g.x) && OneWay(a, s) && InCap(g.x, s, l.maxAbsPosition)
    ensures var h := NextGuarded(l, g, a, tape, fees);
            && InCap(h.x, s, l.maxAbsPosition)
            && (g.risk.status != Active ==> Signed(s, Exposure(h.x)) <= Signed(s, Exposure(g.x)))
  {
    hide Good;
    hide Next;
    hide Exposure;
    hide Placed;
    hide OnSide;
    hide Signed;
    if a.Place? && Placing(a.order) {
      PlacedKeepsCap(l, g, a.order, a.killed, tape, fees, s);
    } else if a.Pass? && !Placing(a.step) {
      PassNoMore(g.x, a.step, tape, fees, s);
      NoMoreKeepsCap(g.x, Next(g.x, a.step, tape, fees), s, l.maxAbsPosition);
    }
  }

  lemma EmptyInCap(s: Side, cap: real)
    requires cap >= 0.0
    ensures InCap(EMPTY_EXCHANGE, s, cap)
  {
  }

  /** Over any run of guarded orders, polls, cancels and status changes whose entries are on one side,
      the position stays on that side and, with all resting entries filled, within the limit. */
  lemma {:induction false} RunKeepsCap(l: Limits, acts: seq<Act>, tape: seq<Print>, fees: Fees, s: Side)
    requires l.maxAbsPosition >= 0.0 && forall a :: a in acts ==> OneWay(a, s)
    ensures InCap(RunGuarded(l, acts, tape, fees).x, s, l.maxAbsPosition)
  {
    hide Good;
    hide NextGuarded;
    hide OneWay;
    hide InCap;
    if acts == [] {
      EmptyInCap(s, l.maxAbsPosition);
    } else {
      var n := |acts| - 1;
      assert acts[n] in acts;
      RunKeepsCap(l, acts[..n], tape, fees, s);
      StepKeepsCap(l, RunGuarded(l, acts[..n], tape, fees), acts[n], tape, fees, s);
    }
  }

  /** Why one side: an entry against the position counts as reducing, and while it rests it makes room
      for a second entry that doubles the position if it is filled first. */
  lemma MixedSidesBreakTheCap(l: Limits, r: Risk, x: Exchange, price: real, a: string, b: string, d: Levels, now: int,
                              fees: Fees)
    requires Good(x) && r.status == Active && x.pos.qty == l.maxAbsPosition > 0.0 && Pending(x.orders) == 0.0
    requires IndexOf(x.orders, a).None? && IndexOf(x.orders, b).None? && a != b && !Crosses(Sell, price, d)
    ensures var c := l.maxAbsPosition;
            var sell, buy := PlaceGtx(Sell, c, price, a, false, d, now), PlaceMarket(Buy, c, b, false, d, now);
            var y := Next(x, sell, [], fees);
            && Lets(l, r, x, sell) && Lets(l, r, y, buy)
            && Next(y, buy, [], fees).pos.qty == 2.0 * c
  {
    hide Pending;
    hide Next;
    hide Good;
    hide IndexOf;
    hide Crosses;
    var c := l.maxAbsPosition;
    OppositeRests(x, c, price, a, b, d, now, fees);
    var y := Next(x, PlaceGtx(Sell, c, price, a, false, d, now), [], fees);
    MarketBuys(y, c, b, d, now, fees);
  }

  lemma OppositeRests(x: Exchange, c: real, price: real, a: string, b: string, d: Levels, now: int, fees: Fees)
    requires Good(x) && c > 0.0 && Pending(x.orders) == 0.0
    requires IndexOf(x.orders, a).None? && IndexOf(x.orders, b).None? && a != b && !Crosses(Sell, price, d)
    ensures var y := Next(x, PlaceGtx(Sell, c, price, a, false, d, now), [], fees);
            y.pos == x.pos && Pending(y.orders) == -c && IndexOf(y.orders, b).None?
  {
    var o := NewOrder(a, Sell, Limit, c, price, false, now);
    PendingOne(x.orders, o);
    StillUnknown(x.orders, o, b);
    hide Pending;
    hide Good;
  }

  lemma MarketBuys(y: Exchange, c: real, b: string, d: Levels, now: int, fees: Fees)
    requires Good(y) && c > 0.0 && IndexOf(y.orders, b).None?
    ensures Next(y, PlaceMarket(Buy, c, b, false, d, now), [], fees).pos.qty == y.pos.qty + c
  {
    hide Good;
    hide MarketPrice;
    hide FeeOf;
    var m := NewOrder(b, Buy, Market, c, 0.0, false, now);
    ApplyBooks(y.pos, Buy, c, MarketPrice(m, d), FeeOf(fees, Notional(c, MarketPrice(m, d)), Taker));
    hide Applied;
  }

  lemma StillUnknown(orders: seq<Order>, o: Order, id: string)
    requires IndexOf(orders, id).None? && o.id != id
    ensures IndexOf(orders + [o], id).None?
  {
    assert (orders + [o])[..|orders|] == orders;
  }

  // ---- the guard as it runs -------------------------------------------------

  /** Blocked by the guard, or the exchange's answer. */
  datatype Answer = Blocked | Sent(reply: Reply)

  class RiskGuard {
    const broker: PaperExchange
    const limits: Limits
    var status: RiskStatus
    var reason: string
    var cumulativePnl: real
    var consecutiveLosses: nat
    var rejectStreak: nat

    function State(): Risk
      reads this
    {
      Risk(status, reason, cumulativePnl, consecutiveLosses, rejectStreak)
    }

    function View(): Guarded
      reads this, broker, broker.pos
    {
      Guarded(State(), broker.View())
    }

    ghost predicate Valid()
      reads this, broker, broker.pos
    {
      broker.Valid()
    }

    constructor (broker: PaperExchange, limits: Limits)
      requires broker.Valid()
      ensures Valid() && this.broker == broker && this.limits == limits && State() == FRESH_RISK
    {
      this.broker := broker;
      this.limits := limits;
      status, reason, cumulativePnl, consecutiveLosses, rejectStreak := Active, "", 0.0, 0, 0;
    }

    method SetStatus(to: RiskStatus, why: string)
      modifies `status, `reason
      ensures State() == SetTo(old(State()), to, why)
    {
      if status == Halted && to != Halted {
        return;
      }
      if (status, reason) == (to, why) {
        return;
      }
      status, reason := to, why;
    }

    /** Refused while the kill switch is on. */
    method Unhalt(killed: bool) returns (done: bool)
      requires Valid()
      modifies this
      ensures done == !killed && View() == NextGuarded(limits, old(View()), ResetHalt(killed), [], broker.fees)
    {
      if killed {
        return false;
      }
      status, reason, rejectStreak := Active, "reset", 0;
      return true;
    }

    method Restart()
      requires Valid()
      modifies this
      ensures View() == NextGuarded(limits, old(View()), Resume, [], broker.fees)
    {
      if status == Paused {
        status, reason, consecutiveLosses := Active, "resumed", 0;
      }
    }

    method CheckKill(killed: bool)
      modifies `status, `reason
      ensures State() == Killed(old(State()), killed)
    {
      if killed {
        SetStatus(Halted, "kill switch");
      }
    }

    method CanEnter(killed: bool) returns (may: bool)
      modifies `status, `reason
      ensures State() == Killed(old(State()), killed) && may == (status == Active)
    {
      CheckKill(killed);
      may := status == Active;
    }

    method CheckHealth(killed: bool, offset: Option<real>, age: Option<real>)
      modifies `status, `reason
      ensures State() == HealthChecked(limits, old(State()), killed, offset, age)
      ensures status == Halted <==>
                old(status) == Halted || killed || (offset.Some? && Abs(offset.value) > limits.maxClockOffset)
                || (age.Some? && age.value > limits.maxStale)
      ensures status == old(status) || status == Halted
    {
      CheckKill(killed);
      if offset.Some? && Abs(offset.value) > limits.maxClockOffset {
        SetStatus(Halted, "clock offset");
      }
      if age.Some? && age.value > limits.maxStale {
        SetStatus(Halted, "stale data");
      }
    }

    method CheckPosition(expected: real)
      requires Valid()
      modifies `status, `reason
      ensures View() == NextGuarded(limits, old(View()), Act.CheckPosition(expected), [], broker.fees)
      ensures status == Halted <==> old(status) == Halted || broker.pos.qty != expected
      ensures status == old(status) || status == Halted
    {
      if broker.pos.qty != expected {
        SetStatus(Halted, "position mismatch");
      }
    }

    method RecordNight(pnl: real)
      modifies this
      ensures State() == NightRecorded(limits, old(State()), pnl)
      ensures status == Halted <==> old(status) == Halted || cumulativePnl <= limits.testStop
      ensures status == Paused <==>
                status != Halted && (old(status) == Paused || consecutiveLosses >= limits.pauseAfter)
    {
      cumulativePnl := cumulativePnl + pnl;
      consecutiveLosses := if pnl < 0.0 then consecutiveLosses + 1 else 0;
      if cumulativePnl <= limits.testStop {
        SetStatus(Halted, "cumulative loss");
      } else if consecutiveLosses >= limits.pauseAfter {
        SetStatus(Paused, "losing streak");
      }
    }

    method PreTrade(side: Side, qty: real, reduceOnly: bool, killed: bool) returns (may: bool)
      modifies `status, `reason
      ensures State() == Killed(old(State()), killed)
      ensures may == Allowed(limits, State(), broker.View(), side, qty, reduceOnly)
    {
      CheckKill(killed);
      var held := broker.pos.qty;
      if reduceOnly || Reduces(held, side, qty) {
        return true;
      }
      if status != Active {
        return false;
      }
      var worst := held + Pending(broker.orders) + Signed(side, qty);
      may := Abs(worst) <= limits.maxAbsPosition;
    }

    method After(reply: Reply)
      modifies this
      ensures State() == Judged(limits, old(State()), reply)
      ensures status == Halted <==>
                old(status) == Halted
                || ((reply.Refused? || reply.order.status == Rejected) && rejectStreak >= limits.maxRejects)
      ensures status == old(status) || status == Halted
    {
      if reply.Got? && reply.order.status != Rejected {
        rejectStreak := 0;
      } else {
        rejectStreak := rejectStreak + 1;
        if rejectStreak >= limits.maxRejects {
          SetStatus(Halted, "rejections");
        }
      }
    }

    method PlaceMarket(side: Side, qty: real, id: string, reduceOnly: bool, d: Levels, now: int, killed: bool)
        returns (r: Answer)
      requires Valid()
      modifies this, broker, broker.pos
      ensures Valid()
      ensures View() == Placed(limits, old(View()), Step.PlaceMarket(side, qty, id, reduceOnly, d, now), killed, [],
                               broker.fees)
      ensures r.Sent? <==> Lets(limits, Killed(old(State()), killed), old(broker.View()),
                                Step.PlaceMarket(side, qty, id, reduceOnly, d, now))
    {
      hide Good;
      hide MarketPlaced;
      hide Judged;
      hide ReplyTo;
      var may := PreTrade(side, qty, reduceOnly, killed);
      if !may {
        return Blocked;
      }
      var reply := broker.PlaceMarket(side, qty, id, reduceOnly, d, now);
      After(reply);
      return Sent(reply);
    }

    method PlaceLimitGtx(side: Side, qty: real, price: real, id: string, reduceOnly: bool, d: Levels, now: int,
                         killed: bool)
        returns (r: Answer)
      requires Valid()
      modifies this, broker, broker.pos
      ensures Valid()
      ensures View() == Placed(limits, old(View()), PlaceGtx(side, qty, price, id, reduceOnly, d, now), killed, [],
                               broker.fees)
      ensures r.Sent? <==> Lets(limits, Killed(old(State()), killed), old(broker.View()),
                                PlaceGtx(side, qty, price, id, reduceOnly, d, now))
    {
      hide Good;
      hide GtxPlaced;
      hide Judged;
      hide ReplyTo;
      var may := PreTrade(side, qty, reduceOnly, killed);
      if !may {
        return Blocked;
      }
      var reply := broker.PlaceLimitGtx(side, qty, price, id, reduceOnly, d, now);
      After(reply);
      return Sent(reply);
    }

    /** A stop must reduce the position held when it is placed, whatever the status. */
    method PlaceStopMarket(side: Side, qty: real, stop: real, id: string, last: real, now: int, killed: bool)
        returns (r: Answer)
      requires Valid()
      modifies this, broker, broker.pos
      ensures Valid()
      ensures View() == Placed(limits, old(View()), PlaceStop(side, qty, stop, id, last, now), killed, [], broker.fees)
      ensures r.Sent? <==> Lets(limits, Killed(old(State()), killed), old(broker.View()),
                                PlaceStop(side, qty, stop, id, last, now))
    {
      hide Good;
      hide StopPlaced;
      hide Judged;
      hide ReplyTo;
      CheckKill(killed);
      if !Reduces(broker.pos.qty, side, qty) {
        return Blocked;
      }
      var reply := broker.PlaceStopMarket(side, qty, stop, id, last, now);
      After(reply);
      return Sent(reply);
    }
  }
}
