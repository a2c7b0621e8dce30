/** Working one leg of a night: a post-only order kept at the best quote, then the market for the rest.
    The venue is any exchange: how much fills, when, and how long calls take is left open. */
module NightWork {
  import opened Basics
  import opened Paper

  /** What the venue answers to one call: time that passes, the part of an open order that fills, whether
      the venue closes it, the best quote, a refusal by the guard, an expiry on arrival. */
  datatype Answer = Answer(delay: nat, fills: real, closes: bool, top: Option<real>, blocked: bool, expired: bool)

  datatype LegOrder = LegOrder(qty: real, filled: real, price: real, status: Status)

  predicate Alive(o: LegOrder) {
    o.status == New || o.status == PartiallyFilled
  }

  /** Filled quantities lie between nothing and the whole; only whole fills are `Filled`. */
  predicate Sensible(o: LegOrder) {
    0.0 <= o.filled <= o.qty && o.qty > 0.0 && (o.status == Filled <==> o.filled == o.qty)
  }

  function FilledIn(orders: seq<LegOrder>): real {
    if orders == [] then 0.0 else FilledIn(orders[..|orders| - 1]) + orders[|orders| - 1].filled
  }

  function OpenIn(orders: seq<LegOrder>): real {
    if orders == [] then 0.0
    else
      var o := orders[|orders| - 1];
      OpenIn(orders[..|orders| - 1]) + if Alive(o) then o.qty - o.filled else 0.0
  }

  function Clamp(x: real, most: real): real {
    if x < 0.0 then 0.0 else if x > most then most else x
  }

  /** An open order may fill some more, and may then be closed by the venue. */
  function Progress(o: LegOrder, a: Answer): (r: LegOrder)
    requires Sensible(o)
    ensures Sensible(r) && r.qty == o.qty && r.price == o.price && o.filled <= r.filled && (Alive(r) ==> Alive(o))
    ensures !Alive(o) ==> r == o
    ensures Alive(o) && 0.0 <= a.fills < o.qty - o.filled ==>
              r.filled == o.filled + a.fills && (Alive(r) <==> !a.closes)
    ensures Alive(o) && a.fills >= o.qty - o.filled ==> r.status == Filled
    ensures r.filled + (if Alive(r) then r.qty - r.filled else 0.0)
         <= o.filled + (if Alive(o) then o.qty - o.filled else 0.0)
  {
    if !Alive(o) then o
    else
      var f := o.filled + Clamp(a.fills, o.qty - o.filled);
      o.(filled := f,
         status := if f == o.qty && f > 0.0 then Filled else if a.closes then Canceled else PartiallyFilled)
  }

  /** The leg's orders: all but the last are closed, and nothing beyond `limit` is filled or could be. */
  ghost predicate Within(orders: seq<LegOrder>, limit: real) {
    && (forall i :: 0 <= i < |orders| ==> Sensible(orders[i]))
    && (forall i :: 0 <= i < |orders| - 1 ==> !Alive(orders[i]))
    && FilledIn(orders) + OpenIn(orders) <= limit
  }

  lemma SumsOne(orders: seq<LegOrder>, o: LegOrder)
    ensures FilledIn(orders + [o]) == FilledIn(orders) + o.filled
    ensures OpenIn(orders + [o]) == OpenIn(orders) + if Alive(o) then o.qty - o.filled else 0.0
  {
    assert (orders + [o])[..|orders|] == orders;
  }

  lemma {:induction false} NothingOpen(orders: seq<LegOrder>)
    requires forall i :: 0 <= i < |orders| ==> !Alive(orders[i])
    ensures OpenIn(orders) == 0.0
  {
    if orders == [] {
    } else {
      NothingOpen(orders[..|orders| - 1]);
    }
  }

  lemma {:induction false} FilledNotNegative(orders: seq<LegOrder>)
    requires forall i :: 0 <= i < |orders| ==> Sensible(orders[i])
    ensures FilledIn(orders) >= 0.0
  {
    if orders == [] {
    } else {
      FilledNotNegative(orders[..|orders| - 1]);
    }
  }

  /** While an order is open not everything is filled. */
  lemma OpenIsLeft(orders: seq<LegOrder>, limit: real)
    requires Within(orders, limit) && orders != [] && Alive(orders[|orders| - 1])
    ensures FilledIn(orders) < limit
  {
    var n := |orders| - 1;
    NothingOpen(orders[..n]);
    assert orders == orders[..n] + [orders[n]];
  }

  /** Replacing the last order by one that holds and can still fill no more. */
  lemma LastReplaced(orders: seq<LegOrder>, o: LegOrder, limit: real)
    requires orders != [] && Within(orders, limit) && Sensible(o)
    requires var was := orders[|orders| - 1];
             o.filled + (if Alive(o) then o.qty - o.filled else 0.0)
             <= was.filled + (if Alive(was) then was.qty - was.filled else 0.0)
    ensures Within(orders[|orders| - 1 := o], limit)
    ensures FilledIn(orders[|orders| - 1 := o]) == FilledIn(orders) - orders[|orders| - 1].filled + o.filled
  {
    var n := |orders| - 1;
    assert orders[n := o] == orders[..n] + [o];
    SumsOne(orders[..n], o);
  }

  /** What was asked of the venue and when: the best quote and the price of the order resting then, a post-only
      order with what was left to fill, a cancellation, the market order. */
  datatype Call =
    | Look(at: int, best: Option<real>, mine: Option<real>)
    | Put(at: int, qty: real, price: real, left: real)
    | Drop(at: int)
    | Send(at: int, qty: real, left: real)

  /** The calls from number `n` on chase the best quote: every order is placed at the best price just seen, for all
      that is left; a resting order is looked at only a full interval after it was placed or last looked at;
      it is dropped as soon as a look finds another best price, and before the time only then. */
  ghost predicate Chased(log: seq<Call>, n: nat, reprice: int, marketAt: int) {
    forall i :: n <= i < |log| ==> Chases(log, n, i, reprice, marketAt)
  }

  ghost predicate Chases(log: seq<Call>, n: nat, i: nat, reprice: int, marketAt: int) {
    && n <= i < |log|
    && match log[i]
       case Put(_, qty, price, left) =>
         qty == left && i > n && log[i - 1].Look? && log[i - 1].mine.None? && log[i - 1].best == Some(price)
       case Look(at, best, mine) =>
         mine.Some? ==> i > n && log[i - 1].at + reprice <= at
                        && (log[i - 1].Put? || (log[i - 1].Look? && log[i - 1].best == log[i - 1].mine == mine))
       case Drop(at) =>
         at < marketAt ==> i > n && log[i - 1].Look? && log[i - 1].mine.Some? && log[i - 1].best != log[i - 1].mine
       case Send(_, _, _) => false
  }

  /** A look that found the resting order's price no longer the best. */
  predicate Stale(c: Call) {
    c.Look? && c.mine.Some? && c.best != c.mine
  }

  ghost predicate Dropped(log: seq<Call>, n: nat) {
    forall i :: n <= i < |log| && Stale(log[i]) ==> i + 1 < |log| && log[i + 1].Drop?
  }

  /** The order that rests was placed, or found at the best price, by the last call. */
  ghost predicate Watched(log: seq<Call>, n: nat, mine: Option<real>, clock: int) {
    && n < |log| && log[|log| - 1].at <= clock
    && match log[|log| - 1]
       case Put(_, _, price, _) => mine == Some(price)
       case Look(_, best, was) => best == was == mine
       case _ => false
  }

  lemma OneMoreCall(log: seq<Call>, c: Call, n: nat, reprice: int, marketAt: int)
    requires Chased(log, n, reprice, marketAt) && n <= |log|
    requires Chases(log + [c], n, |log|, reprice, marketAt)
    ensures Chased(log + [c], n, reprice, marketAt)
  {
    forall i | n <= i < |log + [c]| ensures Chases(log + [c], n, i, reprice, marketAt) {
      if i < |log| {
        assert Chases(log, n, i, reprice, marketAt);
      }
    }
  }

  /** The market order's id; post-only orders are numbered from 0. */
  const MARKET_ID := 99

  /** At once: a post-only order would cross, a market order expires. */
  const EXPIRES := Answer(0, 0.0, false, Some(1.0), false, true)

  class Venue {
    const answers: nat -> Answer
    const limit: real
    var asked: nat
    var clock: int                       // milliseconds
    var orders: seq<LegOrder>            // the leg's post-only orders by number, then its market order

    ghost var log: seq<Call>

    /** At every point of the run. */
    ghost predicate Valid()
      reads this
    {
      Within(orders, limit)
    }

    /** Every call takes no time and every order expires. */
    ghost predicate Expiring() {
      forall n :: answers(n) == EXPIRES
    }

    constructor (answers: nat -> Answer, limit: real, clock: int)
      requires limit >= 0.0
      ensures Valid() && this.answers == answers && this.limit == limit && this.clock == clock && orders == []
      ensures log == []
    {
      this.answers, this.limit := answers, limit;
      asked, this.clock, orders, log := 0, clock, [], [];
    }

    function FilledQty(): real
      reads this
    {
      FilledIn(orders)
    }

    predicate Resting()
      reads this
    {
      orders != [] && Alive(orders[|orders| - 1])
    }

    method Ask() returns (a: Answer)
      modifies `asked, `clock
      ensures old(clock) <= clock && (Expiring() ==> a == EXPIRES && clock == old(clock))
    {
      a := answers(asked);
      asked := asked + 1;
      clock := clock + a.delay;
    }

    method Sleep(ms: nat)
      modifies `asked, `clock
      ensures old(clock) + ms <= clock && (Expiring() ==> clock == old(clock) + ms)
    {
      var _ := Ask();
      clock := clock + ms;
    }

    /** The price of the order that rests. */
    function Mine(): Option<real>
      reads this
    {
      if Resting() then Some(orders[|orders| - 1].price) else None
    }

    method Top() returns (px: Option<real>)
      modifies `asked, `clock, `log
      ensures old(clock) <= clock && (Expiring() ==> px.Some? && clock == old(clock))
      ensures log == old(log) + [Look(clock, px, Mine())]
    {
      var a := Ask();
      px := a.top;
      log := log + [Look(clock, px, Mine())];
    }

    method Poll()
      requires Valid()
      modifies `asked, `clock, `orders
      ensures Valid() && old(clock) <= clock && |orders| == |old(orders)| && old(FilledQty()) <= FilledQty()
      ensures !old(Resting()) ==> orders == old(orders)
      ensures orders != [] ==> orders[|orders| - 1].price == old(orders)[|orders| - 1].price
    {
      var a := Ask();
      if orders != [] {
        var n := |orders| - 1;
        LastReplaced(orders, Progress(orders[n], a), limit);
        orders := orders[n := Progress(orders[n], a)];
      }
    }

    /** Cancel, then read again: the order may have filled or been closed on the way. */
    method CancelQuietly()
      requires Valid() && orders != []
      modifies `asked, `clock, `orders, `log
      ensures Valid() && old(clock) <= clock && |orders| == |old(orders)| && old(FilledQty()) <= FilledQty()
              && !Resting()
      ensures log == old(log) + [Drop(old(clock))]
    {
      log := log + [Drop(clock)];
      var a := Ask();
      var n := |orders| - 1;
      var o := Progress(orders[n], a);
      var done := if Alive(o) then o.(status := Canceled) else o;
      LastReplaced(orders, done, limit);
      orders := orders[n := done];
      Poll();
    }

    /** A post-only order under the next number: it rests, or expires on arrival, or the guard refuses it. */
    method PlaceGtx(qty: real, price: real) returns (blocked: bool)
      requires Valid() && !Resting() && 0.0 < qty <= limit - FilledQty()
      modifies `asked, `clock, `orders, `log
      ensures Valid() && old(clock) <= clock && FilledQty() == old(FilledQty())
      ensures log == old(log) + [Put(clock, qty, price, limit - FilledQty())]
      ensures blocked ==> orders == old(orders)
      ensures !blocked ==> |orders| == |old(orders)| + 1
                           && (Alive(orders[|old(orders)|]) || orders[|old(orders)|].status == Expired)
                           && orders[|old(orders)|].price == price
      ensures Expiring() ==> !blocked && !Resting() && clock == old(clock)
    {
      var a := Ask();
      log := log + [Put(clock, qty, price, limit - FilledQty())];
      blocked := a.blocked;
      if !blocked {
        var o := LegOrder(qty, 0.0, price, if a.expired then Expired else New);
        SumsOne(orders, o);
        NothingOpen(orders);
        orders := orders + [o];
      }
    }

    /** The market order under its own number: filled whole, in part, or not at all.  If a post-only order
        already has that number, the venue takes it for a repetition and does nothing. */
    method PlaceMarket(qty: real) returns (blocked: bool, o: LegOrder)
      requires Valid() && !Resting() && 0.0 < qty <= limit - FilledQty()
      modifies `asked, `clock, `orders, `log
      ensures Valid() && log == old(log) + [Send(old(clock), qty, limit - old(FilledQty()))]
      ensures blocked ==> orders == old(orders)
      ensures !blocked && |old(orders)| > MARKET_ID ==> orders == old(orders) && o == orders[MARKET_ID]
      ensures !blocked && |old(orders)| <= MARKET_ID ==>
                orders == old(orders) + [o] && o.qty == qty && !Alive(o) && (o.status == Filled || o.status == Expired)
                && 0.0 <= o.filled <= qty && (o.status == Filled <==> o.filled == qty)
                && FilledQty() == old(FilledQty()) + o.filled
      ensures Expiring() ==> !blocked
    {
      log := log + [Send(clock, qty, limit - FilledQty())];
      var a := Ask();
      blocked := a.blocked;
      o := LegOrder(qty, 0.0, 0.0, Expired);
      if blocked {
        return;
      }
      if |orders| > MARKET_ID {
        o := orders[MARKET_ID];
        return;
      }
      if !a.expired {
        var filled := if a.closes then Clamp(a.fills, qty) else qty;
        o := LegOrder(qty, filled, 0.0, if filled == qty then Filled else Expired);
      }
      MarketJoins(orders, o, limit);
      orders := orders + [o];
    }
  }

  /** A closed order joins orders of which none is open. */
  lemma MarketJoins(orders: seq<LegOrder>, o: LegOrder, limit: real)
    requires Within(orders, limit) && Sensible(o) && !Alive(o) && o.filled <= limit - FilledIn(orders)
    requires orders != [] ==> !Alive(orders[|orders| - 1])
    ensures Within(orders + [o], limit) && FilledIn(orders + [o]) == FilledIn(orders) + o.filled
  {
    SumsOne(orders, o);
    NothingOpen(orders);
  }

  /** How working a leg ended: refused by the guard, a remainder too small to send, nothing left, or the
      market order sent. */
  datatype Outcome = Blocked | TooSmall(px: real) | NothingLeft | Sent(o: LegOrder)

  method WaitUntil(v: Venue, t: int)
    modifies v`asked, v`clock
    ensures t <= v.clock && old(v.clock) <= v.clock
    ensures v.Expiring() ==> v.clock == MaxInt(old(v.clock), t)
  {
    while v.clock < t
      invariant old(v.clock) <= v.clock && (v.Expiring() ==> v.clock <= MaxInt(old(v.clock), t))
      decreases t - v.clock
    {
      v.Sleep(MinInt(t - v.clock, 30000));
    }
  }

  /** One stretch of watching the resting order. */
  method Watch(v: Venue, until: int)
    requires v.Valid() && v.orders != []
    modifies v`asked, v`clock, v`orders
    ensures v.Valid() && |v.orders| == |old(v.orders)| && old(v.FilledQty()) <= v.FilledQty() && old(v.clock) <= v.clock
    ensures v.Resting() ==> until <= v.clock
    ensures old(v.Resting()) && old(v.clock) < until ==> old(v.clock) + 1000 <= v.clock
    ensures v.orders[|v.orders| - 1].price == old(v.orders)[|v.orders| - 1].price
  {
    while v.Resting() && v.clock < until
      invariant v.Valid() && |v.orders| == |old(v.orders)| && old(v.FilledQty()) <= v.FilledQty()
      invariant v.clock == old(v.clock) || old(v.clock) + 1000 <= v.clock
      invariant v.clock == old(v.clock) ==> v.orders == old(v.orders)
      invariant v.orders[|v.orders| - 1].price == old(v.orders)[|v.orders| - 1].price
      decreases until - v.clock
    {
      v.Sleep(1000);
      v.Poll();
    }
  }

  /** What the calls since number `n` are like, and the one that a resting order was left with. */
  ghost predicate Follows(v: Venue, n: nat, reprice: int, marketAt: int)
    reads v
  {
    && n <= |v.log| && Chased(v.log, n, reprice, marketAt) && Dropped(v.log, n)
    && (v.Resting() ==> Watched(v.log, n, v.Mine(), v.clock))
  }

  /** See the best quote and place what is left at it. */
  method Offer(v: Venue, qty: real, ghost n: nat, ghost reprice: int, ghost marketAt: int)
      returns (px: Option<real>, blocked: bool)
    requires v.Valid() && !v.Resting() && v.limit == qty && v.FilledQty() < qty && Follows(v, n, reprice, marketAt)
    modifies v`asked, v`clock, v`orders, v`log
    ensures v.Valid() && old(v.clock) <= v.clock && v.FilledQty() == old(v.FilledQty())
    ensures old(v.log) <= v.log && Follows(v, n, reprice, marketAt)
    ensures px.None? || blocked ==> v.orders == old(v.orders)
    ensures px.None? ==> !blocked && v.log == old(v.log) + [Look(v.clock, None, None)]
    ensures px.Some? && !blocked ==>
              |v.orders| == |old(v.orders)| + 1
              && (Alive(v.orders[|old(v.orders)|]) || v.orders[|old(v.orders)|].status == Expired)
    ensures v.Expiring() ==> px.Some? && !blocked && !v.Resting() && v.clock == old(v.clock)
  {
    px := v.Top();
    OneMoreCall(old(v.log), v.log[|old(v.log)|], n, reprice, marketAt);
    blocked := false;
    if px.Some? {
      ghost var log := v.log;
      blocked := v.PlaceGtx(qty - v.FilledQty(), px.value);
      OneMoreCall(log, v.log[|log|], n, reprice, marketAt);
    }
    hide Venue.Expiring;
  }

  /** Watch the resting order for a while, look again, and drop it if it is no longer at the best price. */
  method Review(v: Venue, ghost n: nat, marketAt: int, reprice: int)
    requires v.Valid() && v.Resting() && 0 < reprice && Follows(v, n, reprice, marketAt)
    modifies v`asked, v`clock, v`orders, v`log
    ensures v.Valid() && |v.orders| == |old(v.orders)| && old(v.FilledQty()) <= v.FilledQty() && old(v.clock) <= v.clock
    ensures old(v.log) <= v.log && Follows(v, n, reprice, marketAt)
    ensures old(v.clock) < marketAt ==> old(v.clock) + 1000 <= v.clock
  {
    Watch(v, MinInt(v.clock + reprice, marketAt));
    if v.Resting() && v.clock < marketAt {
      var px := v.Top();
      OneMoreCall(old(v.log), v.log[|old(v.log)|], n, reprice, marketAt);
      if px != Some(v.orders[|v.orders| - 1].price) {
        Clear(v, n, marketAt, reprice);
      }
    }
  }

  /** Cancel the order that rests: after the time, or because a look has just found it stale. */
  method Clear(v: Venue, ghost n: nat, ghost marketAt: int, ghost reprice: int)
    requires v.Valid() && v.Resting() && n < |v.log| && Chased(v.log, n, reprice, marketAt)
    requires Dropped(v.log[..|v.log| - 1], n) && (marketAt <= v.clock || Stale(v.log[|v.log| - 1]))
    requires marketAt <= v.clock || v.log[|v.log| - 1].at <= v.clock
    modifies v`asked, v`clock, v`orders, v`log
    ensures v.Valid() && !v.Resting() && |v.orders| == |old(v.orders)|
    ensures old(v.FilledQty()) <= v.FilledQty() && old(v.clock) <= v.clock
    ensures old(v.log) <= v.log && Follows(v, n, reprice, marketAt)
  {
    v.CancelQuietly();
    OneMoreCall(old(v.log), v.log[|old(v.log)|], n, reprice, marketAt);
  }

  /** Keep a post-only order at the best quote until `marketAt` or until all is filled. */
  method Chase(v: Venue, qty: real, marketAt: int, reprice: int) returns (blocked: bool)
    requires v.Valid() && v.orders == [] && v.limit == qty && 0 < reprice
    modifies v`asked, v`clock, v`orders, v`log
    ensures v.Valid() && !v.Resting() && old(v.clock) <= v.clock
    ensures v.orders != [] ==> 1000 * (|v.orders| - 1) < marketAt - old(v.clock)
    ensures v.Expiring() && qty > 0.0 ==>
              !blocked && marketAt - old(v.clock) <= 1000 * |v.orders| && v.FilledQty() == 0.0
    ensures old(v.log) <= v.log && Follows(v, |old(v.log)|, reprice, marketAt)
    ensures blocked || marketAt <= v.clock || v.FilledQty() >= qty
            || (v.log != [] && v.log[|v.log| - 1].Look? && v.log[|v.log| - 1].best.None?)
  {
    hide Chased;
    hide Dropped;
    blocked := false;
    ghost var n := |v.log|;
    NoCalls(v.log, reprice, marketAt);
    while v.clock < marketAt && qty - v.FilledQty() > 0.0
      invariant v.Valid() && old(v.clock) <= v.clock
      invariant v.orders != [] ==> 1000 * (|v.orders| - 1) < marketAt - old(v.clock)
      invariant v.clock < marketAt ==> 1000 * |v.orders| <= v.clock - old(v.clock)
      invariant v.Expiring() ==>
                  !v.Resting() && !blocked && v.FilledQty() == 0.0 && v.clock == old(v.clock) + 1000 * |v.orders|
      invariant old(v.log) <= v.log && Follows(v, n, reprice, marketAt)
      decreases marketAt - v.clock
    {
      if !v.Resting() {
        var px;
        px, blocked := Offer(v, qty, n, reprice, marketAt);
        if px.None? {
          break;
        }
        if blocked {
          return;
        }
        if !v.Resting() {
          v.Sleep(1000);
          continue;
        }
      }
      Review(v, n, marketAt, reprice);
    }
    if v.Resting() {
      OpenIsLeft(v.orders, v.limit);
      LastIsFresh(v, n, reprice, marketAt);
      Clear(v, n, marketAt, reprice);
    }
  }

  lemma NoCalls(log: seq<Call>, reprice: int, marketAt: int)
    ensures Chased(log, |log|, reprice, marketAt) && Dropped(log, |log|)
  {
  }

  lemma LastIsFresh(v: Venue, n: nat, reprice: int, marketAt: int)
    requires v.Resting() && Follows(v, n, reprice, marketAt)
    ensures n < |v.log| && Dropped(v.log[..|v.log| - 1], n) && Chased(v.log, n, reprice, marketAt)
  {
    hide Chased;
  }

  /** A market order for all that was left, not before its time. */
  predicate SentAll(c: Call, marketAt: int) {
    c.Send? && c.qty == c.left > 0.0 && marketAt <= c.at
  }

  /** The whole leg.  Whatever the venue does: never more than `qty`; a bounded number of orders; and,
      unless the guard refuses, everything is filled except in the cases named.  A window of 99 seconds is
      the longest that leaves the market order its number whatever happens. */
  method Work(v: Venue, qty: real, limitFrom: Option<int>, marketAt: int, reprice: int, reduceOnly: bool,
              minNotional: real)
      returns (out: Outcome, placed: nat, from: int)
    requires v.Valid() && v.orders == [] && v.limit == qty && 0 < reprice
    modifies v
    ensures v.Valid() && v.FilledQty() <= qty
    ensures out.Sent? ==> v.log != [] && SentAll(v.log[|v.log| - 1], marketAt)
    ensures placed > 0 ==> limitFrom.Some? && limitFrom.value <= from && 1000 * (placed - 1) < marketAt - from
    ensures out == NothingLeft ==> v.FilledQty() == qty
    ensures out.TooSmall? ==> !reduceOnly && 0.0 < v.FilledQty() < qty && (qty - v.FilledQty()) * out.px < minNotional
    ensures out.Sent? ==> (v.FilledQty() == qty <==> placed <= MARKET_ID && out.o.status == Filled)
    ensures limitFrom.None? || marketAt - limitFrom.value <= 1000 * MARKET_ID ==> placed <= MARKET_ID
    ensures v.Expiring() && qty > 0.0 && limitFrom.Some? && old(v.clock) <= limitFrom.value
            && marketAt - limitFrom.value > 1000 * MARKET_ID ==>
              placed > MARKET_ID && out.Sent? && v.FilledQty() < qty
  {
    hide Chased;
    hide Dropped;
    WaitUntil(v, if limitFrom.Some? then limitFrom.value else marketAt);
    from := v.clock;
    placed := 0;
    if limitFrom.Some? {
      var blocked := Chase(v, qty, marketAt, reprice);
      placed := |v.orders|;
      NothingOpen(v.orders);
      if blocked {
        return Blocked, placed, from;
      }
    }
    WaitUntil(v, marketAt);
    FilledNotNegative(v.orders);
    NothingOpen(v.orders);
    var rest := qty - v.FilledQty();
    if rest > 0.0 && !reduceOnly && v.FilledQty() > 0.0 && minNotional != 0.0 {
      var top := v.Top();
      var px := if top.Some? then top.value else 0.0;
      if rest * px < minNotional {
        return TooSmall(px), placed, from;
      }
    }
    if rest > 0.0 {
      var blocked, o := v.PlaceMarket(rest);
      if blocked {
        return Blocked, placed, from;
      }
      out := Sent(o);
      v.Poll();
    } else {
      out := NothingLeft;
    }
  }

  /** One millisecond more than 99 seconds: a hundred post-only orders expire, and nothing is filled. */
  method HundredOrders(qty: real, reprice: int) returns (v: Venue, out: Outcome, placed: nat)
    requires qty > 0.0 && 0 < reprice
    ensures fresh(v) && v.Valid() && placed == 100 && out.Sent? && v.FilledQty() < qty
  {
    var from: int;
    v := new Venue(n => EXPIRES, qty, 0);
    out, placed, from := Work(v, qty, Some(0), 99001, reprice, false, 5.0);
  }
}
