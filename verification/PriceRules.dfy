/** What becomes of resting orders in prices alone: when they fill, when they stay, and what a trade at exactly
    their price leaves behind. */
module PriceRules {
  import opened Basics
  import opened Ladders
  import opened Positions
  import opened Paper
  import opened Polling

  // ---- filled or still open -------------------------------------------------

  /** The trade prints beyond a limit price, or at or beyond a stop price. */
  predicate Takes(o: Order, price: real) {
    match (o.kind, o.side)
    case (Limit, Buy) => price < o.price
    case (Limit, Sell) => price > o.price
    case (StopMarket, Buy) => price >= o.price
    case (StopMarket, Sell) => price <= o.price
    case (Market, _) => false
  }

  /** Trade `k` is the first after the order was placed that takes it. */
  ghost predicate FirstTakes(tape: seq<Print>, o: Order, k: nat) {
    && k < |tape| && o.placedTs < tape[k].ts && Takes(o, tape[k].price)
    && forall j :: 0 <= j < k && o.placedTs < tape[j].ts ==> !Takes(o, tape[j].price)
  }

  lemma CountsIs(o: Order, t: Print)
    ensures Counts(o, t) <==> o.placedTs < t.ts && Takes(o, t.price)
  {
  }

  lemma FirstIs(tape: seq<Print>, o: Order, k: nat)
    ensures FirstCount(tape, o, k) <==> FirstTakes(tape, o, k)
  {
    forall t: Print { CountsIs(o, t); }
    hide Counts;
    hide Takes;
  }

  /** After any heedful run that ends with a poll: a bid is open only if no later trade printed below it, an offer
      only if none printed above it, a buy stop only if none printed at or above it and a sell stop only if none
      did at or below it.  A limit order that filled did so whole at its own price, as maker, at the first trade
      strictly beyond it. */
  lemma RestingInPrices(steps: seq<Step>, tape: seq<Print>, fees: Fees, n: nat, d: Levels, now: int, o: Order)
    requires OnTape(tape) && AlwaysHeedful(steps, tape, fees) && n <= |tape|
    requires o in Run(steps + [Poll(n, d, now)], tape, fees).orders
    ensures IsOpen(o) && o.kind == Limit && o.side == Buy ==>
              forall k :: 0 <= k < n && o.placedTs < tape[k].ts ==> tape[k].price >= o.price
    ensures IsOpen(o) && o.kind == Limit && o.side == Sell ==>
              forall k :: 0 <= k < n && o.placedTs < tape[k].ts ==> tape[k].price <= o.price
    ensures IsOpen(o) && o.kind == StopMarket && o.side == Buy ==>
              forall k :: 0 <= k < n && o.placedTs < tape[k].ts ==> tape[k].price < o.price
    ensures IsOpen(o) && o.kind == StopMarket && o.side == Sell ==>
              forall k :: 0 <= k < n && o.placedTs < tape[k].ts ==> tape[k].price > o.price
    ensures o.kind == Limit && o.status == Filled ==>
              exists k: nat :: FirstTakes(tape, o, k)
                && Fill(o.id, tape[k].ts, o.side, o.qty, o.price, o.qty * o.price * fees.makerBps / 10000.0, Maker)
                   in Run(steps + [Poll(n, d, now)], tape, fees).fills
  {
    hide *;
    var x := Run(steps + [Poll(n, d, now)], tape, fees);
    RestingByDefinition(steps, tape, fees, n, d, now, o);
    OpenInPrices(tape, o, n);
    if o.kind == Limit && o.status == Filled {
      FilledInPrices(x, tape, o, fees);
    }
  }

  lemma FilledInPrices(x: Exchange, tape: seq<Print>, o: Order, fees: Fees)
    requires exists k: nat :: FirstCount(tape, o, k) && FilledAt(x, o, tape[k], fees)
    ensures exists k: nat :: FirstTakes(tape, o, k)
              && Fill(o.id, tape[k].ts, o.side, o.qty, o.price, o.qty * o.price * fees.makerBps / 10000.0, Maker)
                 in x.fills
  {
    var k: nat :| FirstCount(tape, o, k) && FilledAt(x, o, tape[k], fees);
    FirstIs(tape, o, k);
    FillIs(x, o, tape[k], fees);
    hide FirstCount;
    hide FilledAt;
  }

  lemma OpenInPrices(tape: seq<Print>, o: Order, n: nat)
    requires n <= |tape| && (IsOpen(o) ==> forall k :: 0 <= k < n ==> !Counts(o, tape[k]))
    ensures IsOpen(o) && o.kind == Limit && o.side == Buy ==>
              forall k :: 0 <= k < n && o.placedTs < tape[k].ts ==> tape[k].price >= o.price
    ensures IsOpen(o) && o.kind == Limit && o.side == Sell ==>
              forall k :: 0 <= k < n && o.placedTs < tape[k].ts ==> tape[k].price <= o.price
    ensures IsOpen(o) && o.kind == StopMarket && o.side == Buy ==>
              forall k :: 0 <= k < n && o.placedTs < tape[k].ts ==> tape[k].price < o.price
    ensures IsOpen(o) && o.kind == StopMarket && o.side == Sell ==>
              forall k :: 0 <= k < n && o.placedTs < tape[k].ts ==> tape[k].price > o.price
  {
    forall k | 0 <= k < n ensures Counts(o, tape[k]) <==> o.placedTs < tape[k].ts && Takes(o, tape[k].price) {
      CountsIs(o, tape[k]);
    }
    hide Counts;
  }

  lemma FillIs(x: Exchange, o: Order, t: Print, fees: Fees)
    requires FilledAt(x, o, t, fees)
    ensures Fill(o.id, t.ts, o.side, o.qty, o.price, o.qty * o.price * fees.makerBps / 10000.0, Maker) in x.fills
  {
    MakerFee(fees, o.qty, o.price);
    hide FeeOf;
  }

  lemma MakerFee(fees: Fees, qty: real, price: real)
    ensures FeeOf(fees, Notional(qty, price), Maker) == qty * price * fees.makerBps / 10000.0
  {
  }

  /** The order as it left the book: filled whole, at its price or at the walk price of the book, if it may be
      larger than the position or is against it and no larger; otherwise expired. */
  predicate Left(was: Order, held: real, d: Levels, o: Order) {
    if was.reduceOnly && !(if was.side == Buy then was.qty <= -held else was.qty <= held)
    then o == was.(status := Expired)
    else
      && o == was.(status := Filled, filled := was.qty, avg := o.avg)
      && if was.kind == Limit then o.avg == was.price
         else o.avg * was.qty == WalkCost(if was.side == Buy then d.asks else d.bids, was.qty)
  }

  /** This poll read trade `k`, the first that takes the order, and `held` was held when they met. */
  ghost predicate LeftIn(steps: seq<Step>, j: nat, k: nat, held: real, was: Order, tape: seq<Print>, o: Order) {
    && j < |steps| && steps[j].Poll? && k < steps[j].upTo && FirstTakes(tape, was, k)
    && Left(was, held, steps[j].d, o)
  }

  lemma OutcomeIs(was: Order, held: real, d: Levels, o: Order)
    requires WholeOrder(was) && IsOpen(was) && o == Outcome(was, held, d)
    ensures Left(was, held, d, o)
  {
    if ReduceOk(held, was) && was.kind != Limit {
      var cost := WalkCost(SideOf(d, was.side), was.qty);
      assert cost / was.qty * was.qty == cost;
    }
    hide WalkCost;
  }

  /** Any order that ever rested, limit or stop, bid or offer: it rests unchanged, was cancelled, or left by a poll
      that read the first trade taking it. */
  lemma RestedInPrices(steps: seq<Step>, m: nat, i: nat, tape: seq<Print>, fees: Fees)
    requires OnTape(tape) && AlwaysHeedful(steps, tape, fees) && m <= |steps|
    requires i < |Run(steps[..m], tape, fees).orders| && IsOpen(Run(steps[..m], tape, fees).orders[i])
    ensures i < |Run(steps, tape, fees).orders|
    ensures var was, o := Run(steps[..m], tape, fees).orders[i], Run(steps, tape, fees).orders[i];
            || o == was || o == was.(status := Canceled)
            || exists j, k: nat, held :: m <= j && LeftIn(steps, j, k, held, was, tape, o)
  {
    RestedByDefinition(steps, m, i, tape, fees);
    var x, y := Run(steps[..m], tape, fees), Run(steps, tape, fees);
    var was, o := x.orders[i], y.orders[i];
    assert WholeOrder(was);
    hide Good;
    hide Run;
    hide AlwaysHeedful;
    hide OnTape;
    if o != was && o != was.(status := Canceled) {
      var j, k: nat :| m <= j < |steps| && FateAt(steps, j, k, was, i, tape, fees, o, y.fills);
      FateInPrices(steps, j, k, was, i, tape, fees, o, y.fills);
    }
    hide FateAt;
    hide LeftIn;
  }

  lemma FateInPrices(steps: seq<Step>, j: nat, k: nat, was: Order, i: nat, tape: seq<Print>, fees: Fees, o: Order,
                     fills: seq<Fill>)
    requires FateAt(steps, j, k, was, i, tape, fees, o, fills) && WholeOrder(was) && IsOpen(was)
    ensures exists held :: LeftIn(steps, j, k, held, was, tape, o)
  {
    var x := Run(steps[..j], tape, fees);
    var held := Before(x, tape[ReadBy(x, tape)..], k - ReadBy(x, tape), i, steps[j].d, steps[j].now, fees).pos.qty;
    hide Run;
    hide Good;
    hide Before;
    hide ReadBy;
    hide FillOf;
    OutcomeIs(was, held, steps[j].d, o);
    FirstIs(tape, was, k);
    hide Left;
    hide Outcome;
    hide FirstCount;
    hide FirstTakes;
    assert LeftIn(steps, j, k, held, was, tape, o);
  }

  // ---- on arrival -----------------------------------------------------------

  /** A reduce-only order that the position does not allow: not against it, or larger. */
  predicate Excess(x: Exchange, side: Side, qty: real) {
    if side == Buy then x.pos.qty >= 0.0 || qty > -x.pos.qty else x.pos.qty <= 0.0 || qty > x.pos.qty
  }

  /** A new order on arrival: at market it trades whole or, as an excess reduction, expires; post-only it rests
      strictly inside the opposite best price, and otherwise or as an excess reduction expires; a stop is rejected
      if the last price has reached it and rests otherwise, whatever is held. */
  lemma OnArrival(x: Exchange, step: Step, tape: seq<Print>, fees: Fees)
    requires Good(x) && (step.PlaceMarket? || step.PlaceGtx? || step.PlaceStop?)
    requires IndexOf(x.orders, step.id).None? && step.qty > 0.0
    ensures var y := Next(x, step, tape, fees);
            && |y.orders| == |x.orders| + 1
            && var o := y.orders[|x.orders|];
               && o.id == step.id && o.side == step.side && o.qty == step.qty && o.placedTs == step.now
               && match step
                  case PlaceMarket(side, qty, _, reduceOnly, _, _) =>
                    o.status == if reduceOnly && Excess(x, side, qty) then Expired else Filled
                  case PlaceGtx(side, qty, price, _, reduceOnly, d, _) =>
                    o.price == price && o.reduceOnly == reduceOnly
                    && o.status == if (reduceOnly && Excess(x, side, qty))
                                      || (if side == Buy then price >= d.asks[0].price else price <= d.bids[0].price)
                                   then Expired else New
                  case PlaceStop(side, _, price, _, last, _) =>
                    o.price == price && o.reduceOnly
                    && o.status == if (if side == Buy then last >= price else last <= price) then Rejected else New
                  case _ => true
  {
    hide Good;
    hide IndexOf;
    hide MarketPrice;
    hide FeeOf;
    hide OpenCount;
    hide Applied;
  }

  /** Cancelling closes the open order of that id and nothing else; an unknown or closed one is left as it is. */
  lemma CancelIs(x: Exchange, id: string, tape: seq<Print>, fees: Fees)
    requires Good(x)
    ensures var y := Next(x, Cancel(id), tape, fees);
            && |y.orders| == |x.orders| && y == x.(orders := y.orders)
            && forall i :: 0 <= i < |x.orders| ==>
                 y.orders[i] == if x.orders[i].id == id && IsOpen(x.orders[i]) then x.orders[i].(status := Canceled)
                                else x.orders[i]
  {
  }

  // ---- touches --------------------------------------------------------------

  /** A trade at exactly the order's price, after it was placed. */
  predicate At(o: Order, t: Print) {
    o.placedTs < t.ts && t.price == o.price
  }

  ghost predicate FirstAt(tape: seq<Print>, o: Order, k: nat) {
    k < |tape| && At(o, tape[k]) && forall j :: 0 <= j < k ==> !At(o, tape[j])
  }

  /** The first `n` trades have touched an open limit order exactly if the exchange says so, and the time on
      record is that of the first. */
  ghost predicate Known(touched: map<string, int>, tape: seq<Print>, o: Order, n: nat) {
    IsOpen(o) && o.kind == Limit ==>
      if o.id in touched then exists k: nat :: k < n && FirstAt(tape, o, k) && touched[o.id] == tape[k].ts
      else forall k :: 0 <= k < n && k < |tape| ==> !At(o, tape[k])
  }

  ghost predicate AllKnown(x: Exchange, tape: seq<Print>, n: nat) {
    && (forall i :: 0 <= i < |x.orders| ==> Known(x.touched, tape, x.orders[i], n))
    && forall id :: id in x.touched ==> IndexOf(x.orders, id).Some?
  }

  /** A trade at the price of a resting limit order leaves it as it is and is remembered if it is the first; no
      other meeting touches the order's record. */
  lemma MetTouches(x: Exchange, i: nat, t: Print, d: Levels, now: int, fees: Fees)
    requires Good(x) && i < |x.orders|
    ensures var o, y := x.orders[i], Met(x, i, t, d, now, fees);
            if IsOpen(o) && o.kind == Limit && At(o, t)
            then y == if o.id in x.touched then x else x.(touched := x.touched[o.id := t.ts])
            else y.touched == x.touched
    ensures var o, y := x.orders[i], Met(x, i, t, d, now, fees);
            y.orders[i] == o || !IsOpen(y.orders[i])
    ensures Met(x, i, t, d, now, fees).orders[i].id == x.orders[i].id
  {
    hide Good;
    hide MarketPrice;
    hide FeeOf;
    hide Reduces;
  }

  lemma OneMoreKnown(was: map<string, int>, touched: map<string, int>, tape: seq<Print>, o: Order, n: nat)
    requires n < |tape| && Known(was, tape, o, n) && IsOpen(o) && o.kind == Limit
    requires touched == if At(o, tape[n]) && o.id !in was then was[o.id := tape[n].ts] else was
    ensures Known(touched, tape, o, n + 1)
  {
    hide At;
    if o.id in was {
    } else if At(o, tape[n]) {
      assert FirstAt(tape, o, n);
    }
  }

  lemma {:induction false} MetUpToKnown(x: Exchange, tape: seq<Print>, i: nat, n: nat, d: Levels, now: int, fees: Fees)
    requires Good(x) && i <= |x.orders| && n < |tape|
    requires forall k :: 0 <= k < |x.orders| ==> Known(x.touched, tape, x.orders[k], n)
    ensures var y := MetUpTo(x, i, tape[n], d, now, fees);
            && (forall k :: 0 <= k < i ==> Known(y.touched, tape, y.orders[k], n + 1))
            && (forall k :: i <= k < |x.orders| ==> Known(y.touched, tape, y.orders[k], n))
            && (forall k :: 0 <= k < |x.orders| ==> y.orders[k].id == x.orders[k].id)
            && forall id :: id in y.touched ==>
                 id in x.touched || exists k :: 0 <= k < |x.orders| && x.orders[k].id == id
  {
    hide Good;
    hide Met;
    hide Known;
    if i == 0 {
    } else {
      MetUpToKnown(x, tape, i - 1, n, d, now, fees);
      var y := MetUpTo(x, i - 1, tape[n], d, now, fees);
      MetKnown(x, y, tape, i - 1, n, d, now, fees);
    }
  }

  lemma MetKnown(x: Exchange, y: Exchange, tape: seq<Print>, i: nat, n: nat, d: Levels, now: int, fees: Fees)
    requires Good(y) && i < |y.orders| == |x.orders| && n < |tape|
    requires forall k :: 0 <= k < i ==> Known(y.touched, tape, y.orders[k], n + 1)
    requires forall k :: i <= k < |y.orders| ==> Known(y.touched, tape, y.orders[k], n)
    requires forall k :: 0 <= k < |x.orders| ==> y.orders[k].id == x.orders[k].id
    ensures var z := Met(y, i, tape[n], d, now, fees);
            && (forall k :: 0 <= k < i + 1 ==> Known(z.touched, tape, z.orders[k], n + 1))
            && (forall k :: i + 1 <= k < |y.orders| ==> Known(z.touched, tape, z.orders[k], n))
            && (forall k :: 0 <= k < |x.orders| ==> z.orders[k].id == x.orders[k].id)
            && forall id :: id in z.touched ==> id in y.touched || id == x.orders[i].id
  {
    hide *;
    var o, z := y.orders[i], Met(y, i, tape[n], d, now, fees);
    MetTouches(y, i, tape[n], d, now, fees);
    OtherIds(y, i);
    SelfKnown(y.touched, z.touched, tape, o, z.orders[i], n);
    forall k | 0 <= k < |y.orders| && k != i
      ensures forall m :: Known(y.touched, tape, y.orders[k], m) ==> Known(z.touched, tape, y.orders[k], m)
    {
      OtherKnown(y.touched, z.touched, tape, y.orders[k], o.id);
    }
  }

  lemma OtherIds(x: Exchange, i: nat)
    requires Good(x) && i < |x.orders|
    ensures forall k :: 0 <= k < |x.orders| && k != i ==> x.orders[k].id != x.orders[i].id
  {
  }

  lemma SelfKnown(was: map<string, int>, touched: map<string, int>, tape: seq<Print>, o: Order, p: Order, n: nat)
    requires n < |tape| && Known(was, tape, o, n) && (p == o || !IsOpen(p))
    requires if IsOpen(o) && o.kind == Limit && At(o, tape[n])
             then touched == if o.id in was then was else was[o.id := tape[n].ts]
             else touched == was
    ensures Known(touched, tape, p, n + 1)
  {
    if IsOpen(p) && p.kind == Limit {
      OneMoreKnown(was, touched, tape, o, n);
    }
    hide FirstAt;
  }

  lemma OtherKnown(was: map<string, int>, touched: map<string, int>, tape: seq<Print>, o: Order, id: string)
    requires o.id != id && forall j :: j != id ==> (j in touched <==> j in was) && (j in was ==> touched[j] == was[j])
    ensures forall n :: Known(was, tape, o, n) ==> Known(touched, tape, o, n)
  {
    hide FirstAt;
  }

  lemma SawKnown(x: Exchange, tape: seq<Print>, n: nat, d: Levels, now: int, fees: Fees)
    requires Good(x) && n < |tape| && AllKnown(x, tape, n)
    ensures AllKnown(Saw(x, tape[n], d, now, fees), tape, n + 1)
  {
    hide Known;
    hide IndexOf;
    var z := AtTrade(x, tape[n]);
    MetUpToKnown(z, tape, |z.orders|, n, d, now, fees);
    hide MetUpTo;
    var y := Saw(x, tape[n], d, now, fees);
    forall id | id in y.touched ensures IndexOf(y.orders, id).Some? {
      if id in x.touched {
        var k := IndexOf(x.orders, id).value;
        assert y.orders[k].id == x.orders[k].id;
      }
    }
  }

  lemma {:induction false} SawAllKnown(x: Exchange, tape: seq<Print>, r: nat, m: nat, d: Levels, now: int, fees: Fees)
    requires Good(x) && r <= m <= |tape| && AllKnown(x, tape, r)
    ensures AllKnown(SawAll(x, tape[r..m], d, now, fees), tape, m)
    decreases m
  {
    hide Good;
    hide Saw;
    hide AllKnown;
    if r == m {
      assert tape[r..m] == [];
    } else {
      SawAllKnown(x, tape, r, m - 1, d, now, fees);
      assert tape[r..m][..m - r - 1] == tape[r..m - 1];
      SawKnown(SawAll(x, tape[r..m - 1], d, now, fees), tape, m - 1, d, now, fees);
    }
  }

  /** Every touch is known up to the reading position. */
  ghost predicate Touches(x: Exchange, tape: seq<Print>) {
    CursorOn(x, tape) && AllKnown(x, tape, ReadBy(x, tape))
  }

  lemma PollTouches(x: Exchange, n: nat, d: Levels, now: int, tape: seq<Print>, fees: Fees)
    requires Good(x) && Touches(x, tape) && Tracked(x, tape, fees) && OnTape(tape) && n <= |tape|
    ensures Touches(Polled(x, tape[..n], d, now, fees), tape)
  {
    PollNews(x, n, d, now, tape, fees);
    PollTracks(x, n, d, now, tape, fees);
    hide AllKnown;
    hide SawAll;
    hide OpenCount;
    hide Polled;
    hide AllHeeded;
    hide OnTape;
    var r := ReadBy(x, tape);
    if OpenCount(x.orders) > 0 && r < n {
      SawAllKnown(x, tape, r, n, d, now, fees);
      ReadsOn(x, r, n, d, now, tape, fees);
    } else if OpenCount(x.orders) > 0 && r == n {
      SawNothing(x, d, now, fees);
      assert tape[r..n] == [];
    }
    hide ReadBy;
    hide Good;
  }

  /** Orders that only leave the book keep the record of touches. */
  lemma ClosingTouches(x: Exchange, y: Exchange, tape: seq<Print>)
    requires Touches(x, tape) && |y.orders| == |x.orders| && y.touched == x.touched
    requires y.lastAgg == x.lastAgg && y.lastTs == x.lastTs
    requires forall i :: 0 <= i < |x.orders| ==>
               y.orders[i] == x.orders[i] || (!IsOpen(y.orders[i]) && y.orders[i].id == x.orders[i].id)
    requires OpenCount(y.orders) > 0 ==> OpenCount(x.orders) > 0
    ensures Touches(y, tape)
  {
    hide FirstAt;
    hide IndexOf;
    hide OpenCount;
    SameReading(x, y, tape);
    hide ReadBy;
    forall id | id in y.touched ensures IndexOf(y.orders, id).Some? {
      var k := IndexOf(x.orders, id).value;
      assert y.orders[k].id == id;
    }
    forall i | 0 <= i < |y.orders| ensures Known(y.touched, tape, y.orders[i], ReadBy(y, tape)) {
      assert Known(x.touched, tape, x.orders[i], ReadBy(x, tape));
    }
  }

  /** One more order, untouched so far: none of the trades read is later, or reading starts with it. */
  lemma JoiningTouches(x: Exchange, y: Exchange, o: Order, tape: seq<Print>)
    requires OnTape(tape) && Touches(x, tape) && y.orders == x.orders + [o] && y.touched == x.touched
    requires CursorOn(y, tape) && o.id !in x.touched
    requires OpenCount(x.orders) > 0 || !IsOpen(o) ==> y.lastAgg == x.lastAgg && y.lastTs == x.lastTs
    requires IsOpen(o) ==> y.lastTs.Some? && y.lastTs.value <= o.placedTs
    ensures Touches(y, tape)
  {
    forall k | 0 <= k < ReadBy(y, tape) && IsOpen(o) ensures !At(o, tape[k]) {
      ReadIsOld(y, tape, k);
    }
    assert Known(y.touched, tape, o, ReadBy(y, tape));
    if y.lastAgg == x.lastAgg && y.lastTs == x.lastTs {
      SameReading(x, y, tape);
    }
    hide OnTape;
    hide FirstAt;
    hide IndexOf;
    hide ReadBy;
    forall i | 0 <= i < |y.orders| ensures Known(y.touched, tape, y.orders[i], ReadBy(y, tape)) {
      if i < |x.orders| {
        assert y.orders[i] == x.orders[i] && Known(x.touched, tape, x.orders[i], ReadBy(x, tape));
      }
    }
    hide Known;
    forall id | id in y.touched ensures IndexOf(y.orders, id).Some? {
      var k := IndexOf(x.orders, id).value;
      assert y.orders[k].id == id;
    }
  }

  // ---- over whole runs ------------------------------------------------------

  /** An order comes to rest while others do with a clock that is not behind the trades read. */
  ghost predicate InTime(x: Exchange, step: Step) {
    WillRest(x, step) && OpenCount(x.orders) > 0 && x.lastTs.Some? ==> x.lastTs.value <= step.now
  }

  ghost predicate AlwaysInTime(steps: seq<Step>, tape: seq<Print>, fees: Fees) {
    forall n :: 0 <= n < |steps| ==> InTime(Run(steps[..n], tape, fees), steps[n])
  }

  lemma InTimeIsHeedful(x: Exchange, step: Step, tape: seq<Print>)
    requires OnTape(tape) && CursorOn(x, tape) && InTime(x, step)
    ensures Heedful(x, step, tape)
  {
    if WillRest(x, step) && OpenCount(x.orders) > 0 {
      InTimeHeeds(x, step, tape);
    }
    hide WillRest;
    hide Counts;
  }

  lemma RestingTouches(x: Exchange, y: Exchange, step: Step, tape: seq<Print>)
    requires OnTape(tape) && Touches(x, tape) && CursorOn(y, tape) && InTime(x, step)
    requires (step.PlaceGtx? || step.PlaceStop?) && Polling.Adds(x, y, step)
    requires y == x || IndexOf(x.orders, step.id).None?
    requires y != x ==> y.orders[|x.orders|].id == step.id
    ensures Touches(y, tape)
  {
    if y != x {
      var o := y.orders[|x.orders|];
      var z := x.(orders := x.orders + [o]);
      assert o.id !in x.touched;
      assert z.orders[..|x.orders|] == x.orders;
      hide WillRest;
      hide AllKnown;
      hide OnTape;
      hide CursorOn;
      JoiningTouches(x, y, o, tape);
    }
    hide Good;
  }

  lemma MarketTouches(x: Exchange, step: Step, tape: seq<Print>, fees: Fees)
    requires Good(x) && OnTape(tape) && Touches(x, tape) && step.PlaceMarket?
    requires CursorOn(Next(x, step, tape, fees), tape)
    ensures Touches(Next(x, step, tape, fees), tape)
  {
    hide Good;
    hide MarketPrice;
    hide FeeOf;
    hide ReduceOk;
    var y := Next(x, step, tape, fees);
    if y != x {
      var o := y.orders[|x.orders|];
      assert y.orders == x.orders + [o] && !IsOpen(o) && o.id == step.id && y.touched == x.touched;
      hide Next;
      hide CursorOn;
      hide OnTape;
      JoiningTouches(x, y, o, tape);
    }
  }

  lemma {:induction false} CancelEveryLeaves(x: Exchange, j: nat)
    requires Good(x) && j <= |x.orders|
    ensures var y := AllCanceled(x, j);
            && y.touched == x.touched && y.lastAgg == x.lastAgg && y.lastTs == x.lastTs && |y.orders| == |x.orders|
    decreases |x.orders| - j
  {
    hide Good;
    if j == |x.orders| {
    } else {
      CancelEveryLeaves(if IsOpen(x.orders[j]) then Closed(x, j, Canceled) else x, j + 1);
    }
  }

  lemma CancelingTouches(x: Exchange, step: Step, tape: seq<Print>, fees: Fees)
    requires Good(x) && Touches(x, tape) && (step.Cancel? || step.CancelEvery?)
    ensures Touches(Next(x, step, tape, fees), tape)
  {
    var y := Next(x, step, tape, fees);
    if step.CancelEvery? {
      EveryCanceled(x);
    }
    hide Touches;
    hide AllCanceled;
    hide Good;
    CanceledTouches(x, y, tape);
    hide OpenCount;
  }

  lemma EveryCanceled(x: Exchange)
    requires Good(x)
    ensures Canceling(x, AllCanceled(x, 0))
  {
    CancelEveryLeaves(x, 0);
    var y := AllCanceled(x, 0);
    forall i | 0 <= i < |x.orders|
      ensures y.orders[i] == x.orders[i] || y.orders[i] == x.orders[i].(status := Canceled)
    {
      CancelEveryFate(x, 0, i);
    }
    hide AllCanceled;
    hide Good;
  }

  ghost predicate Canceling(x: Exchange, y: Exchange) {
    && y.touched == x.touched && y.lastAgg == x.lastAgg && y.lastTs == x.lastTs && |y.orders| == |x.orders|
    && forall i :: 0 <= i < |x.orders| ==>
         y.orders[i] == x.orders[i] || y.orders[i] == x.orders[i].(status := Canceled)
  }

  lemma CanceledTouches(x: Exchange, y: Exchange, tape: seq<Print>)
    requires Touches(x, tape) && Canceling(x, y)
    ensures Touches(y, tape)
  {
    hide Touches;
    if OpenCount(y.orders) > 0 {
      var i :| 0 <= i < |y.orders| && IsOpen(y.orders[i]);
      assert y.orders[i] == x.orders[i];
    }
    hide OpenCount;
    ClosingTouches(x, y, tape);
  }

  lemma NextTouches(x: Exchange, step: Step, tape: seq<Print>, fees: Fees)
    requires Good(x) && Touches(x, tape) && Tracked(x, tape, fees) && OnTape(tape) && InTime(x, step)
    ensures var y := Next(x, step, tape, fees); Touches(y, tape) && Tracked(y, tape, fees)
  {
    InTimeIsHeedful(x, step, tape);
    NextTracks(x, step, tape, fees);
    var y := Next(x, step, tape, fees);
    assert CursorOn(y, tape);
    match step {
      case PlaceMarket(_, _, _, _, _, _) => MarketTouches(x, step, tape, fees);
      case PlaceGtx(_, _, _, _, _, _, _) =>
        GtxAdds(x, step, tape, fees);
        NewId(x, step, tape, fees);
        RestingTouches(x, y, step, tape);
      case PlaceStop(_, _, _, _, _, _) =>
        StopAdds(x, step, tape, fees);
        NewId(x, step, tape, fees);
        RestingTouches(x, y, step, tape);
      case Poll(n, d, now) => PollTouches(x, if n < |tape| then n else |tape|, d, now, tape, fees);
      case _ => CancelingTouches(x, step, tape, fees);
    }
    hide *;
  }

  lemma NewId(x: Exchange, step: Step, tape: seq<Print>, fees: Fees)
    requires Good(x) && (step.PlaceGtx? || step.PlaceStop?)
    ensures var y := Next(x, step, tape, fees);
            y == x || (IndexOf(x.orders, step.id).None? && |x.orders| < |y.orders|
                       && y.orders[|x.orders|].id == step.id)
  {
    if step.PlaceGtx? {
      NewGtxId(x, step, tape, fees);
    } else {
      NewStopId(x, step, tape, fees);
    }
    hide *;
  }

  lemma NewGtxId(x: Exchange, step: Step, tape: seq<Print>, fees: Fees)
    requires Good(x) && step.PlaceGtx?
    ensures var y := Next(x, step, tape, fees);
            y == x || (IndexOf(x.orders, step.id).None? && |x.orders| < |y.orders|
                       && y.orders[|x.orders|].id == step.id)
  {
    hide Good;
    hide ReduceOk;
    hide Crosses;
    hide IndexOf;
    hide OpenCount;
  }

  lemma NewStopId(x: Exchange, step: Step, tape: seq<Print>, fees: Fees)
    requires Good(x) && step.PlaceStop?
    ensures var y := Next(x, step, tape, fees);
            y == x || (IndexOf(x.orders, step.id).None? && |x.orders| < |y.orders|
                       && y.orders[|x.orders|].id == step.id)
  {
    hide Good;
    hide Hit;
    hide IndexOf;
    hide OpenCount;
  }

  lemma {:induction false} RunTouches(steps: seq<Step>, tape: seq<Print>, fees: Fees)
    requires OnTape(tape) && AlwaysInTime(steps, tape, fees)
    ensures Touches(Run(steps, tape, fees), tape) && Tracked(Run(steps, tape, fees), tape, fees)
  {
    hide OnTape;
    hide Touches;
    hide Tracked;
    hide InTime;
    hide Next;
    if steps == [] {
      NothingTouched(tape);
      EmptyTracks(tape, fees);
    } else {
      var k := |steps| - 1;
      assert AlwaysInTime(steps[..k], tape, fees) by {
        ShorterInTime(steps, tape, fees, k);
      }
      RunTouches(steps[..k], tape, fees);
      NextTouches(Run(steps[..k], tape, fees), steps[k], tape, fees);
    }
  }

  lemma NothingTouched(tape: seq<Print>)
    ensures Touches(EMPTY_EXCHANGE, tape)
  {
  }

  lemma ShorterInTime(steps: seq<Step>, tape: seq<Print>, fees: Fees, n: nat)
    requires n <= |steps| && AlwaysInTime(steps, tape, fees)
    ensures AlwaysInTime(steps[..n], tape, fees)
  {
    hide InTime;
    hide Run;
    forall m | 0 <= m < n ensures InTime(Run(steps[..n][..m], tape, fees), steps[..n][m]) {
      assert steps[..n][..m] == steps[..m];
    }
  }

  /** After a run in time that ends with a poll: an open limit order has a touch on record exactly if some later
      trade printed at its price, and the time on record is that of the first one. */
  lemma TouchIsFirst(steps: seq<Step>, tape: seq<Print>, fees: Fees, n: nat, d: Levels, now: int, o: Order)
    requires OnTape(tape) && AlwaysInTime(steps, tape, fees) && n <= |tape|
    requires o in Run(steps + [Poll(n, d, now)], tape, fees).orders && IsOpen(o) && o.kind == Limit
    ensures var x := Run(steps + [Poll(n, d, now)], tape, fees);
            if o.id in x.touched
            then exists k :: 0 <= k < |tape| && o.placedTs < tape[k].ts && tape[k].price == o.price
                             && x.touched[o.id] == tape[k].ts
                             && forall j :: 0 <= j < k && o.placedTs < tape[j].ts ==> tape[j].price != o.price
            else forall k :: 0 <= k < n && o.placedTs < tape[k].ts ==> tape[k].price != o.price
  {
    hide *;
    var x, y := Run(steps, tape, fees), Run(steps + [Poll(n, d, now)], tape, fees);
    RunTouches(steps, tape, fees);
    RunOneMore(steps, Poll(n, d, now), tape, fees);
    PollTracks(x, n, d, now, tape, fees);
    PollTouches(x, n, d, now, tape, fees);
    var i :| 0 <= i < |y.orders| && y.orders[i] == o;
    SomeOpen(y.orders, i);
    PollIs(x, n, d, now, tape, fees);
    KnownUpTo(y, tape, i, n);
    KnownIs(y.touched, tape, o, n);
  }

  lemma SomeOpen(orders: seq<Order>, i: nat)
    requires i < |orders| && IsOpen(orders[i])
    ensures OpenCount(orders) > 0
  {
  }

  lemma PollIs(x: Exchange, n: nat, d: Levels, now: int, tape: seq<Print>, fees: Fees)
    requires Good(x) && n <= |tape|
    ensures Next(x, Poll(n, d, now), tape, fees) == Polled(x, tape[..n], d, now, fees)
  {
    hide Good;
    hide Polled;
  }

  lemma KnownUpTo(y: Exchange, tape: seq<Print>, i: nat, n: nat)
    requires Touches(y, tape) && i < |y.orders| && n <= ReadBy(y, tape)
    ensures exists m: nat :: n <= m && m <= |tape| && Known(y.touched, tape, y.orders[i], m)
  {
    hide Known;
    hide IndexOf;
    hide CursorOn;
    assert Known(y.touched, tape, y.orders[i], ReadBy(y, tape));
    hide ReadBy;
  }

  lemma KnownIs(touched: map<string, int>, tape: seq<Print>, o: Order, n: nat)
    requires (exists m: nat :: n <= m && m <= |tape| && Known(touched, tape, o, m)) && IsOpen(o) && o.kind == Limit
    ensures if o.id in touched
            then exists k :: 0 <= k < |tape| && o.placedTs < tape[k].ts && tape[k].price == o.price
                             && touched[o.id] == tape[k].ts
                             && forall j :: 0 <= j < k && o.placedTs < tape[j].ts ==> tape[j].price != o.price
            else forall k :: 0 <= k < n && o.placedTs < tape[k].ts ==> tape[k].price != o.price
  {
    var m: nat :| n <= m && m <= |tape| && Known(touched, tape, o, m);
    if o.id in touched {
      var k: nat :| k < m && FirstAt(tape, o, k) && touched[o.id] == tape[k].ts;
      assert forall j :: 0 <= j < k ==> !At(o, tape[j]);
    } else {
      assert forall k :: 0 <= k < m ==> !At(o, tape[k]);
    }
  }
}
