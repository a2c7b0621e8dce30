/** What polling does to resting orders: however it is split, and against a definition that looks
    only at the order and the public trades. */
module Polling {
  import opened Basics
  import opened Ladders
  import opened Positions
  import opened Paper

  /** The public trades in exchange order. */
  ghost predicate OnTape(tape: seq<Print>) {
    forall i, j :: 0 <= i < j < |tape| ==> tape[i].ts <= tape[j].ts && tape[i].agg < tape[j].agg
  }

  // ---- the reading position -------------------------------------------------

  /** How many trades of the tape are already read. */
  ghost function ReadOf(tape: seq<Print>, agg: Option<int>, since: int): (n: nat)
    ensures n <= |tape| && (n > 0 ==> !Unread(agg, since, tape[n - 1]))
    ensures forall k :: n <= k < |tape| ==> Unread(agg, since, tape[k])
  {
    if tape == [] || !Unread(agg, since, tape[|tape| - 1]) then |tape| else ReadOf(tape[..|tape| - 1], agg, since)
  }

  lemma ReadBelow(tape: seq<Print>, agg: Option<int>, since: int, k: nat)
    requires OnTape(tape) && k < ReadOf(tape, agg, since)
    ensures !Unread(agg, since, tape[k])
  {
  }

  lemma ReadUnique(tape: seq<Print>, agg: Option<int>, since: int, n: nat)
    requires OnTape(tape) && n <= |tape| && (n > 0 ==> !Unread(agg, since, tape[n - 1]))
    requires forall k :: n <= k < |tape| ==> Unread(agg, since, tape[k])
    ensures ReadOf(tape, agg, since) == n
  {
    if n < ReadOf(tape, agg, since) {
      ReadBelow(tape, agg, since, n);
    }
  }

  lemma TapePrefix(tape: seq<Print>, m: nat)
    requires OnTape(tape) && m <= |tape|
    ensures OnTape(tape[..m])
  {
  }

  lemma TradesAfterOne(tape: seq<Print>, t: Print, agg: Option<int>, since: int)
    ensures TradesAfter(tape + [t], agg, since)
         == if Unread(agg, since, t) then TradesAfter(tape, agg, since) + [t] else TradesAfter(tape, agg, since)
  {
    assert (tape + [t])[..|tape|] == tape;
  }

  lemma {:induction false} NewsIsSuffix(tape: seq<Print>, agg: Option<int>, since: int)
    requires OnTape(tape)
    ensures TradesAfter(tape, agg, since) == tape[ReadOf(tape, agg, since)..]
  {
    hide OnTape;
    hide Unread;
    hide ReadOf;
    hide TradesAfter;
    var r := ReadOf(tape, agg, since);
    if r == |tape| {
      NothingUnread(tape, agg, since);
    } else {
      var n := |tape| - 1;
      TapePrefix(tape, n);
      NewsIsSuffix(tape[..n], agg, since);
      ReadOfPrefix(tape, agg, since, n);
      assert tape == tape[..n] + [tape[n]];
      TradesAfterOne(tape[..n], tape[n], agg, since);
      SuffixGrows(tape, n, r);
    }
  }

  lemma SuffixGrows(tape: seq<Print>, n: nat, r: nat)
    requires r <= n && |tape| == n + 1
    ensures tape[..n][r..] + [tape[n]] == tape[r..]
  {
  }

  lemma NothingUnread(tape: seq<Print>, agg: Option<int>, since: int)
    requires OnTape(tape) && ReadOf(tape, agg, since) == |tape|
    ensures TradesAfter(tape, agg, since) == []
  {
    forall k | 0 <= k < |tape| ensures !Unread(agg, since, tape[k]) {
      ReadBelow(tape, agg, since, k);
    }
    AllRead(tape, agg, since);
  }

  lemma {:induction false} AllRead(tape: seq<Print>, agg: Option<int>, since: int)
    requires forall k :: 0 <= k < |tape| ==> !Unread(agg, since, tape[k])
    ensures TradesAfter(tape, agg, since) == []
  {
    if tape == [] {
    } else {
      AllRead(tape[..|tape| - 1], agg, since);
    }
  }

  /** A shorter tape is read up to the same trade, or to its end. */
  lemma ReadOfPrefix(tape: seq<Print>, agg: Option<int>, since: int, m: nat)
    requires OnTape(tape) && m <= |tape|
    ensures ReadOf(tape[..m], agg, since) == MinInt(ReadOf(tape, agg, since), m)
  {
    var n := ReadOf(tape, agg, since);
    TapePrefix(tape, m);
    if 0 < m <= n {
      ReadBelow(tape, agg, since, m - 1);
    }
    ReadUnique(tape[..m], agg, since, if n < m then n else m);
  }

  lemma ReadAt(tape: seq<Print>, k: nat)
    requires OnTape(tape) && k < |tape|
    ensures ReadOf(tape, Some(tape[k].agg), tape[k].ts) == k + 1
  {
    ReadUnique(tape, Some(tape[k].agg), tape[k].ts, k + 1);
  }

  /** What a poll of the first `m` trades reads. */
  lemma NewsUpTo(tape: seq<Print>, agg: Option<int>, since: int, m: nat)
    requires OnTape(tape) && m <= |tape|
    ensures TradesAfter(tape[..m], agg, since)
         == if ReadOf(tape, agg, since) <= m then tape[ReadOf(tape, agg, since)..m] else []
  {
    TapePrefix(tape, m);
    NewsIsSuffix(tape[..m], agg, since);
    ReadOfPrefix(tape, agg, since, m);
    var n := ReadOf(tape, agg, since);
    if n <= m {
      assert tape[..m][n..] == tape[n..m];
    }
  }

  /** The reading position has moved to a trade. */
  function AtTrade(x: Exchange, t: Print): (r: Exchange)
    requires Good(x)
    ensures Good(r)
  {
    x.(lastAgg := Some(t.agg), lastTs := Some(t.ts))
  }

  // ---- reading in two parts -------------------------------------------------

  lemma {:induction false} SawInParts(x: Exchange, a: seq<Print>, b: seq<Print>, d: Levels, now: int, fees: Fees)
    requires Good(x)
    ensures SawAll(x, a + b, d, now, fees) == SawAll(SawAll(x, a, d, now, fees), b, d, now, fees)
  {
    hide Good;
    hide Saw;
    if b == [] {
      assert a + b == a;
    } else {
      var n := |b| - 1;
      SawInParts(x, a, b[..n], d, now, fees);
      assert (a + b)[..|a + b| - 1] == a + b[..n];
    }
  }

  lemma SawMovesCursor(x: Exchange, t: Print, d: Levels, now: int, fees: Fees)
    requires Good(x)
    ensures var r := Saw(x, t, d, now, fees); r.lastAgg == Some(t.agg) && r.lastTs == Some(t.ts)
  {
    assert Good(x.(lastAgg := Some(t.agg), lastTs := Some(t.ts)));
  }

  lemma CursorAfter(x: Exchange, ts: seq<Print>, d: Levels, now: int, fees: Fees)
    requires Good(x) && ts != []
    ensures var r := SawAll(x, ts, d, now, fees);
            r.lastAgg == Some(ts[|ts| - 1].agg) && r.lastTs == Some(ts[|ts| - 1].ts)
  {
    hide Saw;
    SawMovesCursor(SawAll(x, ts[..|ts| - 1], d, now, fees), ts[|ts| - 1], d, now, fees);
  }

  /** Everything but the reading position. */
  ghost predicate Same(x: Exchange, y: Exchange) {
    x.orders == y.orders && x.fills == y.fills && x.pos == y.pos && x.touched == y.touched
  }

  lemma {:induction false} NothingMeets(x: Exchange, i: nat, t: Print, d: Levels, now: int, fees: Fees)
    requires Good(x) && i <= |x.orders| && OpenCount(x.orders) == 0
    ensures MetUpTo(x, i, t, d, now, fees) == x
  {
    hide Good;
    if i == 0 {
    } else {
      NothingMeets(x, i - 1, t, d, now, fees);
      assert !IsOpen(x.orders[i - 1]);
    }
  }

  lemma {:induction false} NothingSees(x: Exchange, ts: seq<Print>, d: Levels, now: int, fees: Fees)
    requires Good(x) && OpenCount(x.orders) == 0
    ensures Same(SawAll(x, ts, d, now, fees), x)
  {
    if ts == [] {
    } else {
      var y := SawAll(x, ts[..|ts| - 1], d, now, fees);
      var t := ts[|ts| - 1];
      NothingSees(x, ts[..|ts| - 1], d, now, fees);
      assert Good(y.(lastAgg := Some(t.agg), lastTs := Some(t.ts)));
      NothingMeets(y.(lastAgg := Some(t.agg), lastTs := Some(t.ts)), |y.orders|, t, d, now, fees);
    }
  }

  // ---- book and clock matter to the price of a stop only --------------------

  ghost predicate NoStops(x: Exchange) {
    forall i :: 0 <= i < |x.orders| && IsOpen(x.orders[i]) ==> x.orders[i].kind != StopMarket
  }

  /** The same order, but for the price a stop was filled at. */
  predicate AlikeOrder(o: Order, p: Order) {
    o == p.(avg := o.avg) && (o.kind != StopMarket ==> o == p)
  }

  /** The same fill, but for the price, the fee and the time of a taker. */
  predicate AlikeFill(f: Fill, g: Fill) {
    f == g.(ts := f.ts, price := f.price, fee := f.fee) && (f.liquidity == Maker ==> f == g)
  }

  /** Every order has the same status, the same is held and touched, and the same trades are read. */
  ghost predicate Alike(x: Exchange, y: Exchange) {
    && |x.orders| == |y.orders| && (forall i :: 0 <= i < |x.orders| ==> AlikeOrder(x.orders[i], y.orders[i]))
    && |x.fills| == |y.fills| && (forall i :: 0 <= i < |x.fills| ==> AlikeFill(x.fills[i], y.fills[i]))
    && x.pos.qty == y.pos.qty && x.touched == y.touched && x.lastAgg == y.lastAgg && x.lastTs == y.lastTs
  }

  /** Alike; equal outright if no stop is open. */
  ghost predicate Like(x: Exchange, y: Exchange, stopless: bool) {
    if stopless then x == y && NoStops(x) else Alike(x, y)
  }

  lemma MeetEqual(x: Exchange, i: nat, t: Print, d: Levels, now: int, e: Levels, later: int, fees: Fees)
    requires Good(x) && i < |x.orders| && NoStops(x)
    ensures Met(x, i, t, d, now, fees) == Met(x, i, t, e, later, fees) && NoStops(Met(x, i, t, d, now, fees))
  {
    hide Good;
    hide MarketPrice;
    hide ReduceOk;
    hide Through;
    hide Hit;
  }

  lemma ExecuteAlike(x: Exchange, y: Exchange, i: nat, px: real, py: real, liq: Liquidity, ts: int, us: int, fees: Fees)
    requires Good(x) && Good(y) && Alike(x, y) && i < |x.orders| && IsOpen(x.orders[i])
    requires x.orders[i].kind == Limit && liq == Maker ==> px == py && ts == us
    requires x.orders[i].kind == (if liq == Maker then Limit else StopMarket)
    ensures Alike(Executed(x, i, px, liq, ts, fees), Executed(y, i, py, liq, us, fees))
  {
    assert WholeOrder(x.orders[i]) && AlikeOrder(x.orders[i], y.orders[i]);
    hide Good;
    hide FeeOf;
    hide Notional;
    var o := x.orders[i];
    ApplyBooks(x.pos, o.side, Remaining(o), px, FeeOf(fees, Notional(Remaining(o), px), liq));
    ApplyBooks(y.pos, o.side, Remaining(o), py, FeeOf(fees, Notional(Remaining(o), py), liq));
    hide Applied;
  }

  lemma CloseAlike(x: Exchange, y: Exchange, i: nat)
    requires Good(x) && Good(y) && Alike(x, y) && i < |x.orders| && IsOpen(x.orders[i]) && IsOpen(y.orders[i])
    ensures Alike(Closed(x, i, Expired), Closed(y, i, Expired))
  {
    hide Good;
    assert AlikeOrder(x.orders[i], y.orders[i]);
  }

  lemma TouchAlike(x: Exchange, y: Exchange, i: nat, t: Print)
    requires Good(x) && Good(y) && Alike(x, y) && i < |x.orders|
    ensures Alike(Touched(x, x.orders[i], t), Touched(y, y.orders[i], t))
  {
    hide Good;
    assert AlikeOrder(x.orders[i], y.orders[i]);
  }

  lemma AlikeAt(x: Exchange, y: Exchange, i: nat)
    requires Alike(x, y) && i < |x.orders|
    ensures i < |y.orders| && AlikeOrder(x.orders[i], y.orders[i]) && x.pos.qty == y.pos.qty
  {
    hide AlikeOrder;
  }

  lemma MeetAlike(x: Exchange, y: Exchange, i: nat, t: Print, d: Levels, now: int, e: Levels, later: int, fees: Fees)
    requires Good(x) && Good(y) && Alike(x, y) && i < |x.orders|
    ensures Alike(Met(x, i, t, d, now, fees), Met(y, i, t, e, later, fees))
  {
    var o := x.orders[i];
    AlikeAt(x, y, i);
    assert WholeOrder(o) && WholeOrder(y.orders[i]);
    TouchAlike(x, y, i, t);
    hide Good;
    hide Alike;
    hide MarketPrice;
    hide Executed;
    hide Closed;
    hide Reduces;
    var xt, yt := Touched(x, o, t), Touched(y, y.orders[i], t);
    if IsOpen(o) && o.placedTs < t.ts && o.kind != Market
      && (if o.kind == Limit then Through(o, t) else Hit(o, t.price)) {
      if !ReduceOk(x.pos.qty, o) {
        CloseAlike(xt, yt, i);
      } else if o.kind == Limit {
        ExecuteAlike(xt, yt, i, o.price, o.price, Maker, t.ts, t.ts, fees);
      } else {
        ExecuteAlike(xt, yt, i, MarketPrice(o, d), MarketPrice(y.orders[i], e), Taker, now, later, fees);
      }
    }
  }

  lemma {:induction false} MeetsAlike(x: Exchange, y: Exchange, i: nat, t: Print, d: Levels, now: int, e: Levels,
                                      later: int, fees: Fees, stopless: bool)
    requires Good(x) && Good(y) && i <= |x.orders| == |y.orders| && Like(x, y, stopless)
    ensures Like(MetUpTo(x, i, t, d, now, fees), MetUpTo(y, i, t, e, later, fees), stopless)
  {
    hide Good;
    hide Met;
    hide NoStops;
    hide Alike;
    if i == 0 {
    } else {
      MeetsAlike(x, y, i - 1, t, d, now, e, later, fees, stopless);
      var v, w := MetUpTo(x, i - 1, t, d, now, fees), MetUpTo(y, i - 1, t, e, later, fees);
      if stopless {
        MeetEqual(v, i - 1, t, d, now, e, later, fees);
      } else {
        MeetAlike(v, w, i - 1, t, d, now, e, later, fees);
      }
    }
  }

  lemma LikeLong(x: Exchange, y: Exchange, stopless: bool)
    requires Like(x, y, stopless)
    ensures |x.orders| == |y.orders| && OpenCount(x.orders) == OpenCount(y.orders)
    ensures x.lastAgg == y.lastAgg && x.lastTs == y.lastTs
    ensures OpenCount(x.orders) > 0 ==> Earliest(x.orders) == Earliest(y.orders)
  {
    if !stopless {
      AlikeOpen(x.orders, y.orders);
    }
  }

  lemma {:induction false} AlikeOpen(a: seq<Order>, b: seq<Order>)
    requires |a| == |b| && forall i :: 0 <= i < |a| ==> AlikeOrder(a[i], b[i])
    ensures OpenCount(a) == OpenCount(b) && (OpenCount(a) > 0 ==> Earliest(a) == Earliest(b))
  {
    if a != [] {
      AlikeOpen(a[..|a| - 1], b[..|b| - 1]);
    } else {
      assert OpenCount(a) == OpenCount(b) == 0;
    }
  }

  lemma LikeMoved(x: Exchange, y: Exchange, t: Print, stopless: bool)
    requires Like(x, y, stopless) && Good(x) && Good(y)
    ensures Like(AtTrade(x, t), AtTrade(y, t), stopless)
  {
    hide Good;
  }

  lemma {:induction false} SeesAlike(x: Exchange, y: Exchange, ts: seq<Print>, d: Levels, now: int, e: Levels,
                                     later: int, fees: Fees, stopless: bool)
    requires Good(x) && Good(y) && Like(x, y, stopless)
    ensures Like(SawAll(x, ts, d, now, fees), SawAll(y, ts, e, later, fees), stopless)
  {
    hide MetUpTo;
    hide Good;
    hide Like;
    if ts == [] {
    } else {
      var t, before := ts[|ts| - 1], ts[..|ts| - 1];
      SeesAlike(x, y, before, d, now, e, later, fees, stopless);
      var v, w := SawAll(x, before, d, now, fees), SawAll(y, before, e, later, fees);
      LikeMoved(v, w, t, stopless);
      LikeLong(v, w, stopless);
      MeetsAlike(AtTrade(v, t), AtTrade(w, t), |v.orders|, t, d, now, e, later, fees, stopless);
    }
  }

  // ---- splitting a poll -----------------------------------------------------

  /** While nothing is open the reading position is of no use. */
  function AtRest(x: Exchange): Exchange {
    if OpenCount(x.orders) > 0 then x else x.(lastAgg := None, lastTs := None)
  }

  /** Alike in everything that matters. */
  ghost predicate Agrees(x: Exchange, y: Exchange, stopless: bool) {
    Like(AtRest(x), AtRest(y), stopless)
  }

  lemma LikeAgrees(x: Exchange, y: Exchange, stopless: bool)
    requires Like(x, y, stopless)
    ensures Agrees(x, y, stopless)
  {
    LikeLong(x, y, stopless);
    hide OpenCount;
  }

  lemma SameAgrees(x: Exchange, y: Exchange, z: Exchange, stopless: bool)
    requires Like(x, y, stopless) && OpenCount(x.orders) == 0 && Same(z, y)
    ensures Agrees(x, z, stopless)
  {
    LikeAgrees(x, y, stopless);
    LikeLong(x, y, stopless);
    hide OpenCount;
    hide Like;
  }

  lemma LikeSelf(x: Exchange)
    ensures Like(x, x, NoStops(x))
  {
  }

  lemma AgreesTrans(x: Exchange, y: Exchange, z: Exchange, stopless: bool)
    requires Agrees(x, y, stopless) && Agrees(y, z, stopless)
    ensures Agrees(x, z, stopless)
  {
    hide AtRest;
    if !stopless {
      AlikeTrans(AtRest(x), AtRest(y), AtRest(z));
    }
    hide Alike;
  }

  lemma AlikeTrans(x: Exchange, y: Exchange, z: Exchange)
    requires Alike(x, y) && Alike(y, z)
    ensures Alike(x, z)
  {
    hide AlikeOrder;
    hide AlikeFill;
    forall i | 0 <= i < |x.orders| ensures AlikeOrder(x.orders[i], z.orders[i]) {
      AlikeOrderTrans(x.orders[i], y.orders[i], z.orders[i]);
    }
    forall i | 0 <= i < |x.fills| ensures AlikeFill(x.fills[i], z.fills[i]) {
      AlikeFillTrans(x.fills[i], y.fills[i], z.fills[i]);
    }
  }

  lemma AlikeOrderTrans(a: Order, b: Order, c: Order)
    requires AlikeOrder(a, b) && AlikeOrder(b, c)
    ensures AlikeOrder(a, c)
  {
  }

  lemma AlikeFillTrans(a: Fill, b: Fill, c: Fill)
    requires AlikeFill(a, b) && AlikeFill(b, c)
    ensures AlikeFill(a, c)
  {
  }

  lemma SplitInside(x: Exchange, tape: seq<Print>, r: nat, m: nat, n: nat, d: Levels, now: int, e: Levels, later: int,
                    fees: Fees)
    requires Good(x) && OnTape(tape) && r < m <= n <= |tape|
    requires OpenCount(x.orders) > 0 && r == ReadOf(tape, x.lastAgg, Since(x))
    ensures var y := SawAll(x, tape[r..m], d, now, fees);
            Agrees(Polled(y, tape[..n], e, later, fees), SawAll(x, tape[r..n], e, later, fees), NoStops(x))
  {
    hide Good;
    hide OnTape;
    hide SawAll;
    hide TradesAfter;
    hide NoStops;
    hide Unread;
    hide Like;
    hide Agrees;
    var y, v := SawAll(x, tape[r..m], d, now, fees), SawAll(x, tape[r..m], e, later, fees);
    LikeSelf(x);
    SeesAlike(x, x, tape[r..m], d, now, e, later, fees, NoStops(x));
    assert tape[r..n] == tape[r..m] + tape[m..n];
    SawInParts(x, tape[r..m], tape[m..n], e, later, fees);
    var w := SawAll(v, tape[m..n], e, later, fees);
    assert SawAll(x, tape[r..n], e, later, fees) == w;
    if OpenCount(y.orders) == 0 {
      LikeLong(y, v, NoStops(x));
      NothingSees(v, tape[m..n], e, later, fees);
      SameAgrees(y, v, w, NoStops(x));
    } else {
      CursorAfter(x, tape[r..m], d, now, fees);
      assert tape[r..m][m - r - 1] == tape[m - 1];
      PolledFrom(y, tape, m, n, e, later, fees);
      SeesAlike(y, v, tape[m..n], e, later, e, later, fees, NoStops(x));
      LikeAgrees(SawAll(y, tape[m..n], e, later, fees), w, NoStops(x));
    }
  }

  lemma PolledFrom(y: Exchange, tape: seq<Print>, m: nat, n: nat, e: Levels, later: int, fees: Fees)
    requires Good(y) && OnTape(tape) && 0 < m <= n <= |tape| && OpenCount(y.orders) > 0
    requires y.lastAgg == Some(tape[m - 1].agg) && y.lastTs == Some(tape[m - 1].ts)
    ensures Polled(y, tape[..n], e, later, fees) == SawAll(y, tape[m..n], e, later, fees)
  {
    hide Good;
    hide OnTape;
    hide SawAll;
    hide TradesAfter;
    hide ReadOf;
    ReadAt(tape, m - 1);
    NewsUpTo(tape, y.lastAgg, Since(y), n);
  }

  /** Two polls, of the first `m` trades and then of the first `n`, do what one poll of `n` does; only the
      prices of stops depend on the books and moments of the polls. */
  lemma PollSplits(x: Exchange, tape: seq<Print>, m: nat, n: nat, d: Levels, now: int, e: Levels, later: int,
                   fees: Fees)
    requires Good(x) && OnTape(tape) && m <= n <= |tape|
    ensures var y := Polled(x, tape[..m], d, now, fees);
            Agrees(Polled(y, tape[..n], e, later, fees), Polled(x, tape[..n], e, later, fees), NoStops(x))
  {
    hide Good;
    hide OnTape;
    hide SawAll;
    hide TradesAfter;
    hide Since;
    hide NoStops;
    hide Like;
    hide Agrees;
    LikeSelf(Polled(x, tape[..n], e, later, fees));
    if OpenCount(x.orders) > 0 {
      var r := ReadOf(tape, x.lastAgg, Since(x));
      NewsUpTo(tape, x.lastAgg, Since(x), m);
      NewsUpTo(tape, x.lastAgg, Since(x), n);
      if r < m {
        SplitInside(x, tape, r, m, n, d, now, e, later, fees);
      } else {
        SawNothing(x, d, now, fees);
        assert r == m ==> tape[r..m] == [];
        assert Polled(x, tape[..m], d, now, fees) == x;
        OnePolling(x, tape[..n], e, later, fees);
      }
    } else {
      OnePolling(x, tape[..n], e, later, fees);
    }
  }

  lemma OnePolling(x: Exchange, tape: seq<Print>, d: Levels, now: int, fees: Fees)
    requires Good(x)
    ensures var y := Polled(x, tape, d, now, fees); Agrees(y, y, NoStops(x))
  {
    hide Good;
    hide Like;
    hide NoStops;
    hide Agrees;
    hide TradesAfter;
    LikeSelf(x);
    if OpenCount(x.orders) > 0 {
      SeesAlike(x, x, TradesAfter(tape, x.lastAgg, Since(x)), d, now, d, now, fees, NoStops(x));
    }
    LikeAgrees(Polled(x, tape, d, now, fees), Polled(x, tape, d, now, fees), NoStops(x));
  }

  /** Exchanges that agree still do after the same poll. */
  lemma PolledAlike(x: Exchange, y: Exchange, tape: seq<Print>, d: Levels, now: int, fees: Fees, stopless: bool)
    requires Good(x) && Good(y) && Agrees(x, y, stopless)
    ensures Agrees(Polled(x, tape, d, now, fees), Polled(y, tape, d, now, fees), stopless)
  {
    LikeLong(AtRest(x), AtRest(y), stopless);
    hide Good;
    hide Like;
    hide TradesAfter;
    hide SawAll;
    hide OpenCount;
    if OpenCount(x.orders) > 0 {
      var ts := TradesAfter(tape, x.lastAgg, Since(x));
      SeesAlike(x, y, ts, d, now, d, now, fees, stopless);
      LikeAgrees(SawAll(x, ts, d, now, fees), SawAll(y, ts, d, now, fees), stopless);
    }
  }

  lemma SawNothing(x: Exchange, d: Levels, now: int, fees: Fees)
    requires Good(x)
    ensures SawAll(x, [], d, now, fees) == x
  {
  }

  /** One poll: how much of the tape had been published, the book and the clock. */
  datatype Moment = Moment(upTo: nat, d: Levels, now: int)

  ghost function PolledAt(x: Exchange, tape: seq<Print>, polls: seq<Moment>, fees: Fees): (r: Exchange)
    requires Good(x) && forall p :: p in polls ==> p.upTo <= |tape|
    ensures Good(r)
  {
    if polls == [] then x
    else
      var p := polls[|polls| - 1];
      assert p in polls;
      Polled(PolledAt(x, tape, polls[..|polls| - 1], fees), tape[..p.upTo], p.d, p.now, fees)
  }

  /** Any number of polls, at whatever moments and with whatever books, end as the last one alone: with the same
      statuses, position and reading position, and while no stop is open with the same prices and money. */
  lemma {:induction false} AnyPolling(x: Exchange, tape: seq<Print>, polls: seq<Moment>, fees: Fees)
    requires Good(x) && OnTape(tape) && polls != []
    requires forall p :: p in polls ==> p.upTo <= |tape|
    requires forall i, j :: 0 <= i <= j < |polls| ==> polls[i].upTo <= polls[j].upTo
    ensures var last := polls[|polls| - 1];
            last.upTo <= |tape| && Agrees(PolledAt(x, tape, polls, fees),
                                          Polled(x, tape[..last.upTo], last.d, last.now, fees), NoStops(x))
  {
    hide Good;
    hide OnTape;
    hide Agrees;
    hide Polled;
    hide NoStops;
    var k := |polls| - 1;
    assert polls[k] in polls;
    var q := polls[k];
    if k == 0 {
      assert PolledAt(x, tape, polls[..0], fees) == x;
      OnePolling(x, tape[..q.upTo], q.d, q.now, fees);
    } else {
      assert polls[k - 1] in polls;
      AnyPolling(x, tape, polls[..k], fees);
      var p := polls[k - 1];
      var y, z := PolledAt(x, tape, polls[..k], fees), Polled(x, tape[..p.upTo], p.d, p.now, fees);
      PolledAlike(y, z, tape[..q.upTo], q.d, q.now, fees, NoStops(x));
      PollSplits(x, tape, p.upTo, q.upTo, p.d, p.now, q.d, q.now, fees);
      AgreesTrans(Polled(y, tape[..q.upTo], q.d, q.now, fees), Polled(z, tape[..q.upTo], q.d, q.now, fees),
                  Polled(x, tape[..q.upTo], q.d, q.now, fees), NoStops(x));
    }
  }

  // ---- a resting order by definition ----------------------------------------

  /** The trade fires the resting order: it goes through a limit price, or reaches a stop price. */
  predicate Counts(o: Order, t: Print) {
    t.ts > o.placedTs && match o.kind
                         case Limit => Through(o, t)
                         case StopMarket => Hit(o, t.price)
                         case Market => false
  }

  /** Trade `k` of these is the first that fires the order. */
  ghost predicate FirstCount(tape: seq<Print>, o: Order, k: nat) {
    k < |tape| && Counts(o, tape[k]) && forall j :: 0 <= j < k ==> !Counts(o, tape[j])
  }

  ghost predicate FilledAt(x: Exchange, o: Order, t: Print, fees: Fees) {
    Fill(o.id, t.ts, o.side, o.qty, o.price, FeeOf(fees, Notional(o.qty, o.price), Maker), Maker) in x.fills
  }

  /** Open only if nothing among the first `n` trades counted; a filled limit order was filled, whole
      and at its own price, by the first trade that counted. */
  ghost predicate Heeded(x: Exchange, tape: seq<Print>, o: Order, n: nat, fees: Fees) {
    && (IsOpen(o) ==> forall k :: 0 <= k < n && k < |tape| ==> !Counts(o, tape[k]))
    && (o.kind == Limit && o.status == Filled ==>
          exists k: nat :: FirstCount(tape, o, k) && FilledAt(x, o, tape[k], fees))
  }

  ghost predicate AllHeeded(x: Exchange, tape: seq<Print>, n: nat, fees: Fees) {
    forall i :: 0 <= i < |x.orders| ==> Heeded(x, tape, x.orders[i], n, fees)
  }

  lemma FillsStay(x: Exchange, y: Exchange, tape: seq<Print>, o: Order, n: nat, fees: Fees)
    requires Heeded(x, tape, o, n, fees) && x.fills <= y.fills
    ensures Heeded(y, tape, o, n, fees)
  {
    if o.kind == Limit && o.status == Filled {
      var k: nat :| FirstCount(tape, o, k) && FilledAt(x, o, tape[k], fees);
      assert FilledAt(y, o, tape[k], fees);
    }
  }

  lemma MetGrows(x: Exchange, i: nat, t: Print, d: Levels, now: int, fees: Fees)
    requires Good(x) && i < |x.orders|
    ensures x.fills <= Met(x, i, t, d, now, fees).fills
  {
  }

  lemma FiresFirst(x: Exchange, tape: seq<Print>, i: nat, n: nat, fees: Fees)
    requires Good(x) && i < |x.orders| && n < |tape| && Heeded(x, tape, x.orders[i], n, fees)
    requires IsOpen(x.orders[i]) && x.orders[i].kind == Limit && Counts(x.orders[i], tape[n])
    ensures var o, t := x.orders[i], tape[n];
            var r := Executed(Touched(x, o, t), i, o.price, Maker, t.ts, fees);
            Heeded(r, tape, r.orders[i], n + 1, fees)
  {
    var o, t := x.orders[i], tape[n];
    assert WholeOrder(o);
    hide Good;
    hide FeeOf;
    hide Notional;
    var r := Executed(Touched(x, o, t), i, o.price, Maker, t.ts, fees);
    assert FirstCount(tape, r.orders[i], n) && FilledAt(r, r.orders[i], t, fees);
  }

  /** The order that meets trade `n` has heeded one more trade. */
  lemma MetHeeds(x: Exchange, tape: seq<Print>, i: nat, n: nat, d: Levels, now: int, fees: Fees)
    requires Good(x) && i < |x.orders| && n < |tape| && Heeded(x, tape, x.orders[i], n, fees)
    ensures var r := Met(x, i, tape[n], d, now, fees); Heeded(r, tape, r.orders[i], n + 1, fees)
  {
    hide Good;
    hide MarketPrice;
    hide FeeOf;
    hide Notional;
    hide ReduceOk;
    hide Through;
    hide Hit;
    var o, t := x.orders[i], tape[n];
    if !IsOpen(o) || !Counts(o, t) {
      MetGrows(x, i, t, d, now, fees);
      assert Met(x, i, t, d, now, fees).orders[i] == o;
      FillsStay(x, Met(x, i, t, d, now, fees), tape, o, n, fees);
    } else if o.kind == Limit && ReduceOk(x.pos.qty, o) {
      FiresFirst(x, tape, i, n, fees);
      hide Heeded;
      hide Executed;
    } else {
      var r := Met(x, i, t, d, now, fees);
      assert !IsOpen(r.orders[i]) && (r.orders[i].kind == Limit ==> r.orders[i].status == Expired);
      hide Executed;
    }
  }

  lemma {:induction false} MetUpToHeeds(x: Exchange, tape: seq<Print>, i: nat, n: nat, d: Levels, now: int, fees: Fees)
    requires Good(x) && i <= |x.orders| && n < |tape| && AllHeeded(x, tape, n, fees)
    ensures var r := MetUpTo(x, i, tape[n], d, now, fees);
            && x.fills <= r.fills
            && (forall k :: 0 <= k < i ==> Heeded(r, tape, r.orders[k], n + 1, fees))
            && forall k :: i <= k < |x.orders| ==> Heeded(r, tape, r.orders[k], n, fees)
  {
    hide Good;
    hide Met;
    hide Heeded;
    if i == 0 {
    } else {
      MetUpToHeeds(x, tape, i - 1, n, d, now, fees);
      var y := MetUpTo(x, i - 1, tape[n], d, now, fees);
      var r := Met(y, i - 1, tape[n], d, now, fees);
      MetHeeds(y, tape, i - 1, n, d, now, fees);
      MetGrows(y, i - 1, tape[n], d, now, fees);
      forall k | 0 <= k < |x.orders| && k != i - 1
        ensures Heeded(r, tape, r.orders[k], if k < i then n + 1 else n, fees)
      {
        FillsStay(y, r, tape, y.orders[k], if k < i then n + 1 else n, fees);
      }
    }
  }

  lemma SawHeeds(x: Exchange, tape: seq<Print>, n: nat, d: Levels, now: int, fees: Fees)
    requires Good(x) && n < |tape| && AllHeeded(x, tape, n, fees)
    ensures AllHeeded(Saw(x, tape[n], d, now, fees), tape, n + 1, fees)
  {
    hide Heeded;
    var t := tape[n];
    var y := x.(lastAgg := Some(t.agg), lastTs := Some(t.ts));
    assert Good(y);
    forall i | 0 <= i < |x.orders| ensures Heeded(y, tape, y.orders[i], n, fees) {
      FillsStay(x, y, tape, x.orders[i], n, fees);
    }
    MetUpToHeeds(y, tape, |y.orders|, n, d, now, fees);
  }

  lemma {:induction false} SawAllHeeds(x: Exchange, tape: seq<Print>, r: nat, m: nat, d: Levels, now: int, fees: Fees)
    requires Good(x) && r <= m <= |tape| && AllHeeded(x, tape, r, fees)
    ensures AllHeeded(SawAll(x, tape[r..m], d, now, fees), tape, m, fees)
    decreases m
  {
    hide Good;
    hide Saw;
    hide AllHeeded;
    if r < m {
      SawAllHeeds(x, tape, r, m - 1, d, now, fees);
      assert tape[r..m][..m - r - 1] == tape[r..m - 1];
      SawHeeds(SawAll(x, tape[r..m - 1], d, now, fees), tape, m - 1, d, now, fees);
    } else {
      assert tape[r..m] == [];
    }
  }

  // ---- whole runs -----------------------------------------------------------

  datatype Step =
    | PlaceMarket(side: Side, qty: real, id: string, reduceOnly: bool, d: Levels, now: int)
    | PlaceGtx(side: Side, qty: real, price: real, id: string, reduceOnly: bool, d: Levels, now: int)
    | PlaceStop(side: Side, qty: real, price: real, id: string, last: real, now: int)
    | Cancel(id: string)
    | CancelEvery
    | Poll(upTo: nat, d: Levels, now: int)

  function Next(x: Exchange, step: Step, tape: seq<Print>, fees: Fees): (r: Exchange)
    requires Good(x)
    ensures Good(r)
  {
    match step
    case PlaceMarket(side, qty, id, reduceOnly, d, now) => MarketPlaced(x, side, qty, id, reduceOnly, d, now, fees)
    case PlaceGtx(side, qty, price, id, reduceOnly, d, now) => GtxPlaced(x, side, qty, price, id, reduceOnly, d, now)
    case PlaceStop(side, qty, price, id, last, now) => StopPlaced(x, side, qty, price, id, last, now)
    case Cancel(id) => CancelDone(x, id)
    case CancelEvery => AllCanceled(x, 0)
    case Poll(n, d, now) => Polled(x, tape[..if n < |tape| then n else |tape|], d, now, fees)
  }

  /** The order a placing step is about to rest. */
  function Resting(step: Step): Order
    requires step.PlaceGtx? || step.PlaceStop?
  {
    if step.PlaceGtx? then NewOrder(step.id, step.side, Limit, step.qty, step.price, step.reduceOnly, step.now)
    else NewOrder(step.id, step.side, StopMarket, step.qty, step.price, true, step.now)
  }

  /** It will rest: its id is new, and the exchange neither refuses nor closes it. */
  predicate WillRest(x: Exchange, step: Step) {
    && (step.PlaceGtx? || step.PlaceStop?) && IndexOf(x.orders, step.id).None? && step.qty > 0.0
    && if step.PlaceGtx? then ReduceOk(x.pos.qty, Resting(step)) && !Crosses(step.side, step.price, step.d)
       else !Hit(Resting(step), step.last)
  }

  ghost function Run(steps: seq<Step>, tape: seq<Print>, fees: Fees): (r: Exchange)
    ensures Good(r)
  {
    if steps == [] then EMPTY_EXCHANGE else Next(Run(steps[..|steps| - 1], tape, fees), steps[|steps| - 1], tape, fees)
  }

  ghost function ReadBy(x: Exchange, tape: seq<Print>): (n: nat)
    ensures n <= |tape|
  {
    if x.lastTs.None? then 0 else ReadOf(tape, x.lastAgg, x.lastTs.value)
  }

  /** While others rest: no trade already read for them would have fired the new order. */
  ghost predicate Heedful(x: Exchange, step: Step, tape: seq<Print>) {
    WillRest(x, step) && OpenCount(x.orders) > 0 ==>
      forall k :: 0 <= k < ReadBy(x, tape) ==> !Counts(Resting(step), tape[k])
  }

  ghost predicate AlwaysHeedful(steps: seq<Step>, tape: seq<Print>, fees: Fees) {
    forall n :: 0 <= n < |steps| ==> Heedful(Run(steps[..n], tape, fees), steps[n], tape)
  }

  ghost predicate CursorOn(x: Exchange, tape: seq<Print>) {
    && (OpenCount(x.orders) > 0 ==> x.lastTs.Some?)
    && (x.lastAgg.Some? ==>
          exists k :: 0 <= k < |tape| && Some(tape[k].agg) == x.lastAgg && Some(tape[k].ts) == x.lastTs)
  }

  ghost predicate Tracked(x: Exchange, tape: seq<Print>, fees: Fees) {
    CursorOn(x, tape) && AllHeeded(x, tape, ReadBy(x, tape), fees)
  }

  lemma ReadIsOld(x: Exchange, tape: seq<Print>, k: nat)
    requires OnTape(tape) && CursorOn(x, tape) && k < ReadBy(x, tape)
    ensures x.lastTs.Some? && tape[k].ts <= x.lastTs.value
  {
    ReadBelow(tape, x.lastAgg, x.lastTs.value, k);
  }

  /** Orders that are left alone or closed unfilled stay heeded. */
  lemma Carried(x: Exchange, y: Exchange, tape: seq<Print>, n: nat, m: nat, fees: Fees)
    requires AllHeeded(x, tape, n, fees) && |x.orders| <= |y.orders| && x.fills <= y.fills
    requires forall i :: 0 <= i < |x.orders| ==>
               y.orders[i] == x.orders[i] || (!IsOpen(y.orders[i]) && y.orders[i].status != Filled)
    requires m <= n || forall i :: 0 <= i < |x.orders| ==> !IsOpen(y.orders[i])
    ensures forall i :: 0 <= i < |x.orders| ==> Heeded(y, tape, y.orders[i], m, fees)
  {
    forall i | 0 <= i < |x.orders| ensures Heeded(y, tape, y.orders[i], m, fees) {
      if y.orders[i] == x.orders[i] {
        FillsStay(x, y, tape, x.orders[i], n, fees);
      }
    }
  }

  lemma MarketTracks(x: Exchange, step: Step, tape: seq<Print>, fees: Fees)
    requires Good(x) && Tracked(x, tape, fees) && step.PlaceMarket?
    ensures Tracked(Next(x, step, tape, fees), tape, fees)
  {
    hide Good;
    hide Heeded;
    hide MarketPrice;
    hide FeeOf;
    var y := Next(x, step, tape, fees);
    Carried(x, y, tape, ReadBy(x, tape), ReadBy(x, tape), fees);
    if y != x {
      ClosedHeeded(y, tape, y.orders[|x.orders|], ReadBy(y, tape), fees);
    }
  }

  lemma ClosedHeeded(x: Exchange, tape: seq<Print>, o: Order, n: nat, fees: Fees)
    requires !IsOpen(o) && (o.kind == Limit ==> o.status != Filled)
    ensures Heeded(x, tape, o, n, fees)
  {
  }

  /** A clock that is not behind the trades read makes a placement heedful. */
  lemma InTimeHeeds(x: Exchange, step: Step, tape: seq<Print>)
    requires OnTape(tape) && CursorOn(x, tape) && (step.PlaceGtx? || step.PlaceStop?)
    requires x.lastTs.Some? ==> x.lastTs.value <= step.now
    ensures Heedful(x, step, tape)
  {
    forall k | 0 <= k < ReadBy(x, tape) ensures !Counts(Resting(step), tape[k]) {
      ReadIsOld(x, tape, k);
    }
  }

  /** The first resting order starts the reading at its own time. */
  lemma FirstHeeds(x: Exchange, tape: seq<Print>, o: Order)
    requires OnTape(tape) && CursorOn(x, tape) && x.lastTs == Some(o.placedTs)
    ensures forall k :: 0 <= k < ReadBy(x, tape) ==> !Counts(o, tape[k])
  {
    forall k | 0 <= k < ReadBy(x, tape) ensures !Counts(o, tape[k]) {
      ReadIsOld(x, tape, k);
    }
  }

  lemma OpenHeeded(x: Exchange, tape: seq<Print>, o: Order, n: nat, fees: Fees)
    requires IsOpen(o)
    ensures Heeded(x, tape, o, n, fees) <==> forall k :: 0 <= k < n && k < |tape| ==> !Counts(o, tape[k])
  {
  }

  lemma NewRests(x: Exchange, y: Exchange, o: Order, tape: seq<Print>, fees: Fees)
    requires Good(y) && Tracked(x, tape, fees) && OnTape(tape) && IsOpen(o)
    requires y.orders == x.orders + [o] && y.fills == x.fills
    requires y.lastAgg == x.lastAgg && y.lastTs == x.lastTs
    requires OpenCount(x.orders) > 0 ==> forall k :: 0 <= k < ReadBy(x, tape) ==> !Counts(o, tape[k])
    ensures Tracked(CursorFor(y, o), tape, fees)
  {
    hide Good;
    hide Heeded;
    hide OnTape;
    hide ReadBy;
    var z := CursorFor(y, o);
    assert y.orders[..|x.orders|] == x.orders;
    assert forall i :: 0 <= i < |x.orders| ==> z.orders[i] == x.orders[i];
    assert CursorOn(z, tape);
    Carried(x, z, tape, ReadBy(x, tape), ReadBy(z, tape), fees) by {
      if OpenCount(x.orders) > 0 {
        SameReading(x, z, tape);
      }
    }
    assert z.orders[|x.orders|] == o;
    if OpenCount(x.orders) > 0 {
      SameReading(x, z, tape);
    } else {
      FirstHeeds(z, tape, o);
    }
    OpenHeeded(z, tape, o, ReadBy(z, tape), fees);
  }

  lemma SameReading(x: Exchange, y: Exchange, tape: seq<Print>)
    requires x.lastAgg == y.lastAgg && x.lastTs == y.lastTs
    ensures ReadBy(x, tape) == ReadBy(y, tape)
  {
  }

  /** An order that is closed before it could rest changes nothing for the others. */
  lemma NeverRests(x: Exchange, y: Exchange, o: Order, tape: seq<Print>, fees: Fees)
    requires Tracked(x, tape, fees) && !IsOpen(o) && o.status != Filled
    requires y.orders == x.orders + [o] && y.fills == x.fills && y.lastAgg == x.lastAgg && y.lastTs == x.lastTs
    ensures Tracked(y, tape, fees)
  {
    hide Heeded;
    SameReading(x, y, tape);
    hide ReadBy;
    assert y.orders[..|x.orders|] == x.orders;
    Carried(x, y, tape, ReadBy(x, tape), ReadBy(x, tape), fees);
    ClosedHeeded(y, tape, o, ReadBy(x, tape), fees);
  }

  /** What placing a resting order does: nothing, or one more order that rests or is closed at once. */
  ghost predicate Adds(x: Exchange, y: Exchange, step: Step)
    requires step.PlaceGtx? || step.PlaceStop?
  {
    (y == x && !WillRest(x, step))
    || (|y.orders| == |x.orders| + 1
        && var o := y.orders[|x.orders|];
           && y.orders == x.orders + [o] && y.fills == x.fills && (IsOpen(o) <==> WillRest(x, step))
           && var z := x.(orders := x.orders + [o]);
              && Good(z)
              && (if IsOpen(o) then o == Resting(step) && y == CursorFor(z, o) else o.status != Filled && y == z))
  }

  lemma GtxAdds(x: Exchange, step: Step, tape: seq<Print>, fees: Fees)
    requires Good(x) && step.PlaceGtx?
    ensures Adds(x, Next(x, step, tape, fees), step)
  {
    hide ReduceOk;
    hide Crosses;
    hide IndexOf;
    hide OpenCount;
    hide RealFills;
    hide PositionOf;
    if Next(x, step, tape, fees) != x {
      var o := Resting(step);
      assert Good(Registered(x, o)) && Good(Closed(Registered(x, o), |x.orders|, Expired));
      hide Good;
    }
  }

  lemma StopAdds(x: Exchange, step: Step, tape: seq<Print>, fees: Fees)
    requires Good(x) && step.PlaceStop?
    ensures Adds(x, Next(x, step, tape, fees), step)
  {
    var y := Next(x, step, tape, fees);
    if y != x {
      var o := NewOrder(step.id, step.side, StopMarket, step.qty, step.price, true, step.now);
      assert Good(Registered(x, o)) && Good(Closed(Registered(x, o), |x.orders|, Rejected));
      hide Good;
    }
  }

  /** A post-only order never takes: placing it fills nothing, and it rests exactly if it would not
      cross the book and, when reduce-only, is against the position and no larger. */
  lemma GtxNeverTakes(x: Exchange, step: Step, tape: seq<Print>, fees: Fees)
    requires Good(x) && step.PlaceGtx? && IndexOf(x.orders, step.id).None? && step.qty > 0.0
    ensures var y := Next(x, step, tape, fees);
            && y.fills == x.fills && y.pos == x.pos && |y.orders| == |x.orders| + 1
            && (IsOpen(y.orders[|x.orders|]) <==>
                !Crosses(step.side, step.price, step.d)
                  && (step.reduceOnly ==> Reduces(x.pos.qty, step.side, step.qty)))
  {
    hide Good;
    hide Crosses;
    hide Reduces;
    hide IndexOf;
    hide OpenCount;
    var o := NewOrder(step.id, step.side, Limit, step.qty, step.price, step.reduceOnly, step.now);
    assert ReduceOk(x.pos.qty, o) <==> (step.reduceOnly ==> Reduces(x.pos.qty, step.side, step.qty));
    hide ReduceOk;
    assert Registered(x, o).orders == x.orders + [o];
  }

  /** A stop whose price the market has already reached is rejected, any other rests; neither fills. */
  lemma StopNeverFillsAtOnce(x: Exchange, step: Step, tape: seq<Print>, fees: Fees)
    requires Good(x) && step.PlaceStop? && IndexOf(x.orders, step.id).None? && step.qty > 0.0
    ensures var y := Next(x, step, tape, fees);
            && y.fills == x.fills && y.pos == x.pos && |y.orders| == |x.orders| + 1
            && y.orders[|x.orders|].reduceOnly
            && y.orders[|x.orders|].status
               == if (if step.side == Sell then step.last <= step.price else step.last >= step.price)
                  then Rejected else New
  {
    hide Good;
    hide IndexOf;
    hide OpenCount;
    var o := NewOrder(step.id, step.side, StopMarket, step.qty, step.price, true, step.now);
    assert Registered(x, o).orders == x.orders + [o];
  }

  /** A repeated id places nothing and answers with the order it already names. */
  lemma RepeatedId(x: Exchange, step: Step, i: nat, tape: seq<Print>, fees: Fees)
    requires Good(x) && (step.PlaceMarket? || step.PlaceGtx? || step.PlaceStop?)
    requires i < |x.orders| && x.orders[i].id == step.id
    ensures Next(x, step, tape, fees) == x && ReplyTo(x, step.id) == Got(x.orders[i])
  {
    assert IndexOf(x.orders, step.id) == Some(i);
    hide Good;
  }

  lemma UnheedfulShows(x: Exchange, y: Exchange, o: Order, tape: seq<Print>, fees: Fees)
    requires y.orders == x.orders + [o] && IsOpen(o) && y.lastAgg == x.lastAgg && y.lastTs == x.lastTs
    requires exists k :: 0 <= k < ReadBy(x, tape) && Counts(o, tape[k])
    ensures !Tracked(y, tape, fees)
  {
    SameReading(x, y, tape);
    hide ReadBy;
    hide Counts;
    OpenHeeded(y, tape, o, ReadBy(y, tape), fees);
    assert y.orders[|x.orders|] == o;
  }

  lemma AddedTracks(x: Exchange, y: Exchange, tape: seq<Print>, fees: Fees, step: Step)
    requires Good(x) && Tracked(x, tape, fees) && OnTape(tape) && (step.PlaceGtx? || step.PlaceStop?)
             && Adds(x, y, step)
    ensures Tracked(y, tape, fees) <==> Heedful(x, step, tape)
  {
    hide AllHeeded;
    hide OnTape;
    hide WillRest;
    if y != x {
      var o := y.orders[|x.orders|];
      var z := x.(orders := x.orders + [o]);
      assert CursorOn(x, tape) && Good(z);
      hide Good;
      if IsOpen(o) {
        if Heedful(x, step, tape) {
          NewRests(x, z, o, tape, fees);
        } else {
          UnheedfulShows(x, y, o, tape, fees);
        }
      } else {
        NeverRests(x, z, o, tape, fees);
      }
    }
  }

  lemma RestingTracks(x: Exchange, step: Step, tape: seq<Print>, fees: Fees)
    requires Good(x) && Tracked(x, tape, fees) && (step.PlaceGtx? || step.PlaceStop?) && OnTape(tape)
    ensures Tracked(Next(x, step, tape, fees), tape, fees) <==> Heedful(x, step, tape)
  {
    if step.PlaceGtx? {
      GtxAdds(x, step, tape, fees);
    } else {
      StopAdds(x, step, tape, fees);
    }
    AddedTracks(x, Next(x, step, tape, fees), tape, fees, step);
    hide *;
  }

  lemma CloseTracks(x: Exchange, i: nat, tape: seq<Print>, fees: Fees)
    requires Good(x) && Tracked(x, tape, fees) && i < |x.orders| && IsOpen(x.orders[i])
    ensures Tracked(Closed(x, i, Canceled), tape, fees)
  {
    hide Good;
    hide Heeded;
    Carried(x, Closed(x, i, Canceled), tape, ReadBy(x, tape), ReadBy(x, tape), fees);
  }

  lemma {:induction false} CancelEveryTracks(x: Exchange, i: nat, tape: seq<Print>, fees: Fees)
    requires Good(x) && i <= |x.orders| && Tracked(x, tape, fees)
    ensures Tracked(AllCanceled(x, i), tape, fees)
    decreases |x.orders| - i
  {
    hide Tracked;
    if i == |x.orders| {
    } else {
      if IsOpen(x.orders[i]) {
        CloseTracks(x, i, tape, fees);
        CancelEveryTracks(Closed(x, i, Canceled), i + 1, tape, fees);
      } else {
        CancelEveryTracks(x, i + 1, tape, fees);
      }
    }
  }

  /** After reading the first `n` trades, an open order has heeded them all. */
  lemma PollTracks(x: Exchange, n: nat, d: Levels, now: int, tape: seq<Print>, fees: Fees)
    requires Good(x) && Tracked(x, tape, fees) && OnTape(tape) && n <= |tape|
    ensures var y := Polled(x, tape[..n], d, now, fees);
            Tracked(y, tape, fees) && (OpenCount(y.orders) > 0 ==> n <= ReadBy(y, tape))
  {
    hide Good;
    hide OnTape;
    hide SawAll;
    hide TradesAfter;
    hide AllHeeded;
    if OpenCount(x.orders) > 0 {
      var r := ReadBy(x, tape);
      NewsUpTo(tape, x.lastAgg, Since(x), n);
      if r < n {
        ReadsOn(x, r, n, d, now, tape, fees);
      } else {
        SawNothing(x, d, now, fees);
        assert r == n ==> tape[r..n] == [];
        assert Polled(x, tape[..n], d, now, fees) == x;
      }
    }
  }

  lemma ReadsOn(x: Exchange, r: nat, n: nat, d: Levels, now: int, tape: seq<Print>, fees: Fees)
    requires Good(x) && AllHeeded(x, tape, r, fees) && OnTape(tape) && r < n <= |tape|
    ensures var y := SawAll(x, tape[r..n], d, now, fees); Tracked(y, tape, fees) && ReadBy(y, tape) == n
  {
    hide Good;
    hide OnTape;
    hide SawAll;
    hide AllHeeded;
    hide ReadOf;
    var y := SawAll(x, tape[r..n], d, now, fees);
    SawAllHeeds(x, tape, r, n, d, now, fees);
    CursorAfter(x, tape[r..n], d, now, fees);
    ReadAt(tape, n - 1);
    assert tape[r..n][n - r - 1] == tape[n - 1];
    assert CursorOn(y, tape);
  }

  lemma NextTracks(x: Exchange, step: Step, tape: seq<Print>, fees: Fees)
    requires Good(x) && Tracked(x, tape, fees) && OnTape(tape)
    ensures Tracked(Next(x, step, tape, fees), tape, fees) <==> Heedful(x, step, tape)
  {
    hide Tracked;
    hide ReadBy;
    hide Counts;
    match step {
      case PlaceMarket(_, _, _, _, _, _) => MarketTracks(x, step, tape, fees);
      case PlaceGtx(_, _, _, _, _, _, _) => RestingTracks(x, step, tape, fees);
      case PlaceStop(_, _, _, _, _, _) => RestingTracks(x, step, tape, fees);
      case Cancel(id) =>
        var i := IndexOf(x.orders, id);
        if i.Some? && IsOpen(x.orders[i.value]) {
          CloseTracks(x, i.value, tape, fees);
        }
      case CancelEvery => CancelEveryTracks(x, 0, tape, fees);
      case Poll(n, d, now) => PollTracks(x, if n < |tape| then n else |tape|, d, now, tape, fees);
    }
  }

  lemma ShorterHeedful(steps: seq<Step>, tape: seq<Print>, fees: Fees, n: nat)
    requires n <= |steps| && AlwaysHeedful(steps, tape, fees)
    ensures AlwaysHeedful(steps[..n], tape, fees)
  {
    hide Heedful;
    hide Run;
    forall m | 0 <= m < n ensures Heedful(Run(steps[..n][..m], tape, fees), steps[..n][m], tape) {
      assert steps[..n][..m] == steps[..m];
    }
  }

  lemma {:induction false} RunTracks(steps: seq<Step>, tape: seq<Print>, fees: Fees)
    requires OnTape(tape) && AlwaysHeedful(steps, tape, fees)
    ensures Tracked(Run(steps, tape, fees), tape, fees)
  {
    hide Tracked;
    hide Next;
    hide OnTape;
    hide Heedful;
    if steps == [] {
      EmptyTracks(tape, fees);
    } else {
      var k := |steps| - 1;
      ShorterHeedful(steps, tape, fees, k);
      RunTracks(steps[..k], tape, fees);
      NextTracks(Run(steps[..k], tape, fees), steps[k], tape, fees);
    }
  }

  /** Every order has heeded every trade read, after every step of a run, if and only if every placement
      that comes to rest is heedful. */
  lemma TrackingIsExact(steps: seq<Step>, tape: seq<Print>, fees: Fees)
    requires OnTape(tape)
    ensures (forall n :: 0 <= n <= |steps| ==> Tracked(Run(steps[..n], tape, fees), tape, fees))
       <==> AlwaysHeedful(steps, tape, fees)
  {
    hide Tracked;
    hide OnTape;
    hide Heedful;
    hide Next;
    hide Run;
    if AlwaysHeedful(steps, tape, fees) {
      forall n | 0 <= n <= |steps| ensures Tracked(Run(steps[..n], tape, fees), tape, fees) {
        ShorterHeedful(steps, tape, fees, n);
        RunTracks(steps[..n], tape, fees);
      }
    } else {
      var n :| 0 <= n < |steps| && !Heedful(Run(steps[..n], tape, fees), steps[n], tape);
      RunOneMore(steps[..n], steps[n], tape, fees);
      assert steps[..n] + [steps[n]] == steps[..n + 1];
      if Tracked(Run(steps[..n], tape, fees), tape, fees) {
        NextTracks(Run(steps[..n], tape, fees), steps[n], tape, fees);
      }
    }
  }

  lemma EmptyTracks(tape: seq<Print>, fees: Fees)
    ensures Tracked(EMPTY_EXCHANGE, tape, fees)
  {
  }

  /** The state of a resting order after any run that ends with a poll, from the order and the tape
      alone: it is open only if no published trade since it was placed fires it; a filled limit order
      was filled whole, at its own price, as maker, by the first trade that did. */
  lemma RestingByDefinition(steps: seq<Step>, tape: seq<Print>, fees: Fees, n: nat, d: Levels, now: int, o: Order)
    requires OnTape(tape) && AlwaysHeedful(steps, tape, fees) && n <= |tape|
    requires o in Run(steps + [Poll(n, d, now)], tape, fees).orders
    ensures IsOpen(o) ==> forall k :: 0 <= k < n ==> !Counts(o, tape[k])
    ensures o.kind == Limit && o.status == Filled ==>
              exists k: nat :: FirstCount(tape, o, k)
                && FilledAt(Run(steps + [Poll(n, d, now)], tape, fees), o, tape[k], fees)
  {
    hide OnTape;
    hide Tracked;
    hide Polled;
    hide Good;
    hide SawAll;
    hide AlwaysHeedful;
    hide Run;
    var x := Run(steps, tape, fees);
    RunTracks(steps, tape, fees);
    RunOneMore(steps, Poll(n, d, now), tape, fees);
    PollTracks(x, n, d, now, tape, fees);
    TrackedOrder(Run(steps + [Poll(n, d, now)], tape, fees), tape, o, n, fees);
  }

  lemma RunOneMore(steps: seq<Step>, step: Step, tape: seq<Print>, fees: Fees)
    ensures Run(steps + [step], tape, fees) == Next(Run(steps, tape, fees), step, tape, fees)
  {
    hide Next;
    assert (steps + [step])[..|steps|] == steps;
  }

  lemma TrackedOrder(x: Exchange, tape: seq<Print>, o: Order, n: nat, fees: Fees)
    requires Tracked(x, tape, fees) && o in x.orders && n <= |tape|
    requires OpenCount(x.orders) > 0 ==> n <= ReadBy(x, tape)
    ensures IsOpen(o) ==> forall k :: 0 <= k < n ==> !Counts(o, tape[k])
    ensures o.kind == Limit && o.status == Filled ==>
              exists k: nat :: FirstCount(tape, o, k) && FilledAt(x, o, tape[k], fees)
  {
    var i :| 0 <= i < |x.orders| && x.orders[i] == o;
    assert Heeded(x, tape, x.orders[i], ReadBy(x, tape), fees);
    assert IsOpen(o) ==> OpenCount(x.orders) > 0;
  }

  /** Why the clock matters: an order stamped earlier than a trade that was already read for another
      order never meets that trade, although the trade went through its price "after" it was placed. */
  lemma MissedTrade(x: Exchange, tape: seq<Print>, k: nat, side: Side, qty: real, price: real, id: string,
                    d: Levels, now: int, e: Levels, later: int, fees: Fees)
    requires Good(x) && OnTape(tape) && CursorOn(x, tape) && OpenCount(x.orders) > 0 && k < ReadBy(x, tape)
    requires IndexOf(x.orders, id).None? && qty > 0.0 && !Crosses(side, price, d)
    requires Counts(NewOrder(id, side, Limit, qty, price, false, now), tape[k])
    ensures !Heedful(x, PlaceGtx(side, qty, price, id, false, d, now), tape)
    ensures var y := GtxPlaced(x, side, qty, price, id, false, d, now);
            var o := y.orders[|x.orders|];
            Polled(y, tape[..k + 1], e, later, fees) == y && IsOpen(o) && Counts(o, tape[k])
  {
    hide Good;
    hide OnTape;
    hide TradesAfter;
    ReadIsOld(x, tape, k);
    var y := GtxPlaced(x, side, qty, price, id, false, d, now);
    assert OpenCount(y.orders) > 1 by {
      assert y.orders[..|x.orders|] == x.orders;
    }
    NewsUpTo(tape, y.lastAgg, Since(y), k + 1);
    assert k + 1 == ReadBy(x, tape) ==> tape[k + 1..k + 1] == [];
    SawNothing(y, e, later, fees);
  }

  // ---- what becomes of an order that rests ----------------------------------

  /** Filled whole, or closed because it no longer reduces. */
  ghost predicate ClosedBy(was: Order, o: Order) {
    o == was.(status := Filled, filled := was.qty, avg := o.avg) || (was.reduceOnly && o == was.(status := Expired))
  }

  lemma MetOpen(x: Exchange, i: nat, t: Print, d: Levels, now: int, fees: Fees)
    requires Good(x) && i < |x.orders|
    ensures var o := Met(x, i, t, d, now, fees).orders[i];
            if IsOpen(x.orders[i]) && Counts(x.orders[i], t) then ClosedBy(x.orders[i], o) && !IsOpen(o)
            else o == x.orders[i]
  {
    assert WholeOrder(x.orders[i]);
    hide Good;
    hide FeeOf;
    hide Notional;
    hide MarketPrice;
    hide Reduces;
  }

  lemma {:induction false} MetUpToOpen(x: Exchange, j: nat, t: Print, d: Levels, now: int, fees: Fees)
    requires Good(x) && j <= |x.orders|
    ensures var y := MetUpTo(x, j, t, d, now, fees);
            forall i :: 0 <= i < |x.orders| ==>
              if i < j && IsOpen(x.orders[i]) && Counts(x.orders[i], t)
              then ClosedBy(x.orders[i], y.orders[i]) && !IsOpen(y.orders[i])
              else y.orders[i] == x.orders[i]
  {
    hide Good;
    hide Met;
    hide Counts;
    hide ClosedBy;
    if j == 0 {
    } else {
      MetUpToOpen(x, j - 1, t, d, now, fees);
      MetOpen(MetUpTo(x, j - 1, t, d, now, fees), j - 1, t, d, now, fees);
    }
  }

  /** An order after trades were read: as it was, or closed by the first that fired it. */
  ghost predicate Answered(ts: seq<Print>, was: Order, o: Order) {
    if !IsOpen(was) || (forall t :: t in ts ==> !Counts(was, t)) then o == was
    else ClosedBy(was, o) && !IsOpen(o) && exists k: nat :: FirstCount(ts, was, k)
  }

  lemma {:induction false} SawAllOpen(x: Exchange, ts: seq<Print>, d: Levels, now: int, fees: Fees)
    requires Good(x)
    ensures var y := SawAll(x, ts, d, now, fees);
            forall i :: 0 <= i < |x.orders| ==> Answered(ts, x.orders[i], y.orders[i])
  {
    hide MetUpTo;
    hide Counts;
    hide ClosedBy;
    if ts == [] {
    } else {
      var n := |ts| - 1;
      var y := SawAll(x, ts[..n], d, now, fees);
      var z := y.(lastAgg := Some(ts[n].agg), lastTs := Some(ts[n].ts));
      assert Good(z);
      hide Good;
      SawAllOpen(x, ts[..n], d, now, fees);
      MetUpToOpen(z, |z.orders|, ts[n], d, now, fees);
      var w := SawAll(x, ts, d, now, fees);
      assert w == MetUpTo(z, |z.orders|, ts[n], d, now, fees);
      hide SawAll;
      forall i | 0 <= i < |x.orders| ensures Answered(ts, x.orders[i], w.orders[i]) {
        OneMoreAnswer(ts, x.orders[i], y.orders[i], w.orders[i]);
      }
    }
  }

  lemma OneMoreAnswer(ts: seq<Print>, was: Order, mid: Order, o: Order)
    requires ts != [] && Answered(ts[..|ts| - 1], was, mid)
    requires if IsOpen(mid) && Counts(mid, ts[|ts| - 1]) then ClosedBy(mid, o) && !IsOpen(o) else o == mid
    ensures Answered(ts, was, o)
  {
    hide Counts;
    hide ClosedBy;
    var n := |ts| - 1;
    assert ts == ts[..n] + [ts[n]];
    assert forall t :: t in ts <==> t in ts[..n] || t == ts[n];
    if IsOpen(was) {
      if forall t :: t in ts[..n] ==> !Counts(was, t) {
        if Counts(was, ts[n]) {
          assert forall j :: 0 <= j < n ==> ts[..n][j] == ts[j] && ts[j] in ts[..n];
          assert FirstCount(ts, was, n);
        }
      } else {
        var k: nat :| FirstCount(ts[..n], was, k);
        assert forall j :: 0 <= j < n ==> ts[..n][j] == ts[j];
        assert FirstCount(ts, was, k) && ts[k] in ts;
      }
    }
  }

  // ---- and what it gets -----------------------------------------------------

  /** The price at which a fired order is filled: its own, or the walk price of the book `d` for a stop. */
  function FiredPrice(o: Order, d: Levels): real
    requires Remaining(o) > 0.0
  {
    if o.kind == Limit then o.price else MarketPrice(o, d)
  }

  /** What a trade makes of an order it fires while `held` is held. */
  function Outcome(o: Order, held: real, d: Levels): Order
    requires Remaining(o) > 0.0
  {
    if ReduceOk(held, o) then o.(status := Filled, filled := o.qty, avg := FiredPrice(o, d)) else o.(status := Expired)
  }

  /** A limit order is filled as maker at the time of the trade, a stop as taker when the trade is read. */
  function FillOf(o: Order, t: Print, d: Levels, now: int, fees: Fees): Fill
    requires Remaining(o) > 0.0
  {
    var px, liq := FiredPrice(o, d), if o.kind == Limit then Maker else Taker;
    Fill(o.id, if o.kind == Limit then t.ts else now, o.side, o.qty, px, FeeOf(fees, Notional(o.qty, px), liq), liq)
  }

  /** That is what became of it, and its fill is on record. */
  ghost predicate Done(was: Order, held: real, t: Print, d: Levels, now: int, fees: Fees, o: Order, fills: seq<Fill>) {
    && Remaining(was) > 0.0 && o == Outcome(was, held, d)
    && (ReduceOk(held, was) ==> FillOf(was, t, d, now, fees) in fills)
  }

  lemma MetDone(x: Exchange, i: nat, t: Print, d: Levels, now: int, fees: Fees)
    requires Good(x) && i < |x.orders| && IsOpen(x.orders[i]) && Counts(x.orders[i], t)
    ensures var y := Met(x, i, t, d, now, fees);
            Done(x.orders[i], x.pos.qty, t, d, now, fees, y.orders[i], y.fills)
  {
    var o := x.orders[i];
    assert WholeOrder(o);
    hide Good;
    hide FeeOf;
    hide Notional;
    hide MarketPrice;
    hide ReduceOk;
    if ReduceOk(x.pos.qty, o) {
      var (px, liq, ts) := if o.kind == Limit then (o.price, Maker, t.ts) else (MarketPrice(o, d), Taker, now);
      var y := Executed(Touched(x, o, t), i, px, liq, ts, fees);
      assert Met(x, i, t, d, now, fees) == y;
      assert y.fills[|x.fills|] == FillOf(o, t, d, now, fees);
      hide Counts;
    }
  }

  /** The orders that meet the trade later leave the earlier ones and their fills alone. */
  lemma {:induction false} MetOnward(x: Exchange, i: nat, j: nat, t: Print, d: Levels, now: int, fees: Fees)
    requires Good(x) && i < j <= |x.orders|
    ensures MetUpTo(x, j, t, d, now, fees).orders[i] == MetUpTo(x, i + 1, t, d, now, fees).orders[i]
    ensures MetUpTo(x, i + 1, t, d, now, fees).fills <= MetUpTo(x, j, t, d, now, fees).fills
  {
    hide Good;
    hide Met;
    if j == i + 1 {
    } else {
      MetOnward(x, i, j - 1, t, d, now, fees);
      MetGrows(MetUpTo(x, j - 1, t, d, now, fees), j - 1, t, d, now, fees);
    }
  }

  lemma {:induction false} SawAllGrows(x: Exchange, ts: seq<Print>, d: Levels, now: int, fees: Fees)
    requires Good(x)
    ensures x.fills <= SawAll(x, ts, d, now, fees).fills
  {
    if ts == [] {
    } else {
      var n := |ts| - 1;
      SawAllGrows(x, ts[..n], d, now, fees);
      SawGrows(SawAll(x, ts[..n], d, now, fees), ts[n], d, now, fees);
    }
    hide Good;
    hide Saw;
  }

  lemma SawGrows(x: Exchange, t: Print, d: Levels, now: int, fees: Fees)
    requires Good(x)
    ensures x.fills <= Saw(x, t, d, now, fees).fills
  {
    var z := AtTrade(x, t);
    MetUpToGrows(z, |z.orders|, t, d, now, fees);
    hide Good;
    hide MetUpTo;
  }

  lemma {:induction false} MetUpToGrows(x: Exchange, j: nat, t: Print, d: Levels, now: int, fees: Fees)
    requires Good(x) && j <= |x.orders|
    ensures x.fills <= MetUpTo(x, j, t, d, now, fees).fills
  {
    hide Good;
    hide Met;
    if j == 0 {
    } else {
      MetUpToGrows(x, j - 1, t, d, now, fees);
      MetGrows(MetUpTo(x, j - 1, t, d, now, fees), j - 1, t, d, now, fees);
    }
  }

  /** The exchange just before order `i` meets trade `k` of those being read. */
  ghost function Before(x: Exchange, ts: seq<Print>, k: nat, i: nat, d: Levels, now: int, fees: Fees): (r: Exchange)
    requires Good(x) && k < |ts| && i < |x.orders|
    ensures Good(r)
  {
    MetUpTo(AtTrade(SawAll(x, ts[..k], d, now, fees), ts[k]), i, ts[k], d, now, fees)
  }

  lemma NotYet(x: Exchange, ts: seq<Print>, k: nat, i: nat, d: Levels, now: int, fees: Fees)
    requires Good(x) && i < |x.orders| && IsOpen(x.orders[i]) && FirstCount(ts, x.orders[i], k)
    ensures Before(x, ts, k, i, d, now, fees).orders[i] == x.orders[i]
  {
    hide Good;
    hide Counts;
    SawAllOpen(x, ts[..k], d, now, fees);
    forall t | t in ts[..k] ensures !Counts(x.orders[i], t) {
      var j :| 0 <= j < k && ts[..k][j] == t;
      assert ts[j] == t;
    }
    assert Answered(ts[..k], x.orders[i], SawAll(x, ts[..k], d, now, fees).orders[i]);
    hide SawAll;
    hide MetUpTo;
  }

  /** The first trade that fires an order settles it, with the position held at that moment. */
  lemma FiredDone(x: Exchange, ts: seq<Print>, k: nat, i: nat, d: Levels, now: int, fees: Fees)
    requires Good(x) && i < |x.orders| && IsOpen(x.orders[i]) && FirstCount(ts, x.orders[i], k)
    ensures var y := SawAll(x, ts, d, now, fees);
            Done(x.orders[i], Before(x, ts, k, i, d, now, fees).pos.qty, ts[k], d, now, fees, y.orders[i], y.fills)
  {
    NotYet(x, ts, k, i, d, now, fees);
    var b := Before(x, ts, k, i, d, now, fees);
    assert Counts(x.orders[i], ts[k]);
    MetDone(b, i, ts[k], d, now, fees);
    MetThenSettled(x, ts, k, i, d, now, fees);
    hide Good;
    hide Counts;
    hide Outcome;
    hide FillOf;
    hide SawAll;
    hide Met;
    hide Before;
    hide ReduceOk;
  }

  lemma MetThenSettled(x: Exchange, ts: seq<Print>, k: nat, i: nat, d: Levels, now: int, fees: Fees)
    requires Good(x) && i < |x.orders| && k < |ts|
    ensures var c, y := Met(Before(x, ts, k, i, d, now, fees), i, ts[k], d, now, fees), SawAll(x, ts, d, now, fees);
            (IsOpen(c.orders[i]) || y.orders[i] == c.orders[i]) && c.fills <= y.fills
  {
    var z := AtTrade(SawAll(x, ts[..k], d, now, fees), ts[k]);
    assert MetUpTo(z, i + 1, ts[k], d, now, fees) == Met(Before(x, ts, k, i, d, now, fees), i, ts[k], d, now, fees);
    MetOnward(z, i, |z.orders|, ts[k], d, now, fees);
    SettledStays(x, ts, k, i, d, now, fees);
    hide Good;
    hide SawAll;
    hide Met;
    hide MetUpTo;
  }

  /** Nothing read later changes it. */
  lemma SettledStays(x: Exchange, ts: seq<Print>, k: nat, i: nat, d: Levels, now: int, fees: Fees)
    requires Good(x) && i < |x.orders| && k < |ts|
    ensures var e, y := Saw(SawAll(x, ts[..k], d, now, fees), ts[k], d, now, fees), SawAll(x, ts, d, now, fees);
            (IsOpen(e.orders[i]) || y.orders[i] == e.orders[i]) && e.fills <= y.fills
  {
    var first, rest := ts[..k + 1], ts[k + 1..];
    assert ts == first + rest && first[..k] == ts[..k] && first[k] == ts[k];
    SawInParts(x, first, rest, d, now, fees);
    var e := SawAll(x, first, d, now, fees);
    assert e == Saw(SawAll(x, ts[..k], d, now, fees), ts[k], d, now, fees);
    SawAllOpen(e, rest, d, now, fees);
    SawAllGrows(e, rest, d, now, fees);
    assert Answered(rest, e.orders[i], SawAll(e, rest, d, now, fees).orders[i]);
    hide Good;
    hide Counts;
    hide ClosedBy;
    hide SawAll;
    hide Saw;
  }

  // ---- over whole runs ------------------------------------------------------

  function UpTo(step: Step, tape: seq<Print>): nat
    requires step.Poll?
  {
    if step.upTo < |tape| then step.upTo else |tape|
  }

  /** This poll closes order `i`: it reads trade `k`, the first of the whole tape that fires the order, and what
      comes of it is settled by the position held when they meet. */
  ghost predicate ClosedIn(x: Exchange, poll: Step, i: nat, k: nat, tape: seq<Print>, fees: Fees, o: Order,
                           fills: seq<Fill>)
  {
    && Good(x) && poll.Poll? && i < |x.orders| && ReadBy(x, tape) <= k < UpTo(poll, tape)
    && FirstCount(tape, x.orders[i], k)
    && var news := tape[ReadBy(x, tape)..];
       var held := Before(x, news, k - ReadBy(x, tape), i, poll.d, poll.now, fees).pos.qty;
       Done(x.orders[i], held, tape[k], poll.d, poll.now, fees, o, fills)
  }

  /** An order that rested after `m` steps: as it was, cancelled, or closed by a later poll. */
  ghost predicate Fate(steps: seq<Step>, m: nat, i: nat, tape: seq<Print>, fees: Fees, o: Order, fills: seq<Fill>)
    requires m <= |steps| && i < |Run(steps[..m], tape, fees).orders|
  {
    var was := Run(steps[..m], tape, fees).orders[i];
    || o == was || o == was.(status := Canceled)
    || exists j, k: nat :: m <= j < |steps| && FateAt(steps, j, k, was, i, tape, fees, o, fills)
  }

  ghost predicate FateAt(steps: seq<Step>, j: nat, k: nat, was: Order, i: nat, tape: seq<Print>, fees: Fees, o: Order,
                         fills: seq<Fill>)
  {
    && j < |steps| && var x := Run(steps[..j], tape, fees);
       i < |x.orders| && x.orders[i] == was && ClosedIn(x, steps[j], i, k, tape, fees, o, fills)
  }

  /** First among the unread trades, and none of the read ones: first on the tape. */
  lemma FiresOnTape(tape: seq<Print>, r: nat, n: nat, o: Order, k: nat)
    requires r <= n <= |tape| && FirstCount(tape[r..n], o, k) && forall j :: 0 <= j < r ==> !Counts(o, tape[j])
    ensures FirstCount(tape, o, r + k)
  {
    hide Counts;
    forall j | r <= j < r + k ensures !Counts(o, tape[j]) {
      assert tape[j] == tape[r..n][j - r];
    }
  }

  lemma PollNews(x: Exchange, n: nat, d: Levels, now: int, tape: seq<Print>, fees: Fees)
    requires Good(x) && Tracked(x, tape, fees) && OnTape(tape) && n <= |tape|
    ensures Polled(x, tape[..n], d, now, fees)
         == if OpenCount(x.orders) > 0 && ReadBy(x, tape) <= n
            then SawAll(x, tape[ReadBy(x, tape)..n], d, now, fees) else x
  {
    hide Good;
    hide OnTape;
    hide TradesAfter;
    hide SawAll;
    hide ReadOf;
    hide AllHeeded;
    if OpenCount(x.orders) > 0 {
      NewsUpTo(tape, x.lastAgg, Since(x), n);
      SawNothing(x, d, now, fees);
    }
  }

  lemma SameBefore(x: Exchange, tape: seq<Print>, r: nat, n: nat, k: nat, i: nat, d: Levels, now: int, fees: Fees)
    requires Good(x) && r + k < n <= |tape| && i < |x.orders|
    ensures Before(x, tape[r..n], k, i, d, now, fees) == Before(x, tape[r..], k, i, d, now, fees)
    ensures tape[r..n][k] == tape[r + k]
  {
    assert tape[r..n][..k] == tape[r..][..k] && tape[r..n][k] == tape[r..][k];
    hide Good;
    hide SawAll;
    hide MetUpTo;
  }

  ghost predicate NewsDone(x: Exchange, i: nat, r: nat, n: nat, k: nat, tape: seq<Print>, d: Levels, now: int,
                           fees: Fees, y: Exchange)
  {
    && Good(x) && i < |x.orders| && i < |y.orders| && r <= k < n <= |tape| && FirstCount(tape, x.orders[i], k)
    && Done(x.orders[i], Before(x, tape[r..], k - r, i, d, now, fees).pos.qty, tape[k], d, now, fees, y.orders[i],
            y.fills)
  }

  /** An order that meets the trades `tape[r..n]`, having heeded those before. */
  lemma NewsFate(x: Exchange, i: nat, r: nat, n: nat, tape: seq<Print>, d: Levels, now: int, fees: Fees)
    requires Good(x) && i < |x.orders| && r <= n <= |tape|
    requires IsOpen(x.orders[i]) ==> forall j :: 0 <= j < r ==> !Counts(x.orders[i], tape[j])
    ensures var y, was := SawAll(x, tape[r..n], d, now, fees), x.orders[i];
            y.orders[i] == was
            || (IsOpen(was) && exists k: nat :: NewsDone(x, i, r, n, k, tape, d, now, fees, y))
  {
    var ts, was := tape[r..n], x.orders[i];
    hide Good;
    hide Counts;
    hide ClosedBy;
    hide Done;
    hide Before;
    SawAllOpen(x, ts, d, now, fees);
    hide SawAll;
    var y := SawAll(x, ts, d, now, fees);
    assert Answered(ts, was, y.orders[i]);
    if y.orders[i] != was {
      var k: nat :| FirstCount(ts, was, k);
      FiresOnTape(tape, r, n, was, k);
      FiredDone(x, ts, k, i, d, now, fees);
      SameBefore(x, tape, r, n, k, i, d, now, fees);
      hide FirstCount;
      assert NewsDone(x, i, r, n, r + k, tape, d, now, fees, y);
    }
  }

  lemma PolledFate(x: Exchange, i: nat, poll: Step, tape: seq<Print>, fees: Fees)
    requires Good(x) && Tracked(x, tape, fees) && OnTape(tape) && poll.Poll? && i < |x.orders|
    ensures var y := Next(x, poll, tape, fees);
            && i < |y.orders|
            && (y.orders[i] == x.orders[i]
                || (IsOpen(x.orders[i]) && exists k: nat :: ClosedIn(x, poll, i, k, tape, fees, y.orders[i], y.fills)))
  {
    var n, r := UpTo(poll, tape), ReadBy(x, tape);
    PollNews(x, n, poll.d, poll.now, tape, fees);
    assert Heeded(x, tape, x.orders[i], r, fees);
    assert Next(x, poll, tape, fees) == Polled(x, tape[..n], poll.d, poll.now, fees);
    hide *;
    if OpenCount(x.orders) > 0 && r <= n {
      HeededSoFar(x, tape, x.orders[i], r, fees);
      NewsFate(x, i, r, n, tape, poll.d, poll.now, fees);
      var y := SawAll(x, tape[r..n], poll.d, poll.now, fees);
      if k: nat :| NewsDone(x, i, r, n, k, tape, poll.d, poll.now, fees, y) {
        NewsClosed(x, poll, i, k, tape, fees, y);
      }
    }
  }

  lemma HeededSoFar(x: Exchange, tape: seq<Print>, o: Order, n: nat, fees: Fees)
    requires Heeded(x, tape, o, n, fees) && n <= |tape|
    ensures IsOpen(o) ==> forall j :: 0 <= j < n ==> !Counts(o, tape[j])
  {
    hide Counts;
  }

  lemma NewsClosed(x: Exchange, poll: Step, i: nat, k: nat, tape: seq<Print>, fees: Fees, y: Exchange)
    requires poll.Poll? && NewsDone(x, i, ReadBy(x, tape), UpTo(poll, tape), k, tape, poll.d, poll.now, fees, y)
    ensures ClosedIn(x, poll, i, k, tape, fees, y.orders[i], y.fills)
  {
    hide Good;
    hide Done;
    hide Before;
    hide FirstCount;
    hide ReadBy;
  }

  lemma CancelFate(x: Exchange, j: nat, i: nat)
    requires Good(x) && i < |x.orders| && j < |x.orders| && IsOpen(x.orders[j])
    ensures var y := Closed(x, j, Canceled);
            y.orders[i] == if i == j then x.orders[i].(status := Canceled) else x.orders[i]
  {
    hide Good;
  }

  lemma {:induction false} CancelEveryFate(x: Exchange, j: nat, i: nat)
    requires Good(x) && i < |x.orders| && j <= |x.orders|
    ensures |AllCanceled(x, j).orders| == |x.orders|
    ensures AllCanceled(x, j).orders[i]
         == if j <= i && IsOpen(x.orders[i]) then x.orders[i].(status := Canceled) else x.orders[i]
    decreases |x.orders| - j
  {
    hide Good;
    if j == |x.orders| {
    } else {
      if IsOpen(x.orders[j]) {
        CancelFate(x, j, i);
        CancelEveryFate(Closed(x, j, Canceled), j + 1, i);
      } else {
        CancelEveryFate(x, j + 1, i);
      }
    }
  }

  lemma PlacedFate(x: Exchange, step: Step, i: nat, tape: seq<Print>, fees: Fees)
    requires Good(x) && i < |x.orders| && (step.PlaceMarket? || step.PlaceGtx? || step.PlaceStop?)
    ensures var y := Next(x, step, tape, fees); i < |y.orders| && y.orders[i] == x.orders[i]
  {
    hide Good;
    hide MarketPrice;
    hide FeeOf;
  }

  lemma {:induction false} CancelEveryFills(x: Exchange, j: nat)
    requires Good(x) && j <= |x.orders|
    ensures AllCanceled(x, j).fills == x.fills
    decreases |x.orders| - j
  {
    hide Good;
    if j == |x.orders| {
    } else {
      CancelEveryFills(if IsOpen(x.orders[j]) then Closed(x, j, Canceled) else x, j + 1);
    }
  }

  lemma NextGrows(x: Exchange, step: Step, tape: seq<Print>, fees: Fees)
    requires Good(x)
    ensures x.fills <= Next(x, step, tape, fees).fills
  {
    hide Good;
    hide FeeOf;
    hide MarketPrice;
    match step {
      case CancelEvery => CancelEveryFills(x, 0);
      case Poll(n, d, now) =>
        if OpenCount(x.orders) > 0 {
          SawAllGrows(x, TradesAfter(tape[..if n < |tape| then n else |tape|], x.lastAgg, Since(x)), d, now, fees);
        }
      case _ =>
    }
    hide Applied;
    hide SawAll;
    hide AllCanceled;
  }

  lemma NextFate(x: Exchange, step: Step, i: nat, tape: seq<Print>, fees: Fees)
    requires Good(x) && Tracked(x, tape, fees) && OnTape(tape) && i < |x.orders|
    ensures var y := Next(x, step, tape, fees);
            && i < |y.orders|
            && (y.orders[i] == x.orders[i]
                || (IsOpen(x.orders[i])
                    && (y.orders[i] == x.orders[i].(status := Canceled)
                        || exists k: nat :: ClosedIn(x, step, i, k, tape, fees, y.orders[i], y.fills))))
  {
    hide Tracked;
    hide OnTape;
    hide ClosedIn;
    match step {
      case Cancel(id) =>
        var j := IndexOf(x.orders, id);
        if j.Some? && IsOpen(x.orders[j.value]) {
          CancelFate(x, j.value, i);
        }
      case CancelEvery => CancelEveryFate(x, 0, i);
      case Poll(_, _, _) => PolledFate(x, i, step, tape, fees);
      case _ => PlacedFate(x, step, i, tape, fees);
    }
    hide Polled;
    hide AllCanceled;
    hide MarketPlaced;
    hide GtxPlaced;
    hide StopPlaced;
    hide Closed;
  }

  lemma ClosedInStays(x: Exchange, poll: Step, i: nat, k: nat, tape: seq<Print>, fees: Fees, o: Order,
                      fills: seq<Fill>, more: seq<Fill>)
    requires ClosedIn(x, poll, i, k, tape, fees, o, fills) && fills <= more
    ensures ClosedIn(x, poll, i, k, tape, fees, o, more) && !IsOpen(o)
  {
    hide Good;
    hide Before;
    hide FillOf;
    hide FirstCount;
    hide ReadBy;
    hide ReduceOk;
    hide FiredPrice;
  }

  lemma RunLast(steps: seq<Step>, tape: seq<Print>, fees: Fees)
    requires steps != []
    ensures Run(steps, tape, fees)
         == Next(Run(steps[..|steps| - 1], tape, fees), steps[|steps| - 1], tape, fees)
    ensures Run(steps[..|steps| - 1], tape, fees).fills <= Run(steps, tape, fees).fills
  {
    NextGrows(Run(steps[..|steps| - 1], tape, fees), steps[|steps| - 1], tape, fees);
    hide Next;
    hide Good;
  }

  /** One step later the same poll still tells what became of the order. */
  lemma FateStays(steps: seq<Step>, j: nat, k: nat, was: Order, i: nat, tape: seq<Print>, fees: Fees, o: Order)
    requires steps != [] && j < |steps| - 1
    requires FateAt(steps[..|steps| - 1], j, k, was, i, tape, fees, o, Run(steps[..|steps| - 1], tape, fees).fills)
    ensures FateAt(steps, j, k, was, i, tape, fees, o, Run(steps, tape, fees).fills) && !IsOpen(o)
  {
    hide *;
    var n := |steps| - 1;
    RunLast(steps, tape, fees);
    var x, fills := Run(steps[..j], tape, fees), Run(steps[..n], tape, fees).fills;
    EarlierFate(steps, n, j, k, was, i, tape, fees, o, fills);
    ClosedInStays(x, steps[j], i, k, tape, fees, o, fills, Run(steps, tape, fees).fills);
    LaterFate(steps, j, k, was, i, tape, fees, o, Run(steps, tape, fees).fills);
  }

  lemma EarlierFate(steps: seq<Step>, n: nat, j: nat, k: nat, was: Order, i: nat, tape: seq<Print>, fees: Fees,
                    o: Order, fills: seq<Fill>)
    requires j < n <= |steps| && FateAt(steps[..n], j, k, was, i, tape, fees, o, fills)
    ensures var x := Run(steps[..j], tape, fees);
            i < |x.orders| && x.orders[i] == was && ClosedIn(x, steps[j], i, k, tape, fees, o, fills)
  {
    assert steps[..n][..j] == steps[..j];
    hide Run;
    hide ClosedIn;
  }

  lemma LaterFate(steps: seq<Step>, j: nat, k: nat, was: Order, i: nat, tape: seq<Print>, fees: Fees, o: Order,
                  fills: seq<Fill>)
    requires j < |steps| && var x := Run(steps[..j], tape, fees);
             i < |x.orders| && x.orders[i] == was && ClosedIn(x, steps[j], i, k, tape, fees, o, fills)
    ensures FateAt(steps, j, k, was, i, tape, fees, o, fills)
  {
    hide Run;
    hide ClosedIn;
  }

  /** Any order, limit or stop, that ever rested: at the end of any run it rests unchanged, was cancelled, or was
      closed by a poll that read the first trade of the tape that fires it. If the position held when they
      met no longer allowed a reduce-only order it expired; otherwise it was filled whole, a limit order at its
      own price and a stop at the walk price of that poll's book, and that fill is on record. */
  lemma {:induction false} RestedByDefinition(steps: seq<Step>, m: nat, i: nat, tape: seq<Print>, fees: Fees)
    requires OnTape(tape) && AlwaysHeedful(steps, tape, fees) && m <= |steps|
    requires i < |Run(steps[..m], tape, fees).orders| && IsOpen(Run(steps[..m], tape, fees).orders[i])
    ensures var x := Run(steps, tape, fees);
            i < |x.orders| && Fate(steps, m, i, tape, fees, x.orders[i], x.fills)
    decreases |steps|
  {
    hide OnTape;
    hide FateAt;
    hide Run;
    hide Tracked;
    hide Heedful;
    if m == |steps| {
      assert steps[..m] == steps;
    } else {
      var n := |steps| - 1;
      ShorterHeedful(steps, tape, fees, n);
      assert steps[..n][..m] == steps[..m];
      RestedByDefinition(steps[..n], m, i, tape, fees);
      RunTracks(steps[..n], tape, fees);
      LastStepFate(steps, m, i, tape, fees);
    }
    hide AlwaysHeedful;
  }

  lemma LastStepFate(steps: seq<Step>, m: nat, i: nat, tape: seq<Print>, fees: Fees)
    requires OnTape(tape) && m < |steps| && var n := |steps| - 1; steps[..n][..m] == steps[..m]
    requires i < |Run(steps[..m], tape, fees).orders| && IsOpen(Run(steps[..m], tape, fees).orders[i])
    requires var x := Run(steps[..|steps| - 1], tape, fees);
             && Tracked(x, tape, fees) && i < |x.orders|
             && Fate(steps[..|steps| - 1], m, i, tape, fees, x.orders[i], x.fills)
    ensures var x := Run(steps, tape, fees);
            i < |x.orders| && Fate(steps, m, i, tape, fees, x.orders[i], x.fills)
  {
    var n, was := |steps| - 1, Run(steps[..m], tape, fees).orders[i];
    var x, y := Run(steps[..n], tape, fees), Run(steps, tape, fees);
    RunLast(steps, tape, fees);
    NextFate(x, steps[n], i, tape, fees);
    hide Run;
    hide Next;
    hide Tracked;
    hide OnTape;
    hide ClosedIn;
    if x.orders[i] == was {
      if k: nat :| ClosedIn(x, steps[n], i, k, tape, fees, y.orders[i], y.fills) {
        assert FateAt(steps, n, k, was, i, tape, fees, y.orders[i], y.fills);
      }
    } else if x.orders[i] != was.(status := Canceled) {
      var j, k: nat :| m <= j < n && FateAt(steps[..n], j, k, was, i, tape, fees, x.orders[i], x.fills);
      FateStays(steps, j, k, was, i, tape, fees, x.orders[i]);
    }
    hide FateAt;
  }

  // ---- a run with a clock that lags -----------------------------------------

  const CALM: Levels := Depth([Level(94.0, 1.0)], [Level(97.0, 1.0)])

  const LAG_TAPE := [Print(200, 1, 95.0)]

  /** A bid at 90, a poll that reads the trade, a bid at 96 stamped before it, another poll. */
  const LAG_STEPS := [
    PlaceGtx(Buy, 1.0, 90.0, "a", false, CALM, 100),
    Poll(1, CALM, 250),
    PlaceGtx(Buy, 1.0, 96.0, "b", false, CALM, 150),
    Poll(1, CALM, 300)]

  function BidOf(price: real, id: string, now: int): Order {
    NewOrder(id, Buy, Limit, 1.0, price, false, now)
  }

  function FirstBid(): Exchange {
    Exchange([BidOf(90.0, "a", 100)], [], FLAT, map[], None, Some(100))
  }

  lemma BidRests(id: string, price: real, now: int)
    requires price < 97.0
    ensures GtxPlaced(EMPTY_EXCHANGE, Buy, 1.0, price, id, false, CALM, now)
         == EMPTY_EXCHANGE.(orders := [BidOf(price, id, now)], lastTs := Some(now))
  {
    var o := BidOf(price, id, now);
    assert Registered(EMPTY_EXCHANGE, o).orders == [o];
    assert OpenCount([o]) == 1;
    hide Good;
    hide OpenCount;
  }

  /** A trade at or above a bid passes it by. */
  lemma BidWaits(o: Order, x: Exchange, t: Print, d: Levels, now: int, fees: Fees)
    requires Good(x) && x.orders == [o] && IsOpen(o) && o.kind == Limit && o.side == Buy && t.price > o.price
    ensures Saw(x, t, d, now, fees) == x.(lastAgg := Some(t.agg), lastTs := Some(t.ts))
  {
    var z := x.(lastAgg := Some(t.agg), lastTs := Some(t.ts));
    assert Good(z);
    hide Good;
    assert Met(z, 0, t, d, now, fees) == z;
    hide Met;
    assert MetUpTo(z, 0, t, d, now, fees) == z;
  }

  lemma OneUnread(tape: seq<Print>, t: Print, since: int)
    requires tape == [t] && since < t.ts
    ensures TradesAfter(tape[..1], None, since) == [t]
  {
    assert tape[..1] == tape && tape[..0] == [];
    TradesAfterOne([], t, None, since);
    assert [] + [t] == [t];
  }

  lemma OneSeen(x: Exchange, t: Print, d: Levels, now: int, fees: Fees)
    requires Good(x)
    ensures SawAll(x, [t], d, now, fees) == Saw(x, t, d, now, fees)
  {
    assert [t][..0] == [];
    hide Good;
    hide Saw;
  }

  lemma OneRead(x: Exchange, tape: seq<Print>, t: Print, d: Levels, now: int, fees: Fees)
    requires Good(x) && tape == [t] && OpenCount(x.orders) > 0
    requires x.lastAgg.None? && x.lastTs.Some? && x.lastTs.value < t.ts
    ensures Polled(x, tape[..1], d, now, fees) == Saw(x, t, d, now, fees)
  {
    OneUnread(tape, t, x.lastTs.value);
    OneSeen(x, t, d, now, fees);
    hide Good;
    hide Saw;
    hide SawAll;
    hide OpenCount;
    hide TradesAfter;
  }

  lemma RunFirst(step: Step, tape: seq<Print>, fees: Fees)
    ensures Run([step], tape, fees) == Next(EMPTY_EXCHANGE, step, tape, fees)
  {
    RunOneMore([], step, tape, fees);
    assert [] + [step] == [step];
    hide Next;
  }

  lemma BidPlaced(fees: Fees)
    ensures Run(LAG_STEPS[..1], LAG_TAPE, fees) == FirstBid()
  {
    var bid := PlaceGtx(Buy, 1.0, 90.0, "a", false, CALM, 100);
    assert LAG_STEPS[..1] == [bid];
    assert Next(EMPTY_EXCHANGE, bid, LAG_TAPE, fees)
        == GtxPlaced(EMPTY_EXCHANGE, Buy, 1.0, 90.0, "a", false, CALM, 100);
    hide *;
    RunFirst(bid, LAG_TAPE, fees);
    BidRests("a", 90.0, 100);
    FirstBidIs();
  }

  lemma FirstBidIs()
    ensures EMPTY_EXCHANGE.(orders := [BidOf(90.0, "a", 100)], lastTs := Some(100)) == FirstBid()
  {
  }

  lemma TradeRead(fees: Fees)
    ensures Run(LAG_STEPS[..2], LAG_TAPE, fees) == FirstBid().(lastAgg := Some(1), lastTs := Some(200))
  {
    var x, t := FirstBid(), LAG_TAPE[0];
    BidPlaced(fees);
    RunOneMore(LAG_STEPS[..1], LAG_STEPS[1], LAG_TAPE, fees);
    assert LAG_STEPS[..1] + [LAG_STEPS[1]] == LAG_STEPS[..2];
    assert LAG_STEPS[1] == Poll(1, CALM, 250);
    hide Run;
    assert OpenCount(x.orders) == 1;
    assert Good(x);
    hide Good;
    hide Polled;
    hide Saw;
    hide OpenCount;
    OneRead(x, LAG_TAPE, t, CALM, 250, fees);
    BidWaits(x.orders[0], x, t, CALM, 250, fees);
  }

  lemma BidSteps(x: Exchange, y: Exchange, tape: seq<Print>, price: real, id: string, d: Levels, now: int, later: int,
                 fees: Fees)
    requires Good(x) && Good(y) && tape != []
    ensures Next(x, PlaceGtx(Buy, 1.0, price, id, false, d, now), tape, fees)
         == GtxPlaced(x, Buy, 1.0, price, id, false, d, now)
    ensures Next(y, Poll(1, d, later), tape, fees) == Polled(y, tape[..0 + 1], d, later, fees)
  {
    hide Good;
    hide GtxPlaced;
    hide Polled;
  }

  /** A bid that is stamped before a trade already read, and priced above it, rests and is never filled by it. */
  lemma LateBid(x: Exchange, tape: seq<Print>, price: real, id: string, d: Levels, now: int, later: int, fees: Fees)
    requires Good(x) && OnTape(tape) && CursorOn(x, tape) && OpenCount(x.orders) > 0 && 0 < ReadBy(x, tape)
    requires IndexOf(x.orders, id).None? && !Crosses(Buy, price, d)
    requires Counts(NewOrder(id, Buy, Limit, 1.0, price, false, now), tape[0])
    ensures !Heedful(x, PlaceGtx(Buy, 1.0, price, id, false, d, now), tape)
    ensures var y := Next(x, PlaceGtx(Buy, 1.0, price, id, false, d, now), tape, fees);
            && Next(y, Poll(1, d, later), tape, fees) == y && |y.orders| == |x.orders| + 1
            && IsOpen(y.orders[|x.orders|]) && Counts(y.orders[|x.orders|], tape[0])
  {
    hide *;
    var bid := PlaceGtx(Buy, 1.0, price, id, false, d, now);
    GtxNeverTakes(x, bid, tape, fees);
    MissedTrade(x, tape, 0, Buy, 1.0, price, id, d, now, d, later, fees);
    BidSteps(x, Next(x, bid, tape, fees), tape, price, id, d, now, later, fees);
  }

  lemma SecondBidFacts(x: Exchange)
    requires x == FirstBid().(lastAgg := Some(1), lastTs := Some(200))
    ensures OnTape(LAG_TAPE) && CursorOn(x, LAG_TAPE) && OpenCount(x.orders) > 0 && ReadBy(x, LAG_TAPE) == 1
    ensures LAG_STEPS[3] == Poll(1, CALM, 300)
    ensures IndexOf(x.orders, "b").None? && !Crosses(Buy, 96.0, CALM) && |x.orders| == 1
    ensures LAG_STEPS[2] == PlaceGtx(Buy, 1.0, 96.0, "b", false, CALM, 150)
    ensures Counts(NewOrder("b", Buy, Limit, 1.0, 96.0, false, 150), LAG_TAPE[0])
  {
    assert Some(LAG_TAPE[0].agg) == x.lastAgg && Some(LAG_TAPE[0].ts) == x.lastTs;
    ReadAt(LAG_TAPE, 0);
    assert IsOpen(x.orders[0]) && x.orders[0].id == "a";
  }

  /** The bid at 96 stays open although the trade at 95 went through it after its time stamp. */
  lemma ClockBehind(fees: Fees)
    ensures OnTape(LAG_TAPE) && !AlwaysHeedful(LAG_STEPS, LAG_TAPE, fees)
    ensures var x := Run(LAG_STEPS, LAG_TAPE, fees);
            |x.orders| == 2 && IsOpen(x.orders[1]) && Counts(x.orders[1], LAG_TAPE[0])
  {
    var x := FirstBid().(lastAgg := Some(1), lastTs := Some(200));
    TradeRead(fees);
    assert OnTape(LAG_TAPE) && LAG_STEPS[..2] + [LAG_STEPS[2]] == LAG_STEPS[..3];
    assert LAG_STEPS[..3] + [LAG_STEPS[3]] == LAG_STEPS;
    hide *;
    RunOneMore(LAG_STEPS[..2], LAG_STEPS[2], LAG_TAPE, fees);
    RunOneMore(LAG_STEPS[..3], LAG_STEPS[3], LAG_TAPE, fees);
    SecondBidFacts(x);
    LateBid(x, LAG_TAPE, 96.0, "b", CALM, 150, 300, fees);
    NotAlways(2, fees);
  }

  lemma NotAlways(n: nat, fees: Fees)
    requires n < 4 && !Heedful(Run(LAG_STEPS[..n], LAG_TAPE, fees), LAG_STEPS[n], LAG_TAPE)
    ensures !AlwaysHeedful(LAG_STEPS, LAG_TAPE, fees)
  {
    hide Heedful;
    hide Run;
  }
}
