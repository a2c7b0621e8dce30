/** A run in which a maker exit outlives its record and buys back the next signal's short: the ledger
    ends two down, the broker one. */
module LeftoverRun {
  import opened Basics
  import opened Ladders
  import opened Positions
  import opened Paper
  import opened Polling
  import opened RiskGuards
  import opened Ledger
  import opened Accounts
  import opened LedgerAgrees

  // ---- the setting ----------------------------------------------------------

  /** Ids of their own for every signal and leg. */
  function IdOf(e: int, leg: Leg): string {
    (if e >= 0 then seq(e, _ => '+') else seq(-e, _ => '-'))
    + [match leg case EntryLeg => 'e' case ExitLeg => 'x' case MakerLeg => 'm' case StopLeg => 's']
  }

  lemma IdsDiffer(e: int, a: Leg, f: int, b: Leg)
    requires IdOf(e, a) == IdOf(f, b)
    ensures e == f && a == b
  {
    var p, q := IdOf(e, a), IdOf(f, b);
    assert p[|p| - 1] == q[|q| - 1];
    assert e != 0 ==> p[0] == if e > 0 then '+' else '-';
    assert f != 0 ==> q[0] == if f > 0 then '+' else '-';
  }

  const TAPE := [Print(200, 1, 102.0), Print(400, 2, 98.0)]

  /** Room for one unit, no fees, an emergency stop two percent above the entry. */
  const SETUP := Setup(Limits(1.0, -1000.0, 3, 500.0, 10.0, 5), Fees(0.0, 0.0), TAPE, IdOf, 2.0, -1000.0)

  /** Everything about the setting but the ids. */
  predicate Suits(s: Setup) {
    && s.limits == Limits(1.0, -1000.0, 3, 500.0, 10.0, 5) && s.fees == Fees(0.0, 0.0) && s.tape == TAPE
    && s.estop == 2.0 && s.stopLine == -1000.0
  }

  const CALM: Levels := Depth([Level(100.0, 10.0)], [Level(101.0, 10.0)])
  const HIGH: Levels := Depth([Level(101.0, 10.0)], [Level(102.0, 10.0)])

  const ENTERS_1 := Env(CALM, 100.0, None, 100, 0, 0, 0, false)
  const BIDS_1 := Env(CALM, 100.0, Some(99.0), 150, 0, 0, 0, false)
  const LOOKS_1 := Env(HIGH, 102.0, None, 250, 1, 0, 0, false)
  const ENTERS_2 := Env(CALM, 100.0, None, 300, 1, 0, 0, false)
  const LOOKS_2 := Env(CALM, 98.0, None, 450, 2, 0, 0, false)
  const EXITS_2 := Env(CALM, 98.0, None, 500, 2, 2, 2, false)

  /** Signal 1 enters at 100, bids 99 for the exit, and a look finds its stop filled at 102; signal 2
      enters at 100, and a look reads the trade at 98; signal 2 exits. */
  const MOVES := [
    Enter(0, 1, 1.0, false, true),
    Work(0, ENTERS_1),
    Tick(0, Due(false, true, false, true)),
    Work(0, BIDS_1),
    Work(0, LOOKS_1),
    Enter(0, 2, 1.0, false, true),
    Work(0, ENTERS_2),
    Tick(0, Due(false, false, false, true)),
    Work(0, LOOKS_2),
    Leave(0, 2),
    Work(0, EXITS_2)]

  lemma SetupIds()
    ensures DistinctIds(SETUP) && Suits(SETUP)
  {
    forall e, f: int, a, b: Leg | SETUP.cid(e, a) == SETUP.cid(f, b) ensures e == f && a == b {
      IdsDiffer(e, a, f, b);
    }
  }

  // ---- the broker, call by call ---------------------------------------------

  function Sold(s: Setup, e: int, now: int): Order {
    Order(s.cid(e, EntryLeg), Sell, Market, 1.0, 0.0, false, Filled, 1.0, 100.0, now)
  }

  function Stop(s: Setup, e: int, now: int): Order {
    Order(s.cid(e, StopLeg), Buy, StopMarket, 1.0, 102.0, true, New, 0.0, 0.0, now)
  }

  function Bid(s: Setup): Order {
    Order(s.cid(1, MakerLeg), Buy, Limit, 1.0, 99.0, true, New, 0.0, 0.0, 150)
  }

  function SoldFill(s: Setup, e: int, now: int): Fill {
    Fill(s.cid(e, EntryLeg), now, Sell, 1.0, 100.0, 0.0, Taker)
  }

  function StopFill(s: Setup): Fill {
    Fill(s.cid(1, StopLeg), 250, Buy, 1.0, 102.0, 0.0, Taker)
  }

  function BidFill(s: Setup): Fill {
    Fill(s.cid(1, MakerLeg), 400, Buy, 1.0, 99.0, 0.0, Maker)
  }

  function Done(o: Order, avg: real): Order {
    o.(status := Filled, filled := o.qty, avg := avg)
  }

  function X1(s: Setup): Exchange {
    Exchange([Sold(s, 1, 100)], [SoldFill(s, 1, 100)], Pos(-1.0, 100.0, 0.0, 0.0), map[], None, None)
  }

  function X2(s: Setup): Exchange {
    X1(s).(orders := [Sold(s, 1, 100), Stop(s, 1, 100)], lastTs := Some(100))
  }

  function X3(s: Setup): Exchange {
    X2(s).(orders := [Sold(s, 1, 100), Stop(s, 1, 100), Bid(s)])
  }

  function X4(s: Setup): Exchange {
    Exchange([Sold(s, 1, 100), Done(Stop(s, 1, 100), 102.0), Bid(s)], [SoldFill(s, 1, 100), StopFill(s)],
             Pos(0.0, 0.0, -2.0, 0.0), map[], Some(1), Some(200))
  }

  function X5(s: Setup): Exchange {
    X4(s).(orders := X4(s).orders + [Sold(s, 2, 300)], fills := X4(s).fills + [SoldFill(s, 2, 300)],
           pos := Pos(-1.0, 100.0, -2.0, 0.0))
  }

  function X6(s: Setup): Exchange {
    X5(s).(orders := X5(s).orders + [Stop(s, 2, 300)])
  }

  function X7(s: Setup): Exchange {
    Exchange([Sold(s, 1, 100), Done(Stop(s, 1, 100), 102.0), Done(Bid(s), 99.0), Sold(s, 2, 300), Stop(s, 2, 300)],
             [SoldFill(s, 1, 100), StopFill(s), SoldFill(s, 2, 300), BidFill(s)],
             Pos(0.0, 0.0, -1.0, 0.0), map[], Some(2), Some(400))
  }

  function X8(s: Setup): Exchange {
    X7(s).(orders := X7(s).orders
                     + [NewOrder(s.cid(2, ExitLeg), Buy, Market, 1.0, 0.0, true, 500).(status := Expired)])
  }

  lemma Prices(o: Order)
    requires o.qty == 1.0 && o.filled == 0.0
    ensures o.side == Sell ==> MarketPrice(o, CALM) == 100.0
    ensures o.side == Buy ==> MarketPrice(o, HIGH) == 102.0
  {
  }

  lemma NoFee(x: real, liq: Liquidity)
    ensures FeeOf(Fees(0.0, 0.0), x, liq) == 0.0
  {
  }

  /** One unit sold from flat into the calm book. */
  lemma SellsOne(x: Exchange, id: string, now: int, fees: Fees)
    requires Good(x) && IndexOf(x.orders, id).None? && x.pos.qty == 0.0 && fees == Fees(0.0, 0.0)
    ensures MarketPlaced(x, Sell, 1.0, id, false, CALM, now, fees)
         == x.(orders := x.orders + [Order(id, Sell, Market, 1.0, 0.0, false, Filled, 1.0, 100.0, now)],
               fills := x.fills + [Fill(id, now, Sell, 1.0, 100.0, 0.0, Taker)],
               pos := Pos(-1.0, 100.0, x.pos.realized, x.pos.fees))
  {
    var o := NewOrder(id, Sell, Market, 1.0, 0.0, false, now);
    Prices(o);
    NoFee(Notional(1.0, 100.0), Taker);
    OpenShort(1.0, x.pos.entry, x.pos.realized, x.pos.fees, 100.0, 0.0);
    hide IndexOf;
    hide Good;
    hide Notional;
    hide MarketPrice;
    hide Applied;
    hide FeeOf;
    assert (x.orders + [o])[|x.orders|] == o;
  }

  lemma NothingYet(id: string)
    ensures Good(EMPTY_EXCHANGE) && IndexOf(EMPTY_EXCHANGE.orders, id).None?
  {
  }

  lemma Call1(s: Setup)
    requires s.fees == Fees(0.0, 0.0)
    ensures MarketPlaced(EMPTY_EXCHANGE, Sell, 1.0, s.cid(1, EntryLeg), false, CALM, 100, s.fees) == X1(s)
    ensures Good(X1(s))
  {
    hide MarketPlaced;
    hide Good;
    hide IndexOf;
    NothingYet(s.cid(1, EntryLeg));
    SellsOne(EMPTY_EXCHANGE, s.cid(1, EntryLeg), 100, s.fees);
    assert [] + [Sold(s, 1, 100)] == [Sold(s, 1, 100)] && [] + [SoldFill(s, 1, 100)] == [SoldFill(s, 1, 100)];
  }

  lemma {:induction false} OpenTwo(orders: seq<Order>, i: nat, j: nat)
    requires i < j < |orders| && IsOpen(orders[i]) && IsOpen(orders[j])
    ensures OpenCount(orders) >= 2
  {
    var n := |orders| - 1;
    if j < n {
      OpenTwo(orders[..n], i, j);
    } else {
      assert IsOpen(orders[..n][i]);
    }
  }

  lemma {:induction false} OpenOne(orders: seq<Order>, i: nat)
    requires i < |orders| && forall k :: 0 <= k < |orders| ==> (IsOpen(orders[k]) <==> k == i)
    ensures OpenCount(orders) == 1
  {
    var n := |orders| - 1;
    if i < n {
      OpenOne(orders[..n], i);
    } else {
      assert OpenCount(orders[..n]) == 0;
    }
  }

  lemma Call2(s: Setup)
    requires DistinctIds(s) && Good(X1(s))
    ensures StopPlaced(X1(s), Buy, 1.0, 102.0, s.cid(1, StopLeg), 100.0, 100) == X2(s) && Good(X2(s))
  {
    assert IndexOf(X1(s).orders, s.cid(1, StopLeg)).None?;
    OpenOne(X2(s).orders, 1);
    hide Good;
    hide IndexOf;
    hide OpenCount;
  }

  lemma Call3(s: Setup)
    requires DistinctIds(s) && Good(X2(s))
    ensures GtxPlaced(X2(s), Buy, 1.0, 99.0, s.cid(1, MakerLeg), true, CALM, 150) == X3(s) && Good(X3(s))
  {
    hide Good;
    assert IndexOf(X2(s).orders, s.cid(1, MakerLeg)).None?;
    hide IndexOf;
    OpenTwo(X3(s).orders, 1, 2);
    hide OpenCount;
  }

  lemma ReadFirst()
    ensures TradesAfter(TAPE[..1], None, 100) == [TAPE[0]]
    ensures TradesAfter(TAPE, Some(1), 200) == [TAPE[1]] && TradesAfter(TAPE, Some(2), 400) == []
    ensures TAPE[..2] == TAPE
  {
    assert TAPE[..1][..0] == [] && TAPE[..1] == [TAPE[0]];
    assert TAPE[..1] == TAPE[..|TAPE| - 1];
    assert TradesAfter(TAPE[..1], Some(1), 200) == [];
    assert TradesAfter(TAPE[..1], Some(2), 400) == [];
  }

  lemma ReadOne(x: Exchange, t: Print, d: Levels, now: int, fees: Fees)
    requires Good(x)
    ensures SawAll(x, [], d, now, fees) == x
    ensures SawAll(x, [t], d, now, fees)
            == MetUpTo(x.(lastAgg := Some(t.agg), lastTs := Some(t.ts)), |x.orders|, t, d, now, fees)
  {
    assert [t][..0] == [];
    hide Good;
    hide MetUpTo;
  }

  lemma Call4(s: Setup)
    requires DistinctIds(s) && s.fees == Fees(0.0, 0.0) && Good(X3(s))
    ensures Polled(X3(s), TAPE[..1], HIGH, 250, s.fees) == X4(s) && Good(X4(s))
  {
    var x, t := X3(s), TAPE[0];
    var z := x.(lastAgg := Some(1), lastTs := Some(200));
    OpenTwo(x.orders, 1, 2);
    ReadFirst();
    ReadOne(x, t, HIGH, 250, s.fees);
    hide OpenCount;
    hide TradesAfter;
    hide SawAll;
    assert Polled(x, TAPE[..1], HIGH, 250, s.fees) == MetUpTo(z, 3, t, HIGH, 250, s.fees);
    assert Good(z);
    hide Good;
    assert MetUpTo(z, 1, t, HIGH, 250, s.fees) == z;
    Call4Stop(s, z);
    var y := Met(z, 1, t, HIGH, 250, s.fees);
    assert MetUpTo(z, 2, t, HIGH, 250, s.fees) == y;
    assert Met(y, 2, t, HIGH, 250, s.fees) == y;
  }

  lemma Call4Stop(s: Setup, z: Exchange)
    requires s.fees == Fees(0.0, 0.0) && Good(z) && z == X3(s).(lastAgg := Some(1), lastTs := Some(200))
    ensures Met(z, 1, TAPE[0], HIGH, 250, s.fees) == X4(s)
  {
    Prices(Stop(s, 1, 100));
    NoFee(Notional(1.0, 102.0), Taker);
    CoverPart(z.pos, 1.0, 102.0, 0.0);
    hide MarketPrice;
    hide Applied;
    hide FeeOf;
    hide Good;
  }

  lemma Call5(s: Setup)
    requires DistinctIds(s) && s.fees == Fees(0.0, 0.0) && Good(X4(s))
    ensures MarketPlaced(X4(s), Sell, 1.0, s.cid(2, EntryLeg), false, CALM, 300, s.fees) == X5(s) && Good(X5(s))
  {
    assert IndexOf(X4(s).orders, s.cid(2, EntryLeg)).None?;
    SellsOne(X4(s), s.cid(2, EntryLeg), 300, s.fees);
    hide MarketPlaced;
    hide IndexOf;
    hide Good;
  }

  lemma Call6(s: Setup)
    requires DistinctIds(s) && Good(X5(s))
    ensures StopPlaced(X5(s), Buy, 1.0, 102.0, s.cid(2, StopLeg), 100.0, 300) == X6(s) && Good(X6(s))
  {
    assert IndexOf(X5(s).orders, s.cid(2, StopLeg)).None?;
    OpenTwo(X6(s).orders, 2, 4);
    hide Good;
    hide IndexOf;
    hide OpenCount;
  }

  lemma Call7(s: Setup)
    requires DistinctIds(s) && s.fees == Fees(0.0, 0.0) && Good(X6(s))
    ensures Polled(X6(s), TAPE, CALM, 450, s.fees) == X7(s) && Good(X7(s))
  {
    var x, t := X6(s), TAPE[1];
    var z := x.(lastAgg := Some(2), lastTs := Some(400));
    OpenTwo(x.orders, 2, 4);
    ReadFirst();
    ReadOne(x, t, CALM, 450, s.fees);
    hide OpenCount;
    hide TradesAfter;
    hide SawAll;
    assert Polled(x, TAPE, CALM, 450, s.fees) == MetUpTo(z, 5, t, CALM, 450, s.fees);
    assert Good(z);
    hide Good;
    assert MetUpTo(z, 1, t, CALM, 450, s.fees) == z;
    assert MetUpTo(z, 2, t, CALM, 450, s.fees) == z;
    Call7Bid(s, z);
    var y := Met(z, 2, t, CALM, 450, s.fees);
    assert MetUpTo(z, 3, t, CALM, 450, s.fees) == y;
    assert MetUpTo(z, 4, t, CALM, 450, s.fees) == y;
    assert Met(y, 4, t, CALM, 450, s.fees) == y;
  }

  lemma Call7Bid(s: Setup, z: Exchange)
    requires s.fees == Fees(0.0, 0.0) && Good(z) && z == X6(s).(lastAgg := Some(2), lastTs := Some(400))
    ensures Met(z, 2, TAPE[1], CALM, 450, s.fees) == X7(s)
  {
    NoFee(Notional(1.0, 99.0), Maker);
    CoverPart(z.pos, 1.0, 99.0, 0.0);
    hide Applied;
    hide FeeOf;
    hide Good;
  }

  lemma Call8(s: Setup)
    requires DistinctIds(s) && Good(X7(s))
    ensures MarketPlaced(X7(s), Buy, 1.0, s.cid(2, ExitLeg), true, CALM, 500, s.fees) == X8(s) && Good(X8(s))
    ensures Polled(X8(s), TAPE, CALM, 500, s.fees) == X8(s)
  {
    assert IndexOf(X7(s).orders, s.cid(2, ExitLeg)).None?;
    assert MarketPlaced(X7(s), Buy, 1.0, s.cid(2, ExitLeg), true, CALM, 500, s.fees) == X8(s);
    assert X8(s).lastAgg == Some(2) && X8(s).lastTs == Some(400);
    hide *;
    NothingNew(X8(s), CALM, 500, s.fees);
  }

  lemma NothingNew(x: Exchange, d: Levels, now: int, fees: Fees)
    requires Good(x) && x.lastAgg == Some(2) && x.lastTs == Some(400)
    ensures Polled(x, TAPE, d, now, fees) == x
  {
    ReadFirst();
    ReadOne(x, TAPE[0], d, now, fees);
    hide Good;
    hide OpenCount;
    hide TradesAfter;
    hide SawAll;
  }

  // ---- the desk, step by step -----------------------------------------------

  function Waiting(ep: int): Rec {
    Rec(false, ep, 1.0, 0.0, 0.0, None, None, false, false)
  }

  function Opened(s: Setup, ep: int): Rec {
    Rec(true, ep, 1.0, 100.0, 0.0, Some(s.cid(ep, StopLeg)), None, false, false)
  }

  /** An order that is neither refused nor rejected leaves a fresh guard as it is. */
  lemma PlacedFresh(s: Setup, x: Exchange, y: Exchange, step: Step, e: Env)
    requires Good(x) && Placing(step) && !e.killed && Lets(s.limits, FRESH_RISK, x, step)
    requires Next(x, step, s.tape, s.fees) == y && y.orders != []
    requires y.orders[|y.orders| - 1].id == step.id && y.orders[|y.orders| - 1].status != Rejected
    ensures Went(s, Guarded(FRESH_RISK, x), step, e)
    ensures Ordered(s, Guarded(FRESH_RISK, x), step, e) == Guarded(FRESH_RISK, y)
  {
    NewestIndex(y.orders, |y.orders| - 1);
    hide Good;
    hide Next;
    hide Lets;
    hide IndexOf;
  }

  /** An entry from flat: sold at 100, stop at 102. */
  lemma EntryRun(s: Setup, k: Desk, ep: int, x: Exchange, y: Exchange, z: Exchange, e: Env)
    requires s.estop == 2.0 && s.limits.maxAbsPosition == 1.0 && Good(x) && x.pos.qty == 0.0 && Pending(x.orders) == 0.0
    requires k.rec == Some(Waiting(ep)) && k.g == Guarded(FRESH_RISK, x) && !e.killed && e.last == 100.0
    requires MarketPlaced(x, Sell, 1.0, s.cid(ep, EntryLeg), false, e.d, e.now, s.fees) == y
    requires StopPlaced(y, Buy, 1.0, 102.0, s.cid(ep, StopLeg), 100.0, e.now) == z && y.pos.qty == -1.0
    requires y.orders == x.orders + [Sold(s, ep, e.now)] && z.orders == y.orders + [Stop(s, ep, e.now)]
    requires FillsOf(y.fills, s.cid(ep, EntryLeg)) == [SoldFill(s, ep, e.now)]
    ensures EntryDone(s, k, ep, e) == k.(rec := Some(Opened(s, ep)), g := Guarded(FRESH_RISK, z))
  {
    var r, f := Waiting(ep), SoldFill(s, ep, e.now);
    var sell, stop := SellAll(s, r, e), StopFor(s, r, 100.0, e);
    EntrySteps(s, ep, x, y, z, e);
    assert OpenedBy(s, r, f) == Opened(s, ep) && !r.open && r.ep == ep && f.qty == r.qty > 0.0 && f.price == 100.0;
    hide *;
    PlacedFresh(s, x, y, sell, e);
    PlacedFresh(s, y, z, stop, e);
    EntryUnfolds(s, k, r, e, Guarded(FRESH_RISK, y), f);
  }

  lemma EntrySteps(s: Setup, ep: int, x: Exchange, y: Exchange, z: Exchange, e: Env)
    requires s.estop == 2.0 && s.limits.maxAbsPosition == 1.0 && Good(x) && x.pos.qty == 0.0 && Pending(x.orders) == 0.0
    requires MarketPlaced(x, Sell, 1.0, s.cid(ep, EntryLeg), false, e.d, e.now, s.fees) == y && y.pos.qty == -1.0
    requires StopPlaced(y, Buy, 1.0, 102.0, s.cid(ep, StopLeg), 100.0, e.now) == z && e.last == 100.0
    requires y.orders == x.orders + [Sold(s, ep, e.now)] && z.orders == y.orders + [Stop(s, ep, e.now)]
    ensures var sell, stop := SellAll(s, Waiting(ep), e), StopFor(s, Waiting(ep), 100.0, e);
            && Next(x, sell, s.tape, s.fees) == y && Next(y, stop, s.tape, s.fees) == z
            && Lets(s.limits, FRESH_RISK, x, sell) && Lets(s.limits, FRESH_RISK, y, stop)
            && y.orders != [] && y.orders[|y.orders| - 1].id == sell.id && y.orders[|y.orders| - 1].status != Rejected
            && z.orders != [] && z.orders[|z.orders| - 1].id == stop.id && z.orders[|z.orders| - 1].status != Rejected
  {
    assert StopPrice(s, 100.0) == 102.0;
    hide Good;
    hide MarketPlaced;
    hide StopPlaced;
    hide StopPrice;
    hide Pending;
  }

  function K(s: Setup, rec: Option<Rec>, queue: seq<Task>, x: Exchange, lastEp: int): Desk {
    Desk(rec, queue, Guarded(FRESH_RISK, x), lastEp, [], 0.0, 0.0)
  }

  lemma Step1(s: Setup)
    requires DistinctIds(s) && Suits(s)
    ensures Good(X2(s)) && Good(EMPTY_EXCHANGE)
    ensures EntryDone(s, K(s, Some(Waiting(1)), [], EMPTY_EXCHANGE, 1), 1, ENTERS_1)
         == K(s, Some(Opened(s, 1)), [], X2(s), 1)
  {
    Call1(s);
    Call2(s);
    FillsOfOne([], SoldFill(s, 1, 100), s.cid(1, EntryLeg));
    assert [] + [SoldFill(s, 1, 100)] == [SoldFill(s, 1, 100)];
    EntryRun(s, K(s, Some(Waiting(1)), [], EMPTY_EXCHANGE, 1), 1, EMPTY_EXCHANGE, X1(s), X2(s), ENTERS_1);
    hide EntryDone;
  }

  /** The bid at 99 rests, and the record knows it. */
  lemma Step2(s: Setup)
    requires DistinctIds(s) && Suits(s) && Good(X2(s))
    ensures Good(X3(s))
    ensures MakerPlaced(s, K(s, Some(Opened(s, 1).(makerTried := true)), [CheckStop], X2(s), 1), 1, BIDS_1)
         == K(s, Some(Opened(s, 1).(makerTried := true, makerId := Some(s.cid(1, MakerLeg)))), [CheckStop], X3(s), 1)
  {
    Call3(s);
    var bid := PlaceGtx(Buy, 1.0, 99.0, s.cid(1, MakerLeg), true, CALM, 150);
    assert Lets(s.limits, FRESH_RISK, X2(s), bid);
    PlacedFresh(s, X2(s), X3(s), bid, BIDS_1);
    NewestIndex(X3(s).orders, 2);
    hide Good;
    hide Ordered;
    hide GtxPlaced;
    hide IndexOf;
    hide Lets;
  }

  /** A look that finds one fill books it. */
  lemma LookFinds(s: Setup, k: Desk, t: Totals, n: nat, e: Env, x: Exchange, f: Fill)
    requires Good(k.g.x) && k.rec.Some? && k.rec.value.open && k.rec.value.stopId.Some? && f.qty > 0.0
    requires PolledTo(s, k.g.x, n, e) == x && FillsOf(x.fills, k.rec.value.stopId.value) == [f]
    ensures StopChecked(s, k, t, n, e) == Finalized(s, k.(g := k.g.(x := x)), t, f.price, f.fee)
  {
    OneFill(f);
    hide Good;
    hide PolledTo;
    hide FillsOf;
    hide Vwap;
    hide FeeSum;
    hide Finalized;
  }

  lemma FirstStopFill(s: Setup)
    requires DistinctIds(s)
    ensures FillsOf(X4(s).fills, s.cid(1, StopLeg)) == [StopFill(s)] && !Quiet(X4(s), s.cid(1, MakerLeg))
  {
    var f := StopFill(s);
    FillsOfOne([SoldFill(s, 1, 100)], f, s.cid(1, StopLeg));
    FillsOfOne([], SoldFill(s, 1, 100), s.cid(1, StopLeg));
    assert [SoldFill(s, 1, 100)] + [f] == X4(s).fills && [] + [SoldFill(s, 1, 100)] == [SoldFill(s, 1, 100)];
    assert X4(s).orders[2] == Bid(s) && IsOpen(Bid(s));
    hide FillsOf;
  }

  /** The stop filled at 102; the bid is left behind. */
  lemma Step3(s: Setup, k: Desk, t: Totals)
    requires DistinctIds(s) && Suits(s) && Good(X3(s)) && k.g == Guarded(FRESH_RISK, X3(s))
    requires k.rec == Some(Opened(s, 1).(makerTried := true, makerId := Some(s.cid(1, MakerLeg))))
    ensures Good(X4(s)) && !Quiet(X4(s), s.cid(1, MakerLeg))
    ensures PolledTo(s, X3(s), 1, LOOKS_1) == X4(s) && FillsOf(X4(s).fills, s.cid(1, StopLeg)) == [StopFill(s)]
    ensures StopChecked(s, k, t, 1, LOOKS_1) == Finalized(s, k.(g := Guarded(FRESH_RISK, X4(s))), t, 102.0, 0.0)
  {
    Call4(s);
    assert PolledTo(s, X3(s), 1, LOOKS_1) == X4(s);
    FirstStopFill(s);
    hide X3;
    hide X4;
    hide Good;
    hide PolledTo;
    hide FillsOf;
    hide Quiet;
    hide StopChecked;
    hide Finalized;
    LookFinds(s, k, t, 1, LOOKS_1, X4(s), StopFill(s));
  }

  lemma Step4(s: Setup, k: Desk)
    requires DistinctIds(s) && Suits(s) && Good(X4(s)) && k.g == Guarded(FRESH_RISK, X4(s))
             && k.rec == Some(Waiting(2))
    ensures Good(X6(s))
    ensures EntryDone(s, k, 2, ENTERS_2) == k.(rec := Some(Opened(s, 2)), g := Guarded(FRESH_RISK, X6(s)))
  {
    Call5(s);
    Call6(s);
    OnlyReducing(X4(s).orders);
    var f, id := SoldFill(s, 2, 300), s.cid(2, EntryLeg);
    FillsOfOne(X4(s).fills, f, id);
    FillsOfNone(X4(s).fills, id);
    EntryRun(s, k, 2, X4(s), X5(s), X6(s), ENTERS_2);
    hide EntryDone;
  }

  /** The next look reads the trade that fires the bid; the stop of signal 2 has not filled. */
  lemma Step5(s: Setup, k: Desk, t: Totals)
    requires DistinctIds(s) && Suits(s) && Good(X6(s)) && k.g == Guarded(FRESH_RISK, X6(s))
             && k.rec == Some(Opened(s, 2))
    ensures Good(X7(s)) && StopChecked(s, k, t, 2, LOOKS_2) == (k.(g := Guarded(FRESH_RISK, X7(s))), t)
  {
    Call7(s);
    ReadFirst();
    assert PolledTo(s, X6(s), 2, LOOKS_2) == X7(s);
    FillsOfNone(X7(s).fills, s.cid(2, StopLeg));
    hide Good;
    hide PolledTo;
    hide FillsOf;
  }

  lemma ExitIs(s: Setup, k: Desk, t: Totals, r: Rec, e: Env)
    requires Good(k.g.x) && k.rec == Some(r) && r.open && r.exitReq && r.makerId.None?
    ensures ExitDone(s, k, t, r.ep, e) == BoughtAtMarket(s, k, t, k.g.x, r, [], e)
  {
    hide Good;
    hide BoughtAtMarket;
  }

  /** The exit order expires. */
  lemma ExitRun(s: Setup)
    requires DistinctIds(s) && Suits(s) && Good(X7(s))
    ensures Good(X8(s)) && PolledTo(s, X8(s), 2, EXITS_2) == X8(s)
    ensures FillsOf(X8(s).fills, s.cid(2, ExitLeg)) == [] && FillsOf(X8(s).fills, s.cid(2, StopLeg)) == []
    ensures Ordered(s, Guarded(FRESH_RISK, X7(s)), BuyAll(s, Opened(s, 2), EXITS_2), EXITS_2)
         == Guarded(FRESH_RISK, X8(s))
    ensures var reply := ReplyTo(X8(s), s.cid(2, ExitLeg)); reply.Got? && reply.order.status == Expired
  {
    Call8(s);
    ReadFirst();
    var e, id := EXITS_2, s.cid(2, ExitLeg);
    var buy := BuyAll(s, Opened(s, 2), e);
    assert Lets(s.limits, FRESH_RISK, X7(s), buy);
    PlacedFresh(s, X7(s), X8(s), buy, e);
    NewestIndex(X8(s).orders, 5);
    FillsOfNone(X8(s).fills, id);
    FillsOfNone(X8(s).fills, s.cid(2, StopLeg));
    hide Good;
    hide MarketPlaced;
    hide Ordered;
    hide Lets;
    hide IndexOf;
    hide FillsOf;
  }

  /** At the exit nothing is held: the order expires and the record is booked without a result. */
  lemma Step6(s: Setup, k: Desk, t: Totals)
    requires DistinctIds(s) && Suits(s) && Good(X7(s)) && k.g == Guarded(FRESH_RISK, X7(s))
    requires k.rec == Some(Opened(s, 2).(exitReq := true))
    ensures Good(X8(s))
    ensures var (gone, after) := Finalized(s, k.(g := Guarded(FRESH_RISK, X8(s))), t, 100.0, 0.0);
            ExitDone(s, k, t, 2, EXITS_2) == (GuardStopped(gone), after)
  {
    ExitRun(s);
    var r, e, g := k.rec.value, EXITS_2, Guarded(FRESH_RISK, X8(s));
    assert BuyAll(s, r, e) == BuyAll(s, Opened(s, 2), e) && k.g.(x := X7(s)) == k.g;
    assert r.open && r.exitReq && r.makerId.None? && r.ep == 2 && r.entryPx == 100.0 && e.n3 == 2;
    assert r.stopId == Some(s.cid(2, StopLeg));
    assert k.(g := g.(x := X8(s))) == k.(g := Guarded(FRESH_RISK, X8(s)));
    hide *;
    ExitIs(s, k, t, r, e);
    AtMarketExpired(s, k, t, X7(s), r, e, g);
    NothingFound(s, k, t, g, r, e, X8(s));
  }

  // ---- the run --------------------------------------------------------------

  function Booked1(): Totals {
    Totals(-2.0, -2.0, 0.0, 1, false)
  }

  /** The desk and the totals after the first `i` moves. */
  function Stage(s: Setup, i: nat): (Desk, Totals)
    requires i <= 11
  {
    var r1, r2 := Opened(s, 1).(makerTried := true), Opened(s, 2);
    var bid := r1.(makerId := Some(s.cid(1, MakerLeg)));
    var lost := Desk(None, [], Guarded(FRESH_RISK, X4(s)), 1, [1], -2.0, 0.0);
    match i
    case 0 => (NEW_DESK, NEW_TOTALS)
    case 1 => (K(s, Some(Waiting(1)), [DoEntry(1)], EMPTY_EXCHANGE, 1), NEW_TOTALS)
    case 2 => (K(s, Some(Opened(s, 1)), [], X2(s), 1), NEW_TOTALS)
    case 3 => (K(s, Some(r1), [PlaceMaker(1), CheckStop], X2(s), 1), NEW_TOTALS)
    case 4 => (K(s, Some(bid), [CheckStop], X3(s), 1), NEW_TOTALS)
    case 5 => (lost, Booked1())
    case 6 => (lost.(rec := Some(Waiting(2)), queue := [DoEntry(2)], lastEp := 2), Booked1())
    case 7 => (lost.(rec := Some(r2), lastEp := 2, g := Guarded(FRESH_RISK, X6(s))), Booked1())
    case 8 => (lost.(rec := Some(r2), queue := [CheckStop], lastEp := 2, g := Guarded(FRESH_RISK, X6(s))), Booked1())
    case 9 => (lost.(rec := Some(r2), lastEp := 2, g := Guarded(FRESH_RISK, X7(s))), Booked1())
    case 10 =>
      (lost.(rec := Some(r2.(exitReq := true)), queue := [DoExit(2)], lastEp := 2, g := Guarded(FRESH_RISK, X7(s))),
       Booked1())
    case _ =>
      (GuardStopped(lost.(lastEp := 2, g := Guarded(FRESH_RISK, X8(s)), done := [1, 2])), Booked1().(trades := 2))
  }

  ghost predicate At(s: Setup, f: Firm, i: nat)
    requires i <= 11
  {
    f == Firm([Stage(s, i).0], Stage(s, i).1)
  }

  function MainDone(k: Desk, t: Totals, m: Move): Desk {
    match m
    case Enter(_, ep, qty, killed, gate) => Entered(k, t, ep, qty, killed, gate)
    case Leave(_, ep) => ExitAsked(k, ep)
    case Tick(_, due) => Ticked(k, due)
    case _ => k
  }

  lemma MainIs(s: Setup, f: Firm, k: Desk, t: Totals, m: Move)
    requires AllGood(f) && f == Firm([k], t) && !m.Work? && !m.Reopen? && m.i == 0
    ensures Moved(s, f, m) == Firm([MainDone(k, t, m)], t)
  {
    assert f.desks[0] == k;
    hide Good;
    hide Entered;
    hide ExitAsked;
    hide Ticked;
  }

  /** What the main thread does at each stage. */
  lemma MainStage(s: Setup, i: nat)
    requires i < 11 && !MOVES[i].Work?
    ensures MainDone(Stage(s, i).0, Stage(s, i).1, MOVES[i]) == Stage(s, i + 1).0 && Stage(s, i).1 == Stage(s, i + 1).1
    ensures MOVES[i].i == 0 && !MOVES[i].Reopen?
  {
    hide X2;
    hide X4;
    hide X6;
    hide X7;
    assert i == 0 || i == 2 || i == 5 || i == 7 || i == 9;
    if i == 0 {
    } else if i == 2 {
    } else if i == 5 {
    } else if i == 7 {
    } else {
    }
  }

  lemma MainMove(s: Setup, f: Firm, i: nat)
    requires i < 11 && AllGood(f) && At(s, f, i) && !MOVES[i].Work?
    ensures At(s, Moved(s, f, MOVES[i]), i + 1)
  {
    hide Stage;
    hide MainDone;
    hide Moved;
    hide Good;
    MainStage(s, i);
    MainIs(s, f, Stage(s, i).0, Stage(s, i).1, MOVES[i]);
  }

  lemma WorkIs(s: Setup, f: Firm, k: Desk, t: Totals, e: Env)
    requires AllGood(f) && f == Firm([k], t) && k.queue != []
    ensures Good(k.g.x)
    ensures var (j, u) := TaskDone(s, k.(queue := k.queue[1..]), t, k.queue[0], e);
            Moved(s, f, Work(0, e)) == Firm([j], u)
  {
    assert f.desks[0] == k;
    hide Good;
    hide TaskDone;
  }

  /** What the worker does at each stage. */
  ghost predicate Works(s: Setup, i: nat)
    requires i < 11
  {
    var (k, t) := Stage(s, i);
    && Good(k.g.x) && k.queue != [] && MOVES[i].Work? && MOVES[i].i == 0
    && TaskDone(s, k.(queue := k.queue[1..]), t, k.queue[0], MOVES[i].e) == Stage(s, i + 1)
  }

  lemma WorksBy(s: Setup, i: nat, j: Desk, task: Task)
    requires i < 11 && Good(j.g.x) && MOVES[i].Work? && MOVES[i].i == 0
    requires Stage(s, i).0.queue == [task] + j.queue && j == Stage(s, i).0.(queue := j.queue)
    requires TaskDone(s, j, Stage(s, i).1, task, MOVES[i].e) == Stage(s, i + 1)
    ensures Works(s, i)
  {
    hide Stage;
    hide TaskDone;
    hide Good;
    assert ([task] + j.queue)[1..] == j.queue;
  }

  lemma TaskIs(s: Setup, k: Desk, t: Totals, ep: int, e: Env)
    requires Good(k.g.x)
    ensures TaskDone(s, k, t, DoEntry(ep), e) == (EntryDone(s, k, ep, e), t)
    ensures TaskDone(s, k, t, PlaceMaker(ep), e) == (MakerPlaced(s, k, ep, e), t)
    ensures TaskDone(s, k, t, CheckStop, e) == StopChecked(s, k, t, e.n1, e)
    ensures TaskDone(s, k, t, DoExit(ep), e) == ExitDone(s, k, t, ep, e)
  {
    hide Good;
    hide EntryDone;
    hide MakerPlaced;
    hide StopChecked;
    hide ExitDone;
  }

  lemma Work1(s: Setup)
    requires DistinctIds(s) && Suits(s)
    ensures Works(s, 1) && Good(X2(s))
  {
    hide X2;
    hide X3;
    hide X4;
    hide X6;
    hide X7;
    hide DistinctIds;
    hide Good;
    var j := K(s, Some(Waiting(1)), [], EMPTY_EXCHANGE, 1);
    assert [DoEntry(1)] + j.queue == [DoEntry(1)];
    assert Stage(s, 1) == (j.(queue := [DoEntry(1)] + j.queue), NEW_TOTALS) && j == j.(queue := j.queue);
    assert Stage(s, 2) == (K(s, Some(Opened(s, 1)), [], X2(s), 1), NEW_TOTALS) && j.g.x == EMPTY_EXCHANGE;
    assert MOVES[1] == Work(0, ENTERS_1);
    hide *;
    Step1(s);
    TaskIs(s, j, NEW_TOTALS, 1, ENTERS_1);
    WorksBy(s, 1, j, DoEntry(1));
  }

  lemma Work3(s: Setup)
    requires DistinctIds(s) && Suits(s) && Good(X2(s))
    ensures Works(s, 3) && Good(X3(s))
  {
    hide X2;
    hide X3;
    hide X4;
    hide X6;
    hide X7;
    hide DistinctIds;
    hide Good;
    var r := Opened(s, 1).(makerTried := true);
    var j := K(s, Some(r), [CheckStop], X2(s), 1);
    assert [PlaceMaker(1)] + j.queue == [PlaceMaker(1), CheckStop];
    assert Stage(s, 3) == (j.(queue := [PlaceMaker(1)] + j.queue), NEW_TOTALS) && j == j.(queue := j.queue);
    assert Stage(s, 4) == (K(s, Some(r.(makerId := Some(s.cid(1, MakerLeg)))), [CheckStop], X3(s), 1), NEW_TOTALS);
    assert j.g.x == X2(s);
    assert MOVES[3] == Work(0, BIDS_1);
    hide *;
    Step2(s);
    TaskIs(s, j, NEW_TOTALS, 1, BIDS_1);
    WorksBy(s, 3, j, PlaceMaker(1));
  }

  lemma Work4(s: Setup)
    requires DistinctIds(s) && Suits(s) && Good(X3(s))
    ensures Works(s, 4) && Good(X4(s))
    ensures !StopAlone(s, Stage(s, 4).0, 1, LOOKS_1)
  {
    hide X2;
    hide X3;
    hide X4;
    hide X6;
    hide X7;
    hide DistinctIds;
    hide Good;
    var r := Opened(s, 1).(makerTried := true, makerId := Some(s.cid(1, MakerLeg)));
    var j := K(s, Some(r), [], X3(s), 1);
    assert [CheckStop] + j.queue == [CheckStop];
    assert Stage(s, 4) == (j.(queue := [CheckStop] + j.queue), NEW_TOTALS) && j == j.(queue := j.queue);
    assert j.g == Guarded(FRESH_RISK, X3(s)) && j.rec == Some(r);
    FirstBooked(s, j);
    assert MOVES[4] == Work(0, LOOKS_1);
    hide *;
    Step3(s, j, NEW_TOTALS);
    TaskIs(s, j, NEW_TOTALS, 1, LOOKS_1);
    WorksBy(s, 4, j, CheckStop);
    FirstUnsafe(s, Stage(s, 4).0);
  }

  lemma FirstUnsafe(s: Setup, k: Desk)
    requires Good(k.g.x) && k.g.x == X3(s) && k.rec.Some? && k.rec.value.open && k.rec.value.ep == 1
    requires k.rec.value.stopId == Some(s.cid(1, StopLeg))
    requires PolledTo(s, X3(s), 1, LOOKS_1) == X4(s) && !Quiet(X4(s), s.cid(1, MakerLeg))
    requires FillsOf(X4(s).fills, s.cid(1, StopLeg)) == [StopFill(s)]
    ensures !StopAlone(s, k, 1, LOOKS_1)
  {
    hide Good;
    hide PolledTo;
    hide FillsOf;
    hide Quiet;
    hide X3;
    hide X4;
  }

  lemma FirstBooked(s: Setup, k: Desk)
    requires k == K(s, Some(Opened(s, 1).(makerTried := true, makerId := Some(s.cid(1, MakerLeg)))), [], X3(s), 1)
    requires s.stopLine == -1000.0
    ensures Finalized(s, k.(g := Guarded(FRESH_RISK, X4(s))), NEW_TOTALS, 102.0, 0.0) == Stage(s, 5)
  {
    assert [] + [1] == [1];
    hide X3;
    hide X4;
  }

  lemma Work6(s: Setup)
    requires DistinctIds(s) && Suits(s) && Good(X4(s))
    ensures Works(s, 6) && Good(X6(s))
  {
    hide X2;
    hide X3;
    hide X4;
    hide X6;
    hide X7;
    hide DistinctIds;
    hide Good;
    var j, t := Stage(s, 6).0.(queue := []), Booked1();
    assert [DoEntry(2)] + j.queue == [DoEntry(2)];
    assert Stage(s, 6) == (j.(queue := [DoEntry(2)] + j.queue), t) && j == j.(queue := j.queue);
    assert j.g == Guarded(FRESH_RISK, X4(s)) && j.rec == Some(Waiting(2));
    assert Stage(s, 7) == (j.(rec := Some(Opened(s, 2)), g := Guarded(FRESH_RISK, X6(s))), t);
    assert MOVES[6] == Work(0, ENTERS_2);
    hide *;
    Step4(s, j);
    TaskIs(s, j, t, 2, ENTERS_2);
    WorksBy(s, 6, j, DoEntry(2));
  }

  lemma Work8(s: Setup)
    requires DistinctIds(s) && Suits(s) && Good(X6(s))
    ensures Works(s, 8) && Good(X7(s))
  {
    hide X2;
    hide X3;
    hide X4;
    hide X6;
    hide X7;
    hide DistinctIds;
    hide Good;
    var j, t := Stage(s, 8).0.(queue := []), Booked1();
    assert [CheckStop] + j.queue == [CheckStop];
    assert Stage(s, 8) == (j.(queue := [CheckStop] + j.queue), t) && j == j.(queue := j.queue);
    assert j.g == Guarded(FRESH_RISK, X6(s)) && j.rec == Some(Opened(s, 2));
    assert Stage(s, 9) == (j.(g := Guarded(FRESH_RISK, X7(s))), t);
    assert MOVES[8] == Work(0, LOOKS_2);
    hide *;
    Step5(s, j, t);
    TaskIs(s, j, t, 2, LOOKS_2);
    WorksBy(s, 8, j, CheckStop);
  }

  lemma Work10(s: Setup)
    requires DistinctIds(s) && Suits(s) && Good(X7(s))
    ensures Works(s, 10)
  {
    hide X2;
    hide X3;
    hide X4;
    hide X6;
    hide X7;
    hide DistinctIds;
    hide Good;
    var j, t := Stage(s, 10).0.(queue := []), Booked1();
    assert [DoExit(2)] + j.queue == [DoExit(2)];
    assert Stage(s, 10) == (j.(queue := [DoExit(2)] + j.queue), t) && j == j.(queue := j.queue);
    assert j.g == Guarded(FRESH_RISK, X7(s)) && j.rec == Some(Opened(s, 2).(exitReq := true));
    LastBooked(s, j);
    assert MOVES[10] == Work(0, EXITS_2);
    hide *;
    Step6(s, j, t);
    TaskIs(s, j, t, 2, EXITS_2);
    WorksBy(s, 10, j, DoExit(2));
  }

  lemma LastBooked(s: Setup, k: Desk)
    requires k == Stage(s, 10).0.(queue := []) && s.stopLine == -1000.0
    ensures var (gone, after) := Finalized(s, k.(g := Guarded(FRESH_RISK, X8(s))), Booked1(), 100.0, 0.0);
            (GuardStopped(gone), after) == Stage(s, 11)
  {
    assert [1] + [2] == [1, 2];
    hide X4;
    hide X7;
    hide X8;
  }

  lemma WorkMove(s: Setup, f: Firm, i: nat)
    requires DistinctIds(s) && Suits(s) && i < 11 && AllGood(f) && At(s, f, i) && MOVES[i].Work?
    ensures At(s, Moved(s, f, MOVES[i]), i + 1)
    ensures i == 4 ==> !Safe(s, f, MOVES[i])
  {
    assert i == 1 || i == 3 || i == 4 || i == 6 || i == 8 || i == 10;
    assert LOOKS_1.n1 == 1;
    assert i == 4 ==> Stage(s, i).0.queue == [CheckStop];
    hide *;
    Work1(s);
    Work3(s);
    Work4(s);
    Work6(s);
    Work8(s);
    Work10(s);
    AtWorks(s, f, i);
  }

  lemma AtWorks(s: Setup, f: Firm, i: nat)
    requires i < 11 && AllGood(f) && At(s, f, i) && Works(s, i)
    requires i == 4 ==> Stage(s, i).0.queue == [CheckStop] && MOVES[i].e.n1 == 1
    requires i == 4 ==> Good(Stage(s, i).0.g.x) && !StopAlone(s, Stage(s, i).0, 1, MOVES[i].e)
    ensures At(s, Moved(s, f, MOVES[i]), i + 1)
    ensures i == 4 ==> !Safe(s, f, MOVES[i])
  {
    hide Stage;
    hide TaskDone;
    hide Moved;
    hide Good;
    hide StopAlone;
    var (k, t) := Stage(s, i);
    WorkIs(s, f, k, t, MOVES[i].e);
    assert f.desks[0] == k;
  }

  lemma {:induction false} ReachesStage(i: nat)
    requires i <= 11
    ensures At(SETUP, After(SETUP, 1, MOVES[..i]), i)
    ensures i > 4 ==> !Safe(SETUP, After(SETUP, 1, MOVES[..4]), MOVES[4])
  {
    hide Moved;
    hide Stage;
    hide Safe;
    SetupIds();
    if i == 0 {
      StartsFresh();
    } else {
      ReachesStage(i - 1);
      var f := After(SETUP, 1, MOVES[..i - 1]);
      AfterOne(SETUP, 1, MOVES, i - 1);
      if MOVES[i - 1].Work? {
        WorkMove(SETUP, f, i - 1);
      } else {
        MainMove(SETUP, f, i - 1);
      }
      hide At;
      hide After;
    }
  }

  lemma StartsFresh()
    ensures At(SETUP, Opening(1), 0)
  {
    assert Opening(1).desks == [NEW_DESK];
  }

  lemma SignalsInTurn(i: nat)
    requires i < 11
    ensures InTurn(After(SETUP, 1, MOVES[..i]), MOVES[i])
  {
    ReachesStage(i);
    hide After;
    if MOVES[i].Enter? {
      assert i == 0 || i == 5;
      hide X4;
    }
  }

  lemma AtTheEnd(s: Setup, f: Firm)
    requires At(s, f, 11)
    ensures |f.desks| == 1 && f.desks[0].rec.None? && f.desks[0].g.x.pos.qty == 0.0
    ensures f.totals.gross == -2.0 && RealizedSum(f.desks) == -1.0
  {
    assert f.desks == [f.desks[0]] && f.desks[..0] == [];
    assert RealizedSum(f.desks[..0]) == 0.0;
    assert f.desks[0].g.x.pos.realized == -1.0;
  }

  /** No record is open, nothing is held, and ledger and broker disagree: -2 against -1. */
  lemma LedgerDrifts()
    ensures DistinctIds(SETUP) && AlwaysInTurn(SETUP, 1, MOVES) && !AlwaysSafe(SETUP, 1, MOVES)
    ensures var f := After(SETUP, 1, MOVES);
            && f.desks[0].rec.None? && f.desks[0].g.x.pos.qty == 0.0
            && f.totals.gross == -2.0 && RealizedSum(f.desks) == -1.0
  {
    SetupIds();
    assert MOVES[..11] == MOVES && |MOVES| == 11;
    hide After;
    hide Safe;
    hide At;
    hide InTurn;
    hide DistinctIds;
    ReachesStage(11);
    forall i | 0 <= i < 11 ensures InTurn(After(SETUP, 1, MOVES[..i]), MOVES[i]) {
      SignalsInTurn(i);
    }
    AtTheEnd(SETUP, After(SETUP, 1, MOVES));
    hide RealizedSum;
  }
}
