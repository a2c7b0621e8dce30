/** The trader as it runs: one object per symbol, the totals object they share, and the guarded broker. */
module Traders {
  import opened Basics
  import opened Positions
  import opened Paper
  import opened Polling
  import opened RiskGuards
  import opened Ledger
  import opened Accounts
  import opened LedgerAgrees

  /** The part of the saved state that all symbols share. */
  class TraderState {
    var cumNet: real
    var cumGross: real
    var cumFees: real
    var nTrades: nat
    var halted: bool

    function View(): Totals
      reads this
    {
      Totals(cumNet, cumGross, cumFees, nTrades, halted)
    }

    constructor ()
      ensures View() == NEW_TOTALS
    {
      cumNet, cumGross, cumFees, nTrades, halted := 0.0, 0.0, 0.0, 0, false;
    }

    /** Resume by hand, totals kept. */
    method Reopen()
      modifies this
      ensures View() == old(View()).(halted := false)
    {
      halted := false;
    }
  }

  lemma OrdersIgnoreTape(s: Setup, g: Guarded, step: Step, killed: bool)
    requires Good(g.x) && Placing(step)
    ensures Placed(s.limits, g, step, killed, [], s.fees) == Placed(s.limits, g, step, killed, s.tape, s.fees)
  {
    hide Good;
    hide Lets;
    hide Judged;
    hide MarketPlaced;
    hide GtxPlaced;
    hide StopPlaced;
  }

  class Trader {
    const s: Setup
    const guard: RiskGuard
    const state: TraderState
    var rec: Option<Rec>
    var queue: seq<Task>
    var lastEp: int
    ghost var done: seq<int>
    ghost var gross: real
    ghost var fees: real

    ghost function View(): Desk
      reads this, guard, guard.broker, guard.broker.pos
    {
      Desk(rec, queue, guard.View(), lastEp, done, gross, fees)
    }

    ghost predicate Valid()
      reads this, guard, guard.broker, guard.broker.pos
    {
      guard.Valid() && guard.limits == s.limits && guard.broker.fees == s.fees
    }

    /** The ledger agrees with the broker exactly. */
    ghost predicate Agrees()
      reads this, guard, guard.broker, guard.broker.pos
    {
      Valid() && Exact(s, View())
    }

    constructor (s: Setup, guard: RiskGuard, state: TraderState)
      requires guard.Valid() && guard.limits == s.limits && guard.broker.fees == s.fees
      requires guard.View() == Guarded(FRESH_RISK, EMPTY_EXCHANGE)
      ensures Valid() && this.s == s && this.guard == guard && this.state == state && View() == NEW_DESK
    {
      this.s, this.guard, this.state := s, guard, state;
      rec, queue, lastEp := None, [], -1;
      done, gross, fees := [], 0.0, 0.0;
    }

    // ---- main thread --------------------------------------------------------

    method OnEntry(ep: int, qty: real, killed: bool, gate: bool)
      requires Valid()
      modifies this, guard
      ensures Valid() && View() == Entered(old(View()), state.View(), ep, qty, killed, gate)
      ensures old(Agrees()) && old(lastEp) < ep ==> Agrees()
    {
      MainExact(s, View(), state.View(), ep, qty, killed, gate, Due(false, false, false, false));
      hide Exact;
      hide Good;
      if state.halted {
        return;
      }
      var may := guard.CanEnter(killed);
      if !may || rec.Some? || !gate {
        return;
      }
      rec := Some(Rec(false, ep, qty, 0.0, 0.0, None, None, false, false));
      queue := queue + [DoEntry(ep)];
      lastEp := ep;
    }

    method OnExit(ep: int)
      requires Valid()
      modifies this
      ensures Valid() && View() == ExitAsked(old(View()), ep)
      ensures old(Agrees()) ==> Agrees()
    {
      MainExact(s, View(), state.View(), ep, 0.0, false, false, Due(false, false, false, false));
      hide Exact;
      if rec.None? || rec.value.ep != ep {
        return;
      }
      rec := Some(rec.value.(exitReq := true));
      queue := queue + [DoExit(ep)];
    }

    method Periodic(due: Due)
      requires Valid()
      modifies this
      ensures Valid() && View() == Ticked(old(View()), due)
      ensures old(Agrees()) ==> Agrees()
    {
      MainExact(s, View(), state.View(), lastEp, 0.0, false, false, due);
      hide Exact;
      if rec.None? || !rec.value.open {
        return;
      }
      var r := rec.value;
      if r.exitReq && due.retry {
        queue := queue + [DoExit(r.ep)];
        return;
      }
      if !r.exitReq {
        if r.makerId.Some? {
          queue := queue + [PollMaker(r.ep)];
        } else if !r.makerTried && due.maker {
          rec := Some(r.(makerTried := true));
          queue := queue + [PlaceMaker(r.ep)];
        }
      }
      if due.overdue {
        rec := Some(rec.value.(exitReq := true));
        queue := queue + [DoExit(r.ep)];
        return;
      }
      if r.stopId.Some? && due.stop {
        queue := queue + [CheckStop];
      }
    }

    // ---- what the tasks share -----------------------------------------------

    /** Book the record as closed at this price and fee, and stop entries at the stop line. */
    method Finalize(exitPx: real, exitFee: real)
      requires Valid()
      modifies this, state
      ensures Valid() && (View(), state.View()) == Finalized(s, old(View()), old(state.View()), exitPx, exitFee)
    {
      hide GrossOf;
      if rec.None? {
        return;
      }
      var r := rec.value;
      var won := GrossOf(r.entryPx, exitPx, r.qty);
      var paid := r.entryFee + exitFee;
      var net := won - paid;
      state.cumNet := state.cumNet + net;
      state.cumGross := state.cumGross + won;
      state.cumFees := state.cumFees + paid;
      state.nTrades := state.nTrades + 1;
      rec := None;
      if !state.halted && state.cumNet <= s.stopLine {
        state.halted := true;
      }
      done, gross, fees := done + [r.ep], gross + won, fees + paid;
    }

    method PollBroker(n: nat, e: Env)
      requires Valid()
      modifies guard.broker, guard.broker.pos
      ensures Valid() && guard.broker.View() == PolledTo(s, old(guard.broker.View()), n, e)
    {
      hide Good;
      hide Polled;
      guard.broker.Poll(s.tape[..if n < |s.tape| then n else |s.tape|], e.d, e.now);
    }

    /** Cancelling what is unknown or no longer open changes nothing. */
    method CancelOrder(id: Option<string>)
      requires Valid()
      modifies guard.broker
      ensures Valid() && guard.broker.View() == Without(old(guard.broker.View()), id)
    {
      hide Good;
      if id.Some? {
        var _ := guard.broker.Cancel(id.value);
      }
    }

    method CloseMaker(id: string, e: Env) returns (made: seq<Fill>)
      requires Valid()
      modifies guard.broker, guard.broker.pos
      ensures Valid() && guard.broker.View() == MakerClosed(s, old(guard.broker.View()), Some(id), e)
      ensures made == FillsOf(guard.broker.fills, id)
    {
      hide Good;
      PollBroker(e.n1, e);
      CancelOrder(Some(id));
      PollBroker(e.n2, e);
      made := FillsOf(guard.broker.fills, id);
    }

    // ---- the worker's tasks -------------------------------------------------

    /** Sell at market, then rest the emergency stop; without a fill the record is dropped. */
    method EnterNow(ep: int, e: Env)
      requires Valid()
      modifies this, guard, guard.broker, guard.broker.pos
      ensures Valid() && View() == EntryDone(s, old(View()), ep, e)
      ensures old(Agrees()) ==> Agrees()
    {
      TasksExact(s, View(), state.View(), ep, e);
      hide ExitDone;
      hide MakerPlaced;
      hide MakerPolled;
      hide Exact;
      hide Good;
      hide Placed;
      hide Lets;
      hide StopRested;
      hide FillsOf;
      if rec.None? || rec.value.ep != ep || rec.value.open {
        return;
      }
      if guard.broker.pos.qty != 0.0 {
        rec := None;
        return;
      }
      var r, id := rec.value, s.cid(ep, EntryLeg);
      OrdersIgnoreTape(s, guard.View(), PlaceMarket(Sell, r.qty, id, false, e.d, e.now), e.killed);
      var answer := guard.PlaceMarket(Sell, r.qty, id, false, e.d, e.now, e.killed);
      var fills := FillsOf(guard.broker.fills, id);
      if answer.Blocked? || fills == [] {
        rec := None;
        return;
      }
      FillsArePositive(guard.broker.View(), fills);
      RestStop(r, fills, e);
    }

    /** The record is open; rest its emergency stop. */
    method RestStop(r: Rec, fills: seq<Fill>, e: Env)
      requires Valid() && fills != [] && forall f :: f in fills ==> f.qty > 0.0
      modifies this, guard, guard.broker, guard.broker.pos
      ensures Valid() && View() == StopRested(s, old(View()), old(guard.View()), r, fills, e)
    {
      hide Good;
      hide Placed;
      hide Lets;
      hide StopPrice;
      var qty, px, fee := QtySum(fills), Vwap(fills), FeeSum(fills);
      hide QtySum;
      hide Vwap;
      hide FeeSum;
      var stopId := s.cid(r.ep, StopLeg);
      OrdersIgnoreTape(s, guard.View(), PlaceStop(Buy, qty, StopPrice(s, px), stopId, e.last, e.now), e.killed);
      var stop := guard.PlaceStopMarket(Buy, qty, StopPrice(s, px), stopId, e.last, e.now, e.killed);
      rec := Some(r.(open := true, qty := qty, entryPx := px, entryFee := fee,
                     stopId := if stop.Sent? then Some(stopId) else None));
    }

    /** Look whether the emergency stop has filled. */
    method CheckStopNow(n: nat, e: Env)
      requires Valid()
      modifies this, state, guard.broker, guard.broker.pos
      ensures Valid() && (View(), state.View()) == StopChecked(s, old(View()), old(state.View()), n, e)
      ensures old(Agrees()) ==> (Agrees() <==> old(StopAlone(s, View(), n, e)))
    {
      LookExact(s, View(), state.View(), n, e);
      hide Exact;
      hide StopAlone;
      hide Good;
      hide PolledTo;
      hide Finalized;
      if rec.None? || rec.value.stopId.None? || !rec.value.open {
        return;
      }
      PollBroker(n, e);
      var fills := FillsOf(guard.broker.fills, rec.value.stopId.value);
      if fills == [] {
        return;
      }
      FillsArePositive(guard.broker.View(), fills);
      Finalize(Vwap(fills), FeeSum(fills));
    }

    method CancelStopAndFinalize(stopId: Option<string>, px: real, fee: real)
      requires Valid()
      modifies this, state, guard.broker
      ensures Valid()
      ensures (View(), state.View())
           == Finalized(s, old(View()).(g := old(View()).g.(x := Without(old(View()).g.x, stopId))), old(state.View()),
                        px, fee)
    {
      hide Good;
      hide Without;
      hide Finalized;
      CancelOrder(stopId);
      Finalize(px, fee);
    }

    /** Clear the maker order, buy back the rest, book the result. */
    method ExitNow(ep: int, e: Env)
      requires Valid()
      modifies this, state, guard, guard.broker, guard.broker.pos
      ensures Valid() && (View(), state.View()) == ExitDone(s, old(View()), old(state.View()), ep, e)
      ensures old(Agrees()) ==> Agrees()
    {
      TasksExact(s, View(), state.View(), ep, e);
      hide EntryDone;
      hide MakerPlaced;
      hide MakerPolled;
      hide Exact;
      hide Good;
      hide Finalized;
      hide MakerClosed;
      hide BoughtAtMarket;
      hide Without;
      if rec.None? || rec.value.ep != ep || !rec.value.open || !rec.value.exitReq {
        return;
      }
      var r := rec.value;
      var made: seq<Fill> := [];
      if r.makerId.Some? {
        made := CloseMaker(r.makerId.value, e);
        FillsArePositive(guard.broker.View(), made);
      } else {
        NothingClosed(s, guard.broker.View(), e);
      }
      if made != [] && QtySum(made) >= r.qty {
        CancelStopAndFinalize(r.stopId, Vwap(made), FeeSum(made));
        return;
      }
      BoughtFrom(s, old(View()), state.View(), guard.broker.View(), r, made, e);
      BuyBack(r, made, e);
    }

    method BuyBack(r: Rec, made: seq<Fill>, e: Env)
      requires Valid() && forall f :: f in made ==> f.qty > 0.0
      modifies this, state, guard, guard.broker, guard.broker.pos
      ensures Valid()
      ensures (View(), state.View())
              == BoughtAtMarket(s, old(View()), old(state.View()), old(guard.broker.View()), r, made, e)
    {
      hide Good;
      hide Finalized;
      hide Placed;
      hide Lets;
      hide Without;
      hide StopOrNothing;
      hide Vwap;
      hide QtySum;
      hide FeeSum;
      hide FillsOf;
      var id := s.cid(r.ep, ExitLeg);
      var buy := PlaceMarket(Buy, r.qty - QtySum(made), id, true, e.d, e.now);
      OrdersIgnoreTape(s, guard.View(), buy, e.killed);
      var answer := guard.PlaceMarket(Buy, buy.qty, id, true, e.d, e.now, e.killed);
      var fills := FillsOf(guard.broker.fills, id);
      FillsArePositive(guard.broker.View(), fills);
      var i := IndexOf(guard.broker.orders, id);
      if fills + made != [] {
        CancelStopAndFinalize(r.stopId, Vwap(fills + made), FeeSum(fills) + FeeSum(made));
      } else if i.Some? && guard.broker.orders[i.value].status == Expired {
        NothingHeld(r, e);
      }
    }

    /** Nothing was held at the exit: book the stop's fill, and without one halt the guard. */
    method NothingHeld(r: Rec, e: Env)
      requires Valid()
      modifies this, state, guard, guard.broker, guard.broker.pos
      ensures Valid() && (View(), state.View()) == StopOrNothing(s, old(View()), old(state.View()), r, e)
    {
      hide Good;
      hide Finalized;
      hide StopChecked;
      CheckStopNow(e.n3, e);
      if rec.None? {
        return;
      }
      Finalize(r.entryPx, 0.0);
      guard.SetStatus(Halted, "no position at exit");
    }

    /** Rest a reduce-only bid shortly before the deadline. */
    method PlaceMakerNow(ep: int, e: Env)
      requires Valid()
      modifies this, guard, guard.broker, guard.broker.pos
      ensures Valid() && View() == MakerPlaced(s, old(View()), ep, e)
      ensures old(Agrees()) ==> Agrees()
    {
      TasksExact(s, View(), state.View(), ep, e);
      hide EntryDone;
      hide ExitDone;
      hide MakerPolled;
      hide Exact;
      hide Good;
      hide Placed;
      hide Lets;
      if rec.None? || rec.value.ep != ep || !rec.value.open || rec.value.exitReq || rec.value.makerId.Some?
        || e.bid.None? {
        return;
      }
      var r, id := rec.value, s.cid(ep, MakerLeg);
      OrdersIgnoreTape(s, guard.View(), PlaceGtx(Buy, r.qty, e.bid.value, id, true, e.d, e.now), e.killed);
      var answer := guard.PlaceLimitGtx(Buy, r.qty, e.bid.value, id, true, e.d, e.now, e.killed);
      var i := IndexOf(guard.broker.orders, id);
      if i.Some? && (IsOpen(guard.broker.orders[i.value]) || guard.broker.orders[i.value].status == Filled) {
        rec := Some(r.(makerId := Some(id)));
      }
    }

    /** Once the maker order has bought everything back, book it. */
    method PollMakerNow(ep: int, e: Env)
      requires Valid()
      modifies this, state, guard.broker, guard.broker.pos
      ensures Valid() && (View(), state.View()) == MakerPolled(s, old(View()), old(state.View()), ep, e)
      ensures old(Agrees()) ==> Agrees()
    {
      TasksExact(s, View(), state.View(), ep, e);
      hide EntryDone;
      hide ExitDone;
      hide MakerPlaced;
      hide Exact;
      hide Good;
      hide PolledTo;
      hide Finalized;
      hide Without;
      if rec.None? || rec.value.ep != ep || !rec.value.open || rec.value.makerId.None? {
        return;
      }
      var r := rec.value;
      PollBroker(e.n1, e);
      var made := FillsOf(guard.broker.fills, r.makerId.value);
      if made == [] || QtySum(made) < r.qty {
        return;
      }
      FillsArePositive(guard.broker.View(), made);
      CancelStopAndFinalize(r.stopId, Vwap(made), FeeSum(made));
    }

    /** The next queued task, if there is one. */
    method WorkOne(e: Env)
      requires Valid()
      modifies this, state, guard, guard.broker, guard.broker.pos
      ensures Valid() && (View(), state.View()) == Worked(s, old(View()), old(state.View()), e)
      ensures old(Agrees()) ==> (Agrees() <==> old(queue != [] ==> TaskSafe(s, View(), queue[0], e)))
    {
      WorkExact(s, View(), state.View(), e);
      hide Exact;
      hide TaskSafe;
      hide Good;
      hide EntryDone;
      hide ExitDone;
      hide MakerPlaced;
      hide MakerPolled;
      hide StopChecked;
      if queue == [] {
        return;
      }
      var task := queue[0];
      queue := queue[1..];
      match task {
        case DoEntry(ep) => EnterNow(ep, e);
        case DoExit(ep) => ExitNow(ep, e);
        case PlaceMaker(ep) => PlaceMakerNow(ep, e);
        case PollMaker(ep) => PollMakerNow(ep, e);
        case CheckStop => CheckStopNow(e.n1, e);
      }
    }

    /** Resuming by hand: the guard is reset unless it is active or the kill switch is on. */
    method Release(killed: bool)
      requires Valid()
      modifies guard
      ensures Valid() && View() == Released(old(View()), killed)
    {
      hide Good;
      if guard.status != Active {
        var _ := guard.Unhalt(killed);
      }
    }
  }

  lemma NothingClosed(s: Setup, x: Exchange, e: Env)
    requires Good(x)
    ensures MakerClosed(s, x, None, e) == x
  {
  }

  lemma BoughtFrom(s: Setup, k: Desk, t: Totals, x: Exchange, r: Rec, made: seq<Fill>, e: Env)
    requires Good(x) && forall f :: f in made ==> f.qty > 0.0
    ensures BoughtAtMarket(s, k.(g := k.g.(x := x)), t, x, r, made, e) == BoughtAtMarket(s, k, t, x, r, made, e)
  {
    hide Good;
    hide Ordered;
    hide Finalized;
    hide Without;
    hide StopOrNothing;
    hide FillsOf;
    hide Vwap;
  }

  // ---- the whole trader -----------------------------------------------------

  /** One object per symbol, with guards and brokers of their own. */
  ghost predicate Apart(desks: seq<Trader>) {
    forall i, j :: 0 <= i < j < |desks| ==>
      && desks[i] != desks[j] && desks[i].guard != desks[j].guard
      && desks[i].guard.broker != desks[j].guard.broker && desks[i].guard.broker.pos != desks[j].guard.broker.pos
  }

  ghost predicate Running(s: Setup, desks: seq<Trader>, state: TraderState)
    reads set k | k in desks :: k, set k | k in desks :: k.guard
    reads set k | k in desks :: k.guard.broker, set k | k in desks :: k.guard.broker.pos
  {
    Apart(desks) && forall i :: 0 <= i < |desks| ==> desks[i].Valid() && desks[i].s == s && desks[i].state == state
  }

  ghost function Views(desks: seq<Trader>): (r: seq<Desk>)
    reads set k | k in desks :: k, set k | k in desks :: k.guard
    reads set k | k in desks :: k.guard.broker, set k | k in desks :: k.guard.broker.pos
    ensures |r| == |desks| && forall i :: 0 <= i < |desks| ==> r[i] == desks[i].View()
    decreases |desks|
  {
    if desks == [] then []
    else
      assert desks[|desks| - 1] in desks && forall k :: k in desks[..|desks| - 1] ==> k in desks;
      Views(desks[..|desks| - 1]) + [desks[|desks| - 1].View()]
  }

  /** A desk like every other, before anything happens. */
  method NewTrader(s: Setup, state: TraderState) returns (k: Trader)
    ensures k.Valid() && k.s == s && k.state == state && k.View() == NEW_DESK
    ensures fresh(k) && fresh(k.guard) && fresh(k.guard.broker) && fresh(k.guard.broker.pos)
  {
    var broker := new PaperExchange(s.fees);
    var guard := new RiskGuard(broker, s.limits);
    k := new Trader(s, guard, state);
  }

  method NewTraders(s: Setup, n: nat, state: TraderState) returns (desks: seq<Trader>)
    ensures |desks| == n && Running(s, desks, state)
    ensures forall i :: 0 <= i < n ==> desks[i].View() == NEW_DESK
    ensures forall i :: 0 <= i < n ==>
              && fresh(desks[i]) && fresh(desks[i].guard)
              && fresh(desks[i].guard.broker) && fresh(desks[i].guard.broker.pos)
    decreases n
  {
    hide Trader.Valid;
    hide Trader.View;
    if n == 0 {
      return [];
    }
    var before := NewTraders(s, n - 1, state);
    var k := NewTrader(s, state);
    desks := before + [k];
    assert forall i :: 0 <= i < n - 1 ==> desks[i] == before[i];
  }

  /** What a step makes of its symbol's desk and of the totals. */
  function Served(s: Setup, k: Desk, t: Totals, m: Move): (Desk, Totals)
    requires Good(k.g.x) && !m.Reopen?
  {
    match m
    case Enter(_, ep, qty, killed, gate) => (Entered(k, t, ep, qty, killed, gate), t)
    case Leave(_, ep) => (ExitAsked(k, ep), t)
    case Tick(_, due) => (Ticked(k, due), t)
    case Work(_, e) => Worked(s, k, t, e)
  }

  lemma ServedIs(s: Setup, f: Firm, m: Move)
    requires AllGood(f) && !m.Reopen?
    ensures Moved(s, f, m)
         == if m.i >= |f.desks| then f
            else Firm(f.desks[m.i := Served(s, f.desks[m.i], f.totals, m).0], Served(s, f.desks[m.i], f.totals, m).1)
  {
    hide Good;
    hide Worked;
    hide Entered;
    hide ExitAsked;
    hide Ticked;
  }

  method Serve(s: Setup, k: Trader, state: TraderState, m: Move)
    requires k.Valid() && k.s == s && k.state == state && !m.Reopen?
    modifies k, state, k.guard, k.guard.broker, k.guard.broker.pos
    ensures k.Valid() && (k.View(), state.View()) == Served(s, old(k.View()), old(state.View()), m)
  {
    hide Good;
    hide Worked;
    hide Entered;
    hide ExitAsked;
    hide Ticked;
    hide Tied;
    hide TaskSafe;
    match m {
      case Enter(_, ep, qty, killed, gate) => k.OnEntry(ep, qty, killed, gate);
      case Leave(_, ep) => k.OnExit(ep);
      case Tick(_, due) => k.Periodic(due);
      case Work(_, e) => k.WorkOne(e);
    }
  }

  /** The other symbols' desks stay as they are. */
  method ServeAt(s: Setup, desks: seq<Trader>, state: TraderState, m: Move)
    requires Running(s, desks, state) && !m.Reopen? && m.i < |desks| && Good(desks[m.i].View().g.x)
    modifies state, desks[m.i], desks[m.i].guard, desks[m.i].guard.broker, desks[m.i].guard.broker.pos
    ensures Running(s, desks, state)
    ensures (desks[m.i].View(), state.View()) == Served(s, old(desks[m.i].View()), old(state.View()), m)
    ensures Views(desks) == old(Views(desks))[m.i := desks[m.i].View()]
  {
    hide Trader.Valid;
    hide Good;
    hide Served;
    Serve(s, desks[m.i], state, m);
    forall j | 0 <= j < |desks| && j != m.i ensures desks[j].View() == old(desks[j].View()) && desks[j].Valid() {
    }
  }

  lemma AreGood(s: Setup, desks: seq<Trader>, state: TraderState)
    requires Running(s, desks, state)
    ensures AllGood(Firm(Views(desks), state.View()))
  {
    hide Good;
  }

  /** The first `i` guards are released. */
  method ReleaseFirst(s: Setup, desks: seq<Trader>, state: TraderState, i: nat, killed: bool)
    requires Running(s, desks, state) && i <= |desks|
    modifies set k | k in desks :: k.guard
    ensures Running(s, desks, state)
    ensures forall j :: 0 <= j < |desks| ==>
              desks[j].View() == if j < i then Released(old(desks[j].View()), killed) else old(desks[j].View())
    decreases i
  {
    hide Trader.Valid;
    hide Released;
    if i > 0 {
      ReleaseFirst(s, desks, state, i - 1, killed);
      assert desks[i - 1] in desks;
      ReleaseOne(s, desks, state, i - 1, killed);
    }
  }

  method ReleaseOne(s: Setup, desks: seq<Trader>, state: TraderState, i: nat, killed: bool)
    requires Running(s, desks, state) && i < |desks|
    modifies desks[i].guard
    ensures Running(s, desks, state)
    ensures forall j :: 0 <= j < |desks| ==>
              desks[j].View() == if j == i then Released(old(desks[j].View()), killed) else old(desks[j].View())
  {
    hide Trader.Valid;
    hide Released;
    desks[i].Release(killed);
    forall j | 0 <= j < |desks| && j != i ensures desks[j].View() == old(desks[j].View()) && desks[j].Valid() {
    }
  }

  method Resume(s: Setup, desks: seq<Trader>, state: TraderState, killed: bool)
    requires Running(s, desks, state)
    modifies state, set k | k in desks :: k.guard
    ensures Running(s, desks, state)
    ensures Views(desks) == AllReleased(old(Views(desks)), killed)
    ensures state.View() == old(state.View()).(halted := false)
  {
    hide Trader.Valid;
    hide Released;
    ReleaseFirst(s, desks, state, |desks|, killed);
    state.Reopen();
  }

  /** One step of the trader. */
  method Do(s: Setup, desks: seq<Trader>, state: TraderState, m: Move)
    requires Running(s, desks, state)
    modifies state, set k | k in desks :: k, set k | k in desks :: k.guard
    modifies set k | k in desks :: k.guard.broker, set k | k in desks :: k.guard.broker.pos
    ensures Running(s, desks, state) && AllGood(old(Firm(Views(desks), state.View())))
    ensures Firm(Views(desks), state.View()) == Moved(s, old(Firm(Views(desks), state.View())), m)
  {
    AreGood(s, desks, state);
    ghost var was := Firm(Views(desks), state.View());
    hide Trader.Valid;
    hide Good;
    hide Served;
    if m.Reopen? {
      Resume(s, desks, state, m.killed);
    } else {
      ServedIs(s, was, m);
      hide Moved;
      hide AllGood;
      if m.i < |desks| {
        assert desks[m.i] in desks;
        ServeAt(s, desks, state, m);
      }
    }
  }

  /** Before anything happens. */
  method Start(s: Setup, n: nat) returns (desks: seq<Trader>, state: TraderState)
    ensures |desks| == n && Running(s, desks, state) && Firm(Views(desks), state.View()) == Opening(n) && fresh(state)
    ensures forall k :: k in desks ==>
              fresh(k) && fresh(k.guard) && fresh(k.guard.broker) && fresh(k.guard.broker.pos)
  {
    hide Trader.Valid;
    hide Trader.View;
    state := new TraderState();
    desks := NewTraders(s, n, state);
    assert Views(desks) == Opening(n).desks;
    assert forall k :: k in desks ==> exists i :: 0 <= i < n && desks[i] == k;
  }

  /** The trader from its start: any number of symbols, any interleaving of steps. */
  method RunAll(s: Setup, n: nat, moves: seq<Move>) returns (desks: seq<Trader>, state: TraderState)
    ensures |desks| == n && Running(s, desks, state) && Firm(Views(desks), state.View()) == After(s, n, moves)
  {
    hide Running;
    hide Views;
    hide Moved;
    hide AllGood;
    desks, state := Start(s, n);
    var i := 0;
    assert moves[..0] == [];
    while i < |moves|
      invariant i <= |moves| && |desks| == n && Running(s, desks, state)
      invariant fresh(state)
      invariant forall k :: k in desks ==>
                  fresh(k) && fresh(k.guard) && fresh(k.guard.broker) && fresh(k.guard.broker.pos)
      invariant Firm(Views(desks), state.View()) == After(s, n, moves[..i])
    {
      AfterOne(s, n, moves, i);
      Do(s, desks, state, moves[i]);
      i := i + 1;
    }
    assert moves[..i] == moves;
  }

  ghost predicate AllClosed(desks: seq<Trader>)
    reads set k | k in desks :: k, set k | k in desks :: k.guard
    reads set k | k in desks :: k.guard.broker, set k | k in desks :: k.guard.broker.pos
  {
    forall k :: k in desks ==> NoneOpen(k.View())
  }

  ghost predicate AllFlat(desks: seq<Trader>)
    reads set k | k in desks :: k, set k | k in desks :: k.guard
    reads set k | k in desks :: k.guard.broker, set k | k in desks :: k.guard.broker.pos
  {
    forall k :: k in desks ==> k.guard.broker.pos.qty == 0.0 && OpenCount(k.guard.broker.orders) == 0
  }

  /** When no record is open, the saved totals are what the brokers realized and charged but for stray
      purchases, and exactly that, with nothing held and nothing resting, if every look was safe. */
  method Trade(s: Setup, n: nat, moves: seq<Move>) returns (desks: seq<Trader>, state: TraderState)
    ensures |desks| == n && Running(s, desks, state)
    ensures DistinctIds(s) && AlwaysInTurn(s, n, moves) && AllClosed(desks) ==>
              && AllReal(Views(desks))
              && RealizedSum(Views(desks)) == state.cumGross + StrayGainSum(s, Views(desks))
              && PaidSum(Views(desks)) == state.cumFees + StrayFeesSum(s, Views(desks))
    ensures DistinctIds(s) && AlwaysInTurn(s, n, moves) && AlwaysSafe(s, n, moves) && AllClosed(desks) ==>
              && state.cumGross == RealizedSum(Views(desks)) && state.cumFees == PaidSum(Views(desks))
              && state.cumNet == state.cumGross - state.cumFees && AllFlat(desks)
  {
    desks, state := RunAll(s, n, moves);
    AtRest(s, n, moves, desks, state);
    hide *;
  }

  lemma AtRest(s: Setup, n: nat, moves: seq<Move>, desks: seq<Trader>, state: TraderState)
    requires |desks| == n && Firm(Views(desks), state.View()) == After(s, n, moves)
    ensures DistinctIds(s) && AlwaysInTurn(s, n, moves) && AllClosed(desks) ==>
              && AllReal(Views(desks))
              && RealizedSum(Views(desks)) == state.cumGross + StrayGainSum(s, Views(desks))
              && PaidSum(Views(desks)) == state.cumFees + StrayFeesSum(s, Views(desks))
    ensures DistinctIds(s) && AlwaysInTurn(s, n, moves) && AlwaysSafe(s, n, moves) && AllClosed(desks) ==>
              && state.cumGross == RealizedSum(Views(desks)) && state.cumFees == PaidSum(Views(desks))
              && state.cumNet == state.cumGross - state.cumFees && AllFlat(desks)
  {
    hide After;
    hide AlwaysInTurn;
    hide AlwaysSafe;
    hide DistinctIds;
    hide RealizedSum;
    hide PaidSum;
    hide StrayGainSum;
    hide StrayFeesSum;
    hide AllReal;
    hide BothFilled;
    if DistinctIds(s) && AlwaysInTurn(s, n, moves) && AllClosed(desks) {
      var f := After(s, n, moves);
      forall i | 0 <= i < n ensures f.desks[i] == desks[i].View() && NoneOpen(f.desks[i]) {
        assert desks[i] in desks;
      }
      LedgerAgainstBroker(s, n, moves);
      if AlwaysSafe(s, n, moves) {
        LedgerIsBroker(s, n, moves);
        forall k | k in desks ensures k.guard.broker.pos.qty == 0.0 && OpenCount(k.guard.broker.orders) == 0 {
          var i :| 0 <= i < n && desks[i] == k;
          assert f.desks[i] == k.View();
        }
      }
    }
  }
}
