/** The trader's ledger of one symbol next to the broker's: the main thread records and queues, one
    worker runs the queued tasks in order. */
module Ledger {
  import opened Basics
  import opened Positions
  import opened Paper
  import opened Polling
  import opened RiskGuards

  datatype Leg = EntryLeg | ExitLeg | MakerLeg | StopLeg

  /** Limits, fees, public trades, order ids per signal and leg, distance of the emergency stop. */
  datatype Setup = Setup(limits: Limits, fees: Fees, tape: seq<Print>, cid: (int, Leg) -> string, estop: real,
                         stopLine: real)

  ghost predicate DistinctIds(s: Setup) {
    forall e, f: int, a, b: Leg :: s.cid(e, a) == s.cid(f, b) ==> e == f && a == b
  }

  /** The position record: waiting for its entry order, or open. */
  datatype Rec = Rec(open: bool, ep: int, qty: real, entryPx: real, entryFee: real,
                     stopId: Option<string>, makerId: Option<string>, exitReq: bool, makerTried: bool)

  datatype Task = DoEntry(ep: int) | DoExit(ep: int) | PlaceMaker(ep: int) | PollMaker(ep: int) | CheckStop

  /** One symbol: record, queue, guarded exchange; what has been booked for it and which entries are done. */
  datatype Desk = Desk(rec: Option<Rec>, queue: seq<Task>, g: Guarded, lastEp: int, done: seq<int>, gross: real,
                       fees: real)

  /** The totals that all symbols share. */
  datatype Totals = Totals(net: real, gross: real, fees: real, trades: nat, halted: bool)

  /** What the outside answers while a task runs: book, last price, best bid, clock, and how much of
      the public trades each poll of the task sees. */
  datatype Env = Env(d: Levels, last: real, bid: Option<real>, now: int, n1: nat, n2: nat, n3: nat, killed: bool)

  // ---- fills under one id ---------------------------------------------------

  function FillsOf(fills: seq<Fill>, id: string): (r: seq<Fill>)
    ensures forall f :: f in r ==> f in fills && f.id == id
  {
    if fills == [] then []
    else
      var before, f := FillsOf(fills[..|fills| - 1], id), fills[|fills| - 1];
      if f.id == id then before + [f] else before
  }

  function QtySum(fills: seq<Fill>): real {
    if fills == [] then 0.0 else QtySum(fills[..|fills| - 1]) + fills[|fills| - 1].qty
  }

  function ValueSum(fills: seq<Fill>): real {
    if fills == [] then 0.0
    else ValueSum(fills[..|fills| - 1]) + Notional(fills[|fills| - 1].qty, fills[|fills| - 1].price)
  }

  function FeeSum(fills: seq<Fill>): real {
    if fills == [] then 0.0 else FeeSum(fills[..|fills| - 1]) + fills[|fills| - 1].fee
  }

  lemma {:induction false} QtyPositive(fills: seq<Fill>)
    requires forall f :: f in fills ==> f.qty > 0.0
    ensures QtySum(fills) >= 0.0 && (fills != [] ==> QtySum(fills) > 0.0)
  {
    if fills == [] {
    } else {
      assert fills[|fills| - 1] in fills;
      QtyPositive(fills[..|fills| - 1]);
    }
  }

  lemma FillsArePositive(x: Exchange, fills: seq<Fill>)
    requires Good(x) && forall f :: f in fills ==> f in x.fills
    ensures forall f :: f in fills ==> f.qty > 0.0
  {
  }

  /** Volume-weighted average price. */
  function Vwap(fills: seq<Fill>): real
    requires fills != [] && forall f :: f in fills ==> f.qty > 0.0
  {
    QtyPositive(fills);
    ValueSum(fills) / QtySum(fills)
  }

  /** The average price times the quantity grows by what one more fill is worth, and the fees add up. */
  lemma VwapGrows(fills: seq<Fill>, f: Fill)
    requires f.qty > 0.0 && forall g :: g in fills ==> g.qty > 0.0
    ensures QtySum([]) == FeeSum([]) == 0.0
    ensures QtySum(fills + [f]) == QtySum(fills) + f.qty > 0.0 && FeeSum(fills + [f]) == FeeSum(fills) + f.fee
    ensures Vwap(fills + [f]) * (QtySum(fills) + f.qty)
         == (if fills == [] then 0.0 else Vwap(fills) * QtySum(fills)) + f.qty * f.price
  {
    QtyPositive(fills);
    assert (fills + [f])[..|fills|] == fills;
    var value, qty := ValueSum(fills), QtySum(fills);
    assert (value + f.qty * f.price) / (qty + f.qty) * (qty + f.qty) == value + f.qty * f.price;
    if fills != [] {
      assert value / qty * qty == value;
    }
  }

  lemma OneFill(f: Fill)
    requires f.qty > 0.0
    ensures QtySum([f]) == f.qty && Vwap([f]) == f.price && FeeSum([f]) == f.fee
  {
    assert [f][..0] == [];
    assert ValueSum([f]) == Notional(f.qty, f.price);
    assert f.qty * f.price / f.qty == f.price;
  }

  lemma FillsOfOne(fills: seq<Fill>, f: Fill, id: string)
    ensures FillsOf(fills + [f], id) == FillsOf(fills, id) + if f.id == id then [f] else []
  {
    assert (fills + [f])[..|fills|] == fills;
  }

  // ---- closing a record -----------------------------------------------------

  /** Result of closing a short of `qty` opened at `entryPx`. */
  function GrossOf(entryPx: real, exitPx: real, qty: real): real {
    (entryPx - exitPx) * qty
  }

  function Finalized(s: Setup, k: Desk, t: Totals, exitPx: real, exitFee: real): (Desk, Totals) {
    match k.rec
    case None => (k, t)
    case Some(r) =>
      var gross, fees := GrossOf(r.entryPx, exitPx, r.qty), r.entryFee + exitFee;
      var net := t.net + (gross - fees);
      (k.(rec := None, done := k.done + [r.ep], gross := k.gross + gross, fees := k.fees + fees),
       Totals(net, t.gross + gross, t.fees + fees, t.trades + 1, t.halted || net <= s.stopLine))
  }

  function PolledTo(s: Setup, x: Exchange, n: nat, e: Env): (r: Exchange)
    requires Good(x)
    ensures Good(r)
  {
    Next(x, Poll(n, e.d, e.now), s.tape, s.fees)
  }

  function Without(x: Exchange, id: Option<string>): (r: Exchange)
    requires Good(x)
    ensures Good(r)
  {
    if id.None? then x else CancelDone(x, id.value)
  }

  // ---- the worker's tasks ---------------------------------------------------

  function Ordered(s: Setup, g: Guarded, step: Step, e: Env): (r: Guarded)
    requires Good(g.x) && Placing(step)
    ensures Good(r.x)
  {
    Placed(s.limits, g, step, e.killed, s.tape, s.fees)
  }

  predicate Went(s: Setup, g: Guarded, step: Step, e: Env)
    requires Placing(step)
  {
    Lets(s.limits, Killed(g.risk, e.killed), g.x, step)
  }

  function StopPrice(s: Setup, px: real): real {
    px * (1.0 + s.estop / 100.0)
  }

  /** Sell at market, then rest the emergency stop. */
  function EntryDone(s: Setup, k: Desk, ep: int, e: Env): (r: Desk)
    requires Good(k.g.x)
    ensures Good(r.g.x)
  {
    if k.rec.None? || k.rec.value.ep != ep || k.rec.value.open then k
    else if k.g.x.pos.qty != 0.0 then k.(rec := None)
    else
      var r, id := k.rec.value, s.cid(ep, EntryLeg);
      var sell := PlaceMarket(Sell, r.qty, id, false, e.d, e.now);
      var g := Ordered(s, k.g, sell, e);
      var fills := FillsOf(g.x.fills, id);
      if !Went(s, k.g, sell, e) || fills == [] then k.(rec := None, g := g)
      else StopRested(s, k, g, r, fills, e)
  }

  /** The sale has filled: the record is open, and the emergency stop is sent. */
  function StopRested(s: Setup, k: Desk, g: Guarded, r: Rec, fills: seq<Fill>, e: Env): (o: Desk)
    requires Good(g.x) && fills != [] && forall f :: f in fills ==> f.qty > 0.0
    ensures Good(o.g.x)
  {
    var qty, px := QtySum(fills), Vwap(fills);
    var stop := PlaceStop(Buy, qty, StopPrice(s, px), s.cid(r.ep, StopLeg), e.last, e.now);
    k.(rec := Some(r.(open := true, qty := qty, entryPx := px, entryFee := FeeSum(fills),
                      stopId := if Went(s, g, stop, e) then Some(stop.id) else None)),
       g := Ordered(s, g, stop, e))
  }

  /** The emergency stop, if it has filled, closes the record. */
  function StopChecked(s: Setup, k: Desk, t: Totals, n: nat, e: Env): (r: (Desk, Totals))
    requires Good(k.g.x)
    ensures Good(r.0.g.x)
  {
    if k.rec.None? || k.rec.value.stopId.None? || !k.rec.value.open then (k, t)
    else
      var x := PolledTo(s, k.g.x, n, e);
      var fills := FillsOf(x.fills, k.rec.value.stopId.value);
      var polled := k.(g := k.g.(x := x));
      if fills == [] then (polled, t) else Finalized(s, polled, t, Vwap(fills), FeeSum(fills))
  }

  /** Read, cancel and read again: what the maker order filled. */
  function MakerClosed(s: Setup, x: Exchange, makerId: Option<string>, e: Env): (r: Exchange)
    requires Good(x)
    ensures Good(r)
  {
    if makerId.None? then x else PolledTo(s, Without(PolledTo(s, x, e.n1, e), makerId), e.n2, e)
  }

  /** Buy back at market what the maker order left, and book both.  An order that expires means that
      nothing is held: then the stop has filled and its fill is booked. */
  function BoughtAtMarket(s: Setup, k: Desk, t: Totals, x: Exchange, r: Rec, made: seq<Fill>,
                          e: Env): (o: (Desk, Totals))
    requires Good(x) && forall f :: f in made ==> f.qty > 0.0
    ensures Good(o.0.g.x)
  {
    var id := s.cid(r.ep, ExitLeg);
    var g := Ordered(s, k.g.(x := x), PlaceMarket(Buy, r.qty - QtySum(made), id, true, e.d, e.now), e);
    var fills, reply := FillsOf(g.x.fills, id), ReplyTo(g.x, id);
    if fills + made != [] then
      Finalized(s, k.(g := g.(x := Without(g.x, r.stopId))), t, Vwap(fills + made), FeeSum(fills) + FeeSum(made))
    else if reply.Got? && reply.order.status == Expired then StopOrNothing(s, k.(g := g), t, r, e)
    else (k.(g := g), t)
  }

  /** Nothing is held at the exit: book the stop's fill, and without one stop trading. */
  function StopOrNothing(s: Setup, k: Desk, t: Totals, r: Rec, e: Env): (o: (Desk, Totals))
    requires Good(k.g.x)
    ensures Good(o.0.g.x)
  {
    var (checked, after) := StopChecked(s, k, t, e.n3, e);
    if checked.rec.None? then (checked, after)
    else
      var (gone, last) := Finalized(s, checked, after, r.entryPx, 0.0);
      (gone.(g := gone.g.(risk := SetTo(gone.g.risk, Halted, "no position at exit"))), last)
  }

  /** Close the maker order; buy back what it left; book the result. */
  function ExitDone(s: Setup, k: Desk, t: Totals, ep: int, e: Env): (o: (Desk, Totals))
    requires Good(k.g.x)
    ensures Good(o.0.g.x)
  {
    if k.rec.None? || k.rec.value.ep != ep || !k.rec.value.open || !k.rec.value.exitReq then (k, t)
    else
      var r := k.rec.value;
      var x := MakerClosed(s, k.g.x, r.makerId, e);
      var made := if r.makerId.None? then [] else FillsOf(x.fills, r.makerId.value);
      if made != [] && QtySum(made) >= r.qty then
        Finalized(s, k.(g := k.g.(x := Without(x, r.stopId))), t, Vwap(made), FeeSum(made))
      else BoughtAtMarket(s, k, t, x, r, made, e)
  }

  /** Shortly before the deadline: a reduce-only bid at the best bid. */
  function MakerPlaced(s: Setup, k: Desk, ep: int, e: Env): (r: Desk)
    requires Good(k.g.x)
    ensures Good(r.g.x)
  {
    if k.rec.None? || k.rec.value.ep != ep || !k.rec.value.open || k.rec.value.exitReq
       || k.rec.value.makerId.Some? || e.bid.None? then k
    else
      var r, id := k.rec.value, s.cid(ep, MakerLeg);
      var bid := PlaceGtx(Buy, r.qty, e.bid.value, id, true, e.d, e.now);
      var g := Ordered(s, k.g, bid, e);
      var reply := ReplyTo(g.x, id);
      if reply.Got? && (IsOpen(reply.order) || reply.order.status == Filled) then
        k.(g := g, rec := Some(r.(makerId := Some(id))))
      else k.(g := g)
  }

  function MakerPolled(s: Setup, k: Desk, t: Totals, ep: int, e: Env): (r: (Desk, Totals))
    requires Good(k.g.x)
    ensures Good(r.0.g.x)
  {
    if k.rec.None? || k.rec.value.ep != ep || !k.rec.value.open || k.rec.value.makerId.None? then (k, t)
    else
      var r := k.rec.value;
      var x := PolledTo(s, k.g.x, e.n1, e);
      var made := FillsOf(x.fills, r.makerId.value);
      if made == [] || QtySum(made) < r.qty then (k.(g := k.g.(x := x)), t)
      else Finalized(s, k.(g := k.g.(x := Without(x, r.stopId))), t, Vwap(made), FeeSum(made))
  }

  function TaskDone(s: Setup, k: Desk, t: Totals, task: Task, e: Env): (r: (Desk, Totals))
    requires Good(k.g.x)
    ensures Good(r.0.g.x)
  {
    match task
    case DoEntry(ep) => (EntryDone(s, k, ep, e), t)
    case DoExit(ep) => ExitDone(s, k, t, ep, e)
    case PlaceMaker(ep) => (MakerPlaced(s, k, ep, e), t)
    case PollMaker(ep) => MakerPolled(s, k, t, ep, e)
    case CheckStop => StopChecked(s, k, t, e.n1, e)
  }

  // ---- the main thread ------------------------------------------------------

  /** A signal: taken only when nothing is halted, no record is open and the other gates let it through. */
  function Entered(k: Desk, t: Totals, ep: int, qty: real, killed: bool, gate: bool): (r: Desk)
    ensures r.g.x == k.g.x
  {
    var asked := k.(g := k.g.(risk := Killed(k.g.risk, killed)));
    if t.halted then k
    else if asked.g.risk.status != Active || k.rec.Some? || !gate then asked
    else
      asked.(rec := Some(Rec(false, ep, qty, 0.0, 0.0, None, None, false, false)),
             queue := k.queue + [DoEntry(ep)], lastEp := ep)
  }

  function ExitAsked(k: Desk, ep: int): Desk {
    if k.rec.Some? && k.rec.value.ep == ep then
      k.(rec := Some(k.rec.value.(exitReq := true)), queue := k.queue + [DoExit(ep)])
    else k
  }

  /** What the clock says about the record: an exit to retry, the maker window, past the deadline, the
      stop to be looked at. */
  datatype Due = Due(retry: bool, maker: bool, overdue: bool, stop: bool)

  function Ticked(k: Desk, due: Due): Desk {
    if k.rec.None? || !k.rec.value.open then k
    else
      var r := k.rec.value;
      if r.exitReq && due.retry then k.(queue := k.queue + [DoExit(r.ep)])
      else
        var m := if r.exitReq then k
                 else if r.makerId.Some? then k.(queue := k.queue + [PollMaker(r.ep)])
                 else if !r.makerTried && due.maker then
                   k.(rec := Some(r.(makerTried := true)), queue := k.queue + [PlaceMaker(r.ep)])
                 else k;
        if due.overdue then m.(rec := Some(m.rec.value.(exitReq := true)), queue := m.queue + [DoExit(r.ep)])
        else if r.stopId.Some? && due.stop then m.(queue := m.queue + [CheckStop])
        else m
  }

  // ---- several symbols ------------------------------------------------------

  datatype Firm = Firm(desks: seq<Desk>, totals: Totals)

  /** A step of the main thread for symbol `i`, the next queued task of its worker, or resuming by hand. */
  datatype Move =
    | Enter(i: nat, ep: int, qty: real, killed: bool, gate: bool)
    | Leave(i: nat, ep: int)
    | Tick(i: nat, due: Due)
    | Work(i: nat, e: Env)
    | Reopen(killed: bool)

  ghost predicate AllGood(f: Firm) {
    forall i :: 0 <= i < |f.desks| ==> Good(f.desks[i].g.x)
  }

  function Worked(s: Setup, k: Desk, t: Totals, e: Env): (r: (Desk, Totals))
    requires Good(k.g.x)
    ensures Good(r.0.g.x)
  {
    if k.queue == [] then (k, t) else TaskDone(s, k.(queue := k.queue[1..]), t, k.queue[0], e)
  }

  /** Resuming releases a guard that is not active, unless the kill switch is on. */
  function Released(k: Desk, killed: bool): Desk {
    if killed || k.g.risk.status == Active then k
    else k.(g := k.g.(risk := k.g.risk.(status := Active, reason := "reset", rejects := 0)))
  }

  function AllReleased(desks: seq<Desk>, killed: bool): (r: seq<Desk>)
    ensures |r| == |desks| && forall i :: 0 <= i < |desks| ==> r[i] == Released(desks[i], killed)
  {
    seq(|desks|, i requires 0 <= i < |desks| => Released(desks[i], killed))
  }

  function Moved(s: Setup, f: Firm, m: Move): (r: Firm)
    requires AllGood(f)
    ensures AllGood(r) && |r.desks| == |f.desks|
  {
    if m.Reopen? then Firm(AllReleased(f.desks, m.killed), f.totals.(halted := false))
    else if m.i >= |f.desks| then f
    else
      var k := f.desks[m.i];
      match m
      case Enter(i, ep, qty, killed, gate) => f.(desks := f.desks[i := Entered(k, f.totals, ep, qty, killed, gate)])
      case Leave(i, ep) => f.(desks := f.desks[i := ExitAsked(k, ep)])
      case Tick(i, due) => f.(desks := f.desks[i := Ticked(k, due)])
      case Work(i, e) => var (d, t) := Worked(s, k, f.totals, e); Firm(f.desks[i := d], t)
  }

  const NEW_DESK := Desk(None, [], Guarded(FRESH_RISK, EMPTY_EXCHANGE), -1, [], 0.0, 0.0)

  const NEW_TOTALS := Totals(0.0, 0.0, 0.0, 0, false)

  function Opening(n: nat): Firm {
    Firm(seq(n, i => NEW_DESK), NEW_TOTALS)
  }

  ghost function After(s: Setup, n: nat, moves: seq<Move>): (r: Firm)
    ensures AllGood(r) && |r.desks| == n
  {
    if moves == [] then Opening(n) else Moved(s, After(s, n, moves[..|moves| - 1]), moves[|moves| - 1])
  }
}
