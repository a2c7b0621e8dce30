/** The life of one position in the trader's own terms: what a signal, a second of the clock and each piece of
    work leave on the record, in the queue, at the broker and in the totals. */
module Lifecycle {
  import opened Basics
  import opened Ladders
  import opened Positions
  import opened Paper
  import opened Polling
  import opened RiskGuards
  import opened Ledger
  import opened Accounts
  import opened LedgerAgrees
  import opened StopLooks

  /** The record is gone and its result is booked once: gross by the prices, net of both fees, and a net at or
      below the stop line halts. */
  ghost predicate Books(s: Setup, k: Desk, t: Totals, j: Desk, u: Totals, px: real, fee: real) {
    k.rec.Some?
    && var r := k.rec.value;
       var gross, fees := (r.entryPx - px) * r.qty, r.entryFee + fee;
       && j.rec.None? && j.done == k.done + [r.ep] && j.lastEp == k.lastEp
       && j.gross == k.gross + gross && j.fees == k.fees + fees
       && u.gross == t.gross + gross && u.fees == t.fees + fees && u.net == t.net + gross - fees
       && u.trades == t.trades + 1 && (u.halted <==> t.halted || u.net <= s.stopLine)
  }

  lemma FinalizedBooks(s: Setup, k: Desk, j: Desk, t: Totals, px: real, fee: real)
    requires k.rec.Some? && j.rec == k.rec && j.done == k.done && j.lastEp == k.lastEp
    requires j.gross == k.gross && j.fees == k.fees
    ensures var (gone, u) := Finalized(s, j, t, px, fee); Books(s, k, t, gone, u, px, fee)
    ensures Finalized(s, j, t, px, fee).0.g == j.g && Finalized(s, j, t, px, fee).0.queue == j.queue
  {
  }

  // ---- a filled maker exit is booked ----------------------------------------

  /** A buy stop that none of these trades reaches. */
  predicate Clear(o: Order, ts: seq<Print>) {
    o.kind == StopMarket && o.side == Buy && forall t :: t in ts && o.placedTs < t.ts ==> t.price < o.price
  }

  /** Some of these trades is later than the order and below its price. */
  ghost predicate GoesBelow(ts: seq<Print>, o: Order) {
    exists t :: t in ts && o.placedTs < t.ts && t.price < o.price
  }

  /** What the maker side charges for the whole quantity at this price. */
  function MakerCost(s: Setup, qty: real, px: real): real {
    qty * px * s.fees.makerBps / 10000.0
  }

  /** The whole short is still held; order `i`, `o`, is its resting bid, and nothing read reaches its emergency stop. */
  ghost predicate BidAlone(s: Setup, k: Desk, r: Rec, i: nat, o: Order, ts: seq<Print>) {
    var x := k.g.x;
    && k.rec == Some(r) && r.open && r.makerId == Some(s.cid(r.ep, MakerLeg)) && x.pos.qty == -r.qty
    && i < |x.orders| && x.orders[i] == o && IsOpen(o) && o.id == s.cid(r.ep, MakerLeg) && o.kind == Limit
    && forall m :: 0 <= m < |x.orders| && m != i && IsOpen(x.orders[m]) ==> Clear(x.orders[m], ts)
  }

  /** An account whose short is whole has had nothing bought back. */
  lemma WholeIsHeld(s: Setup, x: Exchange, r: Rec, gross: real, fees: real)
    requires Account(s, x, Some(r), gross, fees, true)
    ensures Held(s, x, r, gross, fees) ==> x.pos.qty == -r.qty
    ensures x.pos.qty == -r.qty ==> Held(s, x, r, gross, fees)
    ensures InFills(x.fills, s.cid(r.ep, StopLeg)) ==> Quiet(x, s.cid(r.ep, StopLeg))
    ensures InFills(x.fills, s.cid(r.ep, MakerLeg)) ==> Quiet(x, s.cid(r.ep, MakerLeg))
    ensures Held(s, x, r, gross, fees)
       <==> !InFills(x.fills, s.cid(r.ep, StopLeg)) && !InFills(x.fills, s.cid(r.ep, MakerLeg))
  {
    hide FreshAfter;
    hide OrdersOk;
    hide GrossOf;
    forall via: Leg, f: Fill | BoughtBack(s, x, r, gross, fees, via, f) ensures InFills(x.fills, s.cid(r.ep, via)) {
      FillsOfNone(x.fills, s.cid(r.ep, via));
    }
    hide FillsOf;
    hide InFills;
    hide Quiet;
  }

  /** An order that no trade so far fires is as it was when another one meets trade `k`. */
  lemma StillThere(x: Exchange, ts: seq<Print>, k: nat, i: nat, m: nat, d: Levels, now: int, fees: Fees)
    requires Good(x) && k < |ts| && i < |x.orders| && m < |x.orders| && Clear(x.orders[m], ts)
    ensures Before(x, ts, k, i, d, now, fees).orders[m] == x.orders[m]
  {
    var o, a := x.orders[m], SawAll(x, ts[..k], d, now, fees);
    forall t | t in ts ensures !Counts(o, t) {
    }
    SawAllOpen(x, ts[..k], d, now, fees);
    assert forall t :: t in ts[..k] ==> t in ts;
    assert Answered(ts[..k], o, a.orders[m]);
    MetUpToOpen(AtTrade(a, ts[k]), i, ts[k], d, now, fees);
    hide Good;
    hide SawAll;
    hide MetUpTo;
    hide Counts;
  }

  /** When the bid meets the trade that goes through it, the short is still whole. */
  lemma BeforeHeld(s: Setup, k: Desk, r: Rec, i: nat, o: Order, ts: seq<Print>, n: nat, e: Env)
    requires DistinctIds(s) && Good(k.g.x) && Account(s, k.g.x, Some(r), k.gross, k.fees, true)
    requires BidAlone(s, k, r, i, o, ts) && FirstCount(ts, o, n)
    ensures Before(k.g.x, ts, n, i, e.d, e.now, s.fees).pos.qty == -r.qty
  {
    var x, stop := k.g.x, s.cid(r.ep, StopLeg);
    var a, b := SawAll(x, ts[..n], e.d, e.now, s.fees), Before(x, ts, n, i, e.d, e.now, s.fees);
    BeforeKept(s, k, r, i, o, ts, n, e);
    NotYet(x, ts, n, i, e.d, e.now, s.fees);
    hide Good;
    hide Before;
    hide Account;
    WholeIsHeld(s, x, r, k.gross, k.fees);
    WholeIsHeld(s, b, r, k.gross, k.fees);
    assert !Quiet(b, s.cid(r.ep, MakerLeg));
    if InFills(b.fills, stop) {
      assert !Quiet(x, stop);
      var m :| 0 <= m < |x.orders| && x.orders[m].id == stop && IsOpen(x.orders[m]);
      assert m != i;
      StillThere(x, ts, n, i, m, e.d, e.now, s.fees);
      assert false;
    }
    hide Held;
  }

  lemma BeforeKept(s: Setup, k: Desk, r: Rec, i: nat, o: Order, ts: seq<Print>, n: nat, e: Env)
    requires DistinctIds(s) && Good(k.g.x) && Account(s, k.g.x, Some(r), k.gross, k.fees, true)
    requires n < |ts| && i < |k.g.x.orders|
    ensures var b := Before(k.g.x, ts, n, i, e.d, e.now, s.fees);
            Account(s, b, Some(r), k.gross, k.fees, true) && Onward(k.g.x, b) && |b.orders| == |k.g.x.orders|
  {
    var a := SawAll(k.g.x, ts[..n], e.d, e.now, s.fees);
    var z := AtTrade(a, ts[n]);
    SawAllKept(s, k.g.x, Some(r), k.gross, k.fees, true, ts[..n], e.d, e.now);
    hide DistinctIds;
    hide Good;
    hide Account;
    ClosingKept(s, a, z, Some(r), k.gross, k.fees, true);
    KeptTwice(s, k.g.x, a, z, Some(r), k.gross, k.fees, true);
    MetUpToKept(s, z, Some(r), k.gross, k.fees, true, i, ts[n], e.d, e.now);
    hide Onward;
    hide SawAll;
    hide MetUpTo;
    KeptTwice(s, k.g.x, z, MetUpTo(z, i, ts[n], e.d, e.now, s.fees), Some(r), k.gross, k.fees, true);
  }

  lemma {:induction false} InFillsOf(fills: seq<Fill>, f: Fill)
    requires f in fills
    ensures f in FillsOf(fills, f.id)
  {
    if f == fills[|fills| - 1] {
    } else {
      InFillsOf(fills[..|fills| - 1], f);
    }
  }

  lemma {:induction false} FirstOf(ts: seq<Print>, o: Order) returns (n: nat)
    requires exists t :: t in ts && Counts(o, t)
    ensures FirstCount(ts, o, n)
  {
    var m := |ts| - 1;
    if exists t :: t in ts[..m] && Counts(o, t) {
      n := FirstOf(ts[..m], o);
      assert forall j :: 0 <= j < m ==> ts[..m][j] == ts[j];
    } else {
      n := m;
      assert forall j :: 0 <= j < m ==> ts[..m][j] == ts[j] && ts[j] in ts[..m];
    }
    hide Counts;
  }

  /** One fill under this id, of this quantity, price and fee. */
  ghost predicate FilledOnce(x: Exchange, id: string, qty: real, px: real, fee: real) {
    var fills := FillsOf(x.fills, id);
    |fills| == 1 && fills[0].qty == qty && fills[0].price == px && fills[0].fee == fee
  }

  /** The first trade below the bid fills it. */
  lemma BidSettles(s: Setup, k: Desk, r: Rec, i: nat, o: Order, ts: seq<Print>, e: Env) returns (f: Fill)
    requires DistinctIds(s) && Good(k.g.x) && Account(s, k.g.x, Some(r), k.gross, k.fees, true)
    requires BidAlone(s, k, r, i, o, ts)
    requires GoesBelow(ts, o)
    ensures f in SawAll(k.g.x, ts, e.d, e.now, s.fees).fills && f.id == s.cid(r.ep, MakerLeg)
    ensures f.qty == r.qty && f.price == o.price && f.fee == MakerCost(s, r.qty, o.price)
  {
    BidAloneIs(s, k, r, i, o, ts);
    hide *;
    var x := k.g.x;
    BidIs(s, k, r, i, o, ts);
    BelowCounts(ts, o);
    var n := FirstOf(ts, o);
    BeforeHeld(s, k, r, i, o, ts, n, e);
    FiredDone(x, ts, n, i, e.d, e.now, s.fees);
    f := FillDone(s, o, ts[n], e, SawAll(x, ts, e.d, e.now, s.fees).orders[i],
                  SawAll(x, ts, e.d, e.now, s.fees).fills);
  }

  lemma BelowCounts(ts: seq<Print>, o: Order)
    requires o.kind == Limit && o.side == Buy && GoesBelow(ts, o)
    ensures exists t :: t in ts && Counts(o, t)
  {
    var t :| t in ts && o.placedTs < t.ts && t.price < o.price;
    assert Counts(o, t);
  }

  lemma BidAloneIs(s: Setup, k: Desk, r: Rec, i: nat, o: Order, ts: seq<Print>)
    requires BidAlone(s, k, r, i, o, ts)
    ensures k.rec == Some(r) && r.open && r.makerId == Some(s.cid(r.ep, MakerLeg)) && k.g.x.pos.qty == -r.qty
    ensures i < |k.g.x.orders| && k.g.x.orders[i] == o
    ensures IsOpen(o) && o.id == s.cid(r.ep, MakerLeg) && o.kind == Limit
  {
    hide Clear;
  }

  lemma FillDone(s: Setup, o: Order, t: Print, e: Env, now: Order, fills: seq<Fill>) returns (f: Fill)
    requires Polling.Done(o, -o.qty, t, e.d, e.now, s.fees, now, fills) && ReduceOk(-o.qty, o) && o.kind == Limit
    ensures f in fills && f.id == o.id && f.qty == o.qty && f.price == o.price
    ensures f.fee == MakerCost(s, o.qty, o.price)
  {
    f := FillOf(o, t, e.d, e.now, s.fees);
    hide ReduceOk;
  }

  /** The bid fills whole at its own price. */
  lemma BidFills(s: Setup, k: Desk, r: Rec, i: nat, o: Order, ts: seq<Print>, e: Env)
    requires DistinctIds(s) && Good(k.g.x) && Account(s, k.g.x, Some(r), k.gross, k.fees, true)
    requires BidAlone(s, k, r, i, o, ts)
    requires GoesBelow(ts, o)
    ensures var y := SawAll(k.g.x, ts, e.d, e.now, s.fees);
            && Account(s, y, Some(r), k.gross, k.fees, true)
            && FilledOnce(y, s.cid(r.ep, MakerLeg), r.qty, o.price, MakerCost(s, r.qty, o.price))
  {
    var y := SawAll(k.g.x, ts, e.d, e.now, s.fees);
    var f := BidSettles(s, k, r, i, o, ts, e);
    hide *;
    SawAllKept(s, k.g.x, Some(r), k.gross, k.fees, true, ts, e.d, e.now);
    KeptAccount(s, k.g.x, y, Some(r), k.gross, k.fees, true);
    InFillsOf(y.fills, f);
    ExitFill(s, y, r, k.gross, k.fees, true, MakerLeg);
    OneExit(s, y, r, k.gross, k.fees, MakerLeg);
    ThatFill(y, f, r.qty, f.price, f.fee);
  }

  lemma KeptAccount(s: Setup, x: Exchange, y: Exchange, rec: Option<Rec>, gross: real, fees: real, clean: bool)
    requires Kept(s, x, y, rec, gross, fees, clean)
    ensures Account(s, y, rec, gross, fees, clean)
  {
  }

  lemma ThatFill(x: Exchange, f: Fill, qty: real, px: real, fee: real)
    requires |FillsOf(x.fills, f.id)| == 1 && f in FillsOf(x.fills, f.id)
    requires f.qty == qty && f.price == px && f.fee == fee
    ensures FilledOnce(x, f.id, qty, px, fee)
  {
    hide FillsOf;
  }

  lemma OneExit(s: Setup, y: Exchange, r: Rec, gross: real, fees: real, via: Leg)
    requires exists f :: BoughtBack(s, y, r, gross, fees, via, f)
    ensures |FillsOf(y.fills, s.cid(r.ep, via))| == 1
  {
    hide FillsOf;
    hide Balanced;
  }

  lemma BidIs(s: Setup, k: Desk, r: Rec, i: nat, o: Order, ts: seq<Print>)
    requires DistinctIds(s) && Good(k.g.x) && Account(s, k.g.x, Some(r), k.gross, k.fees, true)
    requires BidAlone(s, k, r, i, o, ts)
    ensures o.side == Buy && o.reduceOnly && o.qty == r.qty > 0.0 && o.filled == 0.0 && ReduceOk(-r.qty, o)
  {
    assert WholeOrder(k.g.x.orders[i]);
    assert Explained(s, k.g.x, Some(r), true, k.g.x.orders[i]);
    hide Good;
    hide FreshAfter;
  }

  /** Nothing is open and nothing is held once a clean record is closed. */
  lemma ClosedIsFlat(s: Setup, k: Desk)
    requires DeskOk(s, k) && k.rec.None?
    ensures AllFlat(k.g.x)
  {
    hide FreshAfter;
    hide Good;
    assert forall o :: !Explained(s, k.g.x, None, true, o);
  }

  /** The next poll reads a trade below the resting bid of a whole short, and none at or above its stop. */
  ghost predicate BidIsHit(s: Setup, k: Desk, r: Rec, i: nat, o: Order, e: Env) {
    BidAlone(s, k, r, i, o, ToRead(s, k.g.x, e.n1)) && GoesBelow(ToRead(s, k.g.x, e.n1), o)
  }

  lemma BidIsHitIs(s: Setup, k: Desk, r: Rec, i: nat, o: Order, e: Env)
    requires BidIsHit(s, k, r, i, o, e)
    ensures BidAlone(s, k, r, i, o, ToRead(s, k.g.x, e.n1)) && GoesBelow(ToRead(s, k.g.x, e.n1), o)
    ensures k.rec == Some(r) && r.open && r.makerId.Some?
  {
    hide GoesBelow;
    hide Clear;
    hide ToRead;
  }

  /** The next piece of work is to poll the maker exit, the poll reads a trade below the bid, and none at or
      above the emergency stop: the result is booked at the bid, and nothing is open or held any more. */
  lemma MakerFillIsBooked(s: Setup, k: Desk, t: Totals, r: Rec, i: nat, o: Order, rest: seq<Task>, e: Env)
    requires DistinctIds(s) && DeskOk(s, k) && k.queue == [PollMaker(r.ep)] + rest && BidIsHit(s, k, r, i, o, e)
    ensures var (j, u) := Worked(s, k, t, e);
            Books(s, k, t, j, u, o.price, MakerCost(s, r.qty, o.price)) && j.queue == rest && AllFlat(j.g.x)
  {
    BidIsHitIs(s, k, r, i, o, e);
    BidAloneIs(s, k, r, i, o, ToRead(s, k.g.x, e.n1));
    hide *;
    var l, fee := k.(queue := rest), MakerCost(s, r.qty, o.price);
    OpenFacts(s, k, r);
    TiedQueue(s, k, rest);
    OkIsTied(s, l);
    MakerPolledOk(s, l, t, r.ep, e, true);
    BidFills(s, k, r, i, o, ToRead(s, k.g.x, e.n1), e);
    PollIsRead(s, k.g.x, e.n1, e);
    PolledBooks(s, l, t, r, e, o.price, fee);
    WorkIs(s, k, t, e, PollMaker(r.ep), rest);
    var (j, u) := MakerPolled(s, l, t, r.ep, e);
    ClosedBooks(s, k, l, t, j, u, o.price, fee);
    OkIsTied(s, j);
    ClosedIsFlat(s, j);
  }

  /** Nothing is held and no order is open. */
  ghost predicate AllFlat(x: Exchange) {
    x.pos.qty == 0.0 && forall m :: 0 <= m < |x.orders| ==> !IsOpen(x.orders[m])
  }

  lemma OkIsTied(s: Setup, k: Desk)
    ensures DeskOk(s, k) <==> Tied(s, k, true)
  {
  }

  /** Working runs the first task of the queue and leaves the others. */
  lemma WorkIs(s: Setup, k: Desk, t: Totals, e: Env, task: Task, rest: seq<Task>)
    requires Good(k.g.x) && k.queue == [task] + rest
    ensures Worked(s, k, t, e) == TaskDone(s, k.(queue := rest), t, task, e)
    ensures forall ep :: task == DoEntry(ep) ==> Worked(s, k, t, e) == (EntryDone(s, k.(queue := rest), ep, e), t)
    ensures forall ep :: task == DoExit(ep) ==> Worked(s, k, t, e) == ExitDone(s, k.(queue := rest), t, ep, e)
    ensures forall ep :: task == PlaceMaker(ep) ==> Worked(s, k, t, e) == (MakerPlaced(s, k.(queue := rest), ep, e), t)
    ensures forall ep :: task == PollMaker(ep) ==> Worked(s, k, t, e) == MakerPolled(s, k.(queue := rest), t, ep, e)
    ensures task == CheckStop ==> Worked(s, k, t, e) == StopChecked(s, k.(queue := rest), t, e.n1, e)
  {
    assert k.queue[1..] == rest;
    hide Good;
    hide EntryDone;
    hide ExitDone;
    hide MakerPlaced;
    hide MakerPolled;
    hide StopChecked;
  }

  lemma TiedQueue(s: Setup, k: Desk, rest: seq<Task>)
    requires DeskOk(s, k)
    ensures DeskOk(s, k.(queue := rest))
  {
    hide Account;
    hide Good;
    hide FreshAfter;
    hide Unused;
  }

  lemma OpenFacts(s: Setup, k: Desk, r: Rec)
    requires DeskOk(s, k) && k.rec == Some(r) && r.open
    ensures Good(k.g.x) && Account(s, k.g.x, Some(r), k.gross, k.fees, true) && r.qty > 0.0
    ensures Unused(k.g.x, s.cid(r.ep, ExitLeg))
  {
    hide Good;
    hide FreshAfter;
    hide Unused;
  }

  lemma PolledBooks(s: Setup, k: Desk, t: Totals, r: Rec, e: Env, px: real, fee: real)
    requires Good(k.g.x) && k.rec == Some(r) && r.open && r.makerId == Some(s.cid(r.ep, MakerLeg)) && r.qty > 0.0
    requires FilledOnce(PolledTo(s, k.g.x, e.n1, e), s.cid(r.ep, MakerLeg), r.qty, px, fee)
    ensures var (j, u) := MakerPolled(s, k, t, r.ep, e); Books(s, k, t, j, u, px, fee) && j.queue == k.queue
  {
    var y := PolledTo(s, k.g.x, e.n1, e);
    var f := FillsOf(y.fills, s.cid(r.ep, MakerLeg))[0];
    assert FillsOf(y.fills, s.cid(r.ep, MakerLeg)) == [f];
    OneFill(f);
    hide PolledTo;
    hide FillsOf;
    hide Good;
    hide Without;
    hide Vwap;
    hide QtySum;
    hide FeeSum;
    FinalizedBooks(s, k, k.(g := k.g.(x := Without(y, r.stopId))), t, f.price, f.fee);
    hide Books;
  }

  lemma ClosedBooks(s: Setup, k: Desk, l: Desk, t: Totals, j: Desk, u: Totals, px: real, fee: real)
    requires Books(s, l, t, j, u, px, fee) && l == k.(queue := l.queue)
    ensures Books(s, k, t, j, u, px, fee) && j.rec.None?
  {
  }

  // ---- an exit always ends --------------------------------------------------

  lemma ClosedAnyhow(s: Setup, k: Desk, j: Desk, t: Totals, px: real, fee: real)
    requires k.rec.Some? && j.rec == k.rec && j.done == k.done && j.lastEp == k.lastEp
    requires j.gross == k.gross && j.fees == k.fees && j.queue == k.queue
    ensures var (gone, u) := Finalized(s, j, t, px, fee); Closes(s, k, t, gone, u)
  {
    FinalizedBooks(s, k, j, t, px, fee);
    hide Books;
  }

  /** Some result is booked and the queue is as it was. */
  ghost predicate Closes(s: Setup, k: Desk, t: Totals, j: Desk, u: Totals) {
    j.queue == k.queue && exists px, fee :: Books(s, k, t, j, u, px, fee)
  }

  /** Only the guard and the broker have changed. */
  predicate SameBooks(k: Desk, j: Desk) {
    j == k.(g := j.g)
  }

  lemma StopOrNothingCloses(s: Setup, k: Desk, j: Desk, t: Totals, r: Rec, e: Env)
    requires Good(j.g.x) && SameBooks(k, j) && k.rec == Some(r) && r.open
    ensures var (gone, u) := StopOrNothing(s, j, t, r, e); Closes(s, k, t, gone, u)
  {
    var x := PolledTo(s, j.g.x, e.n3, e);
    hide Good;
    hide PolledTo;
    hide Vwap;
    hide FeeSum;
    var polled := j.(g := j.g.(x := x));
    if r.stopId.Some? {
      var fills := FillsOf(x.fills, r.stopId.value);
      if fills != [] {
        ClosedAnyhow(s, k, polled, t, Vwap(fills), FeeSum(fills));
      } else {
        ClosedAnyhow(s, k, polled, t, r.entryPx, 0.0);
      }
    } else {
      ClosedAnyhow(s, k, j, t, r.entryPx, 0.0);
    }
    hide FillsOf;
    hide Finalized;
    GuardOnly(s, k, t);
  }

  /** What the guard becomes makes no difference to a closed record. */
  lemma GuardOnly(s: Setup, k: Desk, t: Totals)
    ensures forall j, u, g {:trigger Closes(s, k, t, j.(g := g), u)} :: Closes(s, k, t, j, u) ==>
              Closes(s, k, t, j.(g := g), u)
  {
    forall j, u, g | Closes(s, k, t, j, u) ensures Closes(s, k, t, j.(g := g), u) {
      var px, fee :| Books(s, k, t, j, u, px, fee);
      assert Books(s, k, t, j.(g := g), u, px, fee);
    }
  }

  lemma BoughtCloses(s: Setup, k: Desk, t: Totals, x: Exchange, r: Rec, e: Env)
    requires Good(x) && k.rec == Some(r) && r.open && r.qty > 0.0 && Unused(x, s.cid(r.ep, ExitLeg))
    requires -r.qty <= x.pos.qty <= 0.0
    ensures var (gone, u) := BoughtAtMarket(s, k, t, x, r, [], e); Closes(s, k, t, gone, u)
  {
    var id, g := s.cid(r.ep, ExitLeg), Ordered(s, k.g.(x := x), BuyAll(s, r, e), e);
    BuyAllIs(s, k, x, r, e);
    hide *;
    if x.pos.qty == -r.qty {
      HeldReduces(r.qty);
      var f := MarketTrades(x, Buy, r.qty, id, true, e, s.fees);
      NotFilled(x, id);
      FillsOfOne(x.fills, f, id);
      AtMarketFilled(s, k, t, x, r, e, g, f);
      ClosedAnyhow(s, k, k.(g := g.(x := Without(g.x, r.stopId))), t, f.price, f.fee);
    } else {
      MarketExpires(x, r.qty, id, e, s.fees);
      NotFilled(x, id);
      AtMarketExpired(s, k, t, x, r, e, g);
      SameIs(k, g);
      StopOrNothingCloses(s, k, k.(g := g), t, r, e);
    }
  }

  lemma HeldReduces(qty: real)
    requires qty > 0.0
    ensures Reduces(-qty, Buy, qty)
  {
  }

  lemma SameIs(k: Desk, g: Guarded)
    ensures SameBooks(k, k.(g := g))
  {
  }

  /** The next piece of work is the exit of an open record: whatever is read and bought meanwhile, the record is
      gone afterwards and exactly one result is booked. */
  lemma ExitEnds(s: Setup, k: Desk, t: Totals, r: Rec, rest: seq<Task>, e: Env, clean: bool)
    requires DistinctIds(s) && Tied(s, k, clean) && k.queue == [DoExit(r.ep)] + rest
    requires k.rec == Some(r) && r.open && r.exitReq
    ensures var (j, u) := Worked(s, k, t, e);
            && j.rec.None? && j.done == k.done + [r.ep] && u.trades == t.trades + 1 && j.queue == rest
            && exists px, fee :: Books(s, k, t, j, u, px, fee)
  {
    hide *;
    var l := k.(queue := rest);
    AnyFacts(s, k, r, clean);
    WorkIs(s, k, t, e, DoExit(r.ep), rest);
    ExitCloses(s, l, t, r, e, clean);
    var (j, u) := ExitDone(s, l, t, r.ep, e);
    ClosesFacts(s, k, l, t, j, u);
  }

  lemma ClosesFacts(s: Setup, k: Desk, l: Desk, t: Totals, j: Desk, u: Totals)
    requires Closes(s, l, t, j, u) && l == k.(queue := l.queue) && k.rec.Some?
    ensures j.rec.None? && j.done == k.done + [k.rec.value.ep] && u.trades == t.trades + 1 && j.queue == l.queue
    ensures exists px, fee :: Books(s, k, t, j, u, px, fee)
  {
    var px, fee :| Books(s, l, t, j, u, px, fee);
    assert Books(s, k, t, j, u, px, fee);
  }

  lemma AnyFacts(s: Setup, k: Desk, r: Rec, clean: bool)
    requires Tied(s, k, clean) && k.rec == Some(r) && r.open
    ensures Good(k.g.x) && Account(s, k.g.x, Some(r), k.gross, k.fees, clean) && r.qty > 0.0
    ensures Unused(k.g.x, s.cid(r.ep, ExitLeg))
    ensures r.makerId.Some? ==> r.makerId.value == s.cid(r.ep, MakerLeg)
    ensures forall rest :: Tied(s, k.(queue := rest), clean)
  {
    hide Good;
    hide FreshAfter;
    hide Unused;
    hide OrdersOk;
    hide Covered;
  }

  lemma ExitCloses(s: Setup, k: Desk, t: Totals, r: Rec, e: Env, clean: bool)
    requires DistinctIds(s) && Tied(s, k, clean) && k.rec == Some(r) && r.open && r.exitReq
    ensures var (j, u) := ExitDone(s, k, t, r.ep, e); Closes(s, k, t, j, u)
  {
    var x := MakerClosed(s, k.g.x, r.makerId, e);
    AnyFacts(s, k, r, clean);
    MakerClosedOk(s, k.g.x, r, k.gross, k.fees, clean, e);
    AccountFresh(s, x, r, k.gross, k.fees, clean);
    OnwardUnused(k.g.x, x, s.cid(r.ep, ExitLeg));
    StillHeld(s, x, r, k.gross, k.fees, clean);
    hide Tied;
    hide Onward;
    hide DistinctIds;
    hide MakerClosed;
    hide FillsOf;
    hide Unused;
    hide Good;
    hide Quiet;
    hide Account;
    hide Held;
    hide FreshAfter;
    hide BoughtAtMarket;
    hide Closes;
    hide Finalized;
    hide Vwap;
    hide FeeSum;
    hide QtySum;
    var made := FillsOf(x.fills, s.cid(r.ep, MakerLeg));
    if made != [] {
      ExitFill(s, x, r, k.gross, k.fees, clean, MakerLeg);
      ClosedAnyhow(s, k, k.(g := k.g.(x := Without(x, r.stopId))), t, Vwap(made), FeeSum(made));
    } else {
      BoughtCloses(s, k, t, x, r, e);
    }
  }

  // ---- what is paid at market -----------------------------------------------

  /** A price and a fee at which the whole quantity is taken from these levels. */
  predicate AtWalk(s: Setup, levels: seq<Level>, qty: real, px: real, fee: real)
    requires levels != []
  {
    px * qty == WalkCost(levels, qty) && fee == WalkCost(levels, qty) * s.fees.takerBps / 10000.0
  }

  lemma MarketPays(s: Setup, x: Exchange, side: Side, qty: real, id: string, reduceOnly: bool, e: Env)
      returns (f: Fill)
    requires Good(x) && Unused(x, id) && qty > 0.0 && (reduceOnly ==> Reduces(x.pos.qty, side, qty))
    ensures MarketPlaced(x, side, qty, id, reduceOnly, e.d, e.now, s.fees).fills == x.fills + [f]
    ensures f.id == id && f.side == side && f.qty == qty && f.ts == e.now
    ensures AtWalk(s, if side == Buy then e.d.asks else e.d.bids, qty, f.price, f.fee)
  {
    var o := NewOrder(id, side, Market, qty, 0.0, reduceOnly, e.now);
    var px := MarketPrice(o, e.d);
    f := Fill(id, e.now, side, qty, px, FeeOf(s.fees, Notional(qty, px), Taker), Taker);
    WalkPays(s, o, e);
    assert IndexOf(x.orders, id).None?;
    hide Good;
    hide Applied;
    hide FeeOf;
    hide Notional;
    hide MarketPrice;
    hide Reduces;
    hide AtWalk;
  }

  lemma WalkPays(s: Setup, o: Order, e: Env)
    requires o.qty > 0.0 && o.filled == 0.0
    ensures var px := MarketPrice(o, e.d);
            AtWalk(s, if o.side == Buy then e.d.asks else e.d.bids, o.qty, px,
                   FeeOf(s.fees, Notional(o.qty, px), Taker))
  {
    var cost := WalkCost(if o.side == Buy then e.d.asks else e.d.bids, o.qty);
    assert o.qty * (cost / o.qty) == cost;
    hide WalkCost;
  }

  /** What the exit starts from: the trades are read, a maker exit is cancelled and the trades are read again. */
  function Cleared(s: Setup, x: Exchange, makerId: Option<string>, e: Env): (r: Exchange)
    requires Good(x)
    ensures Good(r)
  {
    match makerId
    case None => x
    case Some(id) => PolledTo(s, Next(PolledTo(s, x, e.n1, e), Cancel(id), s.tape, s.fees), e.n2, e)
  }

  /** The result is that of the one fill under this id. */
  ghost predicate BooksFill(s: Setup, k: Desk, t: Totals, j: Desk, u: Totals, fills: seq<Fill>, id: string) {
    exists f :: f in fills && f.id == id && Books(s, k, t, j, u, f.price, f.fee)
  }

  /** The result is that of the whole quantity at market. */
  ghost predicate BooksWalk(s: Setup, k: Desk, t: Totals, j: Desk, u: Totals, levels: seq<Level>, qty: real)
    requires levels != []
  {
    exists px, fee :: AtWalk(s, levels, qty, px, fee) && Books(s, k, t, j, u, px, fee)
  }

  /** How an exit is booked: at the maker exit's fill if it has one by then, bought back from the asks if the short
      is still whole, and otherwise at the stop's fill. */
  ghost predicate ExitBooks(s: Setup, k: Desk, t: Totals, r: Rec, e: Env, x: Exchange, j: Desk, u: Totals) {
    if InFills(x.fills, s.cid(r.ep, MakerLeg)) then BooksFill(s, k, t, j, u, x.fills, s.cid(r.ep, MakerLeg))
    else if x.pos.qty == -r.qty then BooksWalk(s, k, t, j, u, e.d.asks, r.qty)
    else BooksFill(s, k, t, j, u, j.g.x.fills, s.cid(r.ep, StopLeg))
  }

  /** The next piece of work is the exit of a record in exact agreement: it is booked that way, the stop and the
      maker exit are gone, and nothing is held. */
  lemma ExitIs(s: Setup, k: Desk, t: Totals, r: Rec, rest: seq<Task>, e: Env)
    requires DistinctIds(s) && DeskOk(s, k) && k.queue == [DoExit(r.ep)] + rest
    requires k.rec == Some(r) && r.open && r.exitReq
    ensures Good(k.g.x)
    ensures var (j, u) := Worked(s, k, t, e);
            ExitBooks(s, k, t, r, e, Cleared(s, k.g.x, r.makerId, e), j, u) && j.queue == rest && AllFlat(j.g.x)
  {
    hide *;
    var l := k.(queue := rest);
    OpenFacts(s, k, r);
    TiedQueue(s, k, rest);
    OkIsTied(s, l);
    ExitDoneOk(s, l, t, r.ep, e, true);
    WorkIs(s, k, t, e, DoExit(r.ep), rest);
    ExitWays(s, l, t, r, e);
    var (j, u) := ExitDone(s, l, t, r.ep, e);
    QueueAside(s, k, l, t, r, e, Cleared(s, k.g.x, r.makerId, e), j, u);
    OkIsTied(s, j);
    ExitCloses(s, l, t, r, e, true);
    ClosesFacts(s, k, l, t, j, u);
    ClosedIsFlat(s, j);
  }

  lemma QueueAside(s: Setup, k: Desk, l: Desk, t: Totals, r: Rec, e: Env, x: Exchange, j: Desk, u: Totals)
    requires ExitBooks(s, l, t, r, e, x, j, u) && l == k.(queue := l.queue)
    ensures ExitBooks(s, k, t, r, e, x, j, u)
  {
    forall px, fee | Books(s, l, t, j, u, px, fee) ensures Books(s, k, t, j, u, px, fee) {
    }
    hide Books;
    hide InFills;
    hide AtWalk;
  }

  lemma ClearedIs(s: Setup, x: Exchange, makerId: Option<string>, e: Env)
    requires Good(x)
    ensures MakerClosed(s, x, makerId, e) == Cleared(s, x, makerId, e)
  {
    hide Good;
    hide PolledTo;
  }

  lemma ExitWays(s: Setup, k: Desk, t: Totals, r: Rec, e: Env)
    requires DistinctIds(s) && Tied(s, k, true) && Good(k.g.x) && k.rec == Some(r) && r.open && r.exitReq
    ensures var (j, u) := ExitDone(s, k, t, r.ep, e);
            ExitBooks(s, k, t, r, e, Cleared(s, k.g.x, r.makerId, e), j, u)
  {
    hide *;
    var x, maker := MakerClosed(s, k.g.x, r.makerId, e), s.cid(r.ep, MakerLeg);
    ClearedIs(s, k.g.x, r.makerId, e);
    AnyFacts(s, k, r, true);
    MakerClosedOk(s, k.g.x, r, k.gross, k.fees, true, e);
    AccountFresh(s, x, r, k.gross, k.fees, true);
    OnwardUnused(k.g.x, x, s.cid(r.ep, ExitLeg));
    StillHeld(s, x, r, k.gross, k.fees, true);
    FillsOfNone(x.fills, maker);
    if FillsOf(x.fills, maker) != [] {
      ExitFill(s, x, r, k.gross, k.fees, true, MakerLeg);
      FillsArePositive(x, FillsOf(x.fills, maker));
      MakerWay(s, k, t, r, e, x);
    } else {
      ExitIsBought(s, k, t, r, e, x);
      if x.pos.qty == -r.qty {
        WalkWay(s, k, t, x, r, e);
      } else {
        StopWay(s, k, t, x, r, e);
      }
    }
    ExitBooksBy(s, k, t, r, e, x);
  }

  lemma ExitBooksBy(s: Setup, k: Desk, t: Totals, r: Rec, e: Env, x: Exchange)
    requires Good(k.g.x)
    requires var (j, u) := ExitDone(s, k, t, r.ep, e);
             if InFills(x.fills, s.cid(r.ep, MakerLeg)) then BooksFill(s, k, t, j, u, x.fills, s.cid(r.ep, MakerLeg))
             else if x.pos.qty == -r.qty then BooksWalk(s, k, t, j, u, e.d.asks, r.qty)
             else BooksFill(s, k, t, j, u, j.g.x.fills, s.cid(r.ep, StopLeg))
    ensures var (j, u) := ExitDone(s, k, t, r.ep, e); ExitBooks(s, k, t, r, e, x, j, u)
  {
    hide Good;
    hide ExitDone;
    hide BooksFill;
    hide BooksWalk;
    hide InFills;
  }

  lemma MakerWay(s: Setup, k: Desk, t: Totals, r: Rec, e: Env, x: Exchange)
    requires Good(k.g.x) && k.rec == Some(r) && r.open && r.exitReq && x == MakerClosed(s, k.g.x, r.makerId, e)
    requires r.makerId.Some? ==> r.makerId.value == s.cid(r.ep, MakerLeg)
    requires r.makerId.None? ==> FillsOf(x.fills, s.cid(r.ep, MakerLeg)) == []
    requires var made := FillsOf(x.fills, s.cid(r.ep, MakerLeg));
             && made != [] && QtySum(made) == r.qty && (forall f :: f in made ==> f.qty > 0.0)
             && Vwap(made) == made[0].price && FeeSum(made) == made[0].fee
    ensures var (j, u) := ExitDone(s, k, t, r.ep, e); BooksFill(s, k, t, j, u, x.fills, s.cid(r.ep, MakerLeg))
  {
    var made := FillsOf(x.fills, s.cid(r.ep, MakerLeg));
    assert made[0] in made;
    hide FillsOf;
    hide Good;
    hide MakerClosed;
    hide Without;
    hide Vwap;
    hide QtySum;
    hide FeeSum;
    FinalizedBooks(s, k, k.(g := k.g.(x := Without(x, r.stopId))), t, made[0].price, made[0].fee);
    hide Finalized;
    hide Books;
  }

  lemma ExitIsBought(s: Setup, k: Desk, t: Totals, r: Rec, e: Env, x: Exchange)
    requires Good(k.g.x) && k.rec == Some(r) && r.open && r.exitReq && x == MakerClosed(s, k.g.x, r.makerId, e)
    requires r.makerId.Some? ==> r.makerId.value == s.cid(r.ep, MakerLeg)
    requires FillsOf(x.fills, s.cid(r.ep, MakerLeg)) == []
    ensures Good(x) && ExitDone(s, k, t, r.ep, e) == BoughtAtMarket(s, k, t, x, r, [], e)
  {
    hide Good;
    hide BoughtAtMarket;
    hide MakerClosed;
    hide FillsOf;
  }

  lemma WalkWay(s: Setup, k: Desk, t: Totals, x: Exchange, r: Rec, e: Env)
    requires Good(x) && Unused(x, s.cid(r.ep, ExitLeg)) && r.qty > 0.0 && k.rec == Some(r) && x.pos.qty == -r.qty
    ensures var (j, u) := BoughtAtMarket(s, k, t, x, r, [], e); BooksWalk(s, k, t, j, u, e.d.asks, r.qty)
  {
    hide *;
    var id, g := s.cid(r.ep, ExitLeg), Ordered(s, k.g.(x := x), BuyAll(s, r, e), e);
    BuyAllIs(s, k, x, r, e);
    HeldReduces(r.qty);
    var f := MarketPays(s, x, Buy, r.qty, id, true, e);
    NotFilled(x, id);
    FillsOfOne(x.fills, f, id);
    AtMarketFilled(s, k, t, x, r, e, g, f);
    var (j, u) := Finalized(s, k.(g := g.(x := Without(g.x, r.stopId))), t, f.price, f.fee);
    FinalizedBooks(s, k, k.(g := g.(x := Without(g.x, r.stopId))), t, f.price, f.fee);
    BooksWalkBy(s, k, t, j, u, e, r.qty, f.price, f.fee);
  }

  lemma BooksWalkBy(s: Setup, k: Desk, t: Totals, j: Desk, u: Totals, e: Env, qty: real, px: real, fee: real)
    requires AtWalk(s, e.d.asks, qty, px, fee) && Books(s, k, t, j, u, px, fee)
    ensures BooksWalk(s, k, t, j, u, e.d.asks, qty)
  {
    hide AtWalk;
    hide Books;
  }

  /** Under exact agreement a short that is not whole and not bought back by the maker exit was by the stop. */
  lemma StopWay(s: Setup, k: Desk, t: Totals, x: Exchange, r: Rec, e: Env)
    requires DistinctIds(s) && Good(x) && k.rec == Some(r) && r.open && r.qty > 0.0
    requires Account(s, x, Some(r), k.gross, k.fees, true) && -r.qty < x.pos.qty <= 0.0
    requires FillsOf(x.fills, s.cid(r.ep, MakerLeg)) == []
    requires Unused(x, s.cid(r.ep, ExitLeg)) && Quiet(x, s.cid(r.ep, MakerLeg))
    ensures var (j, u) := BoughtAtMarket(s, k, t, x, r, [], e);
            BooksFill(s, k, t, j, u, j.g.x.fills, s.cid(r.ep, StopLeg))
  {
    hide *;
    var id, stop := s.cid(r.ep, ExitLeg), s.cid(r.ep, StopLeg);
    var g := Ordered(s, k.g.(x := x), BuyAll(s, r, e), e);
    FillsOfNone(x.fills, s.cid(r.ep, MakerLeg));
    WholeIsHeld(s, x, r, k.gross, k.fees);
    BuyAllIs(s, k, x, r, e);
    MarketExpires(x, r.qty, id, e, s.fees);
    ExpiredJoins(s, x, g.x, g.x.orders[|x.orders|], r, k.gross, k.fees, true);
    AtMarketExpired(s, k, t, x, r, e, g);
    StopIsKnown(s, g.x, r, k.gross, k.fees);
    NothingHeldPolled(s, k, g, PolledTo(s, g.x, e.n3, e), r, e, true);
    StopStaysFilled(s, g.x, r, k.gross, k.fees, e);
    var y := PolledTo(s, g.x, e.n3, e);
    FillsOfNone(y.fills, stop);
    ExitFill(s, y, r, k.gross, k.fees, true, StopLeg);
    var f := FillsOf(y.fills, stop)[0];
    StopFound(s, k, t, g, r, e, y, f);
    FinalizedBooks(s, k, k.(g := g.(x := y)), t, f.price, f.fee);
    StopFillBooks(s, k, t, g, y, r, f);
  }

  lemma StopIsKnown(s: Setup, x: Exchange, r: Rec, gross: real, fees: real)
    requires Account(s, x, Some(r), gross, fees, true) && InFills(x.fills, s.cid(r.ep, StopLeg))
    ensures r.stopId == Some(s.cid(r.ep, StopLeg))
  {
    hide InFills;
    hide FreshAfter;
    hide OrdersOk;
    hide Covered;
  }

  lemma StopStaysFilled(s: Setup, x: Exchange, r: Rec, gross: real, fees: real, e: Env)
    requires DistinctIds(s) && Good(x) && Account(s, x, Some(r), gross, fees, true)
    requires InFills(x.fills, s.cid(r.ep, StopLeg))
    ensures InFills(PolledTo(s, x, e.n3, e).fills, s.cid(r.ep, StopLeg))
  {
    PollKept(s, x, Some(r), gross, fees, true, e.n3, e);
    hide PolledTo;
    hide Account;
    hide Good;
    hide DistinctIds;
    var y := PolledTo(s, x, e.n3, e);
    var f :| f in x.fills && f.id == s.cid(r.ep, StopLeg);
    assert f in y.fills;
  }

  lemma StopFillBooks(s: Setup, k: Desk, t: Totals, g: Guarded, y: Exchange, r: Rec, f: Fill)
    requires var (j, u) := Finalized(s, k.(g := g.(x := y)), t, f.price, f.fee);
             Books(s, k, t, j, u, f.price, f.fee) && j.g == g.(x := y)
    requires FillsOf(y.fills, s.cid(r.ep, StopLeg)) != [] && f == FillsOf(y.fills, s.cid(r.ep, StopLeg))[0]
    ensures var (j, u) := Finalized(s, k.(g := g.(x := y)), t, f.price, f.fee);
            BooksFill(s, k, t, j, u, j.g.x.fills, s.cid(r.ep, StopLeg))
  {
    assert f in FillsOf(y.fills, s.cid(r.ep, StopLeg));
    hide FillsOf;
    hide Finalized;
    hide Books;
  }

  // ---- the entry ------------------------------------------------------------

  /** The record of a filled entry, and the emergency stop behind it. */
  ghost predicate Opens(s: Setup, k: Desk, j: Desk, r: Rec, e: Env) {
    && j == k.(rec := j.rec, g := j.g, queue := j.queue) && j.rec.Some? && j.g.x.orders != []
    && var m, o := j.rec.value, j.g.x.orders[|j.g.x.orders| - 1];
       && m == r.(open := true, entryPx := m.entryPx, entryFee := m.entryFee, stopId := Some(s.cid(r.ep, StopLeg)))
       && AtWalk(s, e.d.bids, r.qty, m.entryPx, m.entryFee) && j.g.x.pos.qty == -r.qty
       && o.id == s.cid(r.ep, StopLeg) && o.side == Buy && o.kind == StopMarket && o.reduceOnly && o.qty == r.qty
       && o.price * 100.0 == m.entryPx * (100.0 + s.estop)
       && o.status == (if e.last >= o.price then Rejected else New)
  }

  /** A waiting entry may trade: flat, the guard active, the kill switch off, the size within the limit. */
  ghost predicate MayEnter(s: Setup, k: Desk, r: Rec, e: Env) {
    k.g.x.pos.qty == 0.0 && k.g.risk.status == Active && !e.killed && r.qty <= s.limits.maxAbsPosition
  }

  lemma EntryGoes(s: Setup, k: Desk, r: Rec, e: Env, clean: bool)
    requires Tied(s, k, clean) && k.rec == Some(r) && !r.open && r.qty > 0.0 && k.g.x.pos.qty == 0.0
    ensures Went(s, k.g, SellAll(s, r, e), e) <==> MayEnter(s, k, r, e)
  {
    WaitingFacts(s, k, r, clean);
    forall o | o in k.g.x.orders && IsOpen(o) ensures o.reduceOnly {
      var i :| 0 <= i < |k.g.x.orders| && k.g.x.orders[i] == o;
      assert Explained(s, k.g.x, None, clean, o);
    }
    OnlyReducing(k.g.x.orders);
    hide Account;
    hide Good;
    hide FreshAfter;
    hide Pending;
    hide Tied;
  }

  lemma StopJoinsLast(s: Setup, x: Exchange, qty: real, px: real, id: string, e: Env)
    requires Good(x) && Unused(x, id) && qty > 0.0
    ensures var z := StopPlaced(x, Buy, qty, StopPrice(s, px), id, e.last, e.now);
            && z.orders != [] && z.pos == x.pos
            && var o := z.orders[|z.orders| - 1];
               && o.id == id && o.side == Buy && o.kind == StopMarket && o.reduceOnly && o.qty == qty
               && o.price * 100.0 == px * (100.0 + s.estop)
               && o.status == if e.last >= o.price then Rejected else New
  {
    assert IndexOf(x.orders, id).None?;
    StopIsAbove(s, px);
    hide Good;
    hide OpenCount;
    hide IndexOf;
    hide StopPrice;
    hide CursorFor;
    CursorOnly(Registered(x, NewOrder(id, Buy, StopMarket, qty, StopPrice(s, px), true, e.now)));
  }

  lemma StopIsAbove(s: Setup, px: real)
    ensures StopPrice(s, px) * 100.0 == px * (100.0 + s.estop)
  {
  }

  lemma CursorOnly(x: Exchange)
    requires Good(x)
    ensures forall o :: CursorFor(x, o).orders == x.orders && CursorFor(x, o).pos == x.pos
  {
    hide Good;
    hide OpenCount;
  }

  /** The sale went through: one fill at the bids, the short whole, the stop's id still free. */
  ghost predicate Sold(s: Setup, k: Desk, r: Rec, e: Env, g: Guarded, f: Fill) {
    && Good(g.x) && Went(s, k.g, SellAll(s, r, e), e)
    && FillsOf(g.x.fills, s.cid(r.ep, EntryLeg)) == [f] && f.qty == r.qty && AtWalk(s, e.d.bids, r.qty, f.price, f.fee)
    && g.x.pos.qty == -r.qty && Unused(g.x, s.cid(r.ep, StopLeg)) && Reduces(g.x.pos.qty, Buy, r.qty)
  }

  lemma EntrySold(s: Setup, k: Desk, r: Rec, e: Env, clean: bool) returns (f: Fill)
    requires DistinctIds(s) && Tied(s, k, clean) && Good(k.g.x)
    requires k.rec == Some(r) && !r.open && r.qty > 0.0 && MayEnter(s, k, r, e)
    ensures Sold(s, k, r, e, Ordered(s, k.g, SellAll(s, r, e), e), f)
  {
    FlatIs(s, k, r, e);
    hide *;
    WaitingFacts(s, k, r, clean);
    EntryGoes(s, k, r, e, clean);
    OrderedIs(s, k.g, SellAll(s, r, e), e);
    SellIs(s, r, e, k.g.x);
    var g := Ordered(s, k.g, SellAll(s, r, e), e);
    f := SaleFills(s, k.g.x, r.ep, r.qty, k.gross, k.fees, clean, e);
    SoldFacts(s, g.x, r.ep, r.qty, k.gross, k.fees, clean, f);
    SoldAt(s, g.x, r.ep, r.qty, k.gross, k.fees, clean, f);
    EntryIdUnused(s, k, r, clean);
    var p := MarketPays(s, k.g.x, Sell, r.qty, s.cid(r.ep, EntryLeg), false, e);
    SameFill(s, k.g.x, g.x, f, p, s.cid(r.ep, EntryLeg));
    SoldIs(s, k, r, e, g, f);
  }

  lemma SoldIs(s: Setup, k: Desk, r: Rec, e: Env, g: Guarded, f: Fill)
    requires Good(g.x) && Went(s, k.g, SellAll(s, r, e), e)
    requires FillsOf(g.x.fills, s.cid(r.ep, EntryLeg)) == [f] && f.qty == r.qty
    requires AtWalk(s, e.d.bids, r.qty, f.price, f.fee)
    requires g.x.pos.qty == -r.qty && Unused(g.x, s.cid(r.ep, StopLeg)) && Reduces(g.x.pos.qty, Buy, r.qty)
    ensures Sold(s, k, r, e, g, f)
  {
    hide Good;
    hide Went;
    hide FillsOf;
    hide AtWalk;
    hide Unused;
    hide Reduces;
  }

  lemma SoldOpens(s: Setup, k: Desk, l: Desk, r: Rec, e: Env, f: Fill)
    requires Good(k.g.x) && l == k.(queue := l.queue) && k.rec == Some(r) && !r.open && r.qty > 0.0
    requires k.g.x.pos.qty == 0.0 && Sold(s, k, r, e, Ordered(s, k.g, SellAll(s, r, e), e), f)
    ensures Opens(s, k, EntryDone(s, l, r.ep, e), r, e) && EntryDone(s, l, r.ep, e).queue == l.queue
  {
    hide *;
    var g, stop := Ordered(s, k.g, SellAll(s, r, e), e), StopFor(s, r, f.price, e);
    SoldMeans(s, k, r, e, g, f);
    OrderedIs(s, g, stop, e);
    StopIs(s, r, f.price, e, g.x);
    StopJoinsLast(s, g.x, r.qty, f.price, s.cid(r.ep, StopLeg), e);
    EntryUnfolds(s, l, r, e, g, f);
    OpensIs(s, k, l, r, e, f, Ordered(s, g, stop, e));
  }

  lemma SoldMeans(s: Setup, k: Desk, r: Rec, e: Env, g: Guarded, f: Fill)
    requires Sold(s, k, r, e, g, f)
    ensures Good(g.x) && Went(s, k.g, SellAll(s, r, e), e)
    ensures FillsOf(g.x.fills, s.cid(r.ep, EntryLeg)) == [f] && f.qty == r.qty
    ensures AtWalk(s, e.d.bids, r.qty, f.price, f.fee)
    ensures g.x.pos.qty == -r.qty && Unused(g.x, s.cid(r.ep, StopLeg)) && Reduces(g.x.pos.qty, Buy, r.qty)
  {
    hide Good;
    hide Went;
    hide FillsOf;
    hide AtWalk;
    hide Unused;
    hide Reduces;
  }

  /** The next piece of work is the entry of a waiting record that may trade: sold at the bids, and a reduce-only
      stop for all of it the set distance above. */
  lemma EntryOpens(s: Setup, k: Desk, t: Totals, r: Rec, rest: seq<Task>, e: Env, clean: bool)
    requires DistinctIds(s) && Tied(s, k, clean) && k.queue == [DoEntry(r.ep)] + rest
    requires k.rec == Some(r) && !r.open && r.qty > 0.0 && MayEnter(s, k, r, e)
    ensures var (j, u) := Worked(s, k, t, e); u == t && j.queue == rest && Opens(s, k, j, r, e)
  {
    FlatIs(s, k, r, e);
    hide *;
    WaitingFacts(s, k, r, clean);
    WorkIs(s, k, t, e, DoEntry(r.ep), rest);
    var f := EntrySold(s, k, r, e, clean);
    SoldOpens(s, k, k.(queue := rest), r, e, f);
  }

  lemma FlatIs(s: Setup, k: Desk, r: Rec, e: Env)
    requires MayEnter(s, k, r, e)
    ensures k.g.x.pos.qty == 0.0
  {
  }

  lemma SoldAt(s: Setup, x: Exchange, ep: int, qty: real, gross: real, fees: real, clean: bool, f: Fill)
    requires JustSold(s, x, ep, qty, gross, fees, clean, f)
    ensures x.pos.qty == -qty && Unused(x, s.cid(ep, StopLeg))
  {
    hide FillsOf;
    hide FreshAfter;
    hide Unused;
    hide OrdersOk;
  }

  lemma EntryIdUnused(s: Setup, k: Desk, r: Rec, clean: bool)
    requires Tied(s, k, clean) && k.rec == Some(r) && !r.open
    ensures Unused(k.g.x, s.cid(r.ep, EntryLeg))
  {
    assert Fresh(s, k.g.x, r.ep);
    hide Account;
    hide Good;
    hide Unused;
  }

  lemma SameFill(s: Setup, x: Exchange, y: Exchange, f: Fill, p: Fill, id: string)
    requires Unused(x, id) && y.fills == x.fills + [p] && p.id == id && FillsOf(y.fills, id) == [f]
    ensures f == p
  {
    NotFilled(x, id);
    FillsOfOne(x.fills, p, id);
    hide FillsOf;
  }

  lemma OpensIs(s: Setup, k: Desk, l: Desk, r: Rec, e: Env, f: Fill, g: Guarded)
    requires l == k.(queue := l.queue) && g.x.orders != [] && g.x.pos.qty == -r.qty
    requires AtWalk(s, e.d.bids, r.qty, f.price, f.fee)
    requires var o := g.x.orders[|g.x.orders| - 1];
             && o.id == s.cid(r.ep, StopLeg) && o.side == Buy && o.kind == StopMarket && o.reduceOnly && o.qty == r.qty
             && o.price * 100.0 == f.price * (100.0 + s.estop)
             && o.status == if e.last >= o.price then Rejected else New
    ensures Opens(s, k, l.(rec := Some(OpenedBy(s, r, f)), g := g), r, e)
  {
    hide AtWalk;
  }

  /** If it may not trade, the record is dropped and nothing is ordered. */
  lemma EntryDrops(s: Setup, k: Desk, t: Totals, r: Rec, rest: seq<Task>, e: Env, clean: bool)
    requires DistinctIds(s) && Tied(s, k, clean) && k.queue == [DoEntry(r.ep)] + rest
    requires k.rec == Some(r) && !r.open && r.qty > 0.0 && !MayEnter(s, k, r, e)
    ensures var (j, u) := Worked(s, k, t, e);
            u == t && j.rec.None? && j.queue == rest && j.g.x == k.g.x && j.done == k.done
  {
    WaitingFacts(s, k, r, clean);
    if k.g.x.pos.qty == 0.0 {
      EntryGoes(s, k, r, e, clean);
    }
    OrderedIs(s, k.g, SellAll(s, r, e), e);
    WorkIs(s, k, t, e, DoEntry(r.ep), rest);
    hide Good;
    hide Tied;
    hide Account;
    hide FreshAfter;
    hide Ordered;
    hide Worked;
    hide FillsOf;
    hide StopRested;
    hide Went;
    hide TaskDone;
    hide DistinctIds;
  }

  // ---- the maker exit -------------------------------------------------------

  /** The bid of a record without one: reduce-only, for all of it, at the given price. */
  predicate IsBid(s: Setup, r: Rec, px: real, o: Order) {
    && o.id == s.cid(r.ep, MakerLeg) && o.side == Buy && o.kind == Limit && o.reduceOnly && o.qty == r.qty
    && o.price == px
  }

  /** The next piece of work is to bid for the exit of an open record with its short whole and that leg unused:
      below the best ask the bid rests and the record knows it, otherwise it expires and the record does not. */
  lemma MakerRests(s: Setup, k: Desk, t: Totals, r: Rec, rest: seq<Task>, e: Env)
    requires DistinctIds(s) && DeskOk(s, k) && k.queue == [PlaceMaker(r.ep)] + rest
    requires k.rec == Some(r) && r.open && !r.exitReq && r.makerId.None? && k.g.x.pos.qty == -r.qty
    requires e.bid.Some? && Unused(k.g.x, s.cid(r.ep, MakerLeg))
    ensures var (j, u) := Worked(s, k, t, e);
            && u == t && j.queue == rest && j.g.x.orders != [] && j.g.x.pos == k.g.x.pos
            && var o := j.g.x.orders[|j.g.x.orders| - 1];
               && IsBid(s, r, e.bid.value, o)
               && if e.bid.value < e.d.asks[0].price
                  then o.status == New && j.rec == Some(r.(makerId := Some(o.id)))
                  else o.status == Expired && j.rec == Some(r)
  {
    hide *;
    OpenFacts(s, k, r);
    var l, bid := k.(queue := rest), PlaceGtx(Buy, r.qty, e.bid.value, s.cid(r.ep, MakerLeg), true, e.d, e.now);
    WorkIs(s, k, t, e, PlaceMaker(r.ep), rest);
    HeldReduces(r.qty);
    BidJoins(s, k.g.x, r, e);
    OrderedIs(s, k.g, bid, e);
    BidKnown(s, l, r, e, Ordered(s, k.g, bid, e));
  }

  lemma BidJoins(s: Setup, x: Exchange, r: Rec, e: Env)
    requires Good(x) && e.bid.Some? && Unused(x, s.cid(r.ep, MakerLeg)) && r.qty > 0.0
    requires Reduces(x.pos.qty, Buy, r.qty)
    ensures var bid := PlaceGtx(Buy, r.qty, e.bid.value, s.cid(r.ep, MakerLeg), true, e.d, e.now);
            var y := Next(x, bid, s.tape, s.fees);
            && Placing(bid) && !bid.PlaceStop? && bid.reduceOnly && |y.orders| == |x.orders| + 1 && y.pos == x.pos
            && IsBid(s, r, e.bid.value, y.orders[|x.orders|])
            && y.orders[|x.orders|].status == if e.bid.value < e.d.asks[0].price then New else Expired
  {
    assert IndexOf(x.orders, s.cid(r.ep, MakerLeg)).None?;
    hide Good;
    hide IndexOf;
    hide OpenCount;
    hide Reduces;
    hide CursorFor;
    CursorOnly(Registered(x, NewOrder(s.cid(r.ep, MakerLeg), Buy, Limit, r.qty, e.bid.value, true, e.now)));
  }

  lemma BidKnown(s: Setup, k: Desk, r: Rec, e: Env, g: Guarded)
    requires Good(k.g.x) && k.rec == Some(r) && r.open && !r.exitReq && r.makerId.None? && e.bid.Some?
    requires g == Ordered(s, k.g, PlaceGtx(Buy, r.qty, e.bid.value, s.cid(r.ep, MakerLeg), true, e.d, e.now), e)
    requires g.x.orders != [] && IsBid(s, r, e.bid.value, g.x.orders[|g.x.orders| - 1])
    requires var st := g.x.orders[|g.x.orders| - 1].status; st == New || st == Expired
    ensures var o, j := g.x.orders[|g.x.orders| - 1], MakerPlaced(s, k, r.ep, e);
            j == k.(g := g, rec := Some(if o.status == New then r.(makerId := Some(o.id)) else r))
  {
    NewestIndex(g.x.orders, |g.x.orders| - 1);
    hide Good;
    hide Ordered;
    hide IndexOf;
  }

  // ---- a look at the stop ---------------------------------------------------

  /** The next piece of work is to look at the emergency stop: if it has filled by then its one fill is booked,
      otherwise record and totals are as before. */
  lemma StopIsBooked(s: Setup, k: Desk, t: Totals, r: Rec, rest: seq<Task>, e: Env)
    requires DistinctIds(s) && DeskOk(s, k) && k.queue == [CheckStop] + rest
    requires k.rec == Some(r) && r.open && r.stopId.Some?
    ensures var (x, (j, u)) := (PolledTo(s, k.g.x, e.n1, e), Worked(s, k, t, e));
            && j.g.x == x && j.queue == rest
            && if forall f :: f in x.fills ==> f.id != s.cid(r.ep, StopLeg) then j.rec == Some(r) && u == t
               else exists f :: f in x.fills && f.id == s.cid(r.ep, StopLeg) && f.qty == r.qty
                                && Books(s, k, t, j, u, f.price, f.fee)
  {
    hide *;
    OpenFacts(s, k, r);
    var l, x, stop := k.(queue := rest), PolledTo(s, k.g.x, e.n1, e), s.cid(r.ep, StopLeg);
    WorkIs(s, k, t, e, CheckStop, rest);
    PollKept(s, k.g.x, Some(r), k.gross, k.fees, true, e.n1, e);
    KeptAccount(s, k.g.x, x, Some(r), k.gross, k.fees, true);
    AccountFresh(s, k.g.x, r, k.gross, k.fees, true);
    FillsOfNone(x.fills, stop);
    InFillsIs(x.fills, stop);
    if FillsOf(x.fills, stop) != [] {
      ExitFill(s, x, r, k.gross, k.fees, true, StopLeg);
      BoughtIs(s, x, r, k.gross, k.fees, StopLeg);
      LookBooksIt(s, k, l, t, r, e, FillsOf(x.fills, stop)[0]);
    } else {
      LookFindsNothing(s, l, t, r, e);
    }
  }

  lemma InFillsIs(fills: seq<Fill>, id: string)
    ensures InFills(fills, id) <==> exists f :: f in fills && f.id == id
  {
  }

  lemma BoughtIs(s: Setup, x: Exchange, r: Rec, gross: real, fees: real, via: Leg)
    requires FillsOf(x.fills, s.cid(r.ep, via)) != []
    requires BoughtBack(s, x, r, gross, fees, via, FillsOf(x.fills, s.cid(r.ep, via))[0])
    ensures FillsOf(x.fills, s.cid(r.ep, via)) == [FillsOf(x.fills, s.cid(r.ep, via))[0]]
    ensures FillsOf(x.fills, s.cid(r.ep, via))[0].qty == r.qty
  {
    hide FillsOf;
    hide Balanced;
  }

  lemma LookBooksIt(s: Setup, k: Desk, l: Desk, t: Totals, r: Rec, e: Env, f: Fill)
    requires Good(k.g.x) && l == k.(queue := l.queue) && k.rec == Some(r) && r.open && r.qty > 0.0
    requires r.stopId == Some(s.cid(r.ep, StopLeg)) && f.qty == r.qty
    requires FillsOf(PolledTo(s, k.g.x, e.n1, e).fills, s.cid(r.ep, StopLeg)) == [f]
    ensures var (j, u) := StopChecked(s, l, t, e.n1, e);
            && Books(s, k, t, j, u, f.price, f.fee) && j.queue == l.queue && j.g.x == PolledTo(s, k.g.x, e.n1, e)
            && f in PolledTo(s, k.g.x, e.n1, e).fills && f.id == s.cid(r.ep, StopLeg)
  {
    var x := PolledTo(s, k.g.x, e.n1, e);
    OneFill(f);
    assert f in FillsOf(x.fills, s.cid(r.ep, StopLeg));
    hide PolledTo;
    hide FillsOf;
    hide Good;
    hide Vwap;
    hide FeeSum;
    FinalizedBooks(s, k, l.(g := l.g.(x := x)), t, f.price, f.fee);
    hide Books;
  }

  lemma LookFindsNothing(s: Setup, k: Desk, t: Totals, r: Rec, e: Env)
    requires Good(k.g.x) && k.rec == Some(r) && r.open && r.stopId == Some(s.cid(r.ep, StopLeg))
    requires FillsOf(PolledTo(s, k.g.x, e.n1, e).fills, s.cid(r.ep, StopLeg)) == []
    ensures StopChecked(s, k, t, e.n1, e) == (k.(g := k.g.(x := PolledTo(s, k.g.x, e.n1, e))), t)
  {
    hide PolledTo;
    hide FillsOf;
    hide Good;
  }

  // ---- the main thread ------------------------------------------------------

  /** What one second of the clock adds to the queue of an open record: the exit again when its retry is due, or
      else a look at a resting maker exit or the one attempt at it inside its window, and then the exit past the
      deadline or a due look at the stop. */
  predicate ClockAdds(r: Rec, due: Due, more: seq<Task>) {
    if r.exitReq && due.retry then more == [DoExit(r.ep)]
    else
      var looks := !r.exitReq && r.makerId.Some?;
      var bids := !r.exitReq && r.makerId.None? && !r.makerTried && due.maker;
      var checks := !due.overdue && r.stopId.Some? && due.stop;
      && |more| == (if looks || bids then 1 else 0) + (if due.overdue || checks then 1 else 0)
      && (looks ==> more[0] == PollMaker(r.ep)) && (bids ==> more[0] == PlaceMaker(r.ep))
      && (due.overdue ==> more[|more| - 1] == DoExit(r.ep)) && (checks ==> more[|more| - 1] == CheckStop)
  }

  /** A second of the clock: nothing for a record that is not open; otherwise those tasks, the one attempt noted
      and, past the deadline, the exit requested. */
  lemma ClockIs(s: Setup, f: Firm, i: nat, due: Due) returns (more: seq<Task>)
    requires AllGood(f) && i < |f.desks|
    ensures var k, g := f.desks[i], Moved(s, f, Tick(i, due));
            && g.totals == f.totals && |g.desks| == |f.desks|
            && (forall m :: 0 <= m < |f.desks| && m != i ==> g.desks[m] == f.desks[m])
            && if k.rec.None? || !k.rec.value.open then g.desks[i] == k
               else
                 var r := k.rec.value;
                 && ClockAdds(r, due, more)
                 && g.desks[i] == k.(queue := k.queue + more,
                                     rec := Some(r.(exitReq := r.exitReq || due.overdue,
                                                    makerTried := r.makerTried || PlaceMaker(r.ep) in more)))
  {
    var k, j := f.desks[i], Moved(s, f, Tick(i, due)).desks[i];
    hide Good;
    if k.rec.Some? && k.rec.value.open {
      more := j.queue[|k.queue|..];
      QueueGrows(k, j, due, more);
    } else {
      more := [];
    }
    hide ClockAdds;
  }

  function First(r: Rec, due: Due): seq<Task> {
    if r.exitReq then []
    else if r.makerId.Some? then [PollMaker(r.ep)]
    else if !r.makerTried && due.maker then [PlaceMaker(r.ep)] else []
  }

  function Last(r: Rec, due: Due): seq<Task> {
    if due.overdue then [DoExit(r.ep)] else if r.stopId.Some? && due.stop then [CheckStop] else []
  }

  lemma QueueIs(k: Desk, due: Due)
    requires k.rec.Some? && k.rec.value.open && !(k.rec.value.exitReq && due.retry)
    ensures var r := k.rec.value;
            Ticked(k, due) == k.(queue := k.queue + (First(r, due) + Last(r, due)),
                                 rec := Some(r.(exitReq := r.exitReq || due.overdue,
                                                makerTried := r.makerTried || First(r, due) == [PlaceMaker(r.ep)])))
  {
    var r := k.rec.value;
    assert k.queue + (First(r, due) + Last(r, due)) == k.queue + First(r, due) + Last(r, due);
    assert r.(exitReq := r.exitReq, makerTried := r.makerTried) == r;
  }

  lemma QueueGrows(k: Desk, j: Desk, due: Due, more: seq<Task>)
    requires k.rec.Some? && k.rec.value.open && j == Ticked(k, due) && |k.queue| <= |j.queue|
    requires more == j.queue[|k.queue|..]
    ensures ClockAdds(k.rec.value, due, more)
    ensures var r := k.rec.value;
            j == k.(queue := k.queue + more,
                    rec := Some(r.(exitReq := r.exitReq || due.overdue,
                                   makerTried := r.makerTried || PlaceMaker(r.ep) in more)))
  {
    var r := k.rec.value;
    if r.exitReq && due.retry {
      assert more == [DoExit(r.ep)] && r.(exitReq := true, makerTried := r.makerTried) == r;
    } else {
      QueueIs(k, due);
      hide Ticked;
      assert more == First(r, due) + Last(r, due);
      FirstLast(r, due);
    }
  }

  lemma FirstLast(r: Rec, due: Due)
    requires !(r.exitReq && due.retry)
    ensures ClockAdds(r, due, First(r, due) + Last(r, due))
    ensures PlaceMaker(r.ep) in First(r, due) + Last(r, due) <==> First(r, due) == [PlaceMaker(r.ep)]
  {
    var a, b := First(r, due), Last(r, due);
    assert PlaceMaker(r.ep) !in b;
    assert a != [] ==> (a + b)[0] == a[0] && a == [a[0]];
    assert b != [] ==> (a + b)[|a + b| - 1] == b[|b| - 1];
  }

  /** A signal is taken exactly if the stop line has not halted trading, the guard is active and not being killed,
      no record is there and the other gates agree: then there is a record that waits for its entry. */
  lemma SignalIs(s: Setup, f: Firm, i: nat, ep: int, qty: real, killed: bool, gate: bool)
    requires AllGood(f) && i < |f.desks|
    ensures var k, g := f.desks[i], Moved(s, f, Enter(i, ep, qty, killed, gate));
            && g.totals == f.totals && g.desks[i].g.x == k.g.x
            && if !f.totals.halted && k.g.risk.status == Active && !killed && k.rec.None? && gate
               then
                 && g.desks[i].rec == Some(Rec(false, ep, qty, 0.0, 0.0, None, None, false, false))
                 && g.desks[i].queue == k.queue + [DoEntry(ep)] && g.desks[i].lastEp == ep
               else g.desks[i].rec == k.rec && g.desks[i].queue == k.queue && g.desks[i].lastEp == k.lastEp
  {
    hide Good;
  }

  /** An engine exit marks the record of its own signal and queues the exit; any other is ignored. */
  lemma ExitSignalIs(s: Setup, f: Firm, i: nat, ep: int)
    requires AllGood(f) && i < |f.desks|
    ensures var k, j := f.desks[i], Moved(s, f, Leave(i, ep)).desks[i];
            if k.rec.Some? && k.rec.value.ep == ep
            then j == k.(rec := Some(k.rec.value.(exitReq := true)), queue := k.queue + [DoExit(ep)]) else j == k
  {
    hide Good;
  }

  /** Resuming: nothing is halted any more and, unless the kill switch is on, every guard is active again. */
  lemma ResumeIs(s: Setup, f: Firm, killed: bool)
    requires AllGood(f)
    ensures var g := Moved(s, f, Reopen(killed));
            && g.totals == f.totals.(halted := false)
            && forall i :: 0 <= i < |f.desks| ==>
                 && g.desks[i] == f.desks[i].(g := f.desks[i].g.(risk := g.desks[i].g.risk))
                 && (killed ==> g.desks[i] == f.desks[i])
                 && (!killed ==> g.desks[i].g.risk.status == Active
                                 && (f.desks[i].g.risk.status != Active ==> g.desks[i].g.risk.rejects == 0))
  {
    hide Good;
  }

  // ---- a second of the clock and the work it causes -------------------------

  lemma WorkMoves(s: Setup, f: Firm, i: nat, e: Env)
    requires AllGood(f) && i < |f.desks| && f.desks[i].queue != []
    ensures var g := Moved(s, f, Work(i, e));
            Good(f.desks[i].g.x) && (g.desks[i], g.totals) == Worked(s, f.desks[i], f.totals, e)
  {
    hide Good;
    hide Worked;
  }

  lemma BooksSame(s: Setup, k: Desk, l: Desk, t: Totals, j: Desk, u: Totals, px: real, fee: real)
    requires Books(s, l, t, j, u, px, fee) && k.rec.Some? && l.rec.Some?
    requires l == k.(rec := l.rec, g := l.g, queue := l.queue)
    requires var a, b := k.rec.value, l.rec.value;
             a.ep == b.ep && a.qty == b.qty && a.entryPx == b.entryPx && a.entryFee == b.entryFee
    ensures Books(s, k, t, j, u, px, fee)
  {
  }

  lemma StillHit(s: Setup, k: Desk, l: Desk, r: Rec, q: Rec, i: nat, o: Order, e: Env)
    requires BidIsHit(s, k, r, i, o, e) && l.g.x == k.g.x && l.rec == Some(q) && q == r.(exitReq := q.exitReq)
    ensures BidIsHit(s, l, q, i, o, e)
  {
    hide Clear;
    hide ToRead;
    hide GoesBelow;
  }

  /** The maker exit of an open record rests and the queue is empty: one second of the clock, whatever else is due,
      and one piece of work that reads a trade below the bid and none at the stop, and the result is booked at the
      bid with nothing open or held. */
  lemma ClockThenMaker(s: Setup, f: Firm, i: nat, due: Due, r: Rec, m: nat, o: Order, e: Env)
    requires DistinctIds(s) && AllGood(f) && i < |f.desks| && DeskOk(s, f.desks[i]) && f.desks[i].queue == []
    requires BidIsHit(s, f.desks[i], r, m, o, e) && !r.exitReq
    ensures var (k, g) := (f.desks[i], Moved(s, Moved(s, f, Tick(i, due)), Work(i, e)));
            && Books(s, k, f.totals, g.desks[i], g.totals, o.price, MakerCost(s, r.qty, o.price))
            && AllFlat(g.desks[i].g.x)
  {
    hide *;
    var k := f.desks[i];
    BidIsHitIs(s, k, r, m, o, e);
    var more := ClockIs(s, f, i, due);
    var h := Moved(s, f, Tick(i, due));
    MakerFirst(r, due, more);
    TickMoves(s, f, i, due);
    var l := h.desks[i];
    TickedHit(s, k, l, r, m, o, due, more, e);
    MakerFillIsBooked(s, l, h.totals, l.rec.value, m, o, more[1..], e);
    WorkMoves(s, h, i, e);
    BooksSame(s, k, l, f.totals, Worked(s, l, h.totals, e).0, Worked(s, l, h.totals, e).1, o.price,
              MakerCost(s, r.qty, o.price));
  }

  lemma TickedHit(s: Setup, k: Desk, l: Desk, r: Rec, m: nat, o: Order, due: Due, more: seq<Task>, e: Env)
    requires DeskOk(s, k) && k.rec == Some(r) && k.queue == [] && BidIsHit(s, k, r, m, o, e) && l == Ticked(k, due)
    requires more != [] && more[0] == PollMaker(r.ep)
    requires l == k.(queue := k.queue + more, rec := Some(r.(exitReq := due.overdue)))
    ensures DeskOk(s, l) && l.queue == [PollMaker(r.ep)] + more[1..] && BidIsHit(s, l, l.rec.value, m, o, e)
  {
    hide *;
    OkIsTied(s, k);
    TickedOk(s, k, due, true);
    OkIsTied(s, l);
    assert [] + more == more && more == [PollMaker(r.ep)] + more[1..];
    StillHit(s, k, l, r, r.(exitReq := due.overdue), m, o, e);
  }

  lemma TickMoves(s: Setup, f: Firm, i: nat, due: Due)
    requires AllGood(f) && i < |f.desks|
    ensures Moved(s, f, Tick(i, due)).desks[i] == Ticked(f.desks[i], due)
  {
    hide Good;
    hide Ticked;
  }

  lemma MakerFirst(r: Rec, due: Due, more: seq<Task>)
    requires ClockAdds(r, due, more) && !r.exitReq && r.makerId.Some?
    ensures more != [] && more[0] == PollMaker(r.ep) && PlaceMaker(r.ep) !in more
  {
  }

  /** The worker of symbol `i` does as many pieces of work as there are moments. */
  ghost function WorkedOff(s: Setup, f: Firm, i: nat, es: seq<Env>): (g: Firm)
    requires AllGood(f)
    ensures AllGood(g)
    decreases |es|
  {
    if es == [] then f else WorkedOff(s, Moved(s, f, Work(i, es[0])), i, es[1..])
  }

  /** A look at or an attempt for the maker exit of a record that is to be closed: it books the result, or leaves
      the record to the exit. */
  lemma FirstWork(s: Setup, k: Desk, t: Totals, r: Rec, task: Task, e: Env, clean: bool)
    requires DistinctIds(s) && Tied(s, k, clean) && k.rec == Some(r) && r.open && r.exitReq
    requires task == PollMaker(r.ep) || task == PlaceMaker(r.ep)
    requires k.queue == [task, DoExit(r.ep)]
    ensures var (j, u) := Worked(s, k, t, e);
            && Tied(s, j, clean) && j.queue == [DoExit(r.ep)]
            && ((exists px, fee :: Books(s, k, t, j, u, px, fee)) || (u == t && j == k.(g := j.g, queue := j.queue)))
  {
    var rest := [DoExit(r.ep)];
    var l := k.(queue := rest);
    AnyFacts(s, k, r, clean);
    assert k.queue == [task] + rest;
    WorkIs(s, k, t, e, task, rest);
    MakerPolledOk(s, l, t, r.ep, e, clean);
    hide Tied;
    hide Good;
    hide Account;
    hide DistinctIds;
    hide Unused;
    hide Worked;
    hide TaskDone;
    if task == PollMaker(r.ep) {
      PollOrNot(s, l, t, r, e);
      var (j, u) := MakerPolled(s, l, t, r.ep, e);
      if px, fee :| Books(s, l, t, j, u, px, fee) {
        BooksSame(s, k, l, t, j, u, px, fee);
      }
      hide MakerPolled;
    } else {
      assert MakerPlaced(s, l, r.ep, e) == l;
    }
    hide Books;
  }

  lemma PollOrNot(s: Setup, k: Desk, t: Totals, r: Rec, e: Env)
    requires Good(k.g.x) && k.rec == Some(r) && r.open
    ensures var (j, u) := MakerPolled(s, k, t, r.ep, e);
            j.queue == k.queue
            && ((exists px, fee :: Books(s, k, t, j, u, px, fee)) || (u == t && j == k.(g := j.g)))
  {
    hide PolledTo;
    hide Good;
    hide Without;
    hide Vwap;
    hide FeeSum;
    hide QtySum;
    if r.makerId.Some? {
      var x := PolledTo(s, k.g.x, e.n1, e);
      var made := FillsOf(x.fills, r.makerId.value);
      FillsArePositive(x, made);
      if made != [] && QtySum(made) >= r.qty {
        FinalizedBooks(s, k, k.(g := k.g.(x := Without(x, r.stopId))), t, Vwap(made), FeeSum(made));
      }
    }
    hide FillsOf;
    hide Books;
  }

  lemma NoRecordNoExit(s: Setup, k: Desk, t: Totals, ep: int, e: Env)
    requires Good(k.g.x) && k.rec.None? && k.queue == [DoExit(ep)]
    ensures Worked(s, k, t, e) == (k.(queue := []), t)
  {
    assert k.queue == [DoExit(ep)] + [];
    WorkIs(s, k, t, e, DoExit(ep), []);
    hide Good;
    hide Worked;
  }

  /** The last piece of work on a record that is to be closed. */
  lemma LastWork(s: Setup, k: Desk, t: Totals, ep: int, e: Env, clean: bool)
    requires DistinctIds(s) && Tied(s, k, clean) && k.queue == [DoExit(ep)]
    requires k.rec.Some? && k.rec.value.open && k.rec.value.exitReq && k.rec.value.ep == ep
    ensures var (j, u) := Worked(s, k, t, e);
            j.queue == [] && exists px, fee :: Books(s, k, t, j, u, px, fee)
  {
    hide *;
    assert k.queue == [DoExit(ep)] + [];
    ExitEnds(s, k, t, k.rec.value, [], e, clean);
  }

  lemma ExitQueue(r: Rec, due: Due, more: seq<Task>)
    requires ClockAdds(r, due, more) && (due.overdue || (r.exitReq && due.retry))
    ensures more == [DoExit(r.ep)] || (|more| == 2 && more[1] == DoExit(r.ep)
              && (more[0] == PollMaker(r.ep) || more[0] == PlaceMaker(r.ep)))
  {
  }

  lemma QueueWorked(s: Setup, k: Desk, t: Totals, r: Rec, es: seq<Env>, clean: bool)
      returns (j: Desk, u: Totals)
    requires DistinctIds(s) && Tied(s, k, clean) && k.rec == Some(r) && r.open && r.exitReq && |es| == |k.queue|
    requires k.queue == [DoExit(r.ep)]
             || k.queue == [PollMaker(r.ep), DoExit(r.ep)] || k.queue == [PlaceMaker(r.ep), DoExit(r.ep)]
    ensures j.queue == [] && exists px, fee :: Books(s, k, t, j, u, px, fee)
    ensures Good(k.g.x)
    ensures if |es| == 1 then (j, u) == Worked(s, k, t, es[0])
            else
              var w := Worked(s, k, t, es[0]); w.0.queue != [] && (j, u) == Worked(s, w.0, w.1, es[1])
  {
    hide *;
    AnyFacts(s, k, r, clean);
    if |es| == 1 {
      LastWork(s, k, t, r.ep, es[0], clean);
      var w := Worked(s, k, t, es[0]);
      j, u := w.0, w.1;
    } else {
      FirstWork(s, k, t, r, k.queue[0], es[0], clean);
      var (l, v) := Worked(s, k, t, es[0]);
      var w := Worked(s, l, v, es[1]);
      j, u := w.0, w.1;
      if px, fee :| Books(s, k, t, l, v, px, fee) {
        BooksIs(s, k, t, l, v, px, fee);
        NoRecordNoExit(s, l, v, r.ep, es[1]);
        BooksLater(s, k, t, l, v, j, px, fee);
      } else {
        LastWork(s, l, v, r.ep, es[1], clean);
        var px, fee :| Books(s, l, v, j, u, px, fee);
        BooksSame(s, k, l, t, j, u, px, fee);
      }
    }
  }

  lemma BooksIs(s: Setup, k: Desk, t: Totals, j: Desk, u: Totals, px: real, fee: real)
    requires Books(s, k, t, j, u, px, fee)
    ensures j.rec.None?
  {
  }

  lemma BooksLater(s: Setup, k: Desk, t: Totals, l: Desk, u: Totals, j: Desk, px: real, fee: real)
    requires Books(s, k, t, l, u, px, fee) && j == l.(queue := j.queue)
    ensures Books(s, k, t, j, u, px, fee)
  {
  }

  lemma WorkedOffIs(s: Setup, f: Firm, i: nat, es: seq<Env>)
    requires AllGood(f) && i < |f.desks| && f.desks[i].queue != [] && Good(f.desks[i].g.x)
    ensures |es| == 1 ==>
              var g := WorkedOff(s, f, i, es);
              |g.desks| == |f.desks| && (g.desks[i], g.totals) == Worked(s, f.desks[i], f.totals, es[0])
    ensures |es| == 2 && Worked(s, f.desks[i], f.totals, es[0]).0.queue != [] ==>
              var (g, w) := (WorkedOff(s, f, i, es), Worked(s, f.desks[i], f.totals, es[0]));
              |g.desks| == |f.desks| && (g.desks[i], g.totals) == Worked(s, w.0, w.1, es[1])
  {
    if es != [] {
      var h := Moved(s, f, Work(i, es[0]));
      WorkMoves(s, f, i, es[0]);
      hide Moved;
      hide Worked;
      hide Good;
      if |es| == 1 {
        assert WorkedOff(s, h, i, es[1..]) == h;
      } else if |es| == 2 && h.desks[i].queue != [] {
        WorkMoves(s, h, i, es[1]);
        assert es[1..][0] == es[1] && es[1..][1..] == [];
        var g := Moved(s, h, Work(i, es[1]));
        assert WorkedOff(s, g, i, []) == g;
        assert WorkedOff(s, h, i, es[1..]) == WorkedOff(s, g, i, es[1..][1..]);
      }
    }
  }

  /** An open record past its deadline, or whose exit is due again: one second of the clock and the work it queues,
      whatever is read and bought meanwhile, and the record is gone with exactly one result booked. */
  lemma ClockThenExit(s: Setup, f: Firm, i: nat, due: Due, r: Rec, es: seq<Env>, clean: bool)
    requires DistinctIds(s) && AllGood(f) && i < |f.desks| && Tied(s, f.desks[i], clean) && f.desks[i].queue == []
    requires f.desks[i].rec == Some(r) && r.open && (due.overdue || (r.exitReq && due.retry))
    requires |es| == |Moved(s, f, Tick(i, due)).desks[i].queue|
    ensures var g := WorkedOff(s, Moved(s, f, Tick(i, due)), i, es);
            && |g.desks| == |f.desks| && g.desks[i].rec.None? && g.desks[i].done == f.desks[i].done + [r.ep]
            && g.desks[i].queue == [] && exists px, fee :: Books(s, f.desks[i], f.totals, g.desks[i], g.totals, px, fee)
  {
    hide *;
    var k, h := f.desks[i], Moved(s, f, Tick(i, due));
    var more := ClockIs(s, f, i, due);
    TickedOk(s, k, due, clean);
    TickMoves(s, f, i, due);
    var l := h.desks[i];
    ExitQueue(r, due, more);
    assert [] + more == more;
    assert |more| == 2 ==> more == [more[0], more[1]];
    var q := l.rec.value;
    AnyFacts(s, l, q, clean);
    var j, u := QueueWorked(s, l, h.totals, q, es, clean);
    WorkedOffIs(s, h, i, es);
    var px, fee :| Books(s, l, h.totals, j, u, px, fee);
    BooksSame(s, k, l, f.totals, j, u, px, fee);
    BooksClose(s, k, f.totals, j, u, px, fee);
  }

  lemma BooksClose(s: Setup, k: Desk, t: Totals, j: Desk, u: Totals, px: real, fee: real)
    requires Books(s, k, t, j, u, px, fee)
    ensures j.rec.None? && k.rec.Some? && j.done == k.done + [k.rec.value.ep]
  {
  }
}
