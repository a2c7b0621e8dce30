/** The ledger against the broker: what holds between any two tasks, and over whole runs. */
module LedgerAgrees {
  import opened Basics
  import opened Positions
  import opened Paper
  import opened Polling
  import opened RiskGuards
  import opened Ledger
  import opened Accounts

  // ---- between two tasks ----------------------------------------------------

  /** What ties the record to the broker whenever no task is running.  `clean` says that no exit order
      has outlived its record. */
  ghost predicate Tied(s: Setup, k: Desk, clean: bool) {
    && Good(k.g.x) && (k.rec.Some? ==> k.rec.value.ep == k.lastEp)
    && match k.rec
       case None => Account(s, k.g.x, None, k.gross, k.fees, clean) && FreshAfter(s, k.g.x, k.lastEp)
       case Some(r) =>
         if r.open then Account(s, k.g.x, Some(r), k.gross, k.fees, clean) && Unused(k.g.x, s.cid(r.ep, ExitLeg))
         else r.stopId.None? && r.makerId.None? && Account(s, k.g.x, None, k.gross, k.fees, clean)
              && FreshAfter(s, k.g.x, r.ep - 1)
  }

  /** Ledger and broker agree exactly, and nothing has outlived its record. */
  ghost predicate DeskOk(s: Setup, k: Desk) {
    Tied(s, k, true)
  }

  lemma FreshLater(s: Setup, x: Exchange, ep: int)
    requires FreshAfter(s, x, ep - 1)
    ensures FreshAfter(s, x, ep) && Fresh(s, x, ep)
  {
  }

  /** Booking a result after which the account is closed. */
  lemma ClosedTied(s: Setup, k: Desk, t: Totals, g: Guarded, px: real, fee: real, clean: bool, still: bool)
    requires Tied(s, k, clean) && k.rec.Some? && Good(g.x) && FreshAfter(s, g.x, k.rec.value.ep)
    requires Account(s, g.x, None, k.gross + GrossOf(k.rec.value.entryPx, px, k.rec.value.qty),
                     k.fees + (k.rec.value.entryFee + fee), still)
    ensures Tied(s, Finalized(s, k.(g := g), t, px, fee).0, still)
  {
    hide Good;
    hide Account;
    hide GrossOf;
    hide FreshAfter;
    hide Unused;
  }

  lemma AccountFresh(s: Setup, x: Exchange, r: Rec, gross: real, fees: real, clean: bool)
    requires Account(s, x, Some(r), gross, fees, clean)
    ensures FreshAfter(s, x, r.ep) && r.qty > 0.0
    ensures r.makerId.Some? ==> r.makerId.value == s.cid(r.ep, MakerLeg)
    ensures r.stopId.Some? ==> r.stopId.value == s.cid(r.ep, StopLeg)
    ensures r.makerId.None? ==> Quiet(x, s.cid(r.ep, MakerLeg)) && FillsOf(x.fills, s.cid(r.ep, MakerLeg)) == []
    ensures r.stopId.None? ==> Quiet(x, s.cid(r.ep, StopLeg)) && FillsOf(x.fills, s.cid(r.ep, StopLeg)) == []
  {
    FillsOfNone(x.fills, s.cid(r.ep, MakerLeg));
    FillsOfNone(x.fills, s.cid(r.ep, StopLeg));
    hide FillsOf;
    hide InFills;
    hide FreshAfter;
  }

  /** After the poll of a task that keeps the record. */
  lemma PolledTied(s: Setup, k: Desk, n: nat, e: Env, clean: bool)
    requires DistinctIds(s) && Tied(s, k, clean) && k.rec.Some? && k.rec.value.open
    ensures var x := PolledTo(s, k.g.x, n, e);
            Tied(s, k.(g := k.g.(x := x)), clean) && Onward(k.g.x, x)
  {
    hide DistinctIds;
    hide Good;
    hide Account;
    hide Onward;
    hide Unused;
    var r := k.rec.value;
    PollKept(s, k.g.x, Some(r), k.gross, k.fees, clean, n, e);
    OnwardUnused(k.g.x, PolledTo(s, k.g.x, n, e), s.cid(r.ep, ExitLeg));
    hide PolledTo;
  }

  // ---- the stop -------------------------------------------------------------

  /** If the emergency stop turns out to have filled, the maker exit is not resting. */
  ghost predicate StopAlone(s: Setup, k: Desk, n: nat, e: Env)
    requires Good(k.g.x)
  {
    k.rec.Some? && k.rec.value.open && k.rec.value.stopId.Some?
    && FillsOf(PolledTo(s, k.g.x, n, e).fills, k.rec.value.stopId.value) != []
    ==> Quiet(PolledTo(s, k.g.x, n, e), s.cid(k.rec.value.ep, MakerLeg))
  }

  /** The fill a look finds is booked. */
  lemma LookBooks(s: Setup, k: Desk, t: Totals, x: Exchange, r: Rec, clean: bool)
    requires Tied(s, k, clean) && k.rec == Some(r) && r.open && Good(x)
    requires Account(s, x, Some(r), k.gross, k.fees, clean) && FillsOf(x.fills, s.cid(r.ep, StopLeg)) != []
    ensures var fills := FillsOf(x.fills, s.cid(r.ep, StopLeg));
            && (forall f :: f in fills ==> f.qty > 0.0)
            && Tied(s, Finalized(s, k.(g := k.g.(x := x)), t, Vwap(fills), FeeSum(fills)).0,
                    clean && Quiet(x, s.cid(r.ep, MakerLeg)))
  {
    AccountFresh(s, x, r, k.gross, k.fees, clean);
    var fills := FillsOf(x.fills, s.cid(r.ep, StopLeg));
    FillsArePositive(x, fills);
    ExitFill(s, x, r, k.gross, k.fees, clean, StopLeg);
    Booked(s, x, r, k.gross, k.fees, clean, StopLeg, fills[0]);
    ClosedTied(s, k, t, k.g.(x := x), fills[0].price, fills[0].fee, clean, clean && Quiet(x, s.cid(r.ep, MakerLeg)));
    hide *;
  }

  /** A look at the stop keeps the desk tied, and clean if the maker exit is not left behind. */
  lemma StopCheckedOk(s: Setup, k: Desk, t: Totals, n: nat, e: Env, clean: bool)
    requires DistinctIds(s) && Tied(s, k, clean)
    ensures Tied(s, StopChecked(s, k, t, n, e).0, clean && StopAlone(s, k, n, e))
  {
    if k.rec.Some? && k.rec.value.stopId.Some? && k.rec.value.open {
      var r, x := k.rec.value, PolledTo(s, k.g.x, n, e);
      PolledTied(s, k, n, e, clean);
      AccountFresh(s, x, r, k.gross, k.fees, clean);
      hide PolledTo;
      hide Good;
      hide Account;
      hide FreshAfter;
      hide Unused;
      hide Onward;
      hide FillsOf;
      hide Quiet;
      hide Finalized;
      if FillsOf(x.fills, s.cid(r.ep, StopLeg)) != [] {
        LookBooks(s, k, t, x, r, clean);
      }
    }
  }

  /** And clean exactly then. */
  lemma StopAloneIsExact(s: Setup, k: Desk, t: Totals, n: nat, e: Env)
    requires DistinctIds(s) && DeskOk(s, k)
    ensures DeskOk(s, StopChecked(s, k, t, n, e).0) <==> StopAlone(s, k, n, e)
  {
    StopCheckedOk(s, k, t, n, e, true);
    if !StopAlone(s, k, n, e) {
      hide Good;
      hide FillsOf;
      hide PolledTo;
      hide FreshAfter;
      var x := PolledTo(s, k.g.x, n, e);
      var i :| 0 <= i < |x.orders| && x.orders[i].id == s.cid(k.rec.value.ep, MakerLeg) && IsOpen(x.orders[i]);
      assert !Explained(s, x, None, true, x.orders[i]);
    }
  }

  // ---- the maker exit -------------------------------------------------------

  /** The maker order has bought the position back: cancel the stop and book. */
  lemma MakerBooked(s: Setup, k: Desk, t: Totals, x: Exchange, r: Rec, clean: bool)
    requires Tied(s, k, clean) && k.rec == Some(r) && r.open && Good(x)
    requires Account(s, x, Some(r), k.gross, k.fees, clean) && FillsOf(x.fills, s.cid(r.ep, MakerLeg)) != []
    ensures var made := FillsOf(x.fills, s.cid(r.ep, MakerLeg));
            && QtySum(made) == r.qty
            && Tied(s, Finalized(s, k.(g := k.g.(x := Without(x, r.stopId))), t, Vwap(made), FeeSum(made)).0, clean)
  {
    var made, y := FillsOf(x.fills, s.cid(r.ep, MakerLeg)), Without(x, r.stopId);
    CancelKept(s, x, Some(r), k.gross, k.fees, clean, r.stopId);
    AccountFresh(s, y, r, k.gross, k.fees, clean);
    hide Without;
    hide Good;
    hide Account;
    hide Tied;
    hide FreshAfter;
    hide FillsOf;
    hide Onward;
    ExitFill(s, y, r, k.gross, k.fees, clean, MakerLeg);
    Booked(s, y, r, k.gross, k.fees, clean, MakerLeg, made[0]);
    ClosedTied(s, k, t, k.g.(x := y), made[0].price, made[0].fee, clean, clean);
    hide Finalized;
  }

  lemma MakerPolledOk(s: Setup, k: Desk, t: Totals, ep: int, e: Env, clean: bool)
    requires DistinctIds(s) && Tied(s, k, clean)
    ensures Tied(s, MakerPolled(s, k, t, ep, e).0, clean)
  {
    if k.rec.Some? && k.rec.value.ep == ep && k.rec.value.open && k.rec.value.makerId.Some? {
      var r, x := k.rec.value, PolledTo(s, k.g.x, e.n1, e);
      PolledTied(s, k, e.n1, e, clean);
      AccountFresh(s, x, r, k.gross, k.fees, clean);
      hide PolledTo;
      hide Good;
      hide Account;
      hide Unused;
      hide Onward;
      hide FreshAfter;
      hide FillsOf;
      if FillsOf(x.fills, s.cid(r.ep, MakerLeg)) != [] {
        MakerBooked(s, k, t, x, r, clean);
      }
      hide Finalized;
    }
  }

  lemma OrderedIs(s: Setup, g: Guarded, step: Step, e: Env)
    requires Good(g.x) && Placing(step)
    ensures Ordered(s, g, step, e).x == if Went(s, g, step, e) then Next(g.x, step, s.tape, s.fees) else g.x
    ensures step.PlaceStop? ==> (Went(s, g, step, e) <==> Reduces(g.x.pos.qty, step.side, step.qty))
    ensures !step.PlaceStop? && step.reduceOnly ==> Went(s, g, step, e)
  {
    hide Good;
    hide Next;
    hide Judged;
  }

  /** A reduce-only bid joins the orders, or its id is already known and nothing happens. */
  lemma MakerBids(s: Setup, x: Exchange, y: Exchange, r: Rec, gross: real, fees: real, clean: bool, e: Env)
    requires DistinctIds(s) && Good(x) && Account(s, x, Some(r), gross, fees, clean)
    requires Unused(x, s.cid(r.ep, ExitLeg)) && r.open && r.makerId.None? && e.bid.Some?
    requires y == GtxPlaced(x, Buy, r.qty, e.bid.value, s.cid(r.ep, MakerLeg), true, e.d, e.now)
    ensures var reply := ReplyTo(y, s.cid(r.ep, MakerLeg));
            var rests := reply.Got? && (IsOpen(reply.order) || reply.order.status == Filled);
            Account(s, y, Some(if rests then r.(makerId := Some(s.cid(r.ep, MakerLeg))) else r), gross, fees, clean)
    ensures Unused(y, s.cid(r.ep, ExitLeg))
  {
    var id, n := s.cid(r.ep, MakerLeg), |x.orders|;
    var found := IndexOf(x.orders, id);
    if found.Some? {
      assert Idle(x, id);
      hide Good;
      hide Account;
    } else {
      var o := y.orders[n];
      assert y.orders == x.orders + [o] && o.id == id && o.qty == r.qty && o.status != Filled;
      assert o.side == Buy && o.reduceOnly && o.kind == Limit && y.fills == x.fills && y.pos == x.pos;
      NewestIndex(y.orders, n);
      hide Good;
      hide GtxPlaced;
      hide IndexOf;
      OneMoreOrder(s, x, y, o, r.ep, MakerLeg);
      hide FreshAfter;
      hide Unused;
      if IsOpen(o) {
        MakerJoins(s, x, y, o, r, gross, fees, clean);
      } else {
        ClosedOrderJoins(s, x, y, o, r, gross, fees, clean);
      }
      hide Account;
    }
  }

  /** A bid that rests is known to the record; one that does not rest leaves no trace. */
  lemma MakerPlacedOk(s: Setup, k: Desk, ep: int, e: Env, clean: bool)
    requires DistinctIds(s) && Tied(s, k, clean)
    ensures Tied(s, MakerPlaced(s, k, ep, e), clean)
  {
    hide DistinctIds;
    hide Good;
    hide GtxPlaced;
    hide Account;
    hide FreshAfter;
    hide Unused;
    hide Ordered;
    if k.rec.Some? && k.rec.value.ep == ep && k.rec.value.open && !k.rec.value.exitReq && k.rec.value.makerId.None?
       && e.bid.Some? {
      var r := k.rec.value;
      var id := s.cid(ep, MakerLeg);
      OrderedIs(s, k.g, PlaceGtx(Buy, r.qty, e.bid.value, id, true, e.d, e.now), e);
      hide Went;
      var y := GtxPlaced(k.g.x, Buy, r.qty, e.bid.value, id, true, e.d, e.now);
      MakerBids(s, k.g.x, y, r, k.gross, k.fees, clean, e);
    }
  }

  // ---- the entry ------------------------------------------------------------

  function SellAll(s: Setup, r: Rec, e: Env): (step: Step)
    ensures Placing(step)
  {
    PlaceMarket(Sell, r.qty, s.cid(r.ep, EntryLeg), false, e.d, e.now)
  }

  function StopFor(s: Setup, r: Rec, px: real, e: Env): (step: Step)
    ensures Placing(step)
  {
    PlaceStop(Buy, r.qty, StopPrice(s, px), s.cid(r.ep, StopLeg), e.last, e.now)
  }

  lemma EntryUnfolds(s: Setup, k: Desk, r: Rec, e: Env, g: Guarded, f: Fill)
    requires Good(k.g.x) && k.rec == Some(r) && !r.open && k.g.x.pos.qty == 0.0
    requires Went(s, k.g, SellAll(s, r, e), e) && g == Ordered(s, k.g, SellAll(s, r, e), e)
    requires FillsOf(g.x.fills, s.cid(r.ep, EntryLeg)) == [f] && f.qty == r.qty > 0.0
    requires Went(s, g, StopFor(s, r, f.price, e), e)
    ensures EntryDone(s, k, r.ep, e)
         == k.(rec := Some(OpenedBy(s, r, f)), g := Ordered(s, g, StopFor(s, r, f.price, e), e))
  {
    hide Ordered;
    hide Went;
    hide Good;
    hide FillsOf;
    hide StopPrice;
    OneFill(f);
    hide Vwap;
    hide QtySum;
    hide FeeSum;
  }

  lemma OpenTied(s: Setup, k: Desk, g: Guarded, m: Rec, clean: bool)
    requires Tied(s, k, clean) && k.rec.Some? && !k.rec.value.open && m.open && m.ep == k.rec.value.ep && Good(g.x)
    requires Account(s, g.x, Some(m), k.gross, k.fees, clean) && Unused(g.x, s.cid(m.ep, ExitLeg))
    ensures Tied(s, k.(rec := Some(m), g := g), clean)
  {
    hide Good;
    hide Account;
    hide Unused;
    hide FreshAfter;
  }

  lemma WaitingFacts(s: Setup, k: Desk, r: Rec, clean: bool)
    requires Tied(s, k, clean) && k.rec == Some(r) && !r.open
    ensures Good(k.g.x) && r.makerId.None?
    ensures Account(s, k.g.x, None, k.gross, k.fees, clean) && FreshAfter(s, k.g.x, r.ep - 1)
  {
    hide Good;
    hide FreshAfter;
    hide Account;
  }

  lemma SellIs(s: Setup, r: Rec, e: Env, x: Exchange)
    requires Good(x)
    ensures Next(x, SellAll(s, r, e), s.tape, s.fees)
         == MarketPlaced(x, Sell, r.qty, s.cid(r.ep, EntryLeg), false, e.d, e.now, s.fees)
    ensures !SellAll(s, r, e).PlaceStop?
  {
    hide Good;
    hide MarketPlaced;
  }

  lemma StopIs(s: Setup, r: Rec, px: real, e: Env, x: Exchange)
    requires Good(x)
    ensures Next(x, StopFor(s, r, px, e), s.tape, s.fees)
         == StopPlaced(x, Buy, r.qty, StopPrice(s, px), s.cid(r.ep, StopLeg), e.last, e.now)
    ensures StopFor(s, r, px, e).PlaceStop? && StopFor(s, r, px, e).side == Buy && StopFor(s, r, px, e).qty == r.qty
  {
    hide Good;
    hide StopPlaced;
    hide StopPrice;
  }

  lemma SoldFacts(s: Setup, x: Exchange, ep: int, qty: real, gross: real, fees: real, clean: bool, f: Fill)
    requires JustSold(s, x, ep, qty, gross, fees, clean, f)
    ensures FillsOf(x.fills, s.cid(ep, EntryLeg)) == [f] && f.qty == qty
    ensures Unused(x, s.cid(ep, StopLeg)) && Reduces(x.pos.qty, Buy, qty)
  {
    hide FillsOf;
    hide FreshAfter;
    hide Unused;
  }

  /** Sold: the stop follows and the record is open. */
  lemma SoldTied(s: Setup, k: Desk, r: Rec, e: Env, g: Guarded, f: Fill, clean: bool)
    requires DistinctIds(s) && Tied(s, k, clean) && k.rec == Some(r) && !r.open && r.qty > 0.0
    requires Good(k.g.x) && k.g.x.pos.qty == 0.0
    requires Went(s, k.g, SellAll(s, r, e), e) && g == Ordered(s, k.g, SellAll(s, r, e), e)
    requires JustSold(s, g.x, r.ep, r.qty, k.gross, k.fees, clean, f)
    ensures Tied(s, EntryDone(s, k, r.ep, e), clean)
  {
    WaitingFacts(s, k, r, clean);
    SoldFacts(s, g.x, r.ep, r.qty, k.gross, k.fees, clean, f);
    assert OpenedBy(s, r, f).open && OpenedBy(s, r, f).ep == r.ep;
    hide *;
    var stop, px := StopFor(s, r, f.price, e), StopPrice(s, f.price);
    OrderedIs(s, g, stop, e);
    StopIs(s, r, f.price, e, g.x);
    StopAppends(g.x, r.qty, px, s.cid(r.ep, StopLeg), e);
    var z := StopPlaced(g.x, Buy, r.qty, px, s.cid(r.ep, StopLeg), e.last, e.now);
    StopJoins(s, g.x, z, r, k.gross, k.fees, clean, f, z.orders[|g.x.orders|]);
    EntryUnfolds(s, k, r, e, g, f);
    OpenTied(s, k, Ordered(s, g, stop, e), OpenedBy(s, r, f), clean);
  }

  lemma EntrySells(s: Setup, k: Desk, r: Rec, e: Env, clean: bool)
    requires DistinctIds(s) && Tied(s, k, clean) && k.rec == Some(r) && !r.open && r.qty > 0.0
    requires Good(k.g.x) && k.g.x.pos.qty == 0.0 && Went(s, k.g, SellAll(s, r, e), e)
    ensures Tied(s, EntryDone(s, k, r.ep, e), clean)
  {
    hide *;
    WaitingFacts(s, k, r, clean);
    OrderedIs(s, k.g, SellAll(s, r, e), e);
    SellIs(s, r, e, k.g.x);
    var f := SaleFills(s, k.g.x, r.ep, r.qty, k.gross, k.fees, clean, e);
    SoldTied(s, k, r, e, Ordered(s, k.g, SellAll(s, r, e), e), f, clean);
  }

  lemma EntryDoneOk(s: Setup, k: Desk, ep: int, e: Env, clean: bool)
    requires DistinctIds(s) && Tied(s, k, clean)
    ensures Tied(s, EntryDone(s, k, ep, e), clean)
  {
    if k.rec.Some? && k.rec.value.ep == ep && !k.rec.value.open {
      var r, x := k.rec.value, k.g.x;
      FreshLater(s, x, ep);
      NotFilled(x, s.cid(ep, EntryLeg));
      OrderedIs(s, k.g, SellAll(s, r, e), e);
      if r.qty > 0.0 && x.pos.qty == 0.0 && Went(s, k.g, SellAll(s, r, e), e) {
        EntrySells(s, k, r, e, clean);
      }
      hide Good;
      hide Account;
      hide FreshAfter;
      hide FillsOf;
      hide Ordered;
      hide Went;
      hide DistinctIds;
    }
  }

  // ---- the exit -------------------------------------------------------------

  lemma MakerClosedOk(s: Setup, x: Exchange, r: Rec, gross: real, fees: real, clean: bool, e: Env)
    requires DistinctIds(s) && Good(x) && Account(s, x, Some(r), gross, fees, clean)
    ensures var y := MakerClosed(s, x, r.makerId, e);
            Account(s, y, Some(r), gross, fees, clean) && Onward(x, y) && Quiet(y, s.cid(r.ep, MakerLeg))
  {
    AccountFresh(s, x, r, gross, fees, clean);
    hide DistinctIds;
    hide Good;
    hide Onward;
    hide Account;
    hide FreshAfter;
    if r.makerId.Some? {
      var a := PolledTo(s, x, e.n1, e);
      var b := Without(a, r.makerId);
      var c := PolledTo(s, b, e.n2, e);
      PollKept(s, x, Some(r), gross, fees, clean, e.n1, e);
      CancelKept(s, a, Some(r), gross, fees, clean, r.makerId);
      PollKept(s, b, Some(r), gross, fees, clean, e.n2, e);
      OnwardTwice(x, a, b);
      OnwardTwice(x, b, c);
      OnwardQuiet(b, c, s.cid(r.ep, MakerLeg));
      hide PolledTo;
      hide Without;
    } else {
      OnwardSame(x, x);
    }
  }

  /** The order an exit without maker fills sends. */
  function BuyAll(s: Setup, r: Rec, e: Env): (step: Step)
    ensures Placing(step)
  {
    PlaceMarket(Buy, r.qty, s.cid(r.ep, ExitLeg), true, e.d, e.now)
  }

  lemma NoSums()
    ensures QtySum([]) == 0.0 && FeeSum([]) == 0.0
  {
  }

  lemma BuysAll(s: Setup, r: Rec, e: Env)
    ensures PlaceMarket(Buy, r.qty - QtySum([]), s.cid(r.ep, ExitLeg), true, e.d, e.now) == BuyAll(s, r, e)
  {
  }

  lemma AtMarketFilled(s: Setup, k: Desk, t: Totals, x: Exchange, r: Rec, e: Env, g: Guarded, f: Fill)
    requires Good(x) && g == Ordered(s, k.g.(x := x), BuyAll(s, r, e), e)
    requires FillsOf(g.x.fills, s.cid(r.ep, ExitLeg)) == [f] && f.qty > 0.0
    ensures BoughtAtMarket(s, k, t, x, r, [], e)
            == Finalized(s, k.(g := g.(x := Without(g.x, r.stopId))), t, f.price, f.fee)
  {
    hide Ordered;
    hide Finalized;
    hide Without;
    hide FillsOf;
    hide Good;
    hide ReplyTo;
    hide StopOrNothing;
    OneFill(f);
    NoSums();
    assert [f] + [] == [f];
    hide Vwap;
    hide FeeSum;
    hide QtySum;
    hide BuyAll;
    BuysAll(s, r, e);
  }

  lemma AtMarketExpired(s: Setup, k: Desk, t: Totals, x: Exchange, r: Rec, e: Env, g: Guarded)
    requires Good(x) && g == Ordered(s, k.g.(x := x), BuyAll(s, r, e), e)
    requires FillsOf(g.x.fills, s.cid(r.ep, ExitLeg)) == []
    requires var reply := ReplyTo(g.x, s.cid(r.ep, ExitLeg)); reply.Got? && reply.order.status == Expired
    ensures BoughtAtMarket(s, k, t, x, r, [], e) == StopOrNothing(s, k.(g := g), t, r, e)
  {
    hide Ordered;
    hide Finalized;
    hide Without;
    hide FillsOf;
    hide Good;
    hide ReplyTo;
    hide StopOrNothing;
    NoSums();
    hide Vwap;
    hide FeeSum;
    hide QtySum;
    hide BuyAll;
    BuysAll(s, r, e);
  }

  lemma BuyAllIs(s: Setup, k: Desk, x: Exchange, r: Rec, e: Env)
    requires Good(x)
    ensures Ordered(s, k.g.(x := x), BuyAll(s, r, e), e).x
         == MarketPlaced(x, Buy, r.qty, s.cid(r.ep, ExitLeg), true, e.d, e.now, s.fees)
  {
    OrderedIs(s, k.g.(x := x), BuyAll(s, r, e), e);
    hide Ordered;
    hide Went;
    hide MarketPlaced;
    hide Good;
  }

  /** The whole short is still there: it is bought back at market. */
  lemma ExitCovers(s: Setup, k: Desk, t: Totals, x: Exchange, r: Rec, e: Env, clean: bool)
    requires DistinctIds(s) && Tied(s, k, clean) && k.rec == Some(r) && r.open && Good(x) && r.qty > 0.0
    requires Account(s, x, Some(r), k.gross, k.fees, clean)
    requires Held(s, x, r, k.gross, k.fees) && x.pos.qty == -r.qty
    requires Unused(x, s.cid(r.ep, ExitLeg)) && Quiet(x, s.cid(r.ep, MakerLeg))
    ensures Tied(s, BoughtAtMarket(s, k, t, x, r, [], e).0, clean)
  {
    hide *;
    var g := Ordered(s, k.g.(x := x), BuyAll(s, r, e), e);
    BuyAllIs(s, k, x, r, e);
    var f := BuyCovers(s, x, r, k.gross, k.fees, clean, e);
    AtMarketFilled(s, k, t, x, r, e, g, f);
    ClosedTied(s, k, t, g.(x := Without(g.x, r.stopId)), f.price, f.fee, clean, clean);
  }

  /** Nothing is left, or too little: the market order expires, and what the stop filled is booked. */
  lemma ExitExpires(s: Setup, k: Desk, t: Totals, x: Exchange, r: Rec, e: Env, clean: bool)
    requires DistinctIds(s) && Tied(s, k, clean) && k.rec == Some(r) && r.open && Good(x)
    requires Account(s, x, Some(r), k.gross, k.fees, clean) && -r.qty < x.pos.qty <= 0.0 && r.qty > 0.0
    requires FillsOf(x.fills, s.cid(r.ep, MakerLeg)) == []
    requires Unused(x, s.cid(r.ep, ExitLeg)) && Quiet(x, s.cid(r.ep, MakerLeg))
    ensures Tied(s, BoughtAtMarket(s, k, t, x, r, [], e).0, clean)
  {
    hide *;
    var id := s.cid(r.ep, ExitLeg);
    var g := Ordered(s, k.g.(x := x), BuyAll(s, r, e), e);
    BuyAllIs(s, k, x, r, e);
    MarketExpires(x, r.qty, id, e, s.fees);
    var o := g.x.orders[|x.orders|];
    ExpiredJoins(s, x, g.x, o, r, k.gross, k.fees, clean);
    AtMarketExpired(s, k, t, x, r, e, g);
    NothingHeldOk(s, k, t, g, r, e, clean);
  }

  lemma ExpiredJoins(s: Setup, x: Exchange, y: Exchange, o: Order, r: Rec, gross: real, fees: real, clean: bool)
    requires DistinctIds(s) && Account(s, x, Some(r), gross, fees, clean)
    requires y.orders == x.orders + [o] && y.fills == x.fills && y.pos == x.pos
    requires o.status == Expired && o.id == s.cid(r.ep, ExitLeg)
    requires Unused(x, o.id) && Quiet(x, s.cid(r.ep, MakerLeg))
    ensures Account(s, y, Some(r), gross, fees, clean) && Quiet(y, s.cid(r.ep, MakerLeg))
    ensures FillsOf(y.fills, o.id) == []
  {
    ClosedOrderJoins(s, x, y, o, r, gross, fees, clean);
    OneMoreOrder(s, x, y, o, r.ep, ExitLeg);
    NotFilled(x, o.id);
    hide Account;
    hide FreshAfter;
    hide FillsOf;
    hide Unused;
  }

  /** The stop has filled: its fill is booked. */
  lemma StopFound(s: Setup, k: Desk, t: Totals, g: Guarded, r: Rec, e: Env, x: Exchange, f: Fill)
    requires Good(g.x) && Good(x) && k.rec == Some(r) && r.open && r.stopId.Some? && x == PolledTo(s, g.x, e.n3, e)
    requires var fills := FillsOf(x.fills, r.stopId.value);
             fills != [] && Vwap(fills) == f.price && FeeSum(fills) == f.fee
    ensures StopOrNothing(s, k.(g := g), t, r, e) == Finalized(s, k.(g := g.(x := x)), t, f.price, f.fee)
  {
    hide PolledTo;
    hide Good;
    hide FillsOf;
    hide Vwap;
    hide FeeSum;
    hide GrossOf;
    assert k.(g := g).(g := g.(x := x)) == k.(g := g.(x := x));
  }

  function GuardStopped(k: Desk): Desk {
    k.(g := k.g.(risk := SetTo(k.g.risk, Halted, "no position at exit")))
  }

  /** It has not: the record is closed without a result and the guard stops. */
  lemma NothingFound(s: Setup, k: Desk, t: Totals, g: Guarded, r: Rec, e: Env, x: Exchange)
    requires Good(g.x) && Good(x) && k.rec == Some(r) && r.open
    requires x == if r.stopId.None? then g.x else PolledTo(s, g.x, e.n3, e)
    requires r.stopId.Some? ==> FillsOf(x.fills, r.stopId.value) == []
    ensures var (gone, last) := Finalized(s, k.(g := g.(x := x)), t, r.entryPx, 0.0);
            StopOrNothing(s, k.(g := g), t, r, e) == (GuardStopped(gone), last)
  {
    hide PolledTo;
    hide Good;
    hide FillsOf;
    hide GrossOf;
    assert k.(g := g).(g := g.(x := x)) == k.(g := g.(x := x));
    assert g.(x := g.x) == g;
  }

  lemma StoppedTied(s: Setup, k: Desk, clean: bool)
    requires Tied(s, k, clean)
    ensures Tied(s, GuardStopped(k), clean)
  {
    hide Good;
    hide Account;
    hide FreshAfter;
    hide Unused;
  }

  /** Nothing to buy back at the exit: the stop's fill is booked, and without one nothing is. */
  lemma NothingHeldOk(s: Setup, k: Desk, t: Totals, g: Guarded, r: Rec, e: Env, clean: bool)
    requires DistinctIds(s) && Tied(s, k, clean) && k.rec == Some(r) && r.open && Good(g.x)
    requires Account(s, g.x, Some(r), k.gross, k.fees, clean) && -r.qty < g.x.pos.qty
    requires Quiet(g.x, s.cid(r.ep, MakerLeg)) && FillsOf(g.x.fills, s.cid(r.ep, MakerLeg)) == []
    ensures Tied(s, StopOrNothing(s, k.(g := g), t, r, e).0, clean)
  {
    hide *;
    var x := if r.stopId.None? then g.x else PolledTo(s, g.x, e.n3, e);
    NothingHeldPolled(s, k, g, x, r, e, clean);
    var fills := FillsOf(x.fills, s.cid(r.ep, StopLeg));
    if fills != [] {
      ExitFill(s, x, r, k.gross, k.fees, clean, StopLeg);
      StopFound(s, k, t, g, r, e, x, fills[0]);
      Booked(s, x, r, k.gross, k.fees, clean, StopLeg, fills[0]);
      ClosedTied(s, k, t, g.(x := x), fills[0].price, fills[0].fee, clean, clean);
    } else {
      BookedAsNothing(s, x, r, k.gross, k.fees, clean);
      ClosedTied(s, k, t, g.(x := x), r.entryPx, 0.0, clean, false);
      NothingFound(s, k, t, g, r, e, x);
      StoppedTied(s, Finalized(s, k.(g := g.(x := x)), t, r.entryPx, 0.0).0, false);
    }
  }

  lemma NothingHeldPolled(s: Setup, k: Desk, g: Guarded, x: Exchange, r: Rec, e: Env, clean: bool)
    requires DistinctIds(s) && Good(g.x)
    requires Account(s, g.x, Some(r), k.gross, k.fees, clean) && -r.qty < g.x.pos.qty
    requires Quiet(g.x, s.cid(r.ep, MakerLeg)) && FillsOf(g.x.fills, s.cid(r.ep, MakerLeg)) == []
    requires x == if r.stopId.None? then g.x else PolledTo(s, g.x, e.n3, e)
    ensures Good(x) && Account(s, x, Some(r), k.gross, k.fees, clean) && Quiet(x, s.cid(r.ep, MakerLeg))
    ensures FreshAfter(s, x, r.ep) && -r.qty < x.pos.qty
    ensures r.stopId.Some? ==> r.stopId.value == s.cid(r.ep, StopLeg)
    ensures r.stopId.None? ==> FillsOf(x.fills, s.cid(r.ep, StopLeg)) == []
    ensures FillsOf(x.fills, s.cid(r.ep, StopLeg)) != [] ==> Quiet(x, s.cid(r.ep, StopLeg))
    ensures FillsOf(x.fills, s.cid(r.ep, StopLeg)) == [] ==> Held(s, x, r, k.gross, k.fees)
  {
    PollKept(s, g.x, Some(r), k.gross, k.fees, clean, e.n3, e);
    hide PolledTo;
    hide Good;
    hide DistinctIds;
    var maker, stop := s.cid(r.ep, MakerLeg), s.cid(r.ep, StopLeg);
    FillsOfNone(g.x.fills, maker);
    FillsOfNone(x.fills, maker);
    FillsOfNone(x.fills, stop);
    if r.stopId.Some? {
      OnwardQuiet(g.x, x, maker);
    }
    hide Onward;
    hide FillsOf;
    hide InFills;
    hide FreshAfter;
  }

  /** After an exit, whichever of maker, market and stop bought back. */
  lemma ExitDoneOk(s: Setup, k: Desk, t: Totals, ep: int, e: Env, clean: bool)
    requires DistinctIds(s) && Tied(s, k, clean)
    ensures Tied(s, ExitDone(s, k, t, ep, e).0, clean)
  {
    if k.rec.Some? && k.rec.value.ep == ep && k.rec.value.open && k.rec.value.exitReq {
      var r := k.rec.value;
      var x := MakerClosed(s, k.g.x, r.makerId, e);
      MakerClosedOk(s, k.g.x, r, k.gross, k.fees, clean, e);
      AccountFresh(s, x, r, k.gross, k.fees, clean);
      OnwardUnused(k.g.x, x, s.cid(ep, ExitLeg));
      StillHeld(s, x, r, k.gross, k.fees, clean);
      hide Onward;
      hide DistinctIds;
      hide MakerClosed;
      hide FillsOf;
      hide Unused;
      hide Good;
      hide Quiet;
      hide Account;
      hide Held;
      hide FreshAfter;
      if FillsOf(x.fills, s.cid(ep, MakerLeg)) != [] {
        MakerBooked(s, k, t, x, r, clean);
      } else if x.pos.qty == -r.qty {
        ExitCovers(s, k, t, x, r, e, clean);
      } else {
        ExitExpires(s, k, t, x, r, e, clean);
      }
      hide Tied;
      hide BoughtAtMarket;
      hide Finalized;
    }
  }

  /** A short that is there whole has not been bought back by the record's own orders. */
  lemma StillHeld(s: Setup, x: Exchange, r: Rec, gross: real, fees: real, clean: bool)
    requires Account(s, x, Some(r), gross, fees, clean)
    ensures -r.qty <= x.pos.qty <= 0.0 && (x.pos.qty == -r.qty ==> Held(s, x, r, gross, fees))
  {
    hide FillsOf;
    hide FreshAfter;
  }

  // ---- any task, any step ---------------------------------------------------

  /** A periodic look at the stop does not find it filled while the maker exit is still resting. */
  ghost predicate TaskSafe(s: Setup, k: Desk, task: Task, e: Env)
    requires Good(k.g.x)
  {
    task == CheckStop ==> StopAlone(s, k, e.n1, e)
  }

  lemma TaskDoneOk(s: Setup, k: Desk, t: Totals, task: Task, e: Env, clean: bool)
    requires DistinctIds(s) && Tied(s, k, clean)
    ensures Tied(s, TaskDone(s, k, t, task, e).0, clean && TaskSafe(s, k, task, e))
  {
    match task {
      case DoEntry(ep) => EntryDoneOk(s, k, ep, e, clean);
      case DoExit(ep) => ExitDoneOk(s, k, t, ep, e, clean);
      case PlaceMaker(ep) => MakerPlacedOk(s, k, ep, e, clean);
      case PollMaker(ep) => MakerPolledOk(s, k, t, ep, e, clean);
      case CheckStop => StopCheckedOk(s, k, t, e.n1, e, clean);
    }
    hide *;
  }

  lemma EnteredOk(s: Setup, k: Desk, t: Totals, ep: int, qty: real, killed: bool, gate: bool, clean: bool)
    requires Tied(s, k, clean) && ep > k.lastEp
    ensures Tied(s, Entered(k, t, ep, qty, killed, gate), clean)
  {
    hide Good;
    hide Account;
    hide Unused;
    if k.rec.None? {
      assert FreshAfter(s, k.g.x, ep - 1);
    }
  }

  lemma RequestOk(s: Setup, k: Desk, r: Rec, clean: bool)
    requires Tied(s, k, clean) && k.rec.Some? && r == k.rec.value.(exitReq := r.exitReq, makerTried := r.makerTried)
    ensures Tied(s, k.(rec := Some(r)), clean)
  {
    hide Good;
    hide FreshAfter;
    hide FillsOf;
    hide Quiet;
    hide GrossOf;
    hide Unused;
    hide Leftover;
    var q, x := k.rec.value, k.g.x;
    if q.open {
      forall i | 0 <= i < |x.orders| && IsOpen(x.orders[i]) ensures Explained(s, x, Some(r), clean, x.orders[i]) {
        assert Explained(s, x, Some(q), clean, x.orders[i]);
      }
      assert Covered(s, x, r, k.gross, k.fees) by {
        if !Held(s, x, q, k.gross, k.fees) {
          var via, f :| BoughtBack(s, x, q, k.gross, k.fees, via, f);
          assert BoughtBack(s, x, r, k.gross, k.fees, via, f);
        }
      }
    }
  }

  lemma QueueOk(s: Setup, k: Desk, queue: seq<Task>, clean: bool)
    requires Tied(s, k, clean)
    ensures Tied(s, k.(queue := queue), clean)
  {
  }

  lemma TickedOk(s: Setup, k: Desk, due: Due, clean: bool)
    requires Tied(s, k, clean)
    ensures Tied(s, Ticked(k, due), clean)
  {
    var j := Ticked(k, due);
    if k.rec.Some? {
      RequestOk(s, k, j.rec.value, clean);
      QueueOk(s, k.(rec := j.rec), j.queue, clean);
      QueueOk(s, k, j.queue, clean);
    }
    hide Tied;
  }

  lemma ExitAskedOk(s: Setup, k: Desk, ep: int, clean: bool)
    requires Tied(s, k, clean)
    ensures Tied(s, ExitAsked(k, ep), clean)
  {
    var j := ExitAsked(k, ep);
    if k.rec.Some? && k.rec.value.ep == ep {
      RequestOk(s, k, j.rec.value, clean);
      QueueOk(s, k.(rec := j.rec), j.queue, clean);
    }
    hide Tied;
  }

  lemma ReleasedOk(s: Setup, k: Desk, killed: bool, clean: bool)
    requires Tied(s, k, clean)
    ensures Tied(s, Released(k, killed), clean)
  {
    hide Good;
    hide Account;
    hide FreshAfter;
    hide Unused;
  }

  // ---- totals ---------------------------------------------------------------

  function GrossSum(desks: seq<Desk>): real {
    if desks == [] then 0.0 else GrossSum(desks[..|desks| - 1]) + desks[|desks| - 1].gross
  }

  function FeesSum(desks: seq<Desk>): real {
    if desks == [] then 0.0 else FeesSum(desks[..|desks| - 1]) + desks[|desks| - 1].fees
  }

  function DoneSum(desks: seq<Desk>): nat {
    if desks == [] then 0 else DoneSum(desks[..|desks| - 1]) + |desks[|desks| - 1].done|
  }

  lemma {:induction false} SumsUpdate(desks: seq<Desk>, i: nat, k: Desk)
    requires i < |desks|
    ensures GrossSum(desks[i := k]) == GrossSum(desks) - desks[i].gross + k.gross
    ensures FeesSum(desks[i := k]) == FeesSum(desks) - desks[i].fees + k.fees
    ensures DoneSum(desks[i := k]) == DoneSum(desks) - |desks[i].done| + |k.done|
  {
    var n := |desks| - 1;
    if i < n {
      SumsUpdate(desks[..n], i, k);
      assert desks[i := k][..n] == desks[..n][i := k];
    } else {
      assert desks[i := k][..n] == desks[..n];
    }
  }

  /** The desk and the totals were booked alike. */
  ghost predicate BookedAlike(k: Desk, t: Totals, j: Desk, u: Totals) {
    && u.gross - t.gross == j.gross - k.gross && u.fees - t.fees == j.fees - k.fees
    && u.net - t.net == (j.gross - k.gross) - (j.fees - k.fees)
    && u.trades - t.trades == |j.done| - |k.done|
  }

  /** Only the open record can be booked, and with that it is gone. */
  ghost predicate DoneAlike(k: Desk, j: Desk) {
    && j.lastEp == k.lastEp
    && ((j.done == k.done && (j.rec.Some? ==> k.rec.Some? && j.rec.value.ep == k.rec.value.ep))
        || (k.rec.Some? && j.rec.None? && j.done == k.done + [k.rec.value.ep]))
  }

  /** What every task keeps besides: a halt, the stop line once something is booked, the last signal taken. */
  ghost predicate TaskKeeps(s: Setup, k: Desk, t: Totals, j: Desk, u: Totals) {
    && BookedAlike(k, t, j, u)
    && DoneAlike(k, j)
    && (t.halted ==> u.halted)
    && (if u.trades == t.trades then u.net == t.net else u.net <= s.stopLine ==> u.halted)
  }

  /** Whatever the desk's exchange has become, and at whatever price and fee. */
  lemma FinalizedAlike(s: Setup, k: Desk, t: Totals)
    ensures forall g, px, fee ::
              TaskKeeps(s, k, t, Finalized(s, k.(g := g), t, px, fee).0, Finalized(s, k.(g := g), t, px, fee).1)
    ensures forall px, fee :: TaskKeeps(s, k, t, Finalized(s, k, t, px, fee).0, Finalized(s, k, t, px, fee).1)
  {
    hide GrossOf;
  }

  lemma StopCheckedAlike(s: Setup, k: Desk, t: Totals, n: nat, e: Env)
    requires Good(k.g.x)
    ensures var (j, u) := StopChecked(s, k, t, n, e); TaskKeeps(s, k, t, j, u)
  {
    hide Good;
    hide Finalized;
    hide PolledTo;
    hide FillsOf;
    if k.rec.Some? && k.rec.value.open && k.rec.value.stopId.Some? {
      var x := PolledTo(s, k.g.x, n, e);
      var fills := FillsOf(x.fills, k.rec.value.stopId.value);
      if fills != [] {
        FinalizedAlike(s, k, t);
      }
    }
    hide Vwap;
    hide FeeSum;
  }

  lemma AlikeTwice(s: Setup, k: Desk, t: Totals, j: Desk, u: Totals, h: Desk, v: Totals)
    requires TaskKeeps(s, k, t, j, u) && TaskKeeps(s, j, u, h, v)
    ensures TaskKeeps(s, k, t, h, v)
  {
  }

  lemma StopOrNothingAlike(s: Setup, k: Desk, t: Totals, r: Rec, e: Env)
    requires Good(k.g.x)
    ensures var (j, u) := StopOrNothing(s, k, t, r, e); TaskKeeps(s, k, t, j, u)
  {
    hide Good;
    hide StopChecked;
    hide Finalized;
    var (checked, after) := StopChecked(s, k, t, e.n3, e);
    StopCheckedAlike(s, k, t, e.n3, e);
    var (gone, last) := Finalized(s, checked, after, r.entryPx, 0.0);
    FinalizedAlike(s, checked, after);
    AlikeTwice(s, k, t, checked, after, gone, last);
  }

  lemma BoughtAlike(s: Setup, k: Desk, t: Totals, x: Exchange, r: Rec, made: seq<Fill>, e: Env)
    requires Good(x) && forall f :: f in made ==> f.qty > 0.0
    ensures var (j, u) := BoughtAtMarket(s, k, t, x, r, made, e); TaskKeeps(s, k, t, j, u)
  {
    hide Good;
    hide Finalized;
    hide FillsOf;
    hide Ordered;
    hide Without;
    hide StopOrNothing;
    hide ReplyTo;
    var id := s.cid(r.ep, ExitLeg);
    var g := Ordered(s, k.g.(x := x), PlaceMarket(Buy, r.qty - QtySum(made), id, true, e.d, e.now), e);
    var fills := FillsOf(g.x.fills, id);
    if fills + made != [] {
      FinalizedAlike(s, k, t);
    } else {
      StopOrNothingAlike(s, k.(g := g), t, r, e);
    }
    hide Vwap;
    hide FeeSum;
    hide QtySum;
  }

  lemma TaskAlike(s: Setup, k: Desk, t: Totals, task: Task, e: Env)
    requires Good(k.g.x)
    ensures var (j, u) := TaskDone(s, k, t, task, e); TaskKeeps(s, k, t, j, u)
  {
    hide Good;
    hide Finalized;
    hide FillsOf;
    hide Ordered;
    hide Without;
    hide PolledTo;
    hide MakerClosed;
    hide BoughtAtMarket;
    hide StopChecked;
    match task {
      case DoEntry(_) =>
      case PlaceMaker(_) =>
      case CheckStop => StopCheckedAlike(s, k, t, e.n1, e);
      case PollMaker(ep) =>
        if k.rec.Some? && k.rec.value.ep == ep && k.rec.value.open && k.rec.value.makerId.Some? {
          var r := k.rec.value;
          var x := PolledTo(s, k.g.x, e.n1, e);
          var made := FillsOf(x.fills, r.makerId.value);
          if made != [] {
            FinalizedAlike(s, k, t);
          }
        }
      case DoExit(ep) =>
        if k.rec.Some? && k.rec.value.ep == ep && k.rec.value.open && k.rec.value.exitReq {
          var r := k.rec.value;
          var x := MakerClosed(s, k.g.x, r.makerId, e);
          var made := if r.makerId.None? then [] else FillsOf(x.fills, r.makerId.value);
          if made != [] {
            FinalizedAlike(s, k, t);
          }
          FillsArePositive(x, made);
          BoughtAlike(s, k, t, x, r, made, e);
        }
    }
    hide Vwap;
    hide FeeSum;
    hide QtySum;
  }

  // ---- whole runs -----------------------------------------------------------

  lemma WorkedAlike(s: Setup, k: Desk, t: Totals, e: Env)
    requires Good(k.g.x)
    ensures var (j, u) := Worked(s, k, t, e); TaskKeeps(s, k, t, j, u)
  {
    hide Good;
    hide TaskDone;
    if k.queue != [] {
      TaskAlike(s, k.(queue := k.queue[1..]), t, k.queue[0], e);
    }
  }

  /** Signals of one symbol come in order, as the engine emits them. */
  ghost predicate InTurn(f: Firm, m: Move) {
    m.Enter? && m.i < |f.desks| ==> f.desks[m.i].lastEp < m.ep
  }

  ghost predicate AlwaysInTurn(s: Setup, n: nat, moves: seq<Move>) {
    forall i :: 0 <= i < |moves| ==> InTurn(After(s, n, moves[..i]), moves[i])
  }

  /** If this step looks at a stop, the look is safe. */
  ghost predicate Safe(s: Setup, f: Firm, m: Move)
    requires AllGood(f)
  {
    m.Work? && m.i < |f.desks| && f.desks[m.i].queue != [] ==> TaskSafe(s, f.desks[m.i], f.desks[m.i].queue[0], m.e)
  }

  ghost predicate AlwaysSafe(s: Setup, n: nat, moves: seq<Move>) {
    forall i :: 0 <= i < |moves| ==> Safe(s, After(s, n, moves[..i]), moves[i])
  }

  /** Every symbol's record is tied to its broker and the totals are the sums of what was booked. */
  ghost predicate FirmTied(s: Setup, f: Firm, clean: bool) {
    && (forall i :: 0 <= i < |f.desks| ==> Tied(s, f.desks[i], clean))
    && f.totals.gross == GrossSum(f.desks) && f.totals.fees == FeesSum(f.desks)
    && f.totals.net == f.totals.gross - f.totals.fees && f.totals.trades == DoneSum(f.desks)
  }

  /** And with every broker exactly. */
  ghost predicate FirmOk(s: Setup, f: Firm) {
    FirmTied(s, f, true)
  }

  lemma WorkedOk(s: Setup, k: Desk, t: Totals, e: Env, clean: bool)
    requires DistinctIds(s) && Tied(s, k, clean)
    ensures var (j, u) := Worked(s, k, t, e);
            && Tied(s, j, clean && (k.queue != [] ==> TaskSafe(s, k, k.queue[0], e)))
            && TaskKeeps(s, k, t, j, u)
  {
    if k.queue != [] {
      QueueOk(s, k, k.queue[1..], clean);
      TaskDoneOk(s, k.(queue := k.queue[1..]), t, k.queue[0], e, clean);
    }
    WorkedAlike(s, k, t, e);
    hide Tied;
    hide TaskDone;
    hide DistinctIds;
  }

  lemma TiedLess(s: Setup, k: Desk, clean: bool, still: bool)
    requires Tied(s, k, clean) && (still ==> clean)
    ensures Tied(s, k, still)
  {
    var x := k.g.x;
    var rec := if k.rec.Some? && k.rec.value.open then k.rec else None;
    if clean {
      assert OrdersOk(s, x, rec, true);
      forall i | 0 <= i < |x.orders| && IsOpen(x.orders[i]) ensures Explained(s, x, rec, still, x.orders[i]) {
        assert Explained(s, x, rec, true, x.orders[i]);
      }
    }
    hide Good;
    hide FreshAfter;
    hide Covered;
    hide KnowsOrders;
    hide Leftover;
    hide Unused;
  }

  lemma DeskReplaced(s: Setup, f: Firm, i: nat, k: Desk, t: Totals, clean: bool, still: bool)
    requires FirmTied(s, f, clean) && (still ==> clean) && i < |f.desks|
    requires Tied(s, k, still) && BookedAlike(f.desks[i], f.totals, k, t)
    ensures FirmTied(s, Firm(f.desks[i := k], t), still)
  {
    forall j | 0 <= j < |f.desks| && j != i ensures Tied(s, f.desks[j], still) {
      TiedLess(s, f.desks[j], clean, still);
    }
    hide Tied;
    SumsUpdate(f.desks, i, k);
    hide GrossSum;
    hide FeesSum;
    hide DoneSum;
  }

  lemma ReopenedOk(s: Setup, f: Firm, killed: bool, clean: bool)
    requires FirmTied(s, f, clean)
    ensures FirmTied(s, Firm(AllReleased(f.desks, killed), f.totals.(halted := false)), clean)
  {
    var desks := AllReleased(f.desks, killed);
    forall i | 0 <= i < |desks| ensures Tied(s, desks[i], clean) {
      ReleasedOk(s, f.desks[i], killed, clean);
    }
    hide Tied;
    SameSums(f.desks, desks);
  }

  lemma {:induction false} SameSums(a: seq<Desk>, b: seq<Desk>)
    requires |a| == |b|
    requires forall i :: 0 <= i < |a| ==>
               a[i].gross == b[i].gross && a[i].fees == b[i].fees && |a[i].done| == |b[i].done|
    ensures GrossSum(a) == GrossSum(b) && FeesSum(a) == FeesSum(b) && DoneSum(a) == DoneSum(b)
  {
    if a == [] {
    } else {
      SameSums(a[..|a| - 1], b[..|b| - 1]);
    }
  }

  lemma MovedOk(s: Setup, f: Firm, m: Move, clean: bool)
    requires DistinctIds(s) && AllGood(f) && FirmTied(s, f, clean) && InTurn(f, m)
    ensures FirmTied(s, Moved(s, f, m), clean && Safe(s, f, m))
  {
    hide DistinctIds;
    hide Tied;
    hide TaskSafe;
    if m.Reopen? {
      ReopenedOk(s, f, m.killed, clean);
    } else if m.i < |f.desks| {
      var k := f.desks[m.i];
      match m {
        case Enter(i, ep, qty, killed, gate) =>
          EnteredOk(s, k, f.totals, ep, qty, killed, gate, clean);
          DeskReplaced(s, f, i, Entered(k, f.totals, ep, qty, killed, gate), f.totals, clean, clean);
        case Leave(i, ep) =>
          ExitAskedOk(s, k, ep, clean);
          DeskReplaced(s, f, i, ExitAsked(k, ep), f.totals, clean, clean);
        case Tick(i, due) =>
          TickedOk(s, k, due, clean);
          DeskReplaced(s, f, i, Ticked(k, due), f.totals, clean, clean);
        case Work(i, e) =>
          WorkedOk(s, k, f.totals, e, clean);
          var (j, t) := Worked(s, k, f.totals, e);
          DeskReplaced(s, f, i, j, t, clean, clean && Safe(s, f, m));
      }
    }
    hide FirmTied;
    hide Worked;
    hide Ticked;
    hide Entered;
    hide ExitAsked;
  }

  lemma NewFirmOk(s: Setup, n: nat)
    ensures FirmOk(s, Opening(n))
  {
    NothingBooked(n);
    assert Tied(s, NEW_DESK, true) by {
      NewDeskOk(s);
    }
    hide Tied;
  }

  lemma NewDeskOk(s: Setup)
    ensures DeskOk(s, NEW_DESK)
  {
  }

  lemma {:induction false} NothingBooked(n: nat)
    ensures GrossSum(Opening(n).desks) == 0.0 && FeesSum(Opening(n).desks) == 0.0 && DoneSum(Opening(n).desks) == 0
  {
    if n == 0 {
    } else {
      NothingBooked(n - 1);
      assert Opening(n).desks[..n - 1] == Opening(n - 1).desks;
    }
  }

  lemma ShorterRun(s: Setup, n: nat, moves: seq<Move>, k: nat)
    requires k <= |moves|
    ensures AlwaysInTurn(s, n, moves) ==> AlwaysInTurn(s, n, moves[..k])
    ensures AlwaysSafe(s, n, moves) ==> AlwaysSafe(s, n, moves[..k])
  {
    hide After;
    hide InTurn;
    hide Safe;
    forall i | 0 <= i < k ensures moves[..k][..i] == moves[..i] {
    }
  }

  /** Over any run whose signals come in order; the looks at the stop may be unsafe. */
  lemma {:induction false} EveryRunTied(s: Setup, n: nat, moves: seq<Move>, clean: bool)
    requires DistinctIds(s) && AlwaysInTurn(s, n, moves) && (clean ==> AlwaysSafe(s, n, moves))
    ensures FirmTied(s, After(s, n, moves), clean)
  {
    hide DistinctIds;
    hide FirmTied;
    hide Moved;
    hide InTurn;
    hide Safe;
    if moves == [] {
      NewFirmOk(s, n);
      FirmTiedLess(s, Opening(n), clean);
    } else {
      var k := |moves| - 1;
      ShorterRun(s, n, moves, k);
      EveryRunTied(s, n, moves[..k], clean);
      MovedOk(s, After(s, n, moves[..k]), moves[k], clean);
    }
  }

  lemma FirmTiedLess(s: Setup, f: Firm, clean: bool)
    requires FirmOk(s, f)
    ensures FirmTied(s, f, clean)
  {
    forall i | 0 <= i < |f.desks| ensures Tied(s, f.desks[i], clean) {
      TiedLess(s, f.desks[i], true, clean);
    }
    hide Tied;
  }

  /** Ledger and brokers agree exactly after every step of a run if and only if every look at a stop in
      it is safe. */
  lemma EveryRunAgrees(s: Setup, n: nat, moves: seq<Move>)
    requires DistinctIds(s) && AlwaysInTurn(s, n, moves)
    ensures (forall j :: 0 <= j <= |moves| ==> FirmOk(s, After(s, n, moves[..j]))) <==> AlwaysSafe(s, n, moves)
  {
    hide FirmTied;
    hide After;
    hide Safe;
    if AlwaysSafe(s, n, moves) {
      forall j | 0 <= j <= |moves| ensures FirmOk(s, After(s, n, moves[..j])) {
        ShorterRun(s, n, moves, j);
        EveryRunTied(s, n, moves[..j], true);
      }
    } else {
      var i :| 0 <= i < |moves| && !Safe(s, After(s, n, moves[..i]), moves[i]);
      if FirmOk(s, After(s, n, moves[..i])) && FirmOk(s, After(s, n, moves[..i + 1])) {
        AfterOne(s, n, moves, i);
        UnsafeShows(s, After(s, n, moves[..i]), moves[i]);
      }
    }
  }

  lemma AfterOne(s: Setup, n: nat, moves: seq<Move>, i: nat)
    requires i < |moves|
    ensures After(s, n, moves[..i + 1]) == Moved(s, After(s, n, moves[..i]), moves[i])
  {
    assert moves[..i + 1][..i] == moves[..i];
  }

  lemma SameLook(s: Setup, k: Desk, queue: seq<Task>, e: Env)
    requires Good(k.g.x)
    ensures StopAlone(s, k.(queue := queue), e.n1, e) <==> StopAlone(s, k, e.n1, e)
  {
  }

  /** The next queued task keeps a desk in exact agreement if and only if it is safe. */
  lemma WorkedExact(s: Setup, k: Desk, t: Totals, e: Env)
    requires DistinctIds(s) && DeskOk(s, k)
    ensures DeskOk(s, Worked(s, k, t, e).0) <==> (k.queue != [] ==> TaskSafe(s, k, k.queue[0], e))
  {
    WorkedOk(s, k, t, e, true);
    hide Good;
    hide DistinctIds;
    hide Account;
    hide StopAlone;
    hide StopChecked;
    if k.queue != [] && k.queue[0] == CheckStop {
      QueueOk(s, k, k.queue[1..], true);
      StopAloneIsExact(s, k.(queue := k.queue[1..]), t, e.n1, e);
      SameLook(s, k, k.queue[1..], e);
    }
    hide Tied;
  }

  /** Exact agreement, kept by every task and every step of the main thread but an unsafe look. */
  ghost predicate Exact(s: Setup, k: Desk) {
    DistinctIds(s) && DeskOk(s, k)
  }

  lemma TasksExact(s: Setup, k: Desk, t: Totals, ep: int, e: Env)
    requires Good(k.g.x)
    ensures Exact(s, k) ==> Exact(s, EntryDone(s, k, ep, e))
    ensures Exact(s, k) ==> Exact(s, ExitDone(s, k, t, ep, e).0)
    ensures Exact(s, k) ==> Exact(s, MakerPlaced(s, k, ep, e))
    ensures Exact(s, k) ==> Exact(s, MakerPolled(s, k, t, ep, e).0)
  {
    if Exact(s, k) {
      EntryDoneOk(s, k, ep, e, true);
      ExitDoneOk(s, k, t, ep, e, true);
      MakerPlacedOk(s, k, ep, e, true);
      MakerPolledOk(s, k, t, ep, e, true);
    }
    hide Tied;
    hide DistinctIds;
    hide EntryDone;
    hide ExitDone;
    hide MakerPlaced;
    hide MakerPolled;
    hide Good;
  }

  lemma LookExact(s: Setup, k: Desk, t: Totals, n: nat, e: Env)
    requires Good(k.g.x)
    ensures Exact(s, k) ==> (Exact(s, StopChecked(s, k, t, n, e).0) <==> StopAlone(s, k, n, e))
  {
    if Exact(s, k) {
      StopAloneIsExact(s, k, t, n, e);
    }
    hide Tied;
    hide DistinctIds;
    hide StopChecked;
    hide StopAlone;
    hide Good;
  }

  lemma WorkExact(s: Setup, k: Desk, t: Totals, e: Env)
    requires Good(k.g.x)
    ensures Exact(s, k) ==>
              (Exact(s, Worked(s, k, t, e).0) <==> (k.queue != [] ==> TaskSafe(s, k, k.queue[0], e)))
  {
    if Exact(s, k) {
      WorkedExact(s, k, t, e);
    }
    hide Tied;
    hide DistinctIds;
    hide Worked;
    hide TaskSafe;
    hide Good;
  }

  lemma MainExact(s: Setup, k: Desk, t: Totals, ep: int, qty: real, killed: bool, gate: bool, due: Due)
    ensures Exact(s, k) && k.lastEp < ep ==> Exact(s, Entered(k, t, ep, qty, killed, gate))
    ensures Exact(s, k) ==> Exact(s, ExitAsked(k, ep)) && Exact(s, Ticked(k, due))
  {
    if Exact(s, k) {
      if k.lastEp < ep {
        EnteredOk(s, k, t, ep, qty, killed, gate, true);
      }
      ExitAskedOk(s, k, ep, true);
      TickedOk(s, k, due, true);
    }
    hide Tied;
    hide DistinctIds;
    hide Entered;
    hide ExitAsked;
    hide Ticked;
  }

  lemma UnsafeShows(s: Setup, f: Firm, m: Move)
    requires DistinctIds(s) && AllGood(f) && FirmOk(s, f) && !Safe(s, f, m)
    ensures !FirmOk(s, Moved(s, f, m))
  {
    WorkedExact(s, f.desks[m.i], f.totals, m.e);
    hide Good;
    hide Tied;
    hide TaskSafe;
    hide Worked;
    assert Moved(s, f, m).desks[m.i] == Worked(s, f.desks[m.i], f.totals, m.e).0;
  }

  // ---- the totals against the brokers ---------------------------------------

  ghost function RealizedSum(desks: seq<Desk>): real {
    if desks == [] then 0.0 else RealizedSum(desks[..|desks| - 1]) + desks[|desks| - 1].g.x.pos.realized
  }

  ghost function PaidSum(desks: seq<Desk>): real {
    if desks == [] then 0.0 else PaidSum(desks[..|desks| - 1]) + desks[|desks| - 1].g.x.pos.fees
  }

  ghost predicate AllReal(desks: seq<Desk>) {
    forall i :: 0 <= i < |desks| ==> RealFills(desks[i].g.x.fills)
  }

  ghost function StrayGainSum(s: Setup, desks: seq<Desk>): real
    requires AllReal(desks)
  {
    if desks == [] then 0.0
    else StrayGainSum(s, desks[..|desks| - 1]) + StrayGain(s, desks[|desks| - 1].g.x.fills)
  }

  ghost function StrayFeesSum(s: Setup, desks: seq<Desk>): real {
    if desks == [] then 0.0
    else StrayFeesSum(s, desks[..|desks| - 1]) + StrayFees(s, desks[|desks| - 1].g.x.fills)
  }

  predicate NoneOpen(k: Desk) {
    k.rec.Some? ==> !k.rec.value.open
  }

  lemma {:induction false} BalancedSums(s: Setup, desks: seq<Desk>)
    requires forall i :: 0 <= i < |desks| ==> Balanced(s, desks[i].g.x, desks[i].gross, desks[i].fees)
    ensures AllReal(desks)
    ensures RealizedSum(desks) == GrossSum(desks) + StrayGainSum(s, desks)
    ensures PaidSum(desks) == FeesSum(desks) + StrayFeesSum(s, desks)
  {
    hide StrayGain;
    hide StrayFees;
    hide RealFills;
    if desks == [] {
    } else {
      BalancedSums(s, desks[..|desks| - 1]);
    }
  }

  lemma {:induction false} NoStraySums(s: Setup, desks: seq<Desk>)
    requires AllReal(desks) && forall i :: 0 <= i < |desks| ==> !AnyStray(s, desks[i].g.x.fills)
    ensures StrayGainSum(s, desks) == 0.0 && StrayFeesSum(s, desks) == 0.0
  {
    if desks == [] {
    } else {
      NoStraySums(s, desks[..|desks| - 1]);
      NoStrayNoGain(s, desks[|desks| - 1].g.x.fills);
    }
    hide StrayGain;
    hide StrayFees;
    hide AnyStray;
  }

  /** A desk without an open record. */
  lemma NoneOpenFacts(s: Setup, k: Desk, clean: bool)
    requires Tied(s, k, clean) && NoneOpen(k)
    ensures Balanced(s, k.g.x, k.gross, k.fees)
    ensures BothFilled(s, k.g.x.fills) <==> AnyStray(s, k.g.x.fills)
    ensures clean ==> !AnyStray(s, k.g.x.fills) && k.g.x.pos.qty == 0.0 && OpenCount(k.g.x.orders) == 0
  {
    hide Good;
    hide FreshAfter;
    hide BothFilled;
    hide AnyStray;
    if clean {
      forall i | 0 <= i < |k.g.x.orders| ensures !IsOpen(k.g.x.orders[i]) {
        assert IsOpen(k.g.x.orders[i]) ==> Explained(s, k.g.x, None, true, k.g.x.orders[i]);
      }
    }
  }

  /** Whenever no record is open: the brokers realized what the ledger booked and what stray purchases
      added, to the cent; a symbol has a stray purchase exactly if one signal had both its stop and its
      maker exit filled; where none had, the totals are the brokers' own. */
  lemma LedgerAgainstBroker(s: Setup, n: nat, moves: seq<Move>)
    requires DistinctIds(s) && AlwaysInTurn(s, n, moves)
    requires forall i :: 0 <= i < n ==> NoneOpen(After(s, n, moves).desks[i])
    ensures var f := After(s, n, moves);
            && AllReal(f.desks)
            && RealizedSum(f.desks) == f.totals.gross + StrayGainSum(s, f.desks)
            && PaidSum(f.desks) == f.totals.fees + StrayFeesSum(s, f.desks)
            && f.totals.net == f.totals.gross - f.totals.fees
            && forall i :: 0 <= i < n ==> (BothFilled(s, f.desks[i].g.x.fills) <==> AnyStray(s, f.desks[i].g.x.fills))
    ensures (forall i :: 0 <= i < n ==> !BothFilled(s, After(s, n, moves).desks[i].g.x.fills)) ==>
              var f := After(s, n, moves);
              f.totals.gross == RealizedSum(f.desks) && f.totals.fees == PaidSum(f.desks)
  {
    EveryRunTied(s, n, moves, false);
    hide After;
    var f := After(s, n, moves);
    forall i | 0 <= i < n
      ensures Balanced(s, f.desks[i].g.x, f.desks[i].gross, f.desks[i].fees)
      ensures BothFilled(s, f.desks[i].g.x.fills) <==> AnyStray(s, f.desks[i].g.x.fills)
    {
      assert Tied(s, f.desks[i], false);
      NoneOpenFacts(s, f.desks[i], false);
    }
    hide Tied;
    hide BothFilled;
    hide AnyStray;
    hide Balanced;
    BalancedSums(s, f.desks);
    if forall i :: 0 <= i < n ==> !BothFilled(s, f.desks[i].g.x.fills) {
      NoStraySums(s, f.desks);
    }
  }

  /** And in a run whose looks are safe no broker holds a position or an open order then. */
  lemma LedgerIsBroker(s: Setup, n: nat, moves: seq<Move>)
    requires DistinctIds(s) && AlwaysInTurn(s, n, moves) && AlwaysSafe(s, n, moves)
    requires forall i :: 0 <= i < n ==> NoneOpen(After(s, n, moves).desks[i])
    ensures var f := After(s, n, moves);
            && f.totals.gross == RealizedSum(f.desks) && f.totals.fees == PaidSum(f.desks)
            && f.totals.net == RealizedSum(f.desks) - PaidSum(f.desks)
            && forall i :: 0 <= i < n ==> f.desks[i].g.x.pos.qty == 0.0 && OpenCount(f.desks[i].g.x.orders) == 0
  {
    LedgerAgainstBroker(s, n, moves);
    EveryRunTied(s, n, moves, true);
    hide After;
    var f := After(s, n, moves);
    forall i | 0 <= i < n
      ensures !BothFilled(s, f.desks[i].g.x.fills)
      ensures f.desks[i].g.x.pos.qty == 0.0 && OpenCount(f.desks[i].g.x.orders) == 0
    {
      assert Tied(s, f.desks[i], true);
      NoneOpenFacts(s, f.desks[i], true);
    }
    hide Tied;
    hide BothFilled;
    hide AnyStray;
  }

  // ---- every signal once ----------------------------------------------------

  ghost predicate DoneInOrder(done: seq<int>, below: int) {
    && (forall i, j :: 0 <= i < j < |done| ==> done[i] < done[j])
    && forall i :: 0 <= i < |done| ==> done[i] < below
  }

  /** Booked signals are in order and older than the record. */
  ghost predicate DeskInTurn(k: Desk) {
    if k.rec.None? then DoneInOrder(k.done, k.lastEp + 1)
    else k.rec.value.ep == k.lastEp && DoneInOrder(k.done, k.lastEp)
  }

  ghost predicate FirmInTurn(f: Firm) {
    forall i :: 0 <= i < |f.desks| ==> DeskInTurn(f.desks[i])
  }

  lemma AlikeInTurn(k: Desk, j: Desk)
    requires DeskInTurn(k) && DoneAlike(k, j)
    ensures DeskInTurn(j)
  {
  }

  lemma MovedInTurn(s: Setup, f: Firm, m: Move)
    requires AllGood(f) && FirmInTurn(f) && InTurn(f, m)
    ensures FirmInTurn(Moved(s, f, m))
  {
    hide Worked;
    hide Good;
    var g := Moved(s, f, m);
    forall i | 0 <= i < |g.desks| ensures DeskInTurn(g.desks[i]) {
      var k := f.desks[i];
      if m.Work? && m.i == i {
        WorkedAlike(s, k, f.totals, m.e);
        AlikeInTurn(k, g.desks[i]);
      }
    }
  }

  /** Every accepted signal is booked at most once, whatever the looks at the stop find. */
  lemma {:induction false} RunInTurn(s: Setup, n: nat, moves: seq<Move>)
    requires AlwaysInTurn(s, n, moves)
    ensures FirmInTurn(After(s, n, moves))
  {
    hide FirmInTurn;
    hide Moved;
    hide InTurn;
    if moves == [] {
      assert FirmInTurn(Opening(n)) by {
        NewInTurn(n);
      }
    } else {
      var k := |moves| - 1;
      ShorterRun(s, n, moves, k);
      RunInTurn(s, n, moves[..k]);
      MovedInTurn(s, After(s, n, moves[..k]), moves[k]);
    }
  }

  lemma NewInTurn(n: nat)
    ensures FirmInTurn(Opening(n))
  {
  }

  lemma BookedAtMostOnce(s: Setup, n: nat, moves: seq<Move>, d: nat, i: nat, j: nat)
    requires AlwaysInTurn(s, n, moves) && d < n
    requires i < j < |After(s, n, moves).desks[d].done|
    ensures After(s, n, moves).desks[d].done[i] < After(s, n, moves).desks[d].done[j]
  {
    RunInTurn(s, n, moves);
    hide After;
    assert DeskInTurn(After(s, n, moves).desks[d]);
  }

  // ---- the stop line --------------------------------------------------------

  /** Nobody resumes by hand. */
  ghost predicate Unattended(moves: seq<Move>) {
    forall m :: m in moves ==> !m.Reopen?
  }

  /** Between two states: a halt stays, and while halted no symbol takes a signal. */
  ghost predicate StillHalted(f: Firm, g: Firm) {
    |g.desks| == |f.desks|
    && (f.totals.halted ==>
          g.totals.halted && forall i :: 0 <= i < |f.desks| ==> g.desks[i].lastEp == f.desks[i].lastEp)
  }

  ghost predicate LineMinded(s: Setup, f: Firm) {
    f.totals.trades > 0 && f.totals.net <= s.stopLine ==> f.totals.halted
  }

  lemma MovedHalts(s: Setup, f: Firm, m: Move)
    requires AllGood(f) && !m.Reopen?
    ensures StillHalted(f, Moved(s, f, m)) && (LineMinded(s, f) ==> LineMinded(s, Moved(s, f, m)))
  {
    if m.i < |f.desks| && m.Work? {
      WorkedAlike(s, f.desks[m.i], f.totals, m.e);
    }
    hide Worked;
    hide Good;
  }

  /** Once the booked net is at or below the stop line, trading is halted. */
  lemma {:induction false} StopLineHolds(s: Setup, n: nat, moves: seq<Move>)
    requires Unattended(moves)
    ensures LineMinded(s, After(s, n, moves))
  {
    hide Moved;
    if moves == [] {
    } else {
      var k := |moves| - 1;
      assert moves[k] in moves && Unattended(moves[..k]);
      StopLineHolds(s, n, moves[..k]);
      MovedHalts(s, After(s, n, moves[..k]), moves[k]);
    }
  }

  /** From a halt on, whatever else happens, no symbol takes another signal until somebody resumes. */
  lemma {:induction false} HaltTakesNoSignals(s: Setup, n: nat, before: seq<Move>, after: seq<Move>)
    requires Unattended(after)
    ensures StillHalted(After(s, n, before), After(s, n, before + after))
  {
    hide Moved;
    if after == [] {
      assert before + after == before;
    } else {
      var k := |after| - 1;
      assert after[k] in after && Unattended(after[..k]);
      HaltTakesNoSignals(s, n, before, after[..k]);
      assert (before + after)[..|before + after| - 1] == before + after[..k];
      MovedHalts(s, After(s, n, before + after[..k]), after[k]);
    }
  }
}
