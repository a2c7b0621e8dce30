/** When a look at the emergency stop leaves a maker exit behind, told before the look: from the resting
    orders and the trades it will read. */
module StopLooks {
  import opened Basics
  import opened Positions
  import opened Paper
  import opened Polling
  import opened Ledger
  import opened Accounts
  import opened LedgerAgrees

  /** The trades a look that sees the first `n` of the tape will read. */
  function ToRead(s: Setup, x: Exchange, n: nat): seq<Print> {
    if OpenCount(x.orders) == 0 then []
    else TradesAfter(s.tape[..if n < |s.tape| then n else |s.tape|], x.lastAgg, Since(x))
  }

  /** Among the first `j` orders one under this id rests and is fired by the trade. */
  ghost predicate FiredAmong(x: Exchange, id: string, j: nat, t: Print) {
    exists i :: 0 <= i < j && i < |x.orders| && x.orders[i].id == id && IsOpen(x.orders[i]) && Counts(x.orders[i], t)
  }

  ghost predicate Fired(x: Exchange, id: string, ts: seq<Print>) {
    exists t :: t in ts && FiredAmong(x, id, |x.orders|, t)
  }

  ghost predicate Rests(x: Exchange, id: string) {
    !Quiet(x, id)
  }

  // ---- the stop fills exactly when a trade fires it -------------------------

  /** A clean account whose maker exit rests: the stop is the only order that can still fill. */
  ghost predicate MakerRests(s: Setup, x: Exchange, r: Rec, gross: real, fees: real) {
    Good(x) && Account(s, x, Some(r), gross, fees, true) && Rests(x, s.cid(r.ep, MakerLeg))
  }

  lemma StopMeets(s: Setup, x: Exchange, r: Rec, gross: real, fees: real, i: nat, t: Print, d: Levels, now: int)
    requires DistinctIds(s) && MakerRests(s, x, r, gross, fees) && i < |x.orders|
    requires x.orders[i].id == s.cid(r.ep, StopLeg) && IsOpen(x.orders[i]) && Counts(x.orders[i], t)
    ensures InFills(Met(x, i, t, d, now, s.fees).fills, s.cid(r.ep, StopLeg))
  {
    var o := x.orders[i];
    assert Explained(s, x, Some(r), true, o);
    assert WholeOrder(o) && ReduceOk(x.pos.qty, o) by {
      OnlyHeld(s, x, r, gross, fees, i);
    }
    hide Account;
    hide Good;
    hide Executed;
    hide MarketPrice;
    hide ReduceOk;
    var y := Touched(x, o, t);
    var px := if o.kind == Limit then o.price else MarketPrice(o, d);
    FillsUnder(y, i, o.price, Maker, t.ts, s.fees);
    FillsUnder(y, i, px, Taker, now, s.fees);
    hide InFills;
  }

  lemma FillsUnder(x: Exchange, i: nat, price: real, liq: Liquidity, ts: int, fees: Fees)
    requires Good(x) && i < |x.orders| && IsOpen(x.orders[i])
    ensures InFills(Executed(x, i, price, liq, ts, fees).fills, x.orders[i].id)
  {
    hide Good;
    var y := Executed(x, i, price, liq, ts, fees);
    assert y.fills[|x.fills|] in y.fills;
  }

  /** While both exits rest the short is whole. */
  lemma OnlyHeld(s: Setup, x: Exchange, r: Rec, gross: real, fees: real, i: nat)
    requires DistinctIds(s) && MakerRests(s, x, r, gross, fees) && i < |x.orders| && IsOpen(x.orders[i])
    requires x.orders[i].id == s.cid(r.ep, StopLeg)
    ensures WholeOrder(x.orders[i]) && ReduceOk(x.pos.qty, x.orders[i])
  {
    assert Explained(s, x, Some(r), true, x.orders[i]);
    assert Held(s, x, r, gross, fees) by {
      forall via, f ensures !BoughtBack(s, x, r, gross, fees, via, f) {
        assert BoughtBack(s, x, r, gross, fees, via, f) ==> Quiet(x, s.cid(r.ep, via));
      }
    }
    hide FreshAfter;
    hide FillsOf;
    hide InFills;
    hide Unused;
  }

  /** Any other order of a clean account leaves the stop's fills alone. */
  lemma OtherMeets(s: Setup, x: Exchange, r: Rec, gross: real, fees: real, i: nat, t: Print, d: Levels, now: int)
    requires DistinctIds(s) && MakerRests(s, x, r, gross, fees) && i < |x.orders|
    requires !(x.orders[i].id == s.cid(r.ep, StopLeg) && IsOpen(x.orders[i]) && Counts(x.orders[i], t))
    requires x.orders[i].id == s.cid(r.ep, MakerLeg) && IsOpen(x.orders[i]) ==> !Counts(x.orders[i], t)
    ensures Met(x, i, t, d, now, s.fees).fills == x.fills
  {
    if IsOpen(x.orders[i]) {
      assert Explained(s, x, Some(r), true, x.orders[i]);
    }
    hide Account;
    hide Good;
    hide Executed;
    hide MarketPrice;
    hide ReduceOk;
  }

  /** The trade does not fire the maker exit. */
  ghost predicate Spares(x: Exchange, id: string, t: Print) {
    !FiredAmong(x, id, |x.orders|, t)
  }

  lemma {:induction false} StopMetUpTo(s: Setup, x: Exchange, r: Rec, gross: real, fees: real, j: nat, t: Print,
                                       d: Levels, now: int)
    requires DistinctIds(s) && MakerRests(s, x, r, gross, fees) && j <= |x.orders|
    requires Spares(x, s.cid(r.ep, MakerLeg), t)
    ensures var y, stop := MetUpTo(x, j, t, d, now, s.fees), s.cid(r.ep, StopLeg);
            && MakerRests(s, y, r, gross, fees)
            && (InFills(y.fills, stop) <==> InFills(x.fills, stop) || FiredAmong(x, stop, j, t))
  {
    hide DistinctIds;
    hide Account;
    hide Met;
    hide Counts;
    hide Good;
    hide InFills;
    if j == 0 {
    } else {
      var y, stop := MetUpTo(x, j - 1, t, d, now, s.fees), s.cid(r.ep, StopLeg);
      StopMetUpTo(s, x, r, gross, fees, j - 1, t, d, now);
      MetKept(s, y, Some(r), gross, fees, true, j - 1, t, d, now);
      MakerStays(s, x, r, j, t, d, now);
      assert y.orders[j - 1] == x.orders[j - 1];
      var z := Met(y, j - 1, t, d, now, s.fees);
      if x.orders[j - 1].id == stop && IsOpen(x.orders[j - 1]) && Counts(x.orders[j - 1], t) {
        StopMeets(s, y, r, gross, fees, j - 1, t, d, now);
      } else {
        OtherMeets(s, y, r, gross, fees, j - 1, t, d, now);
      }
    }
  }

  lemma MakerStays(s: Setup, x: Exchange, r: Rec, j: nat, t: Print, d: Levels, now: int)
    requires Good(x) && j <= |x.orders| && Rests(x, s.cid(r.ep, MakerLeg)) && Spares(x, s.cid(r.ep, MakerLeg), t)
    ensures Rests(MetUpTo(x, j, t, d, now, s.fees), s.cid(r.ep, MakerLeg))
  {
    MetUpToOpen(x, j, t, d, now, s.fees);
    hide Good;
    hide Counts;
    hide MetUpTo;
    var i :| 0 <= i < |x.orders| && x.orders[i].id == s.cid(r.ep, MakerLeg) && IsOpen(x.orders[i]);
    assert MetUpTo(x, j, t, d, now, s.fees).orders[i] == x.orders[i];
  }

  lemma {:induction false} StopSawAll(s: Setup, x: Exchange, r: Rec, gross: real, fees: real, ts: seq<Print>,
                                      d: Levels, now: int)
    requires DistinctIds(s) && MakerRests(s, x, r, gross, fees)
    requires forall t :: t in ts ==> Spares(x, s.cid(r.ep, MakerLeg), t)
    ensures var y, stop := SawAll(x, ts, d, now, s.fees), s.cid(r.ep, StopLeg);
            && MakerRests(s, y, r, gross, fees)
            && (InFills(y.fills, stop) <==> InFills(x.fills, stop) || Fired(x, stop, ts))
  {
    hide DistinctIds;
    hide Account;
    hide MetUpTo;
    hide InFills;
    hide Counts;
    if ts == [] {
    } else {
      var n := |ts| - 1;
      var y, stop := SawAll(x, ts[..n], d, now, s.fees), s.cid(r.ep, StopLeg);
      var z := y.(lastAgg := Some(ts[n].agg), lastTs := Some(ts[n].ts));
      assert Good(z);
      hide Good;
      assert forall t :: t in ts[..n] ==> t in ts;
      StopSawAll(s, x, r, gross, fees, ts[..n], d, now);
      ClosingKept(s, y, z, Some(r), gross, fees, true);
      SawAllOpen(x, ts[..n], d, now, s.fees);
      SparedLater(x, y, s.cid(r.ep, MakerLeg), ts, d, now, s.fees);
      assert Spares(z, s.cid(r.ep, MakerLeg), ts[n]);
      assert Rests(z, s.cid(r.ep, MakerLeg));
      StopMetUpTo(s, z, r, gross, fees, |z.orders|, ts[n], d, now);
      FiredLater(x, y, stop, ts, d, now, s.fees);
    }
  }

  lemma SparedLater(x: Exchange, y: Exchange, id: string, ts: seq<Print>, d: Levels, now: int, fees: Fees)
    requires Good(x) && ts != [] && y == SawAll(x, ts[..|ts| - 1], d, now, fees)
    requires forall t :: t in ts ==> Spares(x, id, t)
    ensures Spares(y, id, ts[|ts| - 1])
  {
    SawAllOpen(x, ts[..|ts| - 1], d, now, fees);
    hide SawAll;
    hide Good;
    hide Counts;
    var t := ts[|ts| - 1];
    assert t in ts && Spares(x, id, t);
    forall i | 0 <= i < |y.orders| ensures !(y.orders[i].id == id && IsOpen(y.orders[i]) && Counts(y.orders[i], t)) {
      assert Answered(ts[..|ts| - 1], x.orders[i], y.orders[i]);
    }
  }

  /** An order that a trade fires had not been fired before. */
  lemma FiredNow(x: Exchange, y: Exchange, id: string, before: seq<Print>, t: Print)
    requires |x.orders| == |y.orders| && forall i :: 0 <= i < |x.orders| ==> Answered(before, x.orders[i], y.orders[i])
    ensures FiredAmong(y, id, |y.orders|, t) ==> FiredAmong(x, id, |x.orders|, t)
    ensures FiredAmong(x, id, |x.orders|, t) && !Fired(x, id, before) ==> FiredAmong(y, id, |y.orders|, t)
  {
    hide Counts;
    hide ClosedBy;
    if i :| 0 <= i < |y.orders| && y.orders[i].id == id && IsOpen(y.orders[i]) && Counts(y.orders[i], t) {
      assert Answered(before, x.orders[i], y.orders[i]);
    }
    if !Fired(x, id, before) {
      if i :| 0 <= i < |x.orders| && x.orders[i].id == id && IsOpen(x.orders[i]) && Counts(x.orders[i], t) {
        forall u | u in before ensures !Counts(x.orders[i], u) {
          assert !FiredAmong(x, id, |x.orders|, u);
        }
        assert Answered(before, x.orders[i], y.orders[i]);
      }
    }
  }

  lemma FiredLater(x: Exchange, y: Exchange, id: string, ts: seq<Print>, d: Levels, now: int, fees: Fees)
    requires Good(x) && ts != [] && y == SawAll(x, ts[..|ts| - 1], d, now, fees)
    ensures Fired(x, id, ts) <==> Fired(x, id, ts[..|ts| - 1]) || FiredAmong(y, id, |y.orders|, ts[|ts| - 1])
  {
    SawAllOpen(x, ts[..|ts| - 1], d, now, fees);
    var before, t := ts[..|ts| - 1], ts[|ts| - 1];
    FiredNow(x, y, id, before, t);
    hide *;
    assert ts == before + [t];
    FiredSplits(x, id, before, t);
  }

  lemma FiredSplits(x: Exchange, id: string, before: seq<Print>, t: Print)
    ensures Fired(x, id, before + [t]) <==> Fired(x, id, before) || FiredAmong(x, id, |x.orders|, t)
  {
    hide FiredAmong;
    var ts := before + [t];
    if FiredAmong(x, id, |x.orders|, t) {
      assert ts[|before|] == t;
    }
    if u :| u in before && FiredAmong(x, id, |x.orders|, u) {
      assert u in ts;
    }
  }

  // ---- before the look ------------------------------------------------------

  /** The maker exit rests, none of the trades to be read fires it, and the stop has filled or will be
      fired by one of them. */
  ghost predicate LeavesMaker(s: Setup, k: Desk, n: nat) {
    && k.rec.Some? && k.rec.value.open && k.rec.value.stopId.Some?
    && var x, ep, ts := k.g.x, k.rec.value.ep, ToRead(s, k.g.x, n);
       && Rests(x, s.cid(ep, MakerLeg)) && (forall t :: t in ts ==> Spares(x, s.cid(ep, MakerLeg), t))
       && (InFills(x.fills, s.cid(ep, StopLeg)) || Fired(x, s.cid(ep, StopLeg), ts))
  }

  /** Whether a look is safe can be told before it. */
  lemma SafeLook(s: Setup, k: Desk, n: nat, e: Env)
    requires DistinctIds(s) && DeskOk(s, k)
    ensures StopAlone(s, k, n, e) <==> !LeavesMaker(s, k, n)
  {
    if k.rec.Some? && k.rec.value.open && k.rec.value.stopId.Some? {
      var r, x, ts := k.rec.value, k.g.x, ToRead(s, k.g.x, n);
      AccountFresh(s, x, r, k.gross, k.fees, true);
      var y := PolledTo(s, x, n, e);
      PollIsRead(s, x, n, e);
      FillsOfNone(y.fills, s.cid(r.ep, StopLeg));
      hide FillsOf;
      hide Account;
      hide PolledTo;
      hide InFills;
      hide Good;
      hide FreshAfter;
      MakerAfter(s, x, r, ts, e);
      if Rests(x, s.cid(r.ep, MakerLeg)) && forall t :: t in ts ==> Spares(x, s.cid(r.ep, MakerLeg), t) {
        StopSawAll(s, x, r, k.gross, k.fees, ts, e.d, e.now);
      }
    }
  }

  lemma PollIsRead(s: Setup, x: Exchange, n: nat, e: Env)
    requires Good(x)
    ensures PolledTo(s, x, n, e) == SawAll(x, ToRead(s, x, n), e.d, e.now, s.fees)
  {
    SawNothing(x, e.d, e.now, s.fees);
    hide Good;
    hide SawAll;
    hide TradesAfter;
    hide OpenCount;
    hide Since;
  }

  lemma MakerAfter(s: Setup, x: Exchange, r: Rec, ts: seq<Print>, e: Env)
    requires Good(x) && DistinctIds(s)
    ensures var y, id := SawAll(x, ts, e.d, e.now, s.fees), s.cid(r.ep, MakerLeg);
            Rests(y, id) <==> Rests(x, id) && forall t :: t in ts ==> Spares(x, id, t)
  {
    var y, id := SawAll(x, ts, e.d, e.now, s.fees), s.cid(r.ep, MakerLeg);
    SawAllOpen(x, ts, e.d, e.now, s.fees);
    hide SawAll;
    hide Counts;
    if Rests(y, id) {
      var i :| 0 <= i < |y.orders| && y.orders[i].id == id && IsOpen(y.orders[i]);
      assert Answered(ts, x.orders[i], y.orders[i]) && IsOpen(x.orders[i]);
      forall t | t in ts ensures Spares(x, id, t) {
        forall j | 0 <= j < |x.orders| && x.orders[j].id == id ensures !Counts(x.orders[j], t) {
          assert j == i;
        }
      }
    }
    if Rests(x, id) && forall t :: t in ts ==> Spares(x, id, t) {
      var i :| 0 <= i < |x.orders| && x.orders[i].id == id && IsOpen(x.orders[i]);
      forall t | t in ts ensures !Counts(x.orders[i], t) {
        assert Spares(x, id, t);
      }
      assert Answered(ts, x.orders[i], y.orders[i]) && IsOpen(y.orders[i]);
    }
  }
}
