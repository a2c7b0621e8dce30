/** One symbol's record and ledger entries against its broker's orders and fills, and what every poll and
    every cancellation keeps.  An exit order can outlive its record; the accounts say what it then does. */
module Accounts {
  import opened Basics
  import opened Positions
  import opened Paper
  import opened Ledger

  // ---- whose short a purchase buys back -------------------------------------

  /** The sale that opened the short the fills have led to. */
  function LastSale(fills: seq<Fill>): Option<string> {
    if fills == [] then None
    else if fills[|fills| - 1].side == Sell then Some(fills[|fills| - 1].id)
    else LastSale(fills[..|fills| - 1])
  }

  /** `id` is an order of the signal whose entry was the sale `sold`. */
  ghost predicate SameSignal(s: Setup, sold: Option<string>, id: string) {
    exists e, leg :: sold == Some(s.cid(e, EntryLeg)) && id == s.cid(e, leg)
  }

  /** A purchase by another signal's order than the one whose short it buys back. */
  ghost predicate Stray(s: Setup, before: seq<Fill>, f: Fill) {
    f.side == Buy && !SameSignal(s, LastSale(before), f.id)
  }

  ghost predicate AnyStray(s: Setup, fills: seq<Fill>) {
    fills != [] && (AnyStray(s, fills[..|fills| - 1]) || Stray(s, fills[..|fills| - 1], fills[|fills| - 1]))
  }

  /** What stray purchases earned on the shorts they bought back. */
  ghost function StrayGain(s: Setup, fills: seq<Fill>): real
    requires RealFills(fills)
  {
    if fills == [] then 0.0
    else
      var before, f := fills[..|fills| - 1], fills[|fills| - 1];
      StrayGain(s, before) + if Stray(s, before, f) then GrossOf(PositionOf(before).entry, f.price, f.qty) else 0.0
  }

  ghost function StrayFees(s: Setup, fills: seq<Fill>): real {
    if fills == [] then 0.0
    else
      var before, f := fills[..|fills| - 1], fills[|fills| - 1];
      StrayFees(s, before) + if Stray(s, before, f) then f.fee else 0.0
  }

  ghost predicate InFills(fills: seq<Fill>, id: string) {
    exists f :: f in fills && f.id == id
  }

  /** One signal has had both its emergency stop and its maker exit filled. */
  ghost predicate BothFilled(s: Setup, fills: seq<Fill>) {
    exists e :: InFills(fills, s.cid(e, StopLeg)) && InFills(fills, s.cid(e, MakerLeg))
  }

  lemma {:induction false} NoStrayNoGain(s: Setup, fills: seq<Fill>)
    requires RealFills(fills) && !AnyStray(s, fills)
    ensures StrayGain(s, fills) == 0.0 && StrayFees(s, fills) == 0.0
  {
    if fills == [] {
    } else {
      NoStrayNoGain(s, fills[..|fills| - 1]);
    }
  }

  lemma {:induction false} FillsOfNone(fills: seq<Fill>, id: string)
    ensures FillsOf(fills, id) == [] <==> !InFills(fills, id)
  {
    if fills == [] {
    } else {
      var before := fills[..|fills| - 1];
      FillsOfNone(before, id);
      assert fills == before + [fills[|fills| - 1]];
    }
  }

  /** One more fill, in all these respects. */
  lemma FillAdded(s: Setup, fills: seq<Fill>, f: Fill)
    requires RealFills(fills) && f.qty > 0.0
    ensures var more := fills + [f];
            && LastSale(more) == (if f.side == Sell then Some(f.id) else LastSale(fills))
            && (AnyStray(s, more) <==> AnyStray(s, fills) || Stray(s, fills, f))
            && RealFills(more)
            && StrayGain(s, more) == StrayGain(s, fills)
                 + (if Stray(s, fills, f) then GrossOf(PositionOf(fills).entry, f.price, f.qty) else 0.0)
            && StrayFees(s, more) == StrayFees(s, fills) + (if Stray(s, fills, f) then f.fee else 0.0)
    ensures forall id :: InFills(fills + [f], id) <==> InFills(fills, id) || f.id == id
    ensures forall id :: FillsOf(fills + [f], id) == FillsOf(fills, id) + if f.id == id then [f] else []
  {
    hide GrossOf;
    hide Stray;
    var more := fills + [f];
    assert more[..|more| - 1] == fills;
    forall id ensures FillsOf(more, id) == FillsOf(fills, id) + if f.id == id then [f] else [] {
      FillsOfOne(fills, f, id);
    }
    assert f in more;
    forall id | InFills(fills, id) ensures InFills(more, id) {
      var g :| g in fills && g.id == id;
      assert g in more;
    }
  }

  // ---- orders and ids -------------------------------------------------------

  /** No order and no fill has this id. */
  ghost predicate Unused(x: Exchange, id: string) {
    && (forall i :: 0 <= i < |x.orders| ==> x.orders[i].id != id)
    && (forall f :: f in x.fills ==> f.id != id)
  }

  /** Nothing under this id is open. */
  ghost predicate Quiet(x: Exchange, id: string) {
    forall i :: 0 <= i < |x.orders| && x.orders[i].id == id ==> !IsOpen(x.orders[i])
  }

  /** Nothing under this id is open or has filled. */
  ghost predicate Idle(x: Exchange, id: string) {
    forall i :: 0 <= i < |x.orders| && x.orders[i].id == id ==> !IsOpen(x.orders[i]) && x.orders[i].status != Filled
  }

  /** Signal `ep` has not been traded yet. */
  ghost predicate Fresh(s: Setup, x: Exchange, ep: int) {
    forall leg :: Unused(x, s.cid(ep, leg))
  }

  ghost predicate FreshAfter(s: Setup, x: Exchange, ep: int) {
    forall e :: e > ep ==> Fresh(s, x, e)
  }

  lemma OneSignal(s: Setup, e: int, id: string)
    requires DistinctIds(s)
    ensures SameSignal(s, Some(s.cid(e, EntryLeg)), id) <==> exists leg :: id == s.cid(e, leg)
  {
    if leg :| id == s.cid(e, leg) {
      assert Some(s.cid(e, EntryLeg)) == Some(s.cid(e, EntryLeg)) && id == s.cid(e, leg);
    }
  }

  // ---- the account ----------------------------------------------------------

  /** One of the open record's own exit orders. */
  ghost predicate OwnExit(s: Setup, r: Rec, o: Order) {
    (o.id == s.cid(r.ep, StopLeg) || o.id == s.cid(r.ep, MakerLeg)) && o.qty == r.qty
  }

  /** An exit order that outlived its record: a maker exit whose record the stop had closed, or a stop
      after such a maker exit had bought back its short.  It is too large for what is left of the short
      of its own signal. */
  ghost predicate Leftover(s: Setup, x: Exchange, o: Order) {
    && ((exists e :: o.id == s.cid(e, MakerLeg) && InFills(x.fills, s.cid(e, StopLeg)))
        || ((exists e :: o.id == s.cid(e, StopLeg)) && BothFilled(s, x.fills)))
    && (o.qty > -x.pos.qty || !SameSignal(s, LastSale(x.fills), o.id))
  }

  /** Resting orders buy, reduce, and belong to the open record or outlived theirs. */
  ghost predicate Explained(s: Setup, x: Exchange, rec: Option<Rec>, clean: bool, o: Order) {
    && o.side == Buy && o.reduceOnly && o.kind != Market
    && ((rec.Some? && OwnExit(s, rec.value, o)) || (!clean && Leftover(s, x, o)))
  }

  ghost predicate OrdersOk(s: Setup, x: Exchange, rec: Option<Rec>, clean: bool) {
    forall i :: 0 <= i < |x.orders| && IsOpen(x.orders[i]) ==> Explained(s, x, rec, clean, x.orders[i])
  }

  /** The broker realized and charged what is booked, and what stray purchases added. */
  ghost predicate Balanced(s: Setup, x: Exchange, gross: real, fees: real) {
    && RealFills(x.fills)
    && x.pos.realized == gross + StrayGain(s, x.fills) && x.pos.fees == fees + StrayFees(s, x.fills)
  }

  /** The position is what is left of the record's short. */
  ghost predicate Short(s: Setup, x: Exchange, r: Rec) {
    && LastSale(x.fills) == Some(s.cid(r.ep, EntryLeg))
    && -r.qty <= x.pos.qty <= 0.0 && (x.pos.qty != 0.0 ==> x.pos.entry == r.entryPx)
  }

  /** None of the record's own orders has bought anything back. */
  ghost predicate Held(s: Setup, x: Exchange, r: Rec, gross: real, fees: real) {
    && Balanced(s, x, gross, fees + r.entryFee)
    && !InFills(x.fills, s.cid(r.ep, StopLeg)) && !InFills(x.fills, s.cid(r.ep, MakerLeg))
    && (x.pos.qty == -r.qty || BothFilled(s, x.fills))
  }

  /** One of the record's exit orders has bought it all back, in one fill that is not booked yet. */
  ghost predicate BoughtBack(s: Setup, x: Exchange, r: Rec, gross: real, fees: real, via: Leg, f: Fill) {
    && (via == StopLeg || via == MakerLeg) && f.qty == r.qty && x.pos.qty == 0.0
    && Balanced(s, x, gross + GrossOf(r.entryPx, f.price, r.qty), fees + (r.entryFee + f.fee))
    && FillsOf(x.fills, s.cid(r.ep, via)) == [f] && Quiet(x, s.cid(r.ep, via))
    && !InFills(x.fills, s.cid(r.ep, if via == StopLeg then MakerLeg else StopLeg))
  }

  ghost predicate Covered(s: Setup, x: Exchange, r: Rec, gross: real, fees: real) {
    Held(s, x, r, gross, fees) || exists via, f :: BoughtBack(s, x, r, gross, fees, via, f)
  }

  /** The record knows its stop order, and its maker order if that one ever rested. */
  ghost predicate KnowsOrders(s: Setup, x: Exchange, r: Rec) {
    && (r.stopId.Some? ==> r.stopId.value == s.cid(r.ep, StopLeg))
    && (r.makerId.Some? ==> r.makerId.value == s.cid(r.ep, MakerLeg))
    && (r.stopId.None? ==> Quiet(x, s.cid(r.ep, StopLeg)) && !InFills(x.fills, s.cid(r.ep, StopLeg)))
    && (r.makerId.None? ==> Idle(x, s.cid(r.ep, MakerLeg)) && !InFills(x.fills, s.cid(r.ep, MakerLeg)))
  }

  ghost predicate OpenAccount(s: Setup, x: Exchange, r: Rec, gross: real, fees: real) {
    r.qty > 0.0 && Short(s, x, r) && KnowsOrders(s, x, r) && Covered(s, x, r, gross, fees) && FreshAfter(s, x, r.ep)
  }

  ghost predicate ClosedAccount(s: Setup, x: Exchange, gross: real, fees: real, clean: bool) {
    x.pos.qty <= 0.0 && (clean ==> x.pos.qty == 0.0) && Balanced(s, x, gross, fees)
  }

  /** Broker and ledger of one symbol; `rec` is its open record.  While nothing has outlived its record
      the account is `clean`. */
  ghost predicate Account(s: Setup, x: Exchange, rec: Option<Rec>, gross: real, fees: real, clean: bool) {
    && OrdersOk(s, x, rec, clean)
    && (BothFilled(s, x.fills) <==> AnyStray(s, x.fills)) && (clean ==> !AnyStray(s, x.fills))
    && match rec
       case None => ClosedAccount(s, x, gross, fees, clean)
       case Some(r) => OpenAccount(s, x, r, gross, fees)
  }

  /** No id is new, no fill is lost, nothing closed is open again or fills. */
  ghost predicate Onward(x: Exchange, y: Exchange) {
    && (forall id :: Unused(x, id) ==> Unused(y, id))
    && x.fills <= y.fills
    && forall id :: Quiet(x, id) ==> Quiet(y, id) && (InFills(y.fills, id) ==> InFills(x.fills, id))
  }

  lemma OnwardTwice(x: Exchange, y: Exchange, z: Exchange)
    requires Onward(x, y) && Onward(y, z)
    ensures Onward(x, z)
  {
    hide Quiet;
    hide Unused;
    hide InFills;
  }

  lemma OnwardSame(x: Exchange, y: Exchange)
    requires y.orders == x.orders && y.fills == x.fills
    ensures Onward(x, y)
  {
  }

  lemma StillFresh(s: Setup, x: Exchange, y: Exchange, ep: int)
    requires FreshAfter(s, x, ep) && Onward(x, y)
    ensures FreshAfter(s, y, ep)
  {
    hide Unused;
    hide Quiet;
    forall e | e > ep ensures Fresh(s, y, e) {
      assert Fresh(s, x, e);
    }
  }

  lemma OnwardUnused(x: Exchange, y: Exchange, id: string)
    requires Onward(x, y) && Unused(x, id)
    ensures Unused(y, id)
  {
  }

  lemma OnwardQuiet(x: Exchange, y: Exchange, id: string)
    requires Onward(x, y) && Quiet(x, id)
    ensures Quiet(y, id) && (InFills(y.fills, id) ==> InFills(x.fills, id))
  {
  }

  // ---- what happens to one order --------------------------------------------

  /** Orders that are left alone, or closed without a fill. */
  ghost predicate OnlyCloses(x: Exchange, y: Exchange) {
    && y.fills == x.fills && y.pos == x.pos && |y.orders| == |x.orders|
    && forall i :: 0 <= i < |x.orders| ==>
         y.orders[i] == x.orders[i]
         || (y.orders[i].id == x.orders[i].id && !IsOpen(y.orders[i]) && y.orders[i].status != Filled)
  }

  lemma ClosingOnward(x: Exchange, y: Exchange)
    requires OnlyCloses(x, y)
    ensures Onward(x, y) && forall id :: Idle(x, id) ==> Idle(y, id)
  {
  }

  lemma ClosingKeeps(s: Setup, x: Exchange, y: Exchange, rec: Option<Rec>, gross: real, fees: real, clean: bool)
    requires OnlyCloses(x, y) && Account(s, x, rec, gross, fees, clean)
    ensures Account(s, y, rec, gross, fees, clean)
  {
    ClosingOnward(x, y);
    hide Stray;
    hide InFills;
    hide FillsOf;
    hide Unused;
    forall i | 0 <= i < |y.orders| && IsOpen(y.orders[i]) ensures Explained(s, y, rec, clean, y.orders[i]) {
      assert y.orders[i] == x.orders[i] && Explained(s, x, rec, clean, x.orders[i]);
    }
    if rec.Some? {
      var r := rec.value;
      StillFresh(s, x, y, r.ep);
      hide FreshAfter;
      if !Held(s, x, r, gross, fees) {
        var via, f :| BoughtBack(s, x, r, gross, fees, via, f);
        assert BoughtBack(s, y, r, gross, fees, via, f);
      }
    }
  }

  /** Order `i` bought its whole quantity, no more than the short. */
  ghost predicate Bought(x: Exchange, y: Exchange, i: nat, f: Fill) {
    && i < |x.orders| == |y.orders| && IsOpen(x.orders[i]) && !IsOpen(y.orders[i])
    && y.orders[i].id == x.orders[i].id == f.id
      && (forall k :: 0 <= k < |x.orders| && k != i ==> y.orders[k] == x.orders[k])
    && y.fills == x.fills + [f] && f.side == Buy && f.qty == x.orders[i].qty && 0.0 < f.qty <= -x.pos.qty
    && y.pos == Pos(x.pos.qty + f.qty, if x.pos.qty + f.qty == 0.0 then 0.0 else x.pos.entry,
                    x.pos.realized + GrossOf(x.pos.entry, f.price, f.qty), x.pos.fees + f.fee)
  }

  lemma CoverPart(p: Pos, qty: real, price: real, fee: real)
    requires 0.0 < qty <= -p.qty
    ensures Applied(p, Buy, qty, price, fee)
         == Pos(p.qty + qty, if p.qty + qty == 0.0 then 0.0 else p.entry,
                p.realized + GrossOf(p.entry, price, qty), p.fees + fee)
  {
    assert qty * (price - p.entry) * -1.0 == (p.entry - price) * qty;
  }

  lemma OrderBuys(x: Exchange, i: nat, price: real, liq: Liquidity, ts: int, fees: Fees) returns (f: Fill)
    requires Good(x) && i < |x.orders| && IsOpen(x.orders[i])
    requires x.orders[i].side == Buy && x.orders[i].reduceOnly && ReduceOk(x.pos.qty, x.orders[i])
    ensures Bought(x, Executed(x, i, price, liq, ts, fees), i, f)
  {
    var o := x.orders[i];
    assert WholeOrder(o);
    hide Good;
    hide FeeOf;
    hide Notional;
    f := Fill(o.id, ts, Buy, o.qty, price, FeeOf(fees, Notional(o.qty, price), liq), liq);
    CoverPart(x.pos, o.qty, price, f.fee);
    hide Applied;
    hide GrossOf;
  }

  lemma BoughtOnward(x: Exchange, y: Exchange, i: nat, f: Fill)
    requires Bought(x, y, i, f)
    ensures Onward(x, y)
  {
    hide GrossOf;
    forall id | Quiet(x, id) ensures Quiet(y, id) && (InFills(y.fills, id) ==> InFills(x.fills, id)) {
      assert id != f.id;
    }
  }

  /** The first fill of a signal's exit orders does not make both filled. */
  lemma OwnKeepsBoth(s: Setup, fills: seq<Fill>, r: Rec, f: Fill)
    requires DistinctIds(s) && (f.id == s.cid(r.ep, StopLeg) || f.id == s.cid(r.ep, MakerLeg))
    requires !InFills(fills, s.cid(r.ep, StopLeg)) && !InFills(fills, s.cid(r.ep, MakerLeg))
    requires forall id :: InFills(fills + [f], id) <==> InFills(fills, id) || f.id == id
    ensures BothFilled(s, fills + [f]) <==> BothFilled(s, fills)
  {
    hide InFills;
    if e :| InFills(fills + [f], s.cid(e, StopLeg)) && InFills(fills + [f], s.cid(e, MakerLeg)) {
      assert e != r.ep;
      assert InFills(fills, s.cid(e, StopLeg)) && InFills(fills, s.cid(e, MakerLeg));
    }
    if e :| InFills(fills, s.cid(e, StopLeg)) && InFills(fills, s.cid(e, MakerLeg)) {
      assert InFills(fills + [f], s.cid(e, StopLeg)) && InFills(fills + [f], s.cid(e, MakerLeg));
    }
  }

  lemma MoreFilled(s: Setup, fills: seq<Fill>, more: seq<Fill>)
    requires fills <= more
    ensures forall id :: InFills(fills, id) ==> InFills(more, id)
    ensures BothFilled(s, fills) ==> BothFilled(s, more)
  {
    forall id | InFills(fills, id) ensures InFills(more, id) {
      var f :| f in fills && f.id == id;
      assert f in more;
    }
    hide InFills;
  }

  /** What explains the other resting orders still does. */
  lemma OthersStay(s: Setup, x: Exchange, y: Exchange, rec: Option<Rec>, clean: bool, i: nat, f: Fill)
    requires OrdersOk(s, x, rec, clean) && Bought(x, y, i, f) && LastSale(y.fills) == LastSale(x.fills)
    ensures OrdersOk(s, y, rec, clean)
  {
    MoreFilled(s, x.fills, y.fills);
    hide InFills;
    hide BothFilled;
    hide GrossOf;
    hide SameSignal;
    forall k | 0 <= k < |y.orders| && IsOpen(y.orders[k]) ensures Explained(s, y, rec, clean, y.orders[k]) {
      assert k != i && y.orders[k] == x.orders[k] && Explained(s, x, rec, clean, x.orders[k]);
    }
  }

  lemma OwnBooks(s: Setup, x: Exchange, y: Exchange, r: Rec, gross: real, fees: real, i: nat, f: Fill)
    requires DistinctIds(s) && Bought(x, y, i, f) && r.qty > 0.0
    requires forall a, b :: 0 <= a < b < |x.orders| ==> x.orders[a].id != x.orders[b].id
    requires Short(s, x, r) && KnowsOrders(s, x, r) && Held(s, x, r, gross, fees) && OwnExit(s, r, x.orders[i])
    requires FreshAfter(s, y, r.ep) && LastSale(y.fills) == LastSale(x.fills) && RealFills(y.fills)
    requires StrayGain(s, y.fills) == StrayGain(s, x.fills) && StrayFees(s, y.fills) == StrayFees(s, x.fills)
    requires forall id :: InFills(y.fills, id) <==> InFills(x.fills, id) || f.id == id
    requires forall id :: FillsOf(y.fills, id) == FillsOf(x.fills, id) + if f.id == id then [f] else []
    ensures OpenAccount(s, y, r, gross, fees)
  {
    hide FreshAfter;
    hide StrayGain;
    hide StrayFees;
    hide RealFills;
    hide GrossOf;
    var via := if f.id == s.cid(r.ep, StopLeg) then StopLeg else MakerLeg;
    FillsOfNone(x.fills, f.id);
    hide FillsOf;
    hide InFills;
    assert Quiet(y, f.id);
    assert BoughtBack(s, y, r, gross, fees, via, f);
    assert KnowsOrders(s, y, r);
  }

  /** An order of the open record buys the short back: nothing had reduced it before. */
  lemma OwnBuys(s: Setup, x: Exchange, y: Exchange, r: Rec, gross: real, fees: real, clean: bool, i: nat, f: Fill)
    requires DistinctIds(s) && Good(x) && Bought(x, y, i, f) && Account(s, x, Some(r), gross, fees, clean)
    requires OwnExit(s, r, x.orders[i])
    ensures Account(s, y, Some(r), gross, fees, clean)
  {
    assert Balanced(s, x, gross, fees + r.entryFee) && Held(s, x, r, gross, fees);
    hide RealFills;
    FillAdded(s, x.fills, f);
    OneSignal(s, r.ep, f.id);
    assert !Stray(s, x.fills, f);
    BoughtOnward(x, y, i, f);
    StillFresh(s, x, y, r.ep);
    hide FreshAfter;
    hide Unused;
    hide Stray;
    hide Good;
    hide GrossOf;
    OwnKeepsBoth(s, x.fills, r, f);
    OthersStay(s, x, y, Some(r), clean, i, f);
    hide OrdersOk;
    OwnBooks(s, x, y, r, gross, fees, i, f);
  }

  /** A leftover order buys: a stray purchase, and the second exit fill of its own signal. */
  lemma LeftoverBuys(s: Setup, x: Exchange, y: Exchange, rec: Option<Rec>, gross: real, fees: real, i: nat, f: Fill)
    requires DistinctIds(s) && Good(x) && Bought(x, y, i, f) && Account(s, x, rec, gross, fees, false)
    requires Leftover(s, x, x.orders[i])
    ensures Account(s, y, rec, gross, fees, false)
  {
    assert RealFills(x.fills);
    hide RealFills;
    FillAdded(s, x.fills, f);
    assert Stray(s, x.fills, f);
    BoughtOnward(x, y, i, f);
    hide Stray;
    hide Good;
    hide GrossOf;
    LeftoverCompletes(s, x, y, x.orders[i], f);
    OthersStay(s, x, y, rec, false, i, f);
    hide OrdersOk;
    hide InFills;
    hide FillsOf;
    if rec.Some? {
      StillFresh(s, x, y, rec.value.ep);
      hide FreshAfter;
      hide Onward;
      LeftoverKeepsOpen(s, x, y, rec.value, gross, fees, i, f);
    }
    hide OpenAccount;
  }

  lemma LeftoverKeepsOpen(s: Setup, x: Exchange, y: Exchange, r: Rec, gross: real, fees: real, i: nat, f: Fill)
    requires DistinctIds(s) && Bought(x, y, i, f) && OpenAccount(s, x, r, gross, fees) && FreshAfter(s, y, r.ep)
    requires LastSale(y.fills) == LastSale(x.fills) && !SameSignal(s, LastSale(x.fills), f.id)
    requires RealFills(y.fills) && BothFilled(s, y.fills) && RealFills(x.fills)
    requires StrayGain(s, y.fills) == StrayGain(s, x.fills) + GrossOf(x.pos.entry, f.price, f.qty)
    requires StrayFees(s, y.fills) == StrayFees(s, x.fills) + f.fee
    requires forall id :: InFills(y.fills, id) <==> InFills(x.fills, id) || f.id == id
    ensures OpenAccount(s, y, r, gross, fees)
  {
    OneSignal(s, r.ep, f.id);
    hide FreshAfter;
    hide FillsOf;
    hide InFills;
    hide BothFilled;
    hide GrossOf;
    hide RealFills;
    hide StrayGain;
    hide StrayFees;
    assert f.id != s.cid(r.ep, StopLeg) && f.id != s.cid(r.ep, MakerLeg);
    assert x.pos.qty != 0.0 && Held(s, x, r, gross, fees);
  }

  lemma LeftoverCompletes(s: Setup, x: Exchange, y: Exchange, o: Order, f: Fill)
    requires Leftover(s, x, o) && f.id == o.id
    requires y.fills == x.fills + [f]
    ensures BothFilled(s, y.fills)
  {
    MoreFilled(s, x.fills, y.fills);
    assert f in y.fills;
    assert InFills(y.fills, f.id);
    hide InFills;
    if !BothFilled(s, x.fills) {
      var e :| o.id == s.cid(e, MakerLeg) && InFills(x.fills, s.cid(e, StopLeg));
      assert InFills(y.fills, s.cid(e, StopLeg)) && InFills(y.fills, s.cid(e, MakerLeg));
    }
  }

  // ---- polls and cancellations ----------------------------------------------

  /** Kept together by everything that only reads trades or cancels. */
  ghost predicate Kept(s: Setup, x: Exchange, y: Exchange, rec: Option<Rec>, gross: real, fees: real, clean: bool) {
    Account(s, y, rec, gross, fees, clean) && Onward(x, y) && x.pos.qty <= y.pos.qty
  }

  lemma KeptTwice(s: Setup, x: Exchange, y: Exchange, z: Exchange, rec: Option<Rec>, gross: real, fees: real,
                  clean: bool)
    requires Kept(s, x, y, rec, gross, fees, clean) && Kept(s, y, z, rec, gross, fees, clean)
    ensures Kept(s, x, z, rec, gross, fees, clean)
  {
    hide Account;
    OnwardTwice(x, y, z);
    hide Onward;
  }

  lemma ClosingKept(s: Setup, x: Exchange, y: Exchange, rec: Option<Rec>, gross: real, fees: real, clean: bool)
    requires OnlyCloses(x, y) && Account(s, x, rec, gross, fees, clean)
    ensures Kept(s, x, y, rec, gross, fees, clean)
  {
    ClosingKeeps(s, x, y, rec, gross, fees, clean);
    ClosingOnward(x, y);
    hide Account;
    hide Onward;
  }

  /** A resting order that may fill does. */
  lemma FillKept(s: Setup, x: Exchange, rec: Option<Rec>, gross: real, fees: real, clean: bool,
                 i: nat, price: real, liq: Liquidity, ts: int)
    requires DistinctIds(s) && Good(x) && i < |x.orders| && IsOpen(x.orders[i]) && ReduceOk(x.pos.qty, x.orders[i])
    requires Account(s, x, rec, gross, fees, clean)
    ensures Kept(s, x, Executed(x, i, price, liq, ts, s.fees), rec, gross, fees, clean)
  {
    var o, y := x.orders[i], Executed(x, i, price, liq, ts, s.fees);
    assert Explained(s, x, rec, clean, o);
    var f := OrderBuys(x, i, price, liq, ts, s.fees);
    hide Executed;
    hide Good;
    hide DistinctIds;
    hide ReduceOk;
    hide Leftover;
    hide OwnExit;
    BoughtOnward(x, y, i, f);
    if rec.Some? && OwnExit(s, rec.value, o) {
      hide Account;
      OwnBuys(s, x, y, rec.value, gross, fees, clean, i, f);
    } else {
      hide Account;
      LeftoverBuys(s, x, y, rec, gross, fees, i, f);
    }
    hide Onward;
    hide GrossOf;
  }

  lemma MetKept(s: Setup, x: Exchange, rec: Option<Rec>, gross: real, fees: real, clean: bool,
                i: nat, t: Print, d: Levels, now: int)
    requires DistinctIds(s) && Good(x) && i < |x.orders| && Account(s, x, rec, gross, fees, clean)
    ensures Kept(s, x, Met(x, i, t, d, now, s.fees), rec, gross, fees, clean)
  {
    assert WholeOrder(x.orders[i]);
    hide Good;
    hide DistinctIds;
    hide Account;
    hide Onward;
    hide Executed;
    hide MarketPrice;
    hide ReduceOk;
    var o := x.orders[i];
    var y := Touched(x, o, t);
    ClosingKept(s, x, x, rec, gross, fees, clean);
    ClosingKept(s, x, y, rec, gross, fees, clean);
    if IsOpen(o) && o.placedTs < t.ts && o.kind != Market
      && (if o.kind == Limit then Through(o, t) else Hit(o, t.price)) {
      if !ReduceOk(x.pos.qty, o) {
        ClosingKept(s, x, Closed(y, i, Expired), rec, gross, fees, clean);
      } else if o.kind == Limit {
        FillKept(s, y, rec, gross, fees, clean, i, o.price, Maker, t.ts);
        KeptTwice(s, x, y, Executed(y, i, o.price, Maker, t.ts, s.fees), rec, gross, fees, clean);
      } else {
        FillKept(s, y, rec, gross, fees, clean, i, MarketPrice(o, d), Taker, now);
        KeptTwice(s, x, y, Executed(y, i, MarketPrice(o, d), Taker, now, s.fees), rec, gross, fees, clean);
      }
    }
    hide Closed;
  }

  lemma {:induction false} MetUpToKept(s: Setup, x: Exchange, rec: Option<Rec>, gross: real, fees: real, clean: bool,
                                       i: nat, t: Print, d: Levels, now: int)
    requires DistinctIds(s) && Good(x) && i <= |x.orders| && Account(s, x, rec, gross, fees, clean)
    ensures Kept(s, x, MetUpTo(x, i, t, d, now, s.fees), rec, gross, fees, clean)
  {
    hide Good;
    hide DistinctIds;
    hide Account;
    hide Onward;
    hide Met;
    if i == 0 {
      ClosingKept(s, x, x, rec, gross, fees, clean);
    } else {
      var y := MetUpTo(x, i - 1, t, d, now, s.fees);
      MetUpToKept(s, x, rec, gross, fees, clean, i - 1, t, d, now);
      MetKept(s, y, rec, gross, fees, clean, i - 1, t, d, now);
      KeptTwice(s, x, y, Met(y, i - 1, t, d, now, s.fees), rec, gross, fees, clean);
    }
  }

  lemma {:induction false} SawAllKept(s: Setup, x: Exchange, rec: Option<Rec>, gross: real, fees: real, clean: bool,
                                      ts: seq<Print>, d: Levels, now: int)
    requires DistinctIds(s) && Good(x) && Account(s, x, rec, gross, fees, clean)
    ensures Kept(s, x, SawAll(x, ts, d, now, s.fees), rec, gross, fees, clean)
  {
    hide DistinctIds;
    hide Account;
    hide Onward;
    hide MetUpTo;
    if ts == [] {
      ClosingKept(s, x, x, rec, gross, fees, clean);
    } else {
      var t := ts[|ts| - 1];
      var y := SawAll(x, ts[..|ts| - 1], d, now, s.fees);
      var z := y.(lastAgg := Some(t.agg), lastTs := Some(t.ts));
      assert Good(z);
      hide Good;
      SawAllKept(s, x, rec, gross, fees, clean, ts[..|ts| - 1], d, now);
      ClosingKept(s, y, z, rec, gross, fees, clean);
      KeptTwice(s, x, y, z, rec, gross, fees, clean);
      MetUpToKept(s, z, rec, gross, fees, clean, |z.orders|, t, d, now);
      KeptTwice(s, x, z, MetUpTo(z, |z.orders|, t, d, now, s.fees), rec, gross, fees, clean);
    }
  }

  /** A poll, at any time and of any part of the tape. */
  lemma PollKept(s: Setup, x: Exchange, rec: Option<Rec>, gross: real, fees: real, clean: bool, n: nat, e: Env)
    requires DistinctIds(s) && Good(x) && Account(s, x, rec, gross, fees, clean)
    ensures Kept(s, x, PolledTo(s, x, n, e), rec, gross, fees, clean)
  {
    hide Good;
    hide DistinctIds;
    hide Account;
    hide Onward;
    hide SawAll;
    if OpenCount(x.orders) > 0 {
      SawAllKept(s, x, rec, gross, fees, clean,
                 TradesAfter(s.tape[..if n < |s.tape| then n else |s.tape|], x.lastAgg, Since(x)), e.d, e.now);
    } else {
      ClosingKept(s, x, x, rec, gross, fees, clean);
    }
  }

  lemma CancelKept(s: Setup, x: Exchange, rec: Option<Rec>, gross: real, fees: real, clean: bool, id: Option<string>)
    requires Good(x) && Account(s, x, rec, gross, fees, clean)
    ensures var y := Without(x, id);
            && Kept(s, x, y, rec, gross, fees, clean) && y.fills == x.fills && y.pos == x.pos
            && (id.Some? ==> Quiet(y, id.value))
  {
    hide Account;
    assert OnlyCloses(x, Without(x, id));
    ClosingKept(s, x, Without(x, id), rec, gross, fees, clean);
    hide Kept;
  }

  // ---- closing the record ---------------------------------------------------

  /** The buy-back is booked.  A maker exit that still rests is left over. */
  lemma Booked(s: Setup, x: Exchange, r: Rec, gross: real, fees: real, clean: bool, via: Leg, f: Fill)
    requires Account(s, x, Some(r), gross, fees, clean) && BoughtBack(s, x, r, gross, fees, via, f)
    requires Quiet(x, s.cid(r.ep, StopLeg)) && (Quiet(x, s.cid(r.ep, MakerLeg)) || via == StopLeg)
    ensures Account(s, x, None, gross + GrossOf(r.entryPx, f.price, r.qty), fees + (r.entryFee + f.fee),
                    clean && Quiet(x, s.cid(r.ep, MakerLeg)))
  {
    FillsOfNone(x.fills, s.cid(r.ep, via));
    hide FillsOf;
    hide InFills;
    hide GrossOf;
    hide Stray;
    hide FreshAfter;
    var still := clean && Quiet(x, s.cid(r.ep, MakerLeg));
    forall i | 0 <= i < |x.orders| && IsOpen(x.orders[i]) ensures Explained(s, x, None, still, x.orders[i]) {
      assert Explained(s, x, Some(r), clean, x.orders[i]);
    }
  }

  /** Another signal's order has bought back some of the short: the record is booked without a result,
      and its stop is left over. */
  lemma BookedAsNothing(s: Setup, x: Exchange, r: Rec, gross: real, fees: real, clean: bool)
    requires Account(s, x, Some(r), gross, fees, clean) && Held(s, x, r, gross, fees)
    requires -r.qty < x.pos.qty && Quiet(x, s.cid(r.ep, MakerLeg))
    ensures !clean
    ensures Account(s, x, None, gross + GrossOf(r.entryPx, r.entryPx, r.qty), fees + (r.entryFee + 0.0), false)
  {
    hide InFills;
    hide Stray;
    hide FreshAfter;
    assert (r.entryPx - r.entryPx) * r.qty == 0.0;
    forall i | 0 <= i < |x.orders| && IsOpen(x.orders[i]) ensures Explained(s, x, None, false, x.orders[i]) {
      assert Explained(s, x, Some(r), clean, x.orders[i]);
    }
  }

  /** The fills of an exit leg are one fill, so averages and sums are that fill's own. */
  lemma ExitFill(s: Setup, x: Exchange, r: Rec, gross: real, fees: real, clean: bool, via: Leg)
    requires Good(x) && Account(s, x, Some(r), gross, fees, clean)
    requires (via == StopLeg || via == MakerLeg) && FillsOf(x.fills, s.cid(r.ep, via)) != []
    ensures var fills := FillsOf(x.fills, s.cid(r.ep, via));
            && BoughtBack(s, x, r, gross, fees, via, fills[0])
            && QtySum(fills) == r.qty && Vwap(fills) == fills[0].price && FeeSum(fills) == fills[0].fee
  {
    FillsOfNone(x.fills, s.cid(r.ep, via));
    hide Good;
    assert !Held(s, x, r, gross, fees);
    var v, f :| BoughtBack(s, x, r, gross, fees, v, f);
    hide FillsOf;
    OneFill(f);
  }

  // ---- one more order -------------------------------------------------------

  /** One more order, under an id of a signal up to `ep`. */
  lemma OneMoreOrder(s: Setup, x: Exchange, y: Exchange, o: Order, ep: int, leg: Leg)
    requires DistinctIds(s) && y.orders == x.orders + [o] && y.fills == x.fills && o.id == s.cid(ep, leg)
    ensures FreshAfter(s, x, ep) ==> FreshAfter(s, y, ep)
    ensures forall id :: id != o.id && Quiet(x, id) ==> Quiet(y, id)
    ensures forall id :: id != o.id && Idle(x, id) ==> Idle(y, id)
    ensures forall id :: id != o.id && Unused(x, id) ==> Unused(y, id)
    ensures y.orders[|x.orders|] == o && forall i :: 0 <= i < |x.orders| ==> y.orders[i] == x.orders[i]
  {
    if FreshAfter(s, x, ep) {
      forall e | e > ep ensures Fresh(s, y, e) {
        assert Fresh(s, x, e);
      }
    }
  }

  /** A closed order that filled nothing, under an id that nothing is known of. */
  lemma ClosedOrderJoins(s: Setup, x: Exchange, y: Exchange, o: Order, r: Rec, gross: real, fees: real, clean: bool)
    requires DistinctIds(s) && Account(s, x, Some(r), gross, fees, clean)
    requires y.orders == x.orders + [o] && y.fills == x.fills && y.pos == x.pos
    requires !IsOpen(o) && o.status != Filled && (o.id == s.cid(r.ep, ExitLeg) || o.id == s.cid(r.ep, MakerLeg))
    ensures Account(s, y, Some(r), gross, fees, clean)
  {
    OneMoreOrder(s, x, y, o, r.ep, if o.id == s.cid(r.ep, ExitLeg) then ExitLeg else MakerLeg);
    hide FreshAfter;
    hide Stray;
    hide InFills;
    hide Unused;
    hide FillsOf;
    hide GrossOf;
    forall i | 0 <= i < |y.orders| && IsOpen(y.orders[i]) ensures Explained(s, y, Some(r), clean, y.orders[i]) {
      assert y.orders[i] == x.orders[i] && Explained(s, x, Some(r), clean, x.orders[i]);
    }
    if !Held(s, x, r, gross, fees) {
      var via, f :| BoughtBack(s, x, r, gross, fees, via, f);
      assert BoughtBack(s, y, r, gross, fees, via, f);
    }
  }

  /** The record's maker exit rests. */
  lemma StillExplained(s: Setup, x: Exchange, y: Exchange, o: Order, r: Rec, clean: bool)
    requires r.makerId.None? && y.orders == x.orders + [o] && y.fills == x.fills && y.pos == x.pos
    requires o.side == Buy && o.reduceOnly && o.kind != Market && o.id == s.cid(r.ep, MakerLeg) && o.qty == r.qty
    requires forall i :: 0 <= i < |x.orders| && IsOpen(x.orders[i]) ==> Explained(s, x, Some(r), clean, x.orders[i])
    ensures var m := r.(makerId := Some(o.id));
            forall i :: 0 <= i < |y.orders| && IsOpen(y.orders[i]) ==> Explained(s, y, Some(m), clean, y.orders[i])
  {
    var m := r.(makerId := Some(o.id));
    assert OwnExit(s, m, o);
    forall i | 0 <= i < |y.orders| && IsOpen(y.orders[i]) ensures Explained(s, y, Some(m), clean, y.orders[i]) {
      if i < |x.orders| {
        assert y.orders[i] == x.orders[i] && Explained(s, x, Some(r), clean, x.orders[i]);
        assert Leftover(s, x, x.orders[i]) ==> Leftover(s, y, y.orders[i]);
      }
    }
  }

  lemma MakerJoins(s: Setup, x: Exchange, y: Exchange, o: Order, r: Rec, gross: real, fees: real, clean: bool)
    requires DistinctIds(s) && Account(s, x, Some(r), gross, fees, clean) && r.makerId.None?
    requires y.orders == x.orders + [o] && y.fills == x.fills && y.pos == x.pos
    requires o.side == Buy && o.reduceOnly && o.kind != Market && o.id == s.cid(r.ep, MakerLeg) && o.qty == r.qty
    ensures Account(s, y, Some(r.(makerId := Some(o.id))), gross, fees, clean)
  {
    var m := r.(makerId := Some(o.id));
    OneMoreOrder(s, x, y, o, r.ep, MakerLeg);
    hide FreshAfter;
    hide Stray;
    hide Unused;
    hide FillsOf;
    hide GrossOf;
    StillExplained(s, x, y, o, r, clean);
    hide Explained;
    hide OwnExit;
    if !Held(s, x, r, gross, fees) {
      var via, f :| BoughtBack(s, x, r, gross, fees, via, f);
      FillsOfNone(x.fills, f.id);
      FillsOfNone(x.fills, s.cid(r.ep, MakerLeg));
      assert via == StopLeg;
      assert BoughtBack(s, y, m, gross, fees, via, f);
    } else {
      assert Held(s, y, m, gross, fees);
    }
    hide InFills;
  }

  // ---- market orders --------------------------------------------------------

  /** A market order that may trade does so whole. */
  lemma MarketTrades(x: Exchange, side: Side, qty: real, id: string, reduceOnly: bool, e: Env, fees: Fees)
      returns (f: Fill)
    requires Good(x) && Unused(x, id) && qty > 0.0 && (reduceOnly ==> Reduces(x.pos.qty, side, qty))
    ensures var y := MarketPlaced(x, side, qty, id, reduceOnly, e.d, e.now, fees);
            && |y.orders| == |x.orders| + 1 && y.orders == x.orders + [y.orders[|x.orders|]]
            && y.orders[|x.orders|].id == id && !IsOpen(y.orders[|x.orders|])
            && y.fills == x.fills + [f] && f.id == id && f.side == side && f.qty == qty
            && y.pos == Applied(x.pos, side, qty, f.price, f.fee)
  {
    hide Good;
    hide Applied;
    hide FeeOf;
    hide Notional;
    hide MarketPrice;
    hide Reduces;
    assert IndexOf(x.orders, id).None?;
    var px := MarketPrice(NewOrder(id, side, Market, qty, 0.0, reduceOnly, e.now), e.d);
    f := Fill(id, e.now, side, qty, px, FeeOf(fees, Notional(qty, px), Taker), Taker);
  }

  /** A reduce-only market order larger than the short. */
  lemma MarketExpires(x: Exchange, qty: real, id: string, e: Env, fees: Fees)
    requires Good(x) && Unused(x, id) && qty > 0.0 && -qty < x.pos.qty <= 0.0
    ensures var y := MarketPlaced(x, Buy, qty, id, true, e.d, e.now, fees);
            && |y.orders| == |x.orders| + 1 && y.orders == x.orders + [y.orders[|x.orders|]]
            && y.orders[|x.orders|].id == id && y.orders[|x.orders|].status == Expired
            && y.fills == x.fills && y.pos == x.pos
            && (var reply := ReplyTo(y, id); reply.Got? && reply.order.status == Expired)
  {
    hide Good;
    assert IndexOf(x.orders, id).None?;
    NewestIndex(MarketPlaced(x, Buy, qty, id, true, e.d, e.now, fees).orders, |x.orders|);
    hide IndexOf;
  }

  // ---- the entry ------------------------------------------------------------

  lemma OpenShort(qty: real, entry: real, realized: real, paid: real, price: real, fee: real)
    requires qty > 0.0
    ensures Applied(Pos(0.0, entry, realized, paid), Sell, qty, price, fee) == Pos(-qty, price, realized, paid + fee)
  {
    assert entry * 0.0 == 0.0;
    assert price * qty / qty == price;
  }

  /** The account between a signal's market sale and its emergency stop. */
  ghost predicate JustSold(s: Setup, x: Exchange, ep: int, qty: real, gross: real, fees: real, clean: bool, f: Fill) {
    && f.qty == qty > 0.0 && x.pos.qty == -qty && x.pos.entry == f.price && Balanced(s, x, gross, fees + f.fee)
    && LastSale(x.fills) == Some(s.cid(ep, EntryLeg)) && FillsOf(x.fills, s.cid(ep, EntryLeg)) == [f]
    && OrdersOk(s, x, None, clean)
    && (BothFilled(s, x.fills) <==> AnyStray(s, x.fills)) && (clean ==> !AnyStray(s, x.fills))
    && FreshAfter(s, x, ep)
    && Unused(x, s.cid(ep, StopLeg)) && Unused(x, s.cid(ep, MakerLeg)) && Unused(x, s.cid(ep, ExitLeg))
  }

  lemma NotFilled(x: Exchange, id: string)
    requires Unused(x, id)
    ensures !InFills(x.fills, id) && FillsOf(x.fills, id) == []
  {
    FillsOfNone(x.fills, id);
  }

  /** Sold from flat: nothing resting belongs to the new short. */
  lemma SaleFills(s: Setup, x: Exchange, ep: int, qty: real, gross: real, fees: real, clean: bool, e: Env)
      returns (f: Fill)
    requires DistinctIds(s) && Good(x) && qty > 0.0 && x.pos.qty == 0.0
    requires Account(s, x, None, gross, fees, clean) && FreshAfter(s, x, ep - 1)
    ensures JustSold(s, MarketPlaced(x, Sell, qty, s.cid(ep, EntryLeg), false, e.d, e.now, s.fees),
                     ep, qty, gross, fees, clean, f)
  {
    hide Good;
    hide Applied;
    hide MarketPlaced;
    hide RealFills;
    hide FillsOf;
    hide Unused;
    hide OrdersOk;
    hide InFills;
    var id := s.cid(ep, EntryLeg);
    assert Fresh(s, x, ep);
    NotFilled(x, id);
    var y := MarketPlaced(x, Sell, qty, id, false, e.d, e.now, s.fees);
    f := MarketTrades(x, Sell, qty, id, false, e, s.fees);
    OpenShort(qty, x.pos.entry, x.pos.realized, x.pos.fees, f.price, f.fee);
    FillAdded(s, x.fills, f);
    OtherFillsKeepBoth(s, x.fills, ep, EntryLeg, f);
    UnusedAfterSale(s, x, y, ep, f);
    hide FreshAfter;
    hide Fresh;
    SaleExplains(s, x, y, ep, clean, f);
  }

  lemma OtherFillsKeepBoth(s: Setup, fills: seq<Fill>, ep: int, leg: Leg, f: Fill)
    requires DistinctIds(s) && f.id == s.cid(ep, leg) && (leg == EntryLeg || leg == ExitLeg)
    requires forall id :: InFills(fills + [f], id) <==> InFills(fills, id) || f.id == id
    ensures BothFilled(s, fills + [f]) <==> BothFilled(s, fills)
  {
    hide InFills;
    if e :| InFills(fills + [f], s.cid(e, StopLeg)) && InFills(fills + [f], s.cid(e, MakerLeg)) {
      assert InFills(fills, s.cid(e, StopLeg)) && InFills(fills, s.cid(e, MakerLeg));
    }
    if e :| InFills(fills, s.cid(e, StopLeg)) && InFills(fills, s.cid(e, MakerLeg)) {
      assert InFills(fills + [f], s.cid(e, StopLeg)) && InFills(fills + [f], s.cid(e, MakerLeg));
    }
  }

  lemma UnusedAfterSale(s: Setup, x: Exchange, y: Exchange, ep: int, f: Fill)
    requires DistinctIds(s) && FreshAfter(s, x, ep - 1) && f.id == s.cid(ep, EntryLeg)
    requires y.fills == x.fills + [f] && |y.orders| == |x.orders| + 1
    requires y.orders == x.orders + [y.orders[|x.orders|]] && y.orders[|x.orders|].id == f.id
    ensures FreshAfter(s, y, ep)
    ensures Unused(y, s.cid(ep, StopLeg)) && Unused(y, s.cid(ep, MakerLeg)) && Unused(y, s.cid(ep, ExitLeg))
  {
    assert Fresh(s, x, ep);
    forall id | Unused(x, id) && id != f.id ensures Unused(y, id) {
    }
    assert forall leg :: Unused(x, s.cid(ep, leg));
    forall e | e > ep ensures Fresh(s, y, e) {
      assert Fresh(s, x, e);
    }
  }

  lemma SaleExplains(s: Setup, x: Exchange, y: Exchange, ep: int, clean: bool, f: Fill)
    requires DistinctIds(s) && OrdersOk(s, x, None, clean) && FreshAfter(s, x, ep - 1) && x.pos.qty == 0.0
    requires y.fills == x.fills + [f] && |y.orders| == |x.orders| + 1
    requires y.orders == x.orders + [y.orders[|x.orders|]] && !IsOpen(y.orders[|x.orders|])
    requires LastSale(y.fills) == Some(s.cid(ep, EntryLeg))
    ensures OrdersOk(s, y, None, clean)
  {
    MoreFilled(s, x.fills, y.fills);
    hide InFills;
    hide BothFilled;
    assert Fresh(s, x, ep);
    assert forall leg :: Unused(x, s.cid(ep, leg));
    forall i | 0 <= i < |y.orders| && IsOpen(y.orders[i]) ensures Explained(s, y, None, clean, y.orders[i]) {
      var o := y.orders[i];
      assert o == x.orders[i] && Explained(s, x, None, clean, o);
      OneSignal(s, ep, o.id);
    }
  }

  /** The record that an entry filled by `f` leaves. */
  function OpenedBy(s: Setup, r: Rec, f: Fill): Rec {
    r.(open := true, entryPx := f.price, entryFee := f.fee, stopId := Some(s.cid(r.ep, StopLeg)))
  }

  /** A stop under a new id joins the orders, resting or rejected. */
  lemma StopAppends(y: Exchange, qty: real, stop: real, id: string, e: Env)
    requires Good(y) && Unused(y, id) && qty > 0.0
    ensures var z := StopPlaced(y, Buy, qty, stop, id, e.last, e.now);
            && |z.orders| == |y.orders| + 1 && z.orders == y.orders + [z.orders[|y.orders|]]
            && z.fills == y.fills && z.pos == y.pos
            && (var o := z.orders[|y.orders|];
                o.id == id && o.side == Buy && o.reduceOnly && o.kind == StopMarket && o.qty == qty)
  {
    hide Good;
  }

  /** With its emergency stop the record is open. */
  lemma StopJoins(s: Setup, y: Exchange, z: Exchange, r: Rec, gross: real, fees: real, clean: bool, f: Fill, o: Order)
    requires DistinctIds(s) && JustSold(s, y, r.ep, r.qty, gross, fees, clean, f) && r.makerId.None?
    requires z.orders == y.orders + [o] && z.fills == y.fills && z.pos == y.pos
    requires o.id == s.cid(r.ep, StopLeg) && o.side == Buy && o.reduceOnly && o.kind != Market && o.qty == r.qty
    ensures Account(s, z, Some(OpenedBy(s, r, f)), gross, fees, clean) && Unused(z, s.cid(r.ep, ExitLeg))
  {
    var m := OpenedBy(s, r, f);
    OneMoreOrder(s, y, z, o, r.ep, StopLeg);
    assert Idle(y, s.cid(r.ep, MakerLeg));
    NotFilled(y, s.cid(r.ep, StopLeg));
    NotFilled(y, s.cid(r.ep, MakerLeg));
    hide FreshAfter;
    hide Stray;
    hide FillsOf;
    hide InFills;
    hide Unused;
    assert OwnExit(s, m, o);
    forall i | 0 <= i < |z.orders| && IsOpen(z.orders[i]) ensures Explained(s, z, Some(m), clean, z.orders[i]) {
      if i < |y.orders| {
        assert z.orders[i] == y.orders[i] && Explained(s, y, None, clean, y.orders[i]);
      }
    }
    assert Held(s, z, m, gross, fees);
  }

  // ---- the exit -------------------------------------------------------------

  /** The market order buys back the whole short, and the stop is cancelled. */
  lemma BuyCovers(s: Setup, x: Exchange, r: Rec, gross: real, fees: real, clean: bool, e: Env) returns (f: Fill)
    requires DistinctIds(s) && Good(x) && Account(s, x, Some(r), gross, fees, clean)
    requires Held(s, x, r, gross, fees) && x.pos.qty == -r.qty
    requires Unused(x, s.cid(r.ep, ExitLeg)) && Quiet(x, s.cid(r.ep, MakerLeg))
    ensures var y := MarketPlaced(x, Buy, r.qty, s.cid(r.ep, ExitLeg), true, e.d, e.now, s.fees);
            && FillsOf(y.fills, s.cid(r.ep, ExitLeg)) == [f] && f.qty == r.qty
            && FreshAfter(s, Without(y, r.stopId), r.ep)
            && Account(s, Without(y, r.stopId), None, gross + GrossOf(r.entryPx, f.price, r.qty),
                       fees + (r.entryFee + f.fee), clean)
  {
    hide Good;
    hide Applied;
    hide GrossOf;
    hide Without;
    hide MarketPlaced;
    var id := s.cid(r.ep, ExitLeg);
    var y := MarketPlaced(x, Buy, r.qty, id, true, e.d, e.now, s.fees);
    f := MarketTrades(x, Buy, r.qty, id, true, e, s.fees);
    CoverPart(x.pos, r.qty, f.price, f.fee);
    NotFilled(x, id);
    FillAdded(s, x.fills, f);
    assert id == s.cid(r.ep, ExitLeg);
    OneSignal(s, r.ep, id);
    assert !Stray(s, x.fills, f);
    assert RealFills(y.fills);
    hide RealFills;
    hide FillsOf;
    OtherFillsKeepBoth(s, x.fills, r.ep, ExitLeg, f);
    WithoutQuiet(y, r.stopId);
    var z := Without(y, r.stopId);
    ExitFresh(s, x, y, z, r, f);
    hide FreshAfter;
    hide Unused;
    ExitExplains(s, x, y, z, r, clean, f);
    hide OrdersOk;
    hide InFills;
    hide Stray;
  }

  lemma WithoutQuiet(x: Exchange, id: Option<string>)
    requires Good(x)
    ensures var y := Without(x, id); OnlyCloses(x, y) && (id.Some? ==> Quiet(y, id.value))
  {
  }

  lemma ExitFresh(s: Setup, x: Exchange, y: Exchange, z: Exchange, r: Rec, f: Fill)
    requires DistinctIds(s) && FreshAfter(s, x, r.ep) && f.id == s.cid(r.ep, ExitLeg)
    requires y.fills == x.fills + [f] && |y.orders| == |x.orders| + 1
    requires y.orders == x.orders + [y.orders[|x.orders|]] && y.orders[|x.orders|].id == f.id
    requires OnlyCloses(y, z)
    ensures FreshAfter(s, z, r.ep)
  {
    forall e | e > r.ep ensures Fresh(s, z, e) {
      assert Fresh(s, x, e);
      forall leg ensures Unused(z, s.cid(e, leg)) {
        assert Unused(x, s.cid(e, leg));
      }
    }
  }

  lemma ExitExplains(s: Setup, x: Exchange, y: Exchange, z: Exchange, r: Rec, clean: bool, f: Fill)
    requires OrdersOk(s, x, Some(r), clean) && KnowsOrders(s, x, r) && Quiet(x, s.cid(r.ep, MakerLeg))
    requires y.fills == x.fills + [f] && |y.orders| == |x.orders| + 1
    requires y.orders == x.orders + [y.orders[|x.orders|]] && !IsOpen(y.orders[|x.orders|])
    requires OnlyCloses(y, z) && (r.stopId.Some? ==> Quiet(z, r.stopId.value))
    requires LastSale(y.fills) == LastSale(x.fills) && x.pos.qty <= y.pos.qty
    ensures OrdersOk(s, z, None, clean)
  {
    MoreFilled(s, x.fills, y.fills);
    hide InFills;
    hide BothFilled;
    hide SameSignal;
    forall i | 0 <= i < |z.orders| && IsOpen(z.orders[i]) ensures Explained(s, z, None, clean, z.orders[i]) {
      assert z.orders[i] == y.orders[i] == x.orders[i] && Explained(s, x, Some(r), clean, x.orders[i]);
    }
  }
}
