/** The exchange's book as a history of absolute level changes, the two messages that describe it,
    and the local copy kept from them. */
module OrderBook {
  import opened Basics
  import opened Ladders

  /** A depthUpdate event: it covers the update ids after `prevId` up to `lastId`. */
  datatype Diff = Diff(firstId: int, lastId: int, prevId: int, bids: seq<Level>, asks: seq<Level>)

  datatype Snapshot = Snapshot(lastId: int, bids: seq<Level>, asks: seq<Level>)

  /** The local copy: `id` is unknown before a snapshot, `ready` says that an event has followed it. */
  datatype Book = Book(bids: Ladder, asks: Ladder, id: Option<int>, ready: bool)

  const EMPTY := Book(map[], map[], None, false)

  // ---- the exchange ---------------------------------------------------------

  /** Update number k of the exchange is element k - 1 of its history. */
  datatype Change = Change(onBid: bool, price: real, qty: real)

  ghost function SideAt(h: seq<Change>, k: nat, onBid: bool): (r: Ladder)
    requires k <= |h|
    ensures forall p :: p in r ==> r[p] != 0.0
  {
    if k == 0 then map[]
    else
      var before, c := SideAt(h, k - 1, onBid), h[k - 1];
      if c.onBid == onBid then SetLevel(before, c.price, c.qty) else before
  }

  /** The list gives the quantities after update `k`, and at least for the prices in `of`. */
  ghost predicate Tells(h: seq<Change>, k: nat, onBid: bool, levels: seq<Level>, of: set<real>)
    requires k <= |h|
  {
    (forall l :: l in levels ==> l.qty == QtyAt(SideAt(h, k, onBid), l.price)) && of <= Prices(levels)
  }

  ghost function Touched(h: seq<Change>, onBid: bool, from: nat, last: nat): set<real>
    requires last <= |h|
  {
    set i | from <= i < last && h[i].onBid == onBid :: h[i].price
  }

  /** An event carries the final quantity of every price its updates touched. */
  ghost predicate TrueDiff(h: seq<Change>, ev: Diff) {
    && 0 <= ev.prevId < ev.firstId <= ev.lastId <= |h|
    && Tells(h, ev.lastId, true, ev.bids, Touched(h, true, ev.prevId, ev.lastId))
    && Tells(h, ev.lastId, false, ev.asks, Touched(h, false, ev.prevId, ev.lastId))
  }

  /** A snapshot is the whole book after some update, however old. */
  ghost predicate TrueSnapshot(h: seq<Change>, s: Snapshot) {
    && 0 <= s.lastId <= |h|
    && Tells(h, s.lastId, true, s.bids, SideAt(h, s.lastId, true).Keys)
    && Tells(h, s.lastId, false, s.asks, SideAt(h, s.lastId, false).Keys)
  }

  /** The copy, if it claims to stand at an update, is the exchange's book after that update. */
  ghost predicate Exact(h: seq<Change>, b: Book) {
    match b.id
    case None => b == EMPTY
    case Some(k) => 0 <= k <= |h| && b.bids == SideAt(h, k, true) && b.asks == SideAt(h, k, false)
  }

  // ---- what the two messages do to the copy ---------------------------------

  function WithLevels(side: Ladder, levels: seq<Level>): Ladder {
    if levels == [] then side
    else
      var n := |levels| - 1;
      SetLevel(WithLevels(side, levels[..n]), levels[n].price, levels[n].qty)
  }

  function FromLevels(levels: seq<Level>): Ladder {
    if levels == [] then map[]
    else
      var n := |levels| - 1;
      if levels[n].qty > 0.0 then FromLevels(levels[..n])[levels[n].price := levels[n].qty] else FromLevels(levels[..n])
  }

  function FromSnapshot(s: Snapshot): Book {
    Book(FromLevels(s.bids), FromLevels(s.asks), Some(s.lastId), false)
  }

  datatype Outcome = Applied | Dropped | Gap | NoSnapshot

  /** The sequence check. */
  function Check(b: Book, ev: Diff): Outcome {
    if b.id.None? then NoSnapshot
    else if !b.ready then
      if ev.lastId < b.id.value then Dropped else if ev.firstId > b.id.value then Gap else Applied
    else if ev.prevId != b.id.value then Gap
    else Applied
  }

  function WithDiff(b: Book, ev: Diff): Book {
    Book(WithLevels(b.bids, ev.bids), WithLevels(b.asks, ev.asks), Some(ev.lastId), true)
  }

  // ---- exactness ------------------------------------------------------------

  lemma {:induction false} LevelsLookup(side: Ladder, levels: seq<Level>, target: Ladder, p: real)
    requires forall l :: l in levels ==> l.qty == QtyAt(target, l.price)
    requires forall x :: x in target ==> target[x] != 0.0
    ensures var r := WithLevels(side, levels);
            if p in Prices(levels) then (p in r <==> p in target) && (p in r ==> r[p] == target[p])
            else (p in r <==> p in side) && (p in r ==> r[p] == side[p])
  {
    if levels == [] {
    } else {
      var n := |levels| - 1;
      assert levels[n] in levels;
      LevelsLookup(side, levels[..n], target, p);
      assert Prices(levels) == Prices(levels[..n]) + {levels[n].price} by {
        assert levels == levels[..n] + [levels[n]];
      }
    }
  }

  lemma {:induction false} FromLevelsLookup(levels: seq<Level>, target: Ladder, p: real)
    requires forall l :: l in levels ==> l.qty == QtyAt(target, l.price)
    requires forall x :: x in target ==> target[x] > 0.0
    ensures var r := FromLevels(levels);
            (p in r <==> p in Prices(levels) && p in target) && (p in r ==> r[p] == target[p])
  {
    if levels == [] {
    } else {
      var n := |levels| - 1;
      assert levels[n] in levels;
      FromLevelsLookup(levels[..n], target, p);
      assert Prices(levels) == Prices(levels[..n]) + {levels[n].price} by {
        assert levels == levels[..n] + [levels[n]];
      }
    }
  }

  lemma {:induction false} Untouched(h: seq<Change>, onBid: bool, from: nat, last: nat, p: real)
    requires from <= last <= |h| && p !in Touched(h, onBid, from, last)
    ensures var a, b := SideAt(h, from, onBid), SideAt(h, last, onBid);
            (p in a <==> p in b) && (p in a ==> a[p] == b[p])
    decreases last
  {
    if last == from {
    } else {
      assert Touched(h, onBid, from, last - 1) <= Touched(h, onBid, from, last);
      Untouched(h, onBid, from, last - 1, p);
      assert h[last - 1].onBid == onBid ==> h[last - 1].price in Touched(h, onBid, from, last);
    }
  }

  /** From any update inside the range an event covers, it leads to the book after the range. */
  lemma LevelsCatchUp(h: seq<Change>, onBid: bool, levels: seq<Level>, prev: nat, k: nat, last: nat)
    requires prev <= k <= last <= |h| && Tells(h, last, onBid, levels, Touched(h, onBid, prev, last))
    ensures WithLevels(SideAt(h, k, onBid), levels) == SideAt(h, last, onBid)
  {
    var side, target := SideAt(h, k, onBid), SideAt(h, last, onBid);
    var r := WithLevels(side, levels);
    forall p ensures (p in r <==> p in target) && (p in r ==> r[p] == target[p]) {
      LevelsLookup(side, levels, target, p);
      if p !in Prices(levels) {
        assert Touched(h, onBid, k, last) <= Touched(h, onBid, prev, last);
        Untouched(h, onBid, k, last, p);
      }
    }
    assert r.Keys == target.Keys;
  }

  ghost predicate Quantities(h: seq<Change>) {
    forall i :: 0 <= i < |h| ==> h[i].qty >= 0.0
  }

  lemma {:induction false} PositiveSides(h: seq<Change>, k: nat, onBid: bool)
    requires Quantities(h) && k <= |h|
    ensures forall p :: p in SideAt(h, k, onBid) ==> SideAt(h, k, onBid)[p] > 0.0
  {
    if k == 0 {
    } else {
      PositiveSides(h, k - 1, onBid);
    }
  }

  lemma SnapshotSide(h: seq<Change>, k: nat, onBid: bool, levels: seq<Level>)
    requires Quantities(h) && k <= |h| && Tells(h, k, onBid, levels, SideAt(h, k, onBid).Keys)
    ensures FromLevels(levels) == SideAt(h, k, onBid)
  {
    var target, r := SideAt(h, k, onBid), FromLevels(levels);
    PositiveSides(h, k, onBid);
    forall p ensures (p in r <==> p in target) && (p in r ==> r[p] == target[p]) {
      FromLevelsLookup(levels, target, p);
    }
    assert r.Keys == target.Keys;
  }

  lemma SnapshotIsExact(h: seq<Change>, s: Snapshot)
    requires Quantities(h) && TrueSnapshot(h, s)
    ensures Exact(h, FromSnapshot(s))
  {
    SnapshotSide(h, s.lastId, true, s.bids);
    SnapshotSide(h, s.lastId, false, s.asks);
  }

  /** An event that passes the sequence check keeps the copy exact. */
  lemma DiffKeepsExact(h: seq<Change>, b: Book, ev: Diff)
    requires Exact(h, b) && TrueDiff(h, ev) && Check(b, ev) == Applied
    ensures Exact(h, WithDiff(b, ev))
  {
    var k := b.id.value;
    LevelsCatchUp(h, true, ev.bids, ev.prevId, k, ev.lastId);
    LevelsCatchUp(h, false, ev.asks, ev.prevId, k, ev.lastId);
  }

  /** Without the check it would not: an event that skips an update loses what that update did. */
  lemma CheckIsNeeded()
    ensures var h := [Change(true, 1.0, 5.0), Change(true, 2.0, 7.0)];
            var b := Book(map[], map[], Some(0), true);
            var ev := Diff(2, 2, 1, [Level(2.0, 7.0)], []);
            Exact(h, b) && TrueDiff(h, ev) && Check(b, ev) == Gap && !Exact(h, WithDiff(b, ev))
  {
    var h := [Change(true, 1.0, 5.0), Change(true, 2.0, 7.0)];
    var ev := Diff(2, 2, 1, [Level(2.0, 7.0)], []);
    assert h[0] == Change(true, 1.0, 5.0) && h[1] == Change(true, 2.0, 7.0);
    assert SideAt(h, 0, true) == map[] && SideAt(h, 0, false) == map[];
    assert SideAt(h, 1, true) == map[1.0 := 5.0] && SideAt(h, 1, false) == map[];
    assert SideAt(h, 2, true) == map[1.0 := 5.0, 2.0 := 7.0] && SideAt(h, 2, false) == map[];
    assert ev.bids[0] == Level(2.0, 7.0) && Prices(ev.bids) == {2.0} by {
      assert Level(2.0, 7.0) in ev.bids;
    }
    assert TrueDiff(h, ev);
    assert WithLevels(map[], []) == map[];
    assert ev.bids[..0] == [];
    assert WithLevels(map[], ev.bids) == map[2.0 := 7.0];
    assert 1.0 in SideAt(h, 2, true) && 1.0 !in map[2.0 := 7.0];
  }

  // ---- the local copy as it is kept -----------------------------------------

  class LocalOrderBook {
    var bids: Ladder
    var asks: Ladder
    var lastUpdateId: Option<int>
    var firstApplied: bool

    function View(): Book
      reads this
    {
      Book(bids, asks, lastUpdateId, firstApplied)
    }

    constructor ()
      ensures View() == EMPTY
    {
      bids, asks, lastUpdateId, firstApplied := map[], map[], None, false;
    }

    method Reset()
      modifies this
      ensures View() == EMPTY
    {
      bids, asks, lastUpdateId, firstApplied := map[], map[], None, false;
    }

    method ApplySnapshot(s: Snapshot)
      modifies this
      ensures View() == FromSnapshot(s)
    {
      Reset();
      var i := 0;
      while i < |s.bids|
        invariant i <= |s.bids| && bids == FromLevels(s.bids[..i]) && asks == map[] && !firstApplied
      {
        assert s.bids[..i + 1][..i] == s.bids[..i];
        if s.bids[i].qty > 0.0 {
          bids := bids[s.bids[i].price := s.bids[i].qty];
        }
        i := i + 1;
      }
      assert s.bids[..|s.bids|] == s.bids;
      i := 0;
      while i < |s.asks|
        invariant i <= |s.asks| && asks == FromLevels(s.asks[..i]) && bids == FromLevels(s.bids) && !firstApplied
      {
        assert s.asks[..i + 1][..i] == s.asks[..i];
        if s.asks[i].qty > 0.0 {
          asks := asks[s.asks[i].price := s.asks[i].qty];
        }
        i := i + 1;
      }
      assert s.asks[..|s.asks|] == s.asks;
      lastUpdateId := Some(s.lastId);
    }

    /** Applies the event, drops one older than the snapshot, or reports a gap and changes nothing. */
    method ApplyDiff(ev: Diff) returns (r: Outcome)
      modifies this
      ensures r == Check(old(View()), ev)
      ensures View() == if r == Applied then WithDiff(old(View()), ev) else old(View())
    {
      if lastUpdateId.None? {
        return NoSnapshot;
      }
      if !firstApplied {
        if ev.lastId < lastUpdateId.value {
          return Dropped;
        }
        if ev.firstId > lastUpdateId.value {
          return Gap;
        }
      } else if ev.prevId != lastUpdateId.value {
        return Gap;
      }
      bids := ApplyLevels(bids, ev.bids);
      asks := ApplyLevels(asks, ev.asks);
      lastUpdateId := Some(ev.lastId);
      firstApplied := true;
      return Applied;
    }

    static method ApplyLevels(side: Ladder, levels: seq<Level>) returns (r: Ladder)
      ensures r == WithLevels(side, levels)
    {
      r := side;
      var i := 0;
      while i < |levels|
        invariant i <= |levels| && r == WithLevels(side, levels[..i])
      {
        assert levels[..i + 1][..i] == levels[..i];
        if levels[i].qty == 0.0 {
          r := r - {levels[i].price};
        } else {
          r := r[levels[i].price := levels[i].qty];
        }
        i := i + 1;
      }
      assert levels[..|levels|] == levels;
    }
  }
}
