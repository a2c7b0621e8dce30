/** Collector records of one symbol and one UTC day, turned into engine input and callbacks.
    Live running and replay both go through this class. */
module Feed {
  import opened Basics
  import opened Tape
  import opened Signal
  import opened LogicViews
  import opened Engine
  import opened DayData
  import opened Callbacks

  datatype FeedConfig = FeedConfig(p: Params, ln: real -> real, tick: real -> Positive, scale: Positive)

  /** The engine of a day takes the first mid as its reference price. */
  function ConfigFor(fc: FeedConfig, first: Quote): Config {
    Config(fc.p, fc.ln, fc.tick, if Mid(first) == 0.0 then None else Some(Mid(first)))
  }

  /** The reference price is the mean of the first best bid and ask, unknown if that is zero. */
  lemma ConfigIs(fc: FeedConfig, first: Quote)
    ensures var c := ConfigFor(fc, first);
            && c.p == fc.p && c.ln == fc.ln && c.tick == fc.tick
            && if first.bid + first.ask == 0.0 then c.futBase.None?
               else c.futBase.Some? && c.futBase.value * 2.0 == first.bid + first.ask
  {
  }

  type Key = (int, int)

  function Pending(m: map<Key, real>, k: Key): real {
    if k in m then m[k] else 0.0
  }

  function TsigOf(pos: Option<Entry>): Option<int> {
    match pos
    case None => None
    case Some(e) => Some(e.tSig)
  }

  /** What the callbacks owe after trades `d` of a state that was last reported as `was`. */
  ghost function Owed(was: LogicView, d: seq<Trade>): seq<Event> {
    if |d| == |was.done| then StreamOf(was) else EventLog(d)
  }

  /** The next trade to report closes the position that is already reported, if there is one. */
  lemma NextCloses(p: Params, f: seq<Quote>, t: int, was: LogicView, now: LogicView, d: seq<Trade>, tr: Trade)
    requires WellFormed(p, Logic1, f, t, now) && Grows(was, now)
    requires Aligned(was)
    requires was.done <= d && d + [tr] <= now.done
    ensures if |d| == |was.done| && was.pos.Some?
            then tr.entry == was.pos.value && Owed(was, d + [tr]) == Owed(was, d) + [OnExit(tr)]
            else Owed(was, d + [tr]) == Owed(was, d) + [OnEntry(tr.entry)] + [OnExit(tr)]
  {
    EventLogAppend(d, tr);
    assert (d + [tr])[|d|] == tr == now.done[|d|] && now.done[|d|].entry == now.ents[|d|];
    if |d| == |was.done| {
      assert d == was.done;
    }
  }

  /** A position open now is either the one already reported or one that nothing was owed for. */
  lemma PositionOwed(p: Params, f: seq<Quote>, t: int, was: LogicView, now: LogicView)
    requires WellFormed(p, Logic1, f, t, now) && Grows(was, now)
    requires Aligned(was)
    ensures |now.done| == |was.done| && was.pos.Some? ==> now.pos == was.pos
    ensures StreamOf(now) == Owed(was, now.done)
            + if now.pos.Some? && !(|now.done| == |was.done| && was.pos.Some?) then [OnEntry(now.pos.value)] else []
  {
    assert |now.done| == |was.done| ==> now.done == was.done;
  }

  /** `m` holds the totals of the seconds from `from` on, and nothing else. */
  ghost predicate Totals(rs: seq<TradeRec>, m: map<Key, real>, from: int) {
    && (forall k :: k in m ==> from <= k.0 && 0 <= k.0 && (k.1 == -1 || k.1 == 1))
    && (forall s, side | (side == -1 || side == 1) && from <= s && 0 <= s ::
          Pending(m, (s, side)) == QtyOf(rs, s, side))
  }

  function Added(m: map<Key, real>, k: Key, qty: real): map<Key, real> {
    m[k := Pending(m, k) + qty]
  }

  lemma AddedKeys(m: map<Key, real>, k: Key, qty: real)
    ensures forall j :: j in Added(m, k, qty) <==> j == k || j in m
  {
  }

  lemma TotalsAdd(rs: seq<TradeRec>, m: map<Key, real>, from: int, r: TradeRec)
    requires Totals(rs, m, from) && from <= SecOf(r) && 0 <= r.ts
    ensures Totals(rs + [r], Added(m, (SecOf(r), SideOf(r)), r.qty), from)
  {
    hide QtyOf;
    var n := Added(m, (SecOf(r), SideOf(r)), r.qty);
    forall s, side | (side == -1 || side == 1) && from <= s && 0 <= s
      ensures Pending(n, (s, side)) == QtyOf(rs + [r], s, side)
    {
      QtyOfAppend(rs, r, s, side);
      assert Pending(m, (s, side)) == QtyOf(rs, s, side);
    }
  }

  // ---- handing over the complete seconds ------------------------------------

  /** Units of second `s` among the keys already handed over. */
  function Given(m: map<Key, real>, keys: set<Key>, scale: real, s: int): int {
    (if (s, -1) in keys then Units(Pending(m, (s, -1)), scale) else 0)
    + (if (s, 1) in keys then Units(Pending(m, (s, 1)), scale) else 0)
  }

  lemma GivenGrows(m: map<Key, real>, keys: set<Key>, k: Key, scale: real, s: int)
    requires k !in keys && (k.1 == -1 || k.1 == 1)
    ensures Given(m, keys + {k}, scale, s)
         == Given(m, keys, scale, s) + if s == k.0 then Units(Pending(m, k), scale) else 0
  {
    hide Units;
  }

  lemma PopOne(keys: set<Key>, left: set<Key>, k: Key)
    requires k in left && left <= keys
    ensures (keys - left) + {k} == keys - (left - {k})
  {
  }

  lemma UnitsOf(qty: real, scale: real)
    ensures var n := ToUnits(qty, scale); Units(qty, scale) == if n <= 0 then 0 else n
  {
  }

  /** `v` is `was` plus the units of the keys handed over so far; no second is recorded as empty. */
  ghost predicate PartlyGiven(m: map<Key, real>, given: set<Key>, scale: real, was: Volume, v: Volume) {
    && (forall s :: s in v ==> v[s] > 0)
    && (forall s :: VolumeAt(v, s) == VolumeAt(was, s) + Given(m, given, scale, s))
  }

  lemma GiveOne(m: map<Key, real>, given: set<Key>, k: Key, n: int, scale: real, was: Volume, v: Volume)
    requires PartlyGiven(m, given, scale, was, v) && k !in given && (k.1 == -1 || k.1 == 1)
    requires Units(Pending(m, k), scale) == if n <= 0 then 0 else n
    ensures PartlyGiven(m, given + {k}, scale, was, if n <= 0 then v else AddVolume(v, k.0, n))
  {
    hide Given;
    hide Units;
    forall s {
      GivenGrows(m, given, k, scale, s);
    }
    var w := if n <= 0 then v else AddVolume(v, k.0, n);
    assert forall s :: VolumeAt(w, s) == VolumeAt(v, s) + if s == k.0 && n > 0 then n else 0;
    assert VolumeAt(v, k.0) >= 0;
  }

  lemma GivenPositive(m: map<Key, real>, given: set<Key>, scale: real, was: Volume, v: Volume)
    requires PartlyGiven(m, given, scale, was, v)
    ensures forall s :: s in v ==> v[s] > 0
  {
  }

  lemma GiveNone(m: map<Key, real>, scale: real, v: Volume)
    requires forall s :: s in v ==> v[s] > 0
    ensures PartlyGiven(m, {}, scale, v, v)
  {
  }

  /** Once every second before `t` is handed over, the engine's volume is that of the records. */
  lemma AllGiven(rs: seq<TradeRec>, m: map<Key, real>, from: int, t: int, keys: set<Key>, scale: real, v: Volume)
    requires Totals(rs, m, from) && keys == set k | k in m && k.0 <= t - 1
    requires PartlyGiven(m, keys, scale, VolumeBefore(rs, scale, from), v)
    ensures v == VolumeBefore(rs, scale, MaxInt(from, t))
    ensures Totals(rs, m - keys, MaxInt(from, t))
  {
    hide QtyOf;
    hide Units;
    var n := MaxInt(from, t);
    NoUnits(scale);
    forall s ensures VolumeAt(v, s) == if 0 <= s < n then UnitsAt(rs, scale, s) else 0 {
      if from <= s && 0 <= s {
        assert Pending(m, (s, -1)) == QtyOf(rs, s, -1);
        assert Pending(m, (s, 1)) == QtyOf(rs, s, 1);
      }
    }
    VolumeByValues(v, rs, scale, n);
    forall s, side | (side == -1 || side == 1) && n <= s && 0 <= s
      ensures Pending(m - keys, (s, side)) == QtyOf(rs, s, side)
    {
      assert Pending(m, (s, side)) == QtyOf(rs, s, side);
    }
  }

  // ---- whole quantities: rounding adds up -----------------------------------

  /** The quantity is a whole number of engine units. */
  predicate Whole(qty: real, scale: real) {
    qty * scale >= 0.0 && (qty * scale).Floor as real == qty * scale
  }

  lemma RoundsWhole(x: real)
    requires x == x.Floor as real
    ensures RoundHalfEven(x) == x.Floor
  {
    var n := x.Floor;
    assert n as real <= x + 0.5 < (n + 1) as real;
  }

  lemma WholeUnits(qty: real, scale: real)
    requires Whole(qty, scale)
    ensures Units(qty, scale) as real == qty * scale
  {
    RoundsWhole(qty * scale);
    hide RoundHalfEven;
  }

  lemma WholeAdds(a: real, b: real, scale: real)
    requires Whole(a, scale) && Whole(b, scale)
    ensures Whole(a + b, scale) && Units(a + b, scale) == Units(a, scale) + Units(b, scale)
  {
    assert (a + b) * scale == a * scale + b * scale;
    WholeSum(a, b, scale);
    WholeUnits(a, scale);
    WholeUnits(b, scale);
    WholeUnits(a + b, scale);
    hide Units;
  }

  lemma WholeSum(a: real, b: real, scale: real)
    requires Whole(a, scale) && Whole(b, scale)
    ensures Whole(a + b, scale)
  {
    var x, y := a * scale, b * scale;
    assert (a + b) * scale == x + y == (x.Floor + y.Floor) as real;
  }

  ghost predicate AllWhole(rs: seq<TradeRec>, scale: real) {
    forall i :: 0 <= i < |rs| ==> Whole(rs[i].qty, scale)
  }

  lemma {:induction false} WholeTotal(rs: seq<TradeRec>, scale: real, sec: int, side: int)
    requires AllWhole(rs, scale)
    ensures Whole(QtyOf(rs, sec, side), scale)
  {
    assert Whole(0.0, scale);
    if rs == [] {
    } else {
      var n := |rs| - 1;
      WholeTotal(rs[..n], scale, sec, side);
      WholeAdds(QtyOf(rs[..n], sec, side), rs[n].qty, scale);
      hide Whole;
    }
  }

  /** What the engine has, `v`, and what the feed still holds, `m`, make up the records. */
  ghost predicate Owes(v: Volume, m: map<Key, real>, scale: real, rs: seq<TradeRec>) {
    && AllWhole(rs, scale)
    && (forall k :: k in m ==> 0 <= k.0 && (k.1 == -1 || k.1 == 1) && Whole(m[k], scale))
    && (forall s :: s in v ==> v[s] > 0)
    && (forall s :: VolumeAt(v, s) + Given(m, m.Keys, scale, s) == UnitsAt(rs, scale, s))
  }

  lemma OwesNothing(scale: real)
    ensures Owes(map[], map[], scale, [])
  {
    NoUnits(scale);
    hide Units;
  }

  lemma GivenAdds(m: map<Key, real>, k: Key, qty: real, scale: real, s: int)
    requires k.1 == -1 || k.1 == 1
    requires Whole(qty, scale) && (k in m ==> Whole(m[k], scale))
    ensures var n := Added(m, k, qty);
            && Whole(n[k], scale)
            && Given(n, n.Keys, scale, s) == Given(m, m.Keys, scale, s) + if s == k.0 then Units(qty, scale) else 0
  {
    if k in m {
      WholeAdds(m[k], qty, scale);
    }
    assert 0.0 + qty == qty;
    hide Units;
    hide Whole;
  }

  lemma OwesMore(v: Volume, m: map<Key, real>, scale: real, rs: seq<TradeRec>, r: TradeRec)
    requires Owes(v, m, scale, rs) && 0 <= r.ts && Whole(r.qty, scale)
    ensures Owes(v, Added(m, (SecOf(r), SideOf(r)), r.qty), scale, rs + [r])
  {
    var k: Key := (SecOf(r), SideOf(r));
    var n := Added(m, k, r.qty);
    forall s ensures VolumeAt(v, s) + Given(n, n.Keys, scale, s) == UnitsAt(rs + [r], scale, s) {
      GivenAdds(m, k, r.qty, scale, s);
      UnitsAdd(rs, r, scale, s);
    }
    GivenAdds(m, k, r.qty, scale, 0);
    hide Whole;
    hide Given;
    hide UnitsAt;
    assert forall j :: j in n ==> j == k || j in m;
  }

  lemma UnitsAdd(rs: seq<TradeRec>, r: TradeRec, scale: real, s: int)
    requires AllWhole(rs, scale) && Whole(r.qty, scale)
    ensures UnitsAt(rs + [r], scale, s) == UnitsAt(rs, scale, s) + if s == SecOf(r) then Units(r.qty, scale) else 0
  {
    QtyOfAppend(rs, r, s, -1);
    QtyOfAppend(rs, r, s, 1);
    WholeTotal(rs, scale, s, SideOf(r));
    WholeAdds(QtyOf(rs, s, SideOf(r)), r.qty, scale);
    hide Units;
    hide Whole;
    hide QtyOf;
  }

  lemma OwesLess(v: Volume, w: Volume, m: map<Key, real>, ready: set<Key>, scale: real, rs: seq<TradeRec>)
    requires Owes(v, m, scale, rs) && ready <= m.Keys && PartlyGiven(m, ready, scale, v, w)
    ensures Owes(w, m - ready, scale, rs)
  {
    hide UnitsAt;
    hide Units;
    hide Whole;
    var left := m - ready;
    forall s ensures Given(m, ready, scale, s) + Given(left, left.Keys, scale, s) == Given(m, m.Keys, scale, s) {
    }
  }

  /** When everything of the seconds before `from` is handed over, the engine's volume is that of the records. */
  lemma OwesOnlyLater(v: Volume, m: map<Key, real>, scale: real, rs: seq<TradeRec>, from: int)
    requires Owes(v, m, scale, rs) && (forall s :: s in v ==> 0 <= s < from) && forall k :: k in m ==> from <= k.0
    ensures v == VolumeBefore(rs, scale, from)
  {
    hide UnitsAt;
    hide Units;
    VolumeByValues(v, rs, scale, from);
  }

  /** Hand the chosen (second, side) totals to the engine, in whatever order. */
  method GiveAll(e: SymbolEngine, m: map<Key, real>, ready: set<Key>, scale: real, ghost onTime: bool)
    requires e.Valid() && ready <= m.Keys
    requires onTime ==> forall k :: k in ready ==> TimelyTrade(e.c.p, e.lastT, k.0) && (k.1 == -1 || k.1 == 1)
    requires onTime ==> 0 < e.c.p.volWin && e.Tracks() && forall s :: s in e.V ==> e.V[s] > 0
    modifies e`vsec, e`vcum, e`V
    ensures e.Valid()
    ensures onTime ==> 0 < e.c.p.volWin && e.Tracks() && PartlyGiven(m, ready, scale, old(e.V), e.V)
  {
    hide SymbolEngine.Valid;
    hide SymbolEngine.Tracks;
    hide TimelyTrade;
    hide AddVolume;
    hide ToUnits;
    ghost var was := e.V;
    if onTime {
      GiveNone(m, scale, was);
    }
    hide PartlyGiven;
    e.Sound();
    var left := ready;
    assert ready - left == {};
    while left != {}
      invariant e.Valid() && left <= ready
      invariant onTime ==> e.Tracks() && PartlyGiven(m, ready - left, scale, was, e.V)
      decreases |left|
    {
      var k :| k in left;
      var n := ToUnits(m[k], scale);
      if onTime {
        UnitsOf(m[k], scale);
        GiveOne(m, ready - left, k, n, scale, was, e.V);
      }
      e.OnTrade(k.0, n, k.1);
      PopOne(ready, left, k);
      left := left - {k};
    }
    assert ready - left == ready;
  }

  /** The engine has the trades of the seconds before `from`, `m` the totals of the others. */
  ghost predicate FedBefore(e: SymbolEngine, m: map<Key, real>, scale: real, rs: seq<TradeRec>, from: int)
    reads e
    requires 0 < e.c.p.volWin
  {
    && e.Tracks() && e.V == VolumeBefore(rs, scale, from) && Totals(rs, m, from)
    && forall s :: s in e.V ==> e.V[s] > 0
  }

  /** All that the feed still holds can come late without harm to the decisions made. */
  ghost predicate FedWhole(e: SymbolEngine, m: map<Key, real>, scale: real, rs: seq<TradeRec>, from: int)
    reads e
    requires 0 < e.c.p.volWin
  {
    && e.Tracks() && Owes(e.V, m, scale, rs) && (forall s :: s in e.V ==> 0 <= s < from)
    && forall k :: k in m ==> TimelyTrade(e.c.p, e.lastT, k.0)
  }

  lemma FedTimely(e: SymbolEngine, m: map<Key, real>, scale: real, rs: seq<TradeRec>, from: int)
    requires 0 < e.c.p.volWin
    ensures FedWhole(e, m, scale, rs, from) ==>
              (forall k :: k in m ==> TimelyTrade(e.c.p, e.lastT, k.0) && 0 <= k.0 && (k.1 == -1 || k.1 == 1))
              && forall s :: s in e.V ==> e.V[s] > 0
  {
    hide SymbolEngine.Tracks;
    hide Given;
    hide UnitsAt;
  }

  lemma PartlyPlaced(m: map<Key, real>, ready: set<Key>, scale: real, v: Volume, w: Volume, from: int, t: int)
    requires PartlyGiven(m, ready, scale, v, w) && (forall s :: s in v ==> 0 <= s < from)
    requires forall k :: k in ready ==> 0 <= k.0 < t
    ensures forall s :: s in w ==> 0 <= s < MaxInt(from, t)
  {
    hide Units;
    forall s | s in w ensures 0 <= s < MaxInt(from, t) {
      assert VolumeAt(w, s) == VolumeAt(v, s) + Given(m, ready, scale, s);
    }
  }

  /** Everything before second `t` goes to the engine; the rest is returned. */
  method GiveSeconds(e: SymbolEngine, m: map<Key, real>, t: int, scale: real, ghost rs: seq<TradeRec>, ghost from: int)
      returns (left: map<Key, real>)
    requires e.Valid() && 0 < e.c.p.volWin
    modifies e`vsec, e`vcum, e`V
    ensures e.Valid()
    ensures left == m - set k | k in m && k.0 <= t - 1
    ensures old(FedBefore(e, m, scale, rs, from)) && e.lastT <= MaxInt(from, e.c.p.entryStart - 1)
            ==> FedBefore(e, left, scale, rs, MaxInt(from, t))
    ensures old(FedWhole(e, m, scale, rs, from)) ==> FedWhole(e, left, scale, rs, MaxInt(from, t))
  {
    hide SymbolEngine.Valid;
    hide SymbolEngine.Tracks;
    hide PartlyGiven;
    hide VolumeBefore;
    e.Sound();
    ghost var onTime := FedBefore(e, m, scale, rs, from) && e.lastT <= MaxInt(from, e.c.p.entryStart - 1);
    ghost var whole := FedWhole(e, m, scale, rs, from);
    ghost var was := e.V;
    var ready := set k | k in m && k.0 <= t - 1;
    assert onTime ==> forall k :: k in m ==> TimelyTrade(e.c.p, e.lastT, k.0) && (k.1 == -1 || k.1 == 1);
    FedTimely(e, m, scale, rs, from);
    hide Totals;
    hide TimelyTrade;
    hide Owes;
    GiveAll(e, m, ready, scale, onTime || whole);
    left := m - ready;
    if whole {
      OwesLess(was, e.V, m, ready, scale, rs);
      PartlyPlaced(m, ready, scale, was, e.V, from, t);
    }
    if onTime {
      AllGiven(rs, m, from, t, ready, scale, e.V);
      GivenPositive(m, ready, scale, was, e.V);
    }
  }

  /** Signal and fills come from the same contract: one record is both a stock and a futures quote. */
  method Both(e: SymbolEngine, sq: Quote)
    requires e.Valid() && !OneSided(sq)
    requires e.Q != [] ==> e.Q[|e.Q| - 1].ts <= sq.ts && !SameTop(e.Q[|e.Q| - 1], sq)
    requires e.F != [] ==> e.F[|e.F| - 1].ts <= sq.ts
    modifies e
    ensures e.Valid() && 0 < e.c.p.volWin && old(e.trades) <= e.trades && Grows(old(e.view.one), e.view.one)
    ensures e.Q == old(e.Q) + [sq] && e.F == (if TwoSided(sq) then old(e.F) + [sq] else old(e.F))
    ensures e.lastT == old(e.lastT) && e.V == old(e.V)
    ensures old(e.Tracks()) && Timely(e.c.p, e.lastT, sq.ts) ==> e.Tracks()
  {
    hide SymbolEngine.Valid;
    hide SymbolEngine.Tracks;
    hide AfterFuture;
    hide Grows;
    hide OneSided;
    hide TwoSided;
    hide Timely;
    e.Sound();
    e.OnQuote(sq);
    e.OnFutQuote(sq);
  }

  class SymbolFeed {
    const fc: FeedConfig
    var engine: SymbolEngine?
    var lastL1: Option<Quote>
    var nTrades: nat
    var posTsig: Option<int>
    var lastT: int
    var trades: map<Key, real>           // quantity per second and side that the engine has not seen
    var lateTrades: nat
    var pending: map<Key, real>          // the same, from before the engine exists
    var finished: bool
    var events: seq<Event>

    ghost var offered: seq<Quote>        // every quote record of the day
    ghost var prints: seq<TradeRec>      // every trade record of the day

    ghost function Repr(): set<object>
      reads this
    {
      if engine == null then {this} else {this, engine}
    }

    ghost predicate Valid()
      reads Repr()
    {
      && ValidParams(fc.p)
      && (finished ==> engine == null)
      && (engine == null && !finished ==> Untouched())
      && (engine != null ==> Running(engine) && Reported(engine))
    }

    ghost predicate Untouched()
      reads this
    {
      offered == [] && lastL1.None? && nTrades == 0 && posTsig.None? && lastT == -1 && trades == map[] && events == []
    }

    ghost predicate Running(e: SymbolEngine)
      reads `offered, `lastL1, e
    {
      && e.Valid()
      && offered != [] && e.c == ConfigFor(fc, offered[0])
      && InOrder(offered) && e.Q == Kept(offered, fc.scale) && e.F == TwoSidedOf(Kept(offered, fc.scale))
      && lastL1.Some? && SameTop(lastL1.value, offered[|offered| - 1])
    }

    /** The callbacks made so far are exactly those the engine's state calls for. */
    ghost predicate Reported(e: SymbolEngine)
      reads `events, `posTsig, `nTrades, e
    {
      && events == StreamOf(e.view.one) && posTsig == TsigOf(e.view.one.pos)
      && nTrades == |e.trades|
    }

    /** Every record so far came before the decisions that use it. */
    ghost predicate OnTime()
      reads Repr()
      requires 0 < fc.p.volWin
    {
      if engine == null then Totals(prints, pending, -1)
      else
        && engine.c.p == fc.p && FedBefore(engine, trades, fc.scale, prints, lastT)
        && engine.lastT <= MaxInt(lastT, fc.p.entryStart - 1)
    }

    /** Quantities are whole, and trades, late ones included, came before the decisions that use them. */
    ghost predicate Accounted()
      reads Repr()
      requires 0 < fc.p.volWin
    {
      if engine == null then lastT == -1 && Owes(map[], pending, fc.scale, prints)
      else engine.c.p == fc.p && FedWhole(engine, trades, fc.scale, prints, lastT)
    }

    constructor (fc: FeedConfig)
      requires ValidParams(fc.p)
      ensures Valid() && OnTime() && Accounted() && this.fc == fc && !finished && engine == null && lastT == -1
      ensures offered == [] && prints == [] && events == []
    {
      this.fc := fc;
      engine, lastL1, nTrades, posTsig, lastT := null, None, 0, None, -1;
      trades, lateTrades, pending, finished, events := map[], 0, map[], false, [];
      offered, prints := [], [];
      OwesNothing(fc.scale);
    }

    // ---- callbacks ----------------------------------------------------------

    /** Report what changed since the state `was`: closed trades first, then a new position. */
    method Emit(ghost was: LogicView)
      requires engine != null && engine.Valid() && Grows(was, engine.view.one)
      requires Aligned(was)
      requires events == StreamOf(was) && posTsig == TsigOf(was.pos)
      requires nTrades <= |engine.trades| && TradesOf(engine.trades[..nTrades], Logic1) == was.done
      modifies `events, `posTsig, `nTrades
      ensures Reported(engine)
    {
      hide SymbolEngine.Valid;
      hide TradesOf;
      hide WellFormed;
      hide Grows;
      hide StreamOf;
      hide EventLog;
      var e := engine;
      ghost var now := e.view.one;
      e.Owned();
      TradesOfPrefix(e.trades, nTrades, Logic1);
      var k := nTrades;
      nTrades := |e.trades|;
      while k < |e.trades|
        invariant k <= |e.trades| && nTrades == |e.trades|
        invariant was.done <= TradesOf(e.trades[..k], Logic1) <= now.done
        invariant events == Owed(was, TradesOf(e.trades[..k], Logic1))
        invariant posTsig == if |TradesOf(e.trades[..k], Logic1)| == |was.done| then TsigOf(was.pos) else None
      {
        ghost var d := TradesOf(e.trades[..k], Logic1);
        var tr := e.trades[k];
        assert e.trades[..k + 1] == e.trades[..k] + [tr];
        TradesOfAppend(e.trades[..k], tr, Logic1);
        assert d + [] == d;
        TradesOfPrefix(e.trades, k + 1, Logic1);
        if tr.entry.logic == Logic1 {
          NextCloses(e.c.p, e.F, e.lastT, was, now, d, tr);
          if posTsig != Some(tr.entry.tSig) {
            events := events + [OnEntry(tr.entry)];
          }
          posTsig := None;
          events := events + [OnExit(tr)];
        }
        k := k + 1;
      }
      assert e.trades[..|e.trades|] == e.trades;
      PositionOwed(e.c.p, e.F, e.lastT, was, now);
      var pos := e.pos.one;
      if pos.Some? && Some(pos.value.tSig) != posTsig {
        posTsig := Some(pos.value.tSig);
        events := events + [OnEntry(pos.value)];
      }
    }

    // ---- quote records ------------------------------------------------------

    /** The engine is ready for a record that differs from the one before. */
    ghost predicate Ready(e: SymbolEngine, q: Quote)
      reads this, e
    {
      && e.Valid() && Reported(e)
      && e.c == ConfigFor(fc, (offered + [q])[0]) && InOrder(offered) && !OneSided(q)
      && (offered != [] ==> offered[|offered| - 1].ts <= q.ts && !SameTop(offered[|offered| - 1], q))
      && e.Q == Kept(offered, fc.scale) && e.F == TwoSidedOf(Kept(offered, fc.scale))
    }

    /** The engine's own duplicate test never fires behind the feed's. */
    lemma RecordCounts(e: SymbolEngine, q: Quote)
      requires Ready(e, q)
      ensures var sq := Scaled(q, fc.scale);
              && (e.Q != [] ==> e.Q[|e.Q| - 1].ts <= q.ts && !SameTop(e.Q[|e.Q| - 1], sq))
              && (e.F != [] ==> e.F[|e.F| - 1].ts <= q.ts)
              && Kept(offered + [q], fc.scale) == e.Q + [sq]
              && TwoSidedOf(Kept(offered + [q], fc.scale)) == if TwoSided(sq) then e.F + [sq] else e.F
    {
      hide Kept;
      hide TwoSidedOf;
      hide SymbolEngine.Valid;
      var sq := Scaled(q, fc.scale);
      e.Owned();
      KeptOfAppend(offered, q, fc.scale);
      TwoSidedOfAppend(e.Q, sq);
      if offered != [] {
        KeptLast(offered, fc.scale);
        ScaledSameTop(offered[|offered| - 1], q, fc.scale);
      } else {
        assert Kept([], fc.scale) == [] by { KeptNothing(fc.scale); }
      }
      TwoSidedLast(e.Q, q.ts);
    }

    method Push(q: Quote)
      requires engine != null && Ready(engine, q)
      modifies `lastL1, `nTrades, `posTsig, `events, `offered, engine
      ensures offered == old(offered) + [q] && Running(engine) && Reported(engine)
      ensures engine.lastT == old(engine.lastT) && engine.V == old(engine.V)
      ensures old(engine.Tracks()) && Timely(fc.p, engine.lastT, q.ts) ==> engine.Tracks()
    {
      hide SymbolEngine.Valid;
      hide SymbolEngine.Tracks;
      hide Kept;
      hide TwoSidedOf;
      hide TradesOf;
      hide WellFormed;
      hide Aligned;
      hide Grows;
      hide StreamOf;
      var sq := Scaled(q, fc.scale);
      RecordCounts(engine, q);
      engine.Owned();
      ghost var was := engine.view.one;
      assert engine.trades[..nTrades] == engine.trades;
      lastL1 := Some(q);
      Both(engine, sq);
      assert engine.trades[..nTrades] == old(engine.trades);
      Emit(was);
      offered := offered + [q];
    }

    /** The day's engine starts with the first record; trades that came earlier are handed over. */
    method Create(q: Quote)
      requires Valid() && engine == null && !finished
      modifies `engine, `trades, `pending
      ensures engine != null && fresh(engine) && engine.Valid() && engine.Tracks()
      ensures engine.c == ConfigFor(fc, q) && engine.Q == [] && engine.F == [] && engine.V == map[]
      ensures engine.lastT == fc.p.entryStart - 1 && engine.view == PerLogic(IDLE, IDLE) && engine.trades == []
      ensures trades == old(pending) && pending == map[]
    {
      engine := new SymbolEngine(ConfigFor(fc, q));
      trades := pending;
      pending := map[];
    }

    /** The start of the day: nothing was offered, so nothing is kept and nothing was reported. */
    lemma ReadyAtStart(e: SymbolEngine, q: Quote)
      requires e.Valid() && e.c == ConfigFor(fc, q) && e.Q == [] && e.F == [] && !OneSided(q)
      requires e.view == PerLogic(IDLE, IDLE) && e.trades == []
      requires offered == [] && events == [] && posTsig.None? && nTrades == 0
      ensures Ready(e, q)
    {
      KeptNothing(fc.scale);
    }

    method First(q: Quote)
      requires Valid() && engine == null && !finished && !OneSided(q)
      modifies this
      ensures Valid() && finished == old(finished) && prints == old(prints) && lastT == old(lastT)
      ensures engine != null && fresh(engine) && offered == [q] && engine.lastT == fc.p.entryStart - 1
      ensures old(OnTime()) && Timely(fc.p, engine.lastT, q.ts) ==> OnTime()
      ensures old(Accounted()) && Timely(fc.p, engine.lastT, q.ts) ==> Accounted()
    {
      hide SymbolEngine.Valid;
      hide SymbolEngine.Tracks;
      hide Running;
      hide Reported;
      hide Ready;
      hide Totals;
      hide Owes;
      Create(q);
      ReadyAtStart(engine, q);
      Push(q);
      assert VolumeBefore(prints, fc.scale, -1) == map[];
    }

    /** A record that repeats the best quote is only remembered. */
    method Skip(q: Quote)
      requires engine != null && Running(engine) && Reported(engine) && SameTop(lastL1.value, q)
      requires offered[|offered| - 1].ts <= q.ts
      modifies `offered
      ensures Running(engine) && Reported(engine) && offered == old(offered) + [q]
    {
      hide SymbolEngine.Valid;
      hide Kept;
      hide TwoSidedOf;
      KeptOfAppend(offered, q, fc.scale);
      offered := offered + [q];
    }

    method Next(q: Quote)
      requires engine != null && Running(engine) && Reported(engine) && !SameTop(lastL1.value, q) && !OneSided(q)
      requires offered[|offered| - 1].ts <= q.ts
      modifies `lastL1, `nTrades, `posTsig, `events, `offered, engine
      ensures Running(engine) && Reported(engine) && offered == old(offered) + [q]
      ensures engine.lastT == old(engine.lastT) && engine.V == old(engine.V)
      ensures old(engine.Tracks()) && Timely(fc.p, engine.lastT, q.ts) ==> engine.Tracks()
    {
      hide SymbolEngine.Valid;
      hide SymbolEngine.Tracks;
      hide Kept;
      hide TwoSidedOf;
      hide Reported;
      assert Ready(engine, q);
      hide Ready;
      Push(q);
    }

    /** A book_top record; `q` carries the best quote and its exchange time within the day. */
    method OnL1(q: Quote)
      requires Valid() && !OneSided(q)
      requires offered != [] ==> offered[|offered| - 1].ts <= q.ts
      modifies Repr()
      ensures Valid() && finished == old(finished) && prints == old(prints) && lastT == old(lastT)
      ensures fresh(Repr() - old(Repr()))
      ensures offered == if finished then old(offered) else old(offered) + [q]
      ensures finished <==> engine == null
      ensures !finished ==> engine.lastT == if old(engine) == null then fc.p.entryStart - 1 else old(engine.lastT)
      ensures !finished && old(engine) != null ==> engine == old(engine)
      ensures old(OnTime()) && !finished && Timely(fc.p, engine.lastT, q.ts) ==> OnTime()
      ensures old(Accounted()) && !finished && Timely(fc.p, engine.lastT, q.ts) ==> Accounted()
    {
      hide SymbolEngine.Valid;
      hide SymbolEngine.Tracks;
      hide Kept;
      hide TwoSidedOf;
      hide Reported;
      hide Totals;
      hide VolumeBefore;
      hide Owes;
      if finished {
        return;
      }
      if engine == null {
        First(q);
      } else if SameTop(lastL1.value, q) {
        Skip(q);
      } else {
        Next(q);
      }
    }

    // ---- trade records ------------------------------------------------------

    method OnTrade(r: TradeRec)
      requires Valid() && 0 <= r.ts
      modifies `pending, `trades, `lateTrades, `prints
      ensures Valid() && prints == if finished then old(prints) else old(prints) + [r]
      ensures lateTrades == old(lateTrades) + if engine != null && SecOf(r) <= lastT - 1 then 1 else 0
      ensures old(OnTime()) && !finished && (engine == null || lastT <= SecOf(r)) ==> OnTime()
      ensures old(Accounted()) && !finished && Whole(r.qty, fc.scale) ==>
                (engine != null ==> TimelyTrade(fc.p, engine.lastT, SecOf(r))) ==> Accounted()
    {
      hide SymbolEngine.Valid;
      hide SymbolEngine.Tracks;
      hide Running;
      hide Reported;
      hide Totals;
      hide Added;
      hide Owes;
      hide Whole;
      hide TimelyTrade;
      if finished {
        return;
      }
      var k := (SecOf(r), SideOf(r));
      ghost var v := if engine == null then map[] else engine.V;
      ghost var held := if engine == null then pending else trades;
      if Owes(v, held, fc.scale, prints) && Whole(r.qty, fc.scale) {
        OwesMore(v, held, fc.scale, prints, r);
      }
      AddedKeys(held, k, r.qty);
      if engine == null {
        if Totals(prints, pending, -1) {
          TotalsAdd(prints, pending, -1, r);
        }
        pending := Added(pending, k, r.qty);
      } else {
        if SecOf(r) <= lastT - 1 {
          lateTrades := lateTrades + 1;
        } else if Totals(prints, trades, lastT) {
          TotalsAdd(prints, trades, lastT, r);
          VolumeBeforeAppend(prints, r, fc.scale, lastT);
        }
        trades := Added(trades, k, r.qty);
      }
      prints := prints + [r];
    }

    // ---- the clock ----------------------------------------------------------

    /** The records of the seconds before `t` go to the engine. */
    method HandOver(t: int)
      requires engine != null && engine.Valid() && engine.c.p == fc.p
      modifies `trades, engine`vsec, engine`vcum, engine`V
      ensures engine.Valid() && 0 < fc.p.volWin
      ensures old(OnTime()) ==> FedBefore(engine, trades, fc.scale, prints, MaxInt(lastT, t))
      ensures old(Accounted()) ==> FedWhole(engine, trades, fc.scale, prints, MaxInt(lastT, t))
      ensures forall k :: k in trades ==> t <= k.0
    {
      hide SymbolEngine.Valid;
      hide SymbolEngine.Tracks;
      hide FedBefore;
      hide FedWhole;
      engine.Sound();
      trades := GiveSeconds(engine, trades, t, fc.scale, prints, lastT);
    }

    /** The engine decides up to second `t` and the callbacks follow. */
    method Decide(t: int)
      requires engine != null && Running(engine) && Reported(engine)
      modifies `nTrades, `posTsig, `events, engine
      ensures Running(engine) && Reported(engine) && 0 < engine.c.p.volWin
      ensures engine.lastT == MaxInt(old(engine.lastT), t) && engine.V == old(engine.V)
      ensures old(engine.Tracks()) ==> engine.Tracks()
    {
      hide SymbolEngine.Valid;
      hide SymbolEngine.Tracks;
      hide Kept;
      hide TwoSidedOf;
      hide TradesOf;
      hide WellFormed;
      hide Aligned;
      hide Grows;
      hide StreamOf;
      engine.Sound();
      engine.Owned();
      ghost var was := engine.view.one;
      assert engine.trades[..nTrades] == engine.trades;
      engine.Advance(t);
      assert engine.trades[..nTrades] == old(engine.trades);
      Emit(was);
    }

    /** Decide second `t`: first the trades of the seconds before it, then the engine's clock. */
    method Tick(t: int)
      requires Valid()
      modifies Repr()
      ensures Valid() && engine == old(engine) && finished == old(finished) && offered == old(offered)
              && prints == old(prints)
      ensures lastT == if engine == null then old(lastT) else MaxInt(old(lastT), t)
      ensures engine != null ==> engine.lastT == MaxInt(old(engine.lastT), t)
      ensures old(OnTime()) ==> OnTime()
      ensures old(Accounted()) ==> Accounted()
      ensures engine != null ==> forall k :: k in trades ==> t <= k.0
    {
      hide SymbolEngine.Valid;
      hide SymbolEngine.Tracks;
      hide Kept;
      hide TwoSidedOf;
      hide Totals;
      hide VolumeBefore;
      hide StreamOf;
      hide Owes;
      if engine == null {
        return;
      }
      HandOver(t);
      hide Running;
      hide Reported;
      Decide(t);
      lastT := MaxInt(lastT, t);
    }

    /** The engine finishes its day and the callbacks follow. */
    method Close()
      requires engine != null && Running(engine) && Reported(engine)
      modifies `nTrades, `posTsig, `events, engine
      ensures Alternating(events) && 0 < engine.c.p.volWin
      ensures old(engine.Tracks()) ==>
                ExitsIn(events) == TradesBySpec(engine.c, Logic1, engine.Q, engine.F, engine.V)
      ensures engine.Q == old(engine.Q) && engine.F == old(engine.F) && engine.V == old(engine.V)
    {
      hide SymbolEngine.Valid;
      hide SymbolEngine.Tracks;
      hide Kept;
      hide TwoSidedOf;
      hide TradesOf;
      hide WellFormed;
      hide Aligned;
      hide Grows;
      hide StreamOf;
      hide TradesBySpec;
      hide Alternating;
      engine.Sound();
      engine.Owned();
      ghost var was := engine.view.one;
      assert engine.trades[..nTrades] == engine.trades;
      engine.Finish();
      assert engine.trades[..nTrades] == old(engine.trades);
      Emit(was);
      engine.Owned();
      ExitsOfStream(engine.view.one);
      StreamAlternates(engine.view.one);
    }

    /** At any moment of the day the callbacks alternate and their exits are the engine's trades. */
    lemma CallbacksTellTheTrades()
      requires Valid() && engine != null
      ensures Alternating(events)
      ensures ExitsIn(events) == TradesOf(engine.trades, Logic1)
      ensures |events| % 2 == 1 <==> engine.pos.one.Some?
    {
      hide SymbolEngine.Valid;
      hide Kept;
      hide TwoSidedOf;
      hide TradesOf;
      hide ExitsIn;
      hide Alternating;
      engine.Owned();
      ExitsOfStream(engine.view.one);
      StreamAlternates(engine.view.one);
      LogAlternates(engine.view.one.done);
    }

    /** End of the UTC day: its engine is dropped and later records are ignored. */
    method FinishDay()
      requires Valid()
      modifies Repr()
      ensures Valid() && finished && engine == null && offered == old(offered) && prints == old(prints)
      ensures old(engine) != null ==> Alternating(events)
      ensures old(engine) == null ==> events == old(events)
      ensures old(engine) != null ==>
                old(OnTime()) || (old(Accounted()) && forall k :: k in old(trades) ==> lastT <= k.0) ==>
                ExitsIn(events) == TradesBySpec(ConfigFor(fc, offered[0]), Logic1, Kept(offered, fc.scale),
                                                TwoSidedOf(Kept(offered, fc.scale)),
                                                VolumeBefore(prints, fc.scale, lastT))
      ensures lastT == old(lastT)
    {
      hide SymbolEngine.Valid;
      hide SymbolEngine.Tracks;
      hide Kept;
      hide TwoSidedOf;
      hide Totals;
      hide VolumeBefore;
      hide TradesBySpec;
      hide Alternating;
      hide Owes;
      finished := true;
      pending := map[];
      if engine == null {
        return;
      }
      if Owes(engine.V, trades, fc.scale, prints) && (forall s :: s in engine.V ==> 0 <= s < lastT)
        && forall k :: k in trades ==> lastT <= k.0 {
        OwesOnlyLater(engine.V, trades, fc.scale, prints, lastT);
      }
      Close();
      engine := null;
    }
  }
}
