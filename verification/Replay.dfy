/** One day replayed through the live path, and the plain batch loop the strategy was researched
    with.  Both return the day's trades by definition, hence the same trades. */
module Replay {
  import opened Basics
  import opened Tape
  import opened Signal
  import opened Causality
  import opened LogicViews
  import opened Engine
  import opened DayData
  import opened Callbacks
  import opened Feed

  ghost predicate DayQuotes(qs: seq<Quote>) {
    InOrder(qs) && forall i :: 0 <= i < |qs| ==> 0 <= qs[i].ts < Ms(DAY) && !OneSided(qs[i])
  }

  ghost predicate DayTrades(rs: seq<TradeRec>) {
    && (forall i, j :: 0 <= i <= j < |rs| ==> rs[i].ts <= rs[j].ts)
    && forall i :: 0 <= i < |rs| ==> 0 <= rs[i].ts < Ms(DAY)
  }

  /** No signal second has its deadline at midnight. */
  predicate EndsInDay(p: Params) {
    p.sessionClose <= DAY && !InWindow(p, DAY - p.hold)
  }

  /** The parameters of the frozen specification; 300 s windows of move and holding, no filters. */
  const FROZEN := Params(300, 70.0, 60, 600, 0.5, 1, 1000000000.0, 0, 1000000000, 60, 200.0, 100.0, 300, 1.0, 0, 86400,
                         0, 86100)

  /** Its windows fit into the kept history and no deadline falls on midnight. */
  lemma FrozenFits()
    ensures ValidParams(FROZEN) && EndsInDay(FROZEN)
    ensures forall t :: InWindow(FROZEN, t) ==> t + FROZEN.hold < DAY
  {
  }

  /** The traded logic's day by definition.  Trades of the day's last second belong to no decision. */
  ghost function DayResult(fc: FeedConfig, qs: seq<Quote>, rs: seq<TradeRec>): seq<Trade>
    requires 0 < fc.p.volWin
  {
    if qs == [] then []
    else
      TradesBySpec(ConfigFor(fc, qs[0]), Logic1, Kept(qs, fc.scale), TwoSidedOf(Kept(qs, fc.scale)),
                   VolumeBefore(rs, fc.scale, DAY - 1))
  }

  /** What the batch loop feeds of a list of quotes: nothing after the day's last second began. */
  ghost function Fed(q: seq<Quote>): seq<Quote> {
    q[..UpTo(q, Ms(DAY - 1))]
  }

  /** The same day by definition for the batch loop. */
  ghost function BatchResult(fc: FeedConfig, qs: seq<Quote>, rs: seq<TradeRec>): seq<Trade>
    requires 0 < fc.p.volWin
  {
    if qs == [] then []
    else
      TradesBySpec(ConfigFor(fc, qs[0]), Logic1, Fed(Kept(qs, fc.scale)), TwoSidedOf(Fed(Kept(qs, fc.scale))),
                   VolumeBefore(rs, fc.scale, DAY - 1))
  }

  /** The day's entries. */
  ghost function EntriesOf(fc: FeedConfig, qs: seq<Quote>, rs: seq<TradeRec>): seq<Entry>
    requires 0 < fc.p.volWin && qs != []
  {
    RunAt(ConfigFor(fc, qs[0]), Logic1, Kept(qs, fc.scale), TwoSidedOf(Kept(qs, fc.scale)),
          VolumeBefore(rs, fc.scale, DAY - 1), fc.p.sessionClose).entries
  }

  /** The position is open into the day's last second, its deadline is midnight, and a quote comes in
      that second. */
  ghost predicate CutOff(p: Params, f: seq<Quote>, e: Entry) {
    && Deadline(p, e) == DAY
    && (forall i :: 0 <= i < |f| && f[i].ts <= Ms(DAY - 1) ==> Crossing(p, e, f[i]).None?)
    && exists i :: 0 <= i < |f| && Ms(DAY - 1) < f[i].ts
  }

  // ---- the replay -----------------------------------------------------------

  /** Where the replay stands: records fed so far, seconds ticked so far. */
  ghost predicate Replaying(feed: SymbolFeed, fc: FeedConfig, delay: int, qs: seq<Quote>, rs: seq<TradeRec>, i: nat,
                            j: nat, nxt: int)
    reads feed, feed.Repr()
  {
    && i <= |qs| && j <= |rs| && 0 <= nxt <= DAY
    && feed.Valid() && feed.fc == fc && !feed.finished && feed.OnTime()
    && feed.offered == qs[..i] && feed.prints == rs[..j]
    && -1 <= feed.lastT <= nxt - 1
    && (feed.engine == null <==> i == 0)
    && (feed.engine != null ==> feed.engine.lastT <= MaxInt(nxt - 1, fc.p.entryStart - 1))
    && (feed.engine != null ==> feed.lastT == nxt - 1 || Ms(nxt - 1) + delay <= qs[0].ts)
    && Due(delay, qs, rs, i, j, nxt)
  }

  /** Every second ticked so far is due before every record still to come. */
  ghost predicate Due(delay: int, qs: seq<Quote>, rs: seq<TradeRec>, i: nat, j: nat, nxt: int) {
    && (forall k :: i <= k < |qs| ==> nxt == 0 || Ms(nxt - 1) + delay <= qs[k].ts)
    && (forall k :: j <= k < |rs| ==> nxt == 0 || Ms(nxt - 1) + delay <= rs[k].ts)
  }

  method TickNext(feed: SymbolFeed, fc: FeedConfig, delay: int, ghost qs: seq<Quote>, ghost rs: seq<TradeRec>,
                  ghost i: nat, ghost j: nat, nxt: int)
    requires Replaying(feed, fc, delay, qs, rs, i, j, nxt) && nxt < DAY && Due(delay, qs, rs, i, j, nxt + 1)
    modifies feed.Repr()
    ensures feed.Repr() == old(feed.Repr()) && Replaying(feed, fc, delay, qs, rs, i, j, nxt + 1)
  {
    hide SymbolFeed.Valid;
    hide SymbolFeed.OnTime;
    hide Due;
    feed.Tick(nxt);
  }

  lemma Standing(feed: SymbolFeed, fc: FeedConfig, delay: int, qs: seq<Quote>, rs: seq<TradeRec>, i: nat, j: nat,
                 nxt: int)
    requires Replaying(feed, fc, delay, qs, rs, i, j, nxt)
    ensures 0 <= nxt <= DAY && i <= |qs| && j <= |rs|
  {
  }

  /** Tick every second whose decision time has come by `ts`. */
  method TickDue(feed: SymbolFeed, fc: FeedConfig, delay: int, ghost qs: seq<Quote>, ghost rs: seq<TradeRec>,
                 ghost i: nat, ghost j: nat, first: int, ts: int) returns (nxt: int)
    requires Replaying(feed, fc, delay, qs, rs, i, j, first)
    requires (forall k :: i <= k < |qs| ==> ts <= qs[k].ts) && (forall k :: j <= k < |rs| ==> ts <= rs[k].ts)
    modifies feed.Repr()
    ensures feed.Repr() == old(feed.Repr()) && Replaying(feed, fc, delay, qs, rs, i, j, nxt)
    ensures first <= nxt && (nxt < DAY ==> ts < Ms(nxt) + delay)
  {
    hide Replaying;
    nxt := first;
    Standing(feed, fc, delay, qs, rs, i, j, nxt);
    while nxt < DAY && Ms(nxt) + delay <= ts
      invariant feed.Repr() == old(feed.Repr()) && Replaying(feed, fc, delay, qs, rs, i, j, nxt)
      invariant first <= nxt <= DAY
      decreases DAY - nxt
    {
      TickNext(feed, fc, delay, qs, rs, i, j, nxt);
      nxt := nxt + 1;
    }
  }

  method FeedQuote(feed: SymbolFeed, fc: FeedConfig, delay: int, qs: seq<Quote>, ghost rs: seq<TradeRec>,
                   i: nat, ghost j: nat, ghost nxt: int)
    requires DayQuotes(qs) && 0 < delay && i < |qs| && Replaying(feed, fc, delay, qs, rs, i, j, nxt)
    modifies feed.Repr()
    ensures fresh(feed.Repr() - old(feed.Repr())) && Replaying(feed, fc, delay, qs, rs, i + 1, j, nxt)
  {
    hide SymbolFeed.Valid;
    hide SymbolFeed.OnTime;
    hide OneSided;
    assert qs[..i + 1] == qs[..i] + [qs[i]];
    feed.OnL1(qs[i]);
  }

  method FeedTrade(feed: SymbolFeed, fc: FeedConfig, delay: int, ghost qs: seq<Quote>, rs: seq<TradeRec>,
                   ghost i: nat, j: nat, ghost nxt: int)
    requires DayTrades(rs) && 0 < delay && j < |rs| && Replaying(feed, fc, delay, qs, rs, i, j, nxt)
    modifies feed.Repr()
    ensures feed.Repr() == old(feed.Repr()) && Replaying(feed, fc, delay, qs, rs, i, j + 1, nxt)
  {
    hide SymbolFeed.Valid;
    hide SymbolFeed.OnTime;
    assert rs[..j + 1] == rs[..j] + [rs[j]];
    feed.OnTrade(rs[j]);
  }

  /** A day whose first quote comes after the last decision has no trades, whatever was traded. */
  lemma TooLate(c: Config, q: seq<Quote>, f: seq<Quote>, v: Volume)
    requires ValidParams(c.p) && c.p.sessionClose <= DAY
    requires forall i :: 0 <= i < |f| ==> Ms(DAY - 1) < f[i].ts
    ensures TradesBySpec(c, Logic1, q, f, v) == []
  {
    hide RunAt;
    var es := RunAt(c, Logic1, q, f, v, c.p.sessionClose).entries;
    assert es != [] ==> es[0] in es;
    RunEntriesFit(c, Logic1, q, f, v, c.p.sessionClose);
  }

  lemma LateStart(fc: FeedConfig, qs: seq<Quote>, rs: seq<TradeRec>, n: int)
    requires ValidParams(fc.p) && fc.p.sessionClose <= DAY && DayQuotes(qs) && qs != []
    requires n == DAY - 1 || Ms(DAY - 1) < qs[0].ts
    ensures TradesBySpec(ConfigFor(fc, qs[0]), Logic1, Kept(qs, fc.scale), TwoSidedOf(Kept(qs, fc.scale)),
                         VolumeBefore(rs, fc.scale, n)) == DayResult(fc, qs, rs)
  {
    hide TradesBySpec;
    hide Kept;
    hide TwoSidedOf;
    if n != DAY - 1 {
      var k, c := Kept(qs, fc.scale), ConfigFor(fc, qs[0]);
      KeptFrom(qs, fc.scale, qs[0].ts);
      TwoSidedFrom(k, qs[0].ts);
      TooLate(c, k, TwoSidedOf(k), VolumeBefore(rs, fc.scale, n));
      TooLate(c, k, TwoSidedOf(k), VolumeBefore(rs, fc.scale, DAY - 1));
    }
  }

  /** Merge the records by time, tick each second `delay` after it, finish the day. */
  method RunDay(fc: FeedConfig, delay: int, qs: seq<Quote>, rs: seq<TradeRec>) returns (out: seq<Trade>)
    requires ValidParams(fc.p) && fc.p.sessionClose <= DAY && 0 < delay && DayQuotes(qs) && DayTrades(rs)
    ensures out == DayResult(fc, qs, rs)
  {
    hide SymbolFeed.Valid;
    hide SymbolFeed.OnTime;
    hide DayResult;
    hide TradesBySpec;
    hide Kept;
    hide TwoSidedOf;
    hide OneSided;
    var feed := new SymbolFeed(fc);
    var i, j, nxt := 0, 0, 0;
    assert Replaying(feed, fc, delay, qs, rs, i, j, nxt);
    hide Replaying;
    while i < |qs| || j < |rs|
      invariant i <= |qs| && j <= |rs|
      invariant fresh(feed.Repr()) && Replaying(feed, fc, delay, qs, rs, i, j, nxt)
      decreases |qs| - i + |rs| - j
    {
      if i < |qs| && (j == |rs| || qs[i].ts <= rs[j].ts) {
        nxt := TickDue(feed, fc, delay, qs, rs, i, j, nxt, qs[i].ts);
        FeedQuote(feed, fc, delay, qs, rs, i, j, nxt);
        i := i + 1;
      } else {
        nxt := TickDue(feed, fc, delay, qs, rs, i, j, nxt, rs[j].ts);
        FeedTrade(feed, fc, delay, qs, rs, i, j, nxt);
        j := j + 1;
      }
    }
    nxt := TickDue(feed, fc, delay, qs, rs, i, j, nxt, Ms(DAY) + delay);
    out := FinishReplay(feed, fc, delay, qs, rs, nxt);
  }

  method FinishReplay(feed: SymbolFeed, fc: FeedConfig, ghost delay: int, ghost qs: seq<Quote>, ghost rs: seq<TradeRec>,
                      ghost nxt: int) returns (out: seq<Trade>)
    requires ValidParams(fc.p) && fc.p.sessionClose <= DAY && 0 < delay && DayQuotes(qs)
    requires Replaying(feed, fc, delay, qs, rs, |qs|, |rs|, nxt) && DAY <= nxt
    modifies feed.Repr()
    ensures out == DayResult(fc, qs, rs)
  {
    hide SymbolFeed.OnTime;
    hide TradesBySpec;
    hide Kept;
    hide TwoSidedOf;
    hide Alternating;
    hide VolumeBefore;
    assert qs[..|qs|] == qs && rs[..|rs|] == rs;
    assert feed.engine == null ==> feed.events == [];
    hide SymbolFeed.Valid;
    feed.FinishDay();
    out := ExitsIn(feed.events);
    if qs != [] {
      LateStart(fc, qs, rs, feed.lastT);
    }
  }

  // ---- the batch loop -------------------------------------------------------

  /** Records that change the best quote, quantities scaled. */
  method KeepChanges(qs: seq<Quote>, scale: Positive) returns (keep: seq<Quote>)
    ensures keep == Kept(qs, scale)
  {
    keep := [];
    var i := 0;
    KeptNothing(scale);
    while i < |qs|
      invariant i <= |qs| && keep == Kept(qs[..i], scale)
    {
      KeptOfAppend(qs[..i], qs[i], scale);
      assert qs[..i + 1] == qs[..i] + [qs[i]];
      if i == 0 || !SameTop(qs[i - 1], qs[i]) {
        keep := keep + [Scaled(qs[i], scale)];
      }
      i := i + 1;
    }
    assert qs[..|qs|] == qs;
  }

  /** Quantity per second and side over the whole day. */
  method AddUp(rs: seq<TradeRec>) returns (vol: map<Key, real>)
    requires DayTrades(rs)
    ensures Totals(rs, vol, -1)
  {
    vol := map[];
    var i := 0;
    while i < |rs|
      invariant i <= |rs| && Totals(rs[..i], vol, -1)
    {
      TotalsAdd(rs[..i], vol, -1, rs[i]);
      assert rs[..i + 1] == rs[..i] + [rs[i]];
      vol := Added(vol, (SecOf(rs[i]), SideOf(rs[i])), rs[i].qty);
      i := i + 1;
    }
    assert rs[..|rs|] == rs;
  }

  /** What makes a list of kept quotes acceptable to the engine one by one. */
  ghost predicate Steady(keep: seq<Quote>) {
    && InOrder(keep)
    && (forall i :: 0 <= i < |keep| ==> !OneSided(keep[i]))
    && forall i :: 0 < i < |keep| ==> !SameTop(keep[i - 1], keep[i])
  }

  lemma {:induction false} KeptSteady(qs: seq<Quote>, scale: real)
    requires scale > 0.0 && InOrder(qs) && forall i :: 0 <= i < |qs| ==> !OneSided(qs[i])
    ensures Steady(Kept(qs, scale))
  {
    if qs == [] {
    } else {
      var n, p := |qs|, qs[..|qs| - 1];
      KeptSteady(p, scale);
      if n >= 2 {
        KeptLast(p, scale);
        ScaledSameTop(qs[n - 2], qs[n - 1], scale);
      }
    }
  }

  lemma {:induction false} PrefixAgrees(k: seq<Quote>, n: nat, x: int)
    requires n <= |k| && forall i :: n <= i < |k| ==> x < k[i].ts
    ensures Agree(k, k[..n], x) && Agree(TwoSidedOf(k), TwoSidedOf(k[..n]), x)
  {
    if n < |k| {
      var p, last := k[..|k| - 1], k[|k| - 1];
      PrefixAgrees(p, n, x);
      assert p[..n] == k[..n] && p + [last] == k;
      AppendAgrees(p, last, x);
      TwoSidedOfAppend(p, last);
      AppendAgrees(TwoSidedOf(p), last, x);
    } else {
      assert k[..n] == k;
    }
  }

  lemma SameRun(c: Config, q: seq<Quote>, r: seq<Quote>, f: seq<Quote>, g: seq<Quote>, v: Volume)
    requires ValidParams(c.p) && c.p.sessionClose <= DAY
    requires InOrder(q) && InOrder(r) && InOrder(f) && InOrder(g)
    requires Agree(q, r, Ms(DAY - 1)) && Agree(f, g, Ms(DAY - 1))
    ensures RunAt(c, Logic1, q, f, v, c.p.sessionClose) == RunAt(c, Logic1, r, g, v, c.p.sessionClose)
  {
    hide Step;
    var t := MinInt(c.p.sessionClose, DAY - 1);
    AgreeEarlier(q, r, Ms(DAY - 1), Ms(t));
    AgreeEarlier(f, g, Ms(DAY - 1), Ms(t));
    RunCausal(c, Logic1, q, r, f, g, v, v, t);
    if t < c.p.sessionClose {
      NothingAtClose(c, q, f, v);
      NothingAtClose(c, r, g, v);
    }
  }

  lemma NothingAtClose(c: Config, q: seq<Quote>, f: seq<Quote>, v: Volume)
    requires ValidParams(c.p)
    ensures RunAt(c, Logic1, q, f, v, c.p.sessionClose) == RunAt(c, Logic1, q, f, v, c.p.sessionClose - 1)
  {
    hide Features;
    hide OnHit;
    hide BlockedUntil;
    hide Hit;
    assert !InWindow(c.p, c.p.sessionClose);
  }

  /** Quotes after the last second of the day decide nothing and close nothing. */
  lemma LastSecondIsEnough(c: Config, q: seq<Quote>, r: seq<Quote>, f: seq<Quote>, g: seq<Quote>, v: Volume)
    requires ValidParams(c.p) && EndsInDay(c.p)
    requires InOrder(q) && InOrder(r) && InOrder(f) && InOrder(g)
    requires Agree(q, r, Ms(DAY - 1)) && Agree(f, g, Ms(DAY - 1))
    ensures TradesBySpec(c, Logic1, q, f, v) == TradesBySpec(c, Logic1, r, g, v)
  {
    hide RunAt;
    hide ExitOf;
    hide Crossing;
    SameRun(c, q, r, f, g, v);
    var es := RunAt(c, Logic1, q, f, v, c.p.sessionClose).entries;
    RunEntriesFit(c, Logic1, q, f, v, c.p.sessionClose);
    forall i | 0 <= i < |es| ensures f != [] && g != [] && ExitOf(c, f, es[i]) == ExitOf(c, g, es[i]) {
      assert es[i] in es;
      ExitInDay(c, f, g, es[i]);
    }
    if es != [] {
      assert es[0] in es;
      ExitInDay(c, f, g, es[0]);
      assert ExitsOf(c, f, es) == ExitsOf(c, g, es);
    } else {
      NoEntriesNoTrades(c, q, f, v);
      NoEntriesNoTrades(c, r, g, v);
    }
  }

  lemma NoEntriesNoTrades(c: Config, q: seq<Quote>, f: seq<Quote>, v: Volume)
    requires 0 < c.p.volWin && RunAt(c, Logic1, q, f, v, c.p.sessionClose).entries == []
    ensures TradesBySpec(c, Logic1, q, f, v) == []
  {
    hide RunAt;
  }

  lemma ExitInDay(c: Config, f: seq<Quote>, g: seq<Quote>, e: Entry)
    requires ValidParams(c.p) && EndsInDay(c.p) && InOrder(f) && InOrder(g) && Agree(f, g, Ms(DAY - 1))
             && EntryFits(c, f, e)
    ensures f != [] && g != [] && ExitOf(c, f, e) == ExitOf(c, g, e)
  {
    assert Deadline(c.p, e) <= DAY - 1;
    var n := UpTo(f, Ms(e.tSig));
    AgreeEarlier(f, g, Ms(DAY - 1), Ms(e.tSig));
    assert f[0].ts <= f[n - 1].ts <= Ms(e.tSig);
    ExitCausal(c, e, f, g, Ms(DAY - 1));
  }

  ghost predicate AllBefore(q: seq<Quote>, t: int) {
    forall i :: 0 <= i < |q| ==> q[i].ts < t
  }

  /** The exit of one entry, with and without the quotes of the last second. */
  lemma CutExact(c: Config, f: seq<Quote>, g: seq<Quote>, e: Entry)
    requires ValidParams(c.p) && c.p.sessionClose <= DAY && InOrder(f) && InOrder(g) && Agree(f, g, Ms(DAY - 1))
    requires AllBefore(f, Ms(DAY)) && forall i :: 0 <= i < |g| ==> g[i].ts <= Ms(DAY - 1)
    requires EntryFits(c, f, e)
    ensures f != [] && g != [] && (ExitOf(c, f, e) == ExitOf(c, g, e) <==> !CutOff(c.p, f, e))
  {
    var x, n := Ms(DAY - 1), UpTo(f, Ms(e.tSig));
    AgreeEarlier(f, g, x, Ms(e.tSig));
    assert f[0].ts <= f[n - 1].ts <= Ms(e.tSig);
    if Deadline(c.p, e) < DAY || (FirstCross(c.p, e, f).Some? && f[FirstCross(c.p, e, f).value].ts <= x) {
      ExitCausal(c, e, f, g, x);
    } else if i :| 0 <= i < |f| && x < f[i].ts {
      LateExit(c, f, g, e, i);
    } else {
      UpToUnique(f, x, |f|);
      UpToUnique(g, x, |g|);
      assert f == g;
    }
  }

  lemma LateExit(c: Config, f: seq<Quote>, g: seq<Quote>, e: Entry, i: nat)
    requires InOrder(f) && f != [] && g != [] && Deadline(c.p, e) == DAY && i < |f| && Ms(DAY - 1) < f[i].ts
    requires AllBefore(f, Ms(DAY)) && forall k :: 0 <= k < |g| ==> g[k].ts <= Ms(DAY - 1)
    requires FirstCross(c.p, e, f).Some? ==> Ms(DAY - 1) < f[FirstCross(c.p, e, f).value].ts
    ensures CutOff(c.p, f, e) && ExitOf(c, f, e) != ExitOf(c, g, e)
  {
    hide Crossing;
    hide MakeTrade;
    forall k | 0 <= k < |f| && f[k].ts <= Ms(DAY - 1) ensures Crossing(c.p, e, f[k]).None? {
      if FirstCross(c.p, e, f).Some? {
        assert k < FirstCross(c.p, e, f).value;
      }
    }
    UpToUnique(f, Ms(DAY), |f|);
    assert Ms(DAY - 1) < ExitOf(c, f, e).tOut && ExitOf(c, g, e).tOut <= Ms(DAY - 1);
  }

  lemma FedAgrees(k: seq<Quote>)
    requires InOrder(k)
    ensures Agree(k, Fed(k), Ms(DAY - 1)) && Agree(TwoSidedOf(k), TwoSidedOf(Fed(k)), Ms(DAY - 1))
    ensures InOrder(Fed(k)) && InOrder(TwoSidedOf(Fed(k))) && InOrder(TwoSidedOf(k))
    ensures forall i :: 0 <= i < |TwoSidedOf(Fed(k))| ==> TwoSidedOf(Fed(k))[i].ts <= Ms(DAY - 1)
  {
    var n := UpTo(k, Ms(DAY - 1));
    PrefixAgrees(k, n, Ms(DAY - 1));
    TwoSidedInOrder(k);
    TwoSidedInOrder(k[..n]);
    TwoSidedLast(k[..n], Ms(DAY - 1));
  }

  lemma {:induction false} KeptBefore(qs: seq<Quote>, scale: real, t: int)
    requires AllBefore(qs, t)
    ensures AllBefore(Kept(qs, scale), t) && AllBefore(TwoSidedOf(Kept(qs, scale)), t)
  {
    if qs == [] {
    } else {
      var before, last := qs[..|qs| - 1], qs[|qs| - 1];
      KeptBefore(before, scale, t);
      assert before + [last] == qs && last.ts < t;
      KeptOfAppend(before, last, scale);
      TwoSidedOfAppend(Kept(before, scale), Scaled(last, scale));
      hide Kept;
      hide TwoSidedOf;
    }
  }

  /** The same exits for the same entries. */
  lemma SameExits(c: Config, f: seq<Quote>, g: seq<Quote>, es: seq<Entry>)
    requires es != [] ==> f != [] && g != []
    ensures ExitsOf(c, f, es) == ExitsOf(c, g, es)
       <==> forall i :: 0 <= i < |es| ==> f != [] && g != [] && ExitOf(c, f, es[i]) == ExitOf(c, g, es[i])
  {
    hide ExitOf;
    var a, b := ExitsOf(c, f, es), ExitsOf(c, g, es);
    if a == b {
      forall i | 0 <= i < |es| ensures f != [] && g != [] && ExitOf(c, f, es[i]) == ExitOf(c, g, es[i]) {
        assert a[i] == b[i];
      }
    }
  }

  /** The live path and the batch loop return the same trades if and only if no entry of the day is cut off. */
  lemma LiveIsBatch(fc: FeedConfig, qs: seq<Quote>, rs: seq<TradeRec>)
    requires ValidParams(fc.p) && fc.p.sessionClose <= DAY && qs != [] && DayQuotes(qs)
    ensures DayResult(fc, qs, rs) == BatchResult(fc, qs, rs)
       <==> forall e :: e in EntriesOf(fc, qs, rs) ==> !CutOff(fc.p, TwoSidedOf(Kept(qs, fc.scale)), e)
  {
    var c, k, v := ConfigFor(fc, qs[0]), Kept(qs, fc.scale), VolumeBefore(rs, fc.scale, DAY - 1);
    KeptSteady(qs, fc.scale);
    KeptBefore(qs, fc.scale, Ms(DAY));
    FedAgrees(k);
    var f, g := TwoSidedOf(k), TwoSidedOf(Fed(k));
    assert AllBefore(f, Ms(DAY));
    assert forall i :: 0 <= i < |g| ==> g[i].ts <= Ms(DAY - 1);
    hide Kept;
    hide TwoSidedOf;
    hide VolumeBefore;
    SameRun(c, k, Fed(k), f, g, v);
    var es := RunAt(c, Logic1, k, f, v, c.p.sessionClose).entries;
    RunEntriesFit(c, Logic1, k, f, v, c.p.sessionClose);
    hide Fed;
    hide RunAt;
    hide CutOff;
    hide ExitOf;
    forall i | 0 <= i < |es|
      ensures f != [] && g != [] && (ExitOf(c, f, es[i]) == ExitOf(c, g, es[i]) <==> !CutOff(c.p, f, es[i]))
    {
      assert es[i] in es;
      CutExact(c, f, g, es[i]);
    }
    assert es != [] ==> es[0] in es;
    SameExits(c, f, g, es);
    ByExits(c, k, Fed(k), f, g, v, es);
    hide TradesBySpec;
  }

  lemma ByExits(c: Config, q: seq<Quote>, r: seq<Quote>, f: seq<Quote>, g: seq<Quote>, v: Volume, es: seq<Entry>)
    requires 0 < c.p.volWin && es == RunAt(c, Logic1, q, f, v, c.p.sessionClose).entries
    requires es == RunAt(c, Logic1, r, g, v, c.p.sessionClose).entries && (es != [] ==> f != [] && g != [])
    ensures TradesBySpec(c, Logic1, q, f, v) == ExitsOf(c, f, es)
            && TradesBySpec(c, Logic1, r, g, v) == ExitsOf(c, g, es)
  {
    hide RunAt;
    hide ExitOf;
  }

  /** In particular when no deadline can fall on midnight. */
  lemma NeverCutOff(fc: FeedConfig, qs: seq<Quote>, rs: seq<TradeRec>)
    requires ValidParams(fc.p) && EndsInDay(fc.p) && qs != [] && DayQuotes(qs)
    ensures DayResult(fc, qs, rs) == BatchResult(fc, qs, rs)
  {
    LiveIsBatch(fc, qs, rs);
    var c, k, v := ConfigFor(fc, qs[0]), Kept(qs, fc.scale), VolumeBefore(rs, fc.scale, DAY - 1);
    RunEntriesFit(c, Logic1, k, TwoSidedOf(k), v, c.p.sessionClose);
    hide RunAt;
    hide DayResult;
    hide BatchResult;
    hide Kept;
    hide TwoSidedOf;
  }

  // ---- the loop over the seconds of the day ---------------------------------

  ghost predicate Batching(e: SymbolEngine, c: Config, keep: seq<Quote>, rs: seq<TradeRec>, left: map<Key, real>,
                           scale: real, qi: nat, t: int)
    reads e
    requires ValidParams(c.p)
  {
    && e.Valid() && e.c == c && FedBefore(e, left, scale, rs, t - 1)
    && e.lastT <= MaxInt(t - 1, c.p.entryStart - 1)
    && qi <= |keep| && e.Q == keep[..qi] && e.F == TwoSidedOf(keep[..qi])
    && (qi < |keep| ==> Ms(t - 1) < keep[qi].ts)
  }

  /** The quotes fed so far are not after second `t`. */
  ghost predicate FedBy(keep: seq<Quote>, qi: nat, t: int) {
    qi <= |keep| && (qi > 0 ==> keep[qi - 1].ts <= Ms(t))
  }

  lemma SteadyPrefix(keep: seq<Quote>, n: nat)
    requires Steady(keep) && n < |keep|
    ensures !OneSided(keep[n]) && InOrder(keep[..n]) && InOrder(TwoSidedOf(keep[..n]))
    ensures n > 0 ==> keep[..n][n - 1].ts <= keep[n].ts && !SameTop(keep[..n][n - 1], keep[n])
    ensures var f := TwoSidedOf(keep[..n]); f != [] ==> f[|f| - 1].ts <= keep[n].ts
    ensures TwoSidedOf(keep[..n + 1])
         == if TwoSided(keep[n]) then TwoSidedOf(keep[..n]) + [keep[n]] else TwoSidedOf(keep[..n])
    ensures keep[..n + 1] == keep[..n] + [keep[n]]
  {
    assert keep[..n + 1] == keep[..n] + [keep[n]];
    TwoSidedOfAppend(keep[..n], keep[n]);
    TwoSidedInOrder(keep[..n]);
    TwoSidedLast(keep[..n], keep[n].ts);
  }

  method BatchQuote(e: SymbolEngine, ghost c: Config, keep: seq<Quote>, ghost rs: seq<TradeRec>,
                    ghost left: map<Key, real>, ghost scale: real, qi: nat, ghost t: int)
    requires ValidParams(c.p) && Steady(keep) && Batching(e, c, keep, rs, left, scale, qi, t) && qi < |keep|
    modifies e
    ensures Batching(e, c, keep, rs, left, scale, qi + 1, t)
  {
    hide SymbolEngine.Valid;
    hide SymbolEngine.Tracks;
    hide TwoSidedOf;
    hide TwoSided;
    hide OneSided;
    hide SameTop;
    hide Totals;
    hide VolumeBefore;
    hide Grows;
    SteadyPrefix(keep, qi);
    assert qi + 1 < |keep| ==> keep[qi].ts <= keep[qi + 1].ts;
    hide Steady;
    Both(e, keep[qi]);
  }

  /** Quotes up to second `t`. */
  method BatchQuotes(e: SymbolEngine, ghost c: Config, keep: seq<Quote>, ghost rs: seq<TradeRec>,
                     ghost left: map<Key, real>, ghost scale: real, from: nat, t: int) returns (qi: nat)
    requires ValidParams(c.p) && Steady(keep) && Batching(e, c, keep, rs, left, scale, from, t) && FedBy(keep, from, t)
    modifies e
    ensures Batching(e, c, keep, rs, left, scale, qi, t) && FedBy(keep, qi, t) && (qi < |keep| ==> Ms(t) < keep[qi].ts)
  {
    hide SymbolEngine.Valid;
    hide FedBefore;
    hide TwoSidedOf;
    hide Steady;
    qi := from;
    while qi < |keep| && keep[qi].ts <= Ms(t)
      invariant Batching(e, c, keep, rs, left, scale, qi, t) && FedBy(keep, qi, t)
      decreases |keep| - qi
    {
      BatchQuote(e, c, keep, rs, left, scale, qi, t);
      qi := qi + 1;
    }
  }

  /** One round of the loop: quotes up to `t`, trades before `t`, then the decision. */
  method BatchSecond(e: SymbolEngine, ghost c: Config, keep: seq<Quote>, ghost rs: seq<TradeRec>,
                     m: map<Key, real>, scale: Positive, from: nat, t: nat) returns (qi: nat, left: map<Key, real>)
    requires ValidParams(c.p) && Steady(keep) && Batching(e, c, keep, rs, m, scale, from, t) && FedBy(keep, from, t)
    modifies e
    ensures Batching(e, c, keep, rs, left, scale, qi, t + 1) && FedBy(keep, qi, t)
  {
    hide SymbolEngine.Valid;
    hide SymbolEngine.Tracks;
    hide TwoSidedOf;
    hide Totals;
    hide VolumeBefore;
    hide Steady;
    hide Grows;
    qi := BatchQuotes(e, c, keep, rs, m, scale, from, t);
    left := GiveSeconds(e, m, t, scale, rs, t - 1);
    e.Advance(t);
  }

  /** The plain loop over the seconds of the day. */
  method BatchSeconds(e: SymbolEngine, ghost c: Config, keep: seq<Quote>, ghost rs: seq<TradeRec>, m: map<Key, real>,
                      scale: Positive)
      returns (out: seq<Trade>)
    requires ValidParams(c.p) && c.p.sessionClose <= DAY && Steady(keep) && Batching(e, c, keep, rs, m, scale, 0, 0)
    modifies e
    ensures out == TradesBySpec(c, Logic1, Fed(keep), TwoSidedOf(Fed(keep)), VolumeBefore(rs, scale, DAY - 1))
  {
    hide Batching;
    hide Steady;
    hide ValidParams;
    hide TradesBySpec;
    hide Fed;
    hide TwoSidedOf;
    hide VolumeBefore;
    var left, qi, t := m, 0, 0;
    while t < DAY
      invariant 0 <= t <= DAY && Batching(e, c, keep, rs, left, scale, qi, t)
      invariant FedBy(keep, qi, if t == 0 then 0 else t - 1)
    {
      qi, left := BatchSecond(e, c, keep, rs, left, scale, qi, t);
      t := t + 1;
    }
    out := BatchEnd(e, c, keep, rs, left, scale, qi);
  }

  method BatchLoop(fc: FeedConfig, qs: seq<Quote>, rs: seq<TradeRec>) returns (out: seq<Trade>)
    requires ValidParams(fc.p) && fc.p.sessionClose <= DAY && qs != [] && DayQuotes(qs) && DayTrades(rs)
    ensures out == BatchResult(fc, qs, rs)
  {
    hide SymbolEngine.Valid;
    hide SymbolEngine.Tracks;
    hide Kept;
    hide TwoSidedOf;
    hide Totals;
    hide TradesOf;
    hide TradesBySpec;
    hide OneSided;
    hide Grows;
    var keep := KeepChanges(qs, fc.scale);
    KeptSteady(qs, fc.scale);
    hide Steady;
    var left := AddUp(rs);
    ghost var c := ConfigFor(fc, qs[0]);
    var e := new SymbolEngine(ConfigFor(fc, qs[0]));
    KeptFrom(qs, fc.scale, 0);
    Starting(e, c, keep, rs, left, fc.scale);
    hide Batching;
    hide DayQuotes;
    hide DayTrades;
    hide ConfigFor;
    out := BatchSeconds(e, c, keep, rs, left, fc.scale);
  }

  /** The batch loop returns the day as the live path does if and only if no entry is cut off. */
  method RunBatch(fc: FeedConfig, qs: seq<Quote>, rs: seq<TradeRec>) returns (out: seq<Trade>)
    requires ValidParams(fc.p) && fc.p.sessionClose <= DAY && qs != [] && DayQuotes(qs) && DayTrades(rs)
    ensures out == BatchResult(fc, qs, rs)
    ensures (forall e :: e in EntriesOf(fc, qs, rs) ==> !CutOff(fc.p, TwoSidedOf(Kept(qs, fc.scale)), e))
       <==> out == DayResult(fc, qs, rs)
  {
    hide *;
    out := BatchLoop(fc, qs, rs);
    LiveIsBatch(fc, qs, rs);
  }

  lemma Starting(e: SymbolEngine, c: Config, keep: seq<Quote>, rs: seq<TradeRec>, left: map<Key, real>, scale: real)
    requires ValidParams(c.p) && e.Valid() && e.Tracks() && e.c == c && e.lastT == c.p.entryStart - 1
    requires e.Q == [] && e.F == [] && e.V == map[] && Totals(rs, left, -1)
    requires forall i :: 0 <= i < |keep| ==> 0 <= keep[i].ts
    ensures Batching(e, c, keep, rs, left, scale, 0, 0)
  {
    hide SymbolEngine.Valid;
    hide SymbolEngine.Tracks;
    hide Totals;
    assert keep[..0] == [];
    assert VolumeBefore(rs, scale, -1) == map[];
  }

  method BatchEnd(e: SymbolEngine, ghost c: Config, ghost keep: seq<Quote>, ghost rs: seq<TradeRec>,
                  ghost left: map<Key, real>, ghost scale: real, ghost qi: nat) returns (out: seq<Trade>)
    requires ValidParams(c.p) && c.p.sessionClose <= DAY && Steady(keep)
    requires Batching(e, c, keep, rs, left, scale, qi, DAY) && FedBy(keep, qi, DAY - 1)
    modifies e
    ensures out == TradesBySpec(c, Logic1, Fed(keep), TwoSidedOf(Fed(keep)), VolumeBefore(rs, scale, DAY - 1))
  {
    hide SymbolEngine.Valid;
    hide SymbolEngine.Tracks;
    hide TwoSidedOf;
    hide TwoSided;
    hide OneSided;
    hide SameTop;
    hide Totals;
    hide VolumeBefore;
    hide TradesOf;
    hide TradesBySpec;
    hide Agree;
    UpToUnique(keep, Ms(DAY - 1), qi);
    assert Fed(keep) == keep[..qi];
    e.Finish();
    out := TradesOf(e.trades, Logic1);
  }
}
