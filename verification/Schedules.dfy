/** Confluence: any interleaving of feeding and deciding that respects the engine's one rule
    (data before the decision that uses it) gives the trades defined on the streams alone. */
module Schedules {
  import opened Basics
  import opened Tape
  import opened Signal
  import opened LogicViews
  import opened Engine

  datatype Act = Stock(q: Quote) | Future(q: Quote) | Print(sec: int, qty: int, side: int) | Clock(t: int)

  /** The accepted stock quotes of a schedule; clock and other inputs play no part. */
  ghost function StockOf(acts: seq<Act>): seq<Quote> {
    if acts == [] then []
    else
      var before, a := StockOf(acts[..|acts| - 1]), acts[|acts| - 1];
      if !a.Stock? || (before != [] && SameTop(before[|before| - 1], a.q)) then before else before + [a.q]
  }

  ghost function FutureOf(acts: seq<Act>): seq<Quote> {
    if acts == [] then []
    else
      var before, a := FutureOf(acts[..|acts| - 1]), acts[|acts| - 1];
      if a.Future? && TwoSided(a.q) then before + [a.q] else before
  }

  ghost function VolumeOf(acts: seq<Act>): Volume {
    if acts == [] then map[]
    else
      var before, a := VolumeOf(acts[..|acts| - 1]), acts[|acts| - 1];
      if a.Print? && a.side != 0 && a.qty > 0 then AddVolume(before, a.sec, a.qty) else before
  }

  ghost function ClockOf(p: Params, acts: seq<Act>): int {
    if acts == [] then p.entryStart - 1
    else
      var before, a := ClockOf(p, acts[..|acts| - 1]), acts[|acts| - 1];
      if a.Clock? then MaxInt(before, a.t) else before
  }

  /** The rule: quotes in time order and before their second is decided, trades likewise. */
  ghost predicate LegalNext(p: Params, before: seq<Act>, a: Act) {
    var t := ClockOf(p, before);
    match a
    case Stock(q) =>
      var s := StockOf(before);
      Timely(p, t, q.ts) && (s != [] ==> s[|s| - 1].ts <= q.ts)
    case Future(q) =>
      var f := FutureOf(before);
      !OneSided(q) && Timely(p, t, q.ts) && (f != [] ==> f[|f| - 1].ts <= q.ts)
    case Print(sec, qty, side) => side == 0 || qty <= 0 || TimelyTrade(p, t, sec)
    case Clock(_) => true
  }

  ghost predicate Legal(p: Params, acts: seq<Act>) {
    acts != [] ==> Legal(p, acts[..|acts| - 1]) && LegalNext(p, acts[..|acts| - 1], acts[|acts| - 1])
  }

  lemma {:induction false} LegalPrefix(p: Params, acts: seq<Act>, n: nat)
    requires Legal(p, acts) && n <= |acts|
    ensures Legal(p, acts[..n])
  {
    if n < |acts| {
      LegalPrefix(p, acts[..|acts| - 1], n);
      assert acts[..|acts| - 1][..n] == acts[..n];
    } else {
      assert acts[..n] == acts;
    }
  }

  lemma OneMore(p: Params, before: seq<Act>, a: Act)
    ensures var s := StockOf(before);
            StockOf(before + [a]) == if !a.Stock? || (s != [] && SameTop(s[|s| - 1], a.q)) then s else s + [a.q]
    ensures FutureOf(before + [a]) == FutureOf(before) + if a.Future? && TwoSided(a.q) then [a.q] else []
    ensures VolumeOf(before + [a]) == if a.Print? && a.side != 0 && a.qty > 0
                                      then AddVolume(VolumeOf(before), a.sec, a.qty) else VolumeOf(before)
    ensures ClockOf(p, before + [a]) == if a.Clock? then MaxInt(ClockOf(p, before), a.t) else ClockOf(p, before)
  {
    assert (before + [a])[..|before|] == before;
  }

  method Apply(e: SymbolEngine, a: Act, ghost before: seq<Act>)
    requires e.Valid() && 0 < e.c.p.volWin && e.Tracks()
    requires e.Q == StockOf(before) && e.F == FutureOf(before) && e.V == VolumeOf(before)
             && e.lastT == ClockOf(e.c.p, before)
    requires LegalNext(e.c.p, before, a)
    modifies e
    ensures e.Valid() && e.Tracks()
    ensures var now := before + [a];
            e.Q == StockOf(now) && e.F == FutureOf(now) && e.V == VolumeOf(now) && e.lastT == ClockOf(e.c.p, now)
  {
    hide SymbolEngine.Valid;
    hide SymbolEngine.Tracks;
    e.Sound();
    OneMore(e.c.p, before, a);
    hide StockOf;
    hide FutureOf;
    hide VolumeOf;
    hide ClockOf;
    hide AfterFuture;
    hide TwoSided;
    match a {
      case Stock(q) => e.OnQuote(q);
      case Future(q) => e.OnFutQuote(q);
      case Print(sec, qty, side) => e.OnTrade(sec, qty, side);
      case Clock(t) => e.Advance(t);
    }
  }

  /** Whatever the interleaving, and however early later data arrived, the day's trades of each logic
      are a function of the three streams: no schedule, no pruning and no other logic shows in them. */
  method RunSchedule(c: Config, acts: seq<Act>) returns (one: seq<Trade>, two: seq<Trade>)
    requires ValidParams(c.p) && Legal(c.p, acts)
    ensures one == TradesBySpec(c, Logic1, StockOf(acts), FutureOf(acts), VolumeOf(acts))
    ensures two == TradesBySpec(c, Logic2, StockOf(acts), FutureOf(acts), VolumeOf(acts))
  {
    hide SymbolEngine.Valid;
    hide SymbolEngine.Tracks;
    hide TradesBySpec;
    hide LegalNext;
    var e := new SymbolEngine(c);
    var i := 0;
    assert acts[..0] == [];
    while i < |acts|
      invariant i <= |acts| && fresh(e) && e.c == c
      invariant e.Valid() && e.Tracks()
      invariant e.Q == StockOf(acts[..i]) && e.F == FutureOf(acts[..i])
      invariant e.V == VolumeOf(acts[..i]) && e.lastT == ClockOf(c.p, acts[..i])
    {
      LegalPrefix(c.p, acts, i + 1);
      assert acts[..i + 1][..i] == acts[..i] && acts[..i + 1] == acts[..i] + [acts[i]];
      Apply(e, acts[i], acts[..i]);
      i := i + 1;
    }
    assert acts[..|acts|] == acts;
    e.Finish();
    one, two := TradesOf(e.trades, Logic1), TradesOf(e.trades, Logic2);
  }
}
