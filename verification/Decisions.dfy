/** A day of one logic in quotes, volumes and prices: when a second counts or trades, at what price, and how
    every trade ends.  Nothing here refers to the rules of `Signal`; the lemmas say that they come to this. */
module Decisions {
  import opened Basics
  import opened Tape
  import opened Signal
  import opened Causality

  /** The last quote at or before `x`. */
  ghost predicate LastBy(q: seq<Quote>, x: int, i: int) {
    0 <= i < |q| && q[i].ts <= x && (i + 1 < |q| ==> x < q[i + 1].ts)
  }

  ghost predicate NoneBy(q: seq<Quote>, x: int) {
    q == [] || x < q[0].ts
  }

  lemma UpToIs(q: seq<Quote>, x: int)
    requires InOrder(q)
    ensures NoneBy(q, x) <==> UpTo(q, x) == 0
    ensures forall i :: LastBy(q, x, i) <==> 0 <= i && i + 1 == UpTo(q, x)
  {
    var n := UpTo(q, x);
    assert IsUpTo(q, x, n);
    forall i ensures LastBy(q, x, i) <==> 0 <= i && i + 1 == n {
      if LastBy(q, x, i) {
        UpToUnique(q, x, i + 1);
      }
    }
  }

  // ---- the two sums ---------------------------------------------------------

  /** What a quote contributes to the imbalance after `a`, case by case; a side without a price has no size. */
  predicate Contributes(a: Quote, b: Quote, e: real) {
    var bid, was := if b.bid > 0.0 then b.bidQty else 0.0, if a.bid > 0.0 then a.bidQty else 0.0;
    var ask, had := if b.ask > 0.0 then b.askQty else 0.0, if a.ask > 0.0 then a.askQty else 0.0;
    && (b.bid > a.bid && b.ask > a.ask ==> e == bid + had)
    && (b.bid > a.bid && b.ask == a.ask ==> e == bid - ask + had)
    && (b.bid > a.bid && b.ask < a.ask ==> e == bid - ask)
    && (b.bid == a.bid && b.ask > a.ask ==> e == bid - was + had)
    && (b.bid == a.bid && b.ask == a.ask ==> e == bid - was - ask + had)
    && (b.bid == a.bid && b.ask < a.ask ==> e == bid - was - ask)
    && (b.bid < a.bid && b.ask > a.ask ==> e == had - was)
    && (b.bid < a.bid && b.ask == a.ask ==> e == had - was - ask)
    && (b.bid < a.bid && b.ask < a.ask ==> e == -was - ask)
  }

  /** The window sum is determined: nothing for no quote and for a day's first, and for any other quote in
      (lo, hi] what it contributes after its predecessor. */
  lemma ImbalanceIsSum(q: seq<Quote>, b: Quote, lo: int, hi: int)
    ensures ImbalanceIn([], lo, hi) == 0.0
    ensures q == [] || !(lo < b.ts <= hi) ==> ImbalanceIn(q + [b], lo, hi) == ImbalanceIn(q, lo, hi)
    ensures q != [] && lo < b.ts <= hi ==>
              Contributes(q[|q| - 1], b, ImbalanceIn(q + [b], lo, hi) - ImbalanceIn(q, lo, hi))
  {
    assert (q + [b])[..|q|] == q;
  }

  /** Volume of (lo, hi], second by second. */
  lemma VolumeIsSum(v: Volume, lo: int, hi: int)
    ensures hi <= lo ==> VolumeIn(v, lo, hi) == 0
    ensures lo < hi ==> VolumeIn(v, lo, hi) - VolumeIn(v, lo, hi - 1) == if hi in v then v[hi] else 0
  {
  }

  // ---- when there is a signal -----------------------------------------------

  /** The price moved far enough one way and the imbalance per minute's volume far enough the other. */
  predicate Reverses(c: Config, lg: Logic, midA: real, midB: real, ofi: real, volume: int) {
    var move := (c.ln(midB) - c.ln(midA)) * 10000.0;
    && volume > 0
    && if lg == Logic1 then move >= c.p.moveBp && ofi * c.p.volWin as real < -c.p.ofiTh * (volume as real * 60.0)
       else move <= -c.p.moveBp && ofi * c.p.volWin as real > c.p.ofiTh * (volume as real * 60.0)
  }

  /** Second `t` signals, seen from the data up to t - guard. */
  ghost predicate Signals(c: Config, lg: Logic, q: seq<Quote>, v: Volume, t: int) {
    exists a, b :: SignalsAt(c, lg, q, v, t, a, b)
  }

  ghost predicate SignalsAt(c: Config, lg: Logic, q: seq<Quote>, v: Volume, t: int, a: int, b: int) {
    var cut := t - c.p.guard;
    && c.p.sessionOpen <= cut - c.p.ofiWin - c.p.volWin && c.p.sessionOpen <= cut - c.p.moveWin
    && LastBy(q, 1000 * (cut - c.p.moveWin), a) && LastBy(q, 1000 * cut, b)
    && Reverses(c, lg, (q[a].bid + q[a].ask) / 2.0, (q[b].bid + q[b].ask) / 2.0,
                ImbalanceIn(q, 1000 * (cut - c.p.ofiWin), 1000 * cut),
                VolumeIn(v, cut - c.p.ofiWin - c.p.volWin, cut - c.p.ofiWin))
  }

  lemma Scaled(x: real, y: real, k: real)
    requires k > 0.0
    ensures x < y <==> x * k < y * k
  {
    if x < y {
      assert (y - x) * k > 0.0;
    } else {
      assert (x - y) * k >= 0.0;
    }
  }

  /** A quotient by volume per minute, multiplied out. */
  lemma PerMinute(ofi: real, volume: real, win: real, th: real)
    requires win > 0.0
    ensures var perMin := volume / (win / 60.0);
            && (perMin > 0.0 <==> volume > 0.0)
            && perMin * win == volume * 60.0
            && (perMin > 0.0 ==> ((ofi / perMin < th <==> ofi * win < th * (volume * 60.0))
                                  && (ofi / perMin > th <==> ofi * win > th * (volume * 60.0))))
  {
    var perMin := volume / (win / 60.0);
    assert perMin * (win / 60.0) == volume;
    assert perMin * win == perMin * (win / 60.0) * 60.0;
    Scaled(0.0, perMin, win / 60.0);
    if perMin > 0.0 {
      var r, k := ofi / perMin, perMin * win;
      assert r * perMin == ofi;
      assert r * k == r * perMin * win;
      Scaled(0.0, perMin, win);
      Scaled(r, th, k);
      Scaled(th, r, k);
    }
  }

  /** Where the measurements are taken. */
  lemma InputsAre(p: Params, q: seq<Quote>, v: Volume, t: int, a: int, b: int)
    requires InOrder(q)
    ensures var i, cut := InputsAt(p, q, v, t), t - p.guard;
            && (i.Some? <==> p.sessionOpen <= cut - p.ofiWin - p.volWin && p.sessionOpen <= cut - p.moveWin
                             && !NoneBy(q, 1000 * (cut - p.moveWin)) && !NoneBy(q, 1000 * cut))
            && (i.Some? && LastBy(q, 1000 * (cut - p.moveWin), a) && LastBy(q, 1000 * cut, b) ==>
                  i.value == Inputs((q[a].bid + q[a].ask) / 2.0, (q[b].bid + q[b].ask) / 2.0,
                                    ImbalanceIn(q, 1000 * (cut - p.ofiWin), 1000 * cut),
                                    VolumeIn(v, cut - p.ofiWin - p.volWin, cut - p.ofiWin)))
  {
    var cut := t - p.guard;
    UpToIs(q, Ms(cut - p.moveWin));
    UpToIs(q, Ms(cut));
    hide ImbalanceIn;
    hide VolumeIn;
    hide UpTo;
  }

  lemma SignalAt(c: Config, lg: Logic, q: seq<Quote>, v: Volume, t: int, a: int, b: int)
    requires InOrder(q) && 0 < c.p.volWin
    requires LastBy(q, 1000 * (t - c.p.guard - c.p.moveWin), a) && LastBy(q, 1000 * (t - c.p.guard), b)
    ensures var f := Features(c, q, v, t);
            && ((f.Some? && Hit(c.p, lg, f.value)) <==> SignalsAt(c, lg, q, v, t, a, b))
            && (f.Some? ==> Shows(c, q, v, t, a, b, f.value))
  {
    hide InputsAt;
    hide ImbalanceIn;
    hide VolumeIn;
    hide Measured;
    hide Reverses;
    hide Hit;
    InputsAre(c.p, q, v, t, a, b);
    SomeBy(q, 1000 * (t - c.p.guard - c.p.moveWin), a);
    SomeBy(q, 1000 * (t - c.p.guard), b);
    hide NoneBy;
    hide LastBy;
    var i := InputsAt(c.p, q, v, t);
    if i.Some? {
      MeasuredIs(c, lg, i.value);
    }
  }

  lemma SomeBy(q: seq<Quote>, x: int, i: int)
    requires InOrder(q) && LastBy(q, x, i)
    ensures !NoneBy(q, x) && 0 <= i < |q|
  {
  }

  /** The indicators of a second show a hit exactly if it signals. */
  lemma SignalIs(c: Config, lg: Logic, q: seq<Quote>, v: Volume, t: int)
    requires InOrder(q) && 0 < c.p.volWin
    ensures var f := Features(c, q, v, t); (f.Some? && Hit(c.p, lg, f.value)) <==> Signals(c, lg, q, v, t)
    ensures forall a, b :: SignalsAt(c, lg, q, v, t, a, b) ==>
              Features(c, q, v, t).Some? && Shows(c, q, v, t, a, b, Features(c, q, v, t).value)
  {
    hide Features;
    hide Hit;
    hide Shows;
    forall a, b | SignalsAt(c, lg, q, v, t, a, b)
      ensures var f := Features(c, q, v, t); f.Some? && Hit(c.p, lg, f.value) && Shows(c, q, v, t, a, b, f.value)
    {
      SignalAt(c, lg, q, v, t, a, b);
    }
    var x, y := 1000 * (t - c.p.guard - c.p.moveWin), 1000 * (t - c.p.guard);
    UpToIs(q, x);
    UpToIs(q, y);
    var a, b := UpTo(q, x) - 1, UpTo(q, y) - 1;
    if 0 <= a && 0 <= b {
      SignalAt(c, lg, q, v, t, a, b);
    } else {
      InputsAre(c.p, q, v, t, a, b);
      NoInputs(c, q, v, t);
    }
    hide SignalsAt;
  }

  lemma NoInputs(c: Config, q: seq<Quote>, v: Volume, t: int)
    requires 0 < c.p.volWin && InputsAt(c.p, q, v, t).None?
    ensures Features(c, q, v, t).None?
  {
    hide InputsAt;
  }

  /** What an entry remembers of its signal. */
  ghost predicate Shows(c: Config, q: seq<Quote>, v: Volume, t: int, a: int, b: int, f: Feat) {
    var cut := t - c.p.guard;
    && 0 <= a < |q| && 0 <= b < |q|
    && f.midStart == (q[a].bid + q[a].ask) / 2.0 && f.midCut == (q[b].bid + q[b].ask) / 2.0
    && f.pastBp == (c.ln(f.midCut) - c.ln(f.midStart)) * 10000.0
    && f.ofi == ImbalanceIn(q, 1000 * (cut - c.p.ofiWin), 1000 * cut)
    && f.volPerMin * c.p.volWin as real == VolumeIn(v, cut - c.p.ofiWin - c.p.volWin, cut - c.p.ofiWin) as real * 60.0
    && f.ofiRatio * f.volPerMin == f.ofi
  }

  lemma MeasuredIs(c: Config, lg: Logic, i: Inputs)
    requires 0 < c.p.volWin
    ensures var f := Measured(c, i);
            && ((f.Some? && Hit(c.p, lg, f.value)) <==> Reverses(c, lg, i.midA, i.midB, i.ofi, i.volume))
            && (f.Some? ==>
                  && f.value.midStart == i.midA && f.value.midCut == i.midB && f.value.ofi == i.ofi
                  && f.value.pastBp == (c.ln(i.midB) - c.ln(i.midA)) * 10000.0
                  && f.value.volPerMin * c.p.volWin as real == i.volume as real * 60.0
                  && f.value.ofiRatio * f.value.volPerMin == i.ofi)
  {
    var win := c.p.volWin as real;
    PerMinute(i.ofi, i.volume as real, win, c.p.ofiTh);
    PerMinute(i.ofi, i.volume as real, win, -c.p.ofiTh);
    var perMin := i.volume as real / (win / 60.0);
    if perMin > 0.0 {
      assert i.ofi / perMin * perMin == i.ofi;
    }
  }

  // ---- when a position ends -------------------------------------------------

  /** The quote closes the position: after the entry, within the holding time, at a price of the exit side that
      reaches the target or the stop. */
  predicate Closes(p: Params, e: Entry, q: Quote) {
    var px := if e.logic == Logic1 then q.ask else q.bid;
    && e.tIn < q.ts <= 1000 * (e.tSig + p.hold) && px > 0.0 && (AtTarget(p, e, q) || AtStop(p, e, q))
  }

  lemma CrossingIs(p: Params, e: Entry, q: Quote)
    ensures Crossing(p, e, q) == if !Closes(p, e, q) then None
                                 else if AtTarget(p, e, q) then Some(TakeProfit) else Some(StopLoss)
  {
  }

  /** Quote `i` ends the position, for this reason. */
  ghost predicate EndsAt(p: Params, e: Entry, f: seq<Quote>, i: int, why: Reason) {
    && 0 <= i < |f|
    && if why == TimeUp then LastBy(f, 1000 * (e.tSig + p.hold), i) && forall j :: 0 <= j < |f| ==> !Closes(p, e, f[j])
       else
         && Closes(p, e, f[i]) && (forall j :: 0 <= j < i ==> !Closes(p, e, f[j]))
         && (why == TakeProfit <==> AtTarget(p, e, f[i]))
  }

  /** Every figure of a trade: bought back at the ask, sold at the bid, gross by the logarithm, net of costs. */
  ghost predicate TradeIs(c: Config, f: seq<Quote>, e: Entry, tr: Trade) {
    && tr.entry == e
    && (exists i :: EndsAt(c.p, e, f, i, tr.reason) && tr.tOut == f[i].ts
                    && tr.pOut == if e.logic == Logic1 then f[i].ask else f[i].bid)
    && (e.pIn != 0.0 ==> tr.pnlBp == (if e.logic == Logic1 then -1.0 else 1.0) * c.ln(tr.pOut / e.pIn) * 10000.0)
    && tr.netBp == tr.pnlBp - c.p.costBp
  }

  lemma ExitIs(c: Config, f: seq<Quote>, e: Entry)
    requires InOrder(f) && ValidParams(c.p) && EntryFits(c, f, e)
    ensures TradeIs(c, f, e, ExitOf(c, f, e))
  {
    var d := 1000 * (e.tSig + c.p.hold);
    forall q: Quote { CrossingIs(c.p, e, q); }
    UpToIs(f, d);
    var n := UpTo(f, Ms(e.tSig));
    assert f[n - 1].ts <= Ms(e.tSig) <= d;
    hide Crossing;
    hide Closes;
    var i := FirstCross(c.p, e, f);
    if i.Some? {
      assert EndsAt(c.p, e, f, i.value, ExitOf(c, f, e).reason);
    } else {
      assert EndsAt(c.p, e, f, UpTo(f, d) - 1, TimeUp);
    }
  }

  // ---- one second of a day --------------------------------------------------

  /** The last entry is still open just after `t`: its time is not up and nothing has closed it. */
  ghost predicate Open(p: Params, f: seq<Quote>, es: seq<Entry>, t: int) {
    && es != []
    && var e := es[|es| - 1];
       && t < e.tSig + p.hold
       && forall i :: 0 <= i < |f| && f[i].ts <= 1000 * t ==> !Closes(p, e, f[i])
  }

  lemma OpenIs(p: Params, f: seq<Quote>, run: Run, t: int)
    requires InOrder(f)
    ensures Busy(p, f, run, t) <==> Open(p, f, run.entries, t)
  {
    if run.entries != [] {
      var e := run.entries[|run.entries| - 1];
      forall q: Quote { CrossingIs(p, e, q); }
      var i := FirstCross(p, e, f);
      if i.Some? && f[i.value].ts <= 1000 * t {
        assert Closes(p, e, f[i.value]);
      }
    }
  }

  /** The futures quote is at the limit band, or the band is unknown. */
  predicate AtBand(c: Config, fut: Quote) {
    c.futBase.None?
    || var base := c.futBase.value;
       var away := ((fut.bid + fut.ask) / 2.0 - base) * 10000.0;
       away >= base * c.p.futLimitBp || -away >= base * c.p.futLimitBp
  }

  /** Too few units wait on the side to be hit, or the futures spread is too many ticks above the stock spread. */
  predicate TooThin(c: Config, lg: Logic, stock: Quote, fut: Quote) {
    || (if lg == Logic1 then fut.bidQty else fut.askQty) < c.p.futMinRem as real
    || fut.ask - fut.bid - (stock.ask - stock.bid)
       >= c.p.futGapTicks as real * c.tick((stock.bid + stock.ask) / 2.0)
  }

  lemma BandIs(c: Config, fut: Quote)
    ensures NearLimit(c, fut) <==> AtBand(c, fut)
  {
    if c.futBase.Some? {
      var base, m, lim := c.futBase.value, (fut.bid + fut.ask) / 2.0, c.p.futLimitBp / 10000.0;
      assert lim * 10000.0 == c.p.futLimitBp;
      assert base * lim * 10000.0 == base * c.p.futLimitBp;
      assert base * (1.0 + lim) == base + base * lim && base * (1.0 - lim) == base - base * lim;
    }
  }

  lemma ThinIs(c: Config, lg: Logic, stock: Quote, fut: Quote)
    ensures Filtered(c, lg, stock, fut) <==> TooThin(c, lg, stock, fut)
  {
    var wide, tick := fut.ask - fut.bid - (stock.ask - stock.bid), c.tick((stock.bid + stock.ask) / 2.0);
    assert wide / tick * tick == wide;
    Scaled(wide / tick, c.p.futGapTicks as real, tick);
  }

  /** What a signal of an idle logic comes to: it prolongs a chain of skipped ones, is counted for want of a
      futures quote or at the limit band, is skipped by the filter, or enters at the bid or ask in force. */
  ghost predicate SignalDoes(c: Config, lg: Logic, q: seq<Quote>, f: seq<Quote>, v: Volume, t: int,
                             was: Run, now: Run) {
    if was.lastSkip.Some? && t - was.lastSkip.value <= c.p.skipChain
    then now == was.(lastSkip := Some(t), counts := was.counts.(chained := was.counts.chained + 1))
    else if NoneBy(f, 1000 * t) then now == was.(counts := was.counts.(noFut := was.counts.noFut + 1))
    else
      exists i, k :: LastBy(q, 1000 * t, i) && LastBy(f, 1000 * t, k)
        && if AtBand(c, f[k]) then now == was.(counts := was.counts.(nearLimit := was.counts.nearLimit + 1))
           else if TooThin(c, lg, q[i], f[k])
           then now == was.(lastSkip := Some(t), counts := was.counts.(skipped := was.counts.skipped + 1))
           else Enters(c, lg, q, v, t, f[k], was, now)
  }

  ghost predicate Enters(c: Config, lg: Logic, q: seq<Quote>, v: Volume, t: int, fut: Quote, was: Run, now: Run) {
    && now.entries != []
    && var e := now.entries[|now.entries| - 1];
       && now == was.(entries := was.entries + [e])
       && e.logic == lg && e.tSig == t && e.tIn == fut.ts && e.pIn == (if lg == Logic1 then fut.bid else fut.ask)
       && exists a, b :: SignalsAt(c, lg, q, v, t, a, b) && Shows(c, q, v, t, a, b, e.feat)
  }

  /** The decision of one second, from nothing but the streams and the run so far: unless the second is inside
      the entry window, the logic is idle and there is a signal, nothing happens. */
  lemma StepIs(c: Config, lg: Logic, q: seq<Quote>, f: seq<Quote>, v: Volume, t: int, run: Run)
    requires ValidParams(c.p) && InOrder(q) && InOrder(f)
    ensures var next := Step(c, lg, q, f, v, t, run);
            if c.p.entryStart <= t < c.p.entryEnd && t + c.p.hold <= c.p.sessionClose
               && !Open(c.p, f, run.entries, t) && Signals(c, lg, q, v, t)
            then SignalDoes(c, lg, q, f, v, t, run, next) && next != run
            else next == run
  {
    OpenIs(c.p, f, run, t);
    SignalIs(c, lg, q, v, t);
    hide Open;
    hide Busy;
    if Signals(c, lg, q, v, t) {
      HitDoes(c, lg, q, f, v, t, run);
    }
    hide *;
  }

  lemma HitDoes(c: Config, lg: Logic, q: seq<Quote>, f: seq<Quote>, v: Volume, t: int, run: Run)
    requires ValidParams(c.p) && InOrder(q) && InOrder(f) && Signals(c, lg, q, v, t)
    ensures Features(c, q, v, t).Some?
    ensures var next := OnHit(c, lg, q, f, t, Features(c, q, v, t).value, run);
            SignalDoes(c, lg, q, f, v, t, run, next) && next != run
  {
    SignalIs(c, lg, q, v, t);
    var a, b :| SignalsAt(c, lg, q, v, t, a, b);
    var i, k := UpTo(q, Ms(t)) - 1, UpTo(f, Ms(t)) - 1;
    UpToIs(q, Ms(t));
    UpToIs(f, Ms(t));
    assert q[b].ts <= 1000 * t;
    assert i >= 0 by {
      assert InOrder(q) && q[0].ts <= q[b].ts;
    }
    hide SignalsAt;
    hide Shows;
    hide Features;
    if k >= 0 {
      BandIs(c, f[k]);
      ThinIs(c, lg, q[i], f[k]);
      assert LastBy(q, 1000 * t, i) && LastBy(f, 1000 * t, k);
    }
    hide NearLimit;
    hide Filtered;
    hide AtBand;
    hide TooThin;
  }

  // ---- the whole day --------------------------------------------------------

  /** The run of a day starts fresh and takes these decisions second by second. */
  lemma DayIs(c: Config, lg: Logic, q: seq<Quote>, f: seq<Quote>, v: Volume, t: int)
    requires ValidParams(c.p) && InOrder(q) && InOrder(f)
    ensures t < c.p.entryStart ==> RunAt(c, lg, q, f, v, t) == Run([], None, Counts(0, 0, 0, 0))
    ensures c.p.entryStart <= t ==>
              var was, now := RunAt(c, lg, q, f, v, t - 1), RunAt(c, lg, q, f, v, t);
              if t < c.p.entryEnd && t + c.p.hold <= c.p.sessionClose
                 && !Open(c.p, f, was.entries, t) && Signals(c, lg, q, v, t)
              then SignalDoes(c, lg, q, f, v, t, was, now) && now != was
              else now == was
  {
    if c.p.entryStart <= t {
      StepIs(c, lg, q, f, v, t, RunAt(c, lg, q, f, v, t - 1));
    }
    hide Step;
    hide SignalDoes;
    hide Signals;
    hide Open;
  }

  /** Its trades are its entries up to the close, each ended by the first quote that closes it or at its time. */
  lemma TradesAre(c: Config, lg: Logic, q: seq<Quote>, f: seq<Quote>, v: Volume)
    requires ValidParams(c.p) && InOrder(f)
    ensures var es, ts := RunAt(c, lg, q, f, v, c.p.sessionClose).entries, TradesBySpec(c, lg, q, f, v);
            && |ts| == |es| && forall k :: 0 <= k < |ts| ==> TradeIs(c, f, es[k], ts[k])
  {
    var es := RunAt(c, lg, q, f, v, c.p.sessionClose).entries;
    RunEntriesFit(c, lg, q, f, v, c.p.sessionClose);
    hide RunAt;
    hide TradeIs;
    forall k | 0 <= k < |es| ensures f != [] && TradeIs(c, f, es[k], ExitOf(c, f, es[k])) {
      assert es[k] in es;
      ExitIs(c, f, es[k]);
    }
    hide EntryFits;
    hide ExitOf;
    if es != [] {
      assert es[0] in es;
    }
  }
}
