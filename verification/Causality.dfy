/** The decision at second t looks at nothing after t: two pairs of streams that agree up to t
    give the same run.  Every "arrives early", "arrives later" argument goes through here. */
module Causality {
  import opened Basics
  import opened Tape
  import opened Signal

  /** `q` and `r` hold the same quotes up to time `x`. */
  ghost predicate Agree(q: seq<Quote>, r: seq<Quote>, x: int) {
    UpTo(q, x) == UpTo(r, x) && forall i :: 0 <= i < UpTo(q, x) ==> q[i] == r[i]
  }

  ghost predicate VolumeAgree(v: Volume, w: Volume, last: int) {
    forall s :: s <= last ==> VolumeAt(v, s) == VolumeAt(w, s)
  }

  lemma AgreeEarlier(q: seq<Quote>, r: seq<Quote>, x: int, y: int)
    requires InOrder(q) && InOrder(r) && Agree(q, r, x) && y <= x
    ensures Agree(q, r, y)
    ensures UpTo(q, y) <= UpTo(q, x)
  {
    var n, m := UpTo(q, x), UpTo(q, y);
    assert m > 0 ==> q[m - 1].ts <= x;
    UpToUnique(r, y, m);
  }

  lemma AppendAgrees(q: seq<Quote>, x: Quote, t: int)
    requires t < x.ts
    ensures Agree(q, q + [x], t)
  {
    UpToUnique(q + [x], t, UpTo(q, t));
  }

  // ---- indicators -----------------------------------------------------------

  lemma {:induction false} ImbalanceOfPrefix(q: seq<Quote>, n: nat, lo: int, hi: int)
    requires n <= |q| && forall i :: n <= i < |q| ==> q[i].ts > hi
    ensures ImbalanceIn(q, lo, hi) == ImbalanceIn(q[..n], lo, hi)
  {
    if n < |q| {
      ImbalanceOfPrefix(q[..|q| - 1], n, lo, hi);
      assert q[..|q| - 1][..n] == q[..n];
    } else {
      assert q[..n] == q;
    }
  }

  lemma {:induction false} VolumeCausal(v: Volume, w: Volume, lo: int, hi: int)
    requires VolumeAgree(v, w, hi)
    ensures VolumeIn(v, lo, hi) == VolumeIn(w, lo, hi)
    decreases hi - lo
  {
    if hi <= lo {
    } else {
      VolumeCausal(v, w, lo, hi - 1);
    }
  }

  lemma InputsCausal(p: Params, q: seq<Quote>, r: seq<Quote>, v: Volume, w: Volume, t: int)
    requires ValidParams(p) && InOrder(q) && InOrder(r)
    requires Agree(q, r, Ms(t)) && VolumeAgree(v, w, t - p.guard - p.ofiWin)
    ensures InputsAt(p, q, v, t) == InputsAt(p, r, w, t)
  {
    hide ImbalanceIn;
    hide VolumeIn;
    hide Mid;
    var cut := t - p.guard;
    AgreeEarlier(q, r, Ms(t), Ms(cut - p.moveWin));
    AgreeEarlier(q, r, Ms(t), Ms(cut));
    var b := UpTo(q, Ms(cut));
    assert q[..b] == r[..b];
    ImbalanceOfPrefix(q, b, Ms(cut - p.ofiWin), Ms(cut));
    ImbalanceOfPrefix(r, b, Ms(cut - p.ofiWin), Ms(cut));
    VolumeCausal(v, w, cut - p.ofiWin - p.volWin, cut - p.ofiWin);
  }

  // ---- exits ----------------------------------------------------------------

  lemma CrossCausal(p: Params, e: Entry, f: seq<Quote>, g: seq<Quote>, x: int)
    requires InOrder(f) && InOrder(g) && Agree(f, g, x)
    requires FirstCross(p, e, f).Some? && f[FirstCross(p, e, f).value].ts <= x
    ensures FirstCross(p, e, g) == FirstCross(p, e, f)
    ensures g[FirstCross(p, e, f).value] == f[FirstCross(p, e, f).value]
  {
    var i, n := FirstCross(p, e, f).value, UpTo(f, x);
    assert i < n;
    assert Crossing(p, e, g[i]).Some?;
    assert FirstCross(p, e, g).Some?;
  }

  lemma BlockedCausal(p: Params, e: Entry, f: seq<Quote>, g: seq<Quote>, x: int)
    requires InOrder(f) && InOrder(g) && Agree(f, g, x)
    ensures x < BlockedUntil(p, f, e) <==> x < BlockedUntil(p, g, e)
  {
    if FirstCross(p, e, f).Some? && f[FirstCross(p, e, f).value].ts <= x {
      CrossCausal(p, e, f, g, x);
    } else if FirstCross(p, e, g).Some? && g[FirstCross(p, e, g).value].ts <= x {
      CrossCausal(p, e, g, f, x);
    }
  }

  /** Once the exit is decided, by a crossing or by the deadline, later quotes do not change it. */
  lemma ExitCausal(c: Config, e: Entry, f: seq<Quote>, g: seq<Quote>, x: int)
    requires InOrder(f) && InOrder(g) && Agree(f, g, x) && f != [] && g != []
    requires if FirstCross(c.p, e, f).Some? then f[FirstCross(c.p, e, f).value].ts <= x
             else Ms(Deadline(c.p, e)) <= x && f[0].ts <= Ms(Deadline(c.p, e))
    ensures ExitOf(c, f, e) == ExitOf(c, g, e)
    ensures FirstCross(c.p, e, f) == FirstCross(c.p, e, g)
  {
    if FirstCross(c.p, e, f).Some? {
      CrossCausal(c.p, e, f, g, x);
    } else {
      var d, n := Ms(Deadline(c.p, e)), UpTo(f, x);
      assert forall j :: 0 <= j < |g| ==> Crossing(c.p, e, g[j]).None? by {
        forall j | 0 <= j < |g| ensures Crossing(c.p, e, g[j]).None? {
          if j < n { assert Crossing(c.p, e, f[j]).None?; }
        }
      }
      assert FirstCross(c.p, e, g).None?;
      AgreeEarlier(f, g, x, d);
      assert IsUpTo(f, d, UpTo(f, d));
    }
  }

  lemma NoCrossUpToEntry(p: Params, e: Entry, f: seq<Quote>)
    requires InOrder(f)
    ensures forall k :: 0 <= k < UpTo(f, e.tIn) ==> Crossing(p, e, f[k]).None?
  {
    assert IsUpTo(f, e.tIn, UpTo(f, e.tIn));
  }

  lemma CrossIsFirst(p: Params, e: Entry, f: seq<Quote>, i: nat)
    requires i < |f| && Crossing(p, e, f[i]).Some?
    requires forall k :: 0 <= k < i ==> Crossing(p, e, f[k]).None?
    ensures FirstCross(p, e, f) == Some(i)
  {
    hide Crossing;
    assert FirstCross(p, e, f).Some?;
  }

  // ---- runs -----------------------------------------------------------------

  lemma StepCausal(c: Config, lg: Logic, q: seq<Quote>, r: seq<Quote>, f: seq<Quote>, g: seq<Quote>,
                   v: Volume, w: Volume, t: int, run: Run)
    requires ValidParams(c.p) && InOrder(q) && InOrder(r) && InOrder(f) && InOrder(g)
    requires Agree(q, r, Ms(t)) && Agree(f, g, Ms(t)) && VolumeAgree(v, w, t - c.p.guard - c.p.ofiWin)
    ensures Step(c, lg, q, f, v, t, run) == Step(c, lg, r, g, w, t, run)
  {
    hide Measured;
    hide InputsAt;
    hide BlockedUntil;
    hide NearLimit;
    hide Filtered;
    if run.entries != [] {
      BlockedCausal(c.p, run.entries[|run.entries| - 1], f, g, Ms(t));
    }
    InputsCausal(c.p, q, r, v, w, t);
  }

  /** No look-ahead: the run up to second t is a function of the quotes up to t and of the trades
      up to second t - guard - ofiWin. */
  lemma {:induction false} RunCausal(c: Config, lg: Logic, q: seq<Quote>, r: seq<Quote>, f: seq<Quote>, g: seq<Quote>,
                                     v: Volume, w: Volume, t: int)
    requires ValidParams(c.p) && InOrder(q) && InOrder(r) && InOrder(f) && InOrder(g)
    requires Agree(q, r, Ms(t)) && Agree(f, g, Ms(t)) && VolumeAgree(v, w, t - c.p.guard - c.p.ofiWin)
    ensures RunAt(c, lg, q, f, v, t) == RunAt(c, lg, r, g, w, t)
    decreases t - c.p.entryStart
  {
    if c.p.entryStart <= t {
      AgreeEarlier(q, r, Ms(t), Ms(t - 1));
      AgreeEarlier(f, g, Ms(t), Ms(t - 1));
      RunCausal(c, lg, q, r, f, g, v, w, t - 1);
      StepCausal(c, lg, q, r, f, g, v, w, t, RunAt(c, lg, q, f, v, t - 1));
    }
  }

  /** After the last second at which an entry fits before the close, nothing is added. */
  lemma {:induction false} RunSaturates(c: Config, lg: Logic, q: seq<Quote>, f: seq<Quote>, v: Volume, t: int)
    requires ValidParams(c.p) && c.p.sessionClose <= t
    ensures RunAt(c, lg, q, f, v, t) == RunAt(c, lg, q, f, v, c.p.sessionClose)
    decreases t - c.p.sessionClose
  {
    if t == c.p.sessionClose {
    } else {
      RunSaturates(c, lg, q, f, v, t - 1);
      assert t < c.p.entryStart ==> c.p.sessionClose < c.p.entryStart;
    }
  }

  // ---- what a run and its exits look like -----------------------------------

  /** An entry of a run: made inside the window, priced by the last futures quote at its second. */
  ghost predicate EntryFits(c: Config, f: seq<Quote>, e: Entry) {
    var n := UpTo(f, Ms(e.tSig));
    && InWindow(c.p, e.tSig)
    && n > 0 && e.tIn == f[n - 1].ts
    && e.pIn == (if e.logic == Logic1 then f[n - 1].bid else f[n - 1].ask)
  }

  lemma {:induction false} RunEntriesFit(c: Config, lg: Logic, q: seq<Quote>, f: seq<Quote>, v: Volume, t: int)
    requires ValidParams(c.p)
    ensures forall e :: e in RunAt(c, lg, q, f, v, t).entries ==> EntryFits(c, f, e) && e.logic == lg && e.tSig <= t
    decreases t - c.p.entryStart
  {
    hide Measured;
    hide InputsAt;
    hide BlockedUntil;
    if c.p.entryStart <= t {
      RunEntriesFit(c, lg, q, f, v, t - 1);
    }
  }

  /** The quote comes while the position may close early, and has a price to close at. */
  predicate InTime(p: Params, e: Entry, q: Quote) {
    e.tIn < q.ts <= 1000 * (e.tSig + p.hold) && (if e.logic == Logic1 then q.ask else q.bid) > 0.0
  }

  predicate AtTarget(p: Params, e: Entry, q: Quote) {
    var gain := p.tpBp / 10000.0;
    if e.logic == Logic1 then q.ask <= e.pIn * (1.0 - gain) else q.bid >= e.pIn * (1.0 + gain)
  }

  predicate AtStop(p: Params, e: Entry, q: Quote) {
    var loss := p.slBp / 10000.0;
    if e.logic == Logic1 then q.ask >= e.pIn * (1.0 + loss) else q.bid <= e.pIn * (1.0 - loss)
  }

  /** The exit rule in words: at the first quote in (t_in, t_sig + hold] whose exit-side price reaches the
      target (take-profit) or, not reaching it, the stop (stop-loss), and otherwise at the last quote at or
      before t_sig + hold. */
  lemma ExitIsDeclarative(c: Config, f: seq<Quote>, e: Entry, i: nat)
    requires InOrder(f) && ValidParams(c.p) && EntryFits(c, f, e) && i < |f|
    ensures forall q :: Crossing(c.p, e, q).Some? <==> InTime(c.p, e, q) && (AtTarget(c.p, e, q) || AtStop(c.p, e, q))
    ensures (forall j :: 0 <= j < i ==> Crossing(c.p, e, f[j]).None?) && InTime(c.p, e, f[i]) ==>
              && (AtTarget(c.p, e, f[i]) ==> ExitOf(c, f, e) == MakeTrade(c, e, f[i], TakeProfit))
              && (!AtTarget(c.p, e, f[i]) && AtStop(c.p, e, f[i]) ==>
                    ExitOf(c, f, e) == MakeTrade(c, e, f[i], StopLoss))
    ensures ExitOf(c, f, e) == MakeTrade(c, e, f[i], TimeUp)
            <== f[i].ts <= Ms(Deadline(c.p, e)) && (i + 1 < |f| ==> Ms(Deadline(c.p, e)) < f[i + 1].ts)
                && forall j :: 0 <= j < |f| ==> Crossing(c.p, e, f[j]).None?
    ensures e.tIn <= Ms(e.tSig) && e.tIn <= ExitOf(c, f, e).tOut <= Ms(Deadline(c.p, e))
    ensures ExitOf(c, f, e).entry == e
  {
    var d := Ms(Deadline(c.p, e));
    if f[i].ts <= d && (i + 1 < |f| ==> d < f[i + 1].ts) {
      UpToUnique(f, d, i + 1);
    }
    if FirstCross(c.p, e, f).None? {
      var m, n := UpTo(f, Ms(e.tSig)), UpTo(f, d);
      assert f[m - 1].ts <= Ms(e.tSig) <= d;
      assert IsUpTo(f, d, n);
      assert f[n - 1].ts <= d;
    }
  }

  lemma ExitByBlock(c: Config, f: seq<Quote>, e: Entry, t: int)
    requires ValidParams(c.p) && InOrder(f) && EntryFits(c, f, e)
    requires BlockedUntil(c.p, f, e) <= Ms(t)
    ensures ExitOf(c, f, e).tOut <= Ms(t)
  {
    ExitIsDeclarative(c, f, e, UpTo(f, Ms(e.tSig)) - 1);
  }

  /** A step leaves the entries alone or adds one at its own second, after the previous trade is over. */
  lemma StepAdds(c: Config, lg: Logic, q: seq<Quote>, f: seq<Quote>, v: Volume, t: int, run: Run)
    requires ValidParams(c.p)
    ensures var es := Step(c, lg, q, f, v, t, run).entries;
            es == run.entries
            || (es != [] && es == run.entries + [es[|es| - 1]] && es[|es| - 1].tSig == t && !Busy(c.p, f, run, t))
  {
  }

  /** Trades that never overlap: signals strictly increase, each trade is over before the next signal. */
  ghost predicate InSequence(c: Config, f: seq<Quote>, es: seq<Entry>)
    requires f != []
  {
    forall k :: 0 <= k && k + 1 < |es| ==> es[k].tSig < es[k + 1].tSig && ExitOf(c, f, es[k]).tOut <= Ms(es[k + 1].tSig)
  }

  lemma SequenceGrows(c: Config, f: seq<Quote>, es: seq<Entry>, e: Entry)
    requires f != [] && InSequence(c, f, es)
    requires es != [] ==> es[|es| - 1].tSig < e.tSig && ExitOf(c, f, es[|es| - 1]).tOut <= Ms(e.tSig)
    ensures InSequence(c, f, es + [e])
  {
  }

  lemma SequenceStep(c: Config, lg: Logic, q: seq<Quote>, f: seq<Quote>, v: Volume, t: int, run: Run, es: seq<Entry>)
    requires ValidParams(c.p) && InOrder(f) && f != [] && InSequence(c, f, run.entries)
    requires forall e :: e in run.entries ==> EntryFits(c, f, e) && e.tSig < t
    requires es == Step(c, lg, q, f, v, t, run).entries
    ensures InSequence(c, f, es)
  {
    StepAdds(c, lg, q, f, v, t, run);
    if es != run.entries {
      if run.entries != [] {
        assert run.entries[|run.entries| - 1] in run.entries;
        ExitByBlock(c, f, run.entries[|run.entries| - 1], t);
      }
      SequenceGrows(c, f, run.entries, es[|es| - 1]);
    }
  }

  lemma {:induction false} TradesInSequence(c: Config, lg: Logic, q: seq<Quote>, f: seq<Quote>, v: Volume, t: int)
    requires ValidParams(c.p) && InOrder(f) && f != []
    ensures InSequence(c, f, RunAt(c, lg, q, f, v, t).entries)
    decreases t - c.p.entryStart
  {
    if c.p.entryStart <= t {
      TradesInSequence(c, lg, q, f, v, t - 1);
      RunEntriesFit(c, lg, q, f, v, t - 1);
      SequenceStep(c, lg, q, f, v, t, RunAt(c, lg, q, f, v, t - 1), RunAt(c, lg, q, f, v, t).entries);
    }
  }

  /** Times of one trade, in milliseconds. */
  ghost predicate TimesFit(p: Params, tr: Trade) {
    && tr.entry.tIn <= Ms(tr.entry.tSig) && tr.entry.tIn <= tr.tOut <= Ms(Deadline(p, tr.entry))
    && InWindow(p, tr.entry.tSig)
  }

  /** The day's trades: every one is in time, and each is over before the next signal. */
  lemma DayInOrder(c: Config, lg: Logic, q: seq<Quote>, f: seq<Quote>, v: Volume)
    requires ValidParams(c.p) && InOrder(f)
    ensures var ts := TradesBySpec(c, lg, q, f, v);
            && (forall k :: 0 <= k < |ts| ==> ts[k].entry.logic == lg && TimesFit(c.p, ts[k]))
            && forall k :: 0 <= k && k + 1 < |ts| ==>
                 ts[k].entry.tSig < ts[k + 1].entry.tSig && ts[k].tOut <= Ms(ts[k + 1].entry.tSig)
  {
    hide RunAt;
    hide ExitOf;
    hide InWindow;
    if f != [] {
      var es := RunAt(c, lg, q, f, v, c.p.sessionClose).entries;
      RunEntriesFit(c, lg, q, f, v, c.p.sessionClose);
      TradesInSequence(c, lg, q, f, v, c.p.sessionClose);
      forall k | 0 <= k < |es|
        ensures ExitOf(c, f, es[k]).entry == es[k] && es[k].logic == lg && TimesFit(c.p, ExitOf(c, f, es[k]))
      {
        assert es[k] in es;
        ExitIsDeclarative(c, f, es[k], 0);
      }
    }
  }
}
