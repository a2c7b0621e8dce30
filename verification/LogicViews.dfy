/** How the incremental state of one logic relates to the run that defines it, and how each kind
    of engine step keeps that relation. */
module LogicViews {
  import opened Basics
  import opened Tape
  import opened Signal
  import opened Causality

  /** Everything the engine holds about one logic: entries made, trades closed, the open position,
      the exit time of the last trade, the last filtered signal second and its share of the counters. */
  datatype LogicView = LogicView(ents: seq<Entry>, done: seq<Trade>, pos: Option<Entry>,
                                 free: Option<int>, lastSkip: Option<int>, counts: Counts)

  const IDLE := LogicView([], [], None, None, None, Counts(0, 0, 0, 0))

  ghost function Closed(lv: LogicView, tr: Trade): LogicView {
    lv.(done := lv.done + [tr], pos := None, free := Some(tr.tOut))
  }

  ghost function Opened(lv: LogicView, e: Entry): LogicView {
    lv.(ents := lv.ents + [e], pos := Some(e))
  }

  /** Every entry is closed, except that the open position is the last one. */
  ghost predicate Aligned(lv: LogicView) {
    && |lv.ents| == |lv.done| + (if lv.pos.Some? then 1 else 0)
    && (lv.pos.Some? ==> lv.pos.value == lv.ents[|lv.done|])
  }

  /** The open position is the last entry, all earlier ones are closed, in order. */
  ghost predicate WellFormed(p: Params, lg: Logic, f: seq<Quote>, t: int, lv: LogicView) {
    && Aligned(lv)
    && (forall i :: 0 <= i < |lv.done| ==> lv.done[i].entry == lv.ents[i])
    && lv.free == (if lv.done == [] then None else Some(lv.done[|lv.done| - 1].tOut))
    && (forall e :: e in lv.ents ==> e.logic == lg && e.tSig <= t && InWindow(p, e.tSig)
                                     && f != [] && f[0].ts <= Ms(e.tSig))
    && (forall i, j :: 0 <= i < j < |lv.ents| ==> lv.ents[i].tSig < lv.ents[j].tSig)
  }

  ghost predicate GoodLogic(lg: Logic, lv: LogicView) {
    lv.pos.Some? ==> lv.pos.value.logic == lg
  }

  /** Well-formed, and an open position is younger than its deadline. */
  ghost predicate StillGood(p: Params, lg: Logic, f: seq<Quote>, t: int, lv: LogicView) {
    WellFormed(p, lg, f, t, lv) && (lv.pos.Some? ==> t < Deadline(p, lv.pos.value))
  }

  ghost predicate Settled(p: Params, f: seq<Quote>, e: Entry, s: int) {
    FirstCross(p, e, f).Some? || Deadline(p, e) <= s
  }

  ghost predicate ClosedRight(c: Config, f: seq<Quote>, tr: Trade, s: int) {
    f != [] && tr == ExitOf(c, f, tr.entry) && Settled(c.p, f, tr.entry, s)
  }

  /** The view is the run after second `t`, with time exits done up to second `s`. */
  ghost predicate Follows(c: Config, lg: Logic, q: seq<Quote>, f: seq<Quote>, v: Volume, t: int, s: int, lv: LogicView)
    requires 0 < c.p.volWin
  {
    var run := RunAt(c, lg, q, f, v, t);
    && lv.ents == run.entries
    && lv.lastSkip == run.lastSkip && lv.counts == run.counts
    && (forall i :: 0 <= i < |lv.done| ==> ClosedRight(c, f, lv.done[i], s))
    && (lv.pos.Some? ==> s < Deadline(c.p, lv.pos.value) && FirstCross(c.p, lv.pos.value, f).None?)
  }

  /** A second whose decision already fell is not touched by data of later seconds. */
  predicate Timely(p: Params, lastT: int, ts: int) {
    lastT < p.entryStart || Ms(lastT) < ts
  }

  predicate TimelyTrade(p: Params, lastT: int, sec: int) {
    lastT < p.entryStart || lastT - p.guard - p.ofiWin < sec
  }

  lemma FollowsStock(c: Config, lg: Logic, q: seq<Quote>, x: Quote, f: seq<Quote>, v: Volume, t: int, s: int,
                     lv: LogicView)
    requires ValidParams(c.p) && InOrder(q + [x]) && InOrder(f)
    requires Follows(c, lg, q, f, v, t, s, lv) && Timely(c.p, t, x.ts)
    ensures Follows(c, lg, q + [x], f, v, t, s, lv)
  {
    assert InOrder(q) by { assert forall i :: 0 <= i < |q| ==> (q + [x])[i] == q[i]; }
    if c.p.entryStart <= t {
      AppendAgrees(q, x, Ms(t));
      RunCausal(c, lg, q, q + [x], f, f, v, v, t);
    }
  }

  lemma FollowsVolume(c: Config, lg: Logic, q: seq<Quote>, f: seq<Quote>, v: Volume, sec: int, qty: int,
                      t: int, s: int, lv: LogicView)
    requires ValidParams(c.p) && InOrder(q) && InOrder(f)
    requires Follows(c, lg, q, f, v, t, s, lv) && TimelyTrade(c.p, t, sec)
    ensures Follows(c, lg, q, f, AddVolume(v, sec, qty), t, s, lv)
  {
    if c.p.entryStart <= t {
      RunCausal(c, lg, q, q, f, f, v, AddVolume(v, sec, qty), t);
    }
  }

  lemma SettledStays(c: Config, f: seq<Quote>, x: Quote, tr: Trade, s: int)
    requires ValidParams(c.p) && InOrder(f) && InOrder(f + [x]) && Ms(s) < x.ts
    requires ClosedRight(c, f, tr, s) && f[0].ts <= Ms(tr.entry.tSig)
    ensures ClosedRight(c, f + [x], tr, s)
  {
    var g, e := f + [x], tr.entry;
    assert g[..|f|] == f;
    AppendAgrees(f, x, Ms(s));
    if FirstCross(c.p, e, f).Some? {
      assert FirstCross(c.p, e, g) == FirstCross(c.p, e, f);
    } else {
      ExitCausal(c, e, f, g, Ms(s));
    }
  }

  lemma CrossOfAppend(p: Params, e: Entry, f: seq<Quote>, x: Quote)
    requires FirstCross(p, e, f).None?
    ensures FirstCross(p, e, f + [x]) == if Crossing(p, e, x).Some? then Some(|f|) else None
  {
    assert (f + [x])[..|f|] == f;
  }

  lemma CrossClosesRight(c: Config, e: Entry, f: seq<Quote>, x: Quote, s: int)
    requires FirstCross(c.p, e, f).None? && Crossing(c.p, e, x).Some?
    ensures ClosedRight(c, f + [x], MakeTrade(c, e, x, Crossing(c.p, e, x).value), s)
  {
    hide Crossing;
    CrossOfAppend(c.p, e, f, x);
  }

  /** A new futures quote closes the open position exactly when it crosses. */
  ghost function AfterFuture(c: Config, lv: LogicView, x: Quote): LogicView {
    if lv.pos.Some? && Crossing(c.p, lv.pos.value, x).Some?
    then Closed(lv, MakeTrade(c, lv.pos.value, x, Crossing(c.p, lv.pos.value, x).value))
    else lv
  }

  lemma FollowsFuture(c: Config, lg: Logic, q: seq<Quote>, f: seq<Quote>, x: Quote, v: Volume, t: int, lv: LogicView)
    requires ValidParams(c.p) && InOrder(q) && InOrder(f) && InOrder(f + [x])
    requires WellFormed(c.p, lg, f, t, lv) && Follows(c, lg, q, f, v, t, t, lv) && Timely(c.p, t, x.ts)
    ensures Follows(c, lg, q, f + [x], v, t, t, AfterFuture(c, lv, x))
  {
    hide Crossing;
    hide MakeTrade;
    hide ClosedRight;
    if c.p.entryStart <= t {
      hide RunAt;
      AppendAgrees(f, x, Ms(t));
      RunCausal(c, lg, q, q, f, f + [x], v, v, t);
      forall i | 0 <= i < |lv.done|
        ensures ClosedRight(c, f + [x], lv.done[i], t)
      {
        assert lv.ents[i] in lv.ents;
        SettledStays(c, f, x, lv.done[i], t);
      }
      if lv.pos.Some? {
        CrossOfAppend(c.p, lv.pos.value, f, x);
        if Crossing(c.p, lv.pos.value, x).Some? {
          CrossClosesRight(c, lv.pos.value, f, x, t);
        }
      }
    }
  }

  /** The deadline second closes the position at the last quote seen. */
  lemma FollowsTimeExit(c: Config, lg: Logic, q: seq<Quote>, f: seq<Quote>, v: Volume, t: int, lv: LogicView)
    requires ValidParams(c.p) && InOrder(f)
    requires WellFormed(c.p, lg, f, t, lv) && Follows(c, lg, q, f, v, t, t, lv)
    requires lv.pos.Some? && Deadline(c.p, lv.pos.value) == t + 1
    ensures f != [] && UpTo(f, Ms(t + 1)) > 0
    ensures Follows(c, lg, q, f, v, t, t + 1, Closed(lv, MakeTrade(c, lv.pos.value, f[UpTo(f, Ms(t + 1)) - 1], TimeUp)))
  {
    assert lv.ents[|lv.done|] in lv.ents;
    assert IsUpTo(f, Ms(t + 1), UpTo(f, Ms(t + 1)));
  }

  lemma FollowsNoTimeExit(c: Config, lg: Logic, q: seq<Quote>, f: seq<Quote>, v: Volume, t: int, lv: LogicView)
    requires ValidParams(c.p) && Follows(c, lg, q, f, v, t, t, lv)
    requires lv.pos.Some? ==> Deadline(c.p, lv.pos.value) != t + 1
    ensures Follows(c, lg, q, f, v, t, t + 1, lv)
  {
  }

  /** The engine's cheap test for "this logic is busy": a position, or a last exit in the future. */
  predicate Held(lv: LogicView, s: int) {
    lv.pos.Some? || (lv.free.Some? && Ms(s) < lv.free.value)
  }

  /** It agrees with the run's own definition, whether or not the exit quote was already seen. */
  lemma HeldIsBusy(c: Config, lg: Logic, q: seq<Quote>, f: seq<Quote>, v: Volume, s: int, lv: LogicView)
    requires ValidParams(c.p) && InOrder(f)
    requires WellFormed(c.p, lg, f, s - 1, lv) && Follows(c, lg, q, f, v, s - 1, s, lv)
    ensures Held(lv, s) <==> Busy(c.p, f, RunAt(c, lg, q, f, v, s - 1), s)
  {
    hide RunAt;
    hide Crossing;
    if lv.ents != [] && lv.pos.None? {
      var e := lv.ents[|lv.ents| - 1];
      assert e in lv.ents && lv.done[|lv.done| - 1].entry == e;
      if FirstCross(c.p, e, f).None? {
        var d := Ms(Deadline(c.p, e));
        assert IsUpTo(f, d, UpTo(f, d));
      }
    }
  }

  // ---- the entry decision at second s ---------------------------------------

  ghost function AsRun(lv: LogicView): Run {
    Run(lv.ents, lv.lastSkip, lv.counts)
  }

  /** A fresh position is closed at once when its exit quote has already arrived. */
  ghost function Entered(c: Config, f: seq<Quote>, lv: LogicView, e: Entry): LogicView {
    if FirstCross(c.p, e, f).Some? then Closed(Opened(lv, e), ExitOf(c, f, e)) else Opened(lv, e)
  }

  ghost function AfterHit(c: Config, lg: Logic, q: seq<Quote>, f: seq<Quote>, s: int, feat: Feat,
                          lv: LogicView): LogicView {
    var run := OnHit(c, lg, q, f, s, feat, AsRun(lv));
    if run.entries == lv.ents then lv.(lastSkip := run.lastSkip, counts := run.counts)
    else Entered(c, f, lv, run.entries[|lv.ents|])
  }

  ghost function AfterJudging(c: Config, lg: Logic, q: seq<Quote>, f: seq<Quote>, v: Volume, s: int,
                              lv: LogicView): LogicView
    requires 0 < c.p.volWin
  {
    if Held(lv, s) then lv
    else
      match Features(c, q, v, s)
      case None => lv
      case Some(feat) => if Hit(c.p, lg, feat) then AfterHit(c, lg, q, f, s, feat, lv) else lv
  }

  lemma EnteredFollows(c: Config, lg: Logic, q: seq<Quote>, f: seq<Quote>, v: Volume, s: int, lv: LogicView, e: Entry)
    requires ValidParams(c.p) && Follows(c, lg, q, f, v, s - 1, s, lv) && lv.pos.None?
    requires RunAt(c, lg, q, f, v, s) == AsRun(Opened(lv, e)) && e.tSig == s
    ensures Follows(c, lg, q, f, v, s, s, Entered(c, f, lv, e))
  {
    hide RunAt;
    hide Crossing;
  }

  lemma JudgingFollows(c: Config, lg: Logic, q: seq<Quote>, f: seq<Quote>, v: Volume, s: int, lv: LogicView)
    requires ValidParams(c.p) && InOrder(f) && InWindow(c.p, s)
    requires WellFormed(c.p, lg, f, s - 1, lv) && Follows(c, lg, q, f, v, s - 1, s, lv)
    ensures Follows(c, lg, q, f, v, s, s, AfterJudging(c, lg, q, f, v, s, lv))
  {
    hide Measured;
    hide InputsAt;
    hide NearLimit;
    hide Filtered;
    hide ExitOf;
    HeldIsBusy(c, lg, q, f, v, s, lv);
    var run := RunAt(c, lg, q, f, v, s);
    assert run == Step(c, lg, q, f, v, s, AsRun(lv));
    if run.entries != lv.ents {
      EnteredFollows(c, lg, q, f, v, s, lv, run.entries[|lv.ents|]);
    }
  }

  // ---- one whole second -----------------------------------------------------

  /** Time exit: at deadline second s, at the last quote up to it. */
  ghost function AfterDeadline(c: Config, f: seq<Quote>, s: int, lv: LogicView): LogicView {
    if lv.pos.Some? && Deadline(c.p, lv.pos.value) == s && UpTo(f, Ms(s)) > 0
    then Closed(lv, MakeTrade(c, lv.pos.value, f[UpTo(f, Ms(s)) - 1], TimeUp))
    else lv
  }

  ghost function AfterSecond(c: Config, lg: Logic, q: seq<Quote>, f: seq<Quote>, v: Volume, s: int,
                             lv: LogicView): LogicView
    requires 0 < c.p.volWin
  {
    if InWindow(c.p, s) then AfterJudging(c, lg, q, f, v, s, AfterDeadline(c, f, s, lv)) else AfterDeadline(c, f, s, lv)
  }

  // ---- entries and trades are only ever appended ----------------------------

  ghost predicate Grows(a: LogicView, b: LogicView) {
    a.ents <= b.ents && a.done <= b.done
  }

  lemma GrowsByNothing(a: LogicView)
    ensures Grows(a, a)
  {
  }

  lemma GrowsOn(a: LogicView, b: LogicView, c: LogicView)
    requires Grows(a, b) && Grows(b, c)
    ensures Grows(a, c)
  {
  }

  lemma FutureGrows(c: Config, lv: LogicView, x: Quote)
    ensures Grows(lv, AfterFuture(c, lv, x))
  {
    hide Crossing;
    hide MakeTrade;
  }

  lemma JudgingGrows(c: Config, lg: Logic, q: seq<Quote>, f: seq<Quote>, v: Volume, s: int, lv: LogicView)
    requires 0 < c.p.volWin
    ensures Grows(lv, AfterJudging(c, lg, q, f, v, s, lv))
  {
    hide Measured;
    hide InputsAt;
    hide NearLimit;
    hide Filtered;
    hide MakeTrade;
    hide Crossing;
    hide ExitOf;
  }

  lemma SecondGrows(c: Config, lg: Logic, q: seq<Quote>, f: seq<Quote>, v: Volume, s: int, lv: LogicView)
    requires 0 < c.p.volWin
    ensures Grows(lv, AfterSecond(c, lg, q, f, v, s, lv))
  {
    hide AfterJudging;
    hide MakeTrade;
    JudgingGrows(c, lg, q, f, v, s, AfterDeadline(c, f, s, lv));
  }

  // ---- well-formedness, whatever the feed does ------------------------------

  lemma OpenLogic(p: Params, lg: Logic, f: seq<Quote>, t: int, lv: LogicView)
    requires WellFormed(p, lg, f, t, lv)
    ensures lv.pos.Some? ==> lv.pos.value.logic == lg && lv.pos.value.tSig <= t && InWindow(p, lv.pos.value.tSig)
                             && f != [] && f[0].ts <= Ms(lv.pos.value.tSig)
  {
    assert lv.pos.Some? ==> lv.pos.value in lv.ents;
  }

  lemma FormedLater(p: Params, lg: Logic, f: seq<Quote>, t: int, u: int, lv: LogicView)
    requires WellFormed(p, lg, f, t, lv) && t <= u
    ensures WellFormed(p, lg, f, u, lv)
  {
  }

  lemma FormedClosed(p: Params, lg: Logic, f: seq<Quote>, t: int, lv: LogicView, tr: Trade)
    requires WellFormed(p, lg, f, t, lv) && lv.pos == Some(tr.entry)
    ensures WellFormed(p, lg, f, t, Closed(lv, tr))
  {
  }

  lemma FormedFuture(c: Config, lg: Logic, f: seq<Quote>, x: Quote, t: int, lv: LogicView)
    requires WellFormed(c.p, lg, f, t, lv)
    ensures WellFormed(c.p, lg, f + [x], t, AfterFuture(c, lv, x))
  {
    hide Crossing;
    assert WellFormed(c.p, lg, f + [x], t, lv);
  }

  lemma FormedOpened(p: Params, lg: Logic, f: seq<Quote>, s: int, lv: LogicView, e: Entry)
    requires WellFormed(p, lg, f, s - 1, lv) && lv.pos.None?
    requires e.logic == lg && e.tSig == s && InWindow(p, s) && f != [] && f[0].ts <= Ms(s)
    ensures WellFormed(p, lg, f, s, Opened(lv, e))
  {
  }

  lemma OnHitAdds(c: Config, lg: Logic, q: seq<Quote>, f: seq<Quote>, s: int, feat: Feat, run: Run)
    ensures var es := OnHit(c, lg, q, f, s, feat, run).entries;
            es == run.entries
            || (UpTo(f, Ms(s)) > 0 && |es| == |run.entries| + 1 && es == run.entries + [es[|run.entries|]]
                && es[|run.entries|].logic == lg && es[|run.entries|].tSig == s)
  {
    hide NearLimit;
    hide Filtered;
  }

  lemma FormedEntered(c: Config, lg: Logic, f: seq<Quote>, s: int, lv: LogicView, e: Entry)
    requires WellFormed(c.p, lg, f, s - 1, lv) && lv.pos.None?
    requires e.logic == lg && e.tSig == s && InWindow(c.p, s) && f != [] && f[0].ts <= Ms(s)
    ensures WellFormed(c.p, lg, f, s, Entered(c, f, lv, e))
  {
    hide WellFormed;
    hide MakeTrade;
    FormedOpened(c.p, lg, f, s, lv, e);
    if FirstCross(c.p, e, f).Some? {
      FormedClosed(c.p, lg, f, s, Opened(lv, e), ExitOf(c, f, e));
    }
  }

  lemma FormedJudging(c: Config, lg: Logic, q: seq<Quote>, f: seq<Quote>, v: Volume, s: int, lv: LogicView)
    requires ValidParams(c.p) && InOrder(f) && InWindow(c.p, s)
    requires WellFormed(c.p, lg, f, s - 1, lv)
    ensures WellFormed(c.p, lg, f, s, AfterJudging(c, lg, q, f, v, s, lv))
  {
    hide InWindow;
    hide OnHit;
    hide Entered;
    FormedLater(c.p, lg, f, s - 1, s, lv);
    if !Held(lv, s) && Features(c, q, v, s).Some? && Hit(c.p, lg, Features(c, q, v, s).value) {
      var feat := Features(c, q, v, s).value;
      var run := OnHit(c, lg, q, f, s, feat, AsRun(lv));
      OnHitAdds(c, lg, q, f, s, feat, AsRun(lv));
      if run.entries != lv.ents {
        assert IsUpTo(f, Ms(s), UpTo(f, Ms(s)));
        FormedEntered(c, lg, f, s, lv, run.entries[|lv.ents|]);
      }
    }
  }

  // ---- a second keeps everything --------------------------------------------

  lemma FormedDeadline(c: Config, lg: Logic, f: seq<Quote>, s: int, lv: LogicView)
    requires WellFormed(c.p, lg, f, s - 1, lv)
    requires lv.pos.Some? ==> s - 1 < Deadline(c.p, lv.pos.value)
    ensures WellFormed(c.p, lg, f, s - 1, AfterDeadline(c, f, s, lv))
    ensures AfterDeadline(c, f, s, lv).pos.Some? ==> s < Deadline(c.p, AfterDeadline(c, f, s, lv).pos.value)
  {
    hide WellFormed;
    if AfterDeadline(c, f, s, lv) != lv {
      FormedClosed(c.p, lg, f, s - 1, lv, MakeTrade(c, lv.pos.value, f[UpTo(f, Ms(s)) - 1], TimeUp));
    } else if lv.pos.Some? {
      OpenLogic(c.p, lg, f, s - 1, lv);
      assert IsUpTo(f, Ms(s), UpTo(f, Ms(s)));
    }
  }

  lemma AliveJudging(c: Config, lg: Logic, q: seq<Quote>, f: seq<Quote>, v: Volume, s: int, lv: LogicView)
    requires ValidParams(c.p)
    requires lv.pos.Some? ==> s < Deadline(c.p, lv.pos.value)
    ensures var to := AfterJudging(c, lg, q, f, v, s, lv); to.pos.Some? ==> s < Deadline(c.p, to.pos.value)
  {
    hide Measured;
    hide InputsAt;
    hide NearLimit;
    hide Filtered;
    hide MakeTrade;
    hide Crossing;
  }

  lemma SecondFormed(c: Config, lg: Logic, q: seq<Quote>, f: seq<Quote>, v: Volume, s: int, lv: LogicView)
    requires ValidParams(c.p) && InOrder(f) && WellFormed(c.p, lg, f, s - 1, lv)
    requires lv.pos.Some? ==> s - 1 < Deadline(c.p, lv.pos.value)
    ensures WellFormed(c.p, lg, f, s, AfterSecond(c, lg, q, f, v, s, lv))
    ensures var to := AfterSecond(c, lg, q, f, v, s, lv); to.pos.Some? ==> s < Deadline(c.p, to.pos.value)
  {
    hide WellFormed;
    hide AfterDeadline;
    hide AfterJudging;
    FormedDeadline(c, lg, f, s, lv);
    var mid := AfterDeadline(c, f, s, lv);
    if InWindow(c.p, s) {
      FormedJudging(c, lg, q, f, v, s, mid);
      AliveJudging(c, lg, q, f, v, s, mid);
    } else {
      FormedLater(c.p, lg, f, s - 1, s, mid);
    }
  }

  lemma SecondFollows(c: Config, lg: Logic, q: seq<Quote>, f: seq<Quote>, v: Volume, s: int, lv: LogicView)
    requires ValidParams(c.p) && InOrder(f) && WellFormed(c.p, lg, f, s - 1, lv)
    requires Follows(c, lg, q, f, v, s - 1, s - 1, lv)
    ensures Follows(c, lg, q, f, v, s, s, AfterSecond(c, lg, q, f, v, s, lv))
  {
    hide WellFormed;
    hide Follows;
    hide AfterJudging;
    assert lv.pos.Some? ==> s - 1 < Deadline(c.p, lv.pos.value) by { FollowsAlive(c, lg, q, f, v, s - 1, lv); }
    FormedDeadline(c, lg, f, s, lv);
    var mid := AfterDeadline(c, f, s, lv);
    if lv.pos.Some? && Deadline(c.p, lv.pos.value) == s {
      FollowsTimeExit(c, lg, q, f, v, s - 1, lv);
    } else {
      FollowsNoTimeExit(c, lg, q, f, v, s - 1, lv);
    }
    if InWindow(c.p, s) {
      JudgingFollows(c, lg, q, f, v, s, mid);
    } else {
      OutOfWindowFollows(c, lg, q, f, v, s, mid);
    }
  }

  lemma FollowsAlive(c: Config, lg: Logic, q: seq<Quote>, f: seq<Quote>, v: Volume, t: int, lv: LogicView)
    requires ValidParams(c.p) && Follows(c, lg, q, f, v, t, t, lv)
    ensures lv.pos.Some? ==> t < Deadline(c.p, lv.pos.value)
  {
  }

  lemma OutOfWindowFollows(c: Config, lg: Logic, q: seq<Quote>, f: seq<Quote>, v: Volume, s: int, lv: LogicView)
    requires ValidParams(c.p) && !InWindow(c.p, s) && Follows(c, lg, q, f, v, s - 1, s, lv)
    ensures Follows(c, lg, q, f, v, s, s, lv)
  {
    hide ClosedRight;
    assert RunAt(c, lg, q, f, v, s) == RunAt(c, lg, q, f, v, s - 1);
  }

  /** After the close no position is left, and the closed trades are the day by definition. */
  lemma FollowsToTheEnd(c: Config, lg: Logic, q: seq<Quote>, f: seq<Quote>, v: Volume, t: int, lv: LogicView)
    requires ValidParams(c.p) && c.p.sessionClose <= t && StillGood(c.p, lg, f, t, lv)
    ensures lv.pos.None?
    ensures Follows(c, lg, q, f, v, t, t, lv) ==> lv.done == TradesBySpec(c, lg, q, f, v)
  {
    hide RunAt;
    OpenLogic(c.p, lg, f, t, lv);
    RunSaturates(c, lg, q, f, v, t);
    assert forall i :: 0 <= i < |lv.done| ==> lv.done[i].entry == lv.ents[i];
    assert lv.ents != [] ==> lv.ents[0] in lv.ents;
  }
}
