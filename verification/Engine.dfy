/** The incremental signal engine of one symbol: arrays that grow, take late insertions and are
    pruned, and one position per logic.  Ghost fields keep the complete streams it was fed. */
module Engine {
  import opened Basics
  import opened Tape
  import opened Signal
  import opened Causality
  import opened LogicViews
  import opened VolumeIndex

  /** A dictionary whose keys are the two logics. */
  datatype PerLogic<T> = PerLogic(one: T, two: T) {
    function Get(lg: Logic): T {
      if lg == Logic1 then one else two
    }

    function Set(lg: Logic, x: T): PerLogic<T> {
      if lg == Logic1 then PerLogic(x, two) else PerLogic(one, x)
    }
  }

  function Times(q: seq<Quote>): (r: seq<int>)
    ensures |r| == |q| && forall i :: 0 <= i < |q| ==> r[i] == q[i].ts
  {
    seq(|q|, i requires 0 <= i < |q| => q[i].ts)
  }

  /** The engine's lookup: bisection on the time stamps. */
  function Position(q: seq<Quote>, x: int): (n: nat)
    ensures n == UpTo(q, x) && n <= |q|
  {
    var n := BisectRight(Times(q), x);
    UpToUnique(q, x, n);
    n
  }

  /** A lookup at or after the first kept quote does not see the deletion. */
  lemma UpToDrop(q: seq<Quote>, k: nat, x: int)
    requires k <= |q| && (k > 0 ==> k < |q| && q[k].ts <= x)
    ensures UpTo(q, x) == k + UpTo(q[k..], x)
    ensures UpTo(q, x) > 0 ==> UpTo(q[k..], x) > 0 && q[k..][UpTo(q[k..], x) - 1] == q[UpTo(q, x) - 1]
  {
    var n := UpTo(q[k..], x);
    assert n > 0 ==> q[k..][n - 1].ts <= x;
    assert forall i :: k + n <= i < |q| ==> q[i] == q[k..][i - k];
    UpToUnique(q, x, k + n);
    assert k > 0 ==> q[k..][0].ts <= x;
  }

  lemma DropDrop(q: seq<Quote>, drop: nat, k: nat, x: int)
    requires drop <= |q| && k + 1 == UpTo(q[drop..], x)
    ensures drop + k < |q| && q[drop + k].ts <= x
    ensures q[drop..][k..] == q[drop + k..]
  {
    assert q[drop..][k].ts <= x;
  }

  /** `cum` holds the running imbalance at the quotes of `q` from index `drop` on. */
  ghost predicate CumsOf(q: seq<Quote>, drop: nat, cum: seq<real>) {
    |cum| + drop == |q| && forall i :: 0 <= i < |cum| ==> cum[i] == CumImbalance(q[..drop + i + 1])
  }

  lemma CumsGrow(q: seq<Quote>, drop: nat, cum: seq<real>, x: Quote)
    requires CumsOf(q, drop, cum)
    ensures CumsOf(q + [x], drop, cum + [CumImbalance(q + [x])])
  {
    hide CumImbalance;
    var r, all := q + [x], cum + [CumImbalance(q + [x])];
    assert r[..|r|] == r;
    forall i | 0 <= i < |all| ensures all[i] == CumImbalance(r[..drop + i + 1]) {
      if i < |cum| {
        assert r[..drop + i + 1] == q[..drop + i + 1];
      }
    }
  }

  lemma CumOfAppend(q: seq<Quote>, x: Quote)
    ensures CumImbalance(q + [x]) == CumImbalance(q) + if q == [] then 0.0 else Imbalance(q[|q| - 1], x)
  {
    hide Imbalance;
    assert (q + [x])[..|q|] == q;
  }

  lemma CumsDrop(q: seq<Quote>, drop: nat, cum: seq<real>, k: nat)
    requires CumsOf(q, drop, cum) && k <= |cum|
    ensures CumsOf(q, drop + k, cum[k..])
  {
    hide CumImbalance;
    forall i | 0 <= i < |cum| - k ensures cum[k..][i] == CumImbalance(q[..drop + k + i + 1]) {
      assert cum[k..][i] == cum[k + i];
    }
  }

  /** A running total looked up in the kept arrays is the one over the complete stream. */
  lemma CumLookup(q: seq<Quote>, drop: nat, cum: seq<real>, x: int)
    requires CumsOf(q, drop, cum) && drop <= |q| && (drop > 0 ==> drop < |q| && q[drop].ts <= x)
    ensures var n := UpTo(q[drop..], x);
            n <= |cum| && CumImbalance(q[..UpTo(q, x)]) == if n > 0 then cum[n - 1] else 0.0
  {
    hide CumImbalance;
    UpToDrop(q, drop, x);
    var n := UpTo(q[drop..], x);
    if n == 0 {
      assert CumImbalance([]) == 0.0 by { CumOfNothing(); }
      assert q[..0] == [];
    }
  }

  lemma CumOfNothing()
    ensures CumImbalance([]) == 0.0
  {
  }

  /** The measurements taken on the kept arrays. */
  ghost function Measurements(p: Params, stk: seq<Quote>, cum: seq<real>, vsec: seq<int>, vcum: seq<int>,
                              s: int): Option<Inputs>
    requires |cum| == |stk| && |vsec| == |vcum|
  {
    var cut := s - p.guard;
    var ia, ib, io := UpTo(stk, Ms(cut - p.moveWin)), UpTo(stk, Ms(cut)), UpTo(stk, Ms(cut - p.ofiWin));
    if cut - p.ofiWin - p.volWin < p.sessionOpen || cut - p.moveWin < p.sessionOpen || ia == 0 || ib == 0 then None
    else
      Some(Inputs(Mid(stk[ia - 1]), Mid(stk[ib - 1]), cum[ib - 1] - if io > 0 then cum[io - 1] else 0.0,
                  VolumeUpto(vsec, vcum, cut - p.ofiWin) - VolumeUpto(vsec, vcum, cut - p.ofiWin - p.volWin)))
  }

  /** Pruning is invisible: the kept arrays measure what the complete streams define. */
  lemma MeasurementsExact(p: Params, q: seq<Quote>, drop: nat, cum: seq<real>,
                          vsec: seq<int>, vcum: seq<int>, v: Volume, floor: int, s: int)
    requires ValidParams(p) && InOrder(q) && drop <= |q| && CumsOf(q, drop, cum)
    requires drop > 0 ==> drop < |q| && q[drop].ts <= Ms(s - KEEP_SEC)
    requires Indexes(vsec, vcum, v, floor) && floor <= s - KEEP_SEC - 100
    ensures Measurements(p, q[drop..], cum, vsec, vcum, s) == InputsAt(p, q, v, s)
  {
    hide ImbalanceIn;
    hide CumImbalance;
    hide VolumeUpto;
    hide VolumeIn;
    hide Mid;
    hide InOrder;
    hide IsUpTo;
    assert |cum| == |q[drop..]| && |vsec| == |vcum|;
    hide CumsOf;
    var cut := s - p.guard;
    UpToDrop(q, drop, Ms(cut - p.moveWin));
    UpToDrop(q, drop, Ms(cut));
    CumLookup(q, drop, cum, Ms(cut));
    CumLookup(q, drop, cum, Ms(cut - p.ofiWin));
    WindowIsDifference(q, Ms(cut - p.ofiWin), Ms(cut));
  }

  /** The trades of one logic, in the order they were closed. */
  function TradesOf(trades: seq<Trade>, lg: Logic): seq<Trade> {
    if trades == [] then []
    else
      var rest := TradesOf(trades[..|trades| - 1], lg);
      if trades[|trades| - 1].entry.logic == lg then rest + [trades[|trades| - 1]] else rest
  }

  lemma TradesOfAppend(trades: seq<Trade>, tr: Trade, lg: Logic)
    ensures TradesOf(trades + [tr], lg) == TradesOf(trades, lg) + if tr.entry.logic == lg then [tr] else []
  {
    assert (trades + [tr])[..|trades|] == trades;
  }

  predicate SameTop(a: Quote, b: Quote) {
    a.bid == b.bid && a.bidQty == b.bidQty && a.ask == b.ask && a.askQty == b.askQty
  }

  /** Limit-locked futures quotes, with a price on one side only. */
  predicate OneSided(q: Quote) {
    (q.bid > 0.0) != (q.ask > 0.0)
  }

  lemma OneSidedIs(q: Quote)
    ensures OneSided(q) <==> (q.bid > 0.0 && q.ask <= 0.0) || (q.bid <= 0.0 && q.ask > 0.0)
  {
  }

  class SymbolEngine {
    const c: Config
    var stk: seq<Quote>                  // accepted stock quotes
    var cum: seq<real>                   // running imbalance at each of them
    var cumE: real
    var last: Option<Quote>              // the last accepted one
    var fut: seq<Quote>                  // two-sided futures quotes
    var vsec: seq<int>                   // seconds that had trades
    var vcum: seq<int>                   // directional volume up to each of them
    var pos: PerLogic<Option<Entry>>
    var free: PerLogic<Option<int>>      // time of the last exit
    var lastSkip: PerLogic<Option<int>>
    var lastT: int
    var trades: seq<Trade>
    var nQuotes: nat
    var nDup: nat
    var nNoFut: nat
    var nFutLimit: nat
    var nSkipped: nat
    var nChain: nat

    ghost var Q: seq<Quote>              // every accepted stock quote
    ghost var F: seq<Quote>              // every two-sided futures quote
    ghost var V: Volume                  // every directional trade
    ghost var view: PerLogic<LogicView>  // the state, logic by logic
    ghost var dropQ: nat
    ghost var dropF: nat
    ghost var floorV: int

    ghost predicate StockOk()
      reads `stk, `cum, `cumE, `last, `nQuotes, `lastT, `Q, `dropQ
    {
      && InOrder(Q) && nQuotes == |Q|
      && dropQ <= |Q| && stk == Q[dropQ..] && CumsOf(Q, dropQ, cum)
      && cumE == CumImbalance(Q)
      && last == (if Q == [] then None else Some(Q[|Q| - 1]))
      && (dropQ > 0 ==> dropQ < |Q| && Q[dropQ].ts <= Ms(lastT - KEEP_SEC))
    }

    ghost predicate FutureOk()
      reads `fut, `lastT, `F, `dropF
    {
      && InOrder(F) && (forall i :: 0 <= i < |F| ==> TwoSided(F[i]))
      && dropF <= |F| && fut == F[dropF..]
      && (dropF > 0 ==> dropF < |F| && F[dropF].ts <= Ms(lastT - KEEP_SEC))
    }

    ghost predicate VolumeOk()
      reads `vsec, `vcum, `lastT, `V, `floorV
    {
      Indexes(vsec, vcum, V, floorV) && floorV <= lastT - KEEP_SEC - 100
    }

    /** The arrays represent the complete streams. */
    ghost predicate Arrays()
      reads `stk, `cum, `cumE, `last, `nQuotes, `fut, `vsec, `vcum, `lastT, `Q, `F, `V, `dropQ, `dropF, `floorV
    {
      ValidParams(c.p) && StockOk() && FutureOk() && VolumeOk()
    }

    /** The shared trade list, dictionaries and counters, taken apart by logic. */
    ghost predicate Mirrors()
      reads `view, `trades, `pos, `free, `lastSkip, `nNoFut, `nFutLimit, `nSkipped, `nChain
    {
      && pos == PerLogic(view.one.pos, view.two.pos)
      && free == PerLogic(view.one.free, view.two.free)
      && lastSkip == PerLogic(view.one.lastSkip, view.two.lastSkip)
      && TradesOf(trades, Logic1) == view.one.done && TradesOf(trades, Logic2) == view.two.done
      && nNoFut == view.one.counts.noFut + view.two.counts.noFut
      && nFutLimit == view.one.counts.nearLimit + view.two.counts.nearLimit
      && nSkipped == view.one.counts.skipped + view.two.counts.skipped
      && nChain == view.one.counts.chained + view.two.counts.chained
    }

    ghost predicate Formed(t: int)
      reads `F, `view
    {
      StillGood(c.p, Logic1, F, t, view.one) && StillGood(c.p, Logic2, F, t, view.two)
    }

    /** Holds after every call, whatever the feed does. */
    ghost predicate Valid()
      reads this
    {
      Arrays() && Mirrors() && Formed(lastT)
    }

    /** Each logic has done exactly what its run on the complete streams says. */
    ghost predicate Tracks()
      reads `Q, `F, `V, `lastT, `view
      requires 0 < c.p.volWin
    {
      Follows(c, Logic1, Q, F, V, lastT, lastT, view.one) && Follows(c, Logic2, Q, F, V, lastT, lastT, view.two)
    }

    constructor (c: Config)
      requires ValidParams(c.p)
      ensures Valid() && Tracks() && this.c == c
      ensures Q == [] && F == [] && V == map[] && lastT == c.p.entryStart - 1
      ensures trades == [] && view == PerLogic(IDLE, IDLE)
    {
      this.c := c;
      stk, cum, cumE, last, fut, vsec, vcum := [], [], 0.0, None, [], [], [];
      pos, free, lastSkip := PerLogic(None, None), PerLogic(None, None), PerLogic(None, None);
      lastT, trades := c.p.entryStart - 1, [];
      nQuotes, nDup, nNoFut, nFutLimit, nSkipped, nChain := 0, 0, 0, 0, 0, 0;
      Q, F, V, view := [], [], map[], PerLogic(IDLE, IDLE);
      dropQ, dropF, floorV := 0, 0, c.p.entryStart - 1 - KEEP_SEC - 100;
      new;
      forall lo, hi ensures VolumeIn(V, lo, hi) == 0 {
        EmptyWindow(lo, hi);
      }
    }

    lemma MirrorsPos()
      requires Mirrors()
      ensures pos == PerLogic(view.one.pos, view.two.pos)
    {
    }

    lemma Streams()
      requires Arrays()
      ensures InOrder(Q) && InOrder(F) && ValidParams(c.p)
    {
    }

    lemma Sound()
      requires Valid()
      ensures ValidParams(c.p)
    {
    }

    /** The traded logic's side of the shared state. */
    lemma Owned()
      requires Valid()
      ensures TradesOf(trades, Logic1) == view.one.done && pos.one == view.one.pos
      ensures WellFormed(c.p, Logic1, F, lastT, view.one) && Aligned(view.one)
      ensures InOrder(Q) && InOrder(F)
    {
    }

    // ---- input --------------------------------------------------------------

    /** A late trade is inserted at its second and all later totals are corrected. */
    method InsertLate(sec: int, qty: int)
      requires |vsec| == |vcum| && Increasing(vsec) && BisectLeft(vsec, sec) < |vsec|
      modifies `vsec, `vcum
      ensures var r := Recorded(old(vsec), old(vcum), sec, qty); vsec == r.0 && vcum == r.1
    {
      hide BisectRight;
      var i := BisectLeft(vsec, sec);
      if vsec[i] != sec {
        vsec := InsertAt(vsec, i, sec);
        vcum := InsertAt(vcum, i, if i == 0 then 0 else vcum[i - 1]);
      }
      var j := i;
      ghost var before := vcum;
      while j < |vcum|
        invariant i <= j <= |vcum| == |before|
        modifies `vcum
        invariant forall k :: 0 <= k < |vcum| ==> vcum[k] == if i <= k < j then before[k] + qty else before[k]
      {
        vcum := vcum[j := vcum[j] + qty];
        j := j + 1;
      }
      assert vcum == AddFrom(before, i, qty);
    }

    method Record(sec: int, qty: int)
      requires |vsec| == |vcum| && Increasing(vsec)
      modifies `vsec, `vcum
      ensures var r := Recorded(old(vsec), old(vcum), sec, qty); vsec == r.0 && vcum == r.1
    {
      hide BisectRight;
      ghost var i := BisectLeft(vsec, sec);
      var n := |vsec|;
      if n > 0 && sec == vsec[n - 1] {
        assert vsec[i] >= sec;
        assert i == n - 1;
        vcum := vcum[n - 1 := vcum[n - 1] + qty];
        assert vcum == AddFrom(old(vcum), i, qty);
      } else if n == 0 || sec > vsec[n - 1] {
        assert i == n;
        vsec := vsec + [sec];
        vcum := vcum + [(if n == 0 then 0 else vcum[n - 1]) + qty];
        assert vsec == InsertAt(old(vsec), n, sec);
        assert vcum == AddFrom(InsertAt(old(vcum), n, if n == 0 then 0 else old(vcum)[n - 1]), n, qty);
      } else {
        InsertLate(sec, qty);
      }
    }

    method OnTrade(sec: int, qty: int, side: int)
      requires Valid()
      modifies `vsec, `vcum, `V
      ensures Valid()
      ensures V == if side == 0 || qty <= 0 then old(V) else AddVolume(old(V), sec, qty)
      ensures old(Tracks()) && (side == 0 || qty <= 0 || TimelyTrade(c.p, lastT, sec)) ==> Tracks()
    {
      hide Follows;
      hide Recorded;
      hide StockOk;
      hide FutureOk;
      hide Mirrors;
      hide Formed;
      Streams();
      if side == 0 || qty <= 0 {
        return;
      }
      RecordKeepsIndex(vsec, vcum, V, floorV, sec, qty);
      Record(sec, qty);
      V := AddVolume(V, sec, qty);
      if old(Tracks()) && TimelyTrade(c.p, lastT, sec) {
        FollowsVolume(c, Logic1, Q, F, old(V), sec, qty, lastT, lastT, view.one);
        FollowsVolume(c, Logic2, Q, F, old(V), sec, qty, lastT, lastT, view.two);
      }
    }

    method Accept(q: Quote)
      requires StockOk() && (Q != [] ==> Q[|Q| - 1].ts <= q.ts)
      modifies `stk, `cum, `cumE, `last, `nQuotes, `Q
      ensures StockOk() && Q == old(Q) + [q]
    {
      hide CumImbalance;
      hide Imbalance;
      hide CumsOf;
      CumsGrow(Q, dropQ, cum, q);
      CumOfAppend(Q, q);
      var e := if last.None? then 0.0 else Imbalance(last.value, q);
      cumE := cumE + e;
      stk := stk + [q];
      cum := cum + [cumE];
      last := Some(q);
      nQuotes := nQuotes + 1;
      Q := Q + [q];
      assert stk == Q[dropQ..];
    }

    /** A timely stock quote keeps both logics on their definition. */
    lemma StockTracked(before: seq<Quote>, tracked: bool, q: Quote)
      requires Q == before + [q] && InOrder(Q) && InOrder(F) && ValidParams(c.p)
      requires tracked ==> Follows(c, Logic1, before, F, V, lastT, lastT, view.one)
                           && Follows(c, Logic2, before, F, V, lastT, lastT, view.two)
      ensures tracked && Timely(c.p, lastT, q.ts) ==> Tracks()
    {
      hide Follows;
      if tracked && Timely(c.p, lastT, q.ts) {
        FollowsStock(c, Logic1, before, q, F, V, lastT, lastT, view.one);
        FollowsStock(c, Logic2, before, q, F, V, lastT, lastT, view.two);
      }
    }

    method OnQuote(q: Quote)
      requires Valid()
      requires Q != [] ==> Q[|Q| - 1].ts <= q.ts
      modifies `stk, `cum, `cumE, `last, `nQuotes, `nDup, `Q
      ensures Valid()
      ensures Q == if old(Q) != [] && SameTop(old(Q)[|old(Q)| - 1], q) then old(Q) else old(Q) + [q]
      ensures nDup == old(nDup) + if Q == old(Q) then 1 else 0
      ensures old(Tracks()) && Timely(c.p, lastT, q.ts) ==> Tracks()
    {
      hide Follows;
      hide StillGood;
      hide CumsOf;
      hide FutureOk;
      hide VolumeOk;
      hide Mirrors;
      Streams();
      if last.Some? && SameTop(last.value, q) {
        nDup := nDup + 1;
        return;
      }
      Accept(q);
      StockTracked(old(Q), old(Tracks()), q);
    }

    method AppendFuture(q: Quote)
      requires FutureOk() && TwoSided(q) && (F != [] ==> F[|F| - 1].ts <= q.ts)
      modifies `fut, `F
      ensures FutureOk() && F == old(F) + [q] && fut == old(fut) + [q]
    {
      fut := fut + [q];
      F := F + [q];
      assert fut == F[dropF..];
    }

    /** The open positions after futures quote `q`, and that nothing promised about them is lost. */
    lemma FutureStep(lg: Logic, q: Quote)
      requires Arrays() && StillGood(c.p, lg, F, lastT, view.Get(lg)) && (F != [] ==> F[|F| - 1].ts <= q.ts)
      ensures GoodLogic(lg, view.Get(lg))
      ensures StillGood(c.p, lg, F + [q], lastT, AfterFuture(c, view.Get(lg), q))
      ensures Follows(c, lg, Q, F, V, lastT, lastT, view.Get(lg)) && Timely(c.p, lastT, q.ts)
              ==> Follows(c, lg, Q, F + [q], V, lastT, lastT, AfterFuture(c, view.Get(lg), q))
    {
      hide WellFormed;
      hide Follows;
      hide Crossing;
      Streams();
      FormedFuture(c, lg, F, q, lastT, view.Get(lg));
      OpenLogic(c.p, lg, F, lastT, view.Get(lg));
      if Follows(c, lg, Q, F, V, lastT, lastT, view.Get(lg)) && Timely(c.p, lastT, q.ts) {
        FollowsFuture(c, lg, Q, F, q, V, lastT, view.Get(lg));
      }
    }

    method OnFutQuote(q: Quote)
      requires Valid() && !OneSided(q)
      requires F != [] ==> F[|F| - 1].ts <= q.ts
      modifies `fut, `F, `trades, `pos, `free, `view
      ensures old(trades) <= trades
      ensures Valid()
      ensures F == if TwoSided(q) then old(F) + [q] else old(F)
      ensures view == if TwoSided(q) then PerLogic(AfterFuture(c, old(view.one), q), AfterFuture(c, old(view.two), q))
                      else old(view)
      ensures Grows(old(view.one), view.one)
      ensures old(Tracks()) && Timely(c.p, lastT, q.ts) ==> Tracks()
    {
      hide Follows;
      hide StillGood;
      hide AfterFuture;
      hide Grows;
      hide GoodLogic;
      hide OneSided;
      FutureGrows(c, view.one, q);
      GrowsByNothing(view.one);
      hide FutureOk;
      hide StockOk;
      hide VolumeOk;
      hide Mirrors;
      hide ValidParams;
      hide Timely;
      if !TwoSided(q) {
        return;
      }
      hide TwoSided;
      FutureStep(Logic1, q);
      FutureStep(Logic2, q);
      AppendFuture(q);
      CheckBoth();
    }

    method CheckBoth()
      requires Mirrors() && fut != [] && GoodLogic(Logic1, view.one) && GoodLogic(Logic2, view.two)
      modifies `trades, `pos, `free, `view
      ensures old(trades) <= trades
      ensures Mirrors()
      ensures view == PerLogic(AfterFuture(c, old(view.one), fut[|fut| - 1]),
                               AfterFuture(c, old(view.two), fut[|fut| - 1]))
    {
      hide Mirrors;
      hide GoodLogic;
      hide AfterFuture;
      CheckLast(Logic1);
      CheckLast(Logic2);
    }

    // ---- exits --------------------------------------------------------------

    /** Close the position of `lg` at kept futures quote `i`. */
    method Close(lg: Logic, i: nat, why: Reason)
      requires Mirrors() && i < |fut| && pos.Get(lg).Some? && pos.Get(lg).value.logic == lg
      modifies `trades, `pos, `free, `view
      ensures old(trades) <= trades
      ensures Mirrors()
      ensures view
           == old(view).Set(lg, Closed(old(view).Get(lg), MakeTrade(c, old(view).Get(lg).pos.value, fut[i], why)))
    {
      hide TradesOf;
      var tr := MakeTrade(c, pos.Get(lg).value, fut[i], why);
      hide MakeTrade;
      TradesOfAppend(trades, tr, Logic1);
      TradesOfAppend(trades, tr, Logic2);
      trades := trades + [tr];
      pos := pos.Set(lg, None);
      free := free.Set(lg, Some(fut[i].ts));
      view := view.Set(lg, Closed(view.Get(lg), tr));
    }

    /** Take-profit and stop-loss at kept futures quote `i`. */
    method CheckExit(lg: Logic, i: nat)
      requires Mirrors() && i < |fut| && pos.Get(lg).Some? && pos.Get(lg).value.logic == lg
      modifies `trades, `pos, `free, `view
      ensures old(trades) <= trades
      ensures Mirrors() && view == old(view).Set(lg, AfterFuture(c, old(view).Get(lg), fut[i]))
    {
      hide TradesOf;
      hide MakeTrade;
      var e, q := pos.Get(lg).value, fut[i];
      var px := ExitPrice(lg, q);
      if q.ts <= e.tIn || px <= 0.0 {
        return;
      }
      if q.ts > Ms(Deadline(c.p, e)) {
        return;
      }
      var tp, sl := c.p.tpBp / 10000.0, c.p.slBp / 10000.0;
      if (lg == Logic1 && px <= e.pIn * (1.0 - tp)) || (lg == Logic2 && px >= e.pIn * (1.0 + tp)) {
        Close(lg, i, TakeProfit);
      } else if (lg == Logic1 && px >= e.pIn * (1.0 + sl)) || (lg == Logic2 && px <= e.pIn * (1.0 - sl)) {
        Close(lg, i, StopLoss);
      }
    }

    /** The loop over the open positions after a new futures quote, one logic of it. */
    method CheckLast(lg: Logic)
      requires Mirrors() && fut != [] && GoodLogic(lg, view.Get(lg))
      modifies `trades, `pos, `free, `view
      ensures old(trades) <= trades
      ensures Mirrors() && view == old(view).Set(lg, AfterFuture(c, old(view).Get(lg), fut[|fut| - 1]))
    {
      if pos.Get(lg).Some? {
        CheckExit(lg, |fut| - 1);
      }
    }

    /** Deadline: close at the last futures quote up to second `s`. */
    method TimeExit(lg: Logic, s: int)
      requires FutureOk() && Mirrors() && pos.Get(lg).Some? && pos.Get(lg).value.logic == lg
      requires lastT - KEEP_SEC <= s && UpTo(F, Ms(s)) > 0
      modifies `trades, `pos, `free, `view
      ensures old(trades) <= trades
      ensures Mirrors()
      ensures view == old(view).Set(lg, Closed(old(view).Get(lg),
                        MakeTrade(c, old(view).Get(lg).pos.value, F[UpTo(F, Ms(s)) - 1], TimeUp)))
    {
      hide Mirrors;
      hide MakeTrade;
      hide Closed;
      hide Position;
      hide UpTo;
      hide IsUpTo;
      assert pos.Get(lg) == view.Get(lg).pos by { MirrorsPos(); }
      UpToDrop(F, dropF, Ms(s));
      var n := Position(fut, Ms(s));
      Close(lg, n - 1, TimeUp);
    }

    // ---- the decision at second s -------------------------------------------

    /** The decision's input, read off the kept arrays. */
    lemma FeaturesOfArrays(s: int)
      requires Arrays() && lastT < s
      ensures ValidParams(c.p) && |cum| == |stk| && |vsec| == |vcum|
      ensures Features(c, Q, V, s) == match Measurements(c.p, stk, cum, vsec, vcum, s)
                                      case None => None
                                      case Some(i) => Measured(c, i)
    {
      hide Measured;
      hide InputsAt;
      hide Measurements;
      MeasurementsExact(c.p, Q, dropQ, cum, vsec, vcum, V, floorV, s);
    }

    method FeaturesNow(s: int) returns (r: Option<Feat>)
      requires Arrays() && lastT < s
      ensures r == Features(c, Q, V, s)
    {
      hide Arrays;
      hide Features;
      hide Measured;
      hide VolumeUpto;
      hide Mid;
      hide IsUpTo;
      hide Position;
      FeaturesOfArrays(s);
      var p := c.p;
      var cut := s - p.guard;
      var loVol := cut - p.ofiWin - p.volWin;
      if loVol < p.sessionOpen || cut - p.moveWin < p.sessionOpen {
        return None;
      }
      var ia, ib := Position(stk, Ms(cut - p.moveWin)), Position(stk, Ms(cut));
      if ia == 0 || ib == 0 {
        return None;
      }
      var io := Position(stk, Ms(cut - p.ofiWin));
      var ofi := cum[ib - 1] - if io > 0 then cum[io - 1] else 0.0;
      var vol := VolumeUpto(vsec, vcum, cut - p.ofiWin) - VolumeUpto(vsec, vcum, loVol);
      r := Measured(c, Inputs(Mid(stk[ia - 1]), Mid(stk[ib - 1]), ofi, vol));
    }

    /** Open a position at kept futures quote `i`, then run the quotes that arrived before the decision. */
    method Enter(lg: Logic, s: int, i: nat, feat: Feat)
      requires FutureOk() && Mirrors() && i < |fut| && pos.Get(lg).None?
      modifies `trades, `pos, `free, `view
      ensures old(trades) <= trades
      ensures Mirrors()
      ensures view == old(view).Set(lg, Entered(c, F, old(view).Get(lg),
                        Entry(lg, s, fut[i].ts, if lg == Logic1 then fut[i].bid else fut[i].ask, feat)))
    {
      hide TradesOf;
      hide FutureOk;
      hide Entered;
      var e := Entry(lg, s, fut[i].ts, if lg == Logic1 then fut[i].bid else fut[i].ask, feat);
      pos := pos.Set(lg, Some(e));
      view := view.Set(lg, Opened(view.Get(lg), e));
      KeptBefore(e, i);
      Scan(lg, e, Position(fut, e.tIn), old(view).Get(lg));
    }

    method Scan(lg: Logic, e: Entry, from: nat, ghost before: LogicView)
      requires FutureOk() && Mirrors() && from <= |fut| && NoCrossIn(e, dropF + from)
      requires e.logic == lg && view.Get(lg) == Opened(before, e)
      modifies `trades, `pos, `free, `view
      ensures old(trades) <= trades
      ensures Mirrors() && view == old(view).Set(lg, Entered(c, F, before, e))
    {
      hide MakeTrade;
      hide Crossing;
      hide TradesOf;
      hide NoCrossIn;
      var j := from;
      while j < |fut|
        invariant j <= |fut| && Mirrors() && old(trades) <= trades
        invariant pos.Get(lg).Some? ==> view == old(view) && NoCrossIn(e, dropF + j)
        invariant pos.Get(lg).None? ==> view == old(view).Set(lg, Entered(c, F, before, e))
      {
        if pos.Get(lg).None? {
          break;
        }
        if fut[j].ts > Ms(Deadline(c.p, e)) {
          LateCrossNot(e, j);
          break;
        }
        ScanStep(e, j);
        CheckExit(lg, j);
        j := j + 1;
      }
      if j == |fut| && pos.Get(lg).Some? {
        assert NoCrossIn(e, |F|);
        ScanDone(e);
      }
    }

    ghost predicate NoCrossIn(e: Entry, n: nat)
      reads `F
    {
      n <= |F| && forall k :: 0 <= k < n ==> Crossing(c.p, e, F[k]).None?
    }

    /** Nothing up to the entry quote can close the position. */
    lemma KeptBefore(e: Entry, i: nat)
      requires FutureOk() && i < |fut| && e.tIn == fut[i].ts
      ensures dropF + |fut| == |F| && NoCrossIn(e, dropF + UpTo(fut, e.tIn))
    {
      assert fut[i] == F[dropF + i];
      UpToDrop(F, dropF, e.tIn);
      NoCrossUpToEntry(c.p, e, F);
    }

    lemma ScanStep(e: Entry, j: nat)
      requires FutureOk() && j < |fut| && NoCrossIn(e, dropF + j)
      ensures fut[j] == F[dropF + j]
      ensures if Crossing(c.p, e, fut[j]).Some? then FirstCross(c.p, e, F) == Some(dropF + j)
              else NoCrossIn(e, dropF + j + 1)
    {
      hide Crossing;
      if Crossing(c.p, e, fut[j]).Some? {
        CrossIsFirst(c.p, e, F, dropF + j);
      }
    }

    lemma ScanDone(e: Entry)
      requires NoCrossIn(e, |F|)
      ensures FirstCross(c.p, e, F).None?
    {
    }

    lemma LateCrossNot(e: Entry, j: nat)
      requires FutureOk() && j < |fut| && NoCrossIn(e, dropF + j) && fut[j].ts > Ms(Deadline(c.p, e))
      ensures FirstCross(c.p, e, F).None?
    {
      assert fut[j] == F[dropF + j];
    }

    /** The entry rules for a hit of `lg` at second `s`. */
    method Consider(lg: Logic, s: int, feat: Feat)
      requires StockOk() && FutureOk() && Mirrors() && lastT < s && pos.Get(lg).None?
      modifies `trades, `pos, `free, `lastSkip, `nNoFut, `nFutLimit, `nSkipped, `nChain, `view
      ensures old(trades) <= trades
      ensures Mirrors() && view == old(view).Set(lg, AfterHit(c, lg, Q, F, s, feat, old(view).Get(lg)))
    {
      hide NearLimit;
      hide Filtered;
      hide TradesOf;
      hide Position;
      hide Entered;
      hide StockOk;
      hide FutureOk;
      hide IsUpTo;
      ghost var lv := view.Get(lg);
      ghost var n := lv.counts;
      if lastSkip.Get(lg).Some? && s - lastSkip.Get(lg).value <= c.p.skipChain {
        lastSkip := lastSkip.Set(lg, Some(s));
        nChain := nChain + 1;
        view := view.Set(lg, lv.(lastSkip := Some(s), counts := n.(chained := n.chained + 1)));
        return;
      }
      KeptLookups(s);
      var i0 := Position(stk, Ms(s));
      if i0 == 0 {
        return;
      }
      var f0 := Position(fut, Ms(s));
      if f0 == 0 {
        nNoFut := nNoFut + 1;
        view := view.Set(lg, lv.(counts := n.(noFut := n.noFut + 1)));
        return;
      }
      if NearLimit(c, fut[f0 - 1]) {
        nFutLimit := nFutLimit + 1;
        view := view.Set(lg, lv.(counts := n.(nearLimit := n.nearLimit + 1)));
        return;
      }
      if Filtered(c, lg, stk[i0 - 1], fut[f0 - 1]) {
        lastSkip := lastSkip.Set(lg, Some(s));
        nSkipped := nSkipped + 1;
        view := view.Set(lg, lv.(lastSkip := Some(s), counts := n.(skipped := n.skipped + 1)));
        return;
      }
      Enter(lg, s, f0 - 1, feat);
    }

    lemma KeptLookups(s: int)
      requires StockOk() && FutureOk() && lastT < s
      ensures UpTo(stk, Ms(s)) == 0 <==> UpTo(Q, Ms(s)) == 0
      ensures UpTo(stk, Ms(s)) > 0 ==> stk[UpTo(stk, Ms(s)) - 1] == Q[UpTo(Q, Ms(s)) - 1]
      ensures UpTo(fut, Ms(s)) == 0 <==> UpTo(F, Ms(s)) == 0
      ensures UpTo(fut, Ms(s)) > 0 ==> fut[UpTo(fut, Ms(s)) - 1] == F[UpTo(F, Ms(s)) - 1]
    {
      UpToDrop(Q, dropQ, Ms(s));
      UpToDrop(F, dropF, Ms(s));
      assert stk == Q[dropQ..] && fut == F[dropF..];
    }

    /** One logic of the decision loop.  `cache` carries the indicators to the next logic;
        `stop` says they are undefined, which ends the loop for both. */
    method JudgeOne(lg: Logic, s: int, cache: Option<Feat>) returns (f: Option<Feat>, stop: bool)
      requires Arrays() && Mirrors() && lastT < s && (cache.Some? ==> cache == Features(c, Q, V, s))
      modifies `trades, `pos, `free, `lastSkip, `nNoFut, `nFutLimit, `nSkipped, `nChain, `view
      ensures old(trades) <= trades
      ensures Mirrors() && view == old(view).Set(lg, AfterJudging(c, lg, Q, F, V, s, old(view).Get(lg)))
      ensures f.Some? ==> f == Features(c, Q, V, s)
      ensures stop ==> Features(c, Q, V, s) == None
    {
      hide Features;
      hide AfterHit;
      hide TradesOf;
      hide StockOk;
      hide FutureOk;
      hide VolumeOk;
      f, stop := cache, false;
      if pos.Get(lg).Some? || (free.Get(lg).Some? && Ms(s) < free.Get(lg).value) {
        return;
      }
      if f.None? {
        f := FeaturesNow(s);
        if f.None? {
          stop := true;
          return;
        }
      }
      if Hit(c.p, lg, f.value) {
        Consider(lg, s, f.value);
      }
    }

    method Judge(s: int)
      requires Arrays() && Mirrors() && lastT < s
      modifies `trades, `pos, `free, `lastSkip, `nNoFut, `nFutLimit, `nSkipped, `nChain, `view
      ensures old(trades) <= trades
      ensures Mirrors()
      ensures view == PerLogic(AfterJudging(c, Logic1, Q, F, V, s, old(view.one)),
                               AfterJudging(c, Logic2, Q, F, V, s, old(view.two)))
    {
      hide Arrays;
      hide Mirrors;
      hide Features;
      hide AfterHit;
      Streams();
      var f, stop := JudgeOne(Logic1, s, None);
      if !stop {
        f, stop := JudgeOne(Logic2, s, f);
      }
    }

    // ---- the clock ----------------------------------------------------------

    method TimeExits(lg: Logic, s: int)
      requires Arrays() && Mirrors() && s == lastT + 1 && StillGood(c.p, lg, F, lastT, view.Get(lg))
      modifies `trades, `pos, `free, `view
      ensures old(trades) <= trades
      ensures Mirrors() && view == old(view).Set(lg, AfterDeadline(c, F, s, old(view).Get(lg)))
    {
      hide TradesOf;
      hide WellFormed;
      hide StockOk;
      hide VolumeOk;
      hide MakeTrade;
      OpenLogic(c.p, lg, F, lastT, view.Get(lg));
      if pos.Get(lg).Some? && Deadline(c.p, pos.Get(lg).value) == s {
        assert IsUpTo(F, Ms(s), UpTo(F, Ms(s)));
        TimeExit(lg, s);
      }
    }

    /** What a second does to each logic keeps the promises about it. */
    lemma SecondKeeps(lg: Logic, s: int)
      requires Arrays() && s == lastT + 1 && StillGood(c.p, lg, F, lastT, view.Get(lg))
      ensures ValidParams(c.p)
      ensures StillGood(c.p, lg, F, s, AfterSecond(c, lg, Q, F, V, s, view.Get(lg)))
      ensures Follows(c, lg, Q, F, V, lastT, lastT, view.Get(lg))
              ==> Follows(c, lg, Q, F, V, s, s, AfterSecond(c, lg, Q, F, V, s, view.Get(lg)))
    {
      hide WellFormed;
      hide Follows;
      hide AfterSecond;
      SecondFormed(c, lg, Q, F, V, s, view.Get(lg));
      if Follows(c, lg, Q, F, V, lastT, lastT, view.Get(lg)) {
        SecondFollows(c, lg, Q, F, V, s, view.Get(lg));
      }
    }

    method Done(s: int)
      requires Arrays() && lastT <= s
      modifies `lastT
      ensures Arrays() && lastT == s
    {
      lastT := s;
    }

    /** Time exits, entry decision and pruning of second `s`. */
    method Second(s: int)
      requires Valid() && s == lastT + 1
      modifies `trades, `pos, `free, `lastSkip, `nNoFut, `nFutLimit, `nSkipped, `nChain, `view
      modifies `lastT, `stk, `cum, `fut, `vsec, `vcum, `dropQ, `dropF, `floorV
      ensures old(trades) <= trades
      ensures Valid() && lastT == s
      ensures view == PerLogic(AfterSecond(c, Logic1, Q, F, V, s, old(view.one)),
                               AfterSecond(c, Logic2, Q, F, V, s, old(view.two)))
      ensures old(Tracks()) ==> Tracks()
    {
      hide StillGood;
      hide Follows;
      hide AfterDeadline;
      hide AfterJudging;
      hide Arrays;
      hide Mirrors;
      SecondKeeps(Logic1, s);
      SecondKeeps(Logic2, s);
      TimeExits(Logic1, s);
      TimeExits(Logic2, s);
      if InWindow(c.p, s) {
        Judge(s);
      }
      Done(s);
      Prune(s);
    }

    /** Once a minute, delete what no later decision can ask for; quotes only while no position is open. */
    method Prune(s: int)
      requires Arrays() && lastT == s
      modifies `stk, `cum, `fut, `vsec, `vcum, `dropQ, `dropF, `floorV
      ensures Arrays()
    {
      hide StockOk;
      hide FutureOk;
      hide VolumeOk;
      if s % 60 != 0 {
        return;
      }
      var cut := s - KEEP_SEC;
      if pos.one.None? && pos.two.None? {
        PruneStock(cut);
        PruneFuture(cut);
      }
      PruneVolume(cut - 100);
    }

    method PruneStock(cut: int)
      requires StockOk() && cut == lastT - KEEP_SEC
      modifies `stk, `cum, `dropQ
      ensures StockOk()
    {
      hide CumImbalance;
      hide InOrder;
      hide Position;
      hide UpTo;
      hide IsUpTo;
      var k := Position(stk, Ms(cut)) - 1;
      if k > 0 {
        DropDrop(Q, dropQ, k, Ms(cut));
        CumsDrop(Q, dropQ, cum, k);
        stk := stk[k..];
        cum := cum[k..];
        dropQ := dropQ + k;
      }
    }

    method PruneFuture(cut: int)
      requires FutureOk() && cut == lastT - KEEP_SEC
      modifies `fut, `dropF
      ensures FutureOk()
    {
      var k := Position(fut, Ms(cut)) - 1;
      if k > 0 {
        DropDrop(F, dropF, k, Ms(cut));
        fut := fut[k..];
        dropF := dropF + k;
      }
    }

    /** The totals are cumulative, so one second before the cut stays as the base. */
    method PruneVolume(cut: int)
      requires VolumeOk() && cut == lastT - KEEP_SEC - 100
      modifies `vsec, `vcum, `floorV
      ensures VolumeOk()
    {
      hide VolumeUpto;
      var k := BisectRight(vsec, cut) - 1;
      if k > 0 {
        DropKeepsIndex(vsec, vcum, V, floorV, k, cut);
        vsec, vcum := vsec[k..], vcum[k..];
        floorV := cut;
      }
    }

    method NextSecond()
      requires Valid()
      modifies this
      ensures old(trades) <= trades
      ensures Q == old(Q) && F == old(F) && V == old(V) && nDup == old(nDup)
      ensures Valid() && lastT == old(lastT) + 1
      ensures Grows(old(view.one), view.one)
      ensures old(Tracks()) ==> Tracks()
    {
      hide Valid;
      hide Tracks;
      Sound();
      hide AfterSecond;
      hide Grows;
      SecondGrows(c, Logic1, Q, F, V, lastT + 1, view.one);
      Second(lastT + 1);
    }

    /** Decide every second up to T.  Quotes up to T and trades up to T - 1 come first. */
    method Advance(T: int)
      requires Valid()
      modifies this
      ensures old(trades) <= trades
      ensures Q == old(Q) && F == old(F) && V == old(V) && nDup == old(nDup)
      ensures Valid() && lastT == MaxInt(old(lastT), T)
      ensures Grows(old(view.one), view.one)
      ensures old(Tracks()) ==> Tracks()
    {
      hide Valid;
      hide Tracks;
      Sound();
      hide Grows;
      GrowsByNothing(view.one);
      while lastT < T
        invariant Q == old(Q) && F == old(F) && V == old(V) && nDup == old(nDup) && old(trades) <= trades
        invariant Valid() && old(lastT) <= lastT <= MaxInt(old(lastT), T)
        invariant Grows(old(view.one), view.one)
        invariant old(Tracks()) ==> Tracks()
      {
        ghost var before := view.one;
        NextSecond();
        GrowsOn(old(view.one), before, view.one);
      }
    }

    /** End of the day.  Every deadline lies before the close, so nothing is left to close by hand. */
    method Finish()
      requires Valid()
      modifies this
      ensures old(trades) <= trades
      ensures Q == old(Q) && F == old(F) && V == old(V) && nDup == old(nDup)
      ensures Valid() && lastT == MaxInt(old(lastT), c.p.sessionClose)
      ensures pos == PerLogic(None, None)
      ensures Grows(old(view.one), view.one)
      ensures old(Tracks()) ==> Tracks()
      ensures old(Tracks()) ==> TradesOf(trades, Logic1) == TradesBySpec(c, Logic1, Q, F, V)
      ensures old(Tracks()) ==> TradesOf(trades, Logic2) == TradesBySpec(c, Logic2, Q, F, V)
    {
      hide Follows;
      hide StillGood;
      hide TradesOf;
      hide TradesBySpec;
      Advance(c.p.sessionClose);
      FollowsToTheEnd(c, Logic1, Q, F, V, lastT, view.one);
      FollowsToTheEnd(c, Logic2, Q, F, V, lastT, view.two);
      assert pos == PerLogic(None, None);
    }
  }
}
