/** What the strategy means: a definition of every decision and every exit on the complete,
    never-pruned streams, one logic at a time and without any incremental state. */
module Signal {
  import opened Basics
  import opened Tape

  /** Seconds of history the engine keeps when it deletes old data. */
  const KEEP_SEC := 900

  /** A second as milliseconds. */
  function Ms(sec: int): int {
    sec * 1000
  }

  datatype Logic = Logic1 | Logic2

  datatype Params = Params(
    moveWin: int, moveBp: real, ofiWin: int, volWin: int, ofiTh: real, guard: int,
    futLimitBp: real, futMinRem: int, futGapTicks: int, skipChain: int,
    tpBp: real, slBp: real, hold: int, costBp: real,
    sessionOpen: int, sessionClose: int, entryStart: int, entryEnd: int)

  /** Parameters, the logarithm, the tick-size table and the reference price of one engine. */
  datatype Config = Config(p: Params, ln: real -> real, tick: real -> Positive, futBase: Option<real>)

  /** Sane windows, and windows that fit into the kept history. */
  predicate ValidParams(p: Params) {
    && 0 <= p.guard && 0 <= p.moveWin && 0 < p.ofiWin && 0 < p.volWin && 0 < p.hold
    && p.guard + p.moveWin <= KEEP_SEC
    && p.guard + p.ofiWin <= KEEP_SEC
    && p.guard + p.ofiWin + p.volWin <= KEEP_SEC + 100
  }

  datatype Feat = Feat(pastBp: real, ofi: real, volPerMin: real, ofiRatio: real, midStart: real, midCut: real)

  datatype Reason = TakeProfit | StopLoss | TimeUp

  datatype Entry = Entry(logic: Logic, tSig: int, tIn: int, pIn: real, feat: Feat)

  datatype Trade = Trade(entry: Entry, tOut: int, pOut: real, reason: Reason, pnlBp: real, netBp: real)

  function Side(lg: Logic): int {
    if lg == Logic1 then -1 else 1
  }

  function Deadline(p: Params, e: Entry): int {
    e.tSig + p.hold
  }

  // ---- the signal at second t, from data up to second t - guard -------------

  /** The four quantities a decision measures. */
  datatype Inputs = Inputs(midA: real, midB: real, ofi: real, volume: int)

  /** The indicator values and whether they are defined, from the four measured quantities. */
  function Measured(c: Config, i: Inputs): Option<Feat>
    requires 0 < c.p.volWin
  {
    var past := (c.ln(i.midB) - c.ln(i.midA)) * 10000.0;
    var perMin := i.volume as real / (c.p.volWin as real / 60.0);
    if Abs(past) < c.p.moveBp || perMin <= 0.0 then None
    else Some(Feat(past, i.ofi, perMin, i.ofi / perMin, i.midA, i.midB))
  }

  /** The measurements at second t; none while the session is too young. */
  ghost function InputsAt(p: Params, q: seq<Quote>, v: Volume, t: int): Option<Inputs> {
    var cut := t - p.guard;
    var a, b := UpTo(q, Ms(cut - p.moveWin)), UpTo(q, Ms(cut));
    if cut - p.ofiWin - p.volWin < p.sessionOpen || cut - p.moveWin < p.sessionOpen || a == 0 || b == 0 then None
    else
      Some(Inputs(Mid(q[a - 1]), Mid(q[b - 1]), ImbalanceIn(q, Ms(cut - p.ofiWin), Ms(cut)),
                  VolumeIn(v, cut - p.ofiWin - p.volWin, cut - p.ofiWin)))
  }

  ghost function Features(c: Config, q: seq<Quote>, v: Volume, t: int): Option<Feat>
    requires 0 < c.p.volWin
  {
    match InputsAt(c.p, q, v, t)
    case None => None
    case Some(i) => Measured(c, i)
  }

  predicate Hit(p: Params, lg: Logic, f: Feat) {
    if lg == Logic1 then f.pastBp >= p.moveBp && f.ofiRatio < -p.ofiTh
    else f.pastBp <= -p.moveBp && f.ofiRatio > p.ofiTh
  }

  /** The futures mid is at or beyond the limit band around the reference price, or that price is unknown. */
  predicate NearLimit(c: Config, f: Quote) {
    match c.futBase
    case None => true
    case Some(base) =>
      var m, lim := Mid(f), c.p.futLimitBp / 10000.0;
      m >= base * (1.0 + lim) || m <= base * (1.0 - lim)
  }

  /** The futures-quote filter: too little size on the entry side, or too wide a gap over the stock spread. */
  predicate Filtered(c: Config, lg: Logic, stock: Quote, fut: Quote) {
    var size := if lg == Logic1 then fut.bidQty else fut.askQty;
    var gap := ((fut.ask - fut.bid) - (stock.ask - stock.bid)) / c.tick(Mid(stock));
    size < c.p.futMinRem as real || gap >= c.p.futGapTicks as real
  }

  // ---- the exit -------------------------------------------------------------

  function ExitPrice(lg: Logic, q: Quote): real {
    if lg == Logic1 then q.ask else q.bid
  }

  /** Why (if at all) quote `q` closes position `e` before its deadline. */
  function Crossing(p: Params, e: Entry, q: Quote): Option<Reason> {
    var px, tp, sl := ExitPrice(e.logic, q), p.tpBp / 10000.0, p.slBp / 10000.0;
    if q.ts <= e.tIn || px <= 0.0 || q.ts > Ms(Deadline(p, e)) then None
    else if (if e.logic == Logic1 then px <= e.pIn * (1.0 - tp) else px >= e.pIn * (1.0 + tp)) then Some(TakeProfit)
    else if (if e.logic == Logic1 then px >= e.pIn * (1.0 + sl) else px <= e.pIn * (1.0 - sl)) then Some(StopLoss)
    else None
  }

  /** Index of the first quote that crosses take-profit or stop-loss. */
  ghost function FirstCross(p: Params, e: Entry, f: seq<Quote>): (r: Option<nat>)
    ensures r.Some? ==> r.value < |f| && Crossing(p, e, f[r.value]).Some?
                        && forall i :: 0 <= i < r.value ==> Crossing(p, e, f[i]).None?
    ensures r.None? ==> forall i :: 0 <= i < |f| ==> Crossing(p, e, f[i]).None?
  {
    if f == [] then None
    else
      var r := FirstCross(p, e, f[..|f| - 1]);
      if r.Some? then r
      else if Crossing(p, e, f[|f| - 1]).Some? then Some(|f| - 1)
      else None
  }

  function MakeTrade(c: Config, e: Entry, q: Quote, why: Reason): (r: Trade)
    ensures r.entry == e && r.tOut == q.ts
  {
    var px := ExitPrice(e.logic, q);
    // the price ratio is guarded only because reals have no quotient by zero
    var pnl := if e.pIn == 0.0 then 0.0 else Side(e.logic) as real * c.ln(px / e.pIn) * 10000.0;
    Trade(e, q.ts, px, why, pnl, pnl - c.p.costBp)
  }

  /** The exit by definition: the first crossing quote, otherwise the last quote at the deadline. */
  ghost function ExitOf(c: Config, f: seq<Quote>, e: Entry): Trade
    requires f != []
  {
    match FirstCross(c.p, e, f)
    case Some(i) => MakeTrade(c, e, f[i], Crossing(c.p, e, f[i]).value)
    case None =>
      var n := UpTo(f, Ms(Deadline(c.p, e)));
      MakeTrade(c, e, f[if n == 0 then 0 else n - 1], TimeUp)
  }

  /** Up to when (exclusive) the position blocks a new entry of its logic. */
  ghost function BlockedUntil(p: Params, f: seq<Quote>, e: Entry): int {
    match FirstCross(p, e, f)
    case Some(i) => f[i].ts
    case None => Ms(Deadline(p, e))
  }

  // ---- the run of one logic -------------------------------------------------

  /** Signals that did not become an entry, by cause. */
  datatype Counts = Counts(noFut: nat, nearLimit: nat, skipped: nat, chained: nat)

  datatype Run = Run(entries: seq<Entry>, lastSkip: Option<int>, counts: Counts)

  const FRESH := Run([], None, Counts(0, 0, 0, 0))

  predicate InWindow(p: Params, t: int) {
    p.entryStart <= t < p.entryEnd && t + p.hold <= p.sessionClose
  }

  ghost predicate Busy(p: Params, f: seq<Quote>, run: Run, t: int) {
    run.entries != [] && Ms(t) < BlockedUntil(p, f, run.entries[|run.entries| - 1])
  }

  /** A hit at second t: what the entry rules make of it. */
  ghost function OnHit(c: Config, lg: Logic, q: seq<Quote>, f: seq<Quote>, t: int, feat: Feat, run: Run): Run {
    var a, b := UpTo(q, Ms(t)), UpTo(f, Ms(t));
    if run.lastSkip.Some? && t - run.lastSkip.value <= c.p.skipChain then
      run.(lastSkip := Some(t), counts := run.counts.(chained := run.counts.chained + 1))
    else if a == 0 then run
    else if b == 0 then run.(counts := run.counts.(noFut := run.counts.noFut + 1))
    else if NearLimit(c, f[b - 1]) then run.(counts := run.counts.(nearLimit := run.counts.nearLimit + 1))
    else if Filtered(c, lg, q[a - 1], f[b - 1]) then 
      run.(lastSkip := Some(t), counts := run.counts.(skipped := run.counts.skipped + 1))
    else
      var pIn := if lg == Logic1 then f[b - 1].bid else f[b - 1].ask;
      run.(entries := run.entries + [Entry(lg, t, f[b - 1].ts, pIn, feat)])
  }

  ghost function Step(c: Config, lg: Logic, q: seq<Quote>, f: seq<Quote>, v: Volume, t: int, run: Run): Run
    requires 0 < c.p.volWin
  {
    if !InWindow(c.p, t) || Busy(c.p, f, run, t) then run
    else
      match Features(c, q, v, t)
      case None => run
      case Some(feat) => if Hit(c.p, lg, feat) then OnHit(c, lg, q, f, t, feat, run) else run
  }

  /** The run of logic `lg` after second `t`. */
  ghost function RunAt(c: Config, lg: Logic, q: seq<Quote>, f: seq<Quote>, v: Volume, t: int): Run
    requires 0 < c.p.volWin
    decreases t - c.p.entryStart
  {
    if t < c.p.entryStart then FRESH
    else Step(c, lg, q, f, v, t, RunAt(c, lg, q, f, v, t - 1))
  }

  ghost function ExitsOf(c: Config, f: seq<Quote>, es: seq<Entry>): (r: seq<Trade>)
    requires es != [] ==> f != []
    ensures |r| == |es| && forall i :: 0 <= i < |es| ==> r[i] == ExitOf(c, f, es[i])
  {
    seq(|es|, i requires 0 <= i < |es| => ExitOf(c, f, es[i]))
  }

  /** The whole day of one logic, by definition: the result every execution is measured against. */
  ghost function TradesBySpec(c: Config, lg: Logic, q: seq<Quote>, f: seq<Quote>, v: Volume): seq<Trade>
    requires 0 < c.p.volWin
  {
    if f == [] then [] else ExitsOf(c, f, RunAt(c, lg, q, f, v, c.p.sessionClose).entries)
  }
}
