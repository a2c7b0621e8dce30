/** What the guard's counters mean over whole runs: the losing streak, the run of refusals, the total. */
module GuardRuns {
  import opened Positions
  import opened Paper
  import opened Polling
  import opened RiskGuards

  // ---- a counter that some steps raise and some clear -----------------------

  /** How many k of [m, n) have the property. */
  ghost function Count(p: nat -> bool, m: nat, n: nat): nat
    decreases n
  {
    if n <= m then 0 else Count(p, m, n - 1) + if p(n - 1) then 1 else 0
  }

  /** The last clearing step among the first `n`, and what has been counted since. */
  ghost predicate CountsSince(raises: nat -> bool, clears: nat -> bool, m: nat, n: nat, value: nat) {
    && m <= n && (m > 0 ==> clears(m - 1)) && (forall k: nat :: m <= k < n ==> !clears(k))
    && value == Count(raises, m, n)
  }

  ghost predicate StepAt(raises: nat -> bool, clears: nat -> bool, f: nat -> nat, k: nat) {
    f(k + 1) == if clears(k) then 0 else if raises(k) then f(k) + 1 else f(k)
  }

  lemma {:induction false} Counts(raises: nat -> bool, clears: nat -> bool, f: nat -> nat, n: nat) returns (m: nat)
    requires f(0) == 0
    requires forall k: nat :: k < n ==> StepAt(raises, clears, f, k)
    ensures CountsSince(raises, clears, m, n, f(n))
  {
    if n == 0 {
      m := 0;
    } else {
      assert StepAt(raises, clears, f, n - 1);
      if clears(n - 1) {
        m := n;
      } else {
        m := Counts(raises, clears, f, n - 1);
      }
    }
  }

  // ---- the losing streak ----------------------------------------------------

  predicate LosesAt(acts: seq<Act>, k: nat) {
    k < |acts| && acts[k].Night? && acts[k].pnl < 0.0
  }

  /** A night that does not lose, or somebody resuming a paused guard. */
  ghost predicate StreakEnds(l: Limits, acts: seq<Act>, tape: seq<Print>, fees: Fees, k: nat) {
    k < |acts|
    && ((acts[k].Night? && acts[k].pnl >= 0.0)
        || (acts[k].Resume? && RunGuarded(l, acts[..k], tape, fees).risk.status == Paused))
  }

  function Losing(acts: seq<Act>): nat -> bool {
    (k: nat) => LosesAt(acts, k)
  }

  ghost function Ending(l: Limits, acts: seq<Act>, tape: seq<Print>, fees: Fees): nat -> bool {
    (k: nat) => StreakEnds(l, acts, tape, fees, k)
  }

  /** The losing nights counted are the trailing ones: since the last night that did not lose, or since
      the last time somebody resumed. */
  lemma LossesAreTrailing(l: Limits, acts: seq<Act>, tape: seq<Print>, fees: Fees) returns (m: nat)
    ensures CountsSince(Losing(acts), Ending(l, acts, tape, fees), m, |acts|,
                        RunGuarded(l, acts, tape, fees).risk.losses)
  {
    hide Good;
    hide Placed;
    var f := (k: nat) => if k <= |acts| then RunGuarded(l, acts[..k], tape, fees).risk.losses else 0;
    assert acts[..0] == [] && acts[..|acts|] == acts;
    var raises, clears := Losing(acts), Ending(l, acts, tape, fees);
    forall k: nat | k < |acts| ensures StepAt(raises, clears, f, k) {
      assert clears(k) == StreakEnds(l, acts, tape, fees, k) && raises(k) == LosesAt(acts, k);
      RunStep(l, acts, tape, fees, k);
      LossStep(l, RunGuarded(l, acts[..k], tape, fees), acts[k], tape, fees);
    }
    m := Counts(raises, clears, f, |acts|);
  }

  lemma LossStep(l: Limits, g: Guarded, a: Act, tape: seq<Print>, fees: Fees)
    requires Good(g.x)
    ensures NextGuarded(l, g, a, tape, fees).risk.losses
         == if (a.Night? && a.pnl >= 0.0) || (a.Resume? && g.risk.status == Paused) then 0
            else if a.Night? then g.risk.losses + 1 else g.risk.losses
  {
    hide Good;
    hide Next;
    hide Lets;
  }

  // ---- the run of refusals --------------------------------------------------

  /** The order goes through the guard to the exchange. */
  ghost predicate Sends(l: Limits, g: Guarded, a: Act) {
    a.Place? && Placing(a.order) && Lets(l, Killed(g.risk, a.killed), g.x, a.order)
  }

  ghost predicate Takes(l: Limits, g: Guarded, a: Act, tape: seq<Print>, fees: Fees)
    requires Good(g.x) && a.Place? && Placing(a.order)
  {
    var r := ReplyTo(Next(g.x, a.order, tape, fees), a.order.id); r.Got? && r.order.status != Rejected
  }

  ghost predicate RefusedAt(l: Limits, acts: seq<Act>, tape: seq<Print>, fees: Fees, k: nat) {
    k < |acts| && var g := RunGuarded(l, acts[..k], tape, fees);
                  Sends(l, g, acts[k]) && !Takes(l, g, acts[k], tape, fees)
  }

  /** An order the exchange takes, or a reset with the kill switch off. */
  ghost predicate RefusalsEnd(l: Limits, acts: seq<Act>, tape: seq<Print>, fees: Fees, k: nat) {
    k < |acts| && var g := RunGuarded(l, acts[..k], tape, fees);
                  (acts[k].ResetHalt? && !acts[k].killed) || (Sends(l, g, acts[k]) && Takes(l, g, acts[k], tape, fees))
  }

  ghost function Refused(l: Limits, acts: seq<Act>, tape: seq<Print>, fees: Fees): nat -> bool {
    (k: nat) => RefusedAt(l, acts, tape, fees, k)
  }

  ghost function Taken(l: Limits, acts: seq<Act>, tape: seq<Print>, fees: Fees): nat -> bool {
    (k: nat) => RefusalsEnd(l, acts, tape, fees, k)
  }

  lemma RejectStep(l: Limits, g: Guarded, a: Act, tape: seq<Print>, fees: Fees)
    requires Good(g.x)
    ensures NextGuarded(l, g, a, tape, fees).risk.rejects
         == if (a.ResetHalt? && !a.killed) || (Sends(l, g, a) && Takes(l, g, a, tape, fees)) then 0
            else if Sends(l, g, a) then g.risk.rejects + 1 else g.risk.rejects
  {
    hide Good;
    hide Next;
    hide Lets;
  }

  /** The refusals counted are those since the exchange last took an order, or somebody last reset. */
  lemma RejectsAreTrailing(l: Limits, acts: seq<Act>, tape: seq<Print>, fees: Fees) returns (m: nat)
    ensures CountsSince(Refused(l, acts, tape, fees), Taken(l, acts, tape, fees), m, |acts|,
                        RunGuarded(l, acts, tape, fees).risk.rejects)
  {
    hide Good;
    hide NextGuarded;
    hide Sends;
    hide Takes;
    var f := (k: nat) => if k <= |acts| then RunGuarded(l, acts[..k], tape, fees).risk.rejects else 0;
    assert acts[..0] == [] && acts[..|acts|] == acts;
    var raises, clears := Refused(l, acts, tape, fees), Taken(l, acts, tape, fees);
    forall k: nat | k < |acts| ensures StepAt(raises, clears, f, k) {
      assert clears(k) == RefusalsEnd(l, acts, tape, fees, k) && raises(k) == RefusedAt(l, acts, tape, fees, k);
      RunStep(l, acts, tape, fees, k);
      RejectStep(l, RunGuarded(l, acts[..k], tape, fees), acts[k], tape, fees);
    }
    m := Counts(raises, clears, f, |acts|);
  }

  // ---- the total, and its line ----------------------------------------------

  function NightSum(acts: seq<Act>): real {
    if acts == [] then 0.0
    else
      var a := acts[|acts| - 1];
      NightSum(acts[..|acts| - 1]) + if a.Night? then a.pnl else 0.0
  }

  lemma {:induction false} TotalIsSum(l: Limits, acts: seq<Act>, tape: seq<Print>, fees: Fees)
    ensures RunGuarded(l, acts, tape, fees).risk.cumulative == NightSum(acts)
  {
    hide Good;
    hide Next;
    hide Lets;
    if acts == [] {
    } else {
      TotalIsSum(l, acts[..|acts| - 1], tape, fees);
    }
  }

  lemma LineHalts(l: Limits, before: seq<Act>, pnl: real, tape: seq<Print>, fees: Fees)
    requires NightSum(before) + pnl <= l.testStop
    ensures RunGuarded(l, before + [Night(pnl)], tape, fees).risk.status == Halted
  {
    TotalIsSum(l, before, tape, fees);
    var acts := before + [Night(pnl)];
    assert acts[..|acts| - 1] == before;
    hide Good;
    hide Placed;
    hide Next;
    hide NightSum;
  }

  lemma HaltedTakesNone(l: Limits, g: Guarded, order: Step, killed: bool, tape: seq<Print>, fees: Fees)
    requires Good(g.x) && g.risk.status == Halted && Placing(order) && !order.PlaceStop? && !order.reduceOnly
    requires !Reduces(g.x.pos.qty, order.side, order.qty)
    ensures NextGuarded(l, g, Place(order, killed), tape, fees).x == g.x
  {
    hide Good;
    hide Next;
    hide Reduces;
    hide Pending;
  }

  /** From the night on that takes the total to the line or below it, no order that could add to the
      position reaches the exchange until somebody resets the guard with the kill switch off. */
  lemma LossLineStops(l: Limits, before: seq<Act>, pnl: real, after: seq<Act>, order: Step, killed: bool,
                      tape: seq<Print>, fees: Fees)
    requires NightSum(before) + pnl <= l.testStop && forall a :: a in after && a.ResetHalt? ==> a.killed
    requires Placing(order) && !order.PlaceStop? && !order.reduceOnly
    requires !Reduces(RunGuarded(l, before + [Night(pnl)] + after, tape, fees).x.pos.qty, order.side, order.qty)
    ensures var g := RunGuarded(l, before + [Night(pnl)] + after, tape, fees);
            g.risk.status == Halted && NextGuarded(l, g, Place(order, killed), tape, fees).x == g.x
  {
    hide *;
    LineHalts(l, before, pnl, tape, fees);
    HaltedToTheEnd(l, before + [Night(pnl)], after, tape, fees);
    HaltedTakesNone(l, RunGuarded(l, before + [Night(pnl)] + after, tape, fees), order, killed, tape, fees);
  }
}
