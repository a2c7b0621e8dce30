/** One-pass labelling of bull and bear phases: a fall of `thr` from the highest price so far turns the
    phase at that high, a rise of `thr` from the lowest price so far turns it at that low. */
module Swings {
  datatype Turn = Turn(at: nat, up: bool)

  /** The pass: current phase, its extreme and where it was, turns so far. */
  datatype Swing = Swing(up: bool, ext: real, extAt: nat, turns: seq<Turn>)

  /** A price fallen by the threshold. */
  function Cut(x: real, thr: real): real {
    x * (1.0 - thr)
  }

  /** A price risen by the threshold. */
  function Lift(x: real, thr: real): real {
    x * (1.0 + thr)
  }

  function Advance(s: Swing, i: nat, p: real, thr: real): Swing {
    if s.up then
      if p > s.ext then s.(ext := p, extAt := i)
      else if p <= Cut(s.ext, thr) then Swing(false, p, i, s.turns + [Turn(s.extAt, false)])
      else s
    else
      if p < s.ext then s.(ext := p, extAt := i)
      else if p >= Lift(s.ext, thr) then Swing(true, p, i, s.turns + [Turn(s.extAt, true)])
      else s
  }

  function SwingOf(px: seq<real>, thr: real, n: nat): Swing
    requires 0 < |px| && n <= |px|
  {
    if n == 0 then Swing(true, px[0], 0, [Turn(0, true)]) else Advance(SwingOf(px, thr, n - 1), n - 1, px[n - 1], thr)
  }

  // ---- what the turns mean --------------------------------------------------

  /** Prices are positive and the threshold is a proper fraction. */
  ghost predicate Sane(px: seq<real>, thr: real) {
    0 < |px| && 0.0 < thr < 1.0 && forall i :: 0 <= i < |px| ==> px[i] > 0.0
  }

  /** Index `b` holds the first extreme of the prices of [a, n). */
  ghost predicate Extreme(px: seq<real>, up: bool, a: nat, b: nat, n: nat)
    requires n <= |px|
  {
    && a <= b < n
    && forall j :: a <= j < n ==>
         if up then px[j] <= px[b] && (j < b ==> px[j] < px[b]) else px[j] >= px[b] && (j < b ==> px[j] > px[b])
  }

  /** No fall of `thr` in a rising phase; in a falling phase no price so far above an earlier one that
      going back would be such a fall. */
  ghost predicate Steady(px: seq<real>, thr: real, up: bool, a: nat, n: nat)
    requires n <= |px|
  {
    forall j, k :: a <= j <= k < n ==>
      if up then px[k] > Cut(px[j], thr) else px[j] > Cut(px[k], thr)
  }

  /** From `a` to `b` the price moved by the threshold. */
  ghost predicate Moved(px: seq<real>, thr: real, up: bool, a: nat, b: nat)
    requires a < |px| && b < |px|
  {
    if up then px[b] >= Lift(px[a], thr) else px[b] <= Cut(px[a], thr)
  }

  /** A completed phase: from turn k to turn k + 1. */
  ghost predicate Completed(px: seq<real>, thr: real, turns: seq<Turn>, k: nat)
    requires k + 1 < |turns| && turns[k].at < |px| && turns[k + 1].at < |px|
  {
    var a, b, up := turns[k].at, turns[k + 1].at, turns[k].up;
    && Extreme(px, up, a, b, b + 1)
    && Steady(px, thr, up, a, b + 1)
    && (k > 0 ==> a < b && Moved(px, thr, up, a, b))
  }

  ghost predicate TurnsFit(px: seq<real>, thr: real, turns: seq<Turn>) {
    && turns != [] && turns[0] == Turn(0, true)
    && (forall k :: 0 <= k < |turns| ==> turns[k].at < |px| && turns[k].up == (k % 2 == 0))
    && forall k :: 0 <= k && k + 1 < |turns| ==> Completed(px, thr, turns, k)
  }

  /** The pass after `n` prices: completed phases fit, and the open phase [last turn, n) is described
      by its extreme, which later prices have not left by the threshold. */
  ghost predicate Fits(px: seq<real>, thr: real, s: Swing, n: nat)
    requires 0 < n <= |px|
  {
    && TurnsFit(px, thr, s.turns)
    && var a := s.turns[|s.turns| - 1].at;
      && s.up == s.turns[|s.turns| - 1].up
      && Extreme(px, s.up, a, s.extAt, n) && s.ext == px[s.extAt]
      && Steady(px, thr, s.up, a, n)
      && (|s.turns| > 1 ==> a < s.extAt && Moved(px, thr, s.up, a, s.extAt))
      && (forall j :: s.extAt <= j < n ==> Near(px, thr, s.up, s.extAt, j))
  }

  ghost predicate Near(px: seq<real>, thr: real, up: bool, e: nat, j: nat)
    requires e < |px| && j < |px|
  {
    if up then px[j] > Cut(px[e], thr) else px[j] < Lift(px[e], thr)
  }

  // ---- one price at a time --------------------------------------------------

  lemma Times(f: real, x: real, y: real)
    requires f > 0.0
    ensures x <= y ==> f * x <= f * y
    ensures x < y ==> f * x < f * y
  {
    assert f * (y - x) == f * y - f * x;
  }

  lemma Factors(x: real, thr: real)
    requires 0.0 < thr < 1.0 && 0.0 < x
    ensures Cut(x, thr) < x < Lift(x, thr) && Cut(Lift(x, thr), thr) < x
  {
    assert x * thr > 0.0;
    assert (x * thr) * thr > 0.0;
    assert Cut(Lift(x, thr), thr) == x - (x * thr) * thr;
  }

  lemma Shrinks(x: real, y: real, thr: real)
    requires 0.0 < thr < 1.0
    ensures x <= y ==> Cut(x, thr) <= Cut(y, thr)
    ensures x < y ==> Cut(x, thr) < Cut(y, thr)
  {
    var d := y - x;
    assert Cut(y, thr) - Cut(x, thr) == d - d * thr;
    if d > 0.0 {
      Times(d, thr, 1.0);
    }
  }

  /** The newest price against an earlier one of its phase. */
  lemma SteadyPair(px: seq<real>, thr: real, up: bool, a: nat, e: nat, n: nat, j: nat)
    requires Sane(px, thr) && n < |px| && Extreme(px, up, a, e, n) && a <= j <= n
    requires Near(px, thr, up, e, n)
    ensures if up then px[n] > Cut(px[j], thr) else px[j] > Cut(px[n], thr)
  {
    hide Cut;
    hide Lift;
    Factors(px[n], thr);
    Factors(px[e], thr);
    if j < n {
      if up {
        Shrinks(px[j], px[e], thr);
      } else {
        Shrinks(px[n], Lift(px[e], thr), thr);
      }
    }
  }

  lemma SteadyGrows(px: seq<real>, thr: real, up: bool, a: nat, e: nat, n: nat)
    requires Sane(px, thr) && n < |px| && Extreme(px, up, a, e, n) && Steady(px, thr, up, a, n)
    requires Near(px, thr, up, e, n)
    ensures Steady(px, thr, up, a, n + 1)
  {
    hide Cut;
    hide Lift;
    forall j, k | a <= j <= k < n + 1
      ensures if up then px[k] > Cut(px[j], thr) else px[j] > Cut(px[k], thr)
    {
      if k == n {
        SteadyPair(px, thr, up, a, e, n, j);
      }
    }
  }

  predicate Beyond(up: bool, p: real, ext: real) {
    if up then p > ext else p < ext
  }

  lemma NearOrTurn(px: seq<real>, thr: real, s: Swing, n: nat)
    requires Sane(px, thr) && n < |px| && s.extAt < |px| && s.ext == px[s.extAt]
    ensures Near(px, thr, true, n, n) && Near(px, thr, false, n, n)
    ensures var t := Advance(s, n, px[n], thr);
            if Beyond(s.up, px[n], s.ext) then Near(px, thr, s.up, s.extAt, n) && t == s.(ext := px[n], extAt := n)
            else if Near(px, thr, s.up, s.extAt, n) then t == s
            else t == Swing(!s.up, px[n], n, s.turns + [Turn(s.extAt, !s.up)])
  {
    hide Cut;
    hide Lift;
    Factors(px[n], thr);
    Factors(s.ext, thr);
  }

  lemma MovedFarther(px: seq<real>, thr: real, up: bool, a: nat, e: nat, n: nat)
    requires a < |px| && e < |px| && n < |px| && Moved(px, thr, up, a, e) && Beyond(up, px[n], px[e])
    ensures Moved(px, thr, up, a, n)
  {
    hide Cut;
    hide Lift;
  }

  /** A new extreme, or a price that changes nothing: the phase goes on. */
  lemma GoesOn(px: seq<real>, thr: real, s: Swing, n: nat)
    requires Sane(px, thr) && 0 < n < |px| && Fits(px, thr, s, n)
    requires Advance(s, n, px[n], thr).turns == s.turns
    ensures Fits(px, thr, Advance(s, n, px[n], thr), n + 1)
  {
    hide Cut;
    hide Lift;
    var a := s.turns[|s.turns| - 1].at;
    NearOrTurn(px, thr, s, n);
    hide TurnsFit;
    hide Moved;
    hide Near;
    hide Advance;
    SteadyGrows(px, thr, s.up, a, s.extAt, n);
    hide Steady;
    if Beyond(s.up, px[n], s.ext) && |s.turns| > 1 {
      MovedFarther(px, thr, s.up, a, s.extAt, n);
    }
  }

  /** The phase that ends at the extreme is complete. */
  lemma CompletedAt(px: seq<real>, thr: real, s: Swing, n: nat)
    requires Sane(px, thr) && 0 < n <= |px| && Fits(px, thr, s, n)
    ensures TurnsFit(px, thr, s.turns + [Turn(s.extAt, !s.up)])
  {
    hide Cut;
    hide Lift;
    hide Moved;
    var t, m := s.turns + [Turn(s.extAt, !s.up)], |s.turns| - 1;
    SteadyEarlier(px, thr, s.up, s.turns[m].at, s.extAt + 1, n);
    hide Steady;
    forall k | 0 <= k && k + 1 < |t| ensures Completed(px, thr, t, k) {
      if k < m {
        assert Completed(px, thr, s.turns, k);
      }
    }
  }

  lemma SteadyEarlier(px: seq<real>, thr: real, up: bool, a: nat, m: nat, n: nat)
    requires m <= n <= |px| && Steady(px, thr, up, a, n)
    ensures Steady(px, thr, up, a, m)
  {
    hide Cut;
    hide Lift;
  }

  /** Everything since the extreme, seen as the beginning of the opposite phase. */
  lemma TurnsAround(px: seq<real>, thr: real, s: Swing, n: nat)
    requires Sane(px, thr) && 0 < n < |px| && Fits(px, thr, s, n)
    requires Moved(px, thr, !s.up, s.extAt, n)
    ensures Extreme(px, !s.up, s.extAt, n, n + 1) && Steady(px, thr, !s.up, s.extAt, n + 1)
  {
    hide Cut;
    hide Lift;
    hide TurnsFit;
    var e := s.extAt;
    Factors(px[e], thr);
    forall j | e <= j < n ensures if s.up then px[j] > px[n] else px[j] < px[n] {
      assert Near(px, thr, s.up, e, j);
    }
    forall j, k | e <= j <= k < n + 1
      ensures if s.up then px[j] > Cut(px[k], thr) else px[k] > Cut(px[j], thr)
    {
      Around(px, thr, s, n, j, k);
    }
  }

  lemma Around(px: seq<real>, thr: real, s: Swing, n: nat, j: nat, k: nat)
    requires Sane(px, thr) && 0 < n < |px| && Fits(px, thr, s, n) && s.extAt <= j <= k <= n
    requires Moved(px, thr, !s.up, s.extAt, n)
    ensures if s.up then px[j] > Cut(px[k], thr) else px[k] > Cut(px[j], thr)
  {
    hide Cut;
    hide Lift;
    hide TurnsFit;
    var e := s.extAt;
    Factors(px[e], thr);
    Factors(px[j], thr);
    Factors(px[k], thr);
    assert j < n ==> Near(px, thr, s.up, e, j);
    assert k < n ==> Near(px, thr, s.up, e, k);
    if s.up {
      Shrinks(px[k], px[e], thr);
      Shrinks(px[k], px[j], thr);
    } else {
      Shrinks(px[j], Lift(px[e], thr), thr);
      Shrinks(px[j], px[k], thr);
    }
  }

  lemma StepFits(px: seq<real>, thr: real, s: Swing, n: nat)
    requires Sane(px, thr) && 0 < n < |px| && Fits(px, thr, s, n)
    ensures Fits(px, thr, Advance(s, n, px[n], thr), n + 1)
  {
    hide Cut;
    hide Lift;
    NearOrTurn(px, thr, s, n);
    hide Completed;
    hide Steady;
    hide Near;
    if Advance(s, n, px[n], thr).turns == s.turns {
      GoesOn(px, thr, s, n);
    } else {
      assert Moved(px, thr, !s.up, s.extAt, n);
      CompletedAt(px, thr, s, n);
      hide Advance;
      TurnsAround(px, thr, s, n);
    }
  }

  /** After any number of prices. */
  lemma {:induction false} PassFits(px: seq<real>, thr: real, n: nat)
    requires Sane(px, thr) && 0 < n <= |px|
    ensures Fits(px, thr, SwingOf(px, thr, n), n)
  {
    if n == 1 {
      Factors(px[0], thr);
      assert SwingOf(px, thr, 0) == Swing(true, px[0], 0, [Turn(0, true)]);
      assert SwingOf(px, thr, 1) == Swing(true, px[0], 0, [Turn(0, true)]);
    } else {
      PassFits(px, thr, n - 1);
      StepFits(px, thr, SwingOf(px, thr, n - 1), n - 1);
    }
  }

  /** What a reader of the labels may rely on. */
  lemma {:induction false} TurnsAlternateAndGrow(px: seq<real>, thr: real, j: nat, k: nat)
    requires Sane(px, thr) && j < k < |SwingOf(px, thr, |px|).turns|
    ensures var t := SwingOf(px, thr, |px|).turns;
            t[j].at <= t[k].at && (j > 0 ==> t[j].at < t[k].at) && t[k].up == (k % 2 == 0)
    decreases k - j
  {
    PassFits(px, thr, |px|);
    hide SwingOf;
    assert Completed(px, thr, SwingOf(px, thr, |px|).turns, k - 1);
    if j == k - 1 {
    } else {
      TurnsAlternateAndGrow(px, thr, j, k - 1);
    }
  }

  // ---- falling phases -------------------------------------------------------

  /** The mirror image of the rule for rising phases: no rise of `thr` among the prices of [a, n). */
  ghost predicate NoRise(px: seq<real>, thr: real, a: nat, n: nat)
    requires n <= |px|
  {
    forall j, m :: a <= j <= m < n ==> px[m] < Lift(px[j], thr)
  }

  /** Price `c` is the first after `a` that has fallen from it by the threshold. */
  ghost predicate Confirms(px: seq<real>, thr: real, a: nat, c: nat) {
    a < c < |px| && px[c] <= Cut(px[a], thr) && forall i :: a < i < c ==> px[i] > Cut(px[a], thr)
  }

  /** No price from `c` on has risen by the threshold from an earlier one of the phase. */
  ghost predicate NoRiseFrom(px: seq<real>, thr: real, a: nat, c: nat, n: nat)
    requires n <= |px|
  {
    forall j, m :: a <= j <= m < n && c <= m ==> px[m] < Lift(px[j], thr)
  }

  ghost predicate FallHolds(px: seq<real>, thr: real, a: nat, n: nat)
    requires n <= |px|
  {
    exists c: nat :: Confirms(px, thr, a, c) && c < n && NoRiseFrom(px, thr, a, c, n)
  }

  /** Of every completed falling phase and of the open one. */
  ghost predicate FallsHold(px: seq<real>, thr: real, s: Swing, n: nat)
    requires n <= |px| && s.turns != [] && forall k :: 0 <= k < |s.turns| ==> s.turns[k].at < |px|
  {
    && (forall k :: 0 <= k && k + 1 < |s.turns| && !s.turns[k].up ==>
          FallHolds(px, thr, s.turns[k].at, s.turns[k + 1].at + 1))
    && (!s.up ==> FallHolds(px, thr, s.turns[|s.turns| - 1].at, n))
  }

  lemma Raises(x: real, y: real, thr: real)
    requires 0.0 < thr
    ensures x <= y ==> Lift(x, thr) <= Lift(y, thr)
  {
    Times(1.0 + thr, x, y);
    assert Lift(x, thr) == (1.0 + thr) * x && Lift(y, thr) == (1.0 + thr) * y;
  }

  /** The newest price of a falling phase that goes on. */
  lemma FallGoesOn(px: seq<real>, thr: real, a: nat, e: nat, n: nat)
    requires Sane(px, thr) && n < |px| && Extreme(px, false, a, e, n) && FallHolds(px, thr, a, n)
    requires Beyond(false, px[n], px[e]) || Near(px, thr, false, e, n)
    ensures FallHolds(px, thr, a, n + 1)
  {
    hide Cut;
    hide Lift;
    var c: nat :| Confirms(px, thr, a, c) && c < n && NoRiseFrom(px, thr, a, c, n);
    hide Confirms;
    forall j | a <= j <= n ensures px[n] < Lift(px[j], thr) {
      Factors(px[j], thr);
      if j < n {
        Raises(px[e], px[j], thr);
      }
    }
    assert NoRiseFrom(px, thr, a, c, n + 1);
  }

  /** A fall is confirmed: the first price that has fallen far enough is also the lowest. */
  lemma FallBegins(px: seq<real>, thr: real, s: Swing, n: nat)
    requires Sane(px, thr) && 0 < n < |px| && Fits(px, thr, s, n) && s.up && Moved(px, thr, false, s.extAt, n)
    ensures FallHolds(px, thr, s.extAt, n + 1)
  {
    hide Cut;
    hide Lift;
    hide TurnsFit;
    hide Steady;
    var e := s.extAt;
    Factors(px[e], thr);
    forall j | e <= j < n ensures px[j] > Cut(px[e], thr) {
      assert Near(px, thr, true, e, j);
    }
    assert Confirms(px, thr, e, n);
    forall j | e <= j <= n ensures px[n] < Lift(px[j], thr) {
      Factors(px[j], thr);
    }
    assert NoRiseFrom(px, thr, e, n, n + 1);
  }

  lemma FallEarlier(px: seq<real>, thr: real, a: nat, e: nat, n: nat)
    requires Sane(px, thr) && a < e < n <= |px| && FallHolds(px, thr, a, n) && Moved(px, thr, false, a, e)
    ensures FallHolds(px, thr, a, e + 1)
  {
    hide Cut;
    hide Lift;
    var c: nat :| Confirms(px, thr, a, c) && c < n && NoRiseFrom(px, thr, a, c, n);
    assert c <= e;
    assert NoRiseFrom(px, thr, a, c, e + 1);
  }

  lemma StepFalls(px: seq<real>, thr: real, s: Swing, n: nat)
    requires Sane(px, thr) && 0 < n < |px| && Fits(px, thr, s, n) && FallsHold(px, thr, s, n)
    requires Fits(px, thr, Advance(s, n, px[n], thr), n + 1)
    ensures FallsHold(px, thr, Advance(s, n, px[n], thr), n + 1)
  {
    hide Cut;
    hide Lift;
    NearOrTurn(px, thr, s, n);
    var t, a := Advance(s, n, px[n], thr), s.turns[|s.turns| - 1].at;
    hide Advance;
    hide FallHolds;
    hide Steady;
    hide Near;
    hide Completed;
    if t.turns == s.turns {
      if !s.up {
        FallGoesOn(px, thr, a, s.extAt, n);
      }
    } else if s.up {
      FallBegins(px, thr, s, n);
    } else {
      FallEarlier(px, thr, a, s.extAt, n);
    }
  }

  lemma {:induction false} PassFalls(px: seq<real>, thr: real, n: nat)
    requires Sane(px, thr) && 0 < n <= |px|
    ensures Fits(px, thr, SwingOf(px, thr, n), n) && FallsHold(px, thr, SwingOf(px, thr, n), n)
  {
    PassFits(px, thr, n);
    if n == 1 {
      assert SwingOf(px, thr, 0) == Swing(true, px[0], 0, [Turn(0, true)]);
      Factors(px[0], thr);
      assert SwingOf(px, thr, 1) == Swing(true, px[0], 0, [Turn(0, true)]);
    } else {
      PassFalls(px, thr, n - 1);
      StepFalls(px, thr, SwingOf(px, thr, n - 1), n - 1);
      hide Fits;
      hide FallsHold;
      hide Advance;
    }
  }

  /** A completed falling phase obeys the mirror image of the rule exactly if the prices before its
      confirmation do: from there on nothing can break it. */
  lemma MirrorRule(px: seq<real>, thr: real, k: nat) returns (c: nat)
    requires Sane(px, thr) && k + 1 < |SwingOf(px, thr, |px|).turns| && !SwingOf(px, thr, |px|).turns[k].up
    ensures var t := SwingOf(px, thr, |px|).turns;
            && t[k].at < c <= t[k + 1].at < |px| && Confirms(px, thr, t[k].at, c)
            && (NoRise(px, thr, t[k].at, t[k + 1].at + 1) <==> NoRise(px, thr, t[k].at, c))
  {
    PassFalls(px, thr, |px|);
    var t := SwingOf(px, thr, |px|).turns;
    hide SwingOf;
    hide Completed;
    hide FallHolds;
    assert FallHolds(px, thr, t[k].at, t[k + 1].at + 1);
    c := MirrorOf(px, thr, t[k].at, t[k + 1].at);
    hide NoRise;
    hide Confirms;
  }

  lemma MirrorOf(px: seq<real>, thr: real, a: nat, b: nat) returns (c: nat)
    requires b < |px| && FallHolds(px, thr, a, b + 1)
    ensures a < c <= b && Confirms(px, thr, a, c) && (NoRise(px, thr, a, b + 1) <==> NoRise(px, thr, a, c))
  {
    hide Cut;
    hide Lift;
    c :| Confirms(px, thr, a, c) && c < b + 1 && NoRiseFrom(px, thr, a, c, b + 1);
  }

  /** Within a completed falling phase the price can still rise by the threshold before the fall is
      confirmed, so the rule that rising phases obey has no mirror image. */
  lemma NoMirrorRule()
    ensures var px, thr := [100.0, 81.0, 99.0, 80.0, 96.0], 0.2;
            var t := SwingOf(px, thr, |px|).turns;
            Sane(px, thr) && t == [Turn(0, true), Turn(0, false), Turn(3, true)] && px[2] >= Lift(px[1], thr)
  {
    var px, thr := [100.0, 81.0, 99.0, 80.0, 96.0], 0.2;
    var s0 := Swing(true, 100.0, 0, [Turn(0, true)]);
    assert SwingOf(px, thr, 0) == s0;
    assert SwingOf(px, thr, 1) == s0;
    assert SwingOf(px, thr, 2) == s0;
    assert SwingOf(px, thr, 3) == s0;
    var s4 := Swing(false, 80.0, 3, [Turn(0, true), Turn(0, false)]);
    assert SwingOf(px, thr, 4) == s4;
    assert SwingOf(px, thr, 5).turns == [Turn(0, true), Turn(0, false), Turn(3, true)];
  }

  // ---- the labels -----------------------------------------------------------

  function EndOf(turns: seq<Turn>, k: nat, n: nat): nat
    requires k < |turns|
  {
    if k + 1 < |turns| then turns[k + 1].at else n
  }

  predicate Ordered(turns: seq<Turn>, n: nat) {
    && turns != [] && turns[0].at == 0
    && forall k :: 0 <= k < |turns| ==> turns[k].at <= EndOf(turns, k, n) <= n
  }

  /** The first `k` phases are painted: each from its turn to the next. */
  ghost predicate Painted(turns: seq<Turn>, lab: seq<bool>, k: nat)
    requires k <= |turns| && Ordered(turns, |lab|)
  {
    forall m :: 0 <= m < k ==> Plain(lab, turns[m].at, EndOf(turns, m, |lab|), turns[m].up)
  }

  ghost predicate Plain(lab: seq<bool>, from: nat, end: nat, up: bool)
    requires end <= |lab|
  {
    forall i :: from <= i < end ==> lab[i] == up
  }

  /** Painting from some day on leaves the days before it alone. */
  lemma PaintedStays(turns: seq<Turn>, lab: seq<bool>, after: seq<bool>, k: nat)
    requires k < |turns| && |lab| == |after| && Ordered(turns, |lab|) && Painted(turns, lab, k)
    requires lab[..turns[k].at] == after[..turns[k].at]
    ensures Painted(turns, after, k)
  {
    forall m | 0 <= m < k ensures Plain(after, turns[m].at, EndOf(turns, m, |lab|), turns[m].up) {
      EndsGrow(turns, m, k, |lab|);
      assert Plain(lab, turns[m].at, EndOf(turns, m, |lab|), turns[m].up);
      assert forall i :: 0 <= i < turns[k].at ==>
               lab[i] == lab[..turns[k].at][i] && after[i] == after[..turns[k].at][i];
    }
  }

  lemma {:induction false} EndsGrow(turns: seq<Turn>, m: nat, k: nat, n: nat)
    requires Ordered(turns, n) && m < k < |turns|
    ensures EndOf(turns, m, n) <= turns[k].at
    decreases k
  {
    if m == k - 1 {
    } else {
      EndsGrow(turns, m, k - 1, n);
      assert turns[k - 1].at <= EndOf(turns, k - 1, n);
    }
  }

  /** Every day lies in a phase. */
  lemma {:induction false} EveryDayPainted(turns: seq<Turn>, n: nat, i: nat, k: nat)
    requires Ordered(turns, n) && k < |turns| && i < EndOf(turns, k, n)
    ensures exists m :: 0 <= m <= k && turns[m].at <= i < EndOf(turns, m, n)
  {
    if turns[k].at <= i {
    } else {
      EveryDayPainted(turns, n, i, k - 1);
    }
  }

  method Fill(lab: array<bool>, from: nat, end: nat, up: bool)
    requires from <= end <= lab.Length
    modifies lab
    ensures Plain(lab[..], from, end, up) && lab[..from] == old(lab[..from])
  {
    var i := from;
    while i < end
      invariant from <= i <= end && lab[..from] == old(lab[..from])
      invariant forall x :: from <= x < i ==> lab[x] == up
    {
      lab[i] := up;
      i := i + 1;
    }
  }

  method Paint(turns: seq<Turn>, n: nat) returns (lab: array<bool>)
    requires Ordered(turns, n)
    ensures lab.Length == n && Painted(turns, lab[..], |turns|)
  {
    lab := new bool[n];
    var k := 0;
    while k < |turns|
      invariant k <= |turns| && Painted(turns, lab[..], k)
    {
      ghost var was := lab[..];
      Fill(lab, turns[k].at, EndOf(turns, k, n), turns[k].up);
      assert was[..turns[k].at] == lab[..][..turns[k].at];
      PaintedStays(turns, was, lab[..], k);
      k := k + 1;
    }
  }

  lemma OrderedLater(turns: seq<Turn>, n: nat, m: nat)
    requires Ordered(turns, n) && n <= m
    ensures Ordered(turns, m) && Ordered(turns + [Turn(n, true)], m) && Ordered(turns + [Turn(n, false)], m)
  {
    forall k | 0 <= k < |turns| ensures turns[k].at <= EndOf(turns, k, m) <= m {
      assert turns[k].at <= EndOf(turns, k, n) <= n;
    }
    forall k, up | 0 <= k < |turns| + 1
      ensures var t := turns + [Turn(n, up)]; t[k].at <= EndOf(t, k, m) <= m
    {
      if k < |turns| {
        assert turns[k].at <= EndOf(turns, k, n) <= n;
      }
    }
    assert (turns + [Turn(n, true)])[0] == turns[0] == (turns + [Turn(n, false)])[0];
  }

  lemma OrderedStep(s: Swing, n: nat, p: real, thr: real)
    requires Ordered(s.turns, s.extAt) && s.extAt <= n
    ensures var t := Advance(s, n, p, thr); Ordered(t.turns, t.extAt) && t.extAt <= n
  {
    hide Cut;
    hide Lift;
    OrderedLater(s.turns, s.extAt, n);
    hide Ordered;
  }

  /** Turns are in order for any prices and any threshold. */
  lemma {:induction false} TurnsOrdered(px: seq<real>, thr: real, n: nat)
    requires px != [] && n <= |px|
    ensures var s := SwingOf(px, thr, n); Ordered(s.turns, s.extAt) && (s.extAt < n || s.extAt == 0)
  {
    hide Advance;
    if n == 0 {
      assert Ordered(SwingOf(px, thr, 0).turns, 0);
    } else {
      hide Ordered;
      TurnsOrdered(px, thr, n - 1);
      OrderedStep(SwingOf(px, thr, n - 1), n - 1, px[n - 1], thr);
    }
  }

  /** The pass over the closing prices. */
  method Pass(px: seq<real>, thr: real) returns (turns: seq<Turn>)
    requires px != []
    ensures turns == SwingOf(px, thr, |px|).turns
  {
    hide Cut;
    hide Lift;
    var up, ext, extAt := true, px[0], 0;
    turns := [Turn(0, true)];
    var i := 0;
    while i < |px|
      invariant i <= |px| && Swing(up, ext, extAt, turns) == SwingOf(px, thr, i)
    {
      var p := px[i];
      if up {
        if p > ext {
          ext, extAt := p, i;
        } else if p <= Cut(ext, thr) {
          turns := turns + [Turn(extAt, false)];
          up, ext, extAt := false, p, i;
        }
      } else {
        if p < ext {
          ext, extAt := p, i;
        } else if p >= Lift(ext, thr) {
          turns := turns + [Turn(extAt, true)];
          up, ext, extAt := true, p, i;
        }
      }
      i := i + 1;
    }
  }

  /** Turns and daily labels; `true` is bull. */
  method Label(px: seq<real>, thr: real) returns (turns: seq<Turn>, lab: array<bool>)
    requires px != []
    ensures turns == SwingOf(px, thr, |px|).turns && (Sane(px, thr) ==> TurnsFit(px, thr, turns))
    ensures lab.Length == |px| && Ordered(turns, |px|) && Painted(turns, lab[..], |turns|)
  {
    hide SwingOf;
    turns := Pass(px, thr);
    if Sane(px, thr) {
      PassFits(px, thr, |px|);
    }
    TurnsOrdered(px, thr, |px|);
    OrderedLater(turns, SwingOf(px, thr, |px|).extAt, |px|);
    lab := Paint(turns, |px|);
  }
}
