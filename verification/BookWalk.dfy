/** The simulated market fill: taking the levels in order pays the least that the levels allow. */
module BookWalk {
  import opened Ladders
  import opened Positions
  import opened Paper

  /** Prices worsen from level to level, for a buyer. */
  ghost predicate Worsens(levels: seq<Level>) {
    levels != [] ==>
      && levels[0].qty >= 0.0 && (|levels| > 1 ==> levels[0].price <= levels[1].price)
      && Worsens(levels[1..])
  }

  /** A way to take some quantity from the levels: so much from each, `extra` at the last price. */
  ghost predicate Allowed(levels: seq<Level>, takes: seq<real>, extra: real) {
    |takes| == |levels| && extra >= 0.0 && forall i :: 0 <= i < |takes| ==> 0.0 <= takes[i] <= levels[i].qty
  }

  ghost function Total(takes: seq<real>, extra: real): real {
    if takes == [] then extra else takes[0] + Total(takes[1..], extra)
  }

  ghost function CostOf(levels: seq<Level>, takes: seq<real>, extra: real): real
    requires |takes| == |levels| > 0
  {
    Notional(takes[0], levels[0].price)
    + if |levels| == 1 then Notional(extra, levels[0].price) else CostOf(levels[1..], takes[1..], extra)
  }

  lemma Sums(a: real, b: real, p: real)
    ensures Notional(a + b, p) == Notional(a, p) + Notional(b, p)
    ensures Notional(a - b, p) == Notional(a, p) - Notional(b, p)
    ensures Notional(0.0, p) == 0.0
  {
  }

  lemma Dearer(a: real, p: real, q: real)
    requires a >= 0.0 && p <= q
    ensures Notional(a, p) <= Notional(a, q)
  {
    assert a * (q - p) >= 0.0;
    assert a * (q - p) == a * q - a * p;
  }

  lemma WalkStep(levels: seq<Level>, left: real)
    requires levels != [] && left >= 0.0
    ensures var p, take := levels[0].price, Min(left, levels[0].qty);
            WalkCost(levels, left)
            == if left <= levels[0].qty || |levels| == 1 then Notional(left, p)
               else Notional(take, p) + WalkCost(levels[1..], left - take)
  {
    var p, take := levels[0].price, Min(left, levels[0].qty);
    Sums(take, left - take, p);
  }

  /** More costs at least the first price for the difference. */
  lemma {:induction false} WalkMore(levels: seq<Level>, less: real, more: real)
    requires levels != [] && Worsens(levels) && 0.0 <= less <= more
    ensures WalkCost(levels, more) - WalkCost(levels, less) >= Notional(more - less, levels[0].price)
    decreases |levels|
  {
    hide WalkCost;
    hide Notional;
    var p, q := levels[0].price, levels[0].qty;
    WalkStep(levels, less);
    WalkStep(levels, more);
    Sums(more, less, p);
    if more > q && |levels| > 1 {
      var rest, from := levels[1..], if less > q then less - q else 0.0;
      WalkMore(rest, from, more - q);
      Dearer(more - q - from, p, rest[0].price);
      NothingFree(rest);
      Sums(more - q, from, p);
      Sums(less, q, p);
      Sums(more, q, p);
    }
  }

  lemma NothingFree(levels: seq<Level>)
    requires levels != [] && levels[0].qty >= 0.0
    ensures WalkCost(levels, 0.0) == 0.0
  {
  }

  /** No allowed way of taking the quantity is cheaper than the walk. */
  lemma {:induction false} WalkIsCheapest(levels: seq<Level>, takes: seq<real>, extra: real)
    requires levels != [] && Worsens(levels) && Allowed(levels, takes, extra)
    ensures Total(takes, extra) >= 0.0
    ensures WalkCost(levels, Total(takes, extra)) <= CostOf(levels, takes, extra)
    decreases |levels|
  {
    hide WalkCost;
    hide Notional;
    var p, q, left := levels[0].price, levels[0].qty, Total(takes, extra);
    if |levels| == 1 {
      assert takes[1..] == [] && Total(takes[1..], extra) == extra;
      WalkStep(levels, left);
      Sums(takes[0], extra, p);
    } else {
      var rest, a, others := levels[1..], takes[0], Total(takes[1..], extra);
      WalkIsCheapest(rest, takes[1..], extra);
      WalkStep(levels, left);
      NothingFree(rest);
      var from := if left <= q then 0.0 else left - q;
      WalkMore(rest, from, others);
      Dearer(others - from, p, rest[0].price);
      Sums(others, from, p);
      Sums(left, a, p);
      Sums(left, q, p);
      if left > q {
        assert others - from == q - a;
        Sums(q, a, p);
      }
    }
  }

  /** The walk itself is such a way. */
  lemma {:induction false} WalkIsAllowed(levels: seq<Level>, left: real) returns (takes: seq<real>, extra: real)
    requires levels != [] && Worsens(levels) && left >= 0.0
    ensures Allowed(levels, takes, extra) && Total(takes, extra) == left
    ensures CostOf(levels, takes, extra) == WalkCost(levels, left)
    decreases |levels|
  {
    hide WalkCost;
    hide Notional;
    var p, take := levels[0].price, Min(left, levels[0].qty);
    WalkStep(levels, left);
    if |levels| == 1 {
      takes, extra := [take], left - take;
      assert takes[1..] == [];
      Sums(take, extra, p);
    } else {
      var more, over := WalkIsAllowed(levels[1..], left - take);
      NothingFree(levels[1..]);
      takes, extra := [take] + more, over;
      assert takes[1..] == more;
    }
  }

  // ---- the seller's side ----------------------------------------------------

  ghost function Negated(levels: seq<Level>): (r: seq<Level>)
    ensures |r| == |levels| && forall i :: 0 <= i < |r| ==> r[i] == Level(-levels[i].price, levels[i].qty)
  {
    if levels == [] then [] else [Level(-levels[0].price, levels[0].qty)] + Negated(levels[1..])
  }

  lemma NegatedTail(levels: seq<Level>)
    requires levels != []
    ensures Negated(levels)[1..] == Negated(levels[1..])
  {
  }

  lemma NegatedPrice(a: real, p: real)
    ensures Notional(a, -p) == -Notional(a, p)
  {
  }

  lemma {:induction false} NegatedWalk(levels: seq<Level>, left: real)
    requires levels != [] && left >= 0.0
    ensures WalkCost(Negated(levels), left) == -WalkCost(levels, left)
    decreases |levels|
  {
    hide WalkCost;
    hide Notional;
    var take := Min(left, levels[0].qty);
    WalkStep(levels, left);
    WalkStep(Negated(levels), left);
    NegatedTail(levels);
    NegatedPrice(left, levels[0].price);
    NegatedPrice(take, levels[0].price);
    if left > levels[0].qty && |levels| > 1 {
      NegatedWalk(levels[1..], left - take);
    }
  }

  lemma {:induction false} NegatedCost(levels: seq<Level>, takes: seq<real>, extra: real)
    requires |takes| == |levels| > 0
    ensures CostOf(Negated(levels), takes, extra) == -CostOf(levels, takes, extra)
    decreases |levels|
  {
    hide Notional;
    NegatedTail(levels);
    NegatedPrice(takes[0], levels[0].price);
    NegatedPrice(extra, levels[0].price);
    if |levels| <= 1 {
    } else {
      NegatedCost(levels[1..], takes[1..], extra);
    }
  }

  /** For a seller, with bids worsening downwards, no allowed way earns more than the walk. */
  lemma WalkEarnsMost(levels: seq<Level>, takes: seq<real>, extra: real)
    requires levels != [] && Worsens(Negated(levels)) && Allowed(levels, takes, extra)
    ensures Total(takes, extra) >= 0.0
    ensures WalkCost(levels, Total(takes, extra)) >= CostOf(levels, takes, extra)
  {
    WalkIsCheapest(Negated(levels), takes, extra);
    NegatedWalk(levels, Total(takes, extra));
    NegatedCost(levels, takes, extra);
  }
}
