/** Order sizes: the least tradable multiple of the step, and sizes of about equal notional. */
module Sizing {
  import opened Basics

  /** What the exchange prescribes for one symbol. */
  datatype Filters = Filters(step: Positive, minQty: real, minNotional: real)

  /** The allowance for representation error in the first guess. */
  const EPS := 0.000000001

  function Ceil(x: real): (n: int)
    ensures x <= n as real < x + 1.0
  {
    -(-x).Floor
  }

  function Required(flt: Filters, mult: real): real {
    flt.minNotional * mult
  }

  /** Notional of `n` steps. */
  function Notional(n: int, flt: Filters, price: real): real {
    n as real * flt.step * price
  }

  /** `n` steps may be ordered: at least one, not below the minimum size, notional high enough. */
  predicate Admissible(n: int, flt: Filters, price: real, least: real) {
    n >= 1 && n as real >= flt.minQty / flt.step - EPS && Notional(n, flt, price) >= least
  }

  ghost predicate LeastAdmissible(n: int, flt: Filters, price: real, least: real) {
    Admissible(n, flt, price, least) && forall m :: Admissible(m, flt, price, least) ==> n <= m
  }

  /** In the exchange's own terms: a whole number of steps, not below the minimum size up to the allowance, and
      worth the minimum notional times the factor. */
  predicate Tradable(n: int, flt: Filters, price: real, mult: real) {
    n >= 1 && n as real * flt.step >= flt.minQty - EPS * flt.step
    && n as real * flt.step * price >= flt.minNotional * mult
  }

  /** The least order is the least tradable one. */
  lemma LeastIs(n: int, flt: Filters, price: real, mult: real)
    ensures LeastAdmissible(n, flt, price, Required(flt, mult))
       <==> Tradable(n, flt, price, mult) && forall m :: Tradable(m, flt, price, mult) ==> n <= m
  {
    forall m: int ensures Admissible(m, flt, price, Required(flt, mult)) <==> Tradable(m, flt, price, mult) {
      Times(flt.minQty / flt.step - EPS, m as real, flt.step);
      assert (flt.minQty / flt.step - EPS) * flt.step == flt.minQty / flt.step * flt.step - EPS * flt.step;
      assert flt.minQty / flt.step * flt.step == flt.minQty;
    }
    hide Admissible;
    hide Tradable;
  }

  lemma Times(x: real, y: real, f: real)
    requires f > 0.0
    ensures x * f <= y * f <==> x <= y
  {
    assert (y - x) * f == y * f - x * f;
    if x > y {
      assert (x - y) * f > 0.0;
    }
  }

  /** Dividing the required notional by price and step gives the number of steps it takes. */
  lemma StepsNeeded(n: int, flt: Filters, price: real, least: real)
    requires price > 0.0
    ensures n as real >= least / price / flt.step <==> Notional(n, flt, price) >= least
  {
    var s, need := flt.step, least / price;
    assert need / s * s == need && need * price == least;
    Times(need / s, n as real, s);
    Times(need, n as real * s, price);
  }

  lemma NotionalGrows(n: int, m: int, flt: Filters, price: real)
    requires price > 0.0
    ensures n <= m <==> Notional(n, flt, price) <= Notional(m, flt, price)
  {
    Times(n as real, m as real, flt.step);
    Times(n as real * flt.step, m as real * flt.step, price);
  }

  /** The first guess never overshoots: what it skips cannot be ordered. */
  lemma GuessNotAbove(n: int, m: int, flt: Filters, price: real, least: real)
    requires price > 0.0 && Admissible(m, flt, price, least)
    requires n == MaxInt(MaxInt(Ceil(least / price / flt.step - EPS), Ceil(flt.minQty / flt.step - EPS)), 1)
    ensures n <= m
  {
    StepsNeeded(m, flt, price, least);
    hide Notional;
  }

  /** How many steps the loop can need at most. */
  function Enough(flt: Filters, price: real, least: real): int
    requires price > 0.0
  {
    Ceil(least / price / flt.step)
  }

  /** The least order that the filters admit, in steps; refused without a price. */
  method OrderUnits(price: real, flt: Filters, mult: real) returns (r: Option<int>)
    ensures r.None? <==> price <= 0.0
    ensures r.Some? ==> LeastAdmissible(r.value, flt, price, Required(flt, mult))
  {
    if price <= 0.0 {
      return None;
    }
    var least := Required(flt, mult);
    var need := least / price;
    var n := MaxInt(MaxInt(Ceil(need / flt.step - EPS), Ceil(flt.minQty / flt.step - EPS)), 1);
    ghost var guess := n;
    forall m | Admissible(m, flt, price, least) ensures n <= m {
      GuessNotAbove(n, m, flt, price, least);
    }
    hide Notional;
    while Notional(n, flt, price) < least
      invariant n >= guess && forall m :: Admissible(m, flt, price, least) ==> n <= m
      decreases Enough(flt, price, least) - n
    {
      StepsNeeded(n, flt, price, least);
      n := n + 1;
    }
    return Some(n);
  }

  // ---- equal notional -------------------------------------------------------

  /** Steps whose notional is nearest to the target, ties to even. */
  function Nearest(target: real, flt: Filters, price: real): int
    requires price > 0.0
  {
    RoundHalfEven(target / price / flt.step)
  }

  /** A product that proofs can treat as a whole. */
  function Mul(x: real, y: real): real {
    x * y
  }

  lemma Spread(a: real, b: real, f: real, g: real)
    ensures Mul(a - b, Mul(f, g)) == Mul(Mul(a, f), g) - Mul(Mul(b, f), g)
  {
    assert (a - b) * (f * g) == a * (f * g) - b * (f * g);
    assert a * (f * g) == a * f * g && b * (f * g) == b * f * g;
  }

  lemma Divided(x: real, a: real, b: real)
    requires a > 0.0 && b > 0.0
    ensures Mul(Mul(x / a / b, b), a) == x
  {
    assert x / a / b * b == x / a;
    assert x / a * a == x;
  }

  lemma Scale(d: real, f: real)
    requires f > 0.0 && -0.5 <= d <= 0.5
    ensures -0.5 * f <= Mul(d, f) <= 0.5 * f
  {
    Times(-0.5, d, f);
    Times(d, 0.5, f);
  }

  lemma InProducts(n: int, flt: Filters, price: real)
    requires price > 0.0
    ensures Notional(n, flt, price) == Mul(Mul(n as real, flt.step), price)
    ensures Notional(1, flt, price) == Mul(flt.step, price) > 0.0
  {
  }

  /** Within half a step's notional of the target. */
  lemma NearestIsNear(target: real, flt: Filters, price: real)
    requires price > 0.0
    ensures var n := Nearest(target, flt, price);
            -0.5 * Notional(1, flt, price) <= Notional(n, flt, price) - target <= 0.5 * Notional(1, flt, price)
  {
    var n, x := Nearest(target, flt, price), target / price / flt.step;
    Divided(target, price, flt.step);
    InProducts(n, flt, price);
    hide Mul;
    hide Notional;
    Spread(n as real, x, flt.step, price);
    Scale(n as real - x, Mul(flt.step, price));
  }

  /** Rounding does not fall below a whole number that the exact value reaches. */
  lemma RoundAtLeast(x: real, m: int)
    requires m as real <= x
    ensures m <= RoundHalfEven(x)
  {
  }

  /** A symbol's own minimum never exceeds the target, so neither does it exceed the nearest size. */
  lemma OwnMinimumReached(target: real, own: int, flt: Filters, price: real)
    requires price > 0.0 && Notional(own, flt, price) <= target
    ensures own <= Nearest(target, flt, price)
  {
    StepsNeeded(own, flt, price, target);
    RoundAtLeast(target / price / flt.step, own);
  }

  /** `own` holds the least order of some symbols, `target` the largest notional among them. */
  ghost predicate TargetOf(prices: map<string, real>, filters: map<string, Filters>, mult: real,
                           own: map<string, int>, target: real)
    requires prices.Keys <= filters.Keys
  {
    && own.Keys <= prices.Keys
    && (forall s :: s in own ==> OwnFits(prices[s], filters[s], mult, own[s], target))
    && (own != map[] ==> exists s :: s in own && Notional(own[s], filters[s], prices[s]) == target)
  }

  ghost predicate OwnFits(price: real, flt: Filters, mult: real, n: int, target: real) {
    price > 0.0 && LeastAdmissible(n, flt, price, Required(flt, mult)) && Notional(n, flt, price) <= target
  }

  /** The same for all symbols. */
  ghost predicate CommonTarget(prices: map<string, real>, filters: map<string, Filters>, mult: real,
                               own: map<string, int>, target: real) {
    prices.Keys <= filters.Keys && own.Keys == prices.Keys && TargetOf(prices, filters, mult, own, target)
  }

  lemma TargetGrows(prices: map<string, real>, filters: map<string, Filters>, mult: real, own: map<string, int>,
                    target: real,
                    s: string, n: int)
    requires prices.Keys <= filters.Keys && TargetOf(prices, filters, mult, own, target) && s in prices && s !in own
    requires prices[s] > 0.0 && LeastAdmissible(n, filters[s], prices[s], Required(filters[s], mult))
    ensures var value := Notional(n, filters[s], prices[s]);
            TargetOf(prices, filters, mult, own[s := n], if own == map[] || value > target then value else target)
  {
    hide Notional;
    hide Required;
    hide LeastAdmissible;
    var value := Notional(n, filters[s], prices[s]);
    var most := if own == map[] || value > target then value else target;
    var more := own[s := n];
    forall x | x in more ensures OwnFits(prices[x], filters[x], mult, more[x], most) {
      if x != s {
        assert OwnFits(prices[x], filters[x], mult, own[x], target);
      }
    }
    if most == value {
      assert s in more && Notional(more[s], filters[s], prices[s]) == most;
    } else {
      var x :| x in own && Notional(own[x], filters[x], prices[x]) == target;
      assert x in more && Notional(more[x], filters[x], prices[x]) == most;
    }
  }

  /** Each symbol's least order and the common target; refused if some price is missing. */
  method Target(prices: map<string, real>, filters: map<string, Filters>, mult: real)
      returns (own: map<string, int>, target: real, ok: bool)
    requires prices.Keys <= filters.Keys
    ensures ok <==> forall s :: s in prices ==> prices[s] > 0.0
    ensures ok ==> CommonTarget(prices, filters, mult, own, target)
  {
    hide Notional;
    hide Required;
    hide LeastAdmissible;
    own, target, ok := map[], 0.0, true;
    assert TargetOf(prices, filters, mult, own, target);
    hide TargetOf;
    var left := prices.Keys;
    while left != {}
      invariant left <= prices.Keys && own.Keys == prices.Keys - left
      invariant forall s :: s in own ==> prices[s] > 0.0
      invariant TargetOf(prices, filters, mult, own, target)
      decreases |left|
    {
      var s :| s in left;
      var n := OrderUnits(prices[s], filters[s], mult);
      if n.None? {
        ok := false;
        return;
      }
      var value := Notional(n.value, filters[s], prices[s]);
      TargetGrows(prices, filters, mult, own, target, s, n.value);
      if own == map[] || value > target {
        target := value;
      }
      own := own[s := n.value];
      left := left - {s};
    }
  }

  /** The size for one symbol, in steps. */
  method EqualNotionalUnits(symbol: string, prices: map<string, real>, filters: map<string, Filters>, mult: real)
      returns (r: Option<int>, ghost own: map<string, int>, ghost target: real)
    requires symbol in prices && prices.Keys <= filters.Keys
    ensures r.Some? <==> forall s :: s in prices ==> prices[s] > 0.0
    ensures r.Some? ==> CommonTarget(prices, filters, mult, own, target)
                        && r.value == Nearest(target, filters[symbol], prices[symbol]) && own[symbol] <= r.value
  {
    var all, goal, ok := Target(prices, filters, mult);
    own, target := all, goal;
    if !ok {
      return None, own, target;
    }
    hide Notional;
    hide LeastAdmissible;
    var flt, px := filters[symbol], prices[symbol];
    assert OwnFits(px, flt, mult, all[symbol], goal);
    OwnMinimumReached(goal, all[symbol], flt, px);
    var q := Nearest(goal, flt, px);
    return Some(MaxInt(q, all[symbol])), own, target;
  }

  /** All symbols end within half a step's notional of one common target and never below their own minimum. */
  lemma SizesAreEqual(prices: map<string, real>, filters: map<string, Filters>, mult: real, own: map<string, int>,
                      target: real, a: string)
    requires CommonTarget(prices, filters, mult, own, target) && a in prices
    ensures var n := Nearest(target, filters[a], prices[a]);
            && own[a] <= n && Admissible(n, filters[a], prices[a], Required(filters[a], mult))
            && Abs(Notional(n, filters[a], prices[a]) - target) <= 0.5 * Notional(1, filters[a], prices[a])
  {
    assert OwnFits(prices[a], filters[a], mult, own[a], target);
    NearestIsNear(target, filters[a], prices[a]);
    OwnMinimumReached(target, own[a], filters[a], prices[a]);
    NotionalGrows(own[a], Nearest(target, filters[a], prices[a]), filters[a], prices[a]);
    hide Nearest;
    hide Notional;
  }
}
