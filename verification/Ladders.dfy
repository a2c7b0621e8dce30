/** One side of an order book: quantities per price and the best few of them. */
module Ladders {
  /** Quantity per price on one side of the book. */
  type Ladder = map<real, real>

  datatype Level = Level(price: real, qty: real)

  function QtyAt(side: Ladder, price: real): real {
    if price in side then side[price] else 0.0
  }

  /** Quantities are absolute; zero removes the price. */
  function SetLevel(side: Ladder, price: real, qty: real): Ladder {
    if qty == 0.0 then side - {price} else side[price := qty]
  }

  function Prices(levels: seq<Level>): set<real> {
    set l | l in levels :: l.price
  }

  predicate Better(p: real, o: real, highest: bool) {
    if highest then p > o else p < o
  }

  ghost predicate IsBest(side: Ladder, p: real, highest: bool) {
    p in side && forall o :: o in side && o != p ==> Better(p, o, highest)
  }

  lemma {:induction false} BestExists(side: Ladder, highest: bool)
    requires side != map[]
    ensures exists p :: IsBest(side, p, highest)
    decreases |side|
  {
    assert side.Items != {};
    var l :| l in side.Items;
    var p := l.0;
    var rest := side - {p};
    if rest == map[] {
      assert forall o :: o in side && o != p ==> o in rest;
      assert IsBest(side, p, highest);
    } else {
      assert rest.Keys == side.Keys - {p};
      BestExists(rest, highest);
      var q :| IsBest(rest, q, highest);
      assert forall o :: o in side && o != p ==> o in rest;
      assert IsBest(side, if Better(p, q, highest) then p else q, highest);
    }
  }

  /** The `n` best levels, best first. */
  ghost function TopList(side: Ladder, n: nat, highest: bool): seq<Level> {
    if n == 0 || side == map[] then []
    else
      BestExists(side, highest);
      var p :| IsBest(side, p, highest);
      [Level(p, side[p])] + TopList(side - {p}, n - 1, highest)
  }

  /** In strict order, all from the book, and nothing better is left out. */
  ghost predicate IsTop(side: Ladder, n: nat, highest: bool, r: seq<Level>) {
    && |r| <= n
    && (forall l :: l in r ==> l.price in side && l.qty == side[l.price])
    && (forall i, j :: 0 <= i < j < |r| ==> Better(r[i].price, r[j].price, highest))
    && (forall p :: p in side ==> p in Prices(r) || (|r| == n && forall l :: l in r ==> Better(l.price, p, highest)))
  }

  lemma TopOpens(side: Ladder, n: nat, highest: bool, p: real, rest: seq<Level>)
    requires n > 0 && IsBest(side, p, highest) && IsTop(side - {p}, n - 1, highest, rest)
    ensures IsTop(side, n, highest, [Level(p, side[p])] + rest)
  {
    var r := [Level(p, side[p])] + rest;
    assert forall l :: l in r <==> l == r[0] || l in rest;
    forall o | o in side ensures o in Prices(r) || (|r| == n && forall l :: l in r ==> Better(l.price, o, highest)) {
      if o == p {
        assert r[0] in r;
      } else {
        assert o in side - {p};
        if o in Prices(rest) {
          var l :| l in rest && l.price == o;
          assert l in r;
        }
      }
    }
    forall i, j | 0 <= i < j < |r| ensures Better(r[i].price, r[j].price, highest) {
      assert r[j] == rest[j - 1] && rest[j - 1] in rest;
      assert i > 0 ==> r[i] == rest[i - 1];
    }
  }

  lemma {:induction false} TopListIsTop(side: Ladder, n: nat, highest: bool)
    ensures IsTop(side, n, highest, TopList(side, n, highest))
  {
    if n > 0 && side != map[] {
      hide IsTop;
      BestExists(side, highest);
      var p :| IsBest(side, p, highest)
        && TopList(side, n, highest) == [Level(p, side[p])] + TopList(side - {p}, n - 1, highest);
      TopListIsTop(side - {p}, n - 1, highest);
      TopOpens(side, n, highest, p, TopList(side - {p}, n - 1, highest));
    }
  }

  /** One of these levels has this price. */
  ghost predicate Lists(r: seq<Level>, p: real) {
    exists i :: 0 <= i < |r| && r[i].price == p
  }

  /** At most `n` levels with their quantities in the book; all of the book if there are fewer. */
  ghost predicate TakenFrom(side: Ladder, n: nat, r: seq<Level>) {
    && |r| <= n && (forall i :: 0 <= i < |r| ==> r[i].price in side && r[i].qty == side[r[i].price])
    && (|r| < n ==> forall p :: p in side ==> Lists(r, p))
  }

  lemma TopListed(side: Ladder, n: nat, highest: bool)
    ensures TakenFrom(side, n, TopList(side, n, highest))
    ensures forall p :: p in Prices(TopList(side, n, highest)) <==> Lists(TopList(side, n, highest), p)
  {
    TopListIsTop(side, n, highest);
    hide TopList;
    hide Better;
  }

  /** Bids in prices: from the highest down, and none left out that is above one shown. */
  lemma TopBids(side: Ladder, n: nat)
    ensures var r := TopList(side, n, true);
            && TakenFrom(side, n, r) && (forall i, j :: 0 <= i < j < |r| ==> r[i].price > r[j].price)
            && forall p, j :: p in side && 0 <= j < |r| && p > r[j].price ==> Lists(r, p)
  {
    TopListed(side, n, true);
    TopListIsTop(side, n, true);
    hide TopList;
    hide Prices;
    hide Lists;
    hide TakenFrom;
  }

  /** Asks: from the lowest up, and none left out that is below one shown. */
  lemma TopAsks(side: Ladder, n: nat)
    ensures var r := TopList(side, n, false);
            && TakenFrom(side, n, r) && (forall i, j :: 0 <= i < j < |r| ==> r[i].price < r[j].price)
            && forall p, j :: p in side && 0 <= j < |r| && p < r[j].price ==> Lists(r, p)
  {
    TopListed(side, n, false);
    TopListIsTop(side, n, false);
    hide TopList;
    hide Prices;
    hide Lists;
    hide TakenFrom;
  }

  lemma BestUnique(side: Ladder, p: real, q: real, highest: bool)
    requires IsBest(side, p, highest) && IsBest(side, q, highest)
    ensures p == q
  {
  }

  lemma TopListOpens(side: Ladder, n: nat, highest: bool, p: real)
    requires n > 0 && IsBest(side, p, highest)
    ensures TopList(side, n, highest) == [Level(p, side[p])] + TopList(side - {p}, n - 1, highest)
  {
    BestExists(side, highest);
    var q :| IsBest(side, q, highest)
      && TopList(side, n, highest) == [Level(q, side[q])] + TopList(side - {q}, n - 1, highest);
    BestUnique(side, p, q, highest);
  }

  method Best(side: Ladder, highest: bool) returns (p: real)
    requires side != map[]
    ensures IsBest(side, p, highest)
  {
    var left := side.Items;
    assert left != {};
    var l :| l in left;
    p, left := l.0, left - {l};
    while left != {}
      invariant left <= side.Items && p in side
      invariant forall o :: o in side && (o, side[o]) !in left && o != p ==> Better(p, o, highest)
      decreases |left|
    {
      l :| l in left;
      left := left - {l};
      if Better(l.0, p, highest) {
        p := l.0;
      }
    }
  }

  method Top(side: Ladder, n: nat, highest: bool) returns (r: seq<Level>)
    ensures r == TopList(side, n, highest)
  {
    r := [];
    var left := side;
    while |r| < n && left != map[]
      invariant |r| <= n
      invariant TopList(side, n, highest) == r + TopList(left, n - |r|, highest)
      decreases n - |r|
    {
      var p := Best(left, highest);
      TopListOpens(left, n - |r|, highest, p);
      left, r := left - {p}, r + [Level(p, left[p])];
    }
  }
}
