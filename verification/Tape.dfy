/** The two input streams of one symbol and the indicators that the signal is defined by.
    Times are integer milliseconds since the start of the day, seconds are integers. */
module Tape {

  datatype Quote = Quote(ts: int, bid: real, bidQty: real, ask: real, askQty: real)

  ghost predicate InOrder(q: seq<Quote>) {
    forall i, j :: 0 <= i <= j < |q| ==> q[i].ts <= q[j].ts
  }

  /** `n` is the number of quotes up to the last one at or before `x`. */
  ghost predicate IsUpTo(q: seq<Quote>, x: int, n: nat) {
    && n <= |q|
    && (n > 0 ==> q[n - 1].ts <= x)
    && forall i :: n <= i < |q| ==> q[i].ts > x
  }

  lemma {:induction false} UpToExists(q: seq<Quote>, x: int)
    ensures exists n: nat :: IsUpTo(q, x, n)
  {
    if q == [] || q[|q| - 1].ts <= x {
      assert IsUpTo(q, x, |q|);
    } else {
      UpToExists(q[..|q| - 1], x);
      var n: nat :| IsUpTo(q[..|q| - 1], x, n);
      assert IsUpTo(q, x, n);
    }
  }

  ghost function UpTo(q: seq<Quote>, x: int): (n: nat)
    ensures IsUpTo(q, x, n)
  {
    UpToExists(q, x);
    var m: nat :| IsUpTo(q, x, m);
    m
  }

  /** What makes `n` the answer of `UpTo`; every fact about appending or deleting follows. */
  lemma UpToUnique(q: seq<Quote>, x: int, n: nat)
    requires IsUpTo(q, x, n)
    ensures UpTo(q, x) == n
  {
    var m := UpTo(q, x);
    assert m > 0 ==> q[m - 1].ts <= x;
    assert n > 0 ==> q[n - 1].ts <= x;
  }

  function Mid(q: Quote): real {
    (q.bid + q.ask) / 2.0
  }

  predicate TwoSided(q: Quote) {
    0.0 < q.bid < q.ask
  }

  // ---- order-flow imbalance -------------------------------------------------

  function BidQty(q: Quote): real {
    if q.bid > 0.0 then q.bidQty else 0.0
  }

  function AskQty(q: Quote): real {
    if q.ask > 0.0 then q.askQty else 0.0
  }

  /** Order-flow imbalance contributed by one best-quote change. */
  function Imbalance(a: Quote, b: Quote): real {
    var onBid := if b.bid > a.bid then BidQty(b)
                 else if b.bid == a.bid then BidQty(b) - BidQty(a)
                 else -BidQty(a);
    var onAsk := if b.ask > a.ask then -AskQty(a)
                 else if b.ask == a.ask then AskQty(b) - AskQty(a)
                 else AskQty(b);
    onBid - onAsk
  }

  /** Imbalance of the last quote of `q` against its predecessor; 0 for the first quote of a day. */
  function LastImbalance(q: seq<Quote>): real
    requires q != []
  {
    if |q| == 1 then 0.0 else Imbalance(q[|q| - 2], q[|q| - 1])
  }

  /** The documented window sum: imbalance of the quotes with lo < ts <= hi. */
  function ImbalanceIn(q: seq<Quote>, lo: int, hi: int): real {
    if q == [] then 0.0
    else ImbalanceIn(q[..|q| - 1], lo, hi) + if lo < q[|q| - 1].ts <= hi then LastImbalance(q) else 0.0
  }

  /** Running total of the imbalance over a whole stream. */
  function CumImbalance(q: seq<Quote>): real {
    if q == [] then 0.0 else CumImbalance(q[..|q| - 1]) + LastImbalance(q)
  }

  /** A window whose ends are positions `a` and `b` of the stream. */
  lemma {:induction false} WindowBetween(q: seq<Quote>, lo: int, hi: int, a: nat, b: nat)
    requires a <= b <= |q|
    requires forall i :: 0 <= i < a ==> q[i].ts <= lo
    requires forall i :: a <= i < b ==> lo < q[i].ts <= hi
    requires forall i :: b <= i < |q| ==> lo < q[i].ts && hi < q[i].ts
    ensures ImbalanceIn(q, lo, hi) == CumImbalance(q[..b]) - CumImbalance(q[..a])
  {
    hide LastImbalance;
    var n := |q|;
    if n == 0 {
    } else if b < n {
      WindowBetween(q[..n - 1], lo, hi, a, b);
      assert q[..n - 1][..a] == q[..a] && q[..n - 1][..b] == q[..b];
    } else if a < n {
      WindowBetween(q[..n - 1], lo, hi, a, n - 1);
      assert q[..n - 1][..a] == q[..a] && q[..n - 1][..n - 1] == q[..n - 1] && q[..n] == q;
    } else {
      WindowBetween(q[..n - 1], lo, hi, n - 1, n - 1);
      assert q[..n - 1][..n - 1] == q[..n - 1];
    }
  }

  /** The window sum is a difference of two running totals found by bisection. */
  lemma WindowIsDifference(q: seq<Quote>, lo: int, hi: int)
    requires InOrder(q) && lo <= hi
    ensures UpTo(q, lo) <= UpTo(q, hi)
    ensures ImbalanceIn(q, lo, hi) == CumImbalance(q[..UpTo(q, hi)]) - CumImbalance(q[..UpTo(q, lo)])
  {
    var a, b := UpTo(q, lo), UpTo(q, hi);
    assert a > 0 ==> q[a - 1].ts <= lo;
    assert b > 0 ==> q[b - 1].ts <= hi;
    WindowBetween(q, lo, hi, a, b);
  }

  // ---- traded volume --------------------------------------------------------

  /** Directional volume per exchange second, the form in which trades matter to a decision. */
  type Volume = map<int, int>

  function VolumeAt(v: Volume, sec: int): int {
    if sec in v then v[sec] else 0
  }

  /** The documented window sum: volume of the seconds in (lo, hi]. */
  function VolumeIn(v: Volume, lo: int, hi: int): int
    decreases hi - lo
  {
    if hi <= lo then 0 else VolumeIn(v, lo, hi - 1) + VolumeAt(v, hi)
  }

  lemma {:induction false} EmptyWindow(lo: int, hi: int)
    ensures VolumeIn(map[], lo, hi) == 0
    decreases hi - lo
  {
    if hi <= lo {
    } else {
      EmptyWindow(lo, hi - 1);
    }
  }

  function AddVolume(v: Volume, sec: int, qty: int): Volume {
    v[sec := VolumeAt(v, sec) + qty]
  }

  lemma {:induction false} AddVolumeIn(v: Volume, sec: int, qty: int, lo: int, hi: int)
    ensures VolumeIn(AddVolume(v, sec, qty), lo, hi) == VolumeIn(v, lo, hi) + if lo < sec <= hi then qty else 0
    decreases hi - lo
  {
    if hi <= lo {
    } else {
      AddVolumeIn(v, sec, qty, lo, hi - 1);
    }
  }
}
