/** What one UTC day of collector records amounts to: the quotes that count, the volume per second. */
module DayData {
  import opened Basics
  import opened Tape
  import opened Engine

  const DAY := 86400

  /** One aggTrade: time in milliseconds of the day, quantity, whether the buyer was the maker. */
  datatype TradeRec = TradeRec(ts: int, qty: real, buyerMaker: bool)

  function SecOf(r: TradeRec): int {
    r.ts / 1000
  }

  function SideOf(r: TradeRec): int {
    if r.buyerMaker then -1 else 1
  }

  // ---- quotes ---------------------------------------------------------------

  function Scaled(q: Quote, scale: real): Quote {
    q.(bidQty := q.bidQty * scale, askQty := q.askQty * scale)
  }

  /** Records whose best quote differs from the record before, with quantities scaled. */
  ghost function Kept(qs: seq<Quote>, scale: real): seq<Quote> {
    if qs == [] then []
    else
      var n, before := |qs|, Kept(qs[..|qs| - 1], scale);
      if n >= 2 && SameTop(qs[n - 2], qs[n - 1]) then before else before + [Scaled(qs[n - 1], scale)]
  }

  ghost function TwoSidedOf(qs: seq<Quote>): seq<Quote> {
    if qs == [] then []
    else
      var before, q := TwoSidedOf(qs[..|qs| - 1]), qs[|qs| - 1];
      if TwoSided(q) then before + [q] else before
  }

  lemma ScaledSameTop(a: Quote, b: Quote, scale: real)
    requires scale > 0.0
    ensures SameTop(Scaled(a, scale), Scaled(b, scale)) <==> SameTop(a, b)
  {
    Cancel(a.bidQty, b.bidQty, scale);
    Cancel(a.askQty, b.askQty, scale);
  }

  lemma Cancel(x: real, y: real, s: real)
    requires s > 0.0
    ensures x * s == y * s <==> x == y
  {
    if x * s == y * s {
      assert (x - y) * s == 0.0;
    }
  }

  lemma KeptNothing(scale: real)
    ensures Kept([], scale) == [] && TwoSidedOf([]) == []
  {
  }

  lemma KeptOfAppend(qs: seq<Quote>, q: Quote, scale: real)
    ensures Kept(qs + [q], scale)
            == if qs != [] && SameTop(qs[|qs| - 1], q) then Kept(qs, scale) else Kept(qs, scale) + [Scaled(q, scale)]
  {
    assert (qs + [q])[..|qs|] == qs;
  }

  lemma TwoSidedOfAppend(qs: seq<Quote>, q: Quote)
    ensures TwoSidedOf(qs + [q]) == if TwoSided(q) then TwoSidedOf(qs) + [q] else TwoSidedOf(qs)
  {
    assert (qs + [q])[..|qs|] == qs;
  }

  /** The last kept record shows the last record's best quote. */
  lemma {:induction false} KeptLast(qs: seq<Quote>, scale: real)
    requires scale > 0.0 && qs != [] && InOrder(qs)
    ensures var k := Kept(qs, scale);
            k != [] && SameTop(k[|k| - 1], Scaled(qs[|qs| - 1], scale)) && k[|k| - 1].ts <= qs[|qs| - 1].ts
  {
    var n := |qs|;
    if n >= 2 && SameTop(qs[n - 2], qs[n - 1]) {
      KeptLast(qs[..n - 1], scale);
      ScaledSameTop(qs[n - 2], qs[n - 1], scale);
    }
  }

  lemma {:induction false} TwoSidedLast(qs: seq<Quote>, t: int)
    requires InOrder(qs) && (qs != [] ==> qs[|qs| - 1].ts <= t)
    ensures var k := TwoSidedOf(qs); k != [] ==> k[|k| - 1].ts <= t
  {
    if qs == [] {
    } else {
      TwoSidedLast(qs[..|qs| - 1], t);
    }
  }

  /** Kept quotes and two-sided quotes are not earlier than the records they come from. */
  lemma {:induction false} KeptFrom(qs: seq<Quote>, scale: real, t: int)
    requires forall i :: 0 <= i < |qs| ==> t <= qs[i].ts
    ensures forall i :: 0 <= i < |Kept(qs, scale)| ==> t <= Kept(qs, scale)[i].ts
  {
    if qs == [] {
    } else {
      KeptFrom(qs[..|qs| - 1], scale, t);
    }
  }

  lemma {:induction false} TwoSidedFrom(qs: seq<Quote>, t: int)
    requires forall i :: 0 <= i < |qs| ==> t <= qs[i].ts
    ensures forall i :: 0 <= i < |TwoSidedOf(qs)| ==> t <= TwoSidedOf(qs)[i].ts
  {
    if qs == [] {
    } else {
      TwoSidedFrom(qs[..|qs| - 1], t);
    }
  }

  lemma {:induction false} TwoSidedInOrder(qs: seq<Quote>)
    requires InOrder(qs)
    ensures InOrder(TwoSidedOf(qs))
  {
    if qs == [] {
    } else {
      var p := qs[..|qs| - 1];
      TwoSidedInOrder(p);
      TwoSidedLast(p, qs[|qs| - 1].ts);
    }
  }

  // ---- trades ---------------------------------------------------------------

  /** Quantity traded on one side during one second. */
  ghost function QtyOf(rs: seq<TradeRec>, sec: int, side: int): real {
    if rs == [] then 0.0
    else
      var r := rs[|rs| - 1];
      QtyOf(rs[..|rs| - 1], sec, side) + if SecOf(r) == sec && SideOf(r) == side then r.qty else 0.0
  }

  lemma QtyOfAppend(rs: seq<TradeRec>, r: TradeRec, sec: int, side: int)
    ensures QtyOf(rs + [r], sec, side)
            == QtyOf(rs, sec, side) + if SecOf(r) == sec && SideOf(r) == side then r.qty else 0.0
  {
    assert (rs + [r])[..|rs|] == rs;
  }

  /** A quantity in whole engine units. */
  function ToUnits(qty: real, scale: real): int {
    RoundHalfEven(qty * scale)
  }

  /** What the engine receives for one side of one second: rounded units, nothing unless positive. */
  function Units(qty: real, scale: real): (r: int)
    ensures 0 <= r
  {
    var n := ToUnits(qty, scale);
    if n <= 0 then 0 else n
  }

  lemma NoUnits(scale: real)
    ensures Units(0.0, scale) == 0
  {
    assert 0.0 * scale == 0.0;
  }

  ghost function UnitsAt(rs: seq<TradeRec>, scale: real, sec: int): int {
    Units(QtyOf(rs, sec, -1), scale) + Units(QtyOf(rs, sec, 1), scale)
  }

  /** Volume of the seconds before `n`. */
  ghost function VolumeBefore(rs: seq<TradeRec>, scale: real, n: int): Volume {
    map s | 0 <= s < n && UnitsAt(rs, scale, s) > 0 :: UnitsAt(rs, scale, s)
  }

  /** A volume record with no empty second is determined by its values. */
  lemma VolumeByValues(v: Volume, rs: seq<TradeRec>, scale: real, n: int)
    requires forall s :: s in v ==> v[s] > 0
    requires forall s :: VolumeAt(v, s) == if 0 <= s < n then UnitsAt(rs, scale, s) else 0
    ensures v == VolumeBefore(rs, scale, n)
  {
    var w := VolumeBefore(rs, scale, n);
    assert forall s :: s in v <==> VolumeAt(v, s) > 0;
    assert forall s :: s in v <==> s in w;
  }

  /** Trades of later seconds do not change what came before. */
  lemma VolumeBeforeAppend(rs: seq<TradeRec>, r: TradeRec, scale: real, n: int)
    requires n <= SecOf(r)
    ensures VolumeBefore(rs + [r], scale, n) == VolumeBefore(rs, scale, n)
  {
    forall s | 0 <= s < n ensures UnitsAt(rs + [r], scale, s) == UnitsAt(rs, scale, s) {
      QtyOfAppend(rs, r, s, -1);
      QtyOfAppend(rs, r, s, 1);
    }
  }

  // ---- the same, in the fields of the records -------------------------------

  /** One more quote record: repeated prices and quantities are dropped, anything else is kept with scaled
      quantities; and of the kept ones those with two prices in order are futures quotes. */
  lemma KeptIs(qs: seq<Quote>, q: Quote, scale: real)
    ensures Kept([], scale) == [] && TwoSidedOf([]) == []
    ensures Kept(qs + [q], scale)
         == Kept(qs, scale)
            + if qs != [] && var p := qs[|qs| - 1];
                 p.bid == q.bid && p.bidQty == q.bidQty && p.ask == q.ask && p.askQty == q.askQty
              then [] else [Quote(q.ts, q.bid, q.bidQty * scale, q.ask, q.askQty * scale)]
    ensures TwoSidedOf(qs + [q]) == TwoSidedOf(qs) + if q.bid > 0.0 && q.ask > q.bid then [q] else []
  {
    KeptNothing(scale);
    KeptOfAppend(qs, q, scale);
    TwoSidedOfAppend(qs, q);
  }

  /** One more trade record: its quantity counts in its own second, on the side of the aggressor. */
  lemma QtyIs(rs: seq<TradeRec>, r: TradeRec, sec: int)
    ensures QtyOf([], sec, -1) == QtyOf([], sec, 1) == 0.0
    ensures QtyOf(rs + [r], sec, -1) == QtyOf(rs, sec, -1) + if r.ts / 1000 == sec && r.buyerMaker then r.qty else 0.0
    ensures QtyOf(rs + [r], sec, 1) == QtyOf(rs, sec, 1) + if r.ts / 1000 == sec && !r.buyerMaker then r.qty else 0.0
  {
    QtyOfAppend(rs, r, sec, -1);
    QtyOfAppend(rs, r, sec, 1);
  }

  /** The engine's units: the nearest whole number, ties to even, and nothing below one. */
  lemma UnitsIs(qty: real, scale: real, n: int)
    requires -0.5 <= n as real - qty * scale <= 0.5
    requires n as real - qty * scale == 0.5 || n as real - qty * scale == -0.5 ==> n % 2 == 0
    ensures Units(qty, scale) == if n < 0 then 0 else n
  {
    hide RoundHalfEven;
  }

  /** The volume of a second before `n` is the units of its two sides. */
  lemma VolumeIs(rs: seq<TradeRec>, scale: real, n: int, sec: int)
    ensures (if sec in VolumeBefore(rs, scale, n) then VolumeBefore(rs, scale, n)[sec] else 0)
         == if 0 <= sec < n then Units(QtyOf(rs, sec, -1), scale) + Units(QtyOf(rs, sec, 1), scale) else 0
  {
    hide QtyOf;
    hide ToUnits;
  }
}
