/** The cumulative-volume index: seconds that had trades, and the running total up to each. */
module VolumeIndex {
  import opened Basics
  import opened Tape

  lemma BisectUnique(s: seq<int>, x: int, n: nat)
    requires n <= |s| && (n > 0 ==> s[n - 1] <= x) && forall i :: n <= i < |s| ==> s[i] > x
    ensures BisectRight(s, x) == n
  {
    var m := BisectRight(s, x);
    assert m > 0 ==> s[m - 1] <= x;
    assert n > 0 ==> s[n - 1] <= x;
  }

  /** Volume recorded up to second x. */
  function VolumeUpto(secs: seq<int>, cums: seq<int>, x: int): int
    requires |secs| == |cums|
  {
    var n := BisectRight(secs, x);
    if n == 0 then 0 else cums[n - 1]
  }

  function AddFrom(cums: seq<int>, i: nat, qty: int): (r: seq<int>)
    ensures |r| == |cums| && forall j :: 0 <= j < |cums| ==> r[j] == if j < i then cums[j] else cums[j] + qty
  {
    seq(|cums|, j requires 0 <= j < |cums| => if j < i then cums[j] else cums[j] + qty)
  }

  function InsertAt<T>(s: seq<T>, i: nat, x: T): (r: seq<T>)
    requires i <= |s|
    ensures |r| == |s| + 1
    ensures forall j :: 0 <= j < |r| ==> r[j] == if j < i then s[j] else if j == i then x else s[j - 1]
  {
    s[..i] + [x] + s[i..]
  }

  /** The index after a trade of `qty` at second `sec`, wherever in the index that second falls. */
  function Recorded(secs: seq<int>, cums: seq<int>, sec: int, qty: int): (r: (seq<int>, seq<int>))
    requires |secs| == |cums|
    ensures |r.0| == |r.1|
  {
    var i := BisectLeft(secs, sec);
    if i < |secs| && secs[i] == sec then (secs, AddFrom(cums, i, qty))
    else
      (InsertAt(secs, i, sec), AddFrom(InsertAt(cums, i, if i == 0 then 0 else cums[i - 1]), i, qty))
  }

  lemma RecordedIncreasing(secs: seq<int>, cums: seq<int>, sec: int, qty: int)
    requires |secs| == |cums| && Increasing(secs)
    ensures Increasing(Recorded(secs, cums, sec, qty).0)
  {
    hide BisectRight;
    var i := BisectLeft(secs, sec);
    assert i > 0 ==> forall j :: 0 <= j < i ==> secs[j] <= secs[i - 1] < sec;
  }

  /** Late or not, a trade adds its quantity to exactly the totals at or after its second. */
  lemma RecordedShifts(secs: seq<int>, cums: seq<int>, sec: int, qty: int, x: int)
    requires |secs| == |cums| && Increasing(secs)
    ensures var r := Recorded(secs, cums, sec, qty);
            VolumeUpto(r.0, r.1, x) == VolumeUpto(secs, cums, x) + if sec <= x then qty else 0
  {
    hide BisectRight;
    hide Increasing;
    var i, n := BisectLeft(secs, sec), BisectRight(secs, x);
    BisectOrder(secs, sec, x);
    var r := Recorded(secs, cums, sec, qty);
    if i < |secs| && secs[i] == sec {
      assert n > 0 ==> r.1[n - 1] == if n - 1 < i then cums[n - 1] else cums[n - 1] + qty;
    } else {
      InsertBisect(secs, i, sec, x);
      var m := BisectRight(r.0, x);
      assert m > i ==> r.1[m - 1] == (if m - 1 == i then (if i == 0 then 0 else cums[i - 1]) else cums[m - 2]) + qty;
      assert 0 < m <= i ==> r.1[m - 1] == cums[m - 1];
    }
  }

  lemma BisectOrder(secs: seq<int>, sec: int, x: int)
    requires Increasing(secs)
    ensures var i, n := BisectLeft(secs, sec), BisectRight(secs, x);
            if sec <= x then i <= n && (i < |secs| && secs[i] == sec ==> i < n) else n <= i
  {
    hide BisectRight;
    var i, n := BisectLeft(secs, sec), BisectRight(secs, x);
    assert n > 0 ==> secs[n - 1] <= x;
    assert i > 0 ==> secs[i - 1] < sec;
  }

  lemma InsertBisect(secs: seq<int>, i: nat, sec: int, x: int)
    requires Increasing(secs) && i == BisectLeft(secs, sec)
    ensures BisectRight(InsertAt(secs, i, sec), x) == BisectRight(secs, x) + if sec <= x then 1 else 0
  {
    hide BisectRight;
    var n := BisectRight(secs, x);
    BisectOrder(secs, sec, x);
    assert n > 0 ==> secs[n - 1] <= x;
    BisectUnique(InsertAt(secs, i, sec), x, if sec <= x then n + 1 else n);
  }

  /** Every window that starts at or after `floor` is answered correctly. */
  ghost predicate Indexes(secs: seq<int>, cums: seq<int>, v: Volume, floor: int) {
    && |secs| == |cums| && Increasing(secs)
    && forall lo, hi :: floor <= lo <= hi ==>
        VolumeUpto(secs, cums, hi) - VolumeUpto(secs, cums, lo) == VolumeIn(v, lo, hi)
  }

  lemma RecordKeepsIndex(secs: seq<int>, cums: seq<int>, v: Volume, floor: int, sec: int, qty: int)
    requires Indexes(secs, cums, v, floor)
    ensures var r := Recorded(secs, cums, sec, qty); Indexes(r.0, r.1, AddVolume(v, sec, qty), floor)
  {
    var r := Recorded(secs, cums, sec, qty);
    RecordedIncreasing(secs, cums, sec, qty);
    forall lo, hi | floor <= lo <= hi
      ensures VolumeUpto(r.0, r.1, hi) - VolumeUpto(r.0, r.1, lo) == VolumeIn(AddVolume(v, sec, qty), lo, hi)
    {
      RecordedShifts(secs, cums, sec, qty, lo);
      RecordedShifts(secs, cums, sec, qty, hi);
      AddVolumeIn(v, sec, qty, lo, hi);
    }
  }

  /** Deleting a prefix leaves every total from the first kept second on unchanged. */
  lemma DropKeepsTotal(secs: seq<int>, cums: seq<int>, k: nat, x: int)
    requires |secs| == |cums| && k < |secs| && secs[k] <= x
    ensures VolumeUpto(secs[k..], cums[k..], x) == VolumeUpto(secs, cums, x)
  {
    hide BisectRight;
    var n := BisectRight(secs, x);
    assert k < n;
    BisectUnique(secs[k..], x, n - k);
  }

  lemma DropKeepsIndex(secs: seq<int>, cums: seq<int>, v: Volume, floor: int, k: nat, x: int)
    requires Indexes(secs, cums, v, floor)
    requires k < |secs| && secs[k] <= x && floor <= x
    ensures Indexes(secs[k..], cums[k..], v, x)
  {
    forall lo, hi | x <= lo <= hi
      ensures VolumeUpto(secs[k..], cums[k..], hi) - VolumeUpto(secs[k..], cums[k..], lo) == VolumeIn(v, lo, hi)
    {
      DropKeepsTotal(secs, cums, k, lo);
      DropKeepsTotal(secs, cums, k, hi);
    }
  }
}
