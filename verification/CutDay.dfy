/** A day on which the live path and the batch loop differ: a position whose deadline is midnight, and a
    quote in the day's last second. */
module CutDay {
  import opened Basics
  import opened Tape
  import opened Signal
  import opened DayData
  import opened Feed
  import opened Replay

  /** The only second at which this day decides; its deadline is midnight. */
  const DECIDES := 86100

  const PARAMS := Params(20, 50.0, 10, 10, 0.5, 0, 3000.0, 0, 1, 60, 200.0, 100.0, 300, 1.0, 0, 86400, 86100, 86101)

  /** The price rises by one percent, then size leaves the bid; the last quote comes half a second into
      the last second of the day. */
  const QUOTES := [
    Quote(0, 99.0, 10.0, 101.0, 10.0),
    Quote(86085000, 100.0, 10.0, 102.0, 10.0),
    Quote(86095000, 100.0, 5.0, 102.0, 10.0),
    Quote(86399500, 100.0, 6.0, 102.0, 10.0)]

  const TRADES := [TradeRec(86085000, 1.0, false)]

  function DayConfig(ln: real -> real, tick: real -> Positive): FeedConfig {
    FeedConfig(PARAMS, ln, tick, 1.0)
  }

  lemma AllKept()
    ensures Kept(QUOTES, 1.0) == QUOTES && TwoSidedOf(QUOTES) == QUOTES
  {
    var q := QUOTES;
    assert forall i :: 0 <= i < 4 ==> Scaled(q[i], 1.0) == q[i];
    assert q[..4] == q && q[..4][..3] == q[..3] && q[..3][..2] == q[..2] && q[..2][..1] == q[..1] && q[..1][..0] == [];
    assert Kept(q[..1], 1.0) == q[..1] && TwoSidedOf(q[..1]) == q[..1];
    assert q[..2] == q[..1] + [q[1]] && q[..3] == q[..2] + [q[2]] && q == q[..3] + [q[3]];
    KeptOfAppend(q[..1], q[1], 1.0);
    KeptOfAppend(q[..2], q[2], 1.0);
    KeptOfAppend(q[..3], q[3], 1.0);
    TwoSidedOfAppend(q[..1], q[1]);
    TwoSidedOfAppend(q[..2], q[2]);
    TwoSidedOfAppend(q[..3], q[3]);
    hide Kept;
    hide TwoSidedOf;
  }

  // ---- the measurements -----------------------------------------------------

  lemma OneTrade()
    ensures VolumeBefore(TRADES, 1.0, DAY - 1) == map[86085 := 1]
  {
    var v := VolumeBefore(TRADES, 1.0, DAY - 1);
    assert TRADES[..0] == [];
    NoUnits(1.0);
    assert ToUnits(1.0, 1.0) == 1;
    forall s ensures UnitsAt(TRADES, 1.0, s) == if s == 86085 then 1 else 0 {
      assert QtyOf(TRADES, s, -1) == 0.0;
      assert QtyOf(TRADES, s, 1) == if s == 86085 then 1.0 else 0.0;
    }
    hide UnitsAt;
    assert forall s :: s in v <==> s == 86085;
  }

  lemma Imbalances()
    ensures ImbalanceIn(QUOTES, 86090000, 86100000) == -5.0
  {
    var q := QUOTES;
    assert q[..3][..2] == q[..2] && q[..2][..1] == q[..1] && q[..1][..0] == [];
    assert ImbalanceIn(q[..1], 86090000, 86100000) == 0.0;
    assert ImbalanceIn(q[..2], 86090000, 86100000) == 0.0;
    assert Imbalance(q[1], q[2]) == -5.0;
    assert LastImbalance(q[..3]) == -5.0;
    assert ImbalanceIn(q[..3], 86090000, 86100000) == -5.0;
    assert q[..|q| - 1] == q[..3];
  }

  lemma Measures()
    ensures InputsAt(PARAMS, QUOTES, map[86085 := 1], DECIDES) == Some(Inputs(100.0, 101.0, -5.0, 1))
  {
    UpToUnique(QUOTES, Ms(DECIDES - 20), 1);
    UpToUnique(QUOTES, Ms(DECIDES), 3);
    Imbalances();
    EmptyWindow(DECIDES - 20, DECIDES - 10);
    AddVolumeIn(map[], 86085, 1, DECIDES - 20, DECIDES - 10);
    assert AddVolume(map[], 86085, 1) == map[86085 := 1];
    hide ImbalanceIn;
    hide VolumeIn;
  }

  // ---- the entry ------------------------------------------------------------

  function FeatOf(ln: real -> real): Feat {
    Feat((ln(101.0) - ln(100.0)) * 10000.0, -5.0, 6.0, -5.0 / 6.0, 100.0, 101.0)
  }

  function OnlyEntry(ln: real -> real): Entry {
    Entry(Logic1, DECIDES, 86095000, 100.0, FeatOf(ln))
  }

  lemma Decides(ln: real -> real, tick: real -> Positive)
    requires ln(101.0) - ln(100.0) >= 0.005
    ensures var c := ConfigFor(DayConfig(ln, tick), QUOTES[0]);
            Step(c, Logic1, QUOTES, QUOTES, map[86085 := 1], DECIDES, FRESH).entries == [OnlyEntry(ln)]
  {
    var c := ConfigFor(DayConfig(ln, tick), QUOTES[0]);
    Measures();
    UpToUnique(QUOTES, Ms(DECIDES), 3);
    hide InputsAt;
    assert Features(c, QUOTES, map[86085 := 1], DECIDES) == Some(FeatOf(ln));
    hide Features;
    assert Hit(c.p, Logic1, FeatOf(ln));
    assert c.futBase == Some(100.0) && !NearLimit(c, QUOTES[2]);
    assert !Filtered(c, Logic1, QUOTES[2], QUOTES[2]) by {
      assert 0.0 / tick(101.0) == 0.0;
    }
    hide NearLimit;
    hide Filtered;
    assert FRESH.entries + [OnlyEntry(ln)] == [OnlyEntry(ln)];
  }

  /** Outside the entry window the run stands still. */
  lemma {:induction false} StandsStill(c: Config, q: seq<Quote>, f: seq<Quote>, v: Volume, t: int)
    requires 0 < c.p.volWin && c.p.entryStart == DECIDES && c.p.entryEnd == DECIDES + 1 && DECIDES <= t
    ensures RunAt(c, Logic1, q, f, v, t) == Step(c, Logic1, q, f, v, DECIDES, FRESH)
    decreases t
  {
    if t > DECIDES {
      StandsStill(c, q, f, v, t - 1);
      assert !InWindow(c.p, t);
      hide Features;
      hide OnHit;
      hide Busy;
    } else {
      assert RunAt(c, Logic1, q, f, v, DECIDES - 1) == FRESH;
      hide Step;
    }
  }

  lemma OnlyOneEntry(ln: real -> real, tick: real -> Positive)
    requires ln(101.0) - ln(100.0) >= 0.005
    ensures Kept(QUOTES, 1.0) == QUOTES && TwoSidedOf(QUOTES) == QUOTES
    ensures EntriesOf(DayConfig(ln, tick), QUOTES, TRADES) == [OnlyEntry(ln)]
  {
    var fc := DayConfig(ln, tick);
    AllKept();
    OneTrade();
    Decides(ln, tick);
    hide Kept;
    hide TwoSidedOf;
    hide VolumeBefore;
    hide Step;
    StandsStill(ConfigFor(fc, QUOTES[0]), QUOTES, QUOTES, map[86085 := 1], DAY);
    hide RunAt;
  }

  lemma IsCutOff(ln: real -> real)
    ensures CutOff(PARAMS, QUOTES, OnlyEntry(ln))
  {
    assert Ms(DAY - 1) < QUOTES[3].ts;
  }

  lemma ADay()
    ensures ValidParams(PARAMS) && PARAMS.sessionClose <= DAY && DayQuotes(QUOTES) && DayTrades(TRADES)
  {
  }

  /** The two loops return different trades, whatever the logarithm (rising here) and the tick table. */
  lemma LoopsDiffer(ln: real -> real, tick: real -> Positive)
    requires ln(101.0) - ln(100.0) >= 0.005
    ensures ValidParams(PARAMS) && PARAMS.sessionClose <= DAY && DayQuotes(QUOTES) && DayTrades(TRADES)
    ensures DayResult(DayConfig(ln, tick), QUOTES, TRADES) != BatchResult(DayConfig(ln, tick), QUOTES, TRADES)
  {
    var fc := DayConfig(ln, tick);
    assert fc.p == PARAMS && fc.scale == 1.0 && QUOTES != [];
    hide *;
    ADay();
    OnlyOneEntry(ln, tick);
    IsCutOff(ln);
    LiveIsBatch(fc, QUOTES, TRADES);
    assert OnlyEntry(ln) in EntriesOf(fc, QUOTES, TRADES);
  }
}
