/** The book_top records a collector publishes for one symbol while its book is synchronised. */
module TopOfBook {
  import opened Basics
  import opened Ladders
  import opened OrderBook
  import opened BookSync

  /** The best levels after update `u`. */
  datatype TopRecord = TopRecord(u: int, bids: seq<Level>, asks: seq<Level>)

  type Tops = (seq<Level>, seq<Level>)

  datatype Published = Published(lastTop: Option<Tops>, records: seq<TopRecord>)

  ghost function TopsOf(b: Book, n: nat): Tops {
    (TopList(b.bids, n, true), TopList(b.asks, n, false))
  }

  /** After an event: publish if the book can be trusted and its best levels have changed. */
  ghost function Publish(b: Book, n: nat, o: Published): Published
    requires b.id.Some?
  {
    var t := TopsOf(b, n);
    if o.lastTop == Some(t) then o else Published(Some(t), o.records + [TopRecord(b.id.value, t.0, t.1)])
  }

  ghost function NextOut(s: Sync, step: Step, maxBuffer: nat, n: nat, o: Published): Published {
    match step
    case Deliver(_) =>
      var t := Next(s, step, maxBuffer);
      if n > 0 && Synced(t) && t.book.ready then Publish(t.book, n, o) else o
    case Reset => o.(lastTop := None)
    case _ => o
  }

  ghost function OutOf(steps: seq<Step>, maxBuffer: nat, n: nat): Published {
    if steps == [] then Published(None, [])
    else
      var before := steps[..|steps| - 1];
      NextOut(RunOf(before, maxBuffer), steps[|steps| - 1], maxBuffer, n, OutOf(before, maxBuffer, n))
  }

  ghost predicate TrueRecord(h: seq<Change>, n: nat, r: TopRecord) {
    0 <= r.u <= |h| && r.bids == TopList(SideAt(h, r.u, true), n, true)
      && r.asks == TopList(SideAt(h, r.u, false), n, false)
  }

  /** Every record of every run shows the exchange's own best levels after the update it names. */
  lemma {:induction false} EveryRecordIsTrue(h: seq<Change>, steps: seq<Step>, maxBuffer: nat, n: nat)
    requires Quantities(h) && forall step :: step in steps ==> TrueStep(h, step)
    ensures forall r :: r in OutOf(steps, maxBuffer, n).records ==> TrueRecord(h, n, r)
  {
    if steps == [] {
    } else {
      var k := |steps| - 1;
      EveryRecordIsTrue(h, steps[..k], maxBuffer, n);
      EveryRunIsSound(h, steps, maxBuffer);
    }
  }

  function TopsIn(r: TopRecord): Tops {
    (r.bids, r.asks)
  }

  /** Step `k` is a disconnection, and `i` records had been published by then. */
  ghost predicate CutAt(steps: seq<Step>, maxBuffer: nat, n: nat, i: nat, k: nat) {
    k < |steps| && steps[k].Reset? && |OutOf(steps[..k], maxBuffer, n).records| == i
  }

  ghost predicate CutBefore(steps: seq<Step>, maxBuffer: nat, n: nat, i: nat) {
    exists k: nat :: CutAt(steps, maxBuffer, n, i, k)
  }

  /** What the last levels say: those of the last record, unless a disconnection has come since. */
  ghost predicate LastIsKnown(steps: seq<Step>, maxBuffer: nat, n: nat) {
    var o := OutOf(steps, maxBuffer, n);
    if o.lastTop.Some? then o.records != [] && o.lastTop.value == TopsIn(o.records[|o.records| - 1])
    else o.records != [] ==> CutBefore(steps, maxBuffer, n, |o.records|)
  }

  ghost predicate RepeatsOnlyAfterCuts(steps: seq<Step>, maxBuffer: nat, n: nat) {
    var o := OutOf(steps, maxBuffer, n);
    forall i :: 0 < i < |o.records| && TopsIn(o.records[i]) == TopsIn(o.records[i - 1]) ==>
      CutBefore(steps, maxBuffer, n, i)
  }

  lemma CutStays(steps: seq<Step>, maxBuffer: nat, n: nat, i: nat)
    requires steps != [] && CutBefore(steps[..|steps| - 1], maxBuffer, n, i)
    ensures CutBefore(steps, maxBuffer, n, i)
  {
    hide OutOf;
    var before := steps[..|steps| - 1];
    var k: nat :| CutAt(before, maxBuffer, n, i, k);
    assert before[..k] == steps[..k];
    assert CutAt(steps, maxBuffer, n, i, k);
  }

  /** One more step publishes nothing, or one record that differs from the last known levels. */
  lemma OutGrows(steps: seq<Step>, maxBuffer: nat, n: nat)
    requires steps != []
    ensures var o, p := OutOf(steps[..|steps| - 1], maxBuffer, n), OutOf(steps, maxBuffer, n);
            if steps[|steps| - 1].Reset? then p == o.(lastTop := None)
            else p == o || (exists r :: p.records == o.records + [r] && p.lastTop == Some(TopsIn(r)) != o.lastTop)
  {
    hide TopList;
    hide OnDiff;
    var k := |steps| - 1;
    var o, p := OutOf(steps[..k], maxBuffer, n), OutOf(steps, maxBuffer, n);
    if p != o && !steps[k].Reset? {
      var b := Next(RunOf(steps[..k], maxBuffer), steps[k], maxBuffer).book;
      var t := TopsOf(b, n);
      var r := TopRecord(b.id.value, t.0, t.1);
      assert p.records == o.records + [r] && TopsIn(r) == t;
    }
  }

  /** In every run: two neighbouring records are equal only if the connection was lost between them. */
  lemma {:induction false} RecordsAreChanges(steps: seq<Step>, maxBuffer: nat, n: nat)
    ensures RepeatsOnlyAfterCuts(steps, maxBuffer, n) && LastIsKnown(steps, maxBuffer, n)
  {
    if steps != [] {
      var k := |steps| - 1;
      RecordsAreChanges(steps[..k], maxBuffer, n);
      OutGrows(steps, maxBuffer, n);
      hide CutBefore;
      var o, p := OutOf(steps[..k], maxBuffer, n), OutOf(steps, maxBuffer, n);
      if steps[k].Reset? {
        assert CutAt(steps, maxBuffer, n, |o.records|, k);
        ThereIsACut(steps, maxBuffer, n, |o.records|, k);
      }
      hide OutOf;
      forall i: nat | CutBefore(steps[..k], maxBuffer, n, i) ensures CutBefore(steps, maxBuffer, n, i) {
        CutStays(steps, maxBuffer, n, i);
      }
    } else {
      assert OutOf(steps, maxBuffer, n) == Published(None, []);
    }
  }

  lemma ThereIsACut(steps: seq<Step>, maxBuffer: nat, n: nat, i: nat, k: nat)
    requires CutAt(steps, maxBuffer, n, i, k)
    ensures CutBefore(steps, maxBuffer, n, i)
  {
    hide CutAt;
  }

  /** After a delivery that leaves the book synchronised and following, the last record shows its best levels:
      no change goes unpublished. */
  lemma LatestIsShown(steps: seq<Step>, ev: Diff, maxBuffer: nat, n: nat)
    requires n > 0
    requires var s := RunOf(steps + [Deliver(ev)], maxBuffer); s.task.NoTask? && s.book.id.Some? && s.book.ready
    ensures var (s, o) := (RunOf(steps + [Deliver(ev)], maxBuffer), OutOf(steps + [Deliver(ev)], maxBuffer, n));
            && o.records != []
            && var r := o.records[|o.records| - 1];
               r.bids == TopList(s.book.bids, n, true) && r.asks == TopList(s.book.asks, n, false)
  {
    var all := steps + [Deliver(ev)];
    assert all[..|all| - 1] == steps;
    RecordsAreChanges(all, maxBuffer, n);
    hide TopList;
    hide OnDiff;
    hide CutBefore;
  }

  /** Nothing else is published: one step adds a record, with the update it belongs to, only if it is a delivery,
      levels are asked for, the book is synchronised and following, and its best levels are not the last known. */
  lemma PublishedOnly(steps: seq<Step>, step: Step, maxBuffer: nat, n: nat)
    ensures var (s, o, p) := (RunOf(steps + [step], maxBuffer), OutOf(steps, maxBuffer, n),
                              OutOf(steps + [step], maxBuffer, n));
            p.records == o.records
            || (&& step.Deliver? && n > 0 && s.task.NoTask? && s.book.id.Some? && s.book.ready
                && o.lastTop != Some((TopList(s.book.bids, n, true), TopList(s.book.asks, n, false)))
                && p.records == o.records + [TopRecord(s.book.id.value, TopList(s.book.bids, n, true),
                                                       TopList(s.book.asks, n, false))])
  {
    var all := steps + [step];
    assert all[..|all| - 1] == steps;
    hide TopList;
    hide OnDiff;
  }

  class OrderBookCollector {
    const sync: BookSynchronizer
    const topLevels: nat
    var lastTop: Option<Tops>
    var records: seq<TopRecord>

    function Out(): Published
      reads this
    {
      Published(lastTop, records)
    }

    constructor (maxBuffer: nat, topLevels: nat)
      ensures fresh(sync) && fresh(sync.book) && sync.View() == START && sync.maxBuffer == maxBuffer
      ensures this.topLevels == topLevels && Out() == Published(None, [])
    {
      sync := new BookSynchronizer(maxBuffer);
      this.topLevels := topLevels;
      lastTop, records := None, [];
    }

    method HandleDepth(ev: Diff)
      modifies this, sync, sync.book
      ensures sync.View() == Next(old(sync.View()), Deliver(ev), sync.maxBuffer)
      ensures Out() == NextOut(old(sync.View()), Deliver(ev), sync.maxBuffer, topLevels, old(Out()))
    {
      hide OnDiff;
      sync.OnDiff(ev);
      if topLevels > 0 && sync.task.NoTask? && sync.book.lastUpdateId.Some? && sync.book.firstApplied {
        EmitTop();
      }
    }

    method EmitTop()
      requires sync.book.lastUpdateId.Some?
      modifies this
      ensures Out() == Publish(sync.book.View(), topLevels, old(Out()))
    {
      var b := Top(sync.book.bids, topLevels, true);
      var a := Top(sync.book.asks, topLevels, false);
      if lastTop == Some((b, a)) {
        return;
      }
      lastTop := Some((b, a));
      records := records + [TopRecord(sync.book.lastUpdateId.value, b, a)];
    }

    /** The depth connection is down: what was missed cannot be recovered. */
    method Disconnected()
      modifies this, sync, sync.book
      ensures sync.View() == Next(old(sync.View()), Reset, sync.maxBuffer)
      ensures Out() == NextOut(old(sync.View()), Reset, sync.maxBuffer, topLevels, old(Out()))
    {
      sync.Reset();
      lastTop := None;
    }
  }
}
