/** The entry and exit callbacks a feed makes for the traded logic. */
module Callbacks {
  import opened Signal
  import opened LogicViews
  import opened Engine

  datatype Event = OnEntry(e: Entry) | OnExit(tr: Trade)

  /** The callbacks that report a list of closed trades. */
  ghost function EventLog(done: seq<Trade>): seq<Event> {
    if done == [] then []
    else EventLog(done[..|done| - 1]) + [OnEntry(done[|done| - 1].entry), OnExit(done[|done| - 1])]
  }

  /** The callbacks that report a state: every closed trade, then the open position. */
  ghost function StreamOf(lv: LogicView): seq<Event> {
    EventLog(lv.done) + if lv.pos.Some? then [OnEntry(lv.pos.value)] else []
  }

  function ExitsIn(events: seq<Event>): seq<Trade> {
    if events == [] then []
    else
      var before := ExitsIn(events[..|events| - 1]);
      if events[|events| - 1].OnExit? then before + [events[|events| - 1].tr] else before
  }

  lemma EventLogAppend(done: seq<Trade>, tr: Trade)
    ensures EventLog(done + [tr]) == EventLog(done) + [OnEntry(tr.entry), OnExit(tr)]
  {
    assert (done + [tr])[..|done|] == done;
  }

  lemma ExitsInAppend(events: seq<Event>, x: Event)
    ensures ExitsIn(events + [x]) == if x.OnExit? then ExitsIn(events) + [x.tr] else ExitsIn(events)
  {
    assert (events + [x])[..|events|] == events;
  }

  /** The exits in the stream are the engine's trades, one for one. */
  lemma {:induction false} ExitsOfLog(done: seq<Trade>)
    ensures ExitsIn(EventLog(done)) == done
  {
    if done == [] {
    } else {
      ExitsOfLog(done[..|done| - 1]);
      ExitsOfTwo(EventLog(done[..|done| - 1]), done[|done| - 1]);
    }
  }

  lemma ExitsOfTwo(events: seq<Event>, tr: Trade)
    ensures ExitsIn(events + [OnEntry(tr.entry), OnExit(tr)]) == ExitsIn(events) + [tr]
  {
    hide ExitsIn;
    ExitsInAppend(events, OnEntry(tr.entry));
    ExitsInAppend(events + [OnEntry(tr.entry)], OnExit(tr));
    assert events + [OnEntry(tr.entry), OnExit(tr)] == events + [OnEntry(tr.entry)] + [OnExit(tr)];
  }

  lemma ExitsOfStream(lv: LogicView)
    ensures ExitsIn(StreamOf(lv)) == lv.done
  {
    hide ExitsIn;
    ExitsOfLog(lv.done);
    if lv.pos.Some? {
      ExitsInAppend(EventLog(lv.done), OnEntry(lv.pos.value));
    } else {
      assert StreamOf(lv) == EventLog(lv.done);
    }
  }

  /** Entries and exits alternate, and each exit answers the entry just before it. */
  ghost predicate Alternating(events: seq<Event>) {
    forall i :: 0 <= i < |events| ==> AtTurn(events, i)
  }

  ghost predicate AtTurn(events: seq<Event>, i: nat)
    requires i < |events|
  {
    if i % 2 == 0 then events[i].OnEntry? else events[i].OnExit? && events[i - 1] == OnEntry(events[i].tr.entry)
  }

  lemma AlternatingAppend(events: seq<Event>, more: seq<Event>)
    requires Alternating(events) && |events| % 2 == 0
    requires |more| <= 2 && (more != [] ==> more[0].OnEntry?)
    requires |more| == 2 ==> more[1].OnExit? && more[0] == OnEntry(more[1].tr.entry)
    ensures Alternating(events + more)
  {
    var all := events + more;
    forall i | 0 <= i < |all| ensures AtTurn(all, i) {
      if i < |events| {
        assert AtTurn(events, i);
      }
    }
  }

  lemma {:induction false} LogAlternates(done: seq<Trade>)
    ensures |EventLog(done)| == 2 * |done| && Alternating(EventLog(done))
  {
    if done == [] {
    } else {
      LogAlternates(done[..|done| - 1]);
      AlternatingAppend(EventLog(done[..|done| - 1]), [OnEntry(done[|done| - 1].entry), OnExit(done[|done| - 1])]);
    }
  }

  lemma StreamAlternates(lv: LogicView)
    ensures Alternating(StreamOf(lv))
  {
    LogAlternates(lv.done);
    AlternatingAppend(EventLog(lv.done), if lv.pos.Some? then [OnEntry(lv.pos.value)] else []);
  }

  lemma {:induction false} TradesOfPrefix(trades: seq<Trade>, n: nat, lg: Logic)
    requires n <= |trades|
    ensures TradesOf(trades[..n], lg) <= TradesOf(trades, lg)
  {
    if n < |trades| {
      TradesOfPrefix(trades[..|trades| - 1], n, lg);
      assert trades[..|trades| - 1][..n] == trades[..n];
    } else {
      assert trades[..n] == trades;
    }
  }
}
