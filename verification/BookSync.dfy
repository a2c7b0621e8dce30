/** Keeping the local book in step with the exchange: buffer events, fetch a snapshot, replay, apply
    live, and start over on a gap.  Each step of the coroutine between two suspensions is one transition. */
module BookSync {
  import opened Basics
  import opened OrderBook

  /** The resynchronising task: none, waiting for a snapshot, or waiting before the next attempt. */
  datatype Task = NoTask | Fetching | Sleeping

  datatype Sync = Sync(book: Book, buffer: seq<Diff>, task: Task, gaps: nat, resyncs: nat)

  const START := Sync(EMPTY, [], NoTask, 0, 0)

  predicate Synced(s: Sync) {
    s.task.NoTask? && s.book.id.Some?
  }

  function Newest(evs: seq<Diff>, n: nat): seq<Diff> {
    if |evs| > n then evs[|evs| - n..] else evs
  }

  /** Apply buffered events to a snapshot: the book and what is left, which is all from the first gap on. */
  function Replayed(b: Book, evs: seq<Diff>): (Book, seq<Diff>)
    decreases |evs|
  {
    if evs == [] then (b, [])
    else
      match Check(b, evs[0])
      case Applied => Replayed(WithDiff(b, evs[0]), evs[1..])
      case Dropped => Replayed(b, evs[1..])
      case _ => (EMPTY, evs)
  }

  // ---- transitions ----------------------------------------------------------

  datatype Step = Deliver(ev: Diff) | FetchFails | Arrives(snap: Snapshot) | Wake | Reset

  function Buffered(s: Sync, ev: Diff, maxBuffer: nat): Sync {
    s.(buffer := Newest(s.buffer + [ev], maxBuffer), task := if s.task.NoTask? then Fetching else s.task)
  }

  function OnGap(s: Sync, ev: Diff): Sync {
    Sync(EMPTY, [ev], Fetching, s.gaps + 1, s.resyncs)
  }

  function OnDiff(s: Sync, ev: Diff, maxBuffer: nat): Sync {
    if !Synced(s) then Buffered(s, ev, maxBuffer)
    else
      match Check(s.book, ev)
      case Applied => s.(book := WithDiff(s.book, ev))
      case Dropped => s
      case _ => OnGap(s, ev)
  }

  function OnSnapshot(s: Sync, snap: Snapshot): Sync {
    var (b, rest) := Replayed(FromSnapshot(snap), s.buffer);
    Sync(b, rest, if rest == [] then NoTask else Sleeping, s.gaps, s.resyncs + 1)
  }

  /** A step of the task that is not due leaves the state alone. */
  function Next(s: Sync, step: Step, maxBuffer: nat): Sync {
    match step
    case Deliver(ev) => OnDiff(s, ev, maxBuffer)
    case FetchFails => if s.task.Fetching? then s.(task := Sleeping) else s
    case Arrives(snap) => if s.task.Fetching? then OnSnapshot(s, snap) else s
    case Wake => if s.task.Sleeping? then s.(task := Fetching) else s
    case Reset => s.(book := EMPTY, buffer := [], task := NoTask)
  }

  ghost function RunOf(steps: seq<Step>, maxBuffer: nat): Sync {
    if steps == [] then START else Next(RunOf(steps[..|steps| - 1], maxBuffer), steps[|steps| - 1], maxBuffer)
  }

  /** The event delivered most recently; lost events were never delivered. */
  ghost function LastDelivered(steps: seq<Step>): Option<Diff> {
    if steps == [] then None
    else if steps[|steps| - 1].Deliver? then Some(steps[|steps| - 1].ev)
    else LastDelivered(steps[..|steps| - 1])
  }

  /** What the exchange sends is true of its history; which of it arrives, and when, is open. */
  ghost predicate TrueStep(h: seq<Change>, step: Step) {
    match step
    case Deliver(ev) => TrueDiff(h, ev)
    case Arrives(snap) => TrueSnapshot(h, snap)
    case _ => true
  }

  // ---- safety ---------------------------------------------------------------

  ghost predicate Sound(h: seq<Change>, s: Sync, delivered: Option<Diff>) {
    && Exact(h, s.book)
    && (forall ev :: ev in s.buffer ==> TrueDiff(h, ev))
    && (s.task.NoTask? ==> s.buffer == [])
    && (!s.task.NoTask? ==> s.book == EMPTY)
    && (s.buffer != [] ==> delivered == Some(s.buffer[|s.buffer| - 1]))
    && (s.book.ready ==> delivered.Some? && s.book.id == Some(delivered.value.lastId))
  }

  /** What a replay of `evs` on `b` leaves: an exact book, and nothing of the buffer or all of it from
      the first gap on; a book that follows stands at the last event. */
  ghost predicate Replays(h: seq<Change>, b: Book, evs: seq<Diff>, r: Book, rest: seq<Diff>) {
    && Exact(h, r) && (forall ev :: ev in rest ==> ev in evs)
    && (rest != [] ==> r == EMPTY && evs != [] && rest[|rest| - 1] == evs[|evs| - 1])
    && (r.ready ==> if evs == [] then r == b else r.id == Some(evs[|evs| - 1].lastId))
  }

  lemma {:induction false} ReplayIsExact(h: seq<Change>, b: Book, evs: seq<Diff>)
    requires Exact(h, b) && forall ev :: ev in evs ==> TrueDiff(h, ev)
    ensures Replays(h, b, evs, Replayed(b, evs).0, Replayed(b, evs).1)
    decreases |evs|
  {
    hide Exact;
    hide TrueDiff;
    if evs == [] {
    } else {
      assert evs[0] in evs;
      if Check(b, evs[0]) == Applied {
        DiffKeepsExact(h, b, evs[0]);
        ReplayIsExact(h, WithDiff(b, evs[0]), evs[1..]);
      } else if Check(b, evs[0]) == Dropped {
        ReplayIsExact(h, b, evs[1..]);
      } else {
        EmptyIsExact(h);
      }
    }
  }

  lemma EmptyIsExact(h: seq<Change>)
    ensures Exact(h, EMPTY) && forall b :: Exact(h, b) && b.id.None? ==> b == EMPTY
  {
  }

  /** Cutting the buffer drops the oldest events; if any is left, the newest is. */
  lemma NewestOf(evs: seq<Diff>, ev: Diff, n: nat)
    ensures var r := Newest(evs + [ev], n);
            (forall x :: x in r ==> x == ev || x in evs) && (r != [] ==> r[|r| - 1] == ev)
  {
  }

  lemma NextIsSound(h: seq<Change>, s: Sync, delivered: Option<Diff>, step: Step, maxBuffer: nat)
    requires Quantities(h) && Sound(h, s, delivered) && TrueStep(h, step)
    ensures Sound(h, Next(s, step, maxBuffer), if step.Deliver? then Some(step.ev) else delivered)
  {
    hide Exact;
    hide TrueDiff;
    hide TrueSnapshot;
    EmptyIsExact(h);
    match step {
      case Deliver(ev) =>
        NewestOf(s.buffer, ev, maxBuffer);
        if Synced(s) && Check(s.book, ev) == Applied {
          DiffKeepsExact(h, s.book, ev);
        }
      case Arrives(snap) =>
        SnapshotIsExact(h, snap);
        ReplayIsExact(h, FromSnapshot(snap), s.buffer);
      case _ =>
    }
  }

  /** In every run, with events lost, snapshots of any age, buffers cut, gaps and resets: a book that
      stands at update k is the exchange's book after update k; a synchronised one has nothing
      waiting; and one that follows the stream stands at the last event delivered. */
  lemma {:induction false} EveryRunIsSound(h: seq<Change>, steps: seq<Step>, maxBuffer: nat)
    requires Quantities(h) && forall step :: step in steps ==> TrueStep(h, step)
    ensures Sound(h, RunOf(steps, maxBuffer), LastDelivered(steps))
  {
    if steps != [] {
      var n := |steps| - 1;
      EveryRunIsSound(h, steps[..n], maxBuffer);
      assert steps[n] in steps;
      NextIsSound(h, RunOf(steps[..n], maxBuffer), LastDelivered(steps[..n]), steps[n], maxBuffer);
    } else {
      EmptyIsExact(h);
    }
  }

  // ---- a lost event is noticed ----------------------------------------------

  /** Each event starts where the one before ended. */
  ghost predicate Chain(evs: seq<Diff>) {
    |evs| > 1 ==> evs[1].prevId == evs[0].lastId && Chain(evs[1..])
  }

  ghost predicate Ranges(evs: seq<Diff>) {
    forall i :: 0 <= i < |evs| ==> evs[i].prevId < evs[i].firstId <= evs[i].lastId
  }

  lemma {:induction false} ChainGrows(evs: seq<Diff>, i: nat, j: nat)
    requires Chain(evs) && Ranges(evs) && i < j < |evs|
    ensures evs[i].lastId <= evs[j].prevId
    ensures evs[i].lastId == evs[j].prevId <==> j == i + 1
    decreases j
  {
    if i > 0 {
      ChainGrows(evs[1..], i - 1, j - 1);
    } else if j > 1 {
      ChainGrows(evs[1..], 0, j - 1);
    }
  }

  /** While the book follows the stream, the next delivery is a gap exactly when an event was lost. */
  lemma LossIsNoticed(h: seq<Change>, steps: seq<Step>, maxBuffer: nat, stream: seq<Diff>, i: nat, j: nat)
    requires Quantities(h) && forall step :: step in steps ==> TrueStep(h, step)
    requires Chain(stream) && Ranges(stream) && i < j < |stream|
    requires RunOf(steps, maxBuffer).book.ready && LastDelivered(steps) == Some(stream[i])
    ensures var s, t := RunOf(steps, maxBuffer), Next(RunOf(steps, maxBuffer), Deliver(stream[j]), maxBuffer);
            if j == i + 1 then Synced(t) && t.book.ready && t.book.id == Some(stream[j].lastId) && t.gaps == s.gaps
            else t == Sync(EMPTY, [stream[j]], Fetching, s.gaps + 1, s.resyncs)
  {
    EveryRunIsSound(h, steps, maxBuffer);
    ChainGrows(stream, i, j);
  }

  // ---- when a snapshot ends the resynchronisation ---------------------------

  lemma {:induction false} LiveReplay(b: Book, evs: seq<Diff>)
    requires b.ready && b.id.Some?
    ensures Replayed(b, evs).1 == [] <==> Chain(evs) && (evs != [] ==> evs[0].prevId == b.id.value)
    ensures Replayed(b, evs).1 == [] && evs != [] ==> Replayed(b, evs).0.id == Some(evs[|evs| - 1].lastId)
    decreases |evs|
  {
    hide WithLevels;
    if evs == [] {
    } else {
      LiveReplay(WithDiff(b, evs[0]), evs[1..]);
    }
  }

  lemma {:induction false} ChainTail(evs: seq<Diff>, j: nat)
    requires Chain(evs) && j <= |evs|
    ensures Chain(evs[j..])
    decreases j
  {
    if j == 0 {
      assert evs[0..] == evs;
    } else {
      if |evs| == 1 {
        assert evs[1..] == [];
      }
      ChainTail(evs[1..], j - 1);
      assert evs[1..][j - 1..] == evs[j..];
    }
  }

  /** The events before `j` are older than the snapshot, event `j` spans it, the rest follow on. */
  ghost predicate Fits(evs: seq<Diff>, id: int, j: nat) {
    && j <= |evs|
    && (forall i :: 0 <= i < j ==> evs[i].lastId < id)
    && (j < |evs| ==> evs[j].firstId <= id <= evs[j].lastId && Chain(evs[j..]))
  }

  lemma FitsShifts(evs: seq<Diff>, id: int, j: nat)
    requires evs != [] && evs[0].lastId < id
    ensures Fits(evs[1..], id, j) <==> Fits(evs, id, j + 1)
  {
    if j + 1 <= |evs| {
      assert evs[1..][j..] == evs[j + 1..];
      assert forall i :: 0 < i < |evs| ==> evs[i] == evs[1..][i - 1];
    }
  }

  /** Exactly when a snapshot and the buffer fit together, for any buffer. */
  lemma {:induction false} ReplayFinishes(b: Book, evs: seq<Diff>)
    requires !b.ready && b.id.Some?
    ensures Replayed(b, evs).1 == [] <==> exists j: nat :: Fits(evs, b.id.value, j)
    ensures Replayed(b, evs).1 == [] ==> Replayed(b, evs).0.id.Some?
    ensures Replayed(b, evs).1 == [] && Replayed(b, evs).0.ready ==>
              evs != [] && Replayed(b, evs).0.id == Some(evs[|evs| - 1].lastId)
  {
    var id := b.id.value;
    if evs == [] {
      assert Fits(evs, id, 0);
    } else if evs[0].lastId < id {
      ReplayFinishes(b, evs[1..]);
      forall j: nat ensures Fits(evs[1..], id, j) <==> Fits(evs, id, j + 1) {
        FitsShifts(evs, id, j);
      }
      assert !Fits(evs, id, 0);
      hide Fits;
      if j: nat :| Fits(evs[1..], id, j) {
        assert Fits(evs, id, j + 1);
      }
      if j: nat :| Fits(evs, id, j) {
        assert Fits(evs[1..], id, j - 1);
      }
    } else if evs[0].firstId <= id {
      FirstSpans(b, evs);
    } else {
      assert forall j: nat :: j > 0 ==> !Fits(evs, id, j);
    }
  }

  lemma FirstSpans(b: Book, evs: seq<Diff>)
    requires !b.ready && b.id.Some? && evs != [] && evs[0].firstId <= b.id.value <= evs[0].lastId
    ensures Replayed(b, evs).1 == [] <==> exists j: nat :: Fits(evs, b.id.value, j)
    ensures Replayed(b, evs).1 == [] ==> Replayed(b, evs).0.id == Some(evs[|evs| - 1].lastId)
  {
    assert evs[0..] == evs;
    LiveReplay(WithDiff(b, evs[0]), evs[1..]);
    assert Chain(evs) <==> Fits(evs, b.id.value, 0);
  }

  /** With nothing lost from the buffer: a snapshot newer than all of it or inside one of its events
      ends the resynchronisation, any other does not. */
  lemma ContiguousFinishes(s: Sync, snap: Snapshot, maxBuffer: nat)
    requires s.task.Fetching? && Chain(s.buffer) && Ranges(s.buffer)
    ensures var t := Next(s, Arrives(snap), maxBuffer);
            Synced(t) <==> (forall i :: 0 <= i < |s.buffer| ==> s.buffer[i].lastId < snap.lastId)
                           || (exists j :: 0 <= j < |s.buffer| &&
                                 s.buffer[j].firstId <= snap.lastId <= s.buffer[j].lastId)
  {
    var b, evs := FromSnapshot(snap), s.buffer;
    ReplayFinishes(b, evs);
    if j :| 0 <= j < |evs| && evs[j].firstId <= snap.lastId <= evs[j].lastId {
      forall i | 0 <= i < j ensures evs[i].lastId < snap.lastId {
        ChainGrows(evs, i, j);
      }
      ChainTail(evs, j);
      assert Fits(evs, snap.lastId, j);
    } else if forall i :: 0 <= i < |evs| ==> evs[i].lastId < snap.lastId {
      assert Fits(evs, snap.lastId, |evs|);
    } else {
      assert forall j: nat :: Fits(evs, snap.lastId, j) ==> j == |evs|;
    }
  }

  /** When every update id lies in some event, only a snapshot older than the first buffered event fails. */
  lemma DenseFinishes(s: Sync, snap: Snapshot, maxBuffer: nat)
    requires s.task.Fetching? && Chain(s.buffer) && Ranges(s.buffer)
    requires forall i :: 0 <= i < |s.buffer| ==> s.buffer[i].firstId == s.buffer[i].prevId + 1
    ensures Synced(Next(s, Arrives(snap), maxBuffer)) <==> (s.buffer != [] ==> s.buffer[0].firstId <= snap.lastId)
  {
    ContiguousFinishes(s, snap, maxBuffer);
    var evs := s.buffer;
    if evs != [] {
      if evs[0].firstId <= snap.lastId && !(forall i :: 0 <= i < |evs| ==> evs[i].lastId < snap.lastId) {
        Spanned(evs, snap.lastId);
      }
      forall j | 0 < j < |evs| ensures evs[0].firstId < evs[j].firstId {
        ChainGrows(evs, 0, j);
      }
    }
  }

  lemma {:induction false} Spanned(evs: seq<Diff>, id: int)
    requires Chain(evs) && Ranges(evs) && evs != [] && evs[0].firstId <= id
    requires exists i :: 0 <= i < |evs| && id <= evs[i].lastId
    requires forall i :: 0 <= i < |evs| ==> evs[i].firstId == evs[i].prevId + 1
    ensures exists j :: 0 <= j < |evs| && evs[j].firstId <= id <= evs[j].lastId
  {
    if id <= evs[0].lastId {
    } else {
      var rest := evs[1..];
      assert forall i :: 0 <= i < |rest| ==> rest[i] == evs[i + 1];
      var i :| 0 <= i < |evs| && id <= evs[i].lastId;
      assert rest[i - 1] == evs[i];
      Spanned(rest, id);
      var j :| 0 <= j < |rest| && rest[j].firstId <= id <= rest[j].lastId;
      assert evs[j + 1] == rest[j];
    }
  }

  // ---- the synchroniser as it runs ------------------------------------------

  class BookSynchronizer {
    const book: LocalOrderBook
    const maxBuffer: nat
    var buffer: seq<Diff>
    var task: Task
    var gaps: nat
    var resyncs: nat

    function View(): Sync
      reads this, book
    {
      Sync(book.View(), buffer, task, gaps, resyncs)
    }

    constructor (maxBuffer: nat)
      ensures fresh(book) && View() == START && this.maxBuffer == maxBuffer
    {
      book := new LocalOrderBook();
      this.maxBuffer := maxBuffer;
      buffer, task, gaps, resyncs := [], NoTask, 0, 0;
    }

    method OnDiff(ev: Diff)
      modifies this, book
      ensures View() == Next(old(View()), Deliver(ev), maxBuffer)
    {
      if !(task.NoTask? && book.lastUpdateId.Some?) {
        buffer := buffer + [ev];
        if |buffer| > maxBuffer {
          buffer := buffer[|buffer| - maxBuffer..];
        }
        EnsureResync();
        return;
      }
      var r := book.ApplyDiff(ev);
      if r == Gap {
        gaps := gaps + 1;
        book.Reset();
        buffer := [ev];
        EnsureResync();
      }
    }

    method EnsureResync()
      modifies `task
      ensures task == if old(task).NoTask? then Fetching else old(task)
    {
      if task.NoTask? {
        task := Fetching;
      }
    }

    method Reset()
      modifies this, book
      ensures View() == Next(old(View()), Step.Reset, maxBuffer)
    {
      task := NoTask;
      buffer := [];
      book.Reset();
    }

    method FetchFailed()
      requires task.Fetching?
      modifies `task
      ensures View() == Next(old(View()), FetchFails, maxBuffer)
    {
      task := Sleeping;
    }

    method Awake()
      requires task.Sleeping?
      modifies `task
      ensures View() == Next(old(View()), Wake, maxBuffer)
    {
      task := Fetching;
    }

    /** The task's turn when its snapshot has come: apply it, replay, and be done or try again. */
    method SnapshotCame(snap: Snapshot)
      requires task.Fetching?
      modifies this, book
      ensures View() == Next(old(View()), Arrives(snap), maxBuffer)
    {
      resyncs := resyncs + 1;
      book.ApplySnapshot(snap);
      var pending := buffer;
      buffer := [];
      var i, failed := 0, false;
      while i < |pending| && !failed
        invariant i <= |pending| && buffer == [] && book.lastUpdateId.Some?
        invariant gaps == old(gaps) && resyncs == old(resyncs) + 1 && task == old(task)
        invariant Replayed(FromSnapshot(snap), pending)
               == if failed then (EMPTY, pending[i..]) else Replayed(book.View(), pending[i..])
        invariant failed ==> i < |pending|
        decreases |pending| - i, !failed
      {
        assert pending[i..][0] == pending[i] && pending[i..][1..] == pending[i + 1..];
        var r := book.ApplyDiff(pending[i]);
        if r == Gap {
          failed := true;
        } else {
          i := i + 1;
        }
      }
      if failed {
        book.Reset();
        buffer := pending[i..] + buffer;
        task := Sleeping;
      } else {
        task := NoTask;
      }
    }
  }
}
